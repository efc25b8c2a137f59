/** The on-screen preview of the report screen (frontend/src/pages/Relatorios.jsx,
    lines 486-1009), where it computes something the export does not or
    computes it differently: performance keyed by the stored machine id, the
    daily summary, the packaging estimate joined with the tool
    configurations, the productivity items with their per-day quantities and
    manual adjustments, the display of downtime types, and the traceability
    rows. */
module Previa {
  import opened Base
  import opened Text
  import opened Records
  import opened Tempo
  import opened Filtragem
  import opened Ordenacao
  import opened Agrupamento
  import opened Linhas
  import opened CodeParser
  import opened Relatorio
  import opened Rastreabilidade
  import opened Armazenamento
  import opened Exportacao
  import Compactacao

  // ---------------------------------------------------------------------------
  // Performance (lines 487-500)

  /** A record's bucket in the preview: keyed `operador__maquina` like the
      export, but with the machine id as stored rather than its catalogue
      name, so it is the export's bucket for an empty catalogue. */
  function ParcelaDesempenhoPrevia(a: Apontamento): (c: Parcela)
    ensures c == ParcelaDesempenho(map[], a)
  {
    var op := Or(a.operador, "-");
    var mq := Or(a.maquina, "-");
    Parcela(op + "__" + mq, op, mq, a.quantidade, Minutos(a.inicio, a.fim), 0)
  }

  function DesempenhoPrevia(f: Filtros, d: Dados): seq<Parcela> {
    Agrupar(Mapear(Filtrados(f, d), ParcelaDesempenhoPrevia))
  }

  /** The preview's buckets still add up to the filtered quantity. */
  lemma DesempenhoPreviaTotal(f: Filtros, d: Dados)
    ensures Soma(DesempenhoPrevia(f, d), Qtd) == QtdTotal(Filtrados(f, d))
  {
    var cs := Mapear(Filtrados(f, d), ParcelaDesempenhoPrevia);
    AgruparConserva(cs, Qtd);
    MapearQtd(Filtrados(f, d), ParcelaDesempenhoPrevia);
  }

  /** Where the catalogue names a machine, the preview files the record under
      the stored id and the export under the name: the two tables differ. */
  lemma DesempenhoDiverge(mm: map<string, string>, a: Apontamento)
    requires a.maquina != "" && a.maquina in mm && mm[a.maquina] != "" && mm[a.maquina] != a.maquina
    ensures ParcelaDesempenhoPrevia(a).b == a.maquina
    ensures ParcelaDesempenho(mm, a).b == mm[a.maquina]
    ensures ParcelaDesempenhoPrevia(a).chave != ParcelaDesempenho(mm, a).chave
  {
    var p := Or(a.operador, "-") + "__";
    var x := ParcelaDesempenhoPrevia(a).chave;
    var y := ParcelaDesempenho(mm, a).chave;
    assert x == p + a.maquina && y == p + mm[a.maquina];
    assert x[|p|..] == a.maquina;
    assert y[|p|..] == mm[a.maquina];
  }

  // ---------------------------------------------------------------------------
  // Daily summary (lines 677-695)

  /** A production record's bucket: keyed `dia__maquina` with the stored
      machine id, which is the export's for an empty catalogue. */
  function ParcelaOeeProducaoPrevia(a: Apontamento): (c: Parcela)
    ensures c == ParcelaOeeProducao(map[], a)
  {
    var dia := DiaOuTraco(a.inicio);
    var mq := Or(a.maquina, "-");
    Parcela(dia + "__" + mq, dia, mq, a.quantidade, Minutos(a.inicio, a.fim), 0)
  }

  /** A downtime record's bucket as written (lines 688-694): the day and the
      minutes come from the stored `inicio`/`fim` fields (`p.inicio`,
      `p.fim`), not from the normalised `inicio_norm`/`fim_norm`. */
  function ParcelaOeeParadaPrevia(p: ParadaNorm): (c: Parcela)
    ensures c.qtd == 0 && c.m1 == 0
    ensures p.bruta.inicio.None? ==> c.a == "-" && c.m2 == 0
  {
    var dia := DiaOuTraco(p.bruta.inicio);
    var mq := Or(p.bruta.maquina, "-");
    Parcela(dia + "__" + mq, dia, mq, 0, 0, Minutos(p.bruta.inicio, p.bruta.fim))
  }

  /** The downtime bucket with the normalised start and end, as every other
      use of the filtered downtime reads them: the export's for an empty
      catalogue. */
  function ParcelaOeeParadaCorrigida(p: ParadaNorm): (c: Parcela)
    ensures c == ParcelaOeeParada(map[], p)
  {
    var dia := DiaOuTraco(p.inicio_norm);
    var mq := Or(p.bruta.maquina, "-");
    Parcela(dia + "__" + mq, dia, mq, 0, 0, Minutos(p.inicio_norm, p.fim_norm))
  }

  /** The buckets of some downtime records, in order. */
  function MapearParadas(ps: seq<ParadaNorm>, g: ParadaNorm -> Parcela): (cs: seq<Parcela>)
    ensures |cs| == |ps|
  {
    if |ps| == 0 then [] else MapearParadas(ps[..|ps| - 1], g) + [g(ps[|ps| - 1])]
  }

  /** The minutes of some downtime records under a reading of their ends. */
  function TotalMinutos(ps: seq<ParadaNorm>, dur: ParadaNorm -> int): int {
    if |ps| == 0 then 0 else TotalMinutos(ps[..|ps| - 1], dur) + dur(ps[|ps| - 1])
  }

  /** The minutes of a record read from its stored fields. */
  function DuracaoBruta(p: ParadaNorm): int { Minutos(p.bruta.inicio, p.bruta.fim) }

  /** The minutes of a record read from its normalised fields. */
  function DuracaoNorm(p: ParadaNorm): int { Minutos(p.inicio_norm, p.fim_norm) }

  function OeePreviaDe(f: Filtros, d: Dados, g: ParadaNorm -> Parcela): seq<Parcela> {
    var c1 := Mapear(Filtrados(f, d), ParcelaOeeProducaoPrevia);
    var c2 := MapearParadas(ParadasF(f, d), g);
    OrdenarAsc(Agrupar(c1 + c2), RotuloA)
  }

  /** The preview's daily summary as written. */
  function OeePrevia(f: Filtros, d: Dados): seq<Parcela> {
    OeePreviaDe(f, d, ParcelaOeeParadaPrevia)
  }

  /** The daily summary with the normalised downtime ends. */
  function OeePreviaCorrigida(f: Filtros, d: Dados): seq<Parcela> {
    OeePreviaDe(f, d, ParcelaOeeParadaCorrigida)
  }

  /** Production buckets carry no minutes stopped. */
  lemma {:induction false} MapearSemParada(xs: seq<Apontamento>, h: Apontamento -> Parcela)
    requires forall a :: h(a).m2 == 0
    ensures Soma(Mapear(xs, h), M2) == 0
  {
    if |xs| > 0 {
      MapearSemParada(xs[..|xs| - 1], h);
      var cs := Mapear(xs, h);
      assert cs[..|cs| - 1] == Mapear(xs[..|xs| - 1], h);
    }
  }

  /** Downtime buckets add up their own minutes. */
  lemma {:induction false} MapearParadasM2(ps: seq<ParadaNorm>, g: ParadaNorm -> Parcela, dur: ParadaNorm -> int)
    requires forall p :: g(p).m2 == dur(p)
    ensures Soma(MapearParadas(ps, g), M2) == TotalMinutos(ps, dur)
  {
    if |ps| > 0 {
      MapearParadasM2(ps[..|ps| - 1], g, dur);
      var cs := MapearParadas(ps, g);
      assert cs[..|cs| - 1] == MapearParadas(ps[..|ps| - 1], g);
    }
  }

  lemma {:induction false} MapearParadasQtd(ps: seq<ParadaNorm>, g: ParadaNorm -> Parcela)
    requires forall p :: g(p).qtd == 0
    ensures Soma(MapearParadas(ps, g), Qtd) == 0
  {
    if |ps| > 0 {
      MapearParadasQtd(ps[..|ps| - 1], g);
      var cs := MapearParadas(ps, g);
      assert cs[..|cs| - 1] == MapearParadas(ps[..|ps| - 1], g);
    }
  }

  /** The daily summary's totals: its `producao` adds up to the filtered
      quantity, and its `paradaMin` to the minutes of the filtered downtime
      as the downtime buckets read them. */
  lemma OeePreviaDeTotais(f: Filtros, d: Dados, g: ParadaNorm -> Parcela, dur: ParadaNorm -> int)
    requires forall p :: g(p).qtd == 0 && g(p).m2 == dur(p)
    ensures Soma(OeePreviaDe(f, d, g), Qtd) == QtdTotal(Filtrados(f, d))
    ensures Soma(OeePreviaDe(f, d, g), M2) == TotalMinutos(ParadasF(f, d), dur)
  {
    OeeTotaisDe(Filtrados(f, d), ParadasF(f, d), g, dur);
  }

  lemma OeeTotaisDe(xs: seq<Apontamento>, ps: seq<ParadaNorm>, g: ParadaNorm -> Parcela, dur: ParadaNorm -> int)
    requires forall p :: g(p).qtd == 0 && g(p).m2 == dur(p)
    ensures var c1 := Mapear(xs, ParcelaOeeProducaoPrevia);
      var c2 := MapearParadas(ps, g);
      Soma(OrdenarAsc(Agrupar(c1 + c2), RotuloA), Qtd) == QtdTotal(xs) &&
      Soma(OrdenarAsc(Agrupar(c1 + c2), RotuloA), M2) == TotalMinutos(ps, dur)
  {
    OeeTotalQtd(xs, ps, g);
    OeeTotalM2(xs, ps, g, dur);
  }

  lemma OeeTotalQtd(xs: seq<Apontamento>, ps: seq<ParadaNorm>, g: ParadaNorm -> Parcela)
    requires forall p :: g(p).qtd == 0
    ensures var c1 := Mapear(xs, ParcelaOeeProducaoPrevia);
      Soma(OrdenarAsc(Agrupar(c1 + MapearParadas(ps, g)), RotuloA), Qtd) == QtdTotal(xs)
  {
    var c1 := Mapear(xs, ParcelaOeeProducaoPrevia);
    var c2 := MapearParadas(ps, g);
    SomaAgrupadaOrdenada(c1, c2, Qtd);
    MapearQtd(xs, ParcelaOeeProducaoPrevia);
    MapearParadasQtd(ps, g);
  }

  lemma OeeTotalM2(xs: seq<Apontamento>, ps: seq<ParadaNorm>, g: ParadaNorm -> Parcela, dur: ParadaNorm -> int)
    requires forall p :: g(p).m2 == dur(p)
    ensures var c1 := Mapear(xs, ParcelaOeeProducaoPrevia);
      Soma(OrdenarAsc(Agrupar(c1 + MapearParadas(ps, g)), RotuloA), M2) == TotalMinutos(ps, dur)
  {
    var c1 := Mapear(xs, ParcelaOeeProducaoPrevia);
    var c2 := MapearParadas(ps, g);
    SomaAgrupadaOrdenada(c1, c2, M2);
    MapearSemParada(xs, ParcelaOeeProducaoPrevia);
    MapearParadasM2(ps, g, dur);
  }

  /** Grouping two streams of contributions and sorting the buckets by day
      keeps each total. */
  lemma SomaAgrupadaOrdenada(c1: seq<Parcela>, c2: seq<Parcela>, m: Medida)
    ensures Soma(OrdenarAsc(Agrupar(c1 + c2), RotuloA), m) == Soma(c1, m) + Soma(c2, m)
  {
    SomaOrdenarAsc(Agrupar(c1 + c2), RotuloA, m);
    AgruparConserva(c1 + c2, m);
    SomaConcatP(c1, c2, m);
  }

  /** As written, the minutes stopped are those of the stored fields. */
  lemma OeePreviaParadas(f: Filtros, d: Dados)
    ensures Soma(OeePrevia(f, d), M2) == TotalMinutos(ParadasF(f, d), DuracaoBruta)
    ensures Soma(OeePrevia(f, d), Qtd) == QtdTotal(Filtrados(f, d))
  {
    OeePreviaDeTotais(f, d, ParcelaOeeParadaPrevia, DuracaoBruta);
  }

  /** Corrected, the minutes stopped are the durations of the filtered
      downtime, the same the downtime report shows. */
  lemma OeePreviaCorrigidaParadas(f: Filtros, d: Dados)
    ensures Soma(OeePreviaCorrigida(f, d), M2) == TotalMinutos(ParadasF(f, d), DuracaoNorm)
    ensures Soma(OeePreviaCorrigida(f, d), Qtd) == QtdTotal(Filtrados(f, d))
    ensures NaoDecrescenteTexto(OeePreviaCorrigida(f, d), RotuloA)
  {
    OeePreviaDeTotais(f, d, ParcelaOeeParadaCorrigida, DuracaoNorm);
  }

  /** A downtime record stored with only `inicio_timestamp`/`fim_timestamp`
      passes the filter on its normalised start, yet as written it lands on
      day "-" with no minutes; corrected, it counts its duration. */
  lemma OeePreviaPerdeParada(p: ParadaNorm)
    requires p.bruta.inicio.None? && DuracaoNorm(p) > 0
    ensures ParcelaOeeParadaPrevia(p).a == "-" && ParcelaOeeParadaPrevia(p).m2 == 0
    ensures ParcelaOeeParadaCorrigida(p).m2 == DuracaoNorm(p) > 0
  { }

  /** One such record: ten minutes of downtime the preview does not show. */
  lemma OeePreviaExemplo()
    ensures var i := Instant("2024-05-02T08:00:00Z", 0, "2024-05-02", "", "", "");
      var e := Instant("2024-05-02T08:10:00Z", 600000, "2024-05-02", "", "", "");
      var p := Normalizar(Parada("M1", None, Some(i), None, Some(e), "", "", "", ""));
      ParcelaOeeParadaPrevia(p).m2 == 0 && ParcelaOeeParadaCorrigida(p).m2 == 10 &&
      ParcelaOeeParadaCorrigida(p).a == "2024-05-02"
  {
    assert ArredondarDiv(600000, 60000) == 10;
  }

  // ---------------------------------------------------------------------------
  // Downtime types (lines 625-626)

  /** The label of a downtime type: the four known codes by name, any other
      value as it is, "-" for none. */
  function TipoExibido(tp: string): (r: string)
    ensures r != ""
    ensures tp == "setup" ==> r == "Setup"
    ensures tp == "nao_planejada" ==> r == "Não Planejada"
    ensures tp == "manutencao" ==> r == "Manutenção"
    ensures tp == "planejada" ==> r == "Planejada"
    ensures tp != "setup" && tp != "nao_planejada" && tp != "manutencao" && tp != "planejada" ==> r == Or(tp, "-")
  {
    if tp == "setup" then "Setup"
    else if tp == "nao_planejada" then "Não Planejada"
    else if tp == "manutencao" then "Manutenção"
    else if tp == "planejada" then "Planejada"
    else Or(tp, "-")
  }

  // ---------------------------------------------------------------------------
  // Packaging estimate (lines 728-768)

  /** `{}`, the configuration of a tool nobody configured: every field reads
      as missing, hence as 0 or "". */
  const CfgVazia: FerramentaCfg := FerramentaCfg("", "", 0, 0, 0, 0)

  /** The map the loop of lines 739-743 builds: entries without a tool are
      skipped, a later entry for the same tool replaces an earlier one. */
  function CfgMapaSpec(cs: seq<FerramentaCfg>): map<string, FerramentaCfg> {
    if |cs| == 0 then map[]
    else
      var m := CfgMapaSpec(cs[..|cs| - 1]);
      var c := cs[|cs| - 1];
      if c.ferramenta == "" then m else m[c.ferramenta := c]
  }

  /** `cfgMap`. */
  method CfgMapa(cs: seq<FerramentaCfg>) returns (m: map<string, FerramentaCfg>)
    ensures m == CfgMapaSpec(cs)
  {
    m := map[];
    for i := 0 to |cs|
      invariant m == CfgMapaSpec(cs[..i])
    {
      var c := cs[i];
      assert cs[..i + 1][..i] == cs[..i];
      if c.ferramenta == "" {
        continue;
      }
      m := m[c.ferramenta := c];
    }
    assert cs[..|cs|] == cs;
  }

  /** A configured tool maps to its last configuration. */
  lemma {:induction false} CfgMapaUltima(cs: seq<FerramentaCfg>, i: int)
    requires 0 <= i < |cs| && cs[i].ferramenta != ""
    requires forall j :: i < j < |cs| ==> cs[j].ferramenta != cs[i].ferramenta
    ensures cs[i].ferramenta in CfgMapaSpec(cs) && CfgMapaSpec(cs)[cs[i].ferramenta] == cs[i]
  {
    if i < |cs| - 1 {
      CfgMapaUltima(cs[..|cs| - 1], i);
    }
  }

  /** Every entry of the map is a configuration of that tool, and no entry
      has an empty tool. */
  lemma {:induction false} CfgMapaChaves(cs: seq<FerramentaCfg>, k: string)
    requires k in CfgMapaSpec(cs)
    ensures k != "" && CfgMapaSpec(cs)[k].ferramenta == k && CfgMapaSpec(cs)[k] in cs
  {
    var c := cs[|cs| - 1];
    if c.ferramenta == "" || c.ferramenta != k {
      CfgMapaChaves(cs[..|cs| - 1], k);
      assert CfgMapaSpec(cs[..|cs| - 1])[k] in cs[..|cs| - 1];
    }
  }

  /** `cfgMap[l.ferramenta] || {}`. */
  function CfgDe(cm: map<string, FerramentaCfg>, k: string): (c: FerramentaCfg)
    ensures k !in cm ==> c == CfgVazia
  {
    if k in cm then cm[k] else CfgVazia
  }

  /** `Math.ceil(q / d)` for a positive divisor: the fewest units of `d` that
      hold `q`. */
  function Teto(q: int, d: int): (r: int)
    requires d > 0
    ensures d * (r - 1) < q <= d * r
  {
    var t := (-q) / d;
    assert d * t <= -q < d * t + d;
    -t
  }

  /** A preview row of the estimate; `peso_estimado` is not modelled. */
  datatype Estimativa = Estimativa(
    ferramenta: string, comprimento_mm: Cell, quantidade: int, embalagem: string,
    pallets: Cell, caixas: Cell, ripas: Cell)

  /** The estimate for one tool bucket (lines 744-768): packed on pallets
      unless configured otherwise; by pallet, the fewest pallets that hold the
      quantity and their slats, "-" without a positive pallet capacity; by
      box, the fewest boxes, "-" without a positive box capacity; the unused
      counts are "-". */
  function Estimar(g: Parcela, cm: map<string, FerramentaCfg>): (e: Estimativa)
    ensures var c := CfgDe(cm, g.a);
      e.ferramenta == g.a && e.quantidade == g.qtd &&
      e.embalagem == Or(c.embalagem, "pallet") &&
      e.comprimento_mm == (if c.comprimento_mm != 0 then Num(c.comprimento_mm) else Str("-"))
    ensures var c := CfgDe(cm, g.a);
      e.embalagem == "pallet" ==>
        e.caixas == Str("-") &&
        (c.pcs_por_pallet <= 0 ==> e.pallets == Str("-") && e.ripas == Str("-")) &&
        (c.pcs_por_pallet > 0 ==> (e.pallets.Num? &&
          c.pcs_por_pallet * (e.pallets.n - 1) < g.qtd <= c.pcs_por_pallet * e.pallets.n &&
          e.ripas == Num(e.pallets.n * c.ripas_por_pallet)))
    ensures var c := CfgDe(cm, g.a);
      e.embalagem != "pallet" ==>
        e.pallets == Str("-") && e.ripas == Str("-") &&
        (c.pcs_por_caixa <= 0 ==> e.caixas == Str("-")) &&
        (c.pcs_por_caixa > 0 ==> (e.caixas.Num? &&
          c.pcs_por_caixa * (e.caixas.n - 1) < g.qtd <= c.pcs_por_caixa * e.caixas.n))
  {
    var c := CfgDe(cm, g.a);
    var emb := Or(c.embalagem, "pallet");
    var comp := if c.comprimento_mm != 0 then Num(c.comprimento_mm) else Str("-");
    if emb == "pallet" then
      var ppp := c.pcs_por_pallet;
      var rpp := c.ripas_por_pallet;
      var pallets := if ppp > 0 then Num(Teto(g.qtd, ppp)) else Str("-");
      var ripas := if ppp > 0 then Num(Teto(g.qtd, ppp) * rpp) else Str("-");
      Estimativa(g.a, comp, g.qtd, emb, pallets, Str("-"), ripas)
    else
      var ppc := c.pcs_por_caixa;
      var caixas := if ppc > 0 then Num(Teto(g.qtd, ppc)) else Str("-");
      Estimativa(g.a, comp, g.qtd, emb, Str("-"), caixas, Str("-"))
  }

  /** The preview's estimate: one row per tool bucket of the export, in the
      same order, with the same quantity. */
  function EstimativasPrevia(f: Filtros, d: Dados): (es: seq<Estimativa>)
    ensures var gs := Agrupar(ContribExpedicao(f, d));
      |es| == |gs| && forall i :: 0 <= i < |es| ==> es[i].ferramenta == gs[i].a && es[i].quantidade == gs[i].qtd
  {
    var gs := Agrupar(ContribExpedicao(f, d));
    var cm := CfgMapaSpec(d.ferramentasCfg);
    seq(|gs|, i requires 0 <= i < |gs| => Estimar(gs[i], cm))
  }

  // ---------------------------------------------------------------------------
  // Productivity items (lines 808-833)

  /** `toISODate(a.inicio)`, "" when missing. */
  function DiaDe(a: Apontamento): string {
    match ToISODate(a.inicio)
    case Some(s) => s
    case None => ""
  }

  /** The item key of a record, `ferramenta__comprimento`. */
  function ItemDe(a: Apontamento): string { ParcelaProdutividade(a).chave }

  /** One record's step on `porDia`: the record opens its item, and with a
      day it adds its quantity to that day. */
  function PassoPorDia(m: map<string, map<string, int>>, k: string, dia: string, q: int): map<string, map<string, int>> {
    var dias := if k in m then m[k] else map[];
    m[k := if dia != "" then dias[dia := (if dia in dias then dias[dia] else 0) + q] else dias]
  }

  /** `porDia` of every item after the records `xs`. */
  function PorDiaSpec(xs: seq<Apontamento>, item: Apontamento -> string): map<string, map<string, int>> {
    if |xs| == 0 then map[]
    else
      var a := xs[|xs| - 1];
      PassoPorDia(PorDiaSpec(xs[..|xs| - 1], item), item(a), DiaDe(a), a.quantidade)
  }

  /** The loop of lines 811-823, as far as `porDia` goes. */
  method AcumularPorDia(xs: seq<Apontamento>) returns (m: map<string, map<string, int>>)
    ensures m == PorDiaSpec(xs, ItemDe)
  {
    m := map[];
    var i := 0;
    while i < |xs|
      invariant 0 <= i <= |xs|
      invariant m == PorDiaSpec(xs[..i], ItemDe)
    {
      var a := xs[i];
      var k := ItemDe(a);
      var dia := DiaDe(a);
      PorDiaPasso(xs, ItemDe, i);
      m := PassoPorDia(m, k, dia, a.quantidade);
      i := i + 1;
    }
    assert xs[..|xs|] == xs;
  }

  lemma PorDiaPasso(xs: seq<Apontamento>, item: Apontamento -> string, i: int)
    requires 0 <= i < |xs|
    ensures PorDiaSpec(xs[..i + 1], item) == PassoPorDia(PorDiaSpec(xs[..i], item), item(xs[i]), DiaDe(xs[i]), xs[i].quantidade)
  {
    assert xs[..i + 1][..i] == xs[..i];
  }

  /** The quantity the records of item `k` produced on day `dia`. */
  function QtdDoDia(xs: seq<Apontamento>, item: Apontamento -> string, k: string, dia: string): int {
    if |xs| == 0 then 0
    else
      var a := xs[|xs| - 1];
      QtdDoDia(xs[..|xs| - 1], item, k, dia) + (if item(a) == k && DiaDe(a) == dia then a.quantidade else 0)
  }

  /** An item is present exactly when some record belongs to it. */
  lemma {:induction false} PorDiaItens(xs: seq<Apontamento>, item: Apontamento -> string, k: string)
    ensures k in PorDiaSpec(xs, item) <==> exists i :: 0 <= i < |xs| && item(xs[i]) == k
  {
    if |xs| > 0 {
      var ini := xs[..|xs| - 1];
      PorDiaItens(ini, item, k);
      assert forall i :: 0 <= i < |ini| ==> ini[i] == xs[i];
      if item(xs[|xs| - 1]) != k && k in PorDiaSpec(xs, item) {
        var i :| 0 <= i < |ini| && item(ini[i]) == k;
        assert item(xs[i]) == k;
      }
    }
  }

  /** An item's days are exactly the days of its records, never "". */
  lemma {:induction false} PorDiaDias(xs: seq<Apontamento>, item: Apontamento -> string, k: string, dia: string)
    requires k in PorDiaSpec(xs, item)
    ensures "" !in PorDiaSpec(xs, item)[k]
    ensures dia != "" ==>
      (dia in PorDiaSpec(xs, item)[k] <==> exists i :: 0 <= i < |xs| && item(xs[i]) == k && DiaDe(xs[i]) == dia)
  {
    var ini := xs[..|xs| - 1];
    var a := xs[|xs| - 1];
    assert forall i :: 0 <= i < |ini| ==> ini[i] == xs[i];
    if k in PorDiaSpec(ini, item) {
      PorDiaDias(ini, item, k, dia);
    } else {
      assert forall i :: 0 <= i < |ini| ==> item(ini[i]) != k by {
        PorDiaItens(ini, item, k);
      }
    }
    if dia != "" && item(a) == k && DiaDe(a) == dia {
      assert item(xs[|xs| - 1]) == k && DiaDe(xs[|xs| - 1]) == dia;
    }
    if dia != "" && dia in PorDiaSpec(xs, item)[k] && !(item(a) == k && DiaDe(a) == dia) {
      var i :| 0 <= i < |ini| && item(ini[i]) == k && DiaDe(ini[i]) == dia;
      assert item(xs[i]) == k && DiaDe(xs[i]) == dia;
    }
  }

  /** Each day of an item holds the quantity its records produced that day. */
  lemma {:induction false} PorDiaValor(xs: seq<Apontamento>, item: Apontamento -> string, k: string, dia: string)
    requires k in PorDiaSpec(xs, item) && dia in PorDiaSpec(xs, item)[k]
    ensures PorDiaSpec(xs, item)[k][dia] == QtdDoDia(xs, item, k, dia)
  {
    var ini := xs[..|xs| - 1];
    PorDiaDias(xs, item, k, dia);
    if k in PorDiaSpec(ini, item) && dia in PorDiaSpec(ini, item)[k] {
      PorDiaValor(ini, item, k, dia);
    } else {
      QtdDoDiaZero(ini, item, k, dia);
    }
  }

  /** Before its first record, an item's day holds nothing. */
  lemma QtdDoDiaZero(xs: seq<Apontamento>, item: Apontamento -> string, k: string, dia: string)
    requires dia != "" && !(k in PorDiaSpec(xs, item) && dia in PorDiaSpec(xs, item)[k])
    ensures QtdDoDia(xs, item, k, dia) == 0
  {
    forall i | 0 <= i < |xs| ensures !(item(xs[i]) == k && DiaDe(xs[i]) == dia) {
      if item(xs[i]) == k && DiaDe(xs[i]) == dia {
        PorDiaItens(xs, item, k);
        PorDiaDias(xs, item, k, dia);
      }
    }
    QtdDoDiaAusente(xs, item, k, dia);
  }

  lemma {:induction false} QtdDoDiaAusente(xs: seq<Apontamento>, item: Apontamento -> string, k: string, dia: string)
    requires forall i :: 0 <= i < |xs| ==> !(item(xs[i]) == k && DiaDe(xs[i]) == dia)
    ensures QtdDoDia(xs, item, k, dia) == 0
  {
    if |xs| > 0 {
      QtdDoDiaAusente(xs[..|xs| - 1], item, k, dia);
    }
  }

  /** A productivity item of the preview: the bucket, its days, its key and
      its manual adjustments; the averages are not modelled. */
  datatype ItemProdutividade = ItemProdutividade(
    ferramenta: string, comprimento: string, quantidade: int, minutos: int,
    porDia: map<string, int>, chave: string, ovr: map<string, string>)

  /** `{ ...g, media_h, media_dia, key, ovr }` (lines 825-832). */
  function Item(g: Parcela, pd: map<string, map<string, int>>, aj: Ajustes): (it: ItemProdutividade)
    ensures it.ferramenta == g.a && it.comprimento == g.b && it.quantidade == g.qtd && it.minutos == g.m1
    ensures it.ovr == LerOverride(aj, it.chave)
  {
    var key := g.a + "__" + g.b;
    ItemProdutividade(g.a, g.b, g.qtd, g.m1, if g.chave in pd then pd[g.chave] else map[], key, LerOverride(aj, key))
  }

  /** The productivity buckets in tool order. */
  function ItensOrdenados(f: Filtros, d: Dados): seq<Parcela> {
    OrdenarAsc(Agrupar(ContribProdutividade(f, d)), RotuloA)
  }

  /** The preview's items: the buckets sorted by tool, each with its days and
      adjustments. (The source sorts the finished items; sorting the buckets
      by the same key first is the same thing, since an item keeps its
      bucket's tool.) */
  function ItensProdutividade(f: Filtros, d: Dados, aj: Ajustes): (its: seq<ItemProdutividade>)
    ensures var gs := ItensOrdenados(f, d);
      |its| == |gs| && forall i :: 0 <= i < |its| ==> its[i] == Item(gs[i], PorDiaSpec(Filtrados(f, d), ItemDe), aj)
  {
    ItensDe(ItensOrdenados(f, d), PorDiaSpec(Filtrados(f, d), ItemDe), aj)
  }

  /** `items.map(...)` over the buckets `gs`. */
  function ItensDe(gs: seq<Parcela>, pd: map<string, map<string, int>>, aj: Ajustes): (its: seq<ItemProdutividade>)
    ensures |its| == |gs| && forall i :: 0 <= i < |its| ==> its[i] == Item(gs[i], pd, aj)
  {
    seq(|gs|, i requires 0 <= i < |gs| => Item(gs[i], pd, aj))
  }

  /** The items come in tool order, each item's key is its tool and length,
      and the item quantities add up to the filtered quantity. */
  lemma ItensProdutividadeTotais(f: Filtros, d: Dados, aj: Ajustes)
    ensures var its := ItensProdutividade(f, d, aj);
      forall i, j :: 0 <= i < j < |its| ==> LessEq(its[i].ferramenta, its[j].ferramenta)
    ensures Soma(ItensOrdenados(f, d), Qtd) == QtdTotal(Filtrados(f, d))
  {
    var gs := ItensOrdenados(f, d);
    var its := ItensProdutividade(f, d, aj);
    forall i, j | 0 <= i < j < |its| ensures LessEq(its[i].ferramenta, its[j].ferramenta) {
      assert its[i].ferramenta == RotuloA(gs[i]) && its[j].ferramenta == RotuloA(gs[j]);
    }
    var cs := ContribProdutividade(f, d);
    SomaOrdenarAsc(Agrupar(cs), RotuloA, Qtd);
    AgruparConserva(cs, Qtd);
    MapearQtd(Filtrados(f, d), ParcelaProdutividade);
  }

  // ---------------------------------------------------------------------------
  // Traceability (lines 883-945)

  const CabecalhoBasePrevia: seq<string> :=
    ["Data", "Hora", "Maquina", "Operador", "PedidoSeq", "Produto_Usinagem",
     "Lote_Usinagem", "Qtde_Produzida", "Qtde_Refugo", "RackOuPallet", "LotesExternos"]

  const CabecalhoAmarradoPrevia: seq<string> :=
    ["Amarrado_Codigo", "Amarrado_Lote", "Amarrado_Rack", "Amarrado_Produto",
     "Amarrado_PedidoSeq", "Amarrado_Romaneio", "Amarrado_QtKG", "Amarrado_QtdPC"]

  /** A row with no `ID_Apont` column. */
  predicate SemId(r: Linha) {
    forall i :: 0 <= i < |r| ==> r[i].chave != "ID_Apont"
  }

  /** The base columns of the preview (lines 888-900): the export's without
      `ID_Apont`, the machine before the operator. */
  function BasePrevia(a: Apontamento, mm: map<string, string>): (r: Linha)
    ensures Chaves(r) == CabecalhoBasePrevia
  {
    Montar(CabecalhoBasePrevia,
      [Str(BrDate(a.inicio)), Str(BrTime(a.inicio)), Str(NomeMaquina(mm, a.maquina)), Str(Or(a.operador, "-")),
       Str(PedidoSeqDe(a)), Str(Or(CodigoProduto(a), "-")), Str(Or(a.lote, "-")),
       Num(a.quantidade), Num(a.qtd_refugo),
       Str(FirstNonEmpty([a.rack_ou_pallet, a.rackOuPallet], "-")), Str(LotesExternosTexto(a))])
  }

  /** The eight bundle columns of an embedded bundle (lines 925-934). */
  function ExtraAmarradoPrevia(am: Amarrado): (r: Linha)
    ensures Chaves(r) == CabecalhoAmarradoPrevia
  {
    Montar(CabecalhoAmarradoPrevia,
      [Str(am.codigo), Str(am.lote), Str(am.rack), Str(am.produto), Str(am.pedido_seq),
       Str(am.romaneio), OuVazio(am.qt_kg), OuVazio(am.qtd_pc)])
  }

  /** The eight bundle columns of a catalogue lot (lines 907-917). */
  function ExtraLotePrevia(l: Lote): (r: Linha)
    ensures Chaves(r) == CabecalhoAmarradoPrevia
  {
    Montar(CabecalhoAmarradoPrevia,
      [Str(Trim(l.codigo)), Str(Trim(l.lote)), Str(Trim(l.rack_embalagem)), Str(ProdutoDoLote(l)),
       Str(Trim(l.pedido_seq)), Str(Trim(l.romaneio)), NumOuVazio(l.qt_kg), NumOuVazio(l.qtd_pc)])
  }

  /** `{ ...base, ...extra }` for each extra. */
  function ComExtras(b: Linha, es: seq<Linha>): (rows: seq<Linha>)
    ensures |rows| == |es|
  {
    seq(|es|, i requires 0 <= i < |es| => b + es[i])
  }

  function ExtrasAmarradosPrevia(ams: seq<Amarrado>): (es: seq<Linha>)
    ensures |es| == |ams| && forall i :: 0 <= i < |es| ==> Chaves(es[i]) == CabecalhoAmarradoPrevia
  {
    seq(|ams|, i requires 0 <= i < |ams| => ExtraAmarradoPrevia(ams[i]))
  }

  function ExtrasLotesPrevia(ns: seq<string>, lotes: seq<Lote>): (es: seq<Linha>)
    ensures |es| == |ns| && forall i :: 0 <= i < |es| ==> Chaves(es[i]) == CabecalhoAmarradoPrevia
  {
    seq(|ns|, i requires 0 <= i < |ns| => ExtraLotePrevia(LoteDe(lotes, ns[i])))
  }

  /** The preview rows of one record: per bundle, else per external lot,
      else the base alone. */
  function LinhasDoApontamentoPrevia(a: Apontamento, mm: map<string, string>, lotes: seq<Lote>): (rows: seq<Linha>)
    ensures |rows| >= 1
  {
    var b := BasePrevia(a, mm);
    if |a.amarrados_detalhados| > 0 then ComExtras(b, ExtrasAmarradosPrevia(a.amarrados_detalhados))
    else if |LotesExt(a)| > 0 then ComExtras(b, ExtrasLotesPrevia(LotesExt(a), lotes))
    else [b]
  }

  /** The preview rows of the ordered records. */
  function LinhasRastreabilidadePrevia(xs: seq<Apontamento>, mm: map<string, string>, lotes: seq<Lote>): (rows: seq<Linha>)
    ensures |rows| >= |xs|
  {
    if |xs| == 0 then []
    else LinhasRastreabilidadePrevia(xs[..|xs| - 1], mm, lotes) + LinhasDoApontamentoPrevia(xs[|xs| - 1], mm, lotes)
  }

  /** A row whose keys leave out `ID_Apont`, and two such rows joined. */
  lemma SemIdDeChaves(b: Linha, e: Linha)
    requires "ID_Apont" !in Chaves(b) && "ID_Apont" !in Chaves(e)
    ensures SemId(b + e) && SemId(b)
  {
    forall i | 0 <= i < |b + e| ensures (b + e)[i].chave != "ID_Apont" {
      if i < |b| {
        assert Chaves(b)[i] == b[i].chave;
      } else {
        assert Chaves(e)[i - |b|] == e[i - |b|].chave;
      }
    }
    forall i | 0 <= i < |b| ensures b[i].chave != "ID_Apont" {
      assert Chaves(b)[i] == b[i].chave;
    }
  }

  /** Joining a base and extras that all leave out `ID_Apont`. */
  lemma ComExtrasSemId(b: Linha, es: seq<Linha>)
    requires "ID_Apont" !in Chaves(b)
    requires forall i :: 0 <= i < |es| ==> Chaves(es[i]) == CabecalhoAmarradoPrevia
    ensures forall i :: 0 <= i < |ComExtras(b, es)| ==> SemId(ComExtras(b, es)[i])
  {
    forall i | 0 <= i < |es| ensures SemId(ComExtras(b, es)[i]) {
      SemIdDeChaves(b, es[i]);
    }
  }

  /** No preview row of a record carries `ID_Apont`. */
  lemma LinhasDoApontamentoPreviaSemId(a: Apontamento, mm: map<string, string>, lotes: seq<Lote>)
    ensures forall i :: 0 <= i < |LinhasDoApontamentoPrevia(a, mm, lotes)| ==> SemId(LinhasDoApontamentoPrevia(a, mm, lotes)[i])
  {
    var b := BasePrevia(a, mm);
    if |a.amarrados_detalhados| > 0 {
      ComExtrasSemId(b, ExtrasAmarradosPrevia(a.amarrados_detalhados));
    } else if |LotesExt(a)| > 0 {
      ComExtrasSemId(b, ExtrasLotesPrevia(LotesExt(a), lotes));
    } else {
      SemIdDeChaves(b, []);
    }
  }

  /** No preview row carries `ID_Apont`. */
  lemma {:induction false} LinhasRastreabilidadePreviaSemId(xs: seq<Apontamento>, mm: map<string, string>, lotes: seq<Lote>)
    ensures forall i :: 0 <= i < |LinhasRastreabilidadePrevia(xs, mm, lotes)| ==> SemId(LinhasRastreabilidadePrevia(xs, mm, lotes)[i])
  {
    if |xs| > 0 {
      var ini := LinhasRastreabilidadePrevia(xs[..|xs| - 1], mm, lotes);
      var fim := LinhasDoApontamentoPrevia(xs[|xs| - 1], mm, lotes);
      LinhasRastreabilidadePreviaSemId(xs[..|xs| - 1], mm, lotes);
      LinhasDoApontamentoPreviaSemId(xs[|xs| - 1], mm, lotes);
      forall i | 0 <= i < |ini + fim| ensures SemId((ini + fim)[i]) {
        if i >= |ini| {
          assert (ini + fim)[i] == fim[i - |ini|];
        }
      }
    }
  }

  /** The preview's table as written: compacted whenever the mode is
      `compacto` (line 943). */
  function RastreabilidadePrevia(xs: seq<Apontamento>, mm: map<string, string>, lotes: seq<Lote>, modo: string): seq<Linha> {
    var rows := LinhasRastreabilidadePrevia(xs, mm, lotes);
    if modo == "compacto" then Compactacao.Compactar(rows) else rows
  }

  /** A row without `ID_Apont` has the compaction key "". */
  lemma ChaveSemId(r: Linha)
    requires SemId(r)
    ensures Compactacao.ChaveDe(r) == ""
  {
    assert "ID_Apont" !in Chaves(r);
  }

  /** As written, the compact preview has at most one row, a single row for
      all records, since every row lacks `ID_Apont`. */
  lemma RastreabilidadePreviaColapsa(xs: seq<Apontamento>, mm: map<string, string>, lotes: seq<Lote>)
    ensures |RastreabilidadePrevia(xs, mm, lotes, "compacto")| == (if |xs| == 0 then 0 else 1)
  {
    var rows := LinhasRastreabilidadePrevia(xs, mm, lotes);
    var out := Compactacao.Compactar(rows);
    var ks := Compactacao.ChavesDe(rows);
    LinhasRastreabilidadePreviaSemId(xs, mm, lotes);
    forall i | 0 <= i < |rows| ensures ks[i] == "" {
      ChaveSemId(rows[i]);
    }
    Compactacao.CompactarChaves(rows);
    var us := Compactacao.ChavesDe(out);
    assert us == Dedup(ks);
    if |xs| > 0 {
      assert |ks| > 0;
      DedupRepetidos(ks, "");
    }
  }

  /** The preview table as evidently intended: the export's rows, which
      carry `ID_Apont`, compacted in compact mode. */
  function RastreabilidadePreviaCorrigida(xs: seq<Apontamento>, mm: map<string, string>, lotes: seq<Lote>, modo: string): seq<Linha> {
    var rows := LinhasRastreabilidade(xs, mm, lotes);
    if modo == "compacto" then Compactacao.Compactar(rows) else rows
  }

  /** Corrected, the compact preview has one row per distinct record id:
      no two rows share a key, and the keys are exactly the records' ids. */
  lemma RastreabilidadeCorrigidaUmaPorRegistro(xs: seq<Apontamento>, mm: map<string, string>, lotes: seq<Lote>)
    ensures var out := RastreabilidadePreviaCorrigida(xs, mm, lotes, "compacto");
      (forall i, j :: 0 <= i < j < |out| ==> Compactacao.ChaveDe(out[i]) != Compactacao.ChaveDe(out[j])) &&
      (forall k :: k in Compactacao.ChavesDe(out) <==> k in Ids(xs))
  {
    ChavesDaExplosao(xs, mm, lotes);
    CompactarPorChaves(LinhasRastreabilidade(xs, mm, lotes), Ids(xs));
  }
}
