/** The export rows of the report screen (`buildRows`,
    frontend/src/pages/Relatorios.jsx, lines 169-251), all cases but
    traceability, together with the machine-name map they share
    (lines 418-425). */
module Relatorio {
  import opened Base
  import opened Text
  import opened Records
  import opened Tempo
  import opened Filtragem
  import opened Ordenacao
  import opened Agrupamento
  import opened Linhas
  import opened CodeParser

  /** The collections the screen loads. */
  datatype Dados = Dados(
    apontamentos: seq<Apontamento>, paradasRaw: seq<Parada>,
    ferramentasCfg: seq<FerramentaCfg>, maquinasCat: seq<Maquina>, lotesDB: seq<Lote>)

  // ---------------------------------------------------------------------------
  // maqMap

  /** `m.nome || m.codigo || 'Máquina ' + m.id`. */
  function NomeCatalogo(m: Maquina): (r: string)
    ensures r != ""
    ensures m.nome != "" ==> r == m.nome
    ensures m.nome == "" && m.codigo != "" ==> r == m.codigo
    ensures m.nome == "" && m.codigo == "" ==> r == "Máquina " + m.id
  {
    Or(m.nome, Or(m.codigo, "Máquina " + m.id))
  }

  /** The map the loop of lines 420-423 builds: later machines with the same
      id overwrite earlier ones. */
  function MaqMapSpec(ms: seq<Maquina>): map<string, string> {
    if |ms| == 0 then map[]
    else MaqMapSpec(ms[..|ms| - 1])[ms[|ms| - 1].id := NomeCatalogo(ms[|ms| - 1])]
  }

  /** `maqMap`. */
  method MaqMap(ms: seq<Maquina>) returns (mm: map<string, string>)
    ensures mm == MaqMapSpec(ms)
  {
    mm := map[];
    for i := 0 to |ms|
      invariant mm == MaqMapSpec(ms[..i])
    {
      var m := ms[i];
      mm := mm[m.id := NomeCatalogo(m)];
      assert ms[..i + 1][..i] == ms[..i];
    }
    assert ms[..|ms|] == ms;
  }

  /** An id is mapped exactly when some machine has it, and to the name of
      the last machine with that id. */
  lemma {:induction false} MaqMapUltimo(ms: seq<Maquina>, i: int)
    requires 0 <= i < |ms|
    requires forall j :: i < j < |ms| ==> ms[j].id != ms[i].id
    ensures ms[i].id in MaqMapSpec(ms) && MaqMapSpec(ms)[ms[i].id] == NomeCatalogo(ms[i])
  {
    if i < |ms| - 1 {
      MaqMapUltimo(ms[..|ms| - 1], i);
    }
  }

  lemma {:induction false} MaqMapChaves(ms: seq<Maquina>, k: string)
    requires k in MaqMapSpec(ms)
    ensures exists i :: 0 <= i < |ms| && ms[i].id == k
  {
    if ms[|ms| - 1].id != k {
      MaqMapChaves(ms[..|ms| - 1], k);
      var i :| 0 <= i < |ms| - 1 && ms[..|ms| - 1][i].id == k;
      assert ms[i].id == k;
    }
  }

  /** `maqMap[String(x)] || x || '-'`: the display name of a machine id. */
  function NomeMaquina(mm: map<string, string>, x: string): (r: string)
    ensures r != ""
    ensures x in mm && mm[x] != "" ==> r == mm[x]
    ensures (x !in mm || mm[x] == "") ==> r == Or(x, "-")
  {
    if x in mm && mm[x] != "" then mm[x] else Or(x, "-")
  }

  // ---------------------------------------------------------------------------
  // The derived collections

  function Filtrados(f: Filtros, d: Dados): seq<Apontamento> {
    ApontamentosFiltrados(f, d.apontamentos)
  }

  function Ordenados(f: Filtros, d: Dados): seq<Apontamento> {
    ApontamentosOrdenados(Filtrados(f, d))
  }

  function ParadasF(f: Filtros, d: Dados): seq<ParadaNorm> {
    ParadasFiltradas(f, Paradas(d.paradasRaw))
  }

  /** `a.ordemTrabalho || a.ordem_trabalho || a.pedido_seq || '-'`. */
  function PedidoSeqDe(a: Apontamento): (r: string)
    ensures r != ""
    ensures a.ordemTrabalho != "" ==> r == a.ordemTrabalho
    ensures a.ordemTrabalho == "" && a.ordem_trabalho != "" ==> r == a.ordem_trabalho
    ensures a.ordemTrabalho == "" && a.ordem_trabalho == "" && a.pedido_seq != "" ==> r == a.pedido_seq
    ensures a.ordemTrabalho == "" && a.ordem_trabalho == "" && a.pedido_seq == "" ==> r == "-"
  {
    Or(a.ordemTrabalho, Or(a.ordem_trabalho, Or(a.pedido_seq, "-")))
  }

  /** `x ?? y ?? '-'` on two optional numbers. */
  function NumOuTraco(x: Option<int>, y: Option<int>): (c: Cell)
    ensures x.None? && y.None? <==> c == Str("-")
    ensures x.Some? ==> c == Num(x.value)
    ensures x.None? && y.Some? ==> c == Num(y.value)
  {
    match Coalesce(x, y)
    case Some(n) => Num(n)
    case None => Str("-")
  }

  /** The sum of the quantities of some records. */
  function QtdTotal(xs: seq<Apontamento>): int {
    if |xs| == 0 then 0 else QtdTotal(xs[..|xs| - 1]) + xs[|xs| - 1].quantidade
  }

  /** The sum of the numeric cells of column `k`. */
  function SomaColuna(rows: seq<Linha>, k: string): int {
    if |rows| == 0 then 0
    else
      SomaColuna(rows[..|rows| - 1], k) +
      (match Ler(rows[|rows| - 1], k) case Num(n) => n case _ => 0)
  }

  // ---------------------------------------------------------------------------
  // producao

  const CabecalhoProducao: seq<string> :=
    ["Data", "Hora", "Maquina", "Operador", "PedidoSeq", "Produto", "Ferramenta",
     "Quantidade", "Refugo", "RackOuPallet", "QtdPedido", "Separado"]

  /** One row of the production report (lines 172-185). */
  function LinhaProducao(a: Apontamento, mm: map<string, string>): (r: Linha)
    ensures Chaves(r) == CabecalhoProducao
  {
    Montar(CabecalhoProducao, CelulasProducao(a, mm))
  }

  /** The twelve cells of a production row, in column order. */
  function CelulasProducao(a: Apontamento, mm: map<string, string>): (r: seq<Cell>)
    ensures |r| == 12 && r[7] == Num(a.quantidade)
  {
    [Str(BrDate(a.inicio)), Str(BrTime(a.inicio)), Str(NomeMaquina(mm, a.maquina)),
     Str(Or(a.operador, "-")), Str(PedidoSeqDe(a)), Str(Or(CodigoProduto(a), "-")),
     Str(Or(Ferramenta(CodigoProduto(a)), "-")), Num(a.quantidade), Num(a.qtd_refugo),
     Str(FirstNonEmpty([a.rack_ou_pallet, a.rackOuPallet], "-")),
     NumOuTraco(a.qtd_pedido, a.qtdPedido), NumOuTraco(a.separado, a.qtd_separado)]
  }

  /** The `Quantidade` cell of a production row is the record's quantity. */
  lemma QuantidadeProducao(a: Apontamento, mm: map<string, string>)
    ensures Ler(LinhaProducao(a, mm), "Quantidade") == Num(a.quantidade)
  {
    var ks := CabecalhoProducao;
    assert ks[7] == "Quantidade" && forall j :: 0 <= j < 7 ==> ks[j] != ks[7];
    LerMontado(ks, CelulasProducao(a, mm), 7);
  }

  /** The production report: one row per filtered record, most recent first. */
  function LinhasProducao(xs: seq<Apontamento>, mm: map<string, string>): (rows: seq<Linha>)
    ensures |rows| == |xs|
  {
    if |xs| == 0 then [] else LinhasProducao(xs[..|xs| - 1], mm) + [LinhaProducao(xs[|xs| - 1], mm)]
  }

  /** Every production row has the twelve columns, in order, and the
      `Quantidade` column adds up to the records' total. */
  lemma {:induction false} LinhasProducaoColunas(xs: seq<Apontamento>, mm: map<string, string>)
    ensures forall r :: r in LinhasProducao(xs, mm) ==> Chaves(r) == CabecalhoProducao
    ensures SomaColuna(LinhasProducao(xs, mm), "Quantidade") == QtdTotal(xs)
  {
    if |xs| > 0 {
      LinhasProducaoColunas(xs[..|xs| - 1], mm);
      QuantidadeProducao(xs[|xs| - 1], mm);
      var rows := LinhasProducao(xs, mm);
      assert rows[..|rows| - 1] == LinhasProducao(xs[..|xs| - 1], mm);
    }
  }

  // ---------------------------------------------------------------------------
  // paradas

  const CabecalhoParadas: seq<string> := ["Data", "Maquina", "Motivo", "Tipo", "Inicio", "Fim", "Duracao_min"]

  /** `duracaoMin(...) ?? '-'`. */
  function DuracaoOuTraco(i: Option<Instant>, f: Option<Instant>): (c: Cell)
    ensures (i.None? || f.None?) <==> c == Str("-")
    ensures i.Some? && f.Some? ==> DuracaoMin(i, f).Some? && c == Num(DuracaoMin(i, f).value)
  {
    match DuracaoMin(i, f)
    case Some(n) => Num(n)
    case None => Str("-")
  }

  /** One row of the downtime report (lines 187-195). */
  function LinhaParada(p: ParadaNorm, mm: map<string, string>): (r: Linha)
    ensures Chaves(r) == CabecalhoParadas
  {
    Montar(CabecalhoParadas,
      [Str(BrDate(p.inicio_norm)), Str(NomeMaquina(mm, p.bruta.maquina)), Str(p.motivo_norm),
       Str(p.tipo_norm), Str(BrStampOuTraco(p.inicio_norm)), Str(BrStampOuTraco(p.fim_norm)),
       DuracaoOuTraco(p.inicio_norm, p.fim_norm)])
  }

  function LinhasParadas(ps: seq<ParadaNorm>, mm: map<string, string>): (rows: seq<Linha>)
    ensures |rows| == |ps|
    ensures forall r :: r in rows ==> Chaves(r) == CabecalhoParadas
  {
    if |ps| == 0 then [] else LinhasParadas(ps[..|ps| - 1], mm) + [LinhaParada(ps[|ps| - 1], mm)]
  }

  // ---------------------------------------------------------------------------
  // Contributions of the grouping cases

  /** The contributions of some records, in order. */
  function Mapear(xs: seq<Apontamento>, f: Apontamento -> Parcela): (cs: seq<Parcela>)
    ensures |cs| == |xs|
  {
    if |xs| == 0 then [] else Mapear(xs[..|xs| - 1], f) + [f(xs[|xs| - 1])]
  }

  /** When each record contributes its quantity, the contributions' total is
      the records' total. */
  lemma {:induction false} MapearQtd(xs: seq<Apontamento>, f: Apontamento -> Parcela)
    requires forall a :: f(a).qtd == a.quantidade
    ensures Soma(Mapear(xs, f), Qtd) == QtdTotal(xs)
  {
    if |xs| > 0 {
      MapearQtd(xs[..|xs| - 1], f);
      var cs := Mapear(xs, f);
      assert cs[..|cs| - 1] == Mapear(xs[..|xs| - 1], f);
    }
  }

  /** desempenho (lines 199-205): keyed `operador__maquina`, summing the
      quantity and the minutes. */
  function ParcelaDesempenho(mm: map<string, string>, a: Apontamento): (c: Parcela)
    ensures c.qtd == a.quantidade
  {
    var op := Or(a.operador, "-");
    var mq := NomeMaquina(mm, a.maquina);
    Parcela(op + "__" + mq, op, mq, a.quantidade, Minutos(a.inicio, a.fim), 0)
  }

  /** oee, production part (lines 212-217): keyed `dia__maquina`. */
  function ParcelaOeeProducao(mm: map<string, string>, a: Apontamento): (c: Parcela)
    ensures c.qtd == a.quantidade && c.m2 == 0
  {
    var d := DiaOuTraco(a.inicio);
    var mq := NomeMaquina(mm, a.maquina);
    Parcela(d + "__" + mq, d, mq, a.quantidade, Minutos(a.inicio, a.fim), 0)
  }

  /** oee, downtime part (lines 220-224): the same key, adding only minutes
      stopped. */
  function ParcelaOeeParada(mm: map<string, string>, p: ParadaNorm): (c: Parcela)
    ensures c.qtd == 0 && c.m1 == 0
  {
    var d := DiaOuTraco(p.inicio_norm);
    var mq := NomeMaquina(mm, p.bruta.maquina);
    Parcela(d + "__" + mq, d, mq, 0, 0, Minutos(p.inicio_norm, p.fim_norm))
  }

  function ParcelasParadas(ps: seq<ParadaNorm>, mm: map<string, string>): (cs: seq<Parcela>)
    ensures |cs| == |ps|
    ensures Soma(cs, Qtd) == 0
  {
    if |ps| == 0 then [] else
      var ini := ParcelasParadas(ps[..|ps| - 1], mm);
      var cs := ini + [ParcelaOeeParada(mm, ps[|ps| - 1])];
      assert cs[..|cs| - 1] == ini;
      cs
  }

  /** The tool code of a record, `extrairFerramenta(a.produto || a.codigoPerfil)`. */
  function FerramentaDe(a: Apontamento): string {
    Ferramenta(CodigoProduto(a))
  }

  /** expedicao (lines 230-236): keyed by tool, records without one skipped. */
  function ParcelaExpedicao(a: Apontamento): (c: Parcela)
    ensures c.qtd == a.quantidade
  {
    var fer := FerramentaDe(a);
    Parcela(fer, fer, "", a.quantidade, 0, 0)
  }

  /** produtividade (lines 241-249): keyed `ferramenta__comprimento`. */
  function ParcelaProdutividade(a: Apontamento): (c: Parcela)
    ensures c.qtd == a.quantidade
  {
    var fer := FerramentaDe(a);
    var comp := ExtrairComprimentoAcabado(CodigoProduto(a));
    Parcela(fer + "__" + comp, fer, comp, a.quantidade, Minutos(a.inicio, a.fim), 0)
  }

  // ---------------------------------------------------------------------------
  // The rows of the grouping cases

  const CabecalhoDesempenho: seq<string> := ["Operador", "Maquina", "Producao", "Minutos", "Prod_por_Hora"]

  /** `{ ...r, Prod_por_Hora }` (line 207). */
  function LinhaDesempenho(g: Parcela): (r: Linha)
    ensures Chaves(r) == CabecalhoDesempenho
    ensures Ler(r, "Producao") == Num(g.qtd)
  {
    Montar(CabecalhoDesempenho, [Str(g.a), Str(g.b), Num(g.qtd), Num(g.m1), Str(PorHora(g.qtd, g.m1))])
  }

  const CabecalhoOee: seq<string> := ["Data", "Maquina", "Producao", "ProdMin", "ParadaMin"]

  function LinhaOee(g: Parcela): (r: Linha)
    ensures Chaves(r) == CabecalhoOee
    ensures Ler(r, "Producao") == Num(g.qtd)
  {
    Montar(CabecalhoOee, [Str(g.a), Str(g.b), Num(g.qtd), Num(g.m1), Num(g.m2)])
  }

  const CabecalhoExpedicao: seq<string> := ["Ferramenta", "Quantidade"]

  function LinhaExpedicao(g: Parcela): (r: Linha)
    ensures Chaves(r) == CabecalhoExpedicao
    ensures Ler(r, "Quantidade") == Num(g.qtd)
  {
    Montar(CabecalhoExpedicao, [Str(g.a), Num(g.qtd)])
  }

  const CabecalhoProdutividade: seq<string> := ["Ferramenta", "Comprimento", "Quantidade", "Minutos", "Media_pcs_h"]

  /** `{ ...g, Media_pcs_h }` (line 250). */
  function LinhaProdutividade(g: Parcela): (r: Linha)
    ensures Chaves(r) == CabecalhoProdutividade
    ensures Ler(r, "Quantidade") == Num(g.qtd)
  {
    Montar(CabecalhoProdutividade, [Str(g.a), Str(g.b), Num(g.qtd), Num(g.m1), Str(PorHora(g.qtd, g.m1))])
  }

  /** The rows of some buckets. */
  function LinhasDe(gs: seq<Parcela>, f: Parcela -> Linha): (rows: seq<Linha>)
    ensures |rows| == |gs|
  {
    if |gs| == 0 then [] else LinhasDe(gs[..|gs| - 1], f) + [f(gs[|gs| - 1])]
  }

  /** A column that holds each bucket's quantity adds up to the buckets' total. */
  lemma {:induction false} LinhasSomaColuna(gs: seq<Parcela>, f: Parcela -> Linha, k: string)
    requires forall g :: Ler(f(g), k) == Num(g.qtd)
    ensures SomaColuna(LinhasDe(gs, f), k) == Soma(gs, Qtd)
  {
    if |gs| > 0 {
      LinhasSomaColuna(gs[..|gs| - 1], f, k);
      var rows := LinhasDe(gs, f);
      assert rows[..|rows| - 1] == LinhasDe(gs[..|gs| - 1], f);
    }
  }

  /** The bucket's date label, the sort key of line 226. */
  function RotuloA(g: Parcela): string { g.a }

  function TemFerramenta(a: Apontamento): bool { FerramentaDe(a) != "" }

  function ContribDesempenho(f: Filtros, d: Dados): seq<Parcela> {
    Mapear(Filtrados(f, d), a => ParcelaDesempenho(MaqMapSpec(d.maquinasCat), a))
  }

  function ContribOee(f: Filtros, d: Dados): seq<Parcela> {
    var mm := MaqMapSpec(d.maquinasCat);
    Mapear(Filtrados(f, d), a => ParcelaOeeProducao(mm, a)) + ParcelasParadas(ParadasF(f, d), mm)
  }

  function ContribExpedicao(f: Filtros, d: Dados): seq<Parcela> {
    Mapear(Filtrar(Filtrados(f, d), TemFerramenta), ParcelaExpedicao)
  }

  function ContribProdutividade(f: Filtros, d: Dados): seq<Parcela> {
    Mapear(Filtrados(f, d), ParcelaProdutividade)
  }

  function LinhasDesempenho(f: Filtros, d: Dados): seq<Linha> {
    LinhasDe(Agrupar(ContribDesempenho(f, d)), LinhaDesempenho)
  }

  function LinhasOee(f: Filtros, d: Dados): seq<Linha> {
    LinhasDe(OrdenarAsc(Agrupar(ContribOee(f, d)), RotuloA), LinhaOee)
  }

  function LinhasExpedicao(f: Filtros, d: Dados): seq<Linha> {
    LinhasDe(Agrupar(ContribExpedicao(f, d)), LinhaExpedicao)
  }

  function LinhasProdutividade(f: Filtros, d: Dados): seq<Linha> {
    LinhasDe(Agrupar(ContribProdutividade(f, d)), LinhaProdutividade)
  }

  // ---------------------------------------------------------------------------
  // Totals

  /** Performance: the `Producao` column adds up to the filtered quantity,
      with at most one row per record. */
  lemma DesempenhoTotal(f: Filtros, d: Dados)
    ensures SomaColuna(LinhasDesempenho(f, d), "Producao") == QtdTotal(Filtrados(f, d))
    ensures |LinhasDesempenho(f, d)| <= |Filtrados(f, d)|
  {
    var cs := ContribDesempenho(f, d);
    LinhasSomaColuna(Agrupar(cs), LinhaDesempenho, "Producao");
    AgruparConserva(cs, Qtd);
    MapearQtd(Filtrados(f, d), a => ParcelaDesempenho(MaqMapSpec(d.maquinasCat), a));
  }

  /** Daily summary: the `Producao` column adds up to the filtered quantity
      (downtime adds none). */
  lemma OeeTotal(f: Filtros, d: Dados)
    ensures SomaColuna(LinhasOee(f, d), "Producao") == QtdTotal(Filtrados(f, d))
  {
    var mm := MaqMapSpec(d.maquinasCat);
    var c1 := Mapear(Filtrados(f, d), a => ParcelaOeeProducao(mm, a));
    var c2 := ParcelasParadas(ParadasF(f, d), mm);
    var gs := Agrupar(c1 + c2);
    var ord := OrdenarAsc(gs, RotuloA);
    LinhasSomaColuna(ord, LinhaOee, "Producao");
    SomaOrdenarAsc(gs, RotuloA, Qtd);
    AgruparConserva(c1 + c2, Qtd);
    SomaConcatP(c1, c2, Qtd);
    MapearQtd(Filtrados(f, d), a => ParcelaOeeProducao(mm, a));
  }

  /** Per tool: every row names a tool, and the `Quantidade` column adds up to
      the quantity of the filtered records that have a tool code. */
  lemma ExpedicaoTotal(f: Filtros, d: Dados)
    ensures SomaColuna(LinhasExpedicao(f, d), "Quantidade") == QtdTotal(Filtrar(Filtrados(f, d), TemFerramenta))
    ensures forall g :: g in Agrupar(ContribExpedicao(f, d)) ==> g.a != ""
  {
    var xs := Filtrar(Filtrados(f, d), TemFerramenta);
    var cs := ContribExpedicao(f, d);
    LinhasSomaColuna(Agrupar(cs), LinhaExpedicao, "Quantidade");
    AgruparConserva(cs, Qtd);
    MapearQtd(xs, ParcelaExpedicao);
    forall g | g in Agrupar(cs) ensures g.a != "" {
      RotulosNaoVazios(xs, g);
    }
  }

  lemma RotulosNaoVazios(xs: seq<Apontamento>, g: Parcela)
    requires forall a :: a in xs ==> TemFerramenta(a)
    requires g in Agrupar(Mapear(xs, ParcelaExpedicao))
    ensures g.a != ""
  {
    AgruparRotulo(Mapear(xs, ParcelaExpedicao), g);
    var p :| p in Mapear(xs, ParcelaExpedicao) && p.a == g.a;
    MapearMembro(xs, ParcelaExpedicao, p);
  }

  lemma {:induction false} MapearMembro(xs: seq<Apontamento>, f: Apontamento -> Parcela, p: Parcela)
    requires p in Mapear(xs, f)
    ensures exists a :: a in xs && p == f(a)
  {
    var cs := Mapear(xs, f);
    if p == cs[|cs| - 1] {
      assert xs[|xs| - 1] in xs;
    } else {
      assert cs == Mapear(xs[..|xs| - 1], f) + [f(xs[|xs| - 1])];
      MapearMembro(xs[..|xs| - 1], f, p);
      var a :| a in xs[..|xs| - 1] && p == f(a);
      assert a in xs;
    }
  }

  /** Productivity: the `Quantidade` column adds up to the filtered quantity. */
  lemma ProdutividadeTotal(f: Filtros, d: Dados)
    ensures SomaColuna(LinhasProdutividade(f, d), "Quantidade") == QtdTotal(Filtrados(f, d))
  {
    var cs := ContribProdutividade(f, d);
    LinhasSomaColuna(Agrupar(cs), LinhaProdutividade, "Quantidade");
    AgruparConserva(cs, Qtd);
    MapearQtd(Filtrados(f, d), ParcelaProdutividade);
  }

  /** Sorting does not change a sum. */
  lemma {:induction false} SomaOrdenarAsc(xs: seq<Parcela>, key: Parcela -> string, m: Medida)
    ensures Soma(OrdenarAsc(xs, key), m) == Soma(xs, m)
  {
    if |xs| > 0 {
      var t := OrdenarAsc(xs[1..], key);
      assert OrdenarAsc(xs, key) == InserirAsc(xs[0], t, key);
      SomaOrdenarAsc(xs[1..], key, m);
      SomaInserirAsc(xs[0], t, key, m);
      SomaConcatP([xs[0]], xs[1..], m);
      assert [xs[0]] + xs[1..] == xs;
    }
  }

  lemma {:induction false} SomaInserirAsc(x: Parcela, s: seq<Parcela>, key: Parcela -> string, m: Medida)
    ensures Soma(InserirAsc(x, s, key), m) == Valor(x, m) + Soma(s, m)
  {
    if |s| > 0 && Less(key(s[0]), key(x)) {
      var t := InserirAsc(x, s[1..], key);
      SomaInserirAsc(x, s[1..], key, m);
      SomaConcatP([s[0]], t, m);
      SomaConcatP([s[0]], s[1..], m);
      assert s == [s[0]] + s[1..];
    } else {
      SomaConcatP([x], s, m);
    }
  }

  lemma {:induction false} SomaConcatP(p: seq<Parcela>, q: seq<Parcela>, m: Medida)
    ensures Soma(p + q, m) == Soma(p, m) + Soma(q, m)
    decreases |q|
  {
    if |q| > 0 {
      assert (p + q)[..|p + q| - 1] == p + q[..|q| - 1];
      SomaConcatP(p, q[..|q| - 1], m);
    } else {
      assert p + q == p;
    }
  }
}
