/** The export of the report screen (frontend/src/pages/Relatorios.jsx,
    lines 70-78 and 169-351): the rows of the chosen report type, the
    compact traceability mode, the file name and the CSV file, and the
    notice shown when a format other than Excel is asked for. */
module Exportacao {
  import opened Base
  import opened Text
  import opened Records
  import opened Linhas
  import opened Filtragem
  import opened Relatorio
  import opened Rastreabilidade
  import Compactacao
  import Csv

  // ---------------------------------------------------------------------------
  // Report types (lines 70-78)

  /** The seven entries of `tiposRelatorio`. */
  datatype Tipo =
    | ProducaoPeriodo | ParadasMaquina | DesempenhoOperador | OeeDetalhado
    | EstimativaExpedicao | ProdutividadeItens | RastreabilidadeLotes

  /** An entry's `id`. */
  function Id(t: Tipo): string {
    match t
    case ProducaoPeriodo => "producao"
    case ParadasMaquina => "paradas"
    case DesempenhoOperador => "desempenho"
    case OeeDetalhado => "oee"
    case EstimativaExpedicao => "expedicao"
    case ProdutividadeItens => "produtividade"
    case RastreabilidadeLotes => "rastreabilidade"
  }

  /** An entry's `nome`. */
  function Nome(t: Tipo): (r: string)
    ensures r != ""
  {
    match t
    case ProducaoPeriodo => "Produção por Período"
    case ParadasMaquina => "Paradas de Máquina"
    case DesempenhoOperador => "Desempenho por Operador/Máquina"
    case OeeDetalhado => "OEE Detalhado"
    case EstimativaExpedicao => "Estimativa de Expedição"
    case ProdutividadeItens => "Produtividade (Itens)"
    case RastreabilidadeLotes => "Rastreabilidade (Amarrados/Lotes)"
  }

  /** `tiposRelatorio.find(t => t.id === id)`. */
  function TipoDe(id: string): (r: Option<Tipo>)
    ensures r.Some? ==> Id(r.value) == id
  {
    match id
    case "producao" => Some(ProducaoPeriodo)
    case "paradas" => Some(ParadasMaquina)
    case "desempenho" => Some(DesempenhoOperador)
    case "oee" => Some(OeeDetalhado)
    case "expedicao" => Some(EstimativaExpedicao)
    case "produtividade" => Some(ProdutividadeItens)
    case "rastreabilidade" => Some(RastreabilidadeLotes)
    case _ => None
  }

  /** Every entry is found by its own id: the ids are distinct. */
  lemma TipoDeId(t: Tipo)
    ensures TipoDe(Id(t)) == Some(t)
  {
    match t
    case ProducaoPeriodo =>
    case ParadasMaquina =>
    case DesempenhoOperador =>
    case OeeDetalhado =>
    case EstimativaExpedicao =>
    case ProdutividadeItens =>
    case RastreabilidadeLotes =>
  }

  /** `tiposRelatorio.find(t => t.id === id)?.nome || 'Relatorio'`. */
  function NomeDoTipo(id: string): (r: string)
    ensures TipoDe(id).None? ==> r == "Relatorio"
    ensures TipoDe(id).Some? ==> r == Nome(TipoDe(id).value)
  {
    match TipoDe(id)
    case Some(t) => Nome(t)
    case None => "Relatorio"
  }

  // ---------------------------------------------------------------------------
  // buildRows (lines 169-329)

  /** `buildRows(t)` for a listed entry. */
  function Construir(t: Tipo, f: Filtros, d: Dados): seq<Linha> {
    match t
    case ProducaoPeriodo => LinhasProducao(Ordenados(f, d), MaqMapSpec(d.maquinasCat))
    case ParadasMaquina => LinhasParadas(ParadasF(f, d), MaqMapSpec(d.maquinasCat))
    case RastreabilidadeLotes => LinhasRastreabilidade(Ordenados(f, d), MaqMapSpec(d.maquinasCat), d.lotesDB)
    case _ => Agregado(t, f, d)
  }

  /** The four reports that group records. */
  function Agregado(t: Tipo, f: Filtros, d: Dados): seq<Linha> {
    match t
    case DesempenhoOperador => LinhasDesempenho(f, d)
    case OeeDetalhado => LinhasOee(f, d)
    case EstimativaExpedicao => LinhasExpedicao(f, d)
    case ProdutividadeItens => LinhasProdutividade(f, d)
    case _ => []
  }

  /** `buildRows(f.tipoRelatorio)`: no row for an id the list does not hold. */
  function LinhasDoTipo(f: Filtros, d: Dados): (rows: seq<Linha>)
    ensures TipoDe(f.tipoRelatorio).None? ==> rows == []
  {
    match TipoDe(f.tipoRelatorio)
    case Some(t) => Construir(t, f, d)
    case None => []
  }

  // ---------------------------------------------------------------------------
  // The compact traceability keys

  /** The ids of some records, in order. */
  function Ids(xs: seq<Apontamento>): (ids: seq<string>)
    ensures |ids| == |xs| && forall i :: 0 <= i < |xs| ==> ids[i] == xs[i].id
  {
    seq(|xs|, i requires 0 <= i < |xs| => xs[i].id)
  }

  lemma IdsUltimo(xs: seq<Apontamento>)
    requires |xs| > 0
    ensures Ids(xs) == Ids(xs[..|xs| - 1]) + [xs[|xs| - 1].id]
  {
    var u := Ids(xs[..|xs| - 1]) + [xs[|xs| - 1].id];
    assert |u| == |xs|;
    forall i | 0 <= i < |xs| ensures Ids(xs)[i] == u[i] {
      if i < |xs| - 1 {
        assert xs[..|xs| - 1][i] == xs[i];
      }
    }
  }

  /** Every export row of a record has the record's id as its compaction key. */
  lemma ChavesDoApontamento(a: Apontamento, mm: map<string, string>, lotes: seq<Lote>)
    ensures var rows := LinhasDoApontamento(a, mm, lotes);
      |rows| >= 1 && forall i :: 0 <= i < |rows| ==> Compactacao.ChaveDe(rows[i]) == a.id
  {
    var rows := LinhasDoApontamento(a, mm, lotes);
    LinhasDoApontamentoForma(a, mm, lotes);
    forall i | 0 <= i < |rows| ensures Compactacao.ChaveDe(rows[i]) == a.id {
      assert rows[i] in rows;
      IdDoPrefixo(rows[i], BaseDe(a, mm));
    }
  }

  /** A key list made of `k0` followed by copies of `x` holds exactly the
      members of `k0` and `x`. */
  lemma MembrosAnexados(ks: seq<string>, k0: seq<string>, i0: seq<string>, x: string)
    requires |k0| < |ks| && forall j :: 0 <= j < |k0| ==> ks[j] == k0[j]
    requires forall j :: |k0| <= j < |ks| ==> ks[j] == x
    requires forall k :: k in k0 <==> k in i0
    ensures forall k :: k in ks <==> k in i0 + [x]
  {
    forall k ensures k in ks <==> k in i0 + [x] {
      if k in ks {
        var j :| 0 <= j < |ks| && ks[j] == k;
        if j < |k0| {
          assert k0[j] == k;
        }
      }
      if k in i0 {
        var j :| 0 <= j < |k0| && k0[j] == k;
        assert ks[j] == k;
      }
      if k == x {
        assert ks[|k0|] == k;
      }
    }
  }

  /** Appending rows that all carry the key `x` appends `x` to the keys. */
  lemma ChavesAnexadas(ini: seq<Linha>, fim: seq<Linha>, i0: seq<string>, x: string)
    requires forall k :: k in Compactacao.ChavesDe(ini) <==> k in i0
    requires |fim| >= 1 && forall i :: 0 <= i < |fim| ==> Compactacao.ChaveDe(fim[i]) == x
    ensures forall k :: k in Compactacao.ChavesDe(ini + fim) <==> k in i0 + [x]
  {
    var rows := ini + fim;
    var ks := Compactacao.ChavesDe(rows);
    var k0 := Compactacao.ChavesDe(ini);
    forall j | 0 <= j < |k0| ensures ks[j] == k0[j] {
      assert rows[j] == ini[j];
    }
    forall j | |k0| <= j < |ks| ensures ks[j] == x {
      assert rows[j] == fim[j - |ini|];
    }
    MembrosAnexados(ks, k0, i0, x);
  }

  /** The compaction keys of the export rows are exactly the records' ids. */
  lemma {:induction false} ChavesDaExplosao(xs: seq<Apontamento>, mm: map<string, string>, lotes: seq<Lote>)
    ensures forall k :: k in Compactacao.ChavesDe(LinhasRastreabilidade(xs, mm, lotes)) <==> k in Ids(xs)
  {
    if |xs| > 0 {
      var a := xs[|xs| - 1];
      var ini := LinhasRastreabilidade(xs[..|xs| - 1], mm, lotes);
      var fim := LinhasDoApontamento(a, mm, lotes);
      assert ini + fim == LinhasRastreabilidade(xs, mm, lotes);
      ChavesDaExplosao(xs[..|xs| - 1], mm, lotes);
      ChavesDoApontamento(a, mm, lotes);
      IdsUltimo(xs);
      ChavesAnexadas(ini, fim, Ids(xs[..|xs| - 1]), a.id);
    }
  }

  lemma CompactarPorChaves(rows: seq<Linha>, ids: seq<string>)
    requires forall k :: k in Compactacao.ChavesDe(rows) <==> k in ids
    ensures var out := Compactacao.Compactar(rows);
      (forall i, j :: 0 <= i < j < |out| ==> Compactacao.ChaveDe(out[i]) != Compactacao.ChaveDe(out[j])) &&
      (forall k :: k in Compactacao.ChavesDe(out) <==> k in ids)
  {
    var out := Compactacao.Compactar(rows);
    var us := Compactacao.ChavesDe(out);
    Compactacao.CompactarChaves(rows);
    forall i, j | 0 <= i < j < |out| ensures Compactacao.ChaveDe(out[i]) != Compactacao.ChaveDe(out[j]) {
      assert us[i] == Compactacao.ChaveDe(out[i]) && us[j] == Compactacao.ChaveDe(out[j]);
    }
  }

  /** Every record gives at least one traceability row. */
  lemma {:induction false} RastreabilidadeAoMenosUma(xs: seq<Apontamento>, mm: map<string, string>, lotes: seq<Lote>)
    ensures |LinhasRastreabilidade(xs, mm, lotes)| >= |xs|
  {
    if |xs| > 0 {
      RastreabilidadeAoMenosUma(xs[..|xs| - 1], mm, lotes);
      ChavesDoApontamento(xs[|xs| - 1], mm, lotes);
    }
  }

  // ---------------------------------------------------------------------------
  // handleSubmit (lines 331-351)

  /** The file name without its extension: the report's name with each run of
      white space made one `_`, the mode for traceability, and the clock. */
  function NomeArquivo(f: Filtros, agora: nat): (r: string)
  {
    var rotulo := CollapseSpaces(NomeDoTipo(f.tipoRelatorio), '_');
    var sufixo := if f.tipoRelatorio == "rastreabilidade" then "_" + f.modo else "";
    rotulo + sufixo + "_" + NatToString(agora)
  }

  /** Whether the compact mode applies. */
  predicate Compacto(f: Filtros) {
    f.tipoRelatorio == "rastreabilidade" && f.modo == "compacto"
  }

  /** The rows written to the file. */
  function LinhasExportadas(f: Filtros, d: Dados): seq<Linha> {
    if Compacto(f) then Compactacao.Compactar(LinhasDoTipo(f, d)) else LinhasDoTipo(f, d)
  }

  /** What one submission produces: the file name, the file (none when
      there is no row, where the screen says there is no data), and whether
      the "PDF not implemented" notice is shown. */
  datatype Exportado = Exportado(nome: string, arquivo: Option<string>, avisoPdf: bool)

  /** `handleSubmit`, with `Date.now()` given as `agora`. */
  function Exportar(f: Filtros, d: Dados, agora: nat): (e: Exportado)
    ensures e.arquivo.None? <==> |LinhasExportadas(f, d)| == 0
    ensures e.avisoPdf <==> ToLower(Or(f.formato, "excel")) != "excel"
  {
    Exportado(NomeArquivo(f, agora), Csv.Arquivo(LinhasExportadas(f, d)),
      ToLower(Or(f.formato, "excel")) != "excel")
  }

  // ---------------------------------------------------------------------------
  // Properties of a submission

  lemma OrdenadosMesmoTamanho(f: Filtros, d: Dados)
    ensures |Ordenados(f, d)| == |Filtrados(f, d)|
  {
    assert |multiset(Ordenados(f, d))| == |multiset(Filtrados(f, d))|;
  }

  lemma TipoProducao(f: Filtros, d: Dados)
    requires f.tipoRelatorio == "producao"
    ensures LinhasExportadas(f, d) == LinhasProducao(Ordenados(f, d), MaqMapSpec(d.maquinasCat))
  {
  }

  lemma TipoRastreabilidade(f: Filtros, d: Dados)
    requires f.tipoRelatorio == "rastreabilidade"
    ensures LinhasDoTipo(f, d) == LinhasRastreabilidade(Ordenados(f, d), MaqMapSpec(d.maquinasCat), d.lotesDB)
  {
    TipoDeId(RastreabilidadeLotes);
    ConstruirRastreabilidade(RastreabilidadeLotes, f, d);
  }

  lemma ConstruirRastreabilidade(t: Tipo, f: Filtros, d: Dados)
    requires t.RastreabilidadeLotes?
    ensures Construir(t, f, d) == LinhasRastreabilidade(Ordenados(f, d), MaqMapSpec(d.maquinasCat), d.lotesDB)
  {
  }

  /** A file of rows that all have the columns `h`, none of whose names
      holds a line feed, has one line per row below the header. */
  lemma ArquivoUniforme(rows: seq<Linha>, h: seq<string>)
    requires |rows| > 0 && forall r :: r in rows ==> Chaves(r) == h
    requires forall j :: 0 <= j < |h| ==> '\n' !in h[j]
    ensures Csv.Arquivo(rows).Some? && |Split(Csv.Arquivo(rows).value[1..], "\n")| == |rows| + 1
  {
    forall i, j | 0 <= i < |rows| && 0 <= j < |rows[i]| ensures '\n' !in rows[i][j].chave {
      assert rows[i] in rows;
      assert Chaves(rows[i])[j] == rows[i][j].chave;
    }
    Csv.ArquivoLinhas(rows);
  }

  lemma CabecalhoProducaoSemQuebra()
    ensures forall j :: 0 <= j < |CabecalhoProducao| ==> '\n' !in CabecalhoProducao[j]
  {
  }

  /** The production export has one line per filtered record below the
      header. */
  lemma ExportarProducao(f: Filtros, d: Dados, agora: nat)
    requires f.tipoRelatorio == "producao" && |Filtrados(f, d)| > 0
    ensures var t := Exportar(f, d, agora).arquivo;
      t.Some? && |Split(t.value[1..], "\n")| == |Filtrados(f, d)| + 1
  {
    var mm := MaqMapSpec(d.maquinasCat);
    OrdenadosMesmoTamanho(f, d);
    TipoProducao(f, d);
    LinhasProducaoColunas(Ordenados(f, d), mm);
    CabecalhoProducaoSemQuebra();
    ArquivoUniforme(LinhasProducao(Ordenados(f, d), mm), CabecalhoProducao);
  }

  /** The downtime export has one row per filtered downtime record. */
  lemma ExportarParadas(f: Filtros, d: Dados)
    requires f.tipoRelatorio == "paradas"
    ensures |LinhasExportadas(f, d)| == |ParadasF(f, d)|
  {
    assert LinhasExportadas(f, d) == LinhasParadas(ParadasF(f, d), MaqMapSpec(d.maquinasCat));
  }

  /** The detailed traceability export has at least one row per filtered
      record, in the records' order. */
  lemma ExportarDetalhado(f: Filtros, d: Dados)
    requires f.tipoRelatorio == "rastreabilidade" && f.modo != "compacto"
    ensures LinhasExportadas(f, d) == LinhasRastreabilidade(Ordenados(f, d), MaqMapSpec(d.maquinasCat), d.lotesDB)
    ensures |LinhasExportadas(f, d)| >= |Filtrados(f, d)|
  {
    OrdenadosMesmoTamanho(f, d);
    TipoRastreabilidade(f, d);
    RastreabilidadeAoMenosUma(Ordenados(f, d), MaqMapSpec(d.maquinasCat), d.lotesDB);
  }

  /** The compact traceability export has one row per distinct record id:
      no two rows share an id and the ids are exactly the filtered records'. */
  lemma ExportarCompacto(f: Filtros, d: Dados)
    requires Compacto(f)
    ensures var out := LinhasExportadas(f, d);
      (forall i, j :: 0 <= i < j < |out| ==> Compactacao.ChaveDe(out[i]) != Compactacao.ChaveDe(out[j])) &&
      (forall k :: k in Compactacao.ChavesDe(out) <==> k in Ids(Ordenados(f, d)))
  {
    var rows := LinhasRastreabilidade(Ordenados(f, d), MaqMapSpec(d.maquinasCat), d.lotesDB);
    TipoRastreabilidade(f, d);
    ChavesDaExplosao(Ordenados(f, d), MaqMapSpec(d.maquinasCat), d.lotesDB);
    CompactarPorChaves(rows, Ids(Ordenados(f, d)));
  }

  /** An id the list does not hold exports nothing, under the name
      `Relatorio_<clock>`. */
  lemma ExportarDesconhecido(f: Filtros, d: Dados, agora: nat)
    requires TipoDe(f.tipoRelatorio).None?
    ensures Exportar(f, d, agora).arquivo.None?
    ensures Exportar(f, d, agora).nome == "Relatorio_" + NatToString(agora)
  {
    NomeDesconhecido(f, agora);
  }

  lemma NomeDesconhecido(f: Filtros, agora: nat)
    requires TipoDe(f.tipoRelatorio).None?
    ensures NomeArquivo(f, agora) == "Relatorio_" + NatToString(agora)
  {
    RelatorioSemEspaco();
    assert f.tipoRelatorio != "rastreabilidade";
  }

  lemma RelatorioSemEspaco()
    ensures CollapseSpaces("Relatorio", '_') == "Relatorio"
  {
    assert !HasSpace("Relatorio") by {
      forall i | 0 <= i < |"Relatorio"| ensures !IsSpace("Relatorio"[i]) { }
    }
  }

  /** The label of each entry in the file name: the words of its name
      joined by `_`. */
  lemma RotuloDoTipo(t: Tipo)
    ensures CollapseSpaces(Nome(t), '_') ==
      match t
      case ProducaoPeriodo => "Produção_por_Período"
      case ParadasMaquina => "Paradas_de_Máquina"
      case DesempenhoOperador => "Desempenho_por_Operador/Máquina"
      case OeeDetalhado => "OEE_Detalhado"
      case EstimativaExpedicao => "Estimativa_de_Expedição"
      case ProdutividadeItens => "Produtividade_(Itens)"
      case RastreabilidadeLotes => "Rastreabilidade_(Amarrados/Lotes)"
  {
    PalavrasDoTipo(t);
    Rotulo(Nome(t), Palavras(t));
  }

  /** The words of an entry's name. */
  function Palavras(t: Tipo): seq<string> {
    match t
    case ProducaoPeriodo => ["Produção", "por", "Período"]
    case ParadasMaquina => ["Paradas", "de", "Máquina"]
    case DesempenhoOperador => ["Desempenho", "por", "Operador/Máquina"]
    case OeeDetalhado => ["OEE", "Detalhado"]
    case EstimativaExpedicao => ["Estimativa", "de", "Expedição"]
    case ProdutividadeItens => ["Produtividade", "(Itens)"]
    case RastreabilidadeLotes => ["Rastreabilidade", "(Amarrados/Lotes)"]
  }

  /** An entry's name is its words joined by one space; joined by `_` they
      make the label. */
  lemma PalavrasDoTipo(t: Tipo)
    ensures forall i :: 0 <= i < |Palavras(t)| ==> Palavra(Palavras(t)[i])
    ensures Join(Palavras(t), " ") == Nome(t)
    ensures Join(Palavras(t), "_") ==
      match t
      case ProducaoPeriodo => "Produção_por_Período"
      case ParadasMaquina => "Paradas_de_Máquina"
      case DesempenhoOperador => "Desempenho_por_Operador/Máquina"
      case OeeDetalhado => "OEE_Detalhado"
      case EstimativaExpedicao => "Estimativa_de_Expedição"
      case ProdutividadeItens => "Produtividade_(Itens)"
      case RastreabilidadeLotes => "Rastreabilidade_(Amarrados/Lotes)"
  {
    match t
    case ProducaoPeriodo => PalavrasProducaoPeriodo(); EspacosProducaoPeriodo(); SublinhadosProducaoPeriodo();
    case ParadasMaquina => PalavrasParadasMaquina(); EspacosParadasMaquina(); SublinhadosParadasMaquina();
    case DesempenhoOperador => PalavrasDesempenhoOperador(); EspacosDesempenhoOperador(); SublinhadosDesempenhoOperador();
    case OeeDetalhado => PalavrasOeeDetalhado(); EspacosOeeDetalhado(); SublinhadosOeeDetalhado();
    case EstimativaExpedicao => PalavrasEstimativaExpedicao(); EspacosEstimativaExpedicao(); SublinhadosEstimativaExpedicao();
    case ProdutividadeItens => PalavrasProdutividadeItens(); EspacosProdutividadeItens(); SublinhadosProdutividadeItens();
    case RastreabilidadeLotes => PalavrasRastreabilidadeLotes(); EspacosRastreabilidadeLotes(); SublinhadosRastreabilidadeLotes();
  }

  // The facts `PalavrasDoTipo` combines, entry by entry: that each word is
  // free of white space, the name, and the label.

  lemma PalavrasProducaoPeriodo()
    ensures forall i :: 0 <= i < |Palavras(ProducaoPeriodo)| ==> Palavra(Palavras(ProducaoPeriodo)[i])
  {
    assert Palavra("Produção") && Palavra("por") && Palavra("Período");
  }

  lemma EspacosProducaoPeriodo()
    ensures Join(Palavras(ProducaoPeriodo), " ") == Nome(ProducaoPeriodo)
  {
    Juntar3("Produção", "por", "Período", " ");
  }

  lemma SublinhadosProducaoPeriodo()
    ensures Join(Palavras(ProducaoPeriodo), "_") == "Produção_por_Período"
  {
    Juntar3("Produção", "por", "Período", "_");
  }

  lemma PalavrasParadasMaquina()
    ensures forall i :: 0 <= i < |Palavras(ParadasMaquina)| ==> Palavra(Palavras(ParadasMaquina)[i])
  {
    assert Palavra("Paradas") && Palavra("de") && Palavra("Máquina");
  }

  lemma EspacosParadasMaquina()
    ensures Join(Palavras(ParadasMaquina), " ") == Nome(ParadasMaquina)
  {
    Juntar3("Paradas", "de", "Máquina", " ");
  }

  lemma SublinhadosParadasMaquina()
    ensures Join(Palavras(ParadasMaquina), "_") == "Paradas_de_Máquina"
  {
    Juntar3("Paradas", "de", "Máquina", "_");
  }

  lemma PalavrasDesempenhoOperador()
    ensures forall i :: 0 <= i < |Palavras(DesempenhoOperador)| ==> Palavra(Palavras(DesempenhoOperador)[i])
  {
    assert Palavra("Desempenho") && Palavra("por") && Palavra("Operador/Máquina");
  }

  lemma EspacosDesempenhoOperador()
    ensures Join(Palavras(DesempenhoOperador), " ") == Nome(DesempenhoOperador)
  {
    Juntar3("Desempenho", "por", "Operador/Máquina", " ");
  }

  lemma SublinhadosDesempenhoOperador()
    ensures Join(Palavras(DesempenhoOperador), "_") == "Desempenho_por_Operador/Máquina"
  {
    Juntar3("Desempenho", "por", "Operador/Máquina", "_");
  }

  lemma PalavrasOeeDetalhado()
    ensures forall i :: 0 <= i < |Palavras(OeeDetalhado)| ==> Palavra(Palavras(OeeDetalhado)[i])
  {
    assert Palavra("OEE") && Palavra("Detalhado");
  }

  lemma EspacosOeeDetalhado()
    ensures Join(Palavras(OeeDetalhado), " ") == Nome(OeeDetalhado)
  {
    Juntar2("OEE", "Detalhado", " ");
  }

  lemma SublinhadosOeeDetalhado()
    ensures Join(Palavras(OeeDetalhado), "_") == "OEE_Detalhado"
  {
    Juntar2("OEE", "Detalhado", "_");
  }

  lemma PalavrasEstimativaExpedicao()
    ensures forall i :: 0 <= i < |Palavras(EstimativaExpedicao)| ==> Palavra(Palavras(EstimativaExpedicao)[i])
  {
    assert Palavra("Estimativa") && Palavra("de") && Palavra("Expedição");
  }

  lemma EspacosEstimativaExpedicao()
    ensures Join(Palavras(EstimativaExpedicao), " ") == Nome(EstimativaExpedicao)
  {
    Juntar3("Estimativa", "de", "Expedição", " ");
  }

  lemma SublinhadosEstimativaExpedicao()
    ensures Join(Palavras(EstimativaExpedicao), "_") == "Estimativa_de_Expedição"
  {
    Juntar3("Estimativa", "de", "Expedição", "_");
  }

  lemma PalavrasProdutividadeItens()
    ensures forall i :: 0 <= i < |Palavras(ProdutividadeItens)| ==> Palavra(Palavras(ProdutividadeItens)[i])
  {
    assert Palavra("Produtividade") && Palavra("(Itens)");
  }

  lemma EspacosProdutividadeItens()
    ensures Join(Palavras(ProdutividadeItens), " ") == Nome(ProdutividadeItens)
  {
    Juntar2("Produtividade", "(Itens)", " ");
  }

  lemma SublinhadosProdutividadeItens()
    ensures Join(Palavras(ProdutividadeItens), "_") == "Produtividade_(Itens)"
  {
    Juntar2("Produtividade", "(Itens)", "_");
  }

  lemma PalavrasRastreabilidadeLotes()
    ensures forall i :: 0 <= i < |Palavras(RastreabilidadeLotes)| ==> Palavra(Palavras(RastreabilidadeLotes)[i])
  {
    assert Palavra("Rastreabilidade") && Palavra("(Amarrados/Lotes)");
  }

  lemma EspacosRastreabilidadeLotes()
    ensures Join(Palavras(RastreabilidadeLotes), " ") == Nome(RastreabilidadeLotes)
  {
    Juntar2("Rastreabilidade", "(Amarrados/Lotes)", " ");
  }

  lemma SublinhadosRastreabilidadeLotes()
    ensures Join(Palavras(RastreabilidadeLotes), "_") == "Rastreabilidade_(Amarrados/Lotes)"
  {
    Juntar2("Rastreabilidade", "(Amarrados/Lotes)", "_");
  }

  lemma Juntar2(a: string, b: string, sep: string)
    ensures Join([a, b], sep) == a + sep + b
  {
    assert [a, b][1..] == [b];
  }

  lemma Juntar3(a: string, b: string, c: string, sep: string)
    ensures Join([a, b, c], sep) == a + sep + b + sep + c
  {
    assert [a, b, c][1..] == [b, c];
    assert [b, c][1..] == [c];
  }

  /** A non-empty piece of text with no white space. */
  predicate Palavra(w: string) { w != "" && forall k :: 0 <= k < |w| ==> !IsSpace(w[k]) }

  /** Words joined by one space have the spaces replaced by `_`. */
  lemma Rotulo(n: string, ws: seq<string>)
    requires n == Join(ws, " ") && forall i :: 0 <= i < |ws| ==> Palavra(ws[i])
    ensures CollapseSpaces(n, '_') == Join(ws, "_")
  {
    CollapseSpacesWords(ws, '_');
  }

  /** The file name of a listed entry: its label, the mode for traceability,
      and the clock. */
  lemma NomeArquivoDoTipo(f: Filtros, agora: nat, t: Tipo)
    requires TipoDe(f.tipoRelatorio) == Some(t)
    ensures NomeArquivo(f, agora) ==
      CollapseSpaces(Nome(t), '_') + (if t == RastreabilidadeLotes then "_" + f.modo else "") + "_" + NatToString(agora)
  {
    TipoDeId(t);
  }

  /** The rows do not depend on the output format. */
  lemma ConstruirIgnoraFormato(t: Tipo, f: Filtros, d: Dados, formato: string)
    ensures Construir(t, f.(formato := formato), d) == Construir(t, f, d)
  {
    var g := f.(formato := formato);
    ApontamentosIgnoramFormato(f, d.apontamentos, formato);
    ParadasIgnoramFormato(f, Paradas(d.paradasRaw), formato);
    assert Filtrados(g, d) == Filtrados(f, d);
    assert ParadasF(g, d) == ParadasF(f, d);
    var mm := MaqMapSpec(d.maquinasCat);
    match t
    case ProducaoPeriodo =>
    case ParadasMaquina =>
    case DesempenhoOperador =>
      assert ContribDesempenho(g, d) == ContribDesempenho(f, d);
    case OeeDetalhado =>
      assert ContribOee(g, d) == ContribOee(f, d);
    case EstimativaExpedicao =>
      assert ContribExpedicao(g, d) == ContribExpedicao(f, d);
    case ProdutividadeItens =>
      assert ContribProdutividade(g, d) == ContribProdutividade(f, d);
    case RastreabilidadeLotes =>
      var r := LinhasRastreabilidade(Ordenados(f, d), mm, d.lotesDB);
      assert Construir(t, g, d) == r;
      assert Construir(t, f, d) == r;
  }

  /** The format only decides the notice: the name and the file are the
      same whichever format is chosen. */
  lemma FormatoSoAviso(f: Filtros, d: Dados, agora: nat, formato: string)
    ensures var e := Exportar(f, d, agora);
      var e' := Exportar(f.(formato := formato), d, agora);
      e'.nome == e.nome && e'.arquivo == e.arquivo
  {
    var g := f.(formato := formato);
    match TipoDe(f.tipoRelatorio)
    case Some(t) =>
      ConstruirIgnoraFormato(t, f, d, formato);
      assert LinhasDoTipo(g, d) == LinhasDoTipo(f, d);
    case None =>
  }

  /** The clock can be read back from the end of the name, after a `_`. */
  lemma NomeArquivoCarimbo(f: Filtros, agora: nat)
    ensures var n := NomeArquivo(f, agora);
      var t := NatToString(agora);
      |n| > |t| && n[|n| - |t| - 1] == '_' && AllDigits(n[|n| - |t|..]) && DigitsValue(n[|n| - |t|..]) == agora
  {
    var n := NomeArquivo(f, agora);
    var t := NatToString(agora);
    assert n[|n| - |t|..] == t;
    DigitsValueOfNatToString(agora);
  }
}
