/** The traceability report (frontend/src/pages/Relatorios.jsx, lines
    252-323): one row per bundle of a production record, or per external lot
    when the record lists no bundle, or the record alone; and its compact
    mode (lines 25-55), one row per record with the bundle columns merged. */
module Rastreabilidade {
  import opened Base
  import opened Text
  import opened Records
  import opened Tempo
  import opened Linhas
  import opened CodeParser
  import opened Relatorio

  // ---------------------------------------------------------------------------
  // The detailed rows

  const CabecalhoBase: seq<string> :=
    ["ID_Apont", "Data", "Hora", "Operador", "Maquina", "PedidoSeq", "Produto_Usinagem",
     "Lote_Usinagem", "Qtde_Produzida", "Qtde_Refugo", "RackOuPallet", "LotesExternos"]

  const CabecalhoAmarrado: seq<string> :=
    ["Amarrado_Codigo", "Amarrado_Lote", "Amarrado_Rack", "Amarrado_Produto",
     "Amarrado_Ferramenta", "Amarrado_Comprimento_mm", "Amarrado_PedidoSeq",
     "Amarrado_Pedido", "Amarrado_Seq", "Amarrado_Romaneio", "Amarrado_QtKG", "Amarrado_QtdPC"]

  /** `lotes_externos.join(', ')` when it is an array, else `lote_externo || ''`. */
  function LotesExternosTexto(a: Apontamento): string {
    match a.lotes_externos
    case Some(xs) => Join(xs, ", ")
    case None => a.lote_externo
  }

  /** The columns every row of a record starts with (lines 255-268). */
  function BaseDe(a: Apontamento, mm: map<string, string>): (r: Linha)
    ensures Chaves(r) == CabecalhoBase
    ensures r[0] == Campo("ID_Apont", Str(a.id))
  {
    Montar(CabecalhoBase,
      [Str(a.id), Str(BrDate(a.inicio)), Str(BrTime(a.inicio)), Str(Or(a.operador, "-")),
       Str(NomeMaquina(mm, a.maquina)), Str(PedidoSeqDe(a)), Str(Or(CodigoProduto(a), "-")),
       Str(Or(a.lote, "-")), Num(a.quantidade), Num(a.qtd_refugo),
       Str(FirstNonEmpty([a.rack_ou_pallet, a.rackOuPallet], "-")), Str(LotesExternosTexto(a))])
  }

  /** `s.includes('/') ? s.split('/') : [s, '']`, destructured into order and
      sequence; a missing second piece reads as ''. */
  function PedidoESeq(s: string): (r: (string, string))
    ensures '/' !in s ==> r == (s, "")
  {
    if '/' in s then
      var ps := Split(s, "/");
      (ps[0], if |ps| >= 2 then ps[1] else "")
    else (s, "")
  }

  /** `order/seq` splits back into its two halves. */
  lemma PedidoESeqPartes(p: string, q: string)
    requires '/' !in p && '/' !in q
    ensures PedidoESeq(p + "/" + q) == (p, q)
  {
    var s := p + "/" + q;
    assert Join([p, q], "/") == s;
    SplitJoin([p, q], "/");
    assert s[|p|] == '/';
  }

  /** `am.qt_kg ?? ''`. */
  function OuVazio(c: Cell): (r: Cell)
    ensures r != Null
    ensures c != Null ==> r == c
    ensures c == Null ==> r == Str("")
  {
    if c.Null? then Str("") else c
  }

  /** `Number(x || 0) || ''`, for an already numeric `x`. */
  function NumOuVazio(n: int): (r: Cell)
    ensures n == 0 <==> r == Str("")
    ensures n != 0 ==> r == Num(n)
  {
    if n != 0 then Num(n) else Str("")
  }

  /** The bundle columns of one embedded bundle (lines 301-321). */
  function ExtraAmarrado(am: Amarrado): (r: Linha)
    ensures Chaves(r) == CabecalhoAmarrado
    ensures r[4] == Campo("Amarrado_Ferramenta", Str(Ferramenta(am.produto)))
  {
    var ps := PedidoESeq(am.pedido_seq);
    Montar(CabecalhoAmarrado,
      [Str(am.codigo), Str(am.lote), Str(am.rack), Str(am.produto), Str(Ferramenta(am.produto)),
       Str(ExtrairComprimentoAcabado(am.produto)), Str(am.pedido_seq), Str(ps.0), Str(ps.1),
       Str(am.romaneio), OuVazio(am.qt_kg), OuVazio(am.qtd_pc)])
  }

  /** The record `{}` a lot number not in the catalogue resolves to. */
  const LoteVazio: Lote := Lote("", "", "", "", "", "", 0, 0, [])

  /** The test of the search: the lot's number, trimmed, is `n`. */
  predicate Confere(l: Lote, n: string) { Trim(l.lote) == n }

  /** `lotesDB.find(x => String(x.lote || '').trim() === String(loteNum))`:
      the first lot whose trimmed number is `n`. */
  function AcharLote(lotes: seq<Lote>, n: string): Option<Lote> {
    Achar(lotes, l => Confere(l, n))
  }

  /** `... || {}`. */
  function LoteDe(lotes: seq<Lote>, n: string): Lote {
    AcharLote(lotes, n).GetOr(LoteVazio)
  }

  /** The product text of a lot: its `produto`, else the original `Produto`
      field, trimmed. */
  function ProdutoDoLote(l: Lote): string {
    Trim(Or(l.produto, GetCampoOriginalLote(l.dados_originais, "Produto")))
  }

  /** The bundle columns read from a catalogue lot (lines 274-295). */
  function ExtraLote(l: Lote): (r: Linha)
    ensures Chaves(r) == CabecalhoAmarrado
  {
    var prod := ProdutoDoLote(l);
    var ps := PedidoESeq(l.pedido_seq);
    Montar(CabecalhoAmarrado,
      [Str(Trim(l.codigo)), Str(Trim(l.lote)), Str(Trim(l.rack_embalagem)), Str(prod),
       Str(Ferramenta(prod)), Str(ExtrairComprimentoAcabado(prod)), Str(l.pedido_seq),
       Str(ps.0), Str(ps.1), Str(Trim(l.romaneio)), NumOuVazio(l.qt_kg), NumOuVazio(l.qtd_pc)])
  }

  /** The external lot numbers of a record (line 272). */
  function LotesExt(a: Apontamento): seq<string> {
    match a.lotes_externos
    case Some(xs) => xs
    case None => if a.lote_externo != "" then [a.lote_externo] else []
  }

  /** `{ ...base, Amarrado_...: ... }` for one bundle. */
  function LinhaDoAmarrado(b: Linha, am: Amarrado): Linha { b + ExtraAmarrado(am) }

  /** `{ ...base, Amarrado_...: ... }` for one external lot number. */
  function LinhaDoLote(b: Linha, lotes: seq<Lote>, n: string): Linha { b + ExtraLote(LoteDe(lotes, n)) }

  /** A lot number the catalogue lists takes its bundle columns from the
      first lot with that number. */
  lemma LoteCadastrado(b: Linha, lotes: seq<Lote>, n: string, i: nat)
    requires i < |lotes| && Confere(lotes[i], n)
    requires forall j :: 0 <= j < i ==> !Confere(lotes[j], n)
    ensures LinhaDoLote(b, lotes, n) == b + ExtraLote(lotes[i])
  {
  }

  /** A lot number the catalogue does not list reads as `{}`: the twelve
      bundle columns are all empty. */
  lemma LoteNaoCadastrado(b: Linha, lotes: seq<Lote>, n: string)
    requires forall i :: 0 <= i < |lotes| ==> !Confere(lotes[i], n)
    ensures LinhaDoLote(b, lotes, n) == b + Montar(CabecalhoAmarrado, seq(12, i => Str("")))
  {
    assert LoteDe(lotes, n) == LoteVazio;
    ExtraLoteVazio(LoteVazio);
  }

  lemma ExtraLoteVazio(l: Lote)
    requires l == LoteVazio
    ensures ExtraLote(l) == Montar(CabecalhoAmarrado, seq(12, i => Str("")))
  {
    assert GetCampoOriginalLote(l.dados_originais, "Produto") == "";
    assert ProdutoDoLote(l) == "";
    assert PedidoESeq(l.pedido_seq) == ("", "");
    var vs := [Str(Trim(l.codigo)), Str(Trim(l.lote)), Str(Trim(l.rack_embalagem)), Str(""),
       Str(Ferramenta("")), Str(ExtrairComprimentoAcabado("")), Str(l.pedido_seq),
       Str(""), Str(""), Str(Trim(l.romaneio)), NumOuVazio(l.qt_kg), NumOuVazio(l.qtd_pc)];
    assert vs == seq(12, i => Str(""));
  }

  function ComAmarrados(b: Linha, ams: seq<Amarrado>): (rows: seq<Linha>)
    ensures |rows| == |ams|
  {
    if |ams| == 0 then [] else ComAmarrados(b, ams[..|ams| - 1]) + [LinhaDoAmarrado(b, ams[|ams| - 1])]
  }

  function ComLotes(b: Linha, ns: seq<string>, lotes: seq<Lote>): (rows: seq<Linha>)
    ensures |rows| == |ns|
  {
    if |ns| == 0 then [] else ComLotes(b, ns[..|ns| - 1], lotes) + [LinhaDoLote(b, lotes, ns[|ns| - 1])]
  }

  /** The rows of one record. */
  function LinhasDoApontamento(a: Apontamento, mm: map<string, string>, lotes: seq<Lote>): seq<Linha> {
    var b := BaseDe(a, mm);
    if |a.amarrados_detalhados| > 0 then ComAmarrados(b, a.amarrados_detalhados)
    else if |LotesExt(a)| > 0 then ComLotes(b, LotesExt(a), lotes)
    else [b]
  }

  /** The detailed traceability rows of the records, in order. */
  function LinhasRastreabilidade(xs: seq<Apontamento>, mm: map<string, string>, lotes: seq<Lote>): seq<Linha> {
    if |xs| == 0 then []
    else LinhasRastreabilidade(xs[..|xs| - 1], mm, lotes) + LinhasDoApontamento(xs[|xs| - 1], mm, lotes)
  }

  /** The loop of lines 254-324, pushing each row as it is built. */
  method Explodir(xs: seq<Apontamento>, mm: map<string, string>, lotes: seq<Lote>) returns (linhas: seq<Linha>)
    ensures linhas == LinhasRastreabilidade(xs, mm, lotes)
  {
    linhas := [];
    for i := 0 to |xs|
      invariant linhas == LinhasRastreabilidade(xs[..i], mm, lotes)
    {
      var a := xs[i];
      var b := BaseDe(a, mm);
      var arr := a.amarrados_detalhados;
      if |arr| == 0 {
        var lotesExt := LotesExt(a);
        if |lotesExt| > 0 {
          linhas := EmpurrarLotes(linhas, b, lotesExt, lotes);
        } else {
          linhas := linhas + [b];
        }
      } else {
        linhas := EmpurrarAmarrados(linhas, b, arr);
      }
      assert xs[..i + 1][..i] == xs[..i];
    }
    assert xs[..|xs|] == xs;
  }

  /** The inner loop over the external lot numbers (lines 274-296). */
  method EmpurrarLotes(linhas0: seq<Linha>, b: Linha, ns: seq<string>, lotes: seq<Lote>) returns (linhas: seq<Linha>)
    ensures linhas == linhas0 + ComLotes(b, ns, lotes)
  {
    linhas := linhas0;
    for j := 0 to |ns|
      invariant linhas == linhas0 + ComLotes(b, ns[..j], lotes)
    {
      ComLotesPasso(b, ns, lotes, j);
      AnexarAoFim(linhas0, ComLotes(b, ns[..j], lotes), LinhaDoLote(b, lotes, ns[j]));
      linhas := linhas + [LinhaDoLote(b, lotes, ns[j])];
    }
    assert ns[..|ns|] == ns;
  }

  lemma ComLotesPasso(b: Linha, ns: seq<string>, lotes: seq<Lote>, j: int)
    requires 0 <= j < |ns|
    ensures ComLotes(b, ns[..j + 1], lotes) == ComLotes(b, ns[..j], lotes) + [LinhaDoLote(b, lotes, ns[j])]
  {
    assert ns[..j + 1][..j] == ns[..j];
  }

  /** The inner loop over the embedded bundles (lines 301-322). */
  method EmpurrarAmarrados(linhas0: seq<Linha>, b: Linha, ams: seq<Amarrado>) returns (linhas: seq<Linha>)
    ensures linhas == linhas0 + ComAmarrados(b, ams)
  {
    linhas := linhas0;
    for j := 0 to |ams|
      invariant linhas == linhas0 + ComAmarrados(b, ams[..j])
    {
      AnexarAoFim(linhas0, ComAmarrados(b, ams[..j]), LinhaDoAmarrado(b, ams[j]));
      linhas := linhas + [LinhaDoAmarrado(b, ams[j])];
      assert ams[..j + 1][..j] == ams[..j];
    }
    assert ams[..|ams|] == ams;
  }

  /** Every row of a record starts with the record's base columns, a record
      always yields at least one row, and one row per bundle, else per
      external lot. */
  lemma LinhasDoApontamentoForma(a: Apontamento, mm: map<string, string>, lotes: seq<Lote>)
    ensures var rows := LinhasDoApontamento(a, mm, lotes);
      |rows| >= 1 &&
      (|a.amarrados_detalhados| > 0 ==> |rows| == |a.amarrados_detalhados|) &&
      (|a.amarrados_detalhados| == 0 && |LotesExt(a)| > 0 ==> |rows| == |LotesExt(a)|) &&
      forall r :: r in rows ==> |r| >= |CabecalhoBase| && r[..|CabecalhoBase|] == BaseDe(a, mm)
  {
    var b := BaseDe(a, mm);
    if |a.amarrados_detalhados| > 0 {
      ComAmarradosPrefixo(b, a.amarrados_detalhados);
    } else if |LotesExt(a)| > 0 {
      ComLotesPrefixo(b, LotesExt(a), lotes);
    }
  }

  lemma {:induction false} ComAmarradosPrefixo(b: Linha, ams: seq<Amarrado>)
    ensures forall r :: r in ComAmarrados(b, ams) ==> |r| >= |b| && r[..|b|] == b
  {
    if |ams| > 0 {
      ComAmarradosPrefixo(b, ams[..|ams| - 1]);
      var r := LinhaDoAmarrado(b, ams[|ams| - 1]);
      assert r[..|b|] == b;
    }
  }

  lemma {:induction false} ComLotesPrefixo(b: Linha, ns: seq<string>, lotes: seq<Lote>)
    ensures forall r :: r in ComLotes(b, ns, lotes) ==> |r| >= |b| && r[..|b|] == b
  {
    if |ns| > 0 {
      ComLotesPrefixo(b, ns[..|ns| - 1], lotes);
      var r := LinhaDoLote(b, lotes, ns[|ns| - 1]);
      assert r[..|b|] == b;
    }
  }

  /** The `ID_Apont` a row carries. */
  function IdDaLinha(r: Linha): Cell { Ler(r, "ID_Apont") }

  /** Every row names the record it came from, and every record has a row. */
  lemma {:induction false} RastreabilidadeCobre(xs: seq<Apontamento>, mm: map<string, string>, lotes: seq<Lote>)
    ensures forall r :: r in LinhasRastreabilidade(xs, mm, lotes) ==>
      exists a :: a in xs && IdDaLinha(r) == Str(a.id)
    ensures forall a :: a in xs ==>
      exists r :: r in LinhasRastreabilidade(xs, mm, lotes) && IdDaLinha(r) == Str(a.id)
  {
    if |xs| > 0 {
      var ini := xs[..|xs| - 1];
      var a := xs[|xs| - 1];
      RastreabilidadeCobre(ini, mm, lotes);
      var rows := LinhasDoApontamento(a, mm, lotes);
      LinhasDoApontamentoForma(a, mm, lotes);
      forall r | r in rows ensures IdDaLinha(r) == Str(a.id) {
        IdDoPrefixo(r, BaseDe(a, mm));
      }
      assert rows[0] in rows;
      forall x | x in xs ensures exists r :: r in LinhasRastreabilidade(xs, mm, lotes) && IdDaLinha(r) == Str(x.id) {
        if x != a {
          assert x in ini;
        }
      }
    }
  }

  lemma IdDoPrefixo(r: Linha, b: Linha)
    requires |b| > 0 && b[0].chave == "ID_Apont" && |r| >= |b| && r[..|b|] == b
    ensures IdDaLinha(r) == b[0].valor
  {
    assert r[0] == b[0];
  }
}
