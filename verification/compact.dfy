/** The compact mode of the traceability report, `agruparRastreabilidadeCompacto`
    (frontend/src/pages/Relatorios.jsx, lines 25-55): the rows of one
    production record (same `ID_Apont`) collapse into the first of them,
    whose bundle columns become the list of the distinct values seen. */
module Compactacao {
  import opened Base
  import opened Text
  import opened Records
  import opened Linhas

  // ---------------------------------------------------------------------------
  // concat

  /** `filter(Boolean)` on strings. */
  function NaoVazia(t: string): bool { t != "" }

  /** The non-empty pieces of a `", "`-separated list. */
  function Fichas(s: string): (r: seq<string>)
    ensures forall t :: t in r ==> t != ""
  {
    Filtrar(Split(s, ", "), NaoVazia)
  }

  /** `(v ? String(v) : '').trim()`. */
  function Aparado(c: Cell): string {
    Trim(TextoSeVerdadeiro(c))
  }

  /** `concat(a, b)` (lines 32-39): the union of the two lists, first
      occurrences kept in order, or whichever side is empty. */
  function Concat(a: Cell, b: Cell): (r: string)
    ensures Aparado(a) == "" ==> r == Aparado(b)
    ensures Aparado(a) != "" && Aparado(b) == "" ==> r == Aparado(a)
  {
    var sa := Aparado(a);
    var sb := Aparado(b);
    if sa == "" then sb
    else if sb == "" then sa
    else Join(Dedup(Fichas(sa) + Fichas(sb)), ", ")
  }

  /** With both sides non-empty, the pieces of the result are the distinct
      pieces of the two sides, first occurrences first: every piece of either
      side is in it and nothing else is. */
  lemma ConcatFichas(a: Cell, b: Cell)
    requires Aparado(a) != "" && Aparado(b) != ""
    ensures Fichas(Concat(a, b)) == Dedup(Fichas(Aparado(a)) + Fichas(Aparado(b)))
    ensures forall t :: t in Fichas(Concat(a, b)) <==> t in Fichas(Aparado(a)) || t in Fichas(Aparado(b))
  {
    assert Concat(a, b) == Join(Uniao(Aparado(a), Aparado(b)), ", ");
    FichasUniao(Aparado(a), Aparado(b));
  }

  /** The distinct pieces of two lists, first occurrences first. */
  function Uniao(sa: string, sb: string): seq<string> {
    Dedup(Fichas(sa) + Fichas(sb))
  }

  lemma FichasUniao(sa: string, sb: string)
    ensures forall t :: t in Uniao(sa, sb) <==> t in Fichas(sa) || t in Fichas(sb)
    ensures forall t :: t in Uniao(sa, sb) ==> t != "" && SemVirgulaEspaco(t)
    ensures Fichas(Join(Uniao(sa, sb), ", ")) == Uniao(sa, sb)
  {
    var u := Fichas(sa) + Fichas(sb);
    FichasPecas(sa);
    FichasPecas(sb);
    assert forall t :: t in Uniao(sa, sb) ==> t in u;
    FichasJoin(Uniao(sa, sb));
  }

  /** Each piece is non-empty and free of `", "`. */
  lemma FichasPecas(s: string)
    ensures forall t :: t in Fichas(s) ==> t != "" && SemVirgulaEspaco(t)
  {
    SplitSemSeparador(s);
  }

  /** Joining non-empty pieces free of `", "` and cutting them again gives
      them back. */
  lemma FichasJoin(d: seq<string>)
    requires forall t :: t in d ==> t != "" && SemVirgulaEspaco(t)
    ensures Fichas(Join(d, ", ")) == d
  {
    if |d| == 0 {
      VazioSplit();
      assert Filtrar([""], NaoVazia) == Filtrar([], NaoVazia);
    } else {
      SplitJoinVirgula(d);
      FiltrarTodos(d, NaoVazia);
    }
  }

  lemma VazioSplit()
    ensures Split("", ", ") == [""]
  {
    var vazio: string := "";
    assert |vazio| < |", "|;
    assert vazio + vazio == vazio;
  }

  /** A value with no comma is a single piece. */
  lemma FichaUnica(s: string)
    requires s != "" && ',' !in s
    ensures Fichas(s) == [s]
  {
    SplitJoin([s], ", ");
    assert Split(s, ", ") == [s];
    assert Filtrar([s], NaoVazia) == [s] + Filtrar([], NaoVazia);
  }

  /** A single value: non-empty, no comma, no surrounding spaces. */
  predicate Simples(s: string) {
    s != "" && ',' !in s && !IsSpace(s[0]) && !IsSpace(s[|s| - 1])
  }

  /** Such a value is read as it is. */
  lemma AparadoSimples(s: string)
    requires Simples(s)
    ensures Aparado(Str(s)) == s
  {
    assert TextoSeVerdadeiro(Str(s)) == s;
  }

  /** A value repeated across rows is listed once. */
  lemma ConcatRepetido(s: string)
    requires Simples(s)
    ensures Concat(Str(s), Str(s)) == s
  {
    AparadoSimples(s);
    FichaUnica(s);
    DedupRepetido(s);
  }

  lemma DedupRepetido(s: string)
    ensures Dedup([s] + [s]) == [s]
  {
    assert [s] + [s] == [s, s];
    assert [s, s][1..] == [s];
    assert DedupInto([], [s, s]) == DedupInto([s], [s]);
    assert DedupInto([s], [s]) == DedupInto([s], []);
  }

  /** Two different values are listed in order, separated by ", ". */
  lemma ConcatDistintos(s: string, t: string)
    requires Simples(s)
    requires Simples(t)
    requires s != t
    ensures Concat(Str(s), Str(t)) == s + ", " + t
  {
    AparadoSimples(s);
    AparadoSimples(t);
    FichaUnica(s);
    FichaUnica(t);
    DedupDois(s, t);
    assert Join([s, t], ", ") == s + ", " + Join([t], ", ");
  }

  lemma DedupDois(s: string, t: string)
    requires s != t
    ensures Dedup([s] + [t]) == [s, t]
  {
    assert [s] + [t] == [s, t];
    assert [s, t][1..] == [t];
    assert DedupInto([], [s, t]) == DedupInto([s], [t]);
    assert DedupInto([s], [t]) == DedupInto([s] + [t], []);
  }

  // ---------------------------------------------------------------------------
  // The accumulation

  /** `${r.ID_Apont || ''}`. */
  function ChaveDe(r: Linha): string {
    TextoSeVerdadeiro(Ler(r, "ID_Apont"))
  }

  /** The key of each row. */
  function ChavesDe(rows: seq<Linha>): (ks: seq<string>)
    ensures |ks| == |rows| && forall i :: 0 <= i < |rows| ==> ks[i] == ChaveDe(rows[i])
  {
    if |rows| == 0 then [] else [ChaveDe(rows[0])] + ChavesDe(rows[1..])
  }

  /** The columns concatenated for every later row (lines 41-48). */
  const Concatenados: seq<string> :=
    ["Amarrado_Codigo", "Amarrado_Lote", "Amarrado_Rack", "Amarrado_Produto",
     "Amarrado_PedidoSeq", "Amarrado_Romaneio", "Amarrado_QtKG", "Amarrado_QtdPC"]

  /** Those, plus the tool and length columns when the later row has them
      (lines 50-51). */
  function CamposDe(r: Linha): (ks: seq<string>)
    ensures "ID_Apont" !in ks
  {
    Concatenados +
    (if "Amarrado_Ferramenta" in Chaves(r) then ["Amarrado_Ferramenta"] else []) +
    (if "Amarrado_Comprimento_mm" in Chaves(r) then ["Amarrado_Comprimento_mm"] else [])
  }

  /** `map[k].X = concat(map[k].X, r.X)` for each column `X` of `ks`, in order. */
  function MesclarCampos(acc: Linha, r: Linha, ks: seq<string>): Linha
    decreases |ks|
  {
    if |ks| == 0 then acc
    else MesclarCampos(Put(acc, ks[0], Str(Concat(Ler(acc, ks[0]), Ler(r, ks[0])))), r, ks[1..])
  }

  /** Folding a later row `r` into the first row `acc` of its key. */
  function Mesclar(acc: Linha, r: Linha): Linha {
    MesclarCampos(acc, r, CamposDe(r))
  }

  /** Merging leaves the columns it does not list as they were. */
  lemma {:induction false} MesclarCamposOutras(acc: Linha, r: Linha, ks: seq<string>, k: string)
    requires k !in ks
    ensures Get(MesclarCampos(acc, r, ks), k) == Get(acc, k)
    decreases |ks|
  {
    if |ks| > 0 {
      var acc1 := Put(acc, ks[0], Str(Concat(Ler(acc, ks[0]), Ler(r, ks[0]))));
      PutOutras(acc, ks[0], Str(Concat(Ler(acc, ks[0]), Ler(r, ks[0]))), k);
      MesclarCamposOutras(acc1, r, ks[1..], k);
    }
  }

  /** A merged row keeps its key. */
  lemma MesclarChave(acc: Linha, r: Linha)
    ensures ChaveDe(Mesclar(acc, r)) == ChaveDe(acc)
  {
    MesclarCamposOutras(acc, r, CamposDe(r), "ID_Apont");
  }

  /** The object `map` with its keys in insertion order, which is the order
      `Object.values` reports them in. */
  datatype Mapa = Mapa(ordem: seq<string>, linhas: map<string, Linha>)

  /** Every listed key has its row. */
  predicate Fechado(t: Mapa) {
    forall k :: k in t.ordem ==> k in t.linhas
  }

  /** One iteration of the loop of lines 28-53. */
  function Passo(t: Mapa, r: Linha): Mapa {
    var k := ChaveDe(r);
    if k !in t.linhas then Mapa(t.ordem + [k], t.linhas[k := r])
    else Mapa(t.ordem, t.linhas[k := Mesclar(t.linhas[k], r)])
  }

  /** The loop over `rows`, from the state `t`. */
  function CompactarDe(t: Mapa, rows: seq<Linha>): (r: Mapa)
    ensures Fechado(t) ==> Fechado(r)
    decreases |rows|
  {
    if |rows| == 0 then t else CompactarDe(Passo(t, rows[0]), rows[1..])
  }

  /** `Object.values(map)`. */
  function Valores(ordem: seq<string>, linhas: map<string, Linha>): (r: seq<Linha>)
    requires forall k :: k in ordem ==> k in linhas
    ensures |r| == |ordem| && forall i :: 0 <= i < |ordem| ==> r[i] == linhas[ordem[i]]
  {
    if |ordem| == 0 then [] else Valores(ordem[..|ordem| - 1], linhas) + [linhas[ordem[|ordem| - 1]]]
  }

  const Inicial: Mapa := Mapa([], map[])

  /** The rows of a state, in key order. */
  function Saida(t: Mapa): seq<Linha>
    requires Fechado(t)
  {
    Valores(t.ordem, t.linhas)
  }

  /** The compacted rows. */
  function Compactar(rows: seq<Linha>): seq<Linha> {
    Saida(CompactarDe(Inicial, rows))
  }

  /** `agruparRastreabilidadeCompacto`. */
  method CompactarMetodo(rows: seq<Linha>) returns (out: seq<Linha>)
    ensures out == Compactar(rows)
  {
    var linhas: map<string, Linha> := map[];
    var ordem: seq<string> := [];
    for i := 0 to |rows|
      invariant Fechado(Mapa(ordem, linhas))
      invariant CompactarDe(Mapa(ordem, linhas), rows[i..]) == CompactarDe(Inicial, rows)
    {
      var r := rows[i];
      var k := ChaveDe(r);
      if k !in linhas {
        linhas := linhas[k := r];
        ordem := ordem + [k];
      } else {
        linhas := linhas[k := Mesclar(linhas[k], r)];
      }
      assert rows[i..][1..] == rows[i + 1..];
    }
    out := Valores(ordem, linhas);
  }

  // ---------------------------------------------------------------------------
  // What the compaction promises

  /** The state of the loop: each key listed once, exactly the keys present,
      each row filed under its own key. */
  predicate Valido(t: Mapa) {
    (forall i, j :: 0 <= i < j < |t.ordem| ==> t.ordem[i] != t.ordem[j]) &&
    (forall k :: k in t.ordem ==> k in t.linhas) &&
    (forall k :: k in t.linhas ==> k in t.ordem) &&
    (forall k :: k in t.linhas ==> ChaveDe(t.linhas[k]) == k)
  }

  lemma PassoValido(t: Mapa, r: Linha)
    requires Valido(t)
    ensures Valido(Passo(t, r))
  {
    var k := ChaveDe(r);
    if k in t.linhas {
      var m := Mesclar(t.linhas[k], r);
      MesclarChave(t.linhas[k], r);
      ValidoSubstitui(t, k, m);
    } else {
      ValidoAcrescenta(t, k, r);
    }
  }

  lemma ValidoSubstitui(t: Mapa, k: string, m: Linha)
    requires Valido(t) && k in t.linhas && ChaveDe(m) == k
    ensures Valido(Mapa(t.ordem, t.linhas[k := m]))
  {
  }

  lemma ValidoAcrescenta(t: Mapa, k: string, r: Linha)
    requires Valido(t) && k !in t.linhas && ChaveDe(r) == k
    ensures Valido(Mapa(t.ordem + [k], t.linhas[k := r]))
  {
  }

  lemma {:induction false} CompactarDeValido(t: Mapa, rows: seq<Linha>)
    requires Valido(t)
    ensures Valido(CompactarDe(t, rows))
    decreases |rows|
  {
    if |rows| > 0 {
      PassoValido(t, rows[0]);
      CompactarDeValido(Passo(t, rows[0]), rows[1..]);
    }
  }

  /** The keys come out in first-seen order, once each. */
  lemma {:induction false} CompactarDeOrdem(t: Mapa, rows: seq<Linha>)
    requires Valido(t)
    ensures CompactarDe(t, rows).ordem == DedupInto(t.ordem, ChavesDe(rows))
    decreases |rows|
  {
    if |rows| > 0 {
      PassoValido(t, rows[0]);
      CompactarDeOrdem(Passo(t, rows[0]), rows[1..]);
      assert ChavesDe(rows)[1..] == ChavesDe(rows[1..]);
    }
  }

  /** The key of each output row is the key it is filed under. */
  lemma ChavesDosValores(t: Mapa)
    requires Valido(t)
    ensures ChavesDe(Valores(t.ordem, t.linhas)) == t.ordem
  {
  }

  /** One output row per distinct `ID_Apont`, in first-seen order. */
  lemma CompactarChaves(rows: seq<Linha>)
    ensures ChavesDe(Compactar(rows)) == Dedup(ChavesDe(rows))
  {
    CompactarDeValido(Inicial, rows);
    CompactarDeOrdem(Inicial, rows);
    ChavesDosValores(CompactarDe(Inicial, rows));
  }

  /** Rows whose keys are new to `t` and distinct from each other. */
  predicate Novas(t: Mapa, rows: seq<Linha>) {
    (forall i :: 0 <= i < |rows| ==> ChaveDe(rows[i]) !in t.linhas) &&
    (forall i, j :: 0 <= i < j < |rows| ==> ChaveDe(rows[i]) != ChaveDe(rows[j]))
  }

  lemma NovasPasso(t: Mapa, rows: seq<Linha>)
    requires |rows| > 0 && Novas(t, rows)
    ensures Novas(Passo(t, rows[0]), rows[1..])
  {
    PassoNovo(t, rows[0]);
    var t1 := Passo(t, rows[0]);
    forall i | 0 <= i < |rows[1..]| ensures ChaveDe(rows[1..][i]) !in t1.linhas {
      assert rows[1..][i] == rows[i + 1];
    }
  }

  /** Keys not met before are copied through unchanged. */
  lemma {:induction false} CompactarDeNovas(t: Mapa, rows: seq<Linha>)
    requires Fechado(t) && Novas(t, rows)
    ensures Saida(CompactarDe(t, rows)) == Saida(t) + rows
    decreases |rows|
  {
    if |rows| > 0 {
      var t1 := Passo(t, rows[0]);
      PassoNovo(t, rows[0]);
      ValoresNovo(t, ChaveDe(rows[0]), rows[0]);
      NovasPasso(t, rows);
      CompactarDeNovas(t1, rows[1..]);
      assert CompactarDe(t, rows) == CompactarDe(t1, rows[1..]);
      CabecaCauda(Saida(t), rows[0], rows[1..], rows);
    }
  }

  lemma PassoNovo(t: Mapa, r: Linha)
    requires ChaveDe(r) !in t.linhas
    ensures Passo(t, r) == Mapa(t.ordem + [ChaveDe(r)], t.linhas[ChaveDe(r) := r])
  {
  }

  /** Filing a row under a new key appends it to the values. */
  lemma ValoresNovo(t: Mapa, k: string, r: Linha)
    requires Fechado(t) && k !in t.linhas
    ensures Fechado(Mapa(t.ordem + [k], t.linhas[k := r]))
    ensures Saida(Mapa(t.ordem + [k], t.linhas[k := r])) == Saida(t) + [r]
  {
    var ordem := t.ordem;
    var linhas := t.linhas;
    var a := Valores(ordem + [k], linhas[k := r]);
    var b := Valores(ordem, linhas) + [r];
    assert |a| == |b|;
    forall i | 0 <= i < |a| ensures a[i] == b[i] {
      if i < |ordem| {
        assert (ordem + [k])[i] == ordem[i];
      } else {
        assert (ordem + [k])[i] == k;
      }
    }
  }

  /** Rows whose keys are already distinct are left as they are. */
  lemma CompactarDistintas(rows: seq<Linha>)
    requires forall i, j :: 0 <= i < j < |rows| ==> ChaveDe(rows[i]) != ChaveDe(rows[j])
    ensures Compactar(rows) == rows
  {
    CompactarDeNovas(Inicial, rows);
  }

  /** Compacting twice is compacting once. */
  lemma CompactarIdempotente(rows: seq<Linha>)
    ensures Compactar(Compactar(rows)) == Compactar(rows)
  {
    var out := Compactar(rows);
    CompactarChaves(rows);
    var ks := ChavesDe(out);
    forall i, j | 0 <= i < j < |out| ensures ChaveDe(out[i]) != ChaveDe(out[j]) {
      assert ks[i] == ChaveDe(out[i]) && ks[j] == ChaveDe(out[j]);
    }
    CompactarDistintas(out);
  }

  // ---------------------------------------------------------------------------
  // What a compacted row holds

  /** The pieces of a cell, as `concat` reads it. */
  function Pecas(v: Cell): seq<string> {
    Fichas(Aparado(v))
  }

  /** No piece of the cell has white space at either end. */
  predicate Limpa(v: Cell) {
    forall t :: t in Pecas(v) ==> !IsSpace(t[0]) && !IsSpace(t[|t| - 1])
  }

  lemma FichasVazio()
    ensures Fichas("") == []
  {
    VazioSplit();
    assert Filtrar([""], NaoVazia) == Filtrar([], NaoVazia);
  }

  /** A value already trimmed reads back as itself. */
  lemma AparadoReaparado(c: Cell)
    ensures Aparado(Str(Aparado(c))) == Aparado(c)
  {
    var r := Aparado(c);
    assert r == "" || (!IsSpace(r[0]) && !IsSpace(r[|r| - 1]));
    RelerAparado(r);
  }

  lemma RelerAparado(r: string)
    requires r == "" || (!IsSpace(r[0]) && !IsSpace(r[|r| - 1]))
    ensures Aparado(Str(r)) == r
  {
    TextoStr(r);
    assert Trim(r) == r;
  }

  lemma TextoStr(r: string)
    ensures TextoSeVerdadeiro(Str(r)) == r
  {
    if r != "" {
      assert Verdadeiro(Str(r));
    }
  }

  /** `concat` of two clean cells is clean, and its pieces are exactly those
      of the two sides, whichever of them is empty. */
  lemma ConcatPecas(a: Cell, b: Cell)
    requires Limpa(a) && Limpa(b)
    ensures Limpa(Str(Concat(a, b)))
    ensures forall x :: x in Pecas(Str(Concat(a, b))) <==> x in Pecas(a) || x in Pecas(b)
  {
    FichasVazio();
    if Aparado(a) == "" {
      AparadoReaparado(b);
    } else if Aparado(b) == "" {
      AparadoReaparado(a);
    } else {
      ConcatPecasAmbos(a, b);
    }
  }

  lemma ConcatPecasAmbos(a: Cell, b: Cell)
    requires Limpa(a) && Limpa(b) && Aparado(a) != "" && Aparado(b) != ""
    ensures Limpa(Str(Concat(a, b)))
    ensures forall x :: x in Fichas(Aparado(Str(Concat(a, b)))) <==> x in Fichas(Aparado(a)) || x in Fichas(Aparado(b))
  {
    var d := Uniao(Aparado(a), Aparado(b));
    assert Concat(a, b) == Join(d, ", ");
    FichasUniao(Aparado(a), Aparado(b));
    JoinLimpo(d);
  }

  /** Clean pieces free of `", "`, joined, read back as themselves. */
  lemma JoinLimpo(d: seq<string>)
    requires forall t :: t in d ==> t != "" && SemVirgulaEspaco(t) && !IsSpace(t[0]) && !IsSpace(t[|t| - 1])
    ensures Aparado(Str(Join(d, ", "))) == Join(d, ", ")
    ensures Fichas(Join(d, ", ")) == d
  {
    var j := Join(d, ", ");
    if |d| > 0 {
      assert d[0] in d && d[|d| - 1] in d;
      JoinInicio(d, ", ");
      JoinFim(d, ", ");
      assert Trim(j) == j;
    }
    FichasJoin(d);
  }

  /** Merging a row into `acc` over the columns `ks`: a listed column `c`
      then holds the pieces of both, an unlisted one those of `acc`. */
  lemma {:induction false} MesclarCamposPecas(acc: Linha, r: Linha, ks: seq<string>, c: string)
    requires Limpa(Ler(acc, c)) && Limpa(Ler(r, c))
    ensures Limpa(Ler(MesclarCampos(acc, r, ks), c))
    ensures forall x :: x in Pecas(Ler(MesclarCampos(acc, r, ks), c)) <==>
      x in Pecas(Ler(acc, c)) || (c in ks && x in Pecas(Ler(r, c)))
    decreases |ks|
  {
    if |ks| > 0 {
      var v := Str(Concat(Ler(acc, ks[0]), Ler(r, ks[0])));
      var acc1 := Put(acc, ks[0], v);
      if ks[0] == c {
        ConcatPecas(Ler(acc, c), Ler(r, c));
        assert Ler(acc1, c) == v;
      } else {
        PutOutras(acc, ks[0], v, c);
        assert Ler(acc1, c) == Ler(acc, c);
      }
      MesclarCamposPecas(acc1, r, ks[1..], c);
      assert c in ks <==> c == ks[0] || c in ks[1..];
    }
  }

  /** Some row of `rows` with key `k` has the piece `x` in column `c`. */
  predicate NoGrupo(rows: seq<Linha>, k: string, c: string, x: string) {
    exists j :: 0 <= j < |rows| && ChaveDe(rows[j]) == k && x in Pecas(Ler(rows[j], c))
  }

  lemma NoGrupoCauda(rows: seq<Linha>, k: string, c: string, x: string)
    requires |rows| > 0
    ensures NoGrupo(rows, k, c, x) <==>
      (ChaveDe(rows[0]) == k && x in Pecas(Ler(rows[0], c))) || NoGrupo(rows[1..], k, c, x)
  {
    if NoGrupo(rows[1..], k, c, x) {
      var j :| 0 <= j < |rows[1..]| && ChaveDe(rows[1..][j]) == k && x in Pecas(Ler(rows[1..][j], c));
      assert rows[j + 1] == rows[1..][j];
    }
    if NoGrupo(rows, k, c, x) {
      var j :| 0 <= j < |rows| && ChaveDe(rows[j]) == k && x in Pecas(Ler(rows[j], c));
      if j > 0 {
        assert rows[1..][j - 1] == rows[j];
      }
    }
  }

  /** The group's clean cells in `c`, each row merging `c`. */
  predicate GrupoLimpo(rows: seq<Linha>, k: string, c: string) {
    forall j :: 0 <= j < |rows| && ChaveDe(rows[j]) == k ==> Limpa(Ler(rows[j], c)) && c in CamposDe(rows[j])
  }

  lemma GrupoLimpoCauda(rows: seq<Linha>, k: string, c: string)
    requires |rows| > 0 && GrupoLimpo(rows, k, c)
    ensures GrupoLimpo(rows[1..], k, c)
  {
    forall j | 0 <= j < |rows[1..]| && ChaveDe(rows[1..][j]) == k
      ensures Limpa(Ler(rows[1..][j], c)) && c in CamposDe(rows[1..][j]) {
      assert rows[1..][j] == rows[j + 1];
    }
  }

  /** One step of the loop on the row filed under `k`. */
  lemma PassoPecas(t: Mapa, r: Linha, k: string, c: string)
    requires k in t.linhas && Limpa(Ler(t.linhas[k], c))
    requires ChaveDe(r) == k ==> Limpa(Ler(r, c)) && c in CamposDe(r)
    ensures k in Passo(t, r).linhas && Limpa(Ler(Passo(t, r).linhas[k], c))
    ensures forall x :: x in Pecas(Ler(Passo(t, r).linhas[k], c)) <==>
      x in Pecas(Ler(t.linhas[k], c)) || (ChaveDe(r) == k && x in Pecas(Ler(r, c)))
  {
    if ChaveDe(r) == k {
      PassoMesma(t, r, k, c);
    } else {
      PassoOutra(t, r, k, c);
    }
  }

  lemma PassoMesma(t: Mapa, r: Linha, k: string, c: string)
    requires k in t.linhas && Limpa(Ler(t.linhas[k], c))
    requires ChaveDe(r) == k && Limpa(Ler(r, c)) && c in CamposDe(r)
    ensures k in Passo(t, r).linhas && Limpa(Ler(Passo(t, r).linhas[k], c))
    ensures forall x :: x in Pecas(Ler(Passo(t, r).linhas[k], c)) <==>
      x in Pecas(Ler(t.linhas[k], c)) || x in Pecas(Ler(r, c))
  {
    MesclarPecas(t.linhas[k], r, c);
    assert Passo(t, r).linhas[k] == Mesclar(t.linhas[k], r);
  }

  lemma PassoOutra(t: Mapa, r: Linha, k: string, c: string)
    requires k in t.linhas && ChaveDe(r) != k
    ensures k in Passo(t, r).linhas && Passo(t, r).linhas[k] == t.linhas[k]
  {
  }

  lemma MesclarPecas(acc: Linha, r: Linha, c: string)
    requires Limpa(Ler(acc, c)) && Limpa(Ler(r, c)) && c in CamposDe(r)
    ensures Limpa(Ler(Mesclar(acc, r), c))
    ensures forall x :: x in Pecas(Ler(Mesclar(acc, r), c)) <==> x in Pecas(Ler(acc, c)) || x in Pecas(Ler(r, c))
  {
    MesclarCamposPecas(acc, r, CamposDe(r), c);
  }

  /** Once key `k` is filed, the rest of the loop adds the pieces of its
      later rows to column `c`. */
  lemma {:induction false} CompactarDePecasPresente(t: Mapa, rows: seq<Linha>, k: string, c: string)
    requires k in t.linhas && Limpa(Ler(t.linhas[k], c)) && GrupoLimpo(rows, k, c)
    ensures k in CompactarDe(t, rows).linhas
    ensures Limpa(Ler(CompactarDe(t, rows).linhas[k], c))
    ensures forall x :: x in Pecas(Ler(CompactarDe(t, rows).linhas[k], c)) <==>
      x in Pecas(Ler(t.linhas[k], c)) || NoGrupo(rows, k, c, x)
    decreases |rows|
  {
    if |rows| > 0 {
      var t1 := Passo(t, rows[0]);
      PassoPecas(t, rows[0], k, c);
      GrupoLimpoCauda(rows, k, c);
      CompactarDePecasPresente(t1, rows[1..], k, c);
      forall x {
        NoGrupoCauda(rows, k, c, x);
      }
    }
  }

  /** Before key `k` is filed, the loop files its first row and then adds
      the pieces of the later ones. */
  lemma {:induction false} CompactarDePecasAusente(t: Mapa, rows: seq<Linha>, k: string, c: string)
    requires k !in t.linhas && GrupoLimpo(rows, k, c)
    ensures k in CompactarDe(t, rows).linhas ==>
      Limpa(Ler(CompactarDe(t, rows).linhas[k], c)) &&
      forall x :: x in Pecas(Ler(CompactarDe(t, rows).linhas[k], c)) <==> NoGrupo(rows, k, c, x)
    decreases |rows|
  {
    if |rows| > 0 {
      var t1 := Passo(t, rows[0]);
      GrupoLimpoCauda(rows, k, c);
      if ChaveDe(rows[0]) == k {
        assert t1.linhas[k] == rows[0];
        CompactarDePecasPresente(t1, rows[1..], k, c);
      } else {
        CompactarDePecasAusente(t1, rows[1..], k, c);
      }
      forall x {
        NoGrupoCauda(rows, k, c, x);
      }
    }
  }

  /** A merged column of a compacted row holds the union of the pieces of
      its group's rows: a piece is in it exactly when some row with that
      `ID_Apont` has it in that column. */
  lemma CompactarPecas(rows: seq<Linha>, c: string, m: nat)
    requires m < |Compactar(rows)|
    requires GrupoLimpo(rows, ChaveDe(Compactar(rows)[m]), c)
    ensures Limpa(Ler(Compactar(rows)[m], c))
    ensures forall x :: x in Pecas(Ler(Compactar(rows)[m], c)) <==>
      NoGrupo(rows, ChaveDe(Compactar(rows)[m]), c, x)
  {
    var t := CompactarDe(Inicial, rows);
    CompactarDeValido(Inicial, rows);
    var k := t.ordem[m];
    assert Compactar(rows)[m] == t.linhas[k];
    CompactarDePecasAusente(Inicial, rows, k, c);
  }

  /** A column no row ever merges (lines 41-51). */
  predicate Fixa(q: string) {
    q !in Concatenados && q != "Amarrado_Ferramenta" && q != "Amarrado_Comprimento_mm"
  }

  /** `rows[j]` is the first row with its key. */
  predicate Primeira(rows: seq<Linha>, j: nat) {
    j < |rows| && forall i :: 0 <= i < j ==> ChaveDe(rows[i]) != ChaveDe(rows[j])
  }

  /** Once key `k` is filed, the rest of the loop leaves its unmerged
      columns alone. */
  lemma {:induction false} CompactarDeFixaPresente(t: Mapa, rows: seq<Linha>, k: string, q: string)
    requires k in t.linhas && Fixa(q)
    ensures k in CompactarDe(t, rows).linhas
    ensures Get(CompactarDe(t, rows).linhas[k], q) == Get(t.linhas[k], q)
    decreases |rows|
  {
    if |rows| > 0 {
      var t1 := Passo(t, rows[0]);
      if ChaveDe(rows[0]) == k {
        assert t1.linhas[k] == Mesclar(t.linhas[k], rows[0]);
        MesclarCamposOutras(t.linhas[k], rows[0], CamposDe(rows[0]), q);
      } else {
        assert t1.linhas[k] == t.linhas[k];
      }
      CompactarDeFixaPresente(t1, rows[1..], k, q);
    }
  }

  /** Before the first row with key `k`, that row is the one filed. */
  lemma {:induction false} CompactarDeFixaAusente(t: Mapa, rows: seq<Linha>, j: nat, q: string)
    requires Primeira(rows, j) && ChaveDe(rows[j]) !in t.linhas && Fixa(q)
    ensures ChaveDe(rows[j]) in CompactarDe(t, rows).linhas
    ensures Get(CompactarDe(t, rows).linhas[ChaveDe(rows[j])], q) == Get(rows[j], q)
    decreases |rows|
  {
    var k := ChaveDe(rows[j]);
    var t1 := Passo(t, rows[0]);
    if j == 0 {
      assert t1.linhas[k] == rows[0];
      CompactarDeFixaPresente(t1, rows[1..], k, q);
    } else {
      assert ChaveDe(rows[0]) != k;
      assert rows[1..][j - 1] == rows[j];
      assert Primeira(rows[1..], j - 1) by {
        forall i | 0 <= i < j - 1 ensures ChaveDe(rows[1..][i]) != k {
          assert rows[1..][i] == rows[i + 1];
        }
      }
      CompactarDeFixaAusente(t1, rows[1..], j - 1, q);
    }
  }

  /** A compacted row reads, in every column that is never merged, as the
      first input row with its `ID_Apont`. */
  lemma CompactarFixa(rows: seq<Linha>, m: nat, j: nat, q: string)
    requires m < |Compactar(rows)|
    requires Primeira(rows, j) && ChaveDe(rows[j]) == ChaveDe(Compactar(rows)[m])
    requires Fixa(q)
    ensures Get(Compactar(rows)[m], q) == Get(rows[j], q)
  {
    var t := CompactarDe(Inicial, rows);
    CompactarDeValido(Inicial, rows);
    var k := t.ordem[m];
    assert Compactar(rows)[m] == t.linhas[k];
    CompactarDeFixaAusente(Inicial, rows, j, q);
  }
}
