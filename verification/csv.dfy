/** The text `downloadCSV` writes (frontend/src/pages/Relatorios.jsx,
    lines 145-156): a byte-order mark, then a `;`-separated header line
    holding every key of every row, then one line per row; the blob, the
    link and the click that save it are not part of this model. */
module Csv {
  import opened Base
  import opened Text
  import opened Records
  import opened Linhas

  // ---------------------------------------------------------------------------
  // The header

  /** The keys of every row, row after row. */
  function TodasChaves(rows: seq<Linha>): (ks: seq<string>)
    ensures forall k :: k in ks <==> exists i :: 0 <= i < |rows| && k in Chaves(rows[i])
  {
    if |rows| == 0 then []
    else
      var t := TodasChaves(rows[1..]);
      assert forall k :: k in t <==> exists i :: 1 <= i < |rows| && k in Chaves(rows[i]) by {
        forall k | k in t ensures exists i :: 1 <= i < |rows| && k in Chaves(rows[i]) {
          var j :| 0 <= j < |rows[1..]| && k in Chaves(rows[1..][j]);
          assert rows[1..][j] == rows[j + 1];
        }
        forall k | exists i :: 1 <= i < |rows| && k in Chaves(rows[i]) ensures k in t {
          var i :| 1 <= i < |rows| && k in Chaves(rows[i]);
          assert rows[1..][i - 1] == rows[i];
        }
      }
      Chaves(rows[0]) + t
  }

  /** `headers`: every key of every row, once, in the order the rows first
      show it (the insertion order of the `Set`). */
  function Cabecalho(rows: seq<Linha>): (h: seq<string>)
    ensures forall k :: k in h <==> exists i :: 0 <= i < |rows| && k in Chaves(rows[i])
    ensures forall i, j :: 0 <= i < j < |h| ==> h[i] != h[j]
    ensures var ks := TodasChaves(rows);
      forall i, j :: 0 <= i < j < |h| ==>
        h[i] in ks && h[j] in ks && PrimeiroIndice(ks, h[i]) < PrimeiroIndice(ks, h[j])
  {
    DedupOrdem(TodasChaves(rows));
    Dedup(TodasChaves(rows))
  }

  /** Elements already seen add nothing. */
  lemma {:induction false} DedupIntoVistos(seen: seq<string>, xs: seq<string>)
    requires forall i, j :: 0 <= i < j < |seen| ==> seen[i] != seen[j]
    requires forall x :: x in xs ==> x in seen
    ensures DedupInto(seen, xs) == seen
    decreases |xs|
  {
    if |xs| > 0 {
      assert xs[0] in xs;
      DedupIntoVistos(seen, xs[1..]);
    }
  }

  /** Distinct elements are all kept, in order. */
  lemma {:induction false} DedupIntoDistintos(seen: seq<string>, xs: seq<string>)
    requires forall i, j :: 0 <= i < j < |seen| ==> seen[i] != seen[j]
    requires forall i, j :: 0 <= i < j < |seen + xs| ==> (seen + xs)[i] != (seen + xs)[j]
    ensures DedupInto(seen, xs) == seen + xs
    decreases |xs|
  {
    if |xs| > 0 {
      assert xs[0] !in seen by {
        forall i | 0 <= i < |seen| ensures seen[i] != xs[0] {
          assert (seen + xs)[i] == seen[i] && (seen + xs)[|seen|] == xs[0];
        }
      }
      assert seen + xs == (seen + [xs[0]]) + xs[1..];
      assert forall i, j :: 0 <= i < j < |seen + [xs[0]]| ==> (seen + [xs[0]])[i] != (seen + [xs[0]])[j] by {
        forall i, j | 0 <= i < j < |seen + [xs[0]]| ensures (seen + [xs[0]])[i] != (seen + [xs[0]])[j] {
          assert (seen + [xs[0]])[i] == (seen + xs)[i] && (seen + [xs[0]])[j] == (seen + xs)[j];
        }
      }
      DedupIntoDistintos(seen + [xs[0]], xs[1..]);
    }
  }

  lemma {:induction false} DedupIntoConcat(seen: seq<string>, xs: seq<string>, ys: seq<string>)
    requires forall i, j :: 0 <= i < j < |seen| ==> seen[i] != seen[j]
    ensures DedupInto(seen, xs + ys) == DedupInto(DedupInto(seen, xs), ys)
    decreases |xs|
  {
    if |xs| == 0 {
      assert xs + ys == ys;
    } else {
      assert (xs + ys)[0] == xs[0] && (xs + ys)[1..] == xs[1..] + ys;
      if xs[0] in seen {
        DedupIntoConcat(seen, xs[1..], ys);
      } else {
        DedupIntoConcat(seen + [xs[0]], xs[1..], ys);
      }
    }
  }

  /** When every row has the same distinct keys, as the rows of each report
      do, the header is exactly those keys in their order. */
  lemma {:induction false} CabecalhoUniforme(rows: seq<Linha>, ks: seq<string>)
    requires |rows| > 0
    requires forall i, j :: 0 <= i < j < |ks| ==> ks[i] != ks[j]
    requires forall i :: 0 <= i < |rows| ==> Chaves(rows[i]) == ks
    ensures Cabecalho(rows) == ks
  {
    var t := TodasChaves(rows[1..]);
    assert TodasChaves(rows) == ks + t;
    DedupIntoConcat([], ks, t);
    assert [] + ks == ks;
    DedupIntoDistintos([], ks);
    RestoNasChaves(rows, ks);
    DedupIntoVistos(ks, t);
  }

  lemma RestoNasChaves(rows: seq<Linha>, ks: seq<string>)
    requires |rows| > 0
    requires forall i :: 0 <= i < |rows| ==> Chaves(rows[i]) == ks
    ensures forall k :: k in TodasChaves(rows[1..]) ==> k in ks
  {
    forall k | k in TodasChaves(rows[1..]) ensures k in ks {
      var j :| 0 <= j < |rows[1..]| && k in Chaves(rows[1..][j]);
      assert rows[1..][j] == rows[j + 1];
    }
  }

  // ---------------------------------------------------------------------------
  // esc

  predicate Quebra(c: char) { c == '\n' || c == '\r' }

  predicate SemQuebra(s: string) { forall i :: 0 <= i < |s| ==> !Quebra(s[i]) }

  /** `.replace(/\r?\n|\r/g, ' ')`: each `\r\n`, lone `\n` or lone `\r`
      becomes one space. */
  function TrocarQuebras(s: string): (r: string)
    ensures SemQuebra(r)
    ensures |r| <= |s|
    ensures SemQuebra(s) ==> r == s
  {
    if |s| == 0 then ""
    else if |s| >= 2 && s[0] == '\r' && s[1] == '\n' then " " + TrocarQuebras(s[2..])
    else if Quebra(s[0]) then " " + TrocarQuebras(s[1..])
    else
      assert SemQuebra(s) ==> SemQuebra(s[1..]) by {
        if SemQuebra(s) {
          forall i | 0 <= i < |s[1..]| ensures !Quebra(s[1..][i]) {
            assert s[1..][i] == s[i + 1];
          }
        }
      }
      [s[0]] + TrocarQuebras(s[1..])
  }

  /** `s.replace(/"/g, '""')`. */
  function Duplicar(s: string): (r: string)
    ensures SemQuebra(s) ==> SemQuebra(r)
  {
    if |s| == 0 then ""
    else
      assert SemQuebra(s) ==> SemQuebra(s[1..]) by {
        if SemQuebra(s) {
          forall i | 0 <= i < |s[1..]| ensures !Quebra(s[1..][i]) {
            assert s[1..][i] == s[i + 1];
          }
        }
      }
      (if s[0] == '"' then "\"\"" else [s[0]]) + Duplicar(s[1..])
  }

  /** A field needs quotes when it holds the delimiter or a quote. */
  predicate Especial(s: string) { ';' in s || '"' in s }

  /** `esc(v)`: an absent value is empty; otherwise the text with line breaks
      made spaces, quoted (and its quotes doubled) exactly when it holds `;`
      or `"`. */
  function Esc(c: Cell): (r: string)
    ensures c.Null? ==> r == ""
    ensures SemQuebra(r)
    ensures Especial(TrocarQuebras(Texto(c))) <==> |r| >= 2 && r[0] == '"'
    ensures !Especial(TrocarQuebras(Texto(c))) ==> r == TrocarQuebras(Texto(c))
  {
    if c.Null? then ""
    else
      var s := TrocarQuebras(Texto(c));
      if Especial(s) then
        var r := "\"" + Duplicar(s) + "\"";
        assert forall i :: 1 <= i < |r| - 1 ==> r[i] == Duplicar(s)[i - 1];
        r
      else
        assert |s| >= 2 ==> s[0] != '"' by {
          if |s| >= 2 {
            assert s[0] in s;
          }
        }
        s
  }

  // ---------------------------------------------------------------------------
  // Reading a field back

  /** Inside quotes, each `""` stands for one `"`. */
  function Reduzir(s: string): string {
    if |s| == 0 then ""
    else if |s| >= 2 && s[0] == '"' && s[1] == '"' then "\"" + Reduzir(s[2..])
    else [s[0]] + Reduzir(s[1..])
  }

  /** How a reader takes a field: a quoted field loses its quotes and its
      doubled quotes. */
  function Desescapar(r: string): string {
    if |r| >= 2 && r[0] == '"' && r[|r| - 1] == '"' then Reduzir(r[1..|r| - 1]) else r
  }

  lemma {:induction false} ReduzirDuplicar(s: string)
    ensures Reduzir(Duplicar(s)) == s
  {
    if |s| > 0 {
      ReduzirDuplicar(s[1..]);
      var d := Duplicar(s[1..]);
      if s[0] == '"' {
        assert Duplicar(s) == "\"\"" + d;
        assert ("\"\"" + d)[2..] == d;
      } else {
        assert Duplicar(s) == [s[0]] + d;
        assert ([s[0]] + d)[1..] == d;
      }
      assert s == [s[0]] + s[1..];
    }
  }

  /** Un-quoting a field gives back the value with its line breaks made
      spaces. */
  lemma DesescaparEsc(c: Cell)
    ensures Desescapar(Esc(c)) == TrocarQuebras(Texto(c))
  {
    if c.Null? {
      assert Texto(c) == "";
    } else {
      var s := TrocarQuebras(Texto(c));
      if Especial(s) {
        var r := Esc(c);
        assert r == "\"" + Duplicar(s) + "\"";
        assert r[1..|r| - 1] == Duplicar(s);
        ReduzirDuplicar(s);
      }
    }
  }

  // ---------------------------------------------------------------------------
  // The lines

  /** `headers.map(h => esc(r[h]))`. */
  function Celulas(h: seq<string>, r: Linha): (cs: seq<string>)
    ensures |cs| == |h|
    ensures forall i :: 0 <= i < |h| && h[i] !in Chaves(r) ==> cs[i] == ""
    ensures forall i :: 0 <= i < |h| ==> SemQuebra(cs[i])
  {
    seq(|h|, i requires 0 <= i < |h| => Esc(Ler(r, h[i])))
  }

  /** Each cell reads back as the row's value under that header, a missing
      key as empty. */
  lemma CelulaLida(h: seq<string>, r: Linha, i: int)
    requires 0 <= i < |h|
    ensures Desescapar(Celulas(h, r)[i]) == TrocarQuebras(Texto(Ler(r, h[i])))
  {
    DesescaparEsc(Ler(r, h[i]));
  }

  function LinhaCsv(h: seq<string>, r: Linha): string {
    Join(Celulas(h, r), ";")
  }

  /** The lines of the file: the header, then one line per row. */
  function LinhasDoArquivo(rows: seq<Linha>): (ls: seq<string>)
    ensures |ls| == |rows| + 1
    ensures ls[0] == Join(Cabecalho(rows), ";")
    ensures forall i :: 0 <= i < |rows| ==> ls[i + 1] == LinhaCsv(Cabecalho(rows), rows[i])
  {
    var h := Cabecalho(rows);
    var corpo := seq(|rows|, i requires 0 <= i < |rows| => LinhaCsv(h, rows[i]));
    assert forall i :: 0 <= i < |rows| ==> ([Join(h, ";")] + corpo)[i + 1] == corpo[i];
    [Join(h, ";")] + corpo
  }

  /** The byte-order mark that makes spreadsheet programs read UTF-8. */
  const Bom: string := "\U{FEFF}"

  /** `downloadCSV(rows)`: nothing for no rows, otherwise the mark and the
      lines joined by `\n`. */
  function Arquivo(rows: seq<Linha>): (r: Option<string>)
    ensures r.None? <==> |rows| == 0
    ensures r.Some? ==> |r.value| >= 1 && r.value[..1] == Bom
  {
    if |rows| == 0 then None else Some(Bom + Join(LinhasDoArquivo(rows), "\n"))
  }

  /** No key of any row holds a line feed (the keys of every report are
      fixed identifiers). */
  predicate ChavesDeUmaLinha(rows: seq<Linha>) {
    forall i, j :: 0 <= i < |rows| && 0 <= j < |rows[i]| ==> '\n' !in rows[i][j].chave
  }

  /** The file holds exactly one line more than there are rows: the header,
      then each row's line in order. */
  lemma ArquivoLinhas(rows: seq<Linha>)
    requires |rows| > 0 && ChavesDeUmaLinha(rows)
    ensures var t := Arquivo(rows).value;
      Split(t[1..], "\n") == LinhasDoArquivo(rows) && |Split(t[1..], "\n")| == |rows| + 1
  {
    var ls := LinhasDoArquivo(rows);
    forall i | 0 <= i < |ls| ensures "\n"[0] !in ls[i] {
      if i == 0 {
        CabecalhoSemQuebra(rows);
      } else {
        LinhaSemQuebra(Cabecalho(rows), rows[i - 1]);
      }
    }
    SplitJoin(ls, "\n");
    var t := Arquivo(rows).value;
    assert t[1..] == Join(ls, "\n");
  }

  lemma CabecalhoSemQuebra(rows: seq<Linha>)
    requires ChavesDeUmaLinha(rows)
    ensures '\n' !in Join(Cabecalho(rows), ";")
  {
    var h := Cabecalho(rows);
    forall j | 0 <= j < |h| ensures '\n' !in h[j] {
      assert h[j] in h;
      var m, n :| 0 <= m < |rows| && 0 <= n < |Chaves(rows[m])| && Chaves(rows[m])[n] == h[j];
      assert Chaves(rows[m])[n] == rows[m][n].chave;
    }
    JoinSemCaractere(h, ";", '\n');
  }

  lemma LinhaSemQuebra(h: seq<string>, r: Linha)
    ensures '\n' !in LinhaCsv(h, r)
  {
    var cs := Celulas(h, r);
    forall j | 0 <= j < |cs| ensures '\n' !in cs[j] {
      assert SemQuebra(cs[j]);
    }
    JoinSemCaractere(cs, ";", '\n');
  }
}
