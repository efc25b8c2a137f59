/** The stable sorts the reports apply (`Array.prototype.sort` is stable):
    most recent first by start time (frontend/src/pages/Relatorios.jsx,
    lines 441-449), and ascending by a text key (lines 226, 695, 833). */
module Ordenacao {
  import opened Base
  import opened Text
  import opened Records

  // ---------------------------------------------------------------------------
  // Descending by an integer key

  predicate NaoCrescente<T>(s: seq<T>, key: T -> int) {
    forall i, j :: 0 <= i < j < |s| ==> key(s[i]) >= key(s[j])
  }

  /** Inserts `x` before the first element whose key is not greater. */
  function InserirDesc<T>(x: T, s: seq<T>, key: T -> int): (r: seq<T>)
    ensures multiset(r) == multiset(s) + multiset{x}
    ensures |r| == |s| + 1
  {
    if |s| == 0 then [x]
    else if key(s[0]) > key(x) then
      assert s == [s[0]] + s[1..];
      [s[0]] + InserirDesc(x, s[1..], key)
    else [x] + s
  }

  /** Inserting into a sorted sequence keeps it sorted. */
  lemma {:induction false} InserirDescOrdenado<T>(x: T, s: seq<T>, key: T -> int)
    requires NaoCrescente(s, key)
    ensures NaoCrescente(InserirDesc(x, s, key), key)
  {
    if |s| > 0 && key(s[0]) > key(x) {
      var t := InserirDesc(x, s[1..], key);
      assert NaoCrescente(s[1..], key);
      InserirDescOrdenado(x, s[1..], key);
      forall j | 0 <= j < |t| ensures key(s[0]) >= key(t[j]) {
        assert t[j] in multiset(t);
        if t[j] != x {
          assert t[j] in multiset(s[1..]);
          var m :| 0 <= m < |s[1..]| && s[1..][m] == t[j];
          assert s[m + 1] == t[j];
        }
      }
      var r := [s[0]] + t;
      forall i, j | 0 <= i < j < |r| ensures key(r[i]) >= key(r[j]) {
        if i > 0 {
          assert r[i] == t[i - 1] && r[j] == t[j - 1];
        } else {
          assert r[j] == t[j - 1];
        }
      }
    }
  }

  /** A stable sort, largest key first. */
  function OrdenarDesc<T>(xs: seq<T>, key: T -> int): (r: seq<T>)
    ensures multiset(r) == multiset(xs)
    ensures NaoCrescente(r, key)
  {
    if |xs| == 0 then []
    else
      assert xs == [xs[0]] + xs[1..];
      var t := OrdenarDesc(xs[1..], key);
      InserirDescOrdenado(xs[0], t, key);
      InserirDesc(xs[0], t, key)
  }

  /** The elements of `s` whose key is `k`, in order. */
  function DaChave<T>(s: seq<T>, key: T -> int, k: int): seq<T> {
    if |s| == 0 then [] else (if key(s[0]) == k then [s[0]] else []) + DaChave(s[1..], key, k)
  }

  /** Stability of one insertion: among the elements of any one key, `x`
      (which came first in the input) is placed before the others. */
  lemma {:induction false} InserirDescEstavel<T>(x: T, s: seq<T>, key: T -> int, k: int)
    ensures DaChave(InserirDesc(x, s, key), key, k) == (if key(x) == k then [x] else []) + DaChave(s, key, k)
  {
    if |s| > 0 && key(s[0]) > key(x) {
      var t := InserirDesc(x, s[1..], key);
      InserirDescEstavel(x, s[1..], key, k);
      assert ([s[0]] + t)[1..] == t;
    } else {
      assert ([x] + s)[1..] == s;
    }
  }

  /** The sort is stable: the elements of each key keep their input order. */
  lemma {:induction false} OrdenarDescEstavel<T>(xs: seq<T>, key: T -> int, k: int)
    ensures DaChave(OrdenarDesc(xs, key), key, k) == DaChave(xs, key, k)
  {
    if |xs| > 0 {
      OrdenarDescEstavel(xs[1..], key, k);
      InserirDescEstavel(xs[0], OrdenarDesc(xs[1..], key), key, k);
    }
  }

  // ---------------------------------------------------------------------------
  // Ascending by a text key

  predicate NaoDecrescenteTexto<T>(s: seq<T>, key: T -> string) {
    forall i, j :: 0 <= i < j < |s| ==> LessEq(key(s[i]), key(s[j]))
  }

  /** Inserts `x` before the first element whose key is not smaller. */
  function InserirAsc<T>(x: T, s: seq<T>, key: T -> string): (r: seq<T>)
    ensures multiset(r) == multiset(s) + multiset{x}
    ensures |r| == |s| + 1
  {
    if |s| == 0 then [x]
    else if Less(key(s[0]), key(x)) then
      assert s == [s[0]] + s[1..];
      [s[0]] + InserirAsc(x, s[1..], key)
    else [x] + s
  }

  /** Inserting into a sorted sequence keeps it sorted. */
  lemma {:induction false} InserirAscOrdenado<T>(x: T, s: seq<T>, key: T -> string)
    requires NaoDecrescenteTexto(s, key)
    ensures NaoDecrescenteTexto(InserirAsc(x, s, key), key)
  {
    if |s| > 0 && Less(key(s[0]), key(x)) {
      var t := InserirAsc(x, s[1..], key);
      assert NaoDecrescenteTexto(s[1..], key);
      InserirAscOrdenado(x, s[1..], key);
      forall j | 0 <= j < |t| ensures LessEq(key(s[0]), key(t[j])) {
        assert t[j] in multiset(t);
        if t[j] != x {
          assert t[j] in multiset(s[1..]);
          var m :| 0 <= m < |s[1..]| && s[1..][m] == t[j];
          assert s[m + 1] == t[j];
        }
      }
      var r := [s[0]] + t;
      forall i, j | 0 <= i < j < |r| ensures LessEq(key(r[i]), key(r[j])) {
        if i > 0 {
          assert r[i] == t[i - 1] && r[j] == t[j - 1];
        } else {
          assert r[j] == t[j - 1];
        }
      }
    } else if |s| > 0 {
      LessTrichotomy(key(s[0]), key(x));
      var r := [x] + s;
      forall j | 0 <= j < |s| ensures LessEq(key(x), key(s[j])) {
        LessEqTransitive(key(x), key(s[0]), key(s[j]));
      }
      forall i, j | 0 <= i < j < |r| ensures LessEq(key(r[i]), key(r[j])) {
        if i > 0 {
          assert r[i] == s[i - 1] && r[j] == s[j - 1];
        } else {
          assert r[j] == s[j - 1];
        }
      }
    }
  }

  lemma LessEqTransitive(a: string, b: string, c: string)
    requires LessEq(a, b) && LessEq(b, c)
    ensures LessEq(a, c)
  {
    if a != b && b != c {
      LessTransitive(a, b, c);
    }
  }

  /** A stable sort, smallest text key first. */
  function OrdenarAsc<T>(xs: seq<T>, key: T -> string): (r: seq<T>)
    ensures multiset(r) == multiset(xs)
    ensures NaoDecrescenteTexto(r, key)
  {
    if |xs| == 0 then []
    else
      assert xs == [xs[0]] + xs[1..];
      var t := OrdenarAsc(xs[1..], key);
      InserirAscOrdenado(xs[0], t, key);
      InserirAsc(xs[0], t, key)
  }

  function DaChaveTexto<T>(s: seq<T>, key: T -> string, k: string): seq<T> {
    if |s| == 0 then [] else (if key(s[0]) == k then [s[0]] else []) + DaChaveTexto(s[1..], key, k)
  }

  lemma {:induction false} InserirAscEstavel<T>(x: T, s: seq<T>, key: T -> string, k: string)
    ensures DaChaveTexto(InserirAsc(x, s, key), key, k) == (if key(x) == k then [x] else []) + DaChaveTexto(s, key, k)
  {
    if |s| > 0 && Less(key(s[0]), key(x)) {
      var t := InserirAsc(x, s[1..], key);
      InserirAscEstavel(x, s[1..], key, k);
      assert ([s[0]] + t)[1..] == t;
      LessIrreflexive(key(x));
    } else {
      assert ([x] + s)[1..] == s;
    }
  }

  /** The text sort is stable. */
  lemma {:induction false} OrdenarAscEstavel<T>(xs: seq<T>, key: T -> string, k: string)
    ensures DaChaveTexto(OrdenarAsc(xs, key), key, k) == DaChaveTexto(xs, key, k)
  {
    if |xs| > 0 {
      OrdenarAscEstavel(xs[1..], key, k);
      InserirAscEstavel(xs[0], OrdenarAsc(xs[1..], key), key, k);
    }
  }

  // ---------------------------------------------------------------------------
  // apontamentosOrdenados

  /** The sort key of lines 444-445: the start time, 0 when missing. */
  function InstanteInicio(a: Apontamento): int {
    if a.inicio.Some? then a.inicio.value.ms else 0
  }

  /** `apontamentosOrdenados`: a permutation of the filtered records. */
  function ApontamentosOrdenados(xs: seq<Apontamento>): (r: seq<Apontamento>)
    ensures multiset(r) == multiset(xs)
  {
    OrdenarDesc(xs, InstanteInicio)
  }

  /** The records come most recent first (a missing start counts as 0). */
  lemma ApontamentosRecentesPrimeiro(xs: seq<Apontamento>)
    ensures var r := ApontamentosOrdenados(xs);
      forall i, j :: 0 <= i < j < |r| ==> InstanteInicio(r[i]) >= InstanteInicio(r[j])
  {
  }
}
