/** Small shared vocabulary: optional values and the "first truthy string"
    precedence chains the report screen uses for legacy field aliases. */
module Base {

  datatype Option<+T> = None | Some(value: T) {
    function GetOr(default: T): T {
      match this
      case Some(v) => v
      case None => default
    }
  }

  /** JavaScript `a || b` on two strings: the empty string is falsy. */
  function Or(a: string, b: string): (r: string)
    ensures a != "" ==> r == a
    ensures a == "" ==> r == b
  {
    if a != "" then a else b
  }

  /** `x ?? y` on optional values: only a missing value falls through. */
  function Coalesce<T>(x: Option<T>, y: Option<T>): (r: Option<T>)
    ensures x.Some? ==> r == x
    ensures x.None? ==> r == y
  {
    if x.Some? then x else y
  }

  /** A precedence chain `c[0] || c[1] || ... || fallback`, tried in order. */
  function FirstNonEmpty(chain: seq<string>, fallback: string): (r: string)
    ensures r == fallback || r in chain
    ensures r != "" || fallback == ""
    ensures (forall i :: 0 <= i < |chain| ==> chain[i] == "") ==> r == fallback
    ensures forall i :: 0 <= i < |chain| && chain[i] != "" && (forall k :: 0 <= k < i ==> chain[k] == "") ==>
      r == chain[i]
  {
    if |chain| == 0 then fallback
    else if chain[0] != "" then chain[0]
    else
      var r := FirstNonEmpty(chain[1..], fallback);
      assert forall i :: 1 <= i < |chain| ==> chain[i] == chain[1..][i - 1];
      r
  }

  /** `xs` with some elements left out, the rest kept in their order. */
  predicate Subsequencia<T(==)>(r: seq<T>, xs: seq<T>)
    decreases |xs|
  {
    |r| == 0 || (|xs| > 0 && ((r[0] == xs[0] && Subsequencia(r[1..], xs[1..])) || Subsequencia(r, xs[1..])))
  }

  /** `xs.filter(p)`. */
  function Filtrar<T(==,!new)>(xs: seq<T>, p: T -> bool): (r: seq<T>)
    ensures Subsequencia(r, xs)
    ensures forall x :: x in r <==> x in xs && p(x)
    ensures |r| <= |xs|
    ensures |r| == |xs| <==> forall i :: 0 <= i < |xs| ==> p(xs[i])
  {
    if |xs| == 0 then []
    else
      var resto := Filtrar(xs[1..], p);
      assert forall i :: 1 <= i < |xs| ==> xs[i] == xs[1..][i - 1];
      if p(xs[0]) then [xs[0]] + resto else resto
  }

  /** Each element that passes is kept as many times as it occurs; the
      others not at all. */
  lemma {:induction false} FiltrarMultiplicidade<T(!new)>(xs: seq<T>, p: T -> bool)
    ensures forall x :: multiset(Filtrar(xs, p))[x] == if p(x) then multiset(xs)[x] else 0
  {
    if |xs| > 0 {
      FiltrarMultiplicidade(xs[1..], p);
      assert xs == [xs[0]] + xs[1..];
      assert multiset(xs) == multiset([xs[0]]) + multiset(xs[1..]);
    }
  }

  /** Everything passes, everything is kept. */
  lemma {:induction false} FiltrarTodos<T(!new)>(xs: seq<T>, p: T -> bool)
    requires forall i :: 0 <= i < |xs| ==> p(xs[i])
    ensures Filtrar(xs, p) == xs
  {
    if |xs| > 0 {
      FiltrarTodos(xs[1..], p);
      assert xs == [xs[0]] + xs[1..];
    }
  }

  /** Nothing passes, nothing is kept. */
  lemma {:induction false} FiltrarNenhum<T(!new)>(xs: seq<T>, p: T -> bool)
    requires forall i :: 0 <= i < |xs| ==> !p(xs[i])
    ensures Filtrar(xs, p) == []
  {
    if |xs| > 0 {
      FiltrarNenhum(xs[1..], p);
    }
  }

  /** `xs.find(p)`: the first element that passes, if any. */
  function Achar<T>(xs: seq<T>, p: T -> bool): (r: Option<T>)
    ensures r.None? <==> forall i :: 0 <= i < |xs| ==> !p(xs[i])
    ensures forall i :: (0 <= i < |xs| && p(xs[i]) && (forall j :: 0 <= j < i ==> !p(xs[j]))) ==>
      r == Some(xs[i])
  {
    if |xs| == 0 then None
    else if p(xs[0]) then Some(xs[0])
    else
      assert forall i :: 1 <= i < |xs| ==> xs[i] == xs[1..][i - 1];
      Achar(xs[1..], p)
  }

  /** Filtering distributes over concatenation. */
  lemma {:induction false} FiltrarConcat<T(!new)>(xs: seq<T>, ys: seq<T>, p: T -> bool)
    ensures Filtrar(xs + ys, p) == Filtrar(xs, p) + Filtrar(ys, p)
  {
    if |xs| > 0 {
      assert (xs + ys)[1..] == xs[1..] + ys;
      FiltrarConcat(xs[1..], ys, p);
    } else {
      assert xs + ys == ys;
    }
  }

  /** The sum of `f` over `xs`. */
  function Somar<T>(xs: seq<T>, f: T -> int): int {
    if |xs| == 0 then 0 else f(xs[0]) + Somar(xs[1..], f)
  }

  lemma {:induction false} SomarConcat<T>(xs: seq<T>, ys: seq<T>, f: T -> int)
    ensures Somar(xs + ys, f) == Somar(xs, f) + Somar(ys, f)
  {
    if |xs| > 0 {
      assert (xs + ys)[1..] == xs[1..] + ys;
      SomarConcat(xs[1..], ys, f);
    } else {
      assert xs + ys == ys;
    }
  }

  /** The filtered sum grows by the last element exactly when it passes. */
  lemma SomarFiltrarUltimo<T(!new)>(xs: seq<T>, x: T, p: T -> bool, f: T -> int)
    ensures Somar(Filtrar(xs + [x], p), f) == Somar(Filtrar(xs, p), f) + (if p(x) then f(x) else 0)
  {
    FiltrarConcat(xs, [x], p);
    var u := Filtrar([x], p);
    SomarConcat(Filtrar(xs, p), u, f);
    assert [x][1..] == [];
    if p(x) {
      assert u == [x];
      assert Somar(u, f) == f(x) + Somar(u[1..], f);
    } else {
      assert u == [];
    }
  }

  /** A running total from the first element to the last, adding `f(x)` for
      each `x` that passes `p`. */
  function SomarSe<T>(xs: seq<T>, p: T -> bool, f: T -> int): int {
    if |xs| == 0 then 0
    else
      var x := xs[|xs| - 1];
      SomarSe(xs[..|xs| - 1], p, f) + (if p(x) then f(x) else 0)
  }

  /** The running total is the sum over the elements that pass. */
  lemma {:induction false} SomarSeFiltrado<T(!new)>(xs: seq<T>, p: T -> bool, f: T -> int)
    ensures SomarSe(xs, p, f) == Somar(Filtrar(xs, p), f)
  {
    if |xs| > 0 {
      var ini := xs[..|xs| - 1];
      SomarSeFiltrado(ini, p, f);
      assert xs == ini + [xs[|xs| - 1]];
      SomarFiltrarUltimo(ini, xs[|xs| - 1], p, f);
    }
  }

  /** Appending one element after a concatenation. */
  lemma AnexarAoFim<T>(a: seq<T>, b: seq<T>, x: T)
    ensures a + b + [x] == a + (b + [x])
  {
  }

  /** Splitting a non-empty sequence into its head and tail. */
  lemma CabecaCauda<T>(a: seq<T>, x: T, b: seq<T>, c: seq<T>)
    requires |c| > 0 && c[0] == x && c[1..] == b
    ensures a + [x] + b == a + c
  {
    assert [x] + b == c;
  }
}
