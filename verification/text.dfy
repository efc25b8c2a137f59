/** String primitives with the meaning JavaScript gives them on the report
    screen: ASCII case mapping, `trim`, `split`, `join`, `padStart`, code-unit
    order, and integer rendering `String(n)`. */
module Text {

  predicate IsDigit(c: char) { '0' <= c <= '9' }
  predicate IsUpper(c: char) { 'A' <= c <= 'Z' }
  predicate IsLower(c: char) { 'a' <= c <= 'z' }

  function UpperChar(c: char): (r: char)
    ensures IsLower(c) ==> IsUpper(r)
    ensures !IsLower(c) ==> r == c
  {
    if IsLower(c) then (c as int - 32) as char else c
  }

  function LowerChar(c: char): (r: char)
    ensures IsUpper(c) ==> IsLower(r)
    ensures !IsUpper(c) ==> r == c
  {
    if IsUpper(c) then (c as int + 32) as char else c
  }

  /** `toUpperCase`, on the ASCII letters. */
  function ToUpper(s: string): (r: string)
    ensures |r| == |s|
    ensures forall i :: 0 <= i < |s| ==> r[i] == UpperChar(s[i])
  {
    seq(|s|, i requires 0 <= i < |s| => UpperChar(s[i]))
  }

  /** `toLowerCase`, on the ASCII letters. */
  function ToLower(s: string): (r: string)
    ensures |r| == |s|
    ensures forall i :: 0 <= i < |s| ==> r[i] == LowerChar(s[i])
  {
    seq(|s|, i requires 0 <= i < |s| => LowerChar(s[i]))
  }

  /** The characters `String.prototype.trim` and the regular-expression class
      `\s` treat as white space: WhiteSpace and LineTerminator of ECMAScript. */
  predicate IsSpace(c: char) {
    c == '\t' || c == '\n' || c == '\U{B}' || c == '\U{C}' || c == '\r' || c == ' '
    || c == '\U{A0}' || c == '\U{1680}' || ('\U{2000}' <= c <= '\U{200A}')
    || c == '\U{2028}' || c == '\U{2029}' || c == '\U{202F}' || c == '\U{205F}'
    || c == '\U{3000}' || c == '\U{FEFF}'
  }

  function TrimStart(s: string): (r: string)
    ensures |r| <= |s| && r == s[|s| - |r|..]
    ensures r == "" || !IsSpace(r[0])
    ensures forall i :: 0 <= i < |s| - |r| ==> IsSpace(s[i])
  {
    if |s| > 0 && IsSpace(s[0]) then TrimStart(s[1..]) else s
  }

  function TrimEnd(s: string): (r: string)
    ensures |r| <= |s| && r == s[..|r|]
    ensures r == "" || !IsSpace(r[|r| - 1])
    ensures forall i :: |r| <= i < |s| ==> IsSpace(s[i])
  {
    if |s| > 0 && IsSpace(s[|s| - 1]) then TrimEnd(s[..|s| - 1]) else s
  }

  /** `r` is the piece of `s` from `i` on, with nothing but white space
      before and after it. */
  predicate Recorte(s: string, r: string, i: nat) {
    i + |r| <= |s| && r == s[i..i + |r|] &&
    (forall k :: 0 <= k < i ==> IsSpace(s[k])) && (forall k :: i + |r| <= k < |s| ==> IsSpace(s[k]))
  }

  /** `trim()`: the longest infix without white space at either end. */
  function Trim(s: string): (r: string)
    ensures r == "" || (!IsSpace(r[0]) && !IsSpace(r[|r| - 1]))
    ensures |r| <= |s|
    ensures r == "" <==> forall k :: 0 <= k < |s| ==> IsSpace(s[k])
    ensures (s == "" || (!IsSpace(s[0]) && !IsSpace(s[|s| - 1]))) ==> r == s
  {
    var a := TrimStart(s);
    var r := TrimEnd(a);
    assert a == s[|s| - |a|..];
    assert r == "" ==> forall k :: 0 <= k < |s| ==> IsSpace(s[k]) by {
      if r == "" {
        forall k | 0 <= k < |s| ensures IsSpace(s[k]) {
          if k >= |s| - |a| { assert s[k] == a[k - (|s| - |a|)]; }
        }
      }
    }
    r
  }

  /** What `trim()` keeps is an infix of `s` with only white space around it. */
  lemma TrimRecorte(s: string)
    ensures Recorte(s, Trim(s), |s| - |TrimStart(s)|)
  {
    RecorteDe(s, TrimStart(s), TrimEnd(TrimStart(s)));
  }

  /** A prefix `r` of a suffix `a` of `s`, with white space around it. */
  lemma RecorteDe(s: string, a: string, r: string)
    requires |a| <= |s| && a == s[|s| - |a|..]
    requires forall k :: 0 <= k < |s| - |a| ==> IsSpace(s[k])
    requires |r| <= |a| && r == a[..|r|]
    requires forall k :: |r| <= k < |a| ==> IsSpace(a[k])
    ensures Recorte(s, r, |s| - |a|)
  {
    var i := |s| - |a|;
    forall k | i + |r| <= k < |s| ensures IsSpace(s[k]) {
      assert s[k] == a[k - i];
    }
  }

  lemma {:induction false} TrimIdempotent(s: string)
    ensures Trim(Trim(s)) == Trim(s)
  {
    var t := Trim(s);
    assert TrimStart(t) == t;
    if t != "" {
      assert TrimEnd(t) == t;
    }
  }

  predicate HasSpace(s: string) { exists i :: 0 <= i < |s| && IsSpace(s[i]) }

  /** `s.replace(/\s+/g, c)`: every maximal run of white space becomes one `c`. */
  function CollapseSpaces(s: string, c: char): (r: string)
    requires !IsSpace(c)
    ensures !HasSpace(r)
    ensures !HasSpace(s) ==> r == s
    ensures |r| <= |s|
    decreases |s|
  {
    if |s| == 0 then ""
    else if IsSpace(s[0]) then [c] + CollapseSpaces(TrimStart(s), c)
    else
      var rest := CollapseSpaces(s[1..], c);
      assert !HasSpace(s) ==> !HasSpace(s[1..]) by {
        if HasSpace(s[1..]) {
          var i :| 0 <= i < |s[1..]| && IsSpace(s[1..][i]);
          assert IsSpace(s[i + 1]);
        }
      }
      [s[0]] + rest
  }

  /** A run of white space is skipped by `TrimStart` up to the first other
      character. */
  lemma {:induction false} TrimStartBrancos(w: string, b: string)
    requires forall k :: 0 <= k < |w| ==> IsSpace(w[k])
    requires b == "" || !IsSpace(b[0])
    ensures TrimStart(w + b) == b
  {
    if |w| > 0 {
      assert (w + b)[0] == w[0];
      assert (w + b)[1..] == w[1..] + b;
      TrimStartBrancos(w[1..], b);
    } else {
      assert w + b == b;
    }
  }

  /** Characters other than white space are kept and a whole run of white
      space becomes one `c`: `a + w + b` with `a` free of white space, `w` a
      non-empty run and `b` not starting with white space. */
  lemma CollapseSpacesRun(a: string, w: string, b: string, c: char)
    requires !IsSpace(c) && !HasSpace(a)
    requires |w| > 0 && forall k :: 0 <= k < |w| ==> IsSpace(w[k])
    requires b == "" || !IsSpace(b[0])
    ensures CollapseSpaces(a + w + b, c) == a + [c] + CollapseSpaces(b, c)
  {
    assert a + w + b == a + (w + b);
    CollapseSpacesPrefixo(a, w + b, c);
    CollapseSpacesLeading(w, b, c);
    assert a + ([c] + CollapseSpaces(b, c)) == a + [c] + CollapseSpaces(b, c);
  }

  /** A prefix free of white space is kept as it is. */
  lemma {:induction false} CollapseSpacesPrefixo(a: string, t: string, c: char)
    requires !IsSpace(c) && !HasSpace(a)
    ensures CollapseSpaces(a + t, c) == a + CollapseSpaces(t, c)
    decreases |a|
  {
    if |a| == 0 {
      assert a + t == t;
    } else {
      PrefixoPasso(a, t, c);
      CollapseSpacesPrefixo(a[1..], t, c);
      CabecaJunta(a, CollapseSpaces(t, c));
    }
  }

  lemma PrefixoPasso(a: string, t: string, c: char)
    requires !IsSpace(c) && |a| > 0 && !HasSpace(a)
    ensures !HasSpace(a[1..])
    ensures CollapseSpaces(a + t, c) == [a[0]] + CollapseSpaces(a[1..] + t, c)
  {
    var s := a + t;
    assert s[0] == a[0] && s[1..] == a[1..] + t;
    forall i | 0 <= i < |a| - 1 ensures !IsSpace(a[1..][i]) {
      assert a[1..][i] == a[i + 1];
    }
    CollapseSpacesPasso(s, c);
  }

  lemma CabecaJunta<T>(a: seq<T>, y: seq<T>)
    requires |a| > 0
    ensures [a[0]] + (a[1..] + y) == a + y
  {
    assert a == [a[0]] + a[1..];
  }

  /** A first character other than white space is kept. */
  lemma CollapseSpacesPasso(s: string, c: char)
    requires !IsSpace(c) && |s| > 0 && !IsSpace(s[0])
    ensures CollapseSpaces(s, c) == [s[0]] + CollapseSpaces(s[1..], c)
  {
  }

  lemma CollapseSpacesLeading(w: string, b: string, c: char)
    requires !IsSpace(c)
    requires |w| > 0 && forall k :: 0 <= k < |w| ==> IsSpace(w[k])
    requires b == "" || !IsSpace(b[0])
    ensures CollapseSpaces(w + b, c) == [c] + CollapseSpaces(b, c)
  {
    assert (w + b)[0] == w[0];
    TrimStartBrancos(w, b);
  }

  /** Words joined by single spaces come out joined by `c`. */
  lemma {:induction false} CollapseSpacesWords(ws: seq<string>, c: char)
    requires !IsSpace(c)
    requires forall i :: 0 <= i < |ws| ==> ws[i] != "" && !HasSpace(ws[i])
    ensures CollapseSpaces(Join(ws, " "), c) == Join(ws, [c])
  {
    if |ws| == 1 {
    } else if |ws| > 1 {
      var tail := Join(ws[1..], " ");
      CollapseSpacesWords(ws[1..], c);
      JoinInicio(ws[1..], " ");
      assert " "[0] == ' ';
      CollapseSpacesRun(ws[0], " ", tail, c);
      assert Join(ws, " ") == ws[0] + " " + tail;
      assert Join(ws, [c]) == ws[0] + [c] + Join(ws[1..], [c]);
    }
  }

  /** A join of non-empty parts starts as its first part does. */
  lemma JoinInicio(parts: seq<string>, sep: string)
    requires |parts| > 0 && parts[0] != ""
    ensures Join(parts, sep) != "" && Join(parts, sep)[0] == parts[0][0]
  {
  }

  /** A join ends with the last character of its last part. */
  lemma {:induction false} JoinFim(parts: seq<string>, sep: string)
    requires |parts| > 0 && parts[|parts| - 1] != ""
    ensures var j := Join(parts, sep); var u := parts[|parts| - 1];
      j != "" && j[|j| - 1] == u[|u| - 1]
  {
    if |parts| > 1 {
      JoinFim(parts[1..], sep);
      assert parts[1..][|parts| - 2] == parts[|parts| - 1];
    }
  }

  // ---------------------------------------------------------------------------
  // split / join

  /** The pieces of `s` between the leftmost non-overlapping occurrences of
      `sep`, as `String.prototype.split` with a non-empty separator; `cur` is
      the piece being built. */
  function SplitFrom(s: string, sep: string, cur: string): (r: seq<string>)
    requires |sep| > 0
    ensures |r| > 0
    decreases |s|
  {
    if |s| < |sep| then [cur + s]
    else if s[..|sep|] == sep then [cur] + SplitFrom(s[|sep|..], sep, "")
    else SplitFrom(s[1..], sep, cur + [s[0]])
  }

  function Split(s: string, sep: string): (r: seq<string>)
    requires |sep| > 0
    ensures |r| > 0
  {
    SplitFrom(s, sep, "")
  }

  function Join(parts: seq<string>, sep: string): (r: string)
    ensures |parts| == 1 ==> r == parts[0]
    ensures |parts| == 0 ==> r == ""
  {
    if |parts| == 0 then ""
    else if |parts| == 1 then parts[0]
    else parts[0] + sep + Join(parts[1..], sep)
  }

  lemma {:induction false} SplitFromPlain(x: string, rest: string, sep: string, cur: string)
    requires |sep| > 0 && sep[0] !in x
    ensures SplitFrom(x + rest, sep, cur) == SplitFrom(rest, sep, cur + x)
    decreases |x|
  {
    if |x| > 0 {
      var s := x + rest;
      assert s[0] == x[0];
      assert s[1..] == x[1..] + rest;
      SplitFromPlain(x[1..], rest, sep, cur + [x[0]]);
      assert cur + [x[0]] + x[1..] == cur + x;
      if |s| >= |sep| {
        assert s[..|sep|][0] == x[0];
        assert SplitFrom(s, sep, cur) == SplitFrom(s[1..], sep, cur + [s[0]]);
      } else {
        assert cur + [x[0]] + (x[1..] + rest) == cur + s;
      }
    } else {
      assert x + rest == rest;
      assert cur + x == cur;
    }
  }

  /** Splitting a joined list on a separator whose first character none of
      the parts contains gives the parts back. */
  lemma {:induction false} SplitJoin(parts: seq<string>, sep: string)
    requires |parts| > 0 && |sep| > 0
    requires forall i :: 0 <= i < |parts| ==> sep[0] !in parts[i]
    ensures Split(Join(parts, sep), sep) == parts
  {
    if |parts| == 1 {
      SplitFromPlain(parts[0], "", sep, "");
      assert parts[0] + "" == parts[0];
      assert "" + parts[0] == parts[0];
    } else {
      var tail := Join(parts[1..], sep);
      var s := parts[0] + sep + tail;
      assert Join(parts, sep) == s;
      assert s == parts[0] + (sep + tail);
      SplitFromPlain(parts[0], sep + tail, sep, "");
      assert "" + parts[0] == parts[0];
      assert (sep + tail)[..|sep|] == sep;
      assert (sep + tail)[|sep|..] == tail;
      SplitJoin(parts[1..], sep);
    }
  }

  /** A character in neither the parts nor the separator is not in the joined
      string. */
  lemma {:induction false} JoinSemCaractere(parts: seq<string>, sep: string, c: char)
    requires c !in sep && forall i :: 0 <= i < |parts| ==> c !in parts[i]
    ensures c !in Join(parts, sep)
  {
    if |parts| > 1 {
      JoinSemCaractere(parts[1..], sep, c);
      assert Join(parts, sep) == parts[0] + sep + Join(parts[1..], sep);
    }
  }

  /** `s` has no `", "` in it. */
  predicate SemVirgulaEspaco(s: string) {
    forall i :: 0 <= i < |s| - 1 ==> !(s[i] == ',' && s[i + 1] == ' ')
  }

  /** The pieces `Split(_, ", ")` makes have no `", "` in them; `cur` may end
      in a comma only when `s` does not go on with a space. */
  lemma {:induction false} SplitFromSemSeparador(s: string, cur: string)
    requires SemVirgulaEspaco(cur)
    requires |cur| > 0 && cur[|cur| - 1] == ',' ==> s == "" || s[0] != ' '
    ensures forall p :: p in SplitFrom(s, ", ", cur) ==> SemVirgulaEspaco(p)
    decreases |s|
  {
    var sep := ", ";
    if |s| < |sep| {
      var p := cur + s;
      forall i | 0 <= i < |p| - 1 ensures !(p[i] == ',' && p[i + 1] == ' ') {
        if i + 1 < |cur| {
          assert p[i] == cur[i] && p[i + 1] == cur[i + 1];
        } else {
          assert p[i] == cur[|cur| - 1] && p[i + 1] == s[0];
        }
      }
    } else if s[..|sep|] == sep {
      SplitFromSemSeparador(s[|sep|..], "");
    } else {
      var cur' := cur + [s[0]];
      assert !(s[0] == ',' && s[1] == ' ') by {
        assert s[..|sep|][0] == s[0] && s[..|sep|][1] == s[1];
      }
      forall i | 0 <= i < |cur'| - 1 ensures !(cur'[i] == ',' && cur'[i + 1] == ' ') {
        if i + 1 < |cur| {
          assert cur'[i] == cur[i] && cur'[i + 1] == cur[i + 1];
        }
      }
      SplitFromSemSeparador(s[1..], cur');
    }
  }

  /** Every piece of `Split(s, ", ")` is free of `", "`. */
  lemma SplitSemSeparador(s: string)
    ensures forall p :: p in Split(s, ", ") ==> SemVirgulaEspaco(p)
  {
    SplitFromSemSeparador(s, "");
  }

  /** A part free of `", "` is read whole, when what follows it does not
      make a `", "` with its last character. */
  lemma {:induction false} SplitFromParte(x: string, rest: string, cur: string)
    requires SemVirgulaEspaco(x)
    requires |x| > 0 && x[|x| - 1] == ',' ==> rest == "" || rest[0] != ' '
    ensures SplitFrom(x + rest, ", ", cur) == SplitFrom(rest, ", ", cur + x)
    decreases |x|
  {
    var sep := ", ";
    if |x| > 0 {
      var s := x + rest;
      assert s[0] == x[0];
      assert s[1..] == x[1..] + rest;
      assert SemVirgulaEspaco(x[1..]) by {
        forall i | 0 <= i < |x[1..]| - 1 ensures !(x[1..][i] == ',' && x[1..][i + 1] == ' ') {
          assert x[1..][i] == x[i + 1] && x[1..][i + 1] == x[i + 2];
        }
      }
      SplitFromParte(x[1..], rest, cur + [x[0]]);
      assert cur + [x[0]] + x[1..] == cur + x;
      if |s| >= |sep| {
        assert s[..|sep|] != sep by {
          assert s[..|sep|][0] == x[0] && s[..|sep|][1] == s[1];
          if |x| > 1 { assert s[1] == x[1]; } else { assert s[1] == rest[0]; }
        }
        assert SplitFrom(s, sep, cur) == SplitFrom(s[1..], sep, cur + [s[0]]);
      } else {
        assert cur + [x[0]] + (x[1..] + rest) == cur + s;
      }
    } else {
      assert x + rest == rest;
      assert cur + x == cur;
    }
  }

  /** Splitting a `", "`-joined list of parts free of `", "` on `", "` gives
      the parts back. */
  lemma {:induction false} SplitJoinVirgula(parts: seq<string>)
    requires |parts| > 0
    requires forall i :: 0 <= i < |parts| ==> SemVirgulaEspaco(parts[i])
    ensures Split(Join(parts, ", "), ", ") == parts
  {
    var sep := ", ";
    if |parts| == 1 {
      SplitFromParte(parts[0], "", "");
      assert parts[0] + "" == parts[0];
      assert "" + parts[0] == parts[0];
    } else {
      var tail := Join(parts[1..], sep);
      var s := parts[0] + sep + tail;
      assert Join(parts, sep) == s;
      assert s == parts[0] + (sep + tail);
      SplitFromParte(parts[0], sep + tail, "");
      assert "" + parts[0] == parts[0];
      assert (sep + tail)[..|sep|] == sep;
      assert (sep + tail)[|sep|..] == tail;
      SplitJoinVirgula(parts[1..]);
    }
  }

  /** `Array.from(new Set(xs))`: first occurrences, in order. */
  function Dedup(xs: seq<string>): (r: seq<string>)
    ensures forall x :: x in r <==> x in xs
    ensures forall i, j :: 0 <= i < j < |r| ==> r[i] != r[j]
    ensures |r| <= |xs|
    ensures |xs| > 0 ==> |r| > 0 && r[0] == xs[0]
  {
    DedupInto([], xs)
  }

  /** Appends to `seen` the elements of `xs` not met before, in order. */
  function DedupInto(seen: seq<string>, xs: seq<string>): (r: seq<string>)
    requires forall i, j :: 0 <= i < j < |seen| ==> seen[i] != seen[j]
    ensures forall x :: x in r <==> x in seen || x in xs
    ensures forall i, j :: 0 <= i < j < |r| ==> r[i] != r[j]
    ensures |seen| <= |r| <= |seen| + |xs| && r[..|seen|] == seen
    decreases |xs|
  {
    if |xs| == 0 then seen
    else if xs[0] in seen then DedupInto(seen, xs[1..])
    else DedupInto(seen + [xs[0]], xs[1..])
  }

  /** Elements already seen add nothing. */
  lemma {:induction false} DedupIntoJaVistos(seen: seq<string>, xs: seq<string>, x: string)
    requires forall i, j :: 0 <= i < j < |seen| ==> seen[i] != seen[j]
    requires x in seen && forall i :: 0 <= i < |xs| ==> xs[i] == x
    ensures DedupInto(seen, xs) == seen
    decreases |xs|
  {
    if |xs| > 0 {
      DedupIntoJaVistos(seen, xs[1..], x);
    }
  }

  /** A list of copies of one value keeps one. */
  lemma DedupRepetidos(xs: seq<string>, x: string)
    requires |xs| > 0 && forall i :: 0 <= i < |xs| ==> xs[i] == x
    ensures Dedup(xs) == [x]
  {
    assert xs[0] !in [] && [] + [xs[0]] == [x];
    DedupIntoJaVistos([x], xs[1..], x);
  }

  /** The position of the first occurrence of `x` in `xs`. */
  function PrimeiroIndice(xs: seq<string>, x: string): (i: nat)
    requires x in xs
    ensures i < |xs| && xs[i] == x
    ensures forall k :: 0 <= k < i ==> xs[k] != x
  {
    if xs[0] == x then 0 else 1 + PrimeiroIndice(xs[1..], x)
  }

  /** Past a different head, the first occurrence is one further on. */
  lemma PrimeiroIndiceCauda(xs: seq<string>, x: string)
    requires x in xs && xs[0] != x
    ensures x in xs[1..] && PrimeiroIndice(xs, x) == 1 + PrimeiroIndice(xs[1..], x)
  {
  }

  /** The elements `DedupInto` appends come in the order of their first
      occurrences in `xs`. */
  lemma {:induction false} DedupIntoOrdem(seen: seq<string>, xs: seq<string>, i: nat, j: nat)
    requires forall i, j :: 0 <= i < j < |seen| ==> seen[i] != seen[j]
    requires |seen| <= i < j < |DedupInto(seen, xs)|
    ensures var r := DedupInto(seen, xs);
      r[i] in xs && r[j] in xs && PrimeiroIndice(xs, r[i]) < PrimeiroIndice(xs, r[j])
    decreases |xs|
  {
    var r := DedupInto(seen, xs);
    DedupIntoNovo(seen, xs, i);
    DedupIntoNovo(seen, xs, j);
    if xs[0] in seen {
      DedupIntoOrdem(seen, xs[1..], i, j);
      PrimeiroIndiceCauda(xs, r[i]);
      PrimeiroIndiceCauda(xs, r[j]);
    } else {
      var seen' := seen + [xs[0]];
      assert r == DedupInto(seen', xs[1..]);
      assert r[|seen|] == seen'[|seen|] == xs[0];
      if i > |seen| {
        DedupIntoOrdem(seen', xs[1..], i, j);
        PrimeiroIndiceCauda(xs, r[i]);
        PrimeiroIndiceCauda(xs, r[j]);
      }
    }
  }

  /** What `DedupInto` appends is new and comes from `xs`. */
  lemma DedupIntoNovo(seen: seq<string>, xs: seq<string>, i: nat)
    requires forall i, j :: 0 <= i < j < |seen| ==> seen[i] != seen[j]
    requires |seen| <= i < |DedupInto(seen, xs)|
    ensures DedupInto(seen, xs)[i] !in seen && DedupInto(seen, xs)[i] in xs
  {
  }

  /** `Dedup` lists the values in the order of their first occurrences. */
  lemma DedupOrdem(xs: seq<string>)
    ensures var r := Dedup(xs);
      forall i, j :: 0 <= i < j < |r| ==>
        r[i] in xs && r[j] in xs && PrimeiroIndice(xs, r[i]) < PrimeiroIndice(xs, r[j])
  {
    var r := Dedup(xs);
    forall i, j | 0 <= i < j < |r|
      ensures r[i] in xs && r[j] in xs && PrimeiroIndice(xs, r[i]) < PrimeiroIndice(xs, r[j])
    {
      DedupIntoOrdem([], xs, i, j);
    }
  }

  // ---------------------------------------------------------------------------
  // padding and order

  /** `s.padStart(n, c)`. */
  function PadStart(s: string, n: nat, c: char): (r: string)
    ensures |r| == if |s| >= n then |s| else n
    ensures r[|r| - |s|..] == s
    ensures forall i :: 0 <= i < |r| - |s| ==> r[i] == c
  {
    if |s| >= n then s else seq(n - |s|, _ => c) + s
  }

  /** `s.padEnd(n, c)`. */
  function PadEnd(s: string, n: nat, c: char): (r: string)
    ensures |r| == if |s| >= n then |s| else n
    ensures r[..|s|] == s
    ensures forall i :: |s| <= i < |r| ==> r[i] == c
  {
    if |s| >= n then s else s + seq(n - |s|, _ => c)
  }

  /** JavaScript `<` on strings: code-unit lexicographic order. */
  predicate Less(a: string, b: string)
    decreases |a|
  {
    if |a| == 0 then |b| > 0
    else if |b| == 0 then false
    else if a[0] != b[0] then a[0] < b[0]
    else Less(a[1..], b[1..])
  }

  predicate LessEq(a: string, b: string) { a == b || Less(a, b) }

  lemma {:induction false} LessIrreflexive(a: string)
    ensures !Less(a, a)
    decreases |a|
  {
    if |a| > 0 { LessIrreflexive(a[1..]); }
  }

  lemma {:induction false} LessTrichotomy(a: string, b: string)
    ensures Less(a, b) || a == b || Less(b, a)
    ensures !(Less(a, b) && Less(b, a))
    decreases |a|
  {
    if |a| > 0 && |b| > 0 && a[0] == b[0] {
      LessTrichotomy(a[1..], b[1..]);
      if a[1..] == b[1..] {
        assert a == [a[0]] + a[1..] && b == [b[0]] + b[1..];
      }
    }
  }

  lemma {:induction false} LessTransitive(a: string, b: string, c: string)
    requires Less(a, b) && Less(b, c)
    ensures Less(a, c)
    decreases |a|
  {
    if |a| > 0 && a[0] == b[0] && b[0] == c[0] {
      LessTransitive(a[1..], b[1..], c[1..]);
    }
  }

  // ---------------------------------------------------------------------------
  // numbers

  function DigitChar(d: nat): (c: char)
    requires d < 10
    ensures IsDigit(c) && c as int - '0' as int == d
  {
    ('0' as int + d) as char
  }

  /** `String(n)` for a non-negative integer: no leading zeros. */
  function NatToString(n: nat): (r: string)
    ensures |r| > 0
    ensures forall i :: 0 <= i < |r| ==> IsDigit(r[i])
    ensures r[0] == '0' ==> n == 0 && r == "0"
    decreases n
  {
    if n < 10 then [DigitChar(n)] else NatToString(n / 10) + [DigitChar(n % 10)]
  }

  /** `String(i)` for any integer. */
  function IntToString(i: int): (r: string)
    ensures |r| > 0
    ensures i >= 0 ==> r == NatToString(i)
    ensures i < 0 ==> r == "-" + NatToString(-i)
  {
    if i >= 0 then NatToString(i) else "-" + NatToString(-i)
  }

  predicate AllDigits(s: string) { forall i :: 0 <= i < |s| ==> IsDigit(s[i]) }

  /** The decimal value of a digit string, as `parseInt(s, 10)` reads it. */
  function DigitsValue(s: string): (v: nat)
    requires AllDigits(s)
    ensures |s| > 0 ==> v == 10 * DigitsValue(s[..|s| - 1]) + (s[|s| - 1] as int - '0' as int)
  {
    if |s| == 0 then 0 else 10 * DigitsValue(s[..|s| - 1]) + (s[|s| - 1] as int - '0' as int)
  }

  /** Reading back the rendering of a number gives the number. */
  lemma {:induction false} DigitsValueOfNatToString(n: nat)
    ensures DigitsValue(NatToString(n)) == n
    decreases n
  {
    if n >= 10 {
      var s := NatToString(n);
      assert s[..|s| - 1] == NatToString(n / 10);
      DigitsValueOfNatToString(n / 10);
    }
  }

  /** Only a negative number is rendered with a leading `-`. */
  lemma SinalIntToString(i: int)
    ensures IntToString(i)[0] == '-' <==> i < 0
  {
    if i >= 0 {
      assert IsDigit(NatToString(i)[0]);
    }
  }

  /** Different integers render differently. */
  lemma IntToStringInjetiva(i: int, j: int)
    requires IntToString(i) == IntToString(j)
    ensures i == j
  {
    SinalIntToString(i);
    SinalIntToString(j);
    if i >= 0 {
      NatToStringInjetiva(i, j);
    } else {
      var s := IntToString(i);
      assert s[1..] == NatToString(-i);
      assert s[1..] == NatToString(-j);
      NatToStringInjetiva(-i, -j);
    }
  }

  lemma NatToStringInjetiva(m: nat, n: nat)
    requires NatToString(m) == NatToString(n)
    ensures m == n
  {
    DigitsValueOfNatToString(m);
    DigitsValueOfNatToString(n);
  }

  /** The longest prefix of `s` made of decimal digits (`/^\d+/`, or empty). */
  function LeadingDigits(s: string): (r: string)
    ensures |r| <= |s| && AllDigits(r) && r == s[..|r|]
    ensures |r| < |s| ==> !IsDigit(s[|r|])
  {
    if |s| > 0 && IsDigit(s[0]) then [s[0]] + LeadingDigits(s[1..]) else ""
  }
}
