/** The loosely-typed rows every report builds: an object literal is an
    ordered list of named cells, in the order its keys were first assigned
    (the order `Object.keys` reports for non-numeric keys). */
module Linhas {
  import opened Base
  import opened Text
  import opened Records

  datatype Campo = Campo(chave: string, valor: Cell)

  type Linha = seq<Campo>

  /** `Object.keys(r)`. */
  function Chaves(r: Linha): (ks: seq<string>)
    ensures |ks| == |r| && forall i :: 0 <= i < |r| ==> ks[i] == r[i].chave
  {
    if |r| == 0 then [] else [r[0].chave] + Chaves(r[1..])
  }

  predicate ChavesDistintas(r: Linha) {
    forall i, j :: 0 <= i < j < |r| ==> r[i].chave != r[j].chave
  }

  /** `r[k]`: the cell stored under `k`, `None` for a key the row lacks. */
  function Get(r: Linha, k: string): (c: Option<Cell>)
    ensures c.None? <==> k !in Chaves(r)
    ensures c.Some? ==> Campo(k, c.value) in r
  {
    if |r| == 0 then None
    else if r[0].chave == k then Some(r[0].valor)
    else
      Get(r[1..], k)
  }

  /** `r[k]` read as a value: a missing key reads as `undefined` (`Null`). */
  function Ler(r: Linha, k: string): (c: Cell)
    ensures k !in Chaves(r) ==> c == Null
  {
    Get(r, k).GetOr(Null)
  }

  /** The first field with a given key is the one `r[k]` reads. */
  lemma {:induction false} GetPrimeiro(r: Linha, i: int)
    requires 0 <= i < |r|
    requires forall j :: 0 <= j < i ==> r[j].chave != r[i].chave
    ensures Get(r, r[i].chave) == Some(r[i].valor)
  {
    if i > 0 {
      GetPrimeiro(r[1..], i - 1);
    }
  }

  /** An object literal: the keys `ks`, in order, holding the cells `vs`. */
  function Montar(ks: seq<string>, vs: seq<Cell>): (r: Linha)
    requires |ks| == |vs|
    ensures Chaves(r) == ks
    ensures |r| == |ks| && forall i :: 0 <= i < |r| ==> r[i] == Campo(ks[i], vs[i])
  {
    seq(|ks|, i requires 0 <= i < |ks| => Campo(ks[i], vs[i]))
  }

  /** `r[k] = v`: an existing key keeps its position, a new key goes last. */
  function Put(r: Linha, k: string, v: Cell): (r': Linha)
    ensures Get(r', k) == Some(v)
  {
    if |r| == 0 then [Campo(k, v)]
    else if r[0].chave == k then [Campo(k, v)] + r[1..]
    else
      var t := Put(r[1..], k, v);
      assert ([r[0]] + t)[1..] == t;
      [r[0]] + t
  }

  /** In an object literal, a key not repeated earlier reads its own cell. */
  lemma LerMontado(ks: seq<string>, vs: seq<Cell>, i: int)
    requires |ks| == |vs| && 0 <= i < |ks|
    requires forall j :: 0 <= j < i ==> ks[j] != ks[i]
    ensures Ler(Montar(ks, vs), ks[i]) == vs[i]
  {
    GetPrimeiro(Montar(ks, vs), i);
  }

  /** Assigning changes no other field's key, and adds a field only for a
      new key. */
  lemma {:induction false} PutForma(r: Linha, k: string, v: Cell)
    ensures |Put(r, k, v)| == if k in Chaves(r) then |r| else |r| + 1
    ensures forall i :: 0 <= i < |r| ==> Put(r, k, v)[i].chave == r[i].chave
    ensures k !in Chaves(r) ==> Put(r, k, v)[|r|].chave == k
  {
    if |r| > 0 && r[0].chave != k {
      var resto := r[1..];
      var t := Put(resto, k, v);
      PutForma(resto, k, v);
      assert Put(r, k, v) == [r[0]] + t;
      assert k in Chaves(r) <==> k in Chaves(resto) by {
        assert Chaves(r) == [r[0].chave] + Chaves(resto);
      }
      forall i | 0 < i < |r| ensures Put(r, k, v)[i].chave == r[i].chave {
        assert Put(r, k, v)[i] == t[i - 1] && r[i] == resto[i - 1];
      }
    }
  }

  /** Assigning an existing key keeps the keys; a new key is appended. */
  lemma PutChaves(r: Linha, k: string, v: Cell)
    ensures k in Chaves(r) ==> Chaves(Put(r, k, v)) == Chaves(r)
    ensures k !in Chaves(r) ==> Chaves(Put(r, k, v)) == Chaves(r) + [k]
  {
    PutForma(r, k, v);
    var c := Chaves(Put(r, k, v));
    var d := if k in Chaves(r) then Chaves(r) else Chaves(r) + [k];
    assert |c| == |d|;
    forall i | 0 <= i < |c| ensures c[i] == d[i] {
      if i < |r| {
        assert d[i] == r[i].chave;
      }
    }
    assert c == d;
  }

  /** Assigning `k` leaves every other key's cell as it was. */
  lemma {:induction false} PutOutras(r: Linha, k: string, v: Cell, k': string)
    requires k' != k
    ensures Get(Put(r, k, v), k') == Get(r, k')
  {
    if |r| > 0 && r[0].chave != k {
      PutOutras(r[1..], k, v, k');
      assert ([r[0]] + Put(r[1..], k, v))[1..] == Put(r[1..], k, v);
    }
  }

  /** Assigning keeps the keys of a row distinct. */
  lemma PutDistintas(r: Linha, k: string, v: Cell)
    requires ChavesDistintas(r)
    ensures ChavesDistintas(Put(r, k, v))
  {
    var r' := Put(r, k, v);
    PutChaves(r, k, v);
    forall i, j | 0 <= i < j < |r'| ensures r'[i].chave != r'[j].chave {
      assert Chaves(r')[i] == r'[i].chave && Chaves(r')[j] == r'[j].chave;
      if k !in Chaves(r) {
        if j == |r| {
          assert Chaves(r')[i] == Chaves(r)[i];
        } else {
          assert Chaves(r')[i] == Chaves(r)[i] && Chaves(r')[j] == Chaves(r)[j];
        }
      } else {
        assert Chaves(r')[i] == Chaves(r)[i] && Chaves(r')[j] == Chaves(r)[j];
      }
    }
  }

  /** JavaScript truthiness of a cell. */
  predicate Verdadeiro(c: Cell) {
    match c
    case Null => false
    case Str(s) => s != ""
    case Num(n) => n != 0
  }

  /** `String(v)` of a present cell; `Null` renders as "". */
  function Texto(c: Cell): string {
    match c
    case Null => ""
    case Str(s) => s
    case Num(n) => IntToString(n)
  }

  /** `v ? String(v) : ''`. */
  function TextoSeVerdadeiro(c: Cell): (s: string)
    ensures !Verdadeiro(c) ==> s == ""
    ensures Verdadeiro(c) ==> s == Texto(c) && s != ""
  {
    if Verdadeiro(c) then Texto(c) else ""
  }
}
