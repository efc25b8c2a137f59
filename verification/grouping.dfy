/** The accumulation every grouping report performs
    (frontend/src/pages/Relatorios.jsx, lines 196-251): walk the records,
    create a bucket `by[key]` with its labels and zero sums the first time a
    key is seen, add the record's quantities to it, and finally read the
    buckets back with `Object.values(by)` in first-seen order. A record's
    contribution and a bucket share one shape: a key, two labels and three
    sums. */
module Agrupamento {
  import opened Base

  /** A contribution (or a bucket): the key, the two label columns taken from
      the first record of the key, and three summed quantities. */
  datatype Parcela = Parcela(chave: string, a: string, b: string, qtd: int, m1: int, m2: int)

  /** Which of the three sums. */
  datatype Medida = Qtd | M1 | M2

  function Valor(p: Parcela, m: Medida): int {
    match m
    case Qtd => p.qtd
    case M1 => p.m1
    case M2 => p.m2
  }

  /** The sum of one quantity over a sequence. */
  function Soma(s: seq<Parcela>, m: Medida): int {
    if |s| == 0 then 0 else Soma(s[..|s| - 1], m) + Valor(s[|s| - 1], m)
  }

  /** The sum of one quantity over the contributions of key `k`. */
  function SomaDaChave(s: seq<Parcela>, k: string, m: Medida): int {
    if |s| == 0 then 0
    else SomaDaChave(s[..|s| - 1], k, m) + (if s[|s| - 1].chave == k then Valor(s[|s| - 1], m) else 0)
  }

  /** The first contribution of key `k`, if any. */
  function Primeira(s: seq<Parcela>, k: string): (r: Option<Parcela>)
    ensures r.Some? ==> r.value in s && r.value.chave == k
    ensures r.None? <==> forall i :: 0 <= i < |s| ==> s[i].chave != k
  {
    if |s| == 0 then None
    else
      var p := Primeira(s[..|s| - 1], k);
      assert forall i :: 0 <= i < |s| - 1 ==> s[..|s| - 1][i] == s[i];
      if p.Some? then p else if s[|s| - 1].chave == k then Some(s[|s| - 1]) else None
  }

  /** The state of the loop: the keys in first-seen order and the buckets. */
  datatype Tabela = Tabela(ordem: seq<string>, grupos: map<string, Parcela>)

  predicate Distintas(ks: seq<string>) {
    forall i, j :: 0 <= i < j < |ks| ==> ks[i] != ks[j]
  }

  /** The keys of `grupos` are exactly the keys listed, once each, and each
      bucket is filed under its own key. */
  predicate Valida(t: Tabela) {
    Distintas(t.ordem) &&
    (forall k :: k in t.grupos ==> k in t.ordem) &&
    (forall k :: k in t.ordem ==> k in t.grupos) &&
    (forall k :: k in t.grupos ==> t.grupos[k].chave == k)
  }

  /** A new bucket: the labels of the first record and zero sums. */
  function Vazia(c: Parcela): Parcela {
    Parcela(c.chave, c.a, c.b, 0, 0, 0)
  }

  /** `by[key].Producao += ...` and its siblings. */
  function Adicionar(g: Parcela, c: Parcela): Parcela {
    g.(qtd := g.qtd + c.qtd, m1 := g.m1 + c.m1, m2 := g.m2 + c.m2)
  }

  /** One iteration of the loop. */
  function Passo(t: Tabela, c: Parcela): Tabela {
    var t1 := if c.chave in t.grupos then t else Tabela(t.ordem + [c.chave], t.grupos[c.chave := Vazia(c)]);
    Tabela(t1.ordem, t1.grupos[c.chave := Adicionar(t1.grupos[c.chave], c)])
  }

  /** The loop run over all contributions. */
  function Acumular(cs: seq<Parcela>): (t: Tabela)
    ensures forall k :: k in t.ordem ==> k in t.grupos
  {
    if |cs| == 0 then Tabela([], map[]) else Passo(Acumular(cs[..|cs| - 1]), cs[|cs| - 1])
  }

  /** The loop keeps its state well-formed. */
  lemma {:induction false} AcumularValida(cs: seq<Parcela>)
    ensures Valida(Acumular(cs))
  {
    if |cs| > 0 {
      var t0 := Acumular(cs[..|cs| - 1]);
      AcumularValida(cs[..|cs| - 1]);
      var c := cs[|cs| - 1];
      var t := Acumular(cs);
      if c.chave !in t0.grupos {
        assert t.ordem == t0.ordem + [c.chave];
        assert forall k :: k in t.grupos ==> k in t.ordem by {
          forall k | k in t.grupos ensures k in t.ordem {
            if k != c.chave { assert k in t0.ordem; }
          }
        }
      }
    }
  }

  /** `Object.values(by)`, the buckets in the order of `ordem`. */
  function Valores(ordem: seq<string>, grupos: map<string, Parcela>): (r: seq<Parcela>)
    requires forall k :: k in ordem ==> k in grupos
    ensures |r| == |ordem|
  {
    if |ordem| == 0 then []
    else Valores(ordem[..|ordem| - 1], grupos) + [grupos[ordem[|ordem| - 1]]]
  }

  lemma {:induction false} ValoresIndice(ordem: seq<string>, grupos: map<string, Parcela>, i: int)
    requires forall k :: k in ordem ==> k in grupos
    requires 0 <= i < |ordem|
    ensures Valores(ordem, grupos)[i] == grupos[ordem[i]]
  {
    if i < |ordem| - 1 {
      ValoresIndice(ordem[..|ordem| - 1], grupos, i);
    }
  }

  /** The grouped result of a sequence of contributions. */
  function Agrupar(cs: seq<Parcela>): (r: seq<Parcela>)
    ensures |r| <= |cs|
  {
    var t := Acumular(cs);
    TamanhoOrdem(cs);
    Valores(t.ordem, t.grupos)
  }

  lemma {:induction false} TamanhoOrdem(cs: seq<Parcela>)
    ensures |Acumular(cs).ordem| <= |cs|
  {
    if |cs| > 0 {
      TamanhoOrdem(cs[..|cs| - 1]);
    }
  }

  /** The grouping loop of the reports (lines 198-206, 211-225, 230-236,
      241-249), over the contributions of the records in order. */
  method AgruparMetodo(cs: seq<Parcela>) returns (r: seq<Parcela>)
    ensures r == Agrupar(cs)
  {
    var grupos: map<string, Parcela> := map[];
    var ordem: seq<string> := [];
    var i := 0;
    while i < |cs|
      invariant 0 <= i <= |cs|
      invariant Tabela(ordem, grupos) == Acumular(cs[..i])
    {
      var c := cs[i];
      if c.chave !in grupos {
        grupos := grupos[c.chave := Vazia(c)];
        ordem := ordem + [c.chave];
      }
      var g := grupos[c.chave];
      grupos := grupos[c.chave := Adicionar(g, c)];
      assert cs[..i + 1][..i] == cs[..i];
      i := i + 1;
    }
    assert cs[..|cs|] == cs;
    r := Valores(ordem, grupos);
  }

  // ---------------------------------------------------------------------------
  // What the grouping promises

  /** One bucket per distinct key, each key of the input present. */
  lemma {:induction false} AgruparChaves(cs: seq<Parcela>)
    ensures var r := Agrupar(cs);
      (forall i, j :: 0 <= i < j < |r| ==> r[i].chave != r[j].chave) &&
      (forall i :: 0 <= i < |cs| ==> exists j :: 0 <= j < |r| && r[j].chave == cs[i].chave) &&
      (forall j :: 0 <= j < |r| ==> Primeira(cs, r[j].chave).Some?)
  {
    var t := Acumular(cs);
    var r := Agrupar(cs);
    ChavesDaTabela(cs);
    AcumularValida(cs);
    forall i, j | 0 <= i < j < |r| ensures r[i].chave != r[j].chave {
      ValoresIndice(t.ordem, t.grupos, i);
      ValoresIndice(t.ordem, t.grupos, j);
    }
    forall j | 0 <= j < |r| ensures Primeira(cs, r[j].chave).Some? {
      ValoresIndice(t.ordem, t.grupos, j);
    }
    forall i | 0 <= i < |cs| ensures exists j :: 0 <= j < |r| && r[j].chave == cs[i].chave {
      var k := cs[i].chave;
      assert k in t.ordem;
      var j :| 0 <= j < |t.ordem| && t.ordem[j] == k;
      ValoresIndice(t.ordem, t.grupos, j);
    }
  }

  /** A key has a bucket exactly when some contribution carries it. */
  lemma {:induction false} ChavesDaTabela(cs: seq<Parcela>)
    ensures forall k :: k in Acumular(cs).grupos <==> Primeira(cs, k).Some?
  {
    if |cs| > 0 {
      ChavesDaTabela(cs[..|cs| - 1]);
    }
  }

  /** Each bucket's sums are the sums of its key's contributions. */
  lemma {:induction false} BucketSoma(cs: seq<Parcela>, k: string, m: Medida)
    requires k in Acumular(cs).grupos
    ensures Valor(Acumular(cs).grupos[k], m) == SomaDaChave(cs, k, m)
  {
    var c := cs[|cs| - 1];
    var ini := cs[..|cs| - 1];
    var t0 := Acumular(ini);
    ChavesDaTabela(ini);
    if k in t0.grupos {
      BucketSoma(ini, k, m);
      if c.chave == k {
        assert Acumular(cs).grupos[k] == Adicionar(t0.grupos[k], c);
      } else {
        assert Acumular(cs).grupos[k] == t0.grupos[k];
      }
    } else {
      SomaDaChaveAusente(ini, k, m);
      assert c.chave == k;
      assert Acumular(cs).grupos[k] == Adicionar(Vazia(c), c);
    }
  }

  /** Every bucket carries the key and the labels of one of the contributions. */
  lemma AgruparRotulo(cs: seq<Parcela>, g: Parcela)
    requires g in Agrupar(cs)
    ensures exists p :: p in cs && p.chave == g.chave && p.a == g.a && p.b == g.b
  {
    var t := Acumular(cs);
    var j :| 0 <= j < |t.ordem| && Valores(t.ordem, t.grupos)[j] == g;
    ValoresIndice(t.ordem, t.grupos, j);
    AcumularValida(cs);
    BucketRotulos(cs, t.ordem[j]);
  }

  /** Each bucket's labels are those of its key's first contribution. */
  lemma {:induction false} BucketRotulos(cs: seq<Parcela>, k: string)
    requires k in Acumular(cs).grupos
    ensures Primeira(cs, k).Some?
    ensures Acumular(cs).grupos[k].a == Primeira(cs, k).value.a
    ensures Acumular(cs).grupos[k].b == Primeira(cs, k).value.b
  {
    var c := cs[|cs| - 1];
    var ini := cs[..|cs| - 1];
    var t0 := Acumular(ini);
    ChavesDaTabela(ini);
    if k in t0.grupos {
      BucketRotulos(ini, k);
    }
  }

  lemma {:induction false} SomaDaChaveAusente(s: seq<Parcela>, k: string, m: Medida)
    requires Primeira(s, k).None?
    ensures SomaDaChave(s, k, m) == 0
  {
    if |s| > 0 {
      assert forall i :: 0 <= i < |s| - 1 ==> s[..|s| - 1][i] == s[i];
      SomaDaChaveAusente(s[..|s| - 1], k, m);
    }
  }

  /** Grouping conserves each total: the buckets' sums add up to the
      contributions' sums. */
  lemma {:induction false} AgruparConserva(cs: seq<Parcela>, m: Medida)
    ensures Soma(Agrupar(cs), m) == Soma(cs, m)
  {
    if |cs| > 0 {
      var ini := cs[..|cs| - 1];
      var c := cs[|cs| - 1];
      var t0 := Acumular(ini);
      AgruparConserva(ini, m);
      AcumularValida(ini);
      PassoConserva(t0, c, m);
    }
  }

  /** One step of the loop adds the contribution to the total. */
  lemma PassoConserva(t0: Tabela, c: Parcela, m: Medida)
    requires Valida(t0)
    ensures var t := Passo(t0, c);
      (forall k :: k in t.ordem ==> k in t.grupos) &&
      Soma(Valores(t.ordem, t.grupos), m) == Soma(Valores(t0.ordem, t0.grupos), m) + Valor(c, m)
  {
    if c.chave in t0.grupos {
      PassoExistente(t0.ordem, t0.grupos, c, m);
    } else {
      PassoNovo(t0.ordem, t0.grupos, c, m);
    }
  }

  lemma PassoExistente(ordem: seq<string>, grupos: map<string, Parcela>, c: Parcela, m: Medida)
    requires Distintas(ordem) && c.chave in ordem && c.chave in grupos
    requires forall k :: k in ordem ==> k in grupos
    ensures var g := Adicionar(grupos[c.chave], c);
      Soma(Valores(ordem, grupos[c.chave := g]), m) == Soma(Valores(ordem, grupos), m) + Valor(c, m)
  {
    var g := Adicionar(grupos[c.chave], c);
    assert Valor(g, m) == Valor(grupos[c.chave], m) + Valor(c, m);
    TrocarUm(ordem, grupos, c.chave, g, m);
  }

  lemma PassoNovo(ordem: seq<string>, grupos: map<string, Parcela>, c: Parcela, m: Medida)
    requires Distintas(ordem) && c.chave !in ordem
    requires forall k :: k in ordem ==> k in grupos
    ensures var o1 := ordem + [c.chave];
      var by1 := grupos[c.chave := Vazia(c)];
      Soma(Valores(o1, by1[c.chave := Adicionar(Vazia(c), c)]), m) == Soma(Valores(ordem, grupos), m) + Valor(c, m)
  {
    var o1 := ordem + [c.chave];
    var g := Adicionar(Vazia(c), c);
    var by2 := grupos[c.chave := g];
    assert grupos[c.chave := Vazia(c)][c.chave := g] == by2;
    assert Valor(g, m) == Valor(c, m);
    Ignorar(ordem, grupos, c.chave, g);
    assert o1[..|o1| - 1] == ordem;
    var v := Valores(o1, by2);
    assert v == Valores(ordem, by2) + [g];
    assert v[..|v| - 1] == Valores(ordem, grupos);
  }

  /** Replacing one bucket changes the sum by the difference. */
  lemma {:induction false} TrocarUm(ordem: seq<string>, grupos: map<string, Parcela>, k: string, g: Parcela, m: Medida)
    requires Distintas(ordem) && k in ordem
    requires forall x :: x in ordem ==> x in grupos
    ensures Soma(Valores(ordem, grupos[k := g]), m) == Soma(Valores(ordem, grupos), m) - Valor(grupos[k], m) + Valor(g, m)
  {
    var ini := ordem[..|ordem| - 1];
    var u := ordem[|ordem| - 1];
    var g1 := grupos[k := g];
    var s1 := Valores(ordem, g1);
    var s0 := Valores(ordem, grupos);
    assert ordem == ini + [u];
    assert s1 == Valores(ini, g1) + [g1[u]];
    assert s0 == Valores(ini, grupos) + [grupos[u]];
    assert s1[..|s1| - 1] == Valores(ini, g1);
    assert s0[..|s0| - 1] == Valores(ini, grupos);
    assert Soma(s1, m) == Soma(Valores(ini, g1), m) + Valor(g1[u], m);
    assert Soma(s0, m) == Soma(Valores(ini, grupos), m) + Valor(grupos[u], m);
    if u == k {
      assert k !in ini;
      Ignorar(ini, grupos, k, g);
    } else {
      assert k in ini;
      TrocarUm(ini, grupos, k, g, m);
    }
  }

  /** Buckets of keys not listed do not show. */
  lemma {:induction false} Ignorar(ordem: seq<string>, grupos: map<string, Parcela>, k: string, g: Parcela)
    requires k !in ordem
    requires forall x :: x in ordem ==> x in grupos
    ensures Valores(ordem, grupos[k := g]) == Valores(ordem, grupos)
  {
    if |ordem| > 0 {
      Ignorar(ordem[..|ordem| - 1], grupos, k, g);
    }
  }
}
