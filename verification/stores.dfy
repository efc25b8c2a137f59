/** The two keyed stores of the preview (frontend/src/pages/Relatorios.jsx,
    lines 503-533): the "entered in the second system" check marks, one per
    production record, and the manual adjustments of the productivity rows,
    one small record of text fields per row key. Both start empty; their
    persistence in the browser is not part of this model. */
module Armazenamento {
  import opened Base
  import opened Text
  import opened Records

  // ---------------------------------------------------------------------------
  // Overrides

  /** A store of adjustments: row key to field name to the text typed. */
  type Ajustes = map<string, map<string, string>>

  /** `overrides[key] || {}`. */
  function LerOverride(m: Ajustes, key: string): (r: map<string, string>)
    ensures key !in m ==> r == map[]
    ensures key in m ==> r == m[key]
  {
    if key in m then m[key] else map[]
  }

  /** `{ ...overrides, [key]: { ...(overrides[key] || {}), [field]: val } }`:
      the field written reads back the value written, the other fields of the
      same key and the other keys keep what they had, and no field appears
      besides the one written. */
  function ComOverride(m: Ajustes, key: string, field: string, val: string): (r: Ajustes)
    ensures r.Keys == m.Keys + {key}
    ensures var o := LerOverride(r, key);
      field in o && o[field] == val && o.Keys == LerOverride(m, key).Keys + {field}
    ensures forall g :: g != field && g in LerOverride(m, key) ==> LerOverride(r, key)[g] == LerOverride(m, key)[g]
    ensures forall k :: k != key ==> LerOverride(r, k) == LerOverride(m, k)
  {
    m[key := LerOverride(m, key)[field := val]]
  }

  /** Writing the same field twice keeps the last value only. */
  lemma OverrideUltimoVale(m: Ajustes, key: string, field: string, v1: string, v2: string)
    ensures ComOverride(ComOverride(m, key, field, v1), key, field, v2) == ComOverride(m, key, field, v2)
  {
    var a := ComOverride(ComOverride(m, key, field, v1), key, field, v2);
    var b := ComOverride(m, key, field, v2);
    assert a[key] == b[key];
  }

  /** The state `overrides` with its updater `setOverride`. */
  class Sobreposicoes {
    var mapa: Ajustes

    /** `useState(readOverrides())` with nothing stored: `{}`. */
    constructor ()
      ensures mapa == map[]
    {
      mapa := map[];
    }

    /** `overrides[key] || {}`, as the productivity rows read it (line 831). */
    function Ler(key: string): (r: map<string, string>)
      reads this
      ensures key !in mapa ==> r == map[]
    {
      LerOverride(mapa, key)
    }

    /** `setOverride(key, field, val)`. */
    method SetOverride(key: string, field: string, val: string)
      modifies this
      ensures mapa == ComOverride(old(mapa), key, field, val)
      ensures field in Ler(key) && Ler(key)[field] == val
      ensures forall k :: k != key ==> Ler(k) == old(Ler(k))
    {
      mapa := ComOverride(mapa, key, field, val);
    }
  }

  // ---------------------------------------------------------------------------
  // Flags

  /** `rowId(a)`: start, operator, machine, profile code and quantity joined
      with `__`, each missing value as "" (a zero quantity is falsy too). */
  function RowId(a: Apontamento): (r: string)
    ensures a.inicio.None? && a.operador == "" && a.maquina == "" && a.codigoPerfil == "" && a.quantidade == 0
      ==> r == "________"
  {
    var ini := if a.inicio.Some? then a.inicio.value.raw else "";
    var q := if a.quantidade != 0 then IntToString(a.quantidade) else "";
    ini + "__" + a.operador + "__" + a.maquina + "__" + a.codigoPerfil + "__" + q
  }

  /** The five values the key is made of, the start as its raw text. */
  function CamposDoId(a: Apontamento): (string, string, string, string, int) {
    (if a.inicio.Some? then a.inicio.value.raw else "", a.operador, a.maquina, a.codigoPerfil, a.quantidade)
  }

  /** Records that agree on the five values share their check mark. */
  lemma RowIdMesmosCampos(a: Apontamento, b: Apontamento)
    requires CamposDoId(a) == CamposDoId(b)
    ensures RowId(a) == RowId(b)
  {
  }

  /** When none of the four text values holds a `_`, the key tells the five
      values apart: records with different values have different marks. */
  lemma RowIdSepara(a: Apontamento, b: Apontamento)
    requires forall k :: 0 <= k < 4 ==> '_' !in CampoTexto(a, k) && '_' !in CampoTexto(b, k)
    requires RowId(a) == RowId(b)
    ensures CamposDoId(a) == CamposDoId(b)
  {
    var (ia, oa, ma, pa, qa) := CamposDoId(a);
    var (ib, ob, mb, pb, qb) := CamposDoId(b);
    assert '_' !in ia && '_' !in ib && '_' !in oa && '_' !in ob by {
      assert CampoTexto(a, 0) == ia && CampoTexto(b, 0) == ib;
      assert CampoTexto(a, 1) == oa && CampoTexto(b, 1) == ob;
    }
    assert '_' !in ma && '_' !in mb && '_' !in pa && '_' !in pb by {
      assert CampoTexto(a, 2) == ma && CampoTexto(b, 2) == mb;
      assert CampoTexto(a, 3) == pa && CampoTexto(b, 3) == pb;
    }
    var sa := if qa != 0 then IntToString(qa) else "";
    var sb := if qb != 0 then IntToString(qb) else "";
    RowIdForma(a);
    RowIdForma(b);
    SeparaQuatro(ia, oa, ma, pa, sa, ib, ob, mb, pb, sb);
    if qa != 0 && qb != 0 {
      IntToStringInjetiva(qa, qb);
    }
  }

  /** The key, nested to the right. */
  lemma RowIdForma(a: Apontamento)
    ensures var (i, o, m, p, q) := CamposDoId(a);
      RowId(a) == i + "__" + (o + "__" + (m + "__" + (p + "__" + (if q != 0 then IntToString(q) else ""))))
  {
    var (i, o, m, p, q) := CamposDoId(a);
    var sq := if q != 0 then IntToString(q) else "";
    var sep := "__";
    assert RowId(a) == i + sep + o + sep + m + sep + p + sep + sq;
    Associa(i + sep, o + sep, m + sep, p + sep, sq);
  }

  lemma Associa(w: string, x: string, y: string, z: string, t: string)
    ensures w + x + y + z + t == w + (x + (y + (z + t)))
  {
  }

  /** Four texts without `_` and a tail, each joined by `__`, are told apart. */
  lemma SeparaQuatro(ia: string, oa: string, ma: string, pa: string, sa: string,
                     ib: string, ob: string, mb: string, pb: string, sb: string)
    requires '_' !in ia && '_' !in oa && '_' !in ma && '_' !in pa
    requires '_' !in ib && '_' !in ob && '_' !in mb && '_' !in pb
    requires ia + "__" + (oa + "__" + (ma + "__" + (pa + "__" + sa))) ==
             ib + "__" + (ob + "__" + (mb + "__" + (pb + "__" + sb)))
    ensures ia == ib && oa == ob && ma == mb && pa == pb && sa == sb
  {
    AntesDoSeparador(ia, ib, oa + "__" + (ma + "__" + (pa + "__" + sa)), ob + "__" + (mb + "__" + (pb + "__" + sb)));
    AntesDoSeparador(oa, ob, ma + "__" + (pa + "__" + sa), mb + "__" + (pb + "__" + sb));
    AntesDoSeparador(ma, mb, pa + "__" + sa, pb + "__" + sb);
    AntesDoSeparador(pa, pb, sa, sb);
  }

  /** The text values of the key, by position. */
  function CampoTexto(a: Apontamento, k: nat): string
    requires k < 4
  {
    var c := CamposDoId(a);
    if k == 0 then c.0 else if k == 1 then c.1 else if k == 2 then c.2 else c.3
  }

  /** Text without `_` ends where the first `__` begins. */
  lemma AntesDoSeparador(x: string, y: string, u: string, v: string)
    requires '_' !in x && '_' !in y
    requires x + "__" + u == y + "__" + v
    ensures x == y && u == v
  {
    var l := x + "__" + u;
    PrimeiroSublinhado(x, "__" + u, l);
    PrimeiroSublinhado(y, "__" + v, l);
    assert x == l[..|x|] == y;
    assert u == l[|x| + 2..] == v;
  }

  /** The first `_` of `x + r` is where `r` starts. */
  lemma PrimeiroSublinhado(x: string, r: string, l: string)
    requires '_' !in x && |r| > 0 && r[0] == '_' && l == x + r
    ensures forall k :: 0 <= k < |x| ==> l[k] != '_'
    ensures l[|x|] == '_'
  {
    forall k | 0 <= k < |x| ensures l[k] != '_' {
      assert l[k] == x[k];
    }
  }

  /** `!!flags[id]`: a missing entry reads as unchecked. */
  predicate Marcado(m: map<string, bool>, id: string) {
    id in m && m[id]
  }

  /** `{ ...flags, [id]: !flags[id] }`. */
  function Alternar(m: map<string, bool>, id: string): (r: map<string, bool>)
    ensures id in r && (Marcado(r, id) <==> !Marcado(m, id))
    ensures r.Keys == m.Keys + {id}
    ensures forall k :: k in m && k != id ==> r[k] == m[k]
  {
    m[id := !Marcado(m, id)]
  }

  /** Toggling twice restores whether the entry is checked, and leaves an
      entry that was already stored exactly as it was. */
  lemma AlternarDuasVezes(m: map<string, bool>, id: string)
    ensures Marcado(Alternar(Alternar(m, id), id), id) == Marcado(m, id)
    ensures id in m ==> Alternar(Alternar(m, id), id) == m
  {
    if id in m {
      var r := Alternar(Alternar(m, id), id);
      assert r.Keys == m.Keys;
      assert forall k :: k in m ==> r[k] == m[k];
    }
  }

  /** An entry never stored comes back from two toggles as an explicit
      `false`: the check mark is the same, the store is not. */
  lemma AlternarAusente(m: map<string, bool>, id: string)
    requires id !in m
    ensures Alternar(Alternar(m, id), id) == m[id := false]
    ensures Alternar(Alternar(m, id), id) != m
  {
    assert id in Alternar(Alternar(m, id), id);
  }

  /** The state `flags` with its updater `toggleFlag`. */
  class Marcacoes {
    var mapa: map<string, bool>

    /** `useState(readFlags())` with nothing stored: `{}`. */
    constructor ()
      ensures mapa == map[]
    {
      mapa := map[];
    }

    /** `!!flags[rowId(a)]`, the check box of line 579. */
    predicate Marcada(a: Apontamento)
      reads this
    {
      Marcado(mapa, RowId(a))
    }

    /** `toggleFlag(a)`. */
    method ToggleFlag(a: Apontamento)
      modifies this
      ensures mapa == Alternar(old(mapa), RowId(a))
      ensures Marcada(a) <==> !old(Marcada(a))
      ensures forall b :: RowId(b) != RowId(a) ==> (Marcada(b) <==> old(Marcada(b)))
    {
      mapa := Alternar(mapa, RowId(a));
    }
  }
}
