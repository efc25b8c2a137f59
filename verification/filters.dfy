/** The screen's filters (frontend/src/pages/Relatorios.jsx, lines 6-16 and
    427-474): production records and normalised downtime records filtered by
    an inclusive date range, a machine and, for production only, an operator. */
module Filtragem {
  import opened Base
  import opened Text
  import opened Records
  import opened Tempo

  /** The filter controls. `di`/`df` are `toISODate` of the date inputs: the
      `YYYY-MM-DD` bound, `None` when the input is empty or not a date. */
  datatype Filtros = Filtros(
    tipoRelatorio: string, di: Option<string>, df: Option<string>,
    maquina: string, operador: string, formato: string, modo: string)

  /** A bound the filter applies (`di && ...`: present and non-empty). */
  predicate Ativo(b: Option<string>) { b.Some? && b.value != "" }

  /** The two date tests of lines 432-433 (and 468-469), on the record's day
      `dd`, with JavaScript's string `<`. */
  predicate NoPeriodo(f: Filtros, dd: Option<string>) {
    var presente := dd.Some? && dd.value != "";
    (Ativo(f.di) ==> presente && !Less(dd.value, f.di.value)) &&
    (Ativo(f.df) ==> presente && !Less(f.df.value, dd.value))
  }

  /** The date tests are inclusive bounds on the `YYYY-MM-DD` strings; a
      record with no day fails as soon as either bound is set. */
  lemma NoPeriodoInclusivo(f: Filtros, dd: Option<string>)
    ensures NoPeriodo(f, dd) <==>
      ((Ativo(f.di) || Ativo(f.df)) ==> dd.Some? && dd.value != "") &&
      (Ativo(f.di) && dd.Some? ==> LessEq(f.di.value, dd.value)) &&
      (Ativo(f.df) && dd.Some? ==> LessEq(dd.value, f.df.value))
  {
    if dd.Some? {
      if Ativo(f.di) { LessTrichotomy(dd.value, f.di.value); }
      if Ativo(f.df) { LessTrichotomy(f.df.value, dd.value); }
    }
  }

  /** The predicate of `apontamentosFiltrados` (lines 430-437). */
  predicate PassaApontamento(f: Filtros, a: Apontamento) {
    NoPeriodo(f, ToISODate(a.inicio)) &&
    (f.maquina == "" || a.maquina == f.maquina) &&
    (f.operador == "" || a.operador == f.operador)
  }

  /** `apontamentosFiltrados`: an order-preserving subsequence of the input
      holding exactly the records that pass. */
  function ApontamentosFiltrados(f: Filtros, xs: seq<Apontamento>): (r: seq<Apontamento>)
    ensures Subsequencia(r, xs)
    ensures forall a :: a in r <==> a in xs && PassaApontamento(f, a)
  {
    Filtrar(xs, a => PassaApontamento(f, a))
  }

  /** A record that passes is kept as many times as it occurs. */
  lemma ApontamentosMultiplicidade(f: Filtros, xs: seq<Apontamento>)
    ensures var r := ApontamentosFiltrados(f, xs);
      forall a :: multiset(r)[a] == if PassaApontamento(f, a) then multiset(xs)[a] else 0
  {
    FiltrarMultiplicidade(xs, a => PassaApontamento(f, a));
  }

  /** With no criterion set every record passes. */
  lemma SemFiltroNadaMuda(f: Filtros, xs: seq<Apontamento>)
    requires !Ativo(f.di) && !Ativo(f.df) && f.maquina == "" && f.operador == ""
    ensures ApontamentosFiltrados(f, xs) == xs
  {
    var r := ApontamentosFiltrados(f, xs);
    assert |r| == |xs|;
    SubsequenciaCheia(r, xs);
  }

  /** A subsequence as long as the sequence is the sequence. */
  lemma {:induction false} SubsequenciaCheia<T>(r: seq<T>, xs: seq<T>)
    requires Subsequencia(r, xs) && |r| == |xs|
    ensures r == xs
    decreases |xs|
  {
    if |r| > 0 {
      if r[0] == xs[0] && Subsequencia(r[1..], xs[1..]) {
        SubsequenciaCheia(r[1..], xs[1..]);
        assert r == [r[0]] + r[1..];
      } else {
        SubsequenciaCurta(r, xs[1..]);
      }
    }
  }

  lemma {:induction false} SubsequenciaCurta<T>(r: seq<T>, xs: seq<T>)
    requires Subsequencia(r, xs)
    ensures |r| <= |xs|
    decreases |xs|
  {
    if |r| > 0 {
      if r[0] == xs[0] && Subsequencia(r[1..], xs[1..]) {
        SubsequenciaCurta(r[1..], xs[1..]);
      } else {
        SubsequenciaCurta(r, xs[1..]);
      }
    }
  }

  // ---------------------------------------------------------------------------
  // Downtime

  /** A downtime record after the normalisation of lines 453-461: the stored
      record (the spread `...p`) and the four normalised fields. */
  datatype ParadaNorm = ParadaNorm(
    bruta: Parada, inicio_norm: Option<Instant>, fim_norm: Option<Instant>,
    motivo_norm: string, tipo_norm: string)

  /** The normalisation: either spelling of start and end, the reason and the
      type with `-` for a missing one. */
  function Normalizar(p: Parada): (n: ParadaNorm)
    ensures n.bruta == p
    ensures n.inicio_norm == (if p.inicio.Some? then p.inicio else p.inicio_timestamp)
    ensures n.fim_norm == (if p.fim.Some? then p.fim else p.fim_timestamp)
    ensures n.motivo_norm != ""
    ensures n.motivo_norm == (if p.motivo_parada != "" then p.motivo_parada
                              else if p.motivoParada != "" then p.motivoParada else "-")
    ensures n.tipo_norm != ""
    ensures n.tipo_norm == (if p.tipo_parada != "" then p.tipo_parada
                            else if p.tipoParada != "" then p.tipoParada else "-")
  {
    ParadaNorm(p,
      Coalesce(p.inicio, p.inicio_timestamp), Coalesce(p.fim, p.fim_timestamp),
      Or(p.motivo_parada, Or(p.motivoParada, "-")),
      Or(p.tipo_parada, Or(p.tipoParada, "-")))
  }

  /** `paradas`: one normalised record per stored record, in order. */
  function Paradas(ps: seq<Parada>): (r: seq<ParadaNorm>)
    ensures |r| == |ps| && forall i :: 0 <= i < |ps| ==> r[i].bruta == ps[i] && r[i] == Normalizar(ps[i])
  {
    seq(|ps|, i requires 0 <= i < |ps| => Normalizar(ps[i]))
  }

  /** The predicate of `paradasFiltradas` (lines 466-473): the operator
      criterion is not consulted. */
  predicate PassaParada(f: Filtros, p: ParadaNorm) {
    NoPeriodo(f, ToISODate(p.inicio_norm)) &&
    (f.maquina == "" || p.bruta.maquina == f.maquina)
  }

  /** `paradasFiltradas`. */
  function ParadasFiltradas(f: Filtros, ps: seq<ParadaNorm>): (r: seq<ParadaNorm>)
    ensures Subsequencia(r, ps)
    ensures forall p :: p in r <==> p in ps && PassaParada(f, p)
  {
    Filtrar(ps, p => PassaParada(f, p))
  }

  /** A downtime record that passes is kept as many times as it occurs. */
  lemma ParadasMultiplicidade(f: Filtros, ps: seq<ParadaNorm>)
    ensures var r := ParadasFiltradas(f, ps);
      forall p :: multiset(r)[p] == if PassaParada(f, p) then multiset(ps)[p] else 0
  {
    FiltrarMultiplicidade(ps, p => PassaParada(f, p));
  }

  /** Downtime ignores the operator criterion. */
  lemma {:induction false} ParadasIgnoramOperador(f: Filtros, ps: seq<ParadaNorm>, operador: string)
    ensures ParadasFiltradas(f.(operador := operador), ps) == ParadasFiltradas(f, ps)
  {
    if |ps| > 0 {
      ParadasIgnoramOperador(f, ps[1..], operador);
    }
  }

  /** The output format is no filter criterion. */
  lemma {:induction false} ApontamentosIgnoramFormato(f: Filtros, xs: seq<Apontamento>, formato: string)
    ensures ApontamentosFiltrados(f.(formato := formato), xs) == ApontamentosFiltrados(f, xs)
  {
    if |xs| > 0 {
      ApontamentosIgnoramFormato(f, xs[1..], formato);
    }
  }

  lemma {:induction false} ParadasIgnoramFormato(f: Filtros, ps: seq<ParadaNorm>, formato: string)
    ensures ParadasFiltradas(f.(formato := formato), ps) == ParadasFiltradas(f, ps)
  {
    if |ps| > 0 {
      ParadasIgnoramFormato(f, ps[1..], formato);
    }
  }
}
