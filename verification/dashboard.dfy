/** The dashboard (frontend/src/pages/Dashboard.jsx): the day's figures
    (production, downtime, finished and pending orders) and the list of the
    orders in execution. The clock is a parameter throughout: `dia` is
    today's `YYYY-MM-DD`, `inicioDia` and `fimDia` are the epoch
    milliseconds of the day's first and last millisecond, and `agora` is the
    current instant. */
module Painel {
  import opened Base
  import opened Text
  import opened Records

  // ---------------------------------------------------------------------------
  // Daily production (lines 16-21)

  /** `(a.inicio ? String(a.inicio) : '').slice(0, 10)`. */
  function DiaDoInicio(a: Apontamento): (r: string)
    ensures |r| <= 10
    ensures a.inicio.None? ==> r == ""
  {
    var ini := if a.inicio.Some? then a.inicio.value.raw else "";
    if |ini| <= 10 then ini else ini[..10]
  }

  predicate DoDia(dia: string, a: Apontamento) {
    DiaDoInicio(a) == dia
  }

  /** The test "this record started on `dia`". */
  function DoDiaEm(dia: string): Apontamento -> bool {
    a => DoDia(dia, a)
  }

  /** For a ten-character day, a record counts exactly when its stored start
      begins with that day. */
  lemma DoDiaPrefixo(dia: string, a: Apontamento)
    requires |dia| == 10
    ensures DoDia(dia, a) <==> a.inicio.Some? && |a.inicio.value.raw| >= 10 && a.inicio.value.raw[..10] == dia
  {
  }

  /** The `reduce` of lines 16-21, from the first record to the last. */
  function ProducaoDiaria(xs: seq<Apontamento>, dia: string): int {
    SomarSe(xs, DoDiaEm(dia), Quantidade)
  }

  function Quantidade(a: Apontamento): int { a.quantidade }

  /** The day's production is the quantity of the records of that day. */
  lemma ProducaoDiariaDoDia(xs: seq<Apontamento>, dia: string)
    ensures ProducaoDiaria(xs, dia) == Somar(Filtrar(xs, DoDiaEm(dia)), Quantidade)
  {
    SomarSeFiltrado(xs, DoDiaEm(dia), Quantidade);
  }

  // ---------------------------------------------------------------------------
  // Downtime today (lines 24-38)

  function Max(a: int, b: int): int { if a > b then a else b }

  /** What one downtime record adds, in milliseconds: the overlap of its
      interval with the day, an open one running until `agora`; a record
      without a start adds nothing. */
  function MsNoDia(p: Parada, inicioDia: int, fimDia: int, agora: int): (r: int)
    ensures r >= 0
    ensures p.inicio.None? ==> r == 0
    ensures r <= Max(0, fimDia - inicioDia)
    ensures p.inicio.Some? ==>
      var ini := p.inicio.value.ms;
      var fim := if p.fim.Some? then p.fim.value.ms else agora;
      (inicioDia <= ini <= fim <= fimDia ==> r == fim - ini) &&
      (ini <= inicioDia <= fim <= fimDia ==> r == fim - inicioDia) &&
      (inicioDia <= ini <= fimDia <= fim ==> r == fimDia - ini) &&
      (ini <= inicioDia <= fimDia <= fim ==> r == fimDia - inicioDia) &&
      (fim <= inicioDia || fimDia <= ini ==> r == 0)
  {
    if p.inicio.None? then 0
    else
      var iniP := p.inicio.value.ms;
      var fimP := if p.fim.Some? then p.fim.value.ms else agora;
      var start := if iniP > inicioDia then iniP else inicioDia;
      var end := if fimP < fimDia then fimP else fimDia;
      Max(0, end - start)
  }

  /** `msParadaHoje`, the `reduce` of lines 26-34. */
  function MsParadaHoje(ps: seq<Parada>, inicioDia: int, fimDia: int, agora: int): nat {
    if |ps| == 0 then 0
    else MsParadaHoje(ps[..|ps| - 1], inicioDia, fimDia, agora) + MsNoDia(ps[|ps| - 1], inicioDia, fimDia, agora)
  }

  /** The total is never negative and never more than a whole day per
      record. */
  lemma {:induction false} MsParadaHojeLimites(ps: seq<Parada>, inicioDia: int, fimDia: int, agora: int)
    ensures 0 <= MsParadaHoje(ps, inicioDia, fimDia, agora) <= |ps| * Max(0, fimDia - inicioDia)
  {
    if |ps| > 0 {
      var n := |ps| - 1;
      var dd := Max(0, fimDia - inicioDia);
      MsParadaHojeLimites(ps[..n], inicioDia, fimDia, agora);
      UmaParcelaMais(n, dd);
      assert MsParadaHoje(ps, inicioDia, fimDia, agora) ==
        MsParadaHoje(ps[..n], inicioDia, fimDia, agora) + MsNoDia(ps[n], inicioDia, fimDia, agora);
    }
  }

  lemma UmaParcelaMais(n: int, dd: int)
    ensures n * dd + dd == (n + 1) * dd
  {
  }

  /** `String(n).padStart(2, '0')`. */
  function DoisDigitos(n: nat): (r: string)
    ensures |r| >= 2 && AllDigits(r)
  {
    PadStart(NatToString(n), 2, '0')
  }

  /** `msParadaHoje > 0 ? hh + ':' + mm : '-'`, with whole minutes. */
  function TempoParada(ms: nat): (r: string)
    ensures ms == 0 <==> r == "-"
  {
    if ms > 0 then
      var totalMin := ms / 60000;
      DoisDigitos(totalMin / 60) + ":" + DoisDigitos(totalMin % 60)
    else "-"
  }

  /** Leading zeros do not change a number. */
  lemma {:induction false} ZerosAEsquerda(z: string, s: string)
    requires AllDigits(s) && forall i :: 0 <= i < |z| ==> z[i] == '0'
    ensures AllDigits(z + s) && DigitsValue(z + s) == DigitsValue(s)
    decreases |s|
  {
    if |s| == 0 {
      ZerosSoma(z);
      assert z + s == z;
    } else {
      ZerosAEsquerda(z, s[..|s| - 1]);
      assert (z + s)[..|z + s| - 1] == z + s[..|s| - 1];
    }
  }

  lemma {:induction false} ZerosSoma(z: string)
    requires forall i :: 0 <= i < |z| ==> z[i] == '0'
    ensures AllDigits(z) && DigitsValue(z) == 0
  {
    if |z| > 0 {
      ZerosSoma(z[..|z| - 1]);
    }
  }

  /** Reading back a two-digit field gives the number. */
  lemma DoisDigitosLido(n: nat)
    ensures DigitsValue(DoisDigitos(n)) == n
  {
    var s := NatToString(n);
    var r := DoisDigitos(n);
    DigitsValueOfNatToString(n);
    ZerosAEsquerda(r[..|r| - |s|], s);
    assert r == r[..|r| - |s|] + s;
  }

  /** A positive total reads as hours and minutes, the minutes in two digits
      below 60, that add up to the whole minutes of the total. */
  lemma TempoParadaLido(ms: nat)
    requires ms > 0
    ensures var r := TempoParada(ms);
      exists hh, mm :: r == hh + ":" + mm && |hh| >= 2 && |mm| == 2 && AllDigits(hh) && AllDigits(mm) &&
        DigitsValue(mm) < 60 && DigitsValue(hh) * 60 + DigitsValue(mm) == ms / 60000
  {
    var totalMin := ms / 60000;
    var hh := DoisDigitos(totalMin / 60);
    var mm := DoisDigitos(totalMin % 60);
    DoisDigitosLido(totalMin / 60);
    DoisDigitosLido(totalMin % 60);
    assert |NatToString(totalMin % 60)| <= 2 by {
      assert totalMin % 60 < 100;
      NatToStringCurto(totalMin % 60);
    }
    assert TempoParada(ms) == hh + ":" + mm;
  }

  lemma NatToStringCurto(n: nat)
    requires n < 100
    ensures |NatToString(n)| <= 2
  {
    if n >= 10 {
      assert NatToString(n) == NatToString(n / 10) + [DigitChar(n % 10)];
    }
  }

  // ---------------------------------------------------------------------------
  // Finished and pending orders (lines 41-51)

  /** `qtd > 0 && sep >= qtd`. */
  predicate Concluido(p: Pedido) {
    p.qtd_pedido > 0 && p.separado >= p.qtd_pedido
  }

  predicate Pendente(p: Pedido) { !Concluido(p) }

  /** The two filters of lines 41-51 split the orders: every order is in
      exactly one of them. */
  lemma {:induction false} ConcluidosEPendentes(ps: seq<Pedido>)
    ensures |Filtrar(ps, Concluido)| + |Filtrar(ps, Pendente)| == |ps|
  {
    if |ps| > 0 {
      ConcluidosEPendentes(ps[1..]);
    }
  }

  /** The placeholder figures of lines 54-57. */
  datatype Oee = Oee(disponibilidade: int, performance: int, qualidade: int, total: int)

  datatype Estatisticas = Estatisticas(
    oee: Oee, tempoParada: string, producaoDiaria: int, ordensCompletadas: nat, ordensPendentes: nat)

  /** `stats`. */
  function Stats(pedidos: seq<Pedido>, apontamentos: seq<Apontamento>, paradas: seq<Parada>,
                 dia: string, inicioDia: int, fimDia: int, agora: int): (s: Estatisticas)
    ensures s.oee == Oee(0, 0, 0, 0)
    ensures s.ordensCompletadas == |Filtrar(pedidos, Concluido)| && s.ordensPendentes == |Filtrar(pedidos, Pendente)|
    ensures s.ordensCompletadas + s.ordensPendentes == |pedidos|
    ensures s.tempoParada == TempoParada(MsParadaHoje(paradas, inicioDia, fimDia, agora))
    ensures s.tempoParada == "-" <==> MsParadaHoje(paradas, inicioDia, fimDia, agora) == 0
    ensures s.producaoDiaria == Somar(Filtrar(apontamentos, DoDiaEm(dia)), Quantidade)
  {
    ConcluidosEPendentes(pedidos);
    ProducaoDiariaDoDia(apontamentos, dia);
    MsParadaHojeLimites(paradas, inicioDia, fimDia, agora);
    var ms := MsParadaHoje(paradas, inicioDia, fimDia, agora);
    Estatisticas(Oee(0, 0, 0, 0), TempoParada(ms), ProducaoDiaria(apontamentos, dia),
      |Filtrar(pedidos, Concluido)|, |Filtrar(pedidos, Pendente)|)
  }

  // ---------------------------------------------------------------------------
  // Production per order (lines 70-79)

  /** `String(a.ordem_trabalho || a.pedido_seq || '')`. */
  function ChavePedido(a: Apontamento): string {
    Or(a.ordem_trabalho, a.pedido_seq)
  }

  /** `porPedido[seq]`: the quantity so far and the last record seen. */
  datatype Info = Info(quantidade: int, ultimo: Apontamento)

  /** One turn of the loop: a record without a key is skipped. */
  function PassoPedido(m: map<string, Info>, a: Apontamento): map<string, Info> {
    var k := ChavePedido(a);
    if k == "" then m
    else m[k := Info((if k in m then m[k].quantidade else 0) + a.quantidade, a)]
  }

  function PorPedidoSpec(xs: seq<Apontamento>): map<string, Info> {
    if |xs| == 0 then map[] else PassoPedido(PorPedidoSpec(xs[..|xs| - 1]), xs[|xs| - 1])
  }

  /** `porPedido`, filled by the loop of lines 71-79. */
  method PorPedido(xs: seq<Apontamento>) returns (m: map<string, Info>)
    ensures m == PorPedidoSpec(xs)
  {
    m := map[];
    for i := 0 to |xs|
      invariant m == PorPedidoSpec(xs[..i])
    {
      assert xs[..i + 1][..i] == xs[..i];
      var a := xs[i];
      var k := ChavePedido(a);
      if k == "" {
        continue;
      }
      if k !in m {
        m := m[k := Info(0, a)];
      }
      m := m[k := Info(m[k].quantidade + a.quantidade, a)];
    }
    assert xs[..|xs|] == xs;
  }

  /** The quantity of the records with key `k`. */
  function QtdDoPedido(xs: seq<Apontamento>, k: string): int {
    Somar(Filtrar(xs, DoPedido(k)), Quantidade)
  }

  /** The test "this record belongs to order `k`". */
  function DoPedido(k: string): Apontamento -> bool {
    a => ChavePedido(a) == k
  }

  /** Exactly the non-empty keys of the records are aggregated. */
  lemma {:induction false} PorPedidoChaves(xs: seq<Apontamento>, k: string)
    ensures k in PorPedidoSpec(xs) <==> k != "" && exists i :: 0 <= i < |xs| && ChavePedido(xs[i]) == k
  {
    if |xs| > 0 {
      var ini := xs[..|xs| - 1];
      PorPedidoChaves(ini, k);
      if k in PorPedidoSpec(ini) {
        var i :| 0 <= i < |ini| && ChavePedido(ini[i]) == k;
        assert ChavePedido(xs[i]) == k;
      }
      if exists i :: 0 <= i < |xs| && ChavePedido(xs[i]) == k {
        var i :| 0 <= i < |xs| && ChavePedido(xs[i]) == k;
        if i < |ini| {
          assert ChavePedido(ini[i]) == k;
        }
      }
    }
  }

  /** Each order's quantity is the total of its records. */
  lemma {:induction false} PorPedidoQuantidade(xs: seq<Apontamento>, k: string)
    requires k in PorPedidoSpec(xs)
    ensures PorPedidoSpec(xs)[k].quantidade == QtdDoPedido(xs, k)
  {
    var ini := xs[..|xs| - 1];
    var a := xs[|xs| - 1];
    assert xs == ini + [a];
    assert PorPedidoSpec(xs) == PassoPedido(PorPedidoSpec(ini), a);
    PorPedidoChaves(xs, k);
    SomarFiltrarUltimo(ini, a, DoPedido(k), Quantidade);
    if ChavePedido(a) == k {
      if k in PorPedidoSpec(ini) {
        PorPedidoQuantidade(ini, k);
      } else {
        QtdDoPedidoAusente(ini, k);
      }
    } else {
      PorPedidoQuantidade(ini, k);
    }
  }

  /** A key that was never aggregated has no record. */
  lemma QtdDoPedidoAusente(xs: seq<Apontamento>, k: string)
    requires k != "" && k !in PorPedidoSpec(xs)
    ensures QtdDoPedido(xs, k) == 0
  {
    PorPedidoChaves(xs, k);
    FiltrarNenhum(xs, DoPedido(k));
  }

  /** `ultimo` is the last record of the order, in input order. */
  lemma {:induction false} PorPedidoUltimo(xs: seq<Apontamento>, k: string)
    requires k in PorPedidoSpec(xs)
    ensures exists j :: 0 <= j < |xs| && xs[j] == PorPedidoSpec(xs)[k].ultimo && ChavePedido(xs[j]) == k &&
                        forall i :: j < i < |xs| ==> ChavePedido(xs[i]) != k
  {
    var ini := xs[..|xs| - 1];
    var a := xs[|xs| - 1];
    assert PorPedidoSpec(xs) == PassoPedido(PorPedidoSpec(ini), a);
    PorPedidoChaves(xs, k);
    if ChavePedido(a) == k {
      assert xs[|xs| - 1] == PorPedidoSpec(xs)[k].ultimo;
    } else {
      PorPedidoUltimo(ini, k);
      var j :| 0 <= j < |ini| && ini[j] == PorPedidoSpec(ini)[k].ultimo && ChavePedido(ini[j]) == k &&
               forall i :: j < i < |ini| ==> ChavePedido(ini[i]) != k;
      assert xs[j] == ini[j];
      forall i | j < i < |xs| ensures ChavePedido(xs[i]) != k {
        if i < |ini| {
          assert xs[i] == ini[i];
        }
      }
    }
  }

  // ---------------------------------------------------------------------------
  // Machine names (lines 82-87)

  /** `(m.nome || m.codigo || m.modelo || '') || '-'`. */
  function NomeVisivel(m: Maquina): (r: string)
    ensures r != ""
    ensures m.nome != "" ==> r == m.nome
    ensures m.nome == "" && m.codigo != "" ==> r == m.codigo
    ensures m.nome == "" && m.codigo == "" && m.modelo != "" ==> r == m.modelo
    ensures m.nome == "" && m.codigo == "" && m.modelo == "" ==> r == "-"
  {
    Or(m.nome, Or(m.codigo, Or(m.modelo, "-")))
  }

  /** One turn of the loop: the id, then the code, each when present. */
  function PassoMaquina(mp: map<string, string>, m: Maquina): map<string, string> {
    var n := NomeVisivel(m);
    var porId := if m.id != "" then mp[m.id := n] else mp;
    if m.codigo != "" then porId[m.codigo := n] else porId
  }

  /** Whether machine `m` is entered under `k`. */
  predicate Nomeia(m: Maquina, k: string) {
    k != "" && (m.id == k || m.codigo == k)
  }

  function MapaMaquinasSpec(ms: seq<Maquina>): map<string, string> {
    if |ms| == 0 then map[] else PassoMaquina(MapaMaquinasSpec(ms[..|ms| - 1]), ms[|ms| - 1])
  }

  /** `mapMaq`, filled by the loop of lines 83-87. */
  method MapaMaquinas(ms: seq<Maquina>) returns (mp: map<string, string>)
    ensures mp == MapaMaquinasSpec(ms)
  {
    mp := map[];
    for i := 0 to |ms|
      invariant mp == MapaMaquinasSpec(ms[..i])
    {
      assert ms[..i + 1][..i] == ms[..i];
      var m := ms[i];
      var nome := NomeVisivel(m);
      if m.id != "" {
        mp := mp[m.id := nome];
      }
      if m.codigo != "" {
        mp := mp[m.codigo := nome];
      }
    }
    assert ms[..|ms|] == ms;
  }

  /** The keys are exactly the ids and codes present. */
  lemma {:induction false} MapaMaquinasChaves(ms: seq<Maquina>, k: string)
    ensures k in MapaMaquinasSpec(ms) <==> exists i :: 0 <= i < |ms| && Nomeia(ms[i], k)
  {
    if |ms| > 0 {
      var ini := ms[..|ms| - 1];
      var m := ms[|ms| - 1];
      assert MapaMaquinasSpec(ms) == PassoMaquina(MapaMaquinasSpec(ini), m);
      MapaMaquinasChaves(ini, k);
      assert forall i :: 0 <= i < |ini| ==> ini[i] == ms[i];
      if exists i :: 0 <= i < |ms| && Nomeia(ms[i], k) {
        var i :| 0 <= i < |ms| && Nomeia(ms[i], k);
        if i < |ini| {
          assert Nomeia(ini[i], k);
        }
      }
    }
  }

  /** One turn of the loop writes `k` exactly when the machine is entered
      under it. */
  lemma PassoMaquinaLe(mp: map<string, string>, m: Maquina, k: string)
    requires k in PassoMaquina(mp, m)
    ensures Nomeia(m, k) ==> PassoMaquina(mp, m)[k] == NomeVisivel(m)
    ensures !Nomeia(m, k) ==> k in mp && PassoMaquina(mp, m)[k] == mp[k]
  {
  }

  /** Each key shows the name of the last machine entered under it. */
  lemma {:induction false} MapaMaquinasUltima(ms: seq<Maquina>, k: string)
    requires k in MapaMaquinasSpec(ms)
    ensures exists j :: 0 <= j < |ms| && Nomeia(ms[j], k) && MapaMaquinasSpec(ms)[k] == NomeVisivel(ms[j]) &&
                        forall i :: j < i < |ms| ==> !Nomeia(ms[i], k)
  {
    var ini := ms[..|ms| - 1];
    var m := ms[|ms| - 1];
    assert MapaMaquinasSpec(ms) == PassoMaquina(MapaMaquinasSpec(ini), m);
    PassoMaquinaLe(MapaMaquinasSpec(ini), m, k);
    if Nomeia(m, k) {
      assert MapaMaquinasSpec(ms)[k] == NomeVisivel(ms[|ms| - 1]);
    } else {
      MapaMaquinasUltima(ini, k);
      var j :| 0 <= j < |ini| && Nomeia(ini[j], k) && MapaMaquinasSpec(ini)[k] == NomeVisivel(ini[j]) &&
               forall i :: j < i < |ini| ==> !Nomeia(ini[i], k);
      assert ms[j] == ini[j];
      forall i | j < i < |ms| ensures !Nomeia(ms[i], k) {
        if i < |ini| {
          assert ms[i] == ini[i];
        }
      }
    }
  }

  // ---------------------------------------------------------------------------
  // Orders in execution (lines 93-121)

  /** `['finalizado','concluido'].includes(statusKey(p.status))`. */
  predicate Finalizado(p: Pedido) {
    ToLower(p.status) == "finalizado" || ToLower(p.status) == "concluido"
  }

  /** The quantity entered against the order, 0 when there is none. */
  function Produzidas(pp: map<string, Info>, p: Pedido): int {
    if p.pedido_seq in pp then pp[p.pedido_seq].quantidade else 0
  }

  /** The filter of lines 95-104: something was produced, the order is not
      closed, and it has not reached the quantity ordered (when one is set). */
  predicate EmExecucao(pp: map<string, Info>, p: Pedido) {
    p.pedido_seq in pp && pp[p.pedido_seq].quantidade > 0 && !Finalizado(p) &&
    !(p.qtd_pedido > 0 && pp[p.pedido_seq].quantidade >= p.qtd_pedido)
  }

  /** `Math.round((prod / qtd) * 100)` in exact arithmetic: the integer nearest
      to 100 * prod / qtd, halves rounded up. */
  function Arredondar100(prod: int, qtd: int): (r: int)
    requires qtd > 0
    ensures 2 * qtd * r <= 200 * prod + qtd < 2 * qtd * (r + 1)
  {
    var d := 2 * qtd;
    var n := 200 * prod + qtd;
    var q := n / d;
    assert n == d * q + n % d;
    assert d * (q + 1) == d * q + d;
    q
  }

  /** `qtd > 0 ? Math.min(Math.round(...), 100) : 0`. */
  function Progresso(prod: int, qtd: int): (r: int)
    ensures r <= 100
    ensures qtd <= 0 ==> r == 0
    ensures prod >= 0 ==> r >= 0
    ensures qtd > 0 && 0 <= prod < qtd ==> 0 <= r <= 100 && r == Arredondar100(prod, qtd)
  {
    if qtd > 0 then
      var x := Arredondar100(prod, qtd);
      ArredondarLimites(prod, qtd);
      if x < 100 then x else 100
    else 0
  }

  /** A non-negative share rounds to at least 0, one below the whole to at most 100. */
  lemma ArredondarLimites(prod: int, qtd: int)
    requires qtd > 0
    ensures prod >= 0 ==> Arredondar100(prod, qtd) >= 0
    ensures prod < qtd ==> Arredondar100(prod, qtd) <= 100
  {
    var n := 200 * prod + qtd;
    if prod >= 0 {
      QuocienteNaoNegativo(n, 2 * qtd);
    }
    if prod < qtd {
      QuocienteAbaixo(n, 2 * qtd, 101);
    }
  }

  lemma QuocienteNaoNegativo(n: int, d: int)
    requires n >= 0 && d > 0
    ensures n / d >= 0
  {
  }

  lemma QuocienteAbaixo(n: int, d: int, k: int)
    requires d > 0 && n < d * k
    ensures n / d < k
  {
  }

  predicate HexOuHifen(c: char) {
    IsDigit(c) || 'a' <= c <= 'f' || 'A' <= c <= 'F' || c == '-'
  }

  /** `/^[0-9a-f-]{8,}$/i`: a raw identifier rather than a name. */
  predicate PareceId(s: string) {
    |s| >= 8 && forall i :: 0 <= i < |s| ==> HexOuHifen(s[i])
  }

  /** `mapMaq.get(rawMaq) || (looks like an id ? '-' : (rawMaq || '-'))`. */
  function RotuloMaquina(mq: map<string, string>, raw: string): (r: string)
    ensures r != ""
    ensures raw in mq && mq[raw] != "" ==> r == mq[raw]
    ensures !(raw in mq && mq[raw] != "") && PareceId(raw) ==> r == "-"
    ensures !(raw in mq && mq[raw] != "") && !PareceId(raw) && raw != "" ==> r == raw
    ensures !(raw in mq && mq[raw] != "") && raw == "" ==> r == "-"
  {
    if raw in mq && mq[raw] != "" then mq[raw]
    else if PareceId(raw) then "-"
    else Or(raw, "-")
  }

  /** `info.ultimo`: the last record of the order, when it has one. */
  function UltimoDe(pp: map<string, Info>, p: Pedido): Option<Apontamento> {
    if p.pedido_seq in pp then Some(pp[p.pedido_seq].ultimo) else None
  }

  /** A row of the "orders in execution" table. */
  datatype OrdemExecucao = OrdemExecucao(codigo: string, perfil: string, maquina: string, operador: string, progresso: int)

  /** The `map` of lines 105-119 for one order. */
  function LinhaOrdem(pp: map<string, Info>, mq: map<string, string>, p: Pedido): (r: OrdemExecucao)
    ensures r.maquina != "" && r.operador != "" && r.perfil == p.produto
    ensures EmExecucao(pp, p) ==> 0 <= r.progresso <= 100
    ensures EmExecucao(pp, p) && p.qtd_pedido > 0 ==>
      r.progresso == Arredondar100(pp[p.pedido_seq].quantidade, p.qtd_pedido)
  {
    var u := UltimoDe(pp, p);
    var ultimoMaq := if u.Some? then u.value.maquina else "";
    var ultimoOp := if u.Some? then u.value.operador else "";
    var rawMaq := Trim(Or(ultimoMaq, p.operacao_atual));
    OrdemExecucao(Or(p.pedido_seq, Or(p.nro_op, p.id)), p.produto,
                  RotuloMaquina(mq, rawMaq), Or(ultimoOp, "-"),
                  Progresso(Produzidas(pp, p), p.qtd_pedido))
  }

  /** The columns of the row: `pedido_seq || nro_op || id`; the machine label
      of the last record's machine, else the order's current operation,
      trimmed; the last record's operator, else "-". */
  lemma LinhaOrdemCampos(pp: map<string, Info>, mq: map<string, string>, p: Pedido)
    ensures var r := LinhaOrdem(pp, mq, p);
      (p.pedido_seq != "" ==> r.codigo == p.pedido_seq) &&
      (p.pedido_seq == "" && p.nro_op != "" ==> r.codigo == p.nro_op) &&
      (p.pedido_seq == "" && p.nro_op == "" ==> r.codigo == p.id)
    ensures var r := LinhaOrdem(pp, mq, p); var u := UltimoDe(pp, p);
      r.operador == (if u.Some? && u.value.operador != "" then u.value.operador else "-")
    ensures var r := LinhaOrdem(pp, mq, p); var u := UltimoDe(pp, p);
      r.maquina == RotuloMaquina(mq, Trim(if u.Some? && u.value.maquina != "" then u.value.maquina else p.operacao_atual))
  {
  }

  /** The orders that pass the filter, in their order. */
  function Selecionados(ps: seq<Pedido>, pp: map<string, Info>): (r: seq<Pedido>)
    ensures Subsequencia(r, ps)
    ensures forall p :: p in r <==> p in ps && EmExecucao(pp, p)
  {
    Filtrar(ps, p => EmExecucao(pp, p))
  }

  /** An order in execution is kept as many times as it occurs. */
  lemma SelecionadosMultiplicidade(ps: seq<Pedido>, pp: map<string, Info>)
    ensures var r := Selecionados(ps, pp);
      forall p :: multiset(r)[p] == if EmExecucao(pp, p) then multiset(ps)[p] else 0
  {
    FiltrarMultiplicidade(ps, p => EmExecucao(pp, p));
  }

  /** The filter, the map and `.slice(0, 5)` of lines 93-121. */
  function OrdensExecucao(ps: seq<Pedido>, pp: map<string, Info>, mq: map<string, string>): (r: seq<OrdemExecucao>)
    ensures var n := |Selecionados(ps, pp)|; |r| == if n < 5 then n else 5
    ensures forall i :: 0 <= i < |r| ==> r[i] == LinhaOrdem(pp, mq, Selecionados(ps, pp)[i])
    ensures forall i :: 0 <= i < |r| ==> exists p :: p in ps && EmExecucao(pp, p) && r[i] == LinhaOrdem(pp, mq, p)
    ensures forall i :: 0 <= i < |r| ==> 0 <= r[i].progresso <= 100 && r[i].maquina != "" && r[i].operador != ""
  {
    var f := Selecionados(ps, pp);
    var linhas := seq(|f|, i requires 0 <= i < |f| => LinhaOrdem(pp, mq, f[i]));
    assert forall i :: 0 <= i < |f| ==> f[i] in f && f[i] in ps && EmExecucao(pp, f[i]);
    linhas[..if |linhas| < 5 then |linhas| else 5]
  }

  /** When at most five orders are in execution, each of them has its row. */
  lemma OrdensExecucaoCompleta(ps: seq<Pedido>, pp: map<string, Info>, mq: map<string, string>, p: Pedido)
    requires p in ps && EmExecucao(pp, p)
    requires |Selecionados(ps, pp)| <= 5
    ensures LinhaOrdem(pp, mq, p) in OrdensExecucao(ps, pp, mq)
  {
    var f := Selecionados(ps, pp);
    assert p in f;
    var i :| 0 <= i < |f| && f[i] == p;
    assert OrdensExecucao(ps, pp, mq)[i] == LinhaOrdem(pp, mq, p);
  }

  /** `ordensExecucao`: the three steps of the memo, the two loops as methods. */
  method PainelOrdens(pedidos: seq<Pedido>, apontamentos: seq<Apontamento>, maquinas: seq<Maquina>)
    returns (r: seq<OrdemExecucao>)
    ensures r == OrdensExecucao(pedidos, PorPedidoSpec(apontamentos), MapaMaquinasSpec(maquinas))
  {
    var pp := PorPedido(apontamentos);
    var mq := MapaMaquinas(maquinas);
    r := OrdensExecucao(pedidos, pp, mq);
  }
}
