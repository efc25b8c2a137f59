/** Durations and the date/number renderings the reports use
    (frontend/src/pages/Relatorios.jsx, lines 356-367 and 476-483). */
module Tempo {
  import opened Base
  import opened Text
  import opened Records

  /** `Math.round(x / d)` for an integer `x` and a positive `d`: the nearest
      integer, halves rounded up (towards +infinity, as `Math.round` does). */
  function ArredondarDiv(x: int, d: int): (q: int)
    requires d > 0
    ensures 2 * q * d - d <= 2 * x < 2 * q * d + d
  {
    (2 * x + d) / (2 * d)
  }

  /** `duracaoMin(inicio, fim)`: missing when either end is missing, otherwise
      the whole minutes between the two instants, rounded to the nearest
      minute and never negative. */
  function DuracaoMin(inicio: Option<Instant>, fim: Option<Instant>): (r: Option<nat>)
    ensures r.None? <==> inicio.None? || fim.None?
    ensures r.Some? ==> var delta := fim.value.ms - inicio.value.ms;
      (r.value == 0 && 2 * delta < 60000) ||
      (r.value > 0 && 2 * r.value * 60000 - 60000 <= 2 * delta < 2 * r.value * 60000 + 60000)
  {
    if inicio.None? || fim.None? then None
    else
      var m := ArredondarDiv(fim.value.ms - inicio.value.ms, 60000);
      Some(if m > 0 then m else 0)
  }

  /** `duracaoMin(...) || 0`. */
  function Minutos(inicio: Option<Instant>, fim: Option<Instant>): nat {
    DuracaoMin(inicio, fim).GetOr(0)
  }

  /** A duration does not depend on where the interval sits in time. */
  lemma DuracaoInvariantePorDeslocamento(i: Instant, f: Instant, k: int)
    ensures DuracaoMin(Some(i), Some(f)) == DuracaoMin(Some(i.(ms := i.ms + k)), Some(f.(ms := f.ms + k)))
  {
    assert (f.ms + k) - (i.ms + k) == f.ms - i.ms;
  }

  /** `toISODate(val)`: the UTC calendar day `YYYY-MM-DD`, or null. */
  function ToISODate(val: Option<Instant>): (r: Option<string>)
    ensures r.Some? <==> val.Some?
  {
    if val.None? then None else Some(val.value.isoDay)
  }

  /** `toISODate(val) || '-'`. */
  function DiaOuTraco(val: Option<Instant>): (r: string)
    ensures val.None? ==> r == "-"
  {
    match ToISODate(val)
    case None => "-"
    case Some(d) => Or(d, "-")
  }

  /** `brDate(val)`: the local calendar date, or "" when missing. */
  function BrDate(val: Option<Instant>): (r: string)
    ensures val.None? ==> r == ""
  {
    if val.None? then "" else val.value.brDay
  }

  /** `brTime(val)`: the local `hh:mm`, or "" when missing. */
  function BrTime(val: Option<Instant>): (r: string)
    ensures val.None? ==> r == ""
  {
    if val.None? then "" else val.value.brClock
  }

  /** `new Date(val).toLocaleString('pt-BR')` when present, otherwise "-". */
  function BrStampOuTraco(val: Option<Instant>): (r: string)
    ensures val.None? ==> r == "-"
  {
    if val.None? then "-" else val.value.brStamp
  }

  // ---------------------------------------------------------------------------
  // Two-decimal rendering

  /** The hundredths of `|num| / den`, to the nearest, halves up. */
  function Centesimos(num: int, den: int): (c: nat)
    requires den > 0
    ensures 2 * c * den - den <= 200 * (if num < 0 then -num else num) < 2 * c * den + den
  {
    var a := if num < 0 then -num else num;
    ArredondarDiv(100 * a, den)
  }

  /** `(num / den).toFixed(2)`, with the quotient taken exactly: an optional
      minus sign, the integer part, a point and two digits. */
  function Fixed2(num: int, den: int): (r: string)
    requires den > 0
  {
    var c := Centesimos(num, den);
    (if num < 0 then "-" else "") + NatToString(c / 100) + "." + [DigitChar(c % 100 / 10), DigitChar(c % 10)]
  }

  /** Reading a rendered number back gives the rounded hundredths: the part
      before the point is the integer part without leading zeros, the two
      digits after it are the remainder. */
  lemma Fixed2Valor(num: int, den: int)
    requires den > 0
    ensures var r := Fixed2(num, den);
      var s := if num < 0 then 1 else 0;
      var c := Centesimos(num, den);
      |r| >= s + 4 && r[|r| - 3] == '.' && (num < 0 <==> r[0] == '-') &&
      AllDigits(r[s..|r| - 3]) && AllDigits(r[|r| - 2..]) &&
      DigitsValue(r[s..|r| - 3]) * 100 + DigitsValue(r[|r| - 2..]) == c &&
      (r[s] == '0' ==> r[s..|r| - 3] == "0")
  {
    var c := Centesimos(num, den);
    ParteFixaLida(if num < 0 then "-" else "", NatToString(c / 100), [DigitChar(c % 100 / 10), DigitChar(c % 10)], c);
  }

  /** `sign + String(c div 100) + "." + two digits of c mod 100`, read back. */
  lemma ParteFixaLida(sinal: string, ip: string, fr: string, c: nat)
    requires ip == NatToString(c / 100) && fr == [DigitChar(c % 100 / 10), DigitChar(c % 10)]
    ensures var r := sinal + ip + "." + fr;
      var s := |sinal|;
      |r| >= s + 4 && r[|r| - 3] == '.' && r[..s] == sinal &&
      AllDigits(r[s..|r| - 3]) && AllDigits(r[|r| - 2..]) &&
      DigitsValue(r[s..|r| - 3]) * 100 + DigitsValue(r[|r| - 2..]) == c &&
      (r[s] == '0' ==> r[s..|r| - 3] == "0")
  {
    PartesFixas(sinal, ip, fr);
    ParteFixaValor(ip, fr, c);
  }

  lemma ParteFixaValor(ip: string, fr: string, c: nat)
    requires ip == NatToString(c / 100) && fr == [DigitChar(c % 100 / 10), DigitChar(c % 10)]
    ensures AllDigits(ip) && AllDigits(fr) && DigitsValue(ip) * 100 + DigitsValue(fr) == c
  {
    DigitsValueOfNatToString(c / 100);
    DoisDigitosValor(c);
  }

  /** The two digits after the point read back as `c mod 100`. */
  lemma DoisDigitosValor(c: nat)
    ensures var fr := [DigitChar(c % 100 / 10), DigitChar(c % 10)];
      AllDigits(fr) && DigitsValue(fr) == c % 100
  {
    var fr := [DigitChar(c % 100 / 10), DigitChar(c % 10)];
    assert DigitsValue(fr[..1]) == c % 100 / 10;
    assert DigitsValue(fr) == 10 * (c % 100 / 10) + c % 10;
  }

  /** The pieces of `sign + integer + "." + two digits` read back by position. */
  lemma PartesFixas(sinal: string, ip: string, fr: string)
    requires |ip| >= 1 && |fr| == 2
    ensures var r := sinal + ip + "." + fr;
      |r| == |sinal| + |ip| + 3 && r[|r| - 3] == '.' && r[..|sinal|] == sinal &&
      r[|sinal|..|r| - 3] == ip && r[|r| - 2..] == fr && r[|sinal|] == ip[0]
  {
    var r := sinal + ip + "." + fr;
    assert r[|sinal|..|r| - 3] == ip;
    assert r[|r| - 2..] == fr;
  }

  /** `(0).toFixed(2)`. */
  const Zero2: string := "0.00"

  /** A rate in items per hour, `(q / (min / 60)).toFixed(2)`, or "0.00"
      when no minutes were recorded. */
  function PorHora(q: int, minutos: int): (r: string)
    ensures minutos <= 0 ==> r == Zero2
  {
    if minutos > 0 then Fixed2(60 * q, minutos) else Zero2
  }

  lemma Fixed2Exemplos()
    ensures Fixed2(1, 8) == "0.13"
    ensures Fixed2(600, 90) == "6.67"
    ensures Fixed2(-1, 1000) == "-0.00"
  {
    assert Centesimos(1, 8) == 13;
    assert NatToString(0) == "0";
    assert Centesimos(600, 90) == 667;
    assert NatToString(6) == "6";
    assert Centesimos(-1, 1000) == 0;
  }
}
