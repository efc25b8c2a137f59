/** Decoding of product codes (frontend/src/pages/Relatorios.jsx, lines
    371-414): the tool identifier `LLL-DDD` / `LL-DDDD`, the finished length
    read from offset 8, and the case- and punctuation-insensitive lookup in a
    lot's original fields. */
module CodeParser {
  import opened Base
  import opened Text

  // ---------------------------------------------------------------------------
  // Tool identifier

  /** `[A-Z0-9]`, on an upper-cased string. */
  predicate IsAlnum(c: char) { IsUpper(c) || IsDigit(c) }

  /** The longest prefix of `s` made of `[A-Z0-9]` (greedy `[A-Z0-9]+`). */
  function AlnumRun(s: string): (r: string)
    ensures |r| <= |s| && r == s[..|r|]
    ensures forall i :: 0 <= i < |r| ==> IsAlnum(r[i])
    ensures |r| < |s| ==> !IsAlnum(s[|r|])
  {
    if |s| > 0 && IsAlnum(s[0]) then [s[0]] + AlnumRun(s[1..]) else ""
  }

  /** What one of the two patterns captured: the letter prefix, the
      alphanumeric run after it, and the number of digits the tool code needs. */
  datatype Casamento = Casamento(letras: string, resto: string, qtd: nat)

  /** `/^([A-Z]{3})([A-Z0-9]+)/`, tried first, then `/^([A-Z]{2})([A-Z0-9]+)/`. */
  function Casar(s: string): (m: Option<Casamento>)
    ensures m.Some? ==> (m.value.qtd == 3 && |m.value.letras| == 3) || (m.value.qtd == 4 && |m.value.letras| == 2)
    ensures m.Some? ==> forall i :: 0 <= i < |m.value.letras| ==> IsUpper(m.value.letras[i])
    ensures m.Some? ==> m.value.resto != ""
    ensures m.None? <==> !(|s| >= 3 && IsUpper(s[0]) && IsUpper(s[1]) && IsAlnum(s[2]))
    ensures (m.Some? && m.value.qtd == 3) <==> |s| >= 4 && IsUpper(s[0]) && IsUpper(s[1]) && IsUpper(s[2]) && IsAlnum(s[3])
    ensures m.Some? && m.value.qtd == 3 ==> m.value.letras == s[..3] && m.value.resto == AlnumRun(s[3..])
    ensures m.Some? && m.value.qtd == 4 ==> m.value.letras == s[..2] && m.value.resto == AlnumRun(s[2..])
  {
    if |s| >= 4 && IsUpper(s[0]) && IsUpper(s[1]) && IsUpper(s[2]) && IsAlnum(s[3]) then
      Some(Casamento(s[..3], AlnumRun(s[3..]), 3))
    else if |s| >= 3 && IsUpper(s[0]) && IsUpper(s[1]) && IsAlnum(s[2]) then
      Some(Casamento(s[..2], AlnumRun(s[2..]), 4))
    else None
  }

  /** The OCR correction: a letter `O` read where a digit belongs is `0`. */
  function CorrigirOcr(c: char): (d: char)
    ensures c == 'O' ==> d == '0'
    ensures c != 'O' ==> d == c
  {
    if c == 'O' then '0' else c
  }

  /** What the scan takes from one character: a digit, an `O` corrected to
      `0`, or nothing. */
  function Leitura(c: char): (r: string)
    ensures |r| <= 1 && AllDigits(r)
    ensures |r| == 1 <==> IsDigit(c) || c == 'O'
  {
    if IsDigit(c) || c == 'O' then [CorrigirOcr(c)] else ""
  }

  /** All the digits the scan would take from `s`, with no stopping. */
  function Digitos(s: string): (r: string)
    ensures AllDigits(r) && |r| <= |s|
  {
    if |s| == 0 then "" else Leitura(s[0]) + Digitos(s[1..])
  }

  lemma {:induction false} DigitosConcat(a: string, b: string)
    ensures Digitos(a + b) == Digitos(a) + Digitos(b)
    decreases |a|
  {
    if |a| == 0 {
      assert a + b == b;
    } else {
      assert (a + b)[1..] == a[1..] + b;
      DigitosConcat(a[1..], b);
    }
  }

  /** Reading one more character appends what that character reads as. */
  lemma DigitosPasso(s: string, i: nat)
    requires i < |s|
    ensures Digitos(s[..i + 1]) == Digitos(s[..i]) + Leitura(s[i])
  {
    DigitosConcat(s[..i], [s[i]]);
    assert s[..i + 1] == s[..i] + [s[i]];
    assert Digitos([s[i]]) == Leitura(s[i]) by {
      assert [s[i]][1..] == "";
    }
  }

  /** The digit part: the first `qtd` digits read, right-padded with `0`. */
  function Numeros(resto: string, qtd: nat): (r: string)
    ensures |r| == qtd && AllDigits(r)
  {
    var d := Digitos(resto);
    PadEnd(if |d| >= qtd then d[..qtd] else d, qtd, '0')
  }

  /** `extrairFerramenta(produto)`, as a function of the product code. */
  function Ferramenta(produto: string): (r: string)
  {
    if produto == "" then ""
    else
      match Casar(ToUpper(produto))
      case None => ""
      case Some(m) => m.letras + "-" + Numeros(m.resto, m.qtd)
  }

  /** A tool identifier of one of the two fixed-width shapes. */
  predicate FormatoFerramenta(r: string) {
    |r| == 7 &&
    ((IsUpper(r[0]) && IsUpper(r[1]) && IsUpper(r[2]) && r[3] == '-' && AllDigits(r[4..])) ||
     (IsUpper(r[0]) && IsUpper(r[1]) && r[2] == '-' && AllDigits(r[3..])))
  }

  /** The scan of lines 406-412: digits (and `O` as `0`) are appended to the
      buffer until it holds `qtd` of them; a short buffer is padded with `0`. */
  method LerNumeros(resto: string, qtd: nat) returns (nums: string)
    requires qtd > 0
    ensures nums == Numeros(resto, qtd)
  {
    nums := "";
    var i := 0;
    while i < |resto|
      invariant 0 <= i <= |resto|
      invariant nums == Digitos(resto[..i]) && |nums| < qtd
    {
      var ch := resto[i];
      if IsDigit(ch) {
        nums := nums + [ch];
      } else if ch == 'O' {
        nums := nums + "0";
      }
      DigitosPasso(resto, i);
      i := i + 1;
      if |nums| == qtd {
        break;
      }
    }
    DigitosConcat(resto[..i], resto[i..]);
    assert resto == resto[..i] + resto[i..];
    if |nums| < qtd {
      assert i == |resto| && resto[i..] == "";
      nums := PadEnd(nums, qtd, '0');
    } else {
      assert Digitos(resto)[..qtd] == nums;
    }
  }

  /** `extrairFerramenta` (lines 392-414). */
  method ExtrairFerramenta(produto: string) returns (r: string)
    ensures r == Ferramenta(produto)
    ensures r == "" || FormatoFerramenta(r)
    ensures r == "" <==> produto == "" || Casar(ToUpper(produto)).None?
  {
    if produto == "" {
      return "";
    }
    var s := ToUpper(produto);
    var m := Casar(s);
    if m.None? {
      return "";
    }
    var nums := LerNumeros(m.value.resto, m.value.qtd);
    r := m.value.letras + "-" + nums;
    FerramentaFormato(produto);
  }

  /** Every result is empty or of the shape `LLL-DDD` / `LL-DDDD`, so every
      non-empty result has length 7; it is empty exactly when neither pattern
      matches. */
  lemma FerramentaFormato(produto: string)
    ensures var r := Ferramenta(produto);
      (r == "" || FormatoFerramenta(r)) &&
      (r == "" <==> produto == "" || Casar(ToUpper(produto)).None?)
  {
    var r := Ferramenta(produto);
    if produto != "" && Casar(ToUpper(produto)).Some? {
      var m := Casar(ToUpper(produto)).value;
      var n := Numeros(m.resto, m.qtd);
      assert r == m.letras + "-" + n;
      if m.qtd == 3 {
        assert r[4..] == n;
      } else {
        assert r[3..] == n;
      }
    }
  }

  /** The digit part holds the first `qtd` digits of the run after the
      prefix, reading `O` as `0` and skipping every other letter; when the run
      has fewer, the rest is `0`. */
  lemma {:induction false} NumerosLidos(resto: string, qtd: nat, k: nat)
    requires k < qtd
    ensures k < |Digitos(resto)| ==> Numeros(resto, qtd)[k] == Digitos(resto)[k]
    ensures k >= |Digitos(resto)| ==> Numeros(resto, qtd)[k] == '0'
  {
    var d := Digitos(resto);
    if |d| >= qtd {
      assert Numeros(resto, qtd) == d[..qtd];
    } else {
      assert Numeros(resto, qtd) == PadEnd(d, qtd, '0');
    }
  }

  /** A prefix of `[A-Z0-9]` characters is part of the greedy run. */
  lemma {:induction false} AlnumRunPrefixo(s: string, n: nat)
    requires n <= |s| && forall i :: 0 <= i < n ==> IsAlnum(s[i])
    ensures |AlnumRun(s)| >= n
  {
    if n > 0 {
      AlnumRunPrefixo(s[1..], n - 1);
    }
  }

  /** A string of digits is read as it is. */
  lemma {:induction false} DigitosDeDigitos(s: string)
    requires AllDigits(s)
    ensures Digitos(s) == s
  {
    if |s| > 0 {
      DigitosDeDigitos(s[1..]);
      assert s == [s[0]] + s[1..];
    }
  }

  /** Upper-casing leaves capitals and digits as they are. */
  lemma MaiusculasIntactas(p: string, n: nat)
    requires n <= |p| && forall i :: 0 <= i < n ==> IsUpper(p[i]) || IsDigit(p[i])
    ensures ToUpper(p)[..n] == p[..n]
  {
    var u := ToUpper(p);
    forall i | 0 <= i < n ensures u[i] == p[i] {
      assert !IsLower(p[i]);
    }
  }

  /** The digit part of a run that starts with `qtd` digits is those digits. */
  lemma NumerosDoPrefixo(resto: string, qtd: nat)
    requires qtd <= |resto| && AllDigits(resto[..qtd])
    ensures Numeros(resto, qtd) == resto[..qtd]
  {
    assert resto == resto[..qtd] + resto[qtd..];
    DigitosConcat(resto[..qtd], resto[qtd..]);
    DigitosDeDigitos(resto[..qtd]);
  }

  /** Three capitals then three digits (`ABC1234x`) give `ABC-123`: the scan
      stops after the third digit. */
  lemma FerramentaTresLetras(p: string)
    requires |p| >= 6
    requires forall i :: 0 <= i < 3 ==> IsUpper(p[i])
    requires forall i :: 3 <= i < 6 ==> IsDigit(p[i])
    ensures Ferramenta(p) == p[..3] + "-" + p[3..6]
  {
    MaiusculasIntactas(p, 6);
    var u := ToUpper(p);
    assert u[..3] == p[..3] && u[3..][..3] == p[3..6];
    var resto := AlnumRun(u[3..]);
    AlnumRunPrefixo(u[3..], 3);
    assert resto[..3] == p[3..6];
    NumerosDoPrefixo(resto, 3);
    assert Casar(u) == Some(Casamento(u[..3], resto, 3));
  }

  /** Two capitals then four digits (`AB1234`) give `AB-1234`. */
  lemma FerramentaDuasLetras(p: string)
    requires |p| >= 6
    requires forall i :: 0 <= i < 2 ==> IsUpper(p[i])
    requires forall i :: 2 <= i < 6 ==> IsDigit(p[i])
    ensures Ferramenta(p) == p[..2] + "-" + p[2..6]
  {
    MaiusculasIntactas(p, 6);
    var u := ToUpper(p);
    assert u[..2] == p[..2] && u[2..][..4] == p[2..6];
    assert !IsUpper(u[2]);
    var resto := AlnumRun(u[2..]);
    AlnumRunPrefixo(u[2..], 4);
    assert resto[..4] == p[2..6];
    NumerosDoPrefixo(resto, 4);
    assert Casar(u) == Some(Casamento(u[..2], resto, 4));
  }

  /** Three capitals followed by anything but `[A-Z0-9]` (`ABC-123`) give
      `AB-0000`: the three-letter pattern needs an alphanumeric fourth
      character, so the two-letter one takes the third capital as its run,
      which holds no digit. */
  lemma FerramentaTresLetrasSemSequencia(p: string)
    requires |p| >= 3
    requires forall i :: 0 <= i < 3 ==> IsUpper(p[i])
    requires |p| == 3 || !IsAlnum(UpperChar(p[3]))
    ensures Ferramenta(p) == p[..2] + "-0000"
  {
    CasarTresLetras(p);
    NumerosDeUmaLetra(p[2]);
  }

  /** Three letters and no fourth alphanumeric character match the second
      pattern, with the third letter as the whole sequence part. */
  lemma CasarTresLetras(p: string)
    requires |p| >= 3
    requires forall i :: 0 <= i < 3 ==> IsUpper(p[i])
    requires |p| == 3 || !IsAlnum(UpperChar(p[3]))
    ensures Casar(ToUpper(p)) == Some(Casamento(p[..2], [p[2]], 4))
  {
    MaiusculasIntactas(p, 3);
    var u := ToUpper(p);
    assert u[..2] == p[..2] && u[2] == p[2];
    var resto := AlnumRun(u[2..]);
    assert resto == [p[2]] by {
      assert u[2..][0] == p[2];
      if |p| > 3 {
        assert u[2..][1] == UpperChar(p[3]);
      }
      assert AlnumRun(u[2..][1..]) == "";
    }
  }

  /** A single letter gives no digit, so the sequence is all padding. */
  lemma NumerosDeUmaLetra(c: char)
    requires IsUpper(c)
    ensures Numeros([c], 4) == "0000"
  {
    assert Digitos([c]) == Leitura(c) by {
      assert [c][1..] == "";
    }
    var n := Numeros([c], 4);
    forall i | 0 <= i < 4 ensures n[i] == '0' {
      NumerosLidos([c], 4, i);
    }
  }

  // ---------------------------------------------------------------------------
  // Finished length

  /** `extrairComprimentoAcabado` (lines 384-390): the integer that starts at
      offset 8 of the code, followed by " mm". */
  function ExtrairComprimentoAcabado(produto: string): (r: string)
    ensures r == "" <==> produto == "" || |produto| <= 8 || !IsDigit(produto[8])
  {
    if produto == "" then ""
    else
      var resto := if |produto| > 8 then produto[8..] else "";
      var m := LeadingDigits(resto);
      if m == "" then "" else NatToString(DigitsValue(m)) + " mm"
  }

  /** A non-empty length is the decimal value of the digit run at offset 8,
      written without leading zeros, then " mm". */
  lemma ComprimentoValor(produto: string)
    requires ExtrairComprimentoAcabado(produto) != ""
    ensures var r := ExtrairComprimentoAcabado(produto);
      var n := r[..|r| - 3];
      |r| > 3 && r[|r| - 3..] == " mm" && AllDigits(n) && (n[0] == '0' ==> n == "0") &&
      DigitsValue(n) == DigitsValue(LeadingDigits(produto[8..]))
  {
    var v := DigitsValue(LeadingDigits(produto[8..]));
    var r := ExtrairComprimentoAcabado(produto);
    assert r == NatToString(v) + " mm";
    assert r[..|r| - 3] == NatToString(v);
    DigitsValueOfNatToString(v);
  }

  lemma DigitsExemplo()
    ensures DigitsValue("0850") == 850
  {
    assert "0850"[..3] == "085" && "085"[..2] == "08" && "08"[..1] == "0" && "0"[..0] == "";
  }

  lemma ComprimentoExemplos()
    ensures ExtrairComprimentoAcabado("ABCDEFGH0850X") == "850 mm"
    ensures ExtrairComprimentoAcabado("SHORT") == ""
    ensures ExtrairComprimentoAcabado("ABC1234x") == ""
  {
    ComprimentoExemplo850();
  }

  lemma ComprimentoExemplo850()
    ensures ExtrairComprimentoAcabado("ABCDEFGH0850X") == "850 mm"
  {
    var s := "ABCDEFGH0850X";
    assert s[8..] == "0850X";
    assert LeadingDigits("0850X") == "0850";
    DigitsExemplo();
    assert NatToString(850) == "850";
  }

  // ---------------------------------------------------------------------------
  // Original fields of a lot

  /** `String(k).toLowerCase().replace(/[^a-z0-9]/g, '')`. */
  function NormalizarChave(k: string): (r: string)
    ensures forall i :: 0 <= i < |r| ==> IsLower(r[i]) || IsDigit(r[i])
    ensures |r| <= |k|
  {
    if |k| == 0 then ""
    else
      var c := LowerChar(k[0]);
      (if IsLower(c) || IsDigit(c) then [c] else "") + NormalizarChave(k[1..])
  }

  /** One character: a lower-case letter or a digit is kept, an upper-case
      letter becomes its lower-case form, anything else is dropped. */
  lemma NormalizarCaractere(c: char)
    ensures IsLower(c) || IsDigit(c) ==> NormalizarChave([c]) == [c]
    ensures IsUpper(c) ==> NormalizarChave([c]) == [LowerChar(c)] && IsLower(LowerChar(c))
    ensures !IsUpper(c) && !IsLower(c) && !IsDigit(c) ==> NormalizarChave([c]) == ""
  {
    assert [c][1..] == "";
  }

  /** A name already made of lower-case letters and digits is its own
      normal form. */
  lemma {:induction false} NormalizarMantem(k: string)
    requires forall i :: 0 <= i < |k| ==> IsLower(k[i]) || IsDigit(k[i])
    ensures NormalizarChave(k) == k
  {
    if |k| > 0 {
      NormalizarMantem(k[1..]);
      assert k == [k[0]] + k[1..];
    }
  }

  /** A name with no letter and no digit normalises to nothing. */
  lemma {:induction false} NormalizarDescarta(k: string)
    requires forall i :: 0 <= i < |k| ==> !IsUpper(k[i]) && !IsLower(k[i]) && !IsDigit(k[i])
    ensures NormalizarChave(k) == ""
  {
    if |k| > 0 {
      NormalizarDescarta(k[1..]);
    }
  }

  /** Upper- and lower-case spellings normalise alike. */
  lemma {:induction false} NormalizarIgnoraCaixa(k: string)
    ensures NormalizarChave(ToUpper(k)) == NormalizarChave(k)
    ensures NormalizarChave(ToLower(k)) == NormalizarChave(k)
  {
    if |k| > 0 {
      assert ToUpper(k)[1..] == ToUpper(k[1..]);
      assert ToLower(k)[1..] == ToLower(k[1..]);
      NormalizarIgnoraCaixa(k[1..]);
    }
  }

  /** `getCampoOriginalLote` (lines 372-382): the value of the first original
      field (in key order) whose normalised name equals the normalised `campo`,
      or "" when none does. */
  function GetCampoOriginalLote(dados: seq<(string, string)>, campo: string): (r: string)
    ensures (forall i :: 0 <= i < |dados| ==> NormalizarChave(dados[i].0) != NormalizarChave(campo)) ==> r == ""
    ensures forall i :: (0 <= i < |dados| && NormalizarChave(dados[i].0) == NormalizarChave(campo)
      && (forall k :: 0 <= k < i ==> NormalizarChave(dados[k].0) != NormalizarChave(campo))) ==> r == dados[i].1
  {
    if |dados| == 0 then ""
    else if NormalizarChave(dados[0].0) == NormalizarChave(campo) then dados[0].1
    else
      assert forall i :: 1 <= i < |dados| ==> dados[i] == dados[1..][i - 1];
      GetCampoOriginalLote(dados[1..], campo)
  }

  /** The normalised name of a concatenation is the concatenation of the
      normalised names. */
  lemma {:induction false} NormalizarConcat(a: string, b: string)
    ensures NormalizarChave(a + b) == NormalizarChave(a) + NormalizarChave(b)
    decreases |a|
  {
    if |a| == 0 {
      assert a + b == b;
    } else {
      assert (a + b)[0] == a[0];
      assert (a + b)[1..] == a[1..] + b;
      NormalizarConcat(a[1..], b);
    }
  }

  /** A space or punctuation mark anywhere in a field name is ignored
      (`PRODUTO ` and `Produto` name the same field). */
  lemma NormalizarIgnoraSeparador(a: string, c: char, b: string)
    requires !IsLower(LowerChar(c)) && !IsDigit(LowerChar(c))
    ensures NormalizarChave(a + [c] + b) == NormalizarChave(a + b)
  {
    NormalizarConcat(a + [c], b);
    NormalizarConcat(a, [c]);
    NormalizarConcat(a, b);
    assert NormalizarChave([c]) == "" by {
      assert [c][1..] == "";
    }
  }
}
