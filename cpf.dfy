/** The CPF (Brazilian individual taxpayer number) validator of validacao.js:
    digit stripping, the length and denylist gate, and the two modulo-11 check
    digits, modelled as the script computes them. */
module Cpf {

  /** A character matched by the pattern \d: an ASCII decimal digit. */
  predicate IsDigit(c: char) {
    '0' <= c <= '9'
  }

  predicate AllDigits(s: string) {
    forall i :: 0 <= i < |s| ==> IsDigit(s[i])
  }

  /** The number a one-digit string converts to under JavaScript's loose equality
      and multiplication. */
  function DigitValue(c: char): (v: int)
    requires IsDigit(c)
    ensures 0 <= v <= 9
  {
    c as int - '0' as int
  }

  /** The digit character of a value 0..9. */
  function DigitChar(v: int): (c: char)
    requires 0 <= v <= 9
    ensures IsDigit(c) && DigitValue(c) == v
  {
    ('0' as int + v) as char
  }

  // ---------------------------------------------------------------------------
  // Digit stripping: value.replace(/\D/g, "")
  // ---------------------------------------------------------------------------

  /** Drops every character that is not a digit and keeps the digits in order. */
  function StripNonDigits(s: string): (r: string)
    ensures AllDigits(r)
    ensures |r| <= |s|
  {
    if s == [] then []
    else (if IsDigit(s[0]) then [s[0]] else []) + StripNonDigits(s[1..])
  }

  /** Stripping works piece by piece: the digits of a + b are those of a, then those of b. */
  lemma {:induction false} StripAppend(a: string, b: string)
    ensures StripNonDigits(a + b) == StripNonDigits(a) + StripNonDigits(b)
  {
    if a == [] {
      assert a + b == b;
    } else {
      assert (a + b)[0] == a[0];
      assert (a + b)[1..] == a[1..] + b;
      StripAppend(a[1..], b);
    }
  }

  /** A string made of digits only is left as it is. */
  lemma {:induction false} StripKeepsDigits(s: string)
    requires AllDigits(s)
    ensures StripNonDigits(s) == s
  {
    if s != [] {
      StripKeepsDigits(s[1..]);
    }
  }

  /** Stripping twice is stripping once. */
  lemma StripIdempotent(s: string)
    ensures StripNonDigits(StripNonDigits(s)) == StripNonDigits(s)
  {
    StripKeepsDigits(StripNonDigits(s));
  }

  // ---------------------------------------------------------------------------
  // Length and denylist gate: checaCPFRepetido
  // ---------------------------------------------------------------------------

  /** The fixed list of numbers refused outright: the ten repeated-digit strings
      and 12345678910. */
  const Denylist: seq<string> := [
    "00000000000",
    "11111111111",
    "22222222222",
    "33333333333",
    "44444444444",
    "55555555555",
    "66666666666",
    "77777777777",
    "88888888888",
    "99999999999",
    "12345678910"
  ]

  /** Walks the denylist and clears the flag on a listed string, and on every
      entry that differs from a string whose length is not 11. */
  method CheckNotRepeated(cpf: string) returns (valid: bool)
    ensures valid <==> |cpf| == 11 && cpf !in Denylist
  {
    valid := true;
    for i := 0 to |Denylist|
      invariant valid <==> cpf !in Denylist[..i] && (i == 0 || |cpf| == 11)
    {
      assert Denylist[..i + 1] == Denylist[..i] + [Denylist[i]];
      if Denylist[i] == cpf {
        valid := false;
      } else if |cpf| != 11 {
        valid := false;
      }
    }
    assert Denylist[..|Denylist|] == Denylist;
  }

  /** Every listed string has 11 characters, so only the 11-character strings
      outside the list pass the gate. */
  lemma DenylistEntriesHaveElevenDigits(s: string)
    requires s in Denylist
    ensures |s| == 11 && AllDigits(s)
  {
  }

  // ---------------------------------------------------------------------------
  // Check digits: checaEstruturaCPF, checaDigitoVerificador, confirmaDigito
  // ---------------------------------------------------------------------------

  /** The sum of ds[i] * (top - i) over the digits of ds, accumulated left to right. */
  function WeightedSum(ds: string, top: int): (r: int)
    requires AllDigits(ds)
    ensures top >= |ds| ==> r >= 0
  {
    if ds == [] then 0
    else WeightedSum(ds[..|ds| - 1], top) + DigitValue(ds[|ds| - 1]) * (top - (|ds| - 1))
  }

  /** One more digit adds one more weighted term. */
  lemma WeightedSumStep(ds: string, top: int, k: nat)
    requires AllDigits(ds) && k < |ds|
    ensures WeightedSum(ds[..k + 1], top) == WeightedSum(ds[..k], top) + DigitValue(ds[k]) * (top - k)
  {
    assert ds[..k + 1][..k] == ds[..k];
  }

  /** The value confirmaDigito returns: 11 minus the remainder of the sum by 11.
      It is never mapped to 0, so it is always at least 1 and can be 10 or 11. */
  function ConfirmDigit(soma: int): (r: int)
    requires soma >= 0
    ensures 1 <= r <= 11
    ensures (soma + r) % 11 == 0
  {
    RemainderComplementCancels(soma);
    11 - soma % 11
  }

  /** Adding 11 minus the remainder brings the sum up to the next multiple of 11. */
  lemma RemainderComplementCancels(soma: int)
    requires soma >= 0
    ensures (soma + (11 - soma % 11)) % 11 == 0
  {
    var q := soma / 11;
    assert soma + (11 - soma % 11) == 11 * (q + 1);
  }

  /** The check digit at index m - 1 agrees with the sum of the m - 1 digits before
      it weighted m, m - 1, ..., 2. */
  predicate CheckDigitMatches(cpf: string, m: int)
    requires AllDigits(cpf) && 2 <= m <= |cpf|
    ensures CheckDigitMatches(cpf, m) ==> cpf[m - 1] != '0'
    ensures CheckDigitMatches(cpf, m) ==> WeightedSum(cpf[..m - 1], m) % 11 >= 2
  {
    DigitValue(cpf[m - 1]) == ConfirmDigit(WeightedSum(cpf[..m - 1], m))
  }

  /** checaDigitoVerificador: sums the first multiplicador - 1 digits with the
      weights multiplicador down to 2, compares the next digit with the confirmed
      digit, and on a match goes on with the next multiplier until it reaches 12. */
  method CheckDigitsFrom(cpf: string, multiplicador: int) returns (ok: bool)
    requires AllDigits(cpf) && |cpf| == 11 && 2 <= multiplicador
    ensures ok <==> forall m :: multiplicador <= m <= 11 ==> CheckDigitMatches(cpf, m)
    decreases 12 - multiplicador
  {
    if multiplicador >= 12 {
      return true;
    }
    var multiplicadorInicial := multiplicador;
    var soma := 0;
    var cpfSemDigitos := cpf[..multiplicador - 1];
    var digitoVerificador := cpf[multiplicador - 1];
    var contador := 0;
    while multiplicadorInicial > 1
      invariant 1 <= multiplicadorInicial <= multiplicador
      invariant contador + multiplicadorInicial == multiplicador
      invariant soma == WeightedSum(cpfSemDigitos[..contador], multiplicador)
    {
      WeightedSumStep(cpfSemDigitos, multiplicador, contador);
      soma := soma + DigitValue(cpfSemDigitos[contador]) * multiplicadorInicial;
      contador := contador + 1;
      multiplicadorInicial := multiplicadorInicial - 1;
    }
    assert cpfSemDigitos[..contador] == cpfSemDigitos;
    assert CheckDigitMatches(cpf, multiplicador) <==> DigitValue(digitoVerificador) == ConfirmDigit(soma);
    if DigitValue(digitoVerificador) == ConfirmDigit(soma) {
      ok := CheckDigitsFrom(cpf, multiplicador + 1);
    } else {
      ok := false;
    }
  }

  /** checaEstruturaCPF: both check digits, starting from multiplier 10. */
  method CheckStructure(cpf: string) returns (ok: bool)
    requires AllDigits(cpf) && |cpf| == 11
    ensures ok <==> CheckDigitMatches(cpf, 10) && CheckDigitMatches(cpf, 11)
  {
    ok := CheckDigitsFrom(cpf, 10);
  }

  /** What validaCPF accepts: the digits of the value pass the gate and both
      check digits. The check digits are looked at only when the gate passes. */
  predicate CpfAccepted(value: string)
    ensures CpfAccepted(value) ==> |StripNonDigits(value)| == 11
    ensures CpfAccepted(value) ==>
      StripNonDigits(value)[9] != '0' && StripNonDigits(value)[10] != '0'
  {
    var digits := StripNonDigits(value);
    |digits| == 11 && digits !in Denylist
    && CheckDigitMatches(digits, 10) && CheckDigitMatches(digits, 11)
  }

  /** The verdict depends on the digits alone: formatting characters are ignored. */
  lemma CpfAcceptedIgnoresFormatting(value: string)
    ensures CpfAccepted(StripNonDigits(value)) == CpfAccepted(value)
  {
    StripIdempotent(value);
  }

  /** Inserting separators anywhere does not change the verdict. */
  lemma CpfAcceptedIgnoresSeparator(a: string, sep: string, b: string)
    requires forall i :: 0 <= i < |sep| ==> !IsDigit(sep[i])
    ensures CpfAccepted(a + sep + b) == CpfAccepted(a + b)
  {
    StripAppend(a + sep, b);
    StripAppend(a, sep);
    StripAppend(a, b);
    StripOfNonDigits(sep);
    assert StripNonDigits(a + sep) == StripNonDigits(a);
    assert StripNonDigits(a + sep + b) == StripNonDigits(a + b);
  }

  lemma {:induction false} StripOfNonDigits(s: string)
    requires forall i :: 0 <= i < |s| ==> !IsDigit(s[i])
    ensures StripNonDigits(s) == []
  {
    if s != [] {
      StripOfNonDigits(s[1..]);
    }
  }

  /** The sum for the first check digit, written out: weights 10 down to 2 over
      the first nine digits. */
  lemma FirstCheckDigitFormula(cpf: string)
    requires AllDigits(cpf) && |cpf| == 11
    ensures CheckDigitMatches(cpf, 10) <==>
      DigitValue(cpf[9]) == 11 - (10 * DigitValue(cpf[0]) + 9 * DigitValue(cpf[1])
        + 8 * DigitValue(cpf[2]) + 7 * DigitValue(cpf[3]) + 6 * DigitValue(cpf[4])
        + 5 * DigitValue(cpf[5]) + 4 * DigitValue(cpf[6]) + 3 * DigitValue(cpf[7])
        + 2 * DigitValue(cpf[8])) % 11
  {
    FirstCheckDigitSum(cpf);
  }

  /** The sum for the second check digit, written out: weights 11 down to 2 over
      the first ten digits, the first check digit included. */
  lemma SecondCheckDigitFormula(cpf: string)
    requires AllDigits(cpf) && |cpf| == 11
    ensures CheckDigitMatches(cpf, 11) <==>
      DigitValue(cpf[10]) == 11 - (11 * DigitValue(cpf[0]) + 10 * DigitValue(cpf[1])
        + 9 * DigitValue(cpf[2]) + 8 * DigitValue(cpf[3]) + 7 * DigitValue(cpf[4])
        + 6 * DigitValue(cpf[5]) + 5 * DigitValue(cpf[6]) + 4 * DigitValue(cpf[7])
        + 3 * DigitValue(cpf[8]) + 2 * DigitValue(cpf[9])) % 11
  {
    SecondCheckDigitSum(cpf);
  }

  /** Because confirmaDigito never yields 0, a check digit 0 is never accepted,
      and neither is any digit when the confirmed value is 10 or 11. */
  lemma ZeroCheckDigitRejected(cpf: string, m: int)
    requires AllDigits(cpf) && 2 <= m <= |cpf|
    ensures cpf[m - 1] == '0' ==> !CheckDigitMatches(cpf, m)
    ensures ConfirmDigit(WeightedSum(cpf[..m - 1], m)) >= 10 ==> !CheckDigitMatches(cpf, m)
  {
  }

  // ---------------------------------------------------------------------------
  // The published check-digit rule, for comparison
  // ---------------------------------------------------------------------------

  /** The check digit of the published CPF rule: remainders 0 and 1 give 0,
      any other remainder r gives 11 - r. */
  function StandardCheckDigit(soma: int): (r: int)
    requires soma >= 0
    ensures 0 <= r <= 9
    ensures r != 0 ==> (soma + r) % 11 == 0
    ensures r == 0 ==> soma % 11 <= 1
  {
    RemainderComplementCancels(soma);
    if soma % 11 < 2 then 0 else 11 - soma % 11
  }

  predicate StandardCheckDigitMatches(cpf: string, m: int)
    requires AllDigits(cpf) && 2 <= m <= |cpf|
  {
    DigitValue(cpf[m - 1]) == StandardCheckDigit(WeightedSum(cpf[..m - 1], m))
  }

  /** The validator with the published rule in place of confirmaDigito. */
  predicate StandardCpfAccepted(value: string) {
    var digits := StripNonDigits(value);
    |digits| == 11 && digits !in Denylist
    && StandardCheckDigitMatches(digits, 10) && StandardCheckDigitMatches(digits, 11)
  }

  /** With the published rule every nine-digit base has a pair of check digits:
      this completion passes both checks, and CompleteUnique shows it is the only one. */
  function Complete(base: string): (cpf: string)
    requires |base| == 9 && AllDigits(base)
    ensures |cpf| == 11 && AllDigits(cpf) && cpf[..9] == base
    ensures StandardCheckDigitMatches(cpf, 10) && StandardCheckDigitMatches(cpf, 11)
  {
    var first := base + [DigitChar(StandardCheckDigit(WeightedSum(base, 10)))];
    var cpf := first + [DigitChar(StandardCheckDigit(WeightedSum(first, 11)))];
    assert cpf[..9] == base && cpf[..10] == first;
    cpf
  }

  /** The completion is the only 11-digit number on a given base that passes both
      checks of the published rule. */
  lemma CompleteUnique(base: string, cpf: string)
    requires |base| == 9 && AllDigits(base)
    requires |cpf| == 11 && AllDigits(cpf) && cpf[..9] == base
    requires StandardCheckDigitMatches(cpf, 10) && StandardCheckDigitMatches(cpf, 11)
    ensures cpf == Complete(base)
  {
    var c := Complete(base);
    assert cpf[..9] == c[..9];
    assert DigitValue(cpf[9]) == DigitValue(c[9]);
    assert cpf[9] == c[9];
    assert cpf[..10] == c[..10] by {
      assert cpf[..10] == cpf[..9] + [cpf[9]];
      assert c[..10] == c[..9] + [c[9]];
    }
    assert DigitValue(cpf[10]) == DigitValue(c[10]);
    assert cpf[10] == c[10];
    assert cpf == cpf[..10] + [cpf[10]] && c == c[..10] + [c[10]];
  }

  /** The script accepts exactly the numbers the published rule accepts whose two
      check digits are both non-zero. */
  lemma AsWrittenIsStandardWithoutZeros(value: string)
    ensures CpfAccepted(value) <==>
      StandardCpfAccepted(value)
      && StripNonDigits(value)[9] != '0' && StripNonDigits(value)[10] != '0'
  {
  }

  /** 123.456.789-09 is a valid CPF under the published rule, but its first check
      digit is 0, which confirmaDigito can never produce, so the script rejects it
      however it is formatted. */
  lemma AsWrittenRejectsValidCpf(value: string)
    requires StripNonDigits(value) == "12345678909"
    ensures StandardCpfAccepted(value)
    ensures !CpfAccepted(value)
  {
    var digits := StripNonDigits(value);
    assert DigitValue(digits[0]) == 1 && DigitValue(digits[1]) == 2 && DigitValue(digits[2]) == 3;
    assert DigitValue(digits[3]) == 4 && DigitValue(digits[4]) == 5 && DigitValue(digits[5]) == 6;
    assert DigitValue(digits[6]) == 7 && DigitValue(digits[7]) == 8 && DigitValue(digits[8]) == 9;
    assert DigitValue(digits[9]) == 0 && DigitValue(digits[10]) == 9;
    assert WeightedSum(digits[..9], 10) == 210 by {
      FirstCheckDigitSum(digits);
    }
    assert WeightedSum(digits[..10], 11) == 255 by {
      SecondCheckDigitSum(digits);
    }
    assert !CheckDigitMatches(digits, 10);
    assert StandardCheckDigitMatches(digits, 10) && StandardCheckDigitMatches(digits, 11);
  }

  /** 111.444.777-35 has non-zero check digits and passes the script's checks. */
  lemma AsWrittenAcceptsValidCpf(value: string)
    requires StripNonDigits(value) == "11144477735"
    ensures CpfAccepted(value) && StandardCpfAccepted(value)
  {
    var digits := StripNonDigits(value);
    assert DigitValue(digits[0]) == 1 && DigitValue(digits[1]) == 1 && DigitValue(digits[2]) == 1;
    assert DigitValue(digits[3]) == 4 && DigitValue(digits[4]) == 4 && DigitValue(digits[5]) == 4;
    assert DigitValue(digits[6]) == 7 && DigitValue(digits[7]) == 7 && DigitValue(digits[8]) == 7;
    assert DigitValue(digits[9]) == 3 && DigitValue(digits[10]) == 5;
    assert WeightedSum(digits[..9], 10) == 162 by {
      FirstCheckDigitSum(digits);
    }
    assert WeightedSum(digits[..10], 11) == 204 by {
      SecondCheckDigitSum(digits);
    }
    assert digits !in Denylist;
  }

  /** Under the script's rule no number starting 123456789 is accepted at all:
      its first sum leaves remainder 1, so confirmaDigito gives 10. */
  lemma AsWrittenBaseWithoutCompletion(cpf: string)
    requires |cpf| == 11 && AllDigits(cpf) && cpf[..9] == "123456789"
    ensures !CpfAccepted(cpf)
  {
    StripKeepsDigits(cpf);
    assert WeightedSum(cpf[..9], 10) == 210 by {
      FirstCheckDigitSum(cpf);
    }
  }

  lemma FirstCheckDigitSum(cpf: string)
    requires AllDigits(cpf) && |cpf| == 11
    ensures WeightedSum(cpf[..9], 10) == 10 * DigitValue(cpf[0]) + 9 * DigitValue(cpf[1])
        + 8 * DigitValue(cpf[2]) + 7 * DigitValue(cpf[3]) + 6 * DigitValue(cpf[4])
        + 5 * DigitValue(cpf[5]) + 4 * DigitValue(cpf[6]) + 3 * DigitValue(cpf[7])
        + 2 * DigitValue(cpf[8])
  {
    assert cpf[..0] == [];
    WeightedSumStep(cpf, 10, 0);
    WeightedSumStep(cpf, 10, 1);
    WeightedSumStep(cpf, 10, 2);
    WeightedSumStep(cpf, 10, 3);
    WeightedSumStep(cpf, 10, 4);
    WeightedSumStep(cpf, 10, 5);
    WeightedSumStep(cpf, 10, 6);
    WeightedSumStep(cpf, 10, 7);
    WeightedSumStep(cpf, 10, 8);
  }

  lemma SecondCheckDigitSum(cpf: string)
    requires AllDigits(cpf) && |cpf| == 11
    ensures WeightedSum(cpf[..10], 11) == 11 * DigitValue(cpf[0]) + 10 * DigitValue(cpf[1])
        + 9 * DigitValue(cpf[2]) + 8 * DigitValue(cpf[3]) + 7 * DigitValue(cpf[4])
        + 6 * DigitValue(cpf[5]) + 5 * DigitValue(cpf[6]) + 4 * DigitValue(cpf[7])
        + 3 * DigitValue(cpf[8]) + 2 * DigitValue(cpf[9])
  {
    assert cpf[..0] == [];
    WeightedSumStep(cpf, 11, 0);
    WeightedSumStep(cpf, 11, 1);
    WeightedSumStep(cpf, 11, 2);
    WeightedSumStep(cpf, 11, 3);
    WeightedSumStep(cpf, 11, 4);
    WeightedSumStep(cpf, 11, 5);
    WeightedSumStep(cpf, 11, 6);
    WeightedSumStep(cpf, 11, 7);
    WeightedSumStep(cpf, 11, 8);
    WeightedSumStep(cpf, 11, 9);
  }
}
