/** The two mod-11 check-digit schemes of the Receita Federal: CPF (an
    individual's 11-digit number) and CNPJ (an organisation's 14-digit number).
    Each scheme is a specification (weighted sums defined by recursion, and a
    predicate over the cleaned digits) and a method whose loops follow
    `validarCPF`, `calc` and `validarCNPJ`, proved to compute exactly that predicate. */
module CheckDigits {
  import opened Digits

  // ---------------------------------------------------------------- CPF

  /** Σ d[i]·(top − i) over the first n positions of `d`. */
  function CpfSum(d: string, n: nat, top: int): int
    requires n <= |d| && AllDigits(d)
  {
    if n == 0 then 0
    else CpfSum(d, n - 1, top) + DigitValue(d[n - 1]) * (top - (n - 1))
  }

  /** The sum reads only the first n digits. */
  lemma {:induction false} CpfSumPrefix(a: string, b: string, n: nat, top: int)
    requires n <= |a| && n <= |b| && AllDigits(a) && AllDigits(b)
    requires a[..n] == b[..n]
    ensures CpfSum(a, n, top) == CpfSum(b, n, top)
  {
    if n > 0 {
      assert a[n - 1] == a[..n][n - 1] == b[..n][n - 1] == b[n - 1];
      assert a[..n - 1] == a[..n][..n - 1];
      assert b[..n - 1] == b[..n][..n - 1];
      CpfSumPrefix(a, b, n - 1, top);
    }
  }

  /** The CPF remainder rule: `(sum * 10) % 11`, with 10 folded to 0. The
      remainder is at most 10, so the test for 11 never succeeds. */
  function CpfCheckDigit(sum: int): (r: int)
    ensures 0 <= r <= 9
    ensures (sum * 10) % 11 <= 10
    ensures (sum * 10) % 11 != 10 ==> r == (sum * 10) % 11
    ensures (sum * 10) % 11 == 10 ==> r == 0
  {
    var resto := (sum * 10) % 11;
    if resto == 10 || resto == 11 then 0 else resto
  }

  /** What `validarCPF` accepts: after cleaning, 11 digits, not one digit
      repeated, and both check digits as the weighted sums demand. */
  predicate ValidCPF(s: string) {
    var c := CleanNumber(s);
    |c| == 11 && !RepeatedDigit(c)
    && CpfCheckDigit(CpfSum(c, 9, 10)) == DigitValue(c[9])
    && CpfCheckDigit(CpfSum(c, 10, 11)) == DigitValue(c[10])
  }

  /** The two check digits that complete a nine-digit CPF base. */
  function CpfCheckDigits(base: string): (r: string)
    requires |base| == 9 && AllDigits(base)
    ensures |r| == 2 && AllDigits(r)
  {
    var d1 := DigitChar(CpfCheckDigit(CpfSum(base, 9, 10)));
    var d2 := DigitChar(CpfCheckDigit(CpfSum(base + [d1], 10, 11)));
    [d1, d2]
  }

  /** `validarCPF`: the parameter is replaced by its cleaned form and the two
      sums are accumulated in two `for` loops. */
  method ValidarCPF(input: string) returns (ok: bool)
    ensures ok == ValidCPF(input)
  {
    var cpf := CleanNumber(input);
    if |cpf| != 11 || RepeatedDigit(cpf) {
      return false;
    }
    var soma := 0;
    for i := 0 to 9
      invariant soma == CpfSum(cpf, i, 10)
    {
      soma := soma + DigitValue(cpf[i]) * (10 - i);
    }
    var resto := (soma * 10) % 11;
    // `resto == 11` cannot hold: the remainder is at most 10 (CpfCheckDigit).
    if resto == 10 || resto == 11 {
      resto := 0;
    }
    if resto != DigitValue(cpf[9]) {
      return false;
    }
    soma := 0;
    for i := 0 to 10
      invariant soma == CpfSum(cpf, i, 11)
    {
      soma := soma + DigitValue(cpf[i]) * (11 - i);
    }
    resto := (soma * 10) % 11;
    if resto == 10 || resto == 11 {
      resto := 0;
    }
    ok := resto == DigitValue(cpf[10]);
  }

  /** Acceptance depends only on the cleaned input. */
  lemma ValidCPFOfClean(s: string)
    ensures ValidCPF(CleanNumber(s)) == ValidCPF(s)
  {
    CleanIdempotent(s);
  }

  /** A valid CPF is its first nine digits followed by the check digits they
      determine, and conversely (up to the repeated-digit rule). */
  lemma CpfCharacterization(s: string)
    ensures ValidCPF(s) <==>
      var c := CleanNumber(s);
      |c| == 11 && !RepeatedDigit(c) && c == c[..9] + CpfCheckDigits(c[..9])
  {
    var c := CleanNumber(s);
    if |c| == 11 {
      var base := c[..9];
      var d1 := DigitChar(CpfCheckDigit(CpfSum(base, 9, 10)));
      CpfSumPrefix(c, base, 9, 10);
      DigitCharValue(c[9]);
      DigitCharValue(c[10]);
      if d1 == c[9] {
        assert c[..10] == (base + [d1])[..10];
        CpfSumPrefix(c, base + [d1], 10, 11);
      }
      assert c == base + [c[9], c[10]];
    }
  }

  /** The first nine digits of a valid CPF determine the other two. */
  lemma CpfUnique(a: string, b: string)
    requires ValidCPF(a) && ValidCPF(b)
    requires CleanNumber(a)[..9] == CleanNumber(b)[..9]
    ensures CleanNumber(a) == CleanNumber(b)
  {
    CpfCharacterization(a);
    CpfCharacterization(b);
  }

  /** Completing any nine-digit base with its check digits gives an accepted
      CPF, unless the result is one digit repeated. */
  lemma CpfCompletion(base: string)
    requires |base| == 9 && AllDigits(base)
    ensures var c := base + CpfCheckDigits(base);
      ValidCPF(c) <==> !RepeatedDigit(c)
  {
    var c := base + CpfCheckDigits(base);
    assert AllDigits(c);
    assert CleanNumber(c) == c;
    assert c[..9] == base;
    CpfCharacterization(c);
  }

  /** The two weighted sums of "52998224725". */
  lemma CpfVectorValidSums(a: string)
    requires a == "52998224725"
    ensures AllDigits(a)
    ensures CpfSum(a, 9, 10) == 295 && CpfSum(a, 10, 11) == 347
  {
    assert AllDigits(a);
    assert CpfSum(a, 1, 10) == 50;
    assert CpfSum(a, 2, 10) == 68;
    assert CpfSum(a, 3, 10) == 140;
    assert CpfSum(a, 4, 10) == 203;
    assert CpfSum(a, 5, 10) == 251;
    assert CpfSum(a, 6, 10) == 261;
    assert CpfSum(a, 7, 10) == 269;
    assert CpfSum(a, 8, 10) == 281;
    assert CpfSum(a, 9, 10) == 295;
    assert CpfSum(a, 1, 11) == 55;
    assert CpfSum(a, 2, 11) == 75;
    assert CpfSum(a, 3, 11) == 156;
    assert CpfSum(a, 4, 11) == 228;
    assert CpfSum(a, 5, 11) == 284;
    assert CpfSum(a, 6, 11) == 296;
    assert CpfSum(a, 7, 11) == 306;
    assert CpfSum(a, 8, 11) == 322;
    assert CpfSum(a, 9, 11) == 343;
    assert CpfSum(a, 10, 11) == 347;
  }

  /** A known-valid CPF. */
  lemma CpfVectorValid(a: string)
    requires a == "52998224725"
    ensures ValidCPF(a)
  {
    CpfVectorValidSums(a);
    assert CleanNumber(a) == a && a[1] != a[0];
    assert CpfCheckDigit(295) == 2 && CpfCheckDigit(347) == 5;
    assert DigitValue(a[9]) == 2 && DigitValue(a[10]) == 5;
  }

  /** The two weighted sums of "11144477735". */
  lemma CpfVectorGoldenSums(a: string)
    requires a == "11144477735"
    ensures AllDigits(a)
    ensures CpfSum(a, 9, 10) == 162 && CpfSum(a, 10, 11) == 204
  {
    assert AllDigits(a);
    assert CpfSum(a, 1, 10) == 10;
    assert CpfSum(a, 2, 10) == 19;
    assert CpfSum(a, 3, 10) == 27;
    assert CpfSum(a, 4, 10) == 55;
    assert CpfSum(a, 5, 10) == 79;
    assert CpfSum(a, 6, 10) == 99;
    assert CpfSum(a, 7, 10) == 127;
    assert CpfSum(a, 8, 10) == 148;
    assert CpfSum(a, 9, 10) == 162;
    assert CpfSum(a, 1, 11) == 11;
    assert CpfSum(a, 2, 11) == 21;
    assert CpfSum(a, 3, 11) == 30;
    assert CpfSum(a, 4, 11) == 62;
    assert CpfSum(a, 5, 11) == 90;
    assert CpfSum(a, 6, 11) == 114;
    assert CpfSum(a, 7, 11) == 149;
    assert CpfSum(a, 8, 11) == 177;
    assert CpfSum(a, 9, 11) == 198;
    assert CpfSum(a, 10, 11) == 204;
  }

  /** The golden vector "11144477735" is accepted. */
  lemma CpfVectorGolden(a: string)
    requires a == "11144477735"
    ensures ValidCPF(a)
  {
    CpfVectorGoldenSums(a);
    assert CleanNumber(a) == a && a[3] != a[0];
    assert CpfCheckDigit(162) == 3 && CpfCheckDigit(204) == 5;
    assert DigitValue(a[9]) == 3 && DigitValue(a[10]) == 5;
  }

  /** The two weighted sums of "11111111111". */
  lemma CpfRepeatedSums(c: string)
    requires c == "11111111111"
    ensures AllDigits(c) && RepeatedDigit(c)
    ensures CpfSum(c, 9, 10) == 54 && CpfSum(c, 10, 11) == 65
  {
    assert AllDigits(c);
    assert CpfSum(c, 1, 10) == 10;
    assert CpfSum(c, 2, 10) == 19;
    assert CpfSum(c, 3, 10) == 27;
    assert CpfSum(c, 4, 10) == 34;
    assert CpfSum(c, 5, 10) == 40;
    assert CpfSum(c, 6, 10) == 45;
    assert CpfSum(c, 7, 10) == 49;
    assert CpfSum(c, 8, 10) == 52;
    assert CpfSum(c, 9, 10) == 54;
    assert CpfSum(c, 1, 11) == 11;
    assert CpfSum(c, 2, 11) == 21;
    assert CpfSum(c, 3, 11) == 30;
    assert CpfSum(c, 4, 11) == 38;
    assert CpfSum(c, 5, 11) == 45;
    assert CpfSum(c, 6, 11) == 51;
    assert CpfSum(c, 7, 11) == 56;
    assert CpfSum(c, 8, 11) == 60;
    assert CpfSum(c, 9, 11) == 63;
    assert CpfSum(c, 10, 11) == 65;
  }

  /** An input whose digits are one digit repeated is not a valid CPF. */
  lemma RepeatedRejected(s: string)
    ensures RepeatedDigit(CleanNumber(s)) ==> !ValidCPF(s)
  {
  }

  /** "11111111111" satisfies both check digits, yet the repeated-digit rule
      rejects it. */
  lemma CpfRepeatedRejected(c: string)
    requires c == "11111111111"
    ensures CpfCheckDigit(CpfSum(c, 9, 10)) == DigitValue(c[9])
    ensures CpfCheckDigit(CpfSum(c, 10, 11)) == DigitValue(c[10])
    ensures !ValidCPF(c)
  {
    CpfRepeatedSums(c);
    RepeatedRejected(c);
  }

  /** All zeros is rejected by the same rule. */
  lemma CpfZerosRejected(z: string)
    requires z == "00000000000"
    ensures !ValidCPF(z)
  {
    assert AllDigits(z) && RepeatedDigit(z);
    RepeatedRejected(z);
  }

  // --------------------------------------------------------------- CNPJ

  /** The weight of position k in `calc(x)`: the weights run 2, 3, …, 9, 2, 3, …
      from the rightmost of the x positions leftwards. */
  function CnpjWeight(x: int, k: int): (w: int)
    ensures 2 <= w <= 9
  {
    2 + (x - 1 - k) % 8
  }

  /** Σ d[k]·CnpjWeight(x, k) over the first n positions of `d`. */
  function CnpjSum(d: string, x: int, n: nat): int
    requires n <= |d| && AllDigits(d)
  {
    if n == 0 then 0
    else CnpjSum(d, x, n - 1) + DigitValue(d[n - 1]) * CnpjWeight(x, n - 1)
  }

  /** The sum reads only the first n digits. */
  lemma {:induction false} CnpjSumPrefix(a: string, b: string, x: int, n: nat)
    requires n <= |a| && n <= |b| && AllDigits(a) && AllDigits(b)
    requires a[..n] == b[..n]
    ensures CnpjSum(a, x, n) == CnpjSum(b, x, n)
  {
    if n > 0 {
      assert a[n - 1] == a[..n][n - 1] == b[..n][n - 1] == b[n - 1];
      assert a[..n - 1] == a[..n][..n - 1];
      assert b[..n - 1] == b[..n][..n - 1];
      CnpjSumPrefix(a, b, x, n - 1);
    }
  }

  /** The CNPJ remainder rule: `11 - s % 11`, forced to 0 when above 9. */
  function CnpjCheckDigit(s: int): (r: int)
    ensures 0 <= r <= 9
    ensures 11 - s % 11 <= 9 ==> r == 11 - s % 11
    ensures 11 - s % 11 > 9 ==> r == 0
  {
    var r := 11 - s % 11;
    if r > 9 then 0 else r
  }

  /** What `validarCNPJ` accepts: after cleaning, 14 digits, not one digit
      repeated, and `calc(12)`, `calc(13)` equal to the last two digits. */
  predicate ValidCNPJ(s: string) {
    var c := CleanNumber(s);
    |c| == 14 && !RepeatedDigit(c)
    && CnpjCheckDigit(CnpjSum(c, 12, 12)) == DigitValue(c[12])
    && CnpjCheckDigit(CnpjSum(c, 13, 13)) == DigitValue(c[13])
  }

  /** The two check digits that complete a twelve-digit CNPJ base. */
  function CnpjCheckDigits(base: string): (r: string)
    requires |base| == 12 && AllDigits(base)
    ensures |r| == 2 && AllDigits(r)
  {
    var d1 := DigitChar(CnpjCheckDigit(CnpjSum(base, 12, 12)));
    var d2 := DigitChar(CnpjCheckDigit(CnpjSum(base + [d1], 13, 13)));
    [d1, d2]
  }

  /** One step of the source's weight counter (`y--`, then back to 9 below 2)
      moves from the weight of position k to that of position k + 1. */
  lemma CnpjWeightStep(x: int, k: int)
    requires k < x
    ensures (if CnpjWeight(x, k) - 1 < 2 then 9 else CnpjWeight(x, k) - 1) == CnpjWeight(x, k + 1)
  {
    var m := x - 1 - k;
    assert m == 8 * (m / 8) + m % 8;
    if m % 8 == 0 {
      assert m - 1 == 8 * (m / 8 - 1) + 7;
    } else {
      assert m - 1 == 8 * (m / 8) + (m % 8 - 1);
    }
  }

  /** The weights of `calc(12)`. */
  lemma CnpjWeights12()
    ensures seq(12, k => CnpjWeight(12, k)) == [5, 4, 3, 2, 9, 8, 7, 6, 5, 4, 3, 2]
  {
  }

  /** `calc(x)`: the loop runs i from x down to 1 over `n = cnpj.substring(0, x)`,
      adding `n[x - i] * y--` and resetting y to 9 when it drops below 2. The
      source calls it with x = 12 and x = 13; for 9 <= x <= 16 the start weight
      x - 7 is the first weight of the 2..9 cycle. */
  method Calc(cnpj: string, x: int) returns (r: int)
    requires AllDigits(cnpj)
    requires 9 <= x <= 16 && x <= |cnpj|
    ensures 0 <= r <= 9
    ensures r == CnpjCheckDigit(CnpjSum(cnpj, x, x))
  {
    var n := cnpj[..x];
    var y := x - 7;
    var s := 0;
    var i := x;
    while i >= 1
      invariant 0 <= i <= x
      invariant y == CnpjWeight(x, x - i)
      invariant s == CnpjSum(cnpj, x, x - i)
    {
      CnpjWeightStep(x, x - i);
      s := s + DigitValue(n[x - i]) * y;
      y := y - 1;
      if y < 2 {
        y := 9;
      }
      i := i - 1;
    }
    r := 11 - s % 11;
    r := if r > 9 then 0 else r;
  }

  /** `validarCNPJ`: clean, reject wrong length or a repeated digit, then compare
      `calc(t)` and `calc(t + 1)` with the two trailing digits. */
  method ValidarCNPJ(input: string) returns (ok: bool)
    ensures ok == ValidCNPJ(input)
  {
    var cnpj := CleanNumber(input);
    if |cnpj| != 14 || RepeatedDigit(cnpj) {
      return false;
    }
    var t := |cnpj| - 2;
    var d := cnpj[t..];
    var d1 := DigitValue(d[0]);
    var d2 := DigitValue(d[1]);
    var r1 := Calc(cnpj, t);
    if r1 != d1 {
      return false;
    }
    var r2 := Calc(cnpj, t + 1);
    ok := r2 == d2;
  }

  /** Acceptance depends only on the cleaned input. */
  lemma ValidCNPJOfClean(s: string)
    ensures ValidCNPJ(CleanNumber(s)) == ValidCNPJ(s)
  {
    CleanIdempotent(s);
  }

  /** A valid CNPJ is its first twelve digits followed by the check digits they
      determine, and conversely (up to the repeated-digit rule). */
  lemma CnpjCharacterization(s: string)
    ensures ValidCNPJ(s) <==>
      var c := CleanNumber(s);
      |c| == 14 && !RepeatedDigit(c) && c == c[..12] + CnpjCheckDigits(c[..12])
  {
    var c := CleanNumber(s);
    if |c| == 14 {
      var base := c[..12];
      var d1 := DigitChar(CnpjCheckDigit(CnpjSum(base, 12, 12)));
      CnpjSumPrefix(c, base, 12, 12);
      DigitCharValue(c[12]);
      DigitCharValue(c[13]);
      if d1 == c[12] {
        assert c[..13] == (base + [d1])[..13];
        CnpjSumPrefix(c, base + [d1], 13, 13);
      }
      assert c == base + [c[12], c[13]];
    }
  }

  /** The first twelve digits of a valid CNPJ determine the other two. */
  lemma CnpjUnique(a: string, b: string)
    requires ValidCNPJ(a) && ValidCNPJ(b)
    requires CleanNumber(a)[..12] == CleanNumber(b)[..12]
    ensures CleanNumber(a) == CleanNumber(b)
  {
    CnpjCharacterization(a);
    CnpjCharacterization(b);
  }

  /** Completing any twelve-digit base with its check digits gives an accepted
      CNPJ, unless the result is one digit repeated. */
  lemma CnpjCompletion(base: string)
    requires |base| == 12 && AllDigits(base)
    ensures var c := base + CnpjCheckDigits(base);
      ValidCNPJ(c) <==> !RepeatedDigit(c)
  {
    var c := base + CnpjCheckDigits(base);
    assert AllDigits(c);
    assert CleanNumber(c) == c;
    assert c[..12] == base;
    CnpjCharacterization(c);
  }

  /** The two weighted sums of the CNPJ "11222333000181". */
  lemma CnpjVectorSums(a: string)
    requires a == "11222333000181"
    ensures AllDigits(a)
    ensures CnpjSum(a, 12, 12) == 102 && CnpjSum(a, 13, 13) == 120
  {
    assert AllDigits(a);
    assert CnpjSum(a, 12, 1) == 5;
    assert CnpjSum(a, 12, 2) == 9;
    assert CnpjSum(a, 12, 3) == 15;
    assert CnpjSum(a, 12, 4) == 19;
    assert CnpjSum(a, 12, 5) == 37;
    assert CnpjSum(a, 12, 6) == 61;
    assert CnpjSum(a, 12, 7) == 82;
    assert CnpjSum(a, 12, 8) == 100;
    assert CnpjSum(a, 12, 9) == 100;
    assert CnpjSum(a, 12, 10) == 100;
    assert CnpjSum(a, 12, 11) == 100;
    assert CnpjSum(a, 12, 12) == 102;
    assert CnpjSum(a, 13, 1) == 6;
    assert CnpjSum(a, 13, 2) == 11;
    assert CnpjSum(a, 13, 3) == 19;
    assert CnpjSum(a, 13, 4) == 25;
    assert CnpjSum(a, 13, 5) == 29;
    assert CnpjSum(a, 13, 6) == 56;
    assert CnpjSum(a, 13, 7) == 80;
    assert CnpjSum(a, 13, 8) == 101;
    assert CnpjSum(a, 13, 9) == 101;
    assert CnpjSum(a, 13, 10) == 101;
    assert CnpjSum(a, 13, 11) == 101;
    assert CnpjSum(a, 13, 12) == 104;
    assert CnpjSum(a, 13, 13) == 120;
  }

  /** A known-valid CNPJ. */
  lemma CnpjVectorValid(a: string)
    requires a == "11222333000181"
    ensures ValidCNPJ(a)
    ensures CnpjCheckDigit(CnpjSum(a, 13, 13)) == 1
  {
    CnpjVectorSums(a);
    assert CleanNumber(a) == a && a[2] != a[0];
    assert DigitValue(a[12]) == 8 && DigitValue(a[13]) == 1;
  }

  /** Changing the last digit of that CNPJ makes it invalid. */
  lemma CnpjVectorCorrupted(a: string, b: string)
    requires a == "11222333000181" && b == "11222333000180"
    ensures !ValidCNPJ(b)
  {
    CnpjVectorValid(a);
    assert AllDigits(b);
    assert CleanNumber(b) == b;
    assert a[..13] == b[..13];
    CnpjSumPrefix(a, b, 13, 13);
    assert DigitValue(b[13]) == 0;
  }
}
