/** Digit characters, the `cleanNumber` normaliser and the two digit-only
    regular expressions of the registration schema. */
module Digits {

  /** `\d` of a JavaScript regular expression without the `u` flag: ASCII 0-9 only. */
  predicate IsDigit(c: char) {
    '0' <= c <= '9'
  }

  predicate AllDigits(s: string) {
    forall i :: 0 <= i < |s| ==> IsDigit(s[i])
  }

  predicate NoDigits(s: string) {
    forall i :: 0 <= i < |s| ==> !IsDigit(s[i])
  }

  /** `parseInt` of a one-character digit string. */
  function DigitValue(c: char): (v: int)
    requires IsDigit(c)
    ensures 0 <= v <= 9
  {
    c as int - '0' as int
  }

  function DigitChar(v: int): (c: char)
    requires 0 <= v <= 9
    ensures IsDigit(c) && DigitValue(c) == v
  {
    ('0' as int + v) as char
  }

  lemma DigitCharValue(c: char)
    requires IsDigit(c)
    ensures DigitChar(DigitValue(c)) == c
  {
  }

  /** `value.replace(/\D/g, '')`: every character that is not a digit is removed. */
  function CleanNumber(s: string): (r: string)
    ensures AllDigits(r)
    ensures |r| <= |s|
    ensures AllDigits(s) ==> r == s
    ensures NoDigits(s) ==> r == ""
  {
    if s == [] then []
    else if IsDigit(s[0]) then [s[0]] + CleanNumber(s[1..])
    else CleanNumber(s[1..])
  }

  /** Cleaning distributes over concatenation: digits keep their relative order. */
  lemma {:induction false} CleanConcat(a: string, b: string)
    ensures CleanNumber(a + b) == CleanNumber(a) + CleanNumber(b)
  {
    if a == [] {
      assert a + b == b;
    } else {
      assert (a + b)[1..] == a[1..] + b;
      CleanConcat(a[1..], b);
    }
  }

  /** Normalising twice is normalising once. */
  lemma CleanIdempotent(s: string)
    ensures CleanNumber(CleanNumber(s)) == CleanNumber(s)
  {
  }

  /** The digit at position `i` of the input reappears in the output, right after
      the digits that precede it. */
  lemma CleanKeepsDigit(s: string, i: nat)
    requires i < |s| && IsDigit(s[i])
    ensures |CleanNumber(s[..i])| < |CleanNumber(s)|
    ensures CleanNumber(s)[|CleanNumber(s[..i])|] == s[i]
  {
    assert s == s[..i] + ([s[i]] + s[i + 1..]);
    CleanConcat(s[..i], [s[i]] + s[i + 1..]);
  }

  /** The cleaned value is empty exactly when the input holds no digit. */
  lemma CleanEmptyIff(s: string)
    ensures CleanNumber(s) == "" <==> NoDigits(s)
  {
    if !NoDigits(s) {
      var i :| 0 <= i < |s| && IsDigit(s[i]);
      CleanKeepsDigit(s, i);
    }
  }

  /** Inserting a non-digit anywhere (a mask separator such as '.', '-' or '/')
      does not change the normalised value. */
  lemma CleanIgnoresSeparator(a: string, c: char, b: string)
    requires !IsDigit(c)
    ensures CleanNumber(a + [c] + b) == CleanNumber(a + b)
  {
    CleanConcat(a + [c], b);
    CleanConcat(a, [c]);
    CleanConcat(a, b);
  }

  /** The usual written form of an individual's identifier, `000.000.000-00`. */
  function FormatCpf(n: string): (r: string)
    requires |n| == 11
    ensures |r| == 14
  {
    n[..3] + ("." + (n[3..6] + ("." + (n[6..9] + ("-" + n[9..])))))
  }

  /** A digit block followed by a separator: the block survives, the separator goes. */
  lemma CleanBlockThenSeparator(p: string, c: char, rest: string)
    requires AllDigits(p) && !IsDigit(c)
    ensures CleanNumber(p + ([c] + rest)) == p + CleanNumber(rest)
  {
    CleanConcat(p, [c] + rest);
  }

  /** Formatting an 11-digit identifier and normalising it gives it back. */
  lemma FormatCpfRoundTrip(n: string)
    requires |n| == 11 && AllDigits(n)
    ensures CleanNumber(FormatCpf(n)) == n
  {
    var p1, p2, p3, p4 := n[..3], n[3..6], n[6..9], n[9..];
    CleanBlockThenSeparator(p3, '-', p4);
    CleanBlockThenSeparator(p2, '.', p3 + ("-" + p4));
    CleanBlockThenSeparator(p1, '.', p2 + ("." + (p3 + ("-" + p4))));
    assert n[6..] == p3 + p4;
    assert n[3..] == p2 + n[6..];
    assert n == p1 + n[3..];
  }

  /** `/^\d{10,11}$/`: the phone pattern applied after cleaning. */
  predicate PhonePattern(s: string) {
    (|s| == 10 || |s| == 11) && AllDigits(s)
  }

  /** After cleaning, the phone pattern is a length test. */
  lemma PhonePatternOfClean(s: string)
    ensures PhonePattern(CleanNumber(s)) <==> 10 <= |CleanNumber(s)| <= 11
  {
  }

  /** `/^\d{5}-?\d{3}$/`: five digits, an optional hyphen, three digits. */
  predicate CepPattern(s: string) {
    (|s| == 8 && AllDigits(s))
    || (|s| == 9 && AllDigits(s[..5]) && s[5] == '-' && AllDigits(s[6..]))
  }

  /** A CEP that matches the pattern carries exactly eight digits, which
      cleaning recovers. */
  lemma CepPatternDigits(s: string)
    requires CepPattern(s)
    ensures |CleanNumber(s)| == 8
    ensures |s| == 8 ==> CleanNumber(s) == s
    ensures |s| == 9 ==> CleanNumber(s) == s[..5] + s[6..]
  {
    if |s| == 9 {
      assert s == s[..5] + ['-'] + s[6..];
      CleanIgnoresSeparator(s[..5], '-', s[6..]);
    }
  }

  /** `/^(\d)\1+$/`: one digit repeated, at least twice. */
  predicate RepeatedDigit(s: string) {
    |s| >= 2 && IsDigit(s[0]) && forall i :: 0 < i < |s| ==> s[i] == s[0]
  }

  /** The repeated-digit pattern: at least two characters, all digits, all equal. */
  lemma RepeatedDigitIff(s: string)
    ensures RepeatedDigit(s) <==>
      |s| >= 2 && AllDigits(s) && forall i, j :: 0 <= i < |s| && 0 <= j < |s| ==> s[i] == s[j]
  {
  }
}
