/** The two conversions of Go's strconv package the core relies on:
    Atoi (project-identifier classification) and FormatInt (the per_page value). */
module Strconv {
  import opened Wrappers

  const MinInt64: int := -0x8000_0000_0000_0000
  const MaxInt64: int := 0x7fff_ffff_ffff_ffff

  predicate IsDigit(c: char) { '0' <= c <= '9' }

  predicate AllDigits(s: string) { forall i :: 0 <= i < |s| ==> IsDigit(s[i]) }

  function DigitValue(c: char): nat
    requires IsDigit(c)
  {
    (c as int) - ('0' as int)
  }

  function DigitChar(d: nat): (c: char)
    requires d < 10
    ensures IsDigit(c) && DigitValue(c) == d
  {
    (('0' as int) + d) as char
  }

  /** The value of a run of decimal digits, most significant digit first. */
  function DigitsValue(s: string): nat
    requires AllDigits(s)
    decreases |s|
  {
    if s == [] then 0 else DigitsValue(s[..|s| - 1]) * 10 + DigitValue(s[|s| - 1])
  }

  /** Appending a digit multiplies the value so far by ten and adds the digit. */
  lemma DigitsValueAppend(s: string, c: char)
    requires AllDigits(s) && IsDigit(c)
    ensures AllDigits(s + [c]) && DigitsValue(s + [c]) == DigitsValue(s) * 10 + DigitValue(c)
  {
    assert (s + [c])[..|s + [c]| - 1] == s;
  }

  /** True when s has the syntax Atoi accepts: an optional '+' or '-'
      followed by one or more ASCII digits. */
  predicate IntegerSyntax(s: string)
  {
    var digits := UnsignedPart(s);
    digits != [] && AllDigits(digits)
  }

  function UnsignedPart(s: string): string
  {
    if |s| > 0 && (s[0] == '+' || s[0] == '-') then s[1..] else s
  }

  /** The value an integer literal denotes: its digits, negated after a '-'. */
  function SignedValue(s: string): int
    requires IntegerSyntax(s)
  {
    var magnitude: int := DigitsValue(UnsignedPart(s));
    if s[0] == '-' then -magnitude else magnitude
  }

  /** strconv.Atoi on a 64-bit platform: None models a non-nil error, which
      is returned both for a syntax error and for a value out of range. */
  function Atoi(s: string): (r: Option<int>)
    ensures r.Some? <==> IntegerSyntax(s) && MinInt64 <= SignedValue(s) <= MaxInt64
    ensures r.Some? ==> r.value == SignedValue(s)
  {
    if !IntegerSyntax(s) then None
    else if MinInt64 <= SignedValue(s) <= MaxInt64 then Some(SignedValue(s))
    else None
  }

  /** Decimal digits of n without leading zeros. */
  function FormatNat(n: nat): (s: string)
    ensures |s| > 0 && AllDigits(s)
    ensures s[0] == '0' ==> n == 0
    decreases n
  {
    if n < 10 then [DigitChar(n)] else FormatNat(n / 10) + [DigitChar(n % 10)]
  }

  /** strconv.FormatInt(n, 10). */
  function FormatInt(n: int): string
  {
    if n < 0 then "-" + FormatNat(-n) else FormatNat(n)
  }

  lemma {:induction false} DigitsValueFormatNat(n: nat)
    ensures DigitsValue(FormatNat(n)) == n
  {
    if n >= 10 {
      DigitsValueFormatNat(n / 10);
      var s := FormatNat(n);
      assert s[..|s| - 1] == FormatNat(n / 10);
    }
  }

  /** Atoi reads back what FormatInt writes, for every 64-bit integer. */
  lemma AtoiFormatInt(n: int)
    requires MinInt64 <= n <= MaxInt64
    ensures Atoi(FormatInt(n)) == Some(n)
  {
    var s := FormatInt(n);
    if n < 0 {
      assert UnsignedPart(s) == FormatNat(-n);
      DigitsValueFormatNat(-n);
    } else {
      assert UnsignedPart(s) == FormatNat(n);
      DigitsValueFormatNat(n);
    }
  }

  /** A character that is not a digit, anywhere after an optional leading
      sign, makes Atoi fail. */
  lemma AtoiRejectsNonDigit(s: string, i: nat)
    requires i < |s| && !IsDigit(s[i])
    requires i > 0 || (s[0] != '+' && s[0] != '-')
    ensures Atoi(s) == None
  {
    var u := UnsignedPart(s);
    if |s| > 0 && (s[0] == '+' || s[0] == '-') {
      assert u[i - 1] == s[i];
    } else {
      assert u[i] == s[i];
    }
  }

  /** A non-empty run of digits whose value fits in int64 is accepted as is. */
  lemma AtoiAcceptsDigits(s: string)
    requires s != [] && AllDigits(s) && DigitsValue(s) <= MaxInt64
    ensures Atoi(s) == Some(DigitsValue(s))
  {
    assert UnsignedPart(s) == s;
  }

  /** A sign ("" , "+" or "-") followed by a non-empty run of digits whose
      signed value fits in int64 is accepted, with that value; so such an
      entry is never a slug. */
  lemma AtoiAcceptsSigned(sign: string, digits: string)
    requires sign == "" || sign == "+" || sign == "-"
    requires digits != [] && AllDigits(digits)
    requires MinInt64 <= (if sign == "-" then -(DigitsValue(digits) as int) else DigitsValue(digits) as int) <= MaxInt64
    ensures Atoi(sign + digits) == Some(if sign == "-" then -(DigitsValue(digits) as int) else DigitsValue(digits) as int)
  {
    assert UnsignedPart(sign + digits) == digits;
  }

  /** A lone sign, and the empty string, are syntax errors. */
  lemma AtoiRejectsBareSign()
    ensures Atoi("") == None && Atoi("+") == None && Atoi("-") == None
  {
    assert UnsignedPart("+") == [];
    assert UnsignedPart("-") == [];
  }
}
