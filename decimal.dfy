/** Decimal text of integer-valued numbers, as JavaScript prints a number in a
    template literal (`${n}`), together with its inverse. */
module Decimal {

  predicate IsDigit(c: char) {
    '0' <= c <= '9'
  }

  function DigitChar(d: nat): (c: char)
    requires d < 10
    ensures IsDigit(c) && DigitValue(c) == d
  {
    ('0' as int + d) as char
  }

  function DigitValue(c: char): (d: nat)
    ensures d < 10
  {
    if IsDigit(c) then c as int - '0' as int else 0
  }

  /** Digits as JavaScript prints a non-negative integer: at least one, and
      no leading zero unless the number is zero itself. */
  predicate IsCanonicalNat(s: string) {
    |s| >= 1 && (forall i :: 0 <= i < |s| ==> IsDigit(s[i])) && (|s| > 1 ==> s[0] != '0')
  }

  /** An integer as JavaScript prints it: canonical digits, or a minus sign
      followed by the canonical digits of a non-zero number. */
  predicate IsCanonicalInt(s: string) {
    IsCanonicalNat(s) || (|s| >= 2 && s[0] == '-' && IsCanonicalNat(s[1..]) && s[1] != '0')
  }

  /** Shortest decimal digits of `n`, most significant first. */
  function NatToString(n: nat): (s: string)
    ensures IsCanonicalNat(s)
    ensures s[0] == '0' <==> n == 0
  {
    if n < 10 then [DigitChar(n)] else NatToString(n / 10) + [DigitChar(n % 10)]
  }

  function ParseNat(s: string): nat
  {
    if |s| == 0 then 0 else ParseNat(s[..|s| - 1]) * 10 + DigitValue(s[|s| - 1])
  }

  lemma {:induction false} ParseNatToString(n: nat)
    ensures ParseNat(NatToString(n)) == n
  {
    if n >= 10 {
      var s := NatToString(n);
      assert s[..|s| - 1] == NatToString(n / 10);
      ParseNatToString(n / 10);
    }
  }

  /** `String(i)` for an integer value: a minus sign for negatives, then
      digits without leading zeros. */
  function IntToString(i: int): (s: string)
    ensures |s| >= 1
    ensures s[0] == '-' <==> i < 0
    ensures forall k :: 0 <= k < |s| ==> IsDigit(s[k]) || (k == 0 && s[k] == '-')
    ensures i >= 0 ==> s == "0" || s[0] != '0'
    ensures i < 0 ==> |s| > 1 && s[1] != '0'
    ensures IsCanonicalInt(s)
  {
    if i < 0 then "-" + NatToString(-i) else NatToString(i)
  }

  function ParseInt(s: string): int
  {
    if |s| > 0 && s[0] == '-' then -(ParseNat(s[1..]) as int) else ParseNat(s)
  }

  /** The printed number reads back as the number itself. */
  lemma ParseIntToString(i: int)
    ensures ParseInt(IntToString(i)) == i
  {
    if i < 0 {
      assert IntToString(i)[1..] == NatToString(-i);
      ParseNatToString(-i);
    } else {
      ParseNatToString(i);
    }
  }

  /** Distinct numbers print differently. */
  lemma IntToStringInjective(a: int, b: int)
    requires IntToString(a) == IntToString(b)
    ensures a == b
  {
    ParseIntToString(a);
    ParseIntToString(b);
  }

  /** Canonical digits are exactly what `NatToString` prints for their value. */
  lemma {:induction false} CanonicalNatIsPrinted(s: string)
    requires IsCanonicalNat(s)
    ensures NatToString(ParseNat(s)) == s
  {
    var last := s[|s| - 1];
    assert DigitChar(DigitValue(last)) == last;
    if |s| == 1 {
      assert s == [last];
    } else {
      var prefix := s[..|s| - 1];
      assert prefix[0] == s[0] != '0';
      CanonicalNatIsPrinted(prefix);
      var m := ParseNat(prefix);
      assert m != 0;
      var n := m * 10 + DigitValue(last);
      assert n / 10 == m && n % 10 == DigitValue(last);
      assert s == prefix + [last];
    }
  }

  /** The printed form of an integer is the only canonical string that reads
      back as that integer. */
  lemma CanonicalIntIsPrinted(s: string)
    requires IsCanonicalInt(s)
    ensures IntToString(ParseInt(s)) == s
  {
    if IsCanonicalNat(s) && s[0] != '-' {
      CanonicalNatIsPrinted(s);
    } else {
      var digits := s[1..];
      CanonicalNatIsPrinted(digits);
      assert NatToString(ParseNat(digits))[0] == s[1];
      assert s == "-" + digits;
    }
  }
}
