/** Decimal text of whole numbers, as JavaScript's `Number.prototype.toString`
    and `String.prototype.padStart(2, "0")` produce it, together with the
    reading-back function that serves as their inverse. */
module Decimal {

  predicate IsDigit(c: char) {
    '0' <= c <= '9'
  }

  predicate AllDigits(s: string) {
    forall i :: 0 <= i < |s| ==> IsDigit(s[i])
  }

  function DigitChar(d: nat): (c: char)
    requires d < 10
    ensures IsDigit(c) && c as int - '0' as int == d
  {
    ('0' as int + d) as char
  }

  /** `n.toString()` for a non-negative integer. */
  function NatToString(n: nat): (r: string)
    ensures AllDigits(r)
    ensures |r| >= 1
    ensures n < 10 <==> |r| == 1
    ensures n < 100 ==> |r| <= 2
    ensures |r| > 1 ==> r[0] != '0'
  {
    if n < 10 then [DigitChar(n)] else NatToString(n / 10) + [DigitChar(n % 10)]
  }

  /** `i.toString()` for any integer: a minus sign in front of negatives. */
  function IntToString(i: int): (r: string)
    ensures |r| >= 1
    ensures i >= 0 <==> IsDigit(r[0])
    ensures i < 0 ==> r[0] == '-'
    ensures i >= 0 ==> AllDigits(r) && ParseNat(r) == i && (|r| > 1 ==> r[0] != '0')
    ensures i < 0 ==> |r| >= 2 && AllDigits(r[1..]) && ParseNat(r[1..]) == -i && (|r| > 2 ==> r[1] != '0')
  {
    if i < 0 then
      ParseNatToString(-i);
      assert ("-" + NatToString(-i))[1..] == NatToString(-i);
      "-" + NatToString(-i)
    else
      ParseNatToString(i);
      NatToString(i)
  }

  /** The value of a string of decimal digits, leading zeros allowed. */
  function ParseNat(s: string): nat
    requires AllDigits(s)
  {
    if s == [] then 0 else ParseNat(s[..|s| - 1]) * 10 + (s[|s| - 1] as int - '0' as int)
  }

  /** Reading the decimal text back gives the number it was made from. */
  lemma {:induction false} ParseNatToString(n: nat)
    ensures ParseNat(NatToString(n)) == n
  {
    if n >= 10 {
      var s := NatToString(n);
      assert s[..|s| - 1] == NatToString(n / 10);
      ParseNatToString(n / 10);
    }
  }

  /** Distinct numbers have distinct decimal texts. */
  lemma NatToStringInjective(a: nat, b: nat)
    ensures NatToString(a) == NatToString(b) ==> a == b
  {
    ParseNatToString(a);
    ParseNatToString(b);
  }

  /** Distinct integers have distinct decimal texts, signs included. */
  lemma IntToStringInjective(a: int, b: int)
    ensures IntToString(a) == IntToString(b) ==> a == b
  {
    if IntToString(a) == IntToString(b) {
      if a < 0 && b < 0 {
        assert NatToString(-a) == IntToString(a)[1..];
        assert NatToString(-b) == IntToString(b)[1..];
        NatToStringInjective(-a, -b);
      } else if a >= 0 && b >= 0 {
        NatToStringInjective(a, b);
      }
    }
  }

  /** `s.padStart(2, "0")`: zeros are put in front until the text is two
      characters long; longer text is left alone. */
  function PadStart2(s: string): (r: string)
    ensures |r| == if |s| >= 2 then |s| else 2
    ensures r[|r| - |s|..] == s
    ensures forall i :: 0 <= i < |r| - |s| ==> r[i] == '0'
  {
    if |s| >= 2 then s else if |s| == 1 then "0" + s else "00"
  }

  /** Leading zeros do not change the value read back. */
  lemma {:induction false} ParseNatLeadingZero(s: string)
    requires AllDigits(s)
    ensures AllDigits("0" + s) && ParseNat("0" + s) == ParseNat(s)
  {
    if s != [] {
      assert ("0" + s)[..|s|] == "0" + s[..|s| - 1];
      ParseNatLeadingZero(s[..|s| - 1]);
    }
  }

  /** Padding with zeros keeps the digits and their value. */
  lemma {:induction false} ParseNatPadStart2(s: string)
    requires AllDigits(s)
    ensures AllDigits(PadStart2(s)) && ParseNat(PadStart2(s)) == ParseNat(s)
  {
    if |s| == 1 {
      ParseNatLeadingZero(s);
    } else if |s| == 0 {
      ParseNatLeadingZero("");
      ParseNatLeadingZero("0");
    }
  }

  /** The text `n.toString().padStart(2, "0")`: at least two digits,
      exactly two below 100, reading back as `n`. */
  lemma PaddedNat(n: nat)
    ensures var p := PadStart2(NatToString(n));
      |p| >= 2 && AllDigits(p) && ParseNat(p) == n && (n < 100 ==> |p| == 2)
  {
    ParseNatPadStart2(NatToString(n));
    ParseNatToString(n);
  }
}
