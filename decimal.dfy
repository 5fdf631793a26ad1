/** Decimal digit strings and the natural numbers they denote. */
module Decimal {

  predicate IsDigit(c: char) {
    '0' <= c <= '9'
  }

  predicate AllDigits(s: string) {
    forall i :: 0 <= i < |s| ==> IsDigit(s[i])
  }

  function DigitChar(d: nat): (c: char)
    requires d < 10
    ensures IsDigit(c) && c as int - '0' as int == d
  {
    ('0' as int + d) as char
  }

  /** The number a digit string denotes, read most significant digit first. */
  function Value(s: string): nat
    requires AllDigits(s)
  {
    if s == [] then 0 else Value(s[..|s| - 1]) * 10 + (s[|s| - 1] as int - '0' as int)
  }

  /** A digit string with no superfluous leading zero ("0" itself is canonical). */
  predicate Canonical(s: string) {
    |s| > 0 && AllDigits(s) && (s[0] == '0' ==> |s| == 1)
  }

  /** The decimal text of `n`: canonical digits, most significant first. */
  function FromNat(n: nat): (s: string)
    ensures Canonical(s)
  {
    if n < 10 then [DigitChar(n)] else FromNat(n / 10) + [DigitChar(n % 10)]
  }

  /** Reading back the text of `n` gives `n`. */
  lemma {:induction false} ValueFromNat(n: nat)
    ensures Value(FromNat(n)) == n
  {
    if n >= 10 {
      var s := FromNat(n);
      assert s[..|s| - 1] == FromNat(n / 10);
      ValueFromNat(n / 10);
    }
  }

  /** `s` without its superfluous leading zeros. */
  function StripZeros(s: string): (r: string)
    requires |s| > 0 && AllDigits(s)
    ensures Canonical(r) && |r| <= |s| && r == s[|s| - |r|..]
    decreases |s|
  {
    if |s| > 1 && s[0] == '0' then StripZeros(s[1..]) else s
  }

  /** A leading zero does not change the value. */
  lemma {:induction false} ValueLeadingZero(t: string)
    requires AllDigits(t)
    ensures Value("0" + t) == Value(t)
    decreases |t|
  {
    if t != [] {
      var s := "0" + t;
      assert s[..|s| - 1] == "0" + t[..|t| - 1];
      ValueLeadingZero(t[..|t| - 1]);
    }
  }

  /** A canonical string of two or more digits denotes at least 10. */
  lemma {:induction false} ValueCanonicalLong(s: string)
    requires Canonical(s)
    ensures Value(s) > 0 || s == "0"
    ensures |s| > 1 ==> Value(s) >= 10
    decreases |s|
  {
    if |s| > 1 {
      var p := s[..|s| - 1];
      ValueCanonicalLong(p);
      assert p != "0" by { assert p[0] == s[0]; }
    }
  }

  /** Writing back the value of a canonical string gives the string itself. */
  lemma {:induction false} FromNatValue(s: string)
    requires Canonical(s)
    ensures FromNat(Value(s)) == s
    decreases |s|
  {
    if |s| > 1 {
      var p := s[..|s| - 1];
      var d := s[|s| - 1] as int - '0' as int;
      ValueCanonicalLong(s);
      assert p[0] == s[0];
      FromNatValue(p);
      assert Value(s) / 10 == Value(p) && Value(s) % 10 == d;
      assert s == p + [s[|s| - 1]];
    }
  }

  /** The value of a digit string is the value of its canonical form. */
  lemma {:induction false} ValueStripZeros(s: string)
    requires |s| > 0 && AllDigits(s)
    ensures Value(StripZeros(s)) == Value(s)
    decreases |s|
  {
    if |s| > 1 && s[0] == '0' {
      assert s == "0" + s[1..];
      ValueLeadingZero(s[1..]);
      ValueStripZeros(s[1..]);
    }
  }

  /** Number-to-text after text-to-number drops exactly the leading zeros. */
  lemma FromNatValueStrips(s: string)
    requires |s| > 0 && AllDigits(s)
    ensures FromNat(Value(s)) == StripZeros(s)
  {
    ValueStripZeros(s);
    FromNatValue(StripZeros(s));
  }

  /** "007" and "7" are both digit strings denoting 7. */
  lemma ValueOfZeroPadded()
    ensures AllDigits("007") && AllDigits("7")
    ensures Value("007") == 7 && Value("7") == 7
  {
    assert "7"[..0] == "";
    assert "007" == "0" + "07" && "07" == "0" + "7";
    ValueLeadingZero("07");
    ValueLeadingZero("7");
  }
}
