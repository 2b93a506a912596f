/**
 * Decimal integers as text: the subset of Go's strconv.ParseInt(s, 10, 64)
 * that the annotation parser relies on, and the decimal rendering that
 * fmt's "%d" verb produces for the positional suffixes of endpoint names.
 */
module Decimal {
  import opened Wrappers

  const MinInt64: int := -0x8000_0000_0000_0000
  const MaxInt64: int := 0x7FFF_FFFF_FFFF_FFFF

  predicate IsDigit(c: char) { '0' <= c <= '9' }

  predicate AllDigits(s: string) { forall i :: 0 <= i < |s| ==> IsDigit(s[i]) }

  function DigitChar(d: nat): (c: char)
    requires d < 10
    ensures IsDigit(c) && (c as int) - ('0' as int) == d
  {
    (('0' as int) + d) as char
  }

  /** The value of a string of decimal digits, most significant digit first. */
  function DigitsValue(s: string): nat
    requires AllDigits(s)
  {
    if s == [] then 0
    else DigitsValue(s[..|s| - 1]) * 10 + ((s[|s| - 1] as int) - ('0' as int))
  }

  /** The shortest decimal rendering of n, as "%d" prints it. */
  function NatToDecimal(n: nat): (r: string)
    ensures |r| > 0 && AllDigits(r)
    ensures |r| > 1 ==> r[0] != '0'
  {
    if n < 10 then [DigitChar(n)] else NatToDecimal(n / 10) + [DigitChar(n % 10)]
  }

  /** The rendering of a signed integer, as "%d" and strconv.FormatInt print it. */
  function IntToDecimal(n: int): string
  {
    if n < 0 then "-" + NatToDecimal(-n) else NatToDecimal(n)
  }

  /**
   * strconv.ParseInt(s, 10, 64): an optional '+' or '-' followed by one or
   * more decimal digits whose value fits in 64-bit two's complement.
   */
  function ParseInt64(s: string): (r: Option<int>)
    ensures r.Some? ==> MinInt64 <= r.value <= MaxInt64
    ensures s == [] ==> r.None?
  {
    var negative := |s| > 0 && s[0] == '-';
    var body := if |s| > 0 && (s[0] == '-' || s[0] == '+') then s[1..] else s;
    if body == [] || !AllDigits(body) then None
    else
      var magnitude: int := DigitsValue(body);
      var n: int := if negative then -magnitude else magnitude;
      if MinInt64 <= n <= MaxInt64 then Some(n) else None
  }

  /** s is the sign text sign followed by the digit run digits. */
  predicate SignedDigits(s: string, sign: string, digits: string)
  {
    (sign == "" || sign == "+" || sign == "-") && s == sign + digits && digits != [] && AllDigits(digits)
  }

  /** The value a sign and a digit run denote. */
  function SignedValue(sign: string, digits: string): int
    requires AllDigits(digits)
  {
    var magnitude: int := DigitsValue(digits);
    if sign == "-" then -magnitude else magnitude
  }

  /**
   * ParseInt64 accepts exactly the texts made of an optional sign and a
   * non-empty digit run whose signed value is an int64, and returns that value.
   */
  lemma ParseInt64Meaning(s: string)
    ensures ParseInt64(s).Some? <==>
      exists sign, digits :: SignedDigits(s, sign, digits) && MinInt64 <= SignedValue(sign, digits) <= MaxInt64
    ensures forall sign, digits :: SignedDigits(s, sign, digits) && MinInt64 <= SignedValue(sign, digits) <= MaxInt64 ==>
      ParseInt64(s) == Some(SignedValue(sign, digits))
  {
    forall sign, digits | SignedDigits(s, sign, digits) && MinInt64 <= SignedValue(sign, digits) <= MaxInt64
      ensures ParseInt64(s) == Some(SignedValue(sign, digits))
    {
      if sign == "" {
        assert s == digits && IsDigit(s[0]);
      } else {
        assert s[0] == sign[0] && s[1..] == digits;
      }
    }
    if ParseInt64(s).Some? {
      if s[0] == '-' || s[0] == '+' {
        assert SignedDigits(s, s[..1], s[1..]) && s[..1] == [s[0]];
      } else {
        assert SignedDigits(s, "", s) && "" + s == s;
      }
    }
  }

  /** The texts strconv.ParseInt rejects or reads in base 10, on a few inputs. */
  /** Text that is not an optionally signed digit run is refused. */
  lemma ParseInt64RejectsMalformed()
    ensures ParseInt64("abc").None? && ParseInt64("+").None? && ParseInt64("-").None?
    ensures ParseInt64("1.5").None? && ParseInt64(" 1").None? && ParseInt64("1 ").None? && ParseInt64("1_000").None?
  {
    assert !IsDigit("abc"[0]) && !IsDigit("1.5"[1]) && !IsDigit(" 1"[0]) && !IsDigit("1 "[1]) && !IsDigit("1_000"[1]);
  }

  /** A sign and leading zeros are accepted. */
  lemma ParseInt64AcceptsSigned()
    ensures ParseInt64("+42") == Some(42) && ParseInt64("-7") == Some(-7) && ParseInt64("007") == Some(7)
  {
    assert "+42"[1..] == "42" && "-7"[1..] == "7";
    assert DigitsValue("42") == 42 && DigitsValue("7") == 7 && DigitsValue("007") == 7;
  }

  /** Twenty nines are beyond the int64 range. */
  lemma ParseInt64RejectsOverflow()
    ensures ParseInt64("99999999999999999999").None?
  {
    var nines := "99999999999999999999";
    assert forall i | 0 <= i < |nines| :: nines[i] == '9';
    LongRunsRejected("", nines);
    assert "" + nines == nines;
  }

  function Pow10(k: nat): nat
  {
    if k == 0 then 1 else 10 * Pow10(k - 1)
  }

  /** A digit run without a leading zero is worth at least 10^(length - 1). */
  lemma {:induction false} DigitsValueLowerBound(s: string)
    requires AllDigits(s) && |s| > 0 && s[0] != '0'
    ensures DigitsValue(s) >= Pow10(|s| - 1)
  {
    if |s| > 1 {
      var init := s[..|s| - 1];
      assert init[0] == s[0];
      DigitsValueLowerBound(init);
    }
  }

  lemma {:induction false} Pow10Grows(k: nat)
    requires k >= 19
    ensures Pow10(k) > MaxInt64 + 1
    decreases k
  {
    if k == 19 {
      assert Pow10(4) == 10000;
      assert Pow10(8) == 100000000;
      assert Pow10(12) == 1000000000000;
      assert Pow10(16) == 10000000000000000;
    } else {
      Pow10Grows(k - 1);
    }
  }

  /**
   * A run of twenty or more digits that does not start with '0' is out of
   * the int64 range whatever its sign, so it never parses.
   */
  lemma LongRunsRejected(sign: string, digits: string)
    requires sign == "" || sign == "+" || sign == "-"
    requires AllDigits(digits) && |digits| >= 20 && digits[0] != '0'
    ensures ParseInt64(sign + digits).None?
  {
    DigitsValueLowerBound(digits);
    Pow10Grows(|digits| - 1);
    var s := sign + digits;
    if sign == "" {
      assert s == digits && IsDigit(s[0]);
    } else {
      assert s[0] == sign[0] && s[1..] == digits;
    }
  }

  lemma {:induction false} DecimalRoundTrip(n: nat)
    ensures DigitsValue(NatToDecimal(n)) == n
  {
    if n >= 10 {
      var r := NatToDecimal(n);
      var prefix := NatToDecimal(n / 10);
      assert r == prefix + [DigitChar(n % 10)];
      assert r[..|r| - 1] == prefix;
      DecimalRoundTrip(n / 10);
    }
  }

  /** Distinct numbers render differently. */
  lemma DecimalInjective(i: nat, j: nat)
    requires NatToDecimal(i) == NatToDecimal(j)
    ensures i == j
  {
    DecimalRoundTrip(i);
    DecimalRoundTrip(j);
  }

  /** Parsing what "%d" prints gives the number back, for every int64. */
  lemma ParseFormattedInt(n: int)
    requires MinInt64 <= n <= MaxInt64
    ensures ParseInt64(IntToDecimal(n)) == Some(n)
  {
    if n < 0 {
      var s := IntToDecimal(n);
      assert s[1..] == NatToDecimal(-n);
      DecimalRoundTrip(-n);
    } else {
      var s := NatToDecimal(n);
      assert s[0] != '-' && s[0] != '+' by { assert IsDigit(s[0]); }
      DecimalRoundTrip(n);
    }
  }

  /**
   * "x-<digits>" splits uniquely at its last dash: two such strings are
   * equal only if their digit parts are.
   */
  lemma DashSuffixUnique(x: string, d1: string, y: string, d2: string)
    requires AllDigits(d1) && AllDigits(d2)
    requires x + "-" + d1 == y + "-" + d2
    ensures d1 == d2 && x == y
  {
    var a := x + "-" + d1;
    var b := y + "-" + d2;
    assert a == b;
    assert forall i :: |y| < i < |b| ==> IsDigit(b[i]) by {
      forall i | |y| < i < |b| ensures IsDigit(b[i]) { assert b[i] == d2[i - |y| - 1]; }
    }
    assert forall i :: |x| < i < |a| ==> IsDigit(a[i]) by {
      forall i | |x| < i < |a| ensures IsDigit(a[i]) { assert a[i] == d1[i - |x| - 1]; }
    }
    assert a[|x|] == '-' && b[|y|] == '-';
    assert |x| == |y|;
    assert d1 == a[|a| - |d1|..];
    assert d2 == b[|b| - |d2|..];
    assert x == a[..|x|];
    assert y == b[..|y|];
  }
}
