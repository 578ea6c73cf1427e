/**
 * `formatOrderNumber`: the short label an order card shows, "#" followed by
 * the order's display number when it has a non-zero one, and otherwise by
 * the last three characters of its id.
 */
module OrderUtils {
  import opened Wrappers

  /** `\d` without the `u` flag: an ASCII digit. */
  predicate IsDigit(c: char) {
    '0' <= c <= '9'
  }

  predicate AllDigits(s: string) {
    forall i :: 0 <= i < |s| ==> IsDigit(s[i])
  }

  /** `s.slice(-3)`: the last three characters, or all of `s` when it is shorter. */
  function Last3(s: string): (r: string)
    ensures |r| == if |s| < 3 then |s| else 3
    ensures r == s[|s| - |r|..]
  {
    if |s| <= 3 then s else s[|s| - 3..]
  }

  /** The longest run of digits `s` ends with. */
  function TrailingDigits(s: string): (r: string)
    ensures |r| <= |s| && r == s[|s| - |r|..]
    ensures AllDigits(r)
    ensures |r| < |s| ==> !IsDigit(s[|s| - |r| - 1])
  {
    if s == [] || !IsDigit(s[|s| - 1]) then []
    else
      var init := s[..|s| - 1];
      var t := TrailingDigits(init);
      var r := t + [s[|s| - 1]];
      assert init[|init| - |t|..] + [s[|s| - 1]] == s[|s| - |r|..];
      assert AllDigits(r) by {
        forall i | 0 <= i < |r|
          ensures IsDigit(r[i])
        {
          if i < |t| { assert r[i] == t[i]; }
        }
      }
      assert |r| < |s| ==> s[|s| - |r| - 1] == init[|init| - |t| - 1];
      r
  }

  /**
   * `s.match(/\d{3,}$/)` searched from position `i` on: the regex matches at
   * the leftmost start from which the rest of `s` is three or more digits.
   */
  function MatchFrom(s: string, i: nat): (r: Option<string>)
    requires i <= |s|
    ensures r.Some? ==> 3 <= |r.value| <= |s| && AllDigits(r.value) && r.value == s[|s| - |r.value|..]
    decreases |s| - i
  {
    if |s| - i >= 3 && AllDigits(s[i..]) then Some(s[i..])
    else if i == |s| then None
    else MatchFrom(s, i + 1)
  }

  /** The first match of `/\d{3,}$/` in `s`, if any. */
  function TrailingDigitsMatch(s: string): (r: Option<string>)
    ensures r.Some? ==> 3 <= |r.value| <= |s| && AllDigits(r.value) && r.value == s[|s| - |r.value|..]
  {
    MatchFrom(s, 0)
  }

  /** Up to a position right after a non-digit, the search moves on without matching. */
  lemma {:induction false} SkipToStart(s: string, i: nat, start: nat)
    requires i <= start <= |s|
    requires 0 < start ==> !IsDigit(s[start - 1])
    ensures MatchFrom(s, i) == MatchFrom(s, start)
    decreases start - i
  {
    if i < start {
      assert !AllDigits(s[i..]) by {
        assert s[i..][start - 1 - i] == s[start - 1];
      }
      assert MatchFrom(s, i) == MatchFrom(s, i + 1);
      SkipToStart(s, i + 1, start);
    }
  }

  /** Fewer than three characters before the end, nothing matches. */
  lemma {:induction false} NoMatchNearEnd(s: string, i: nat)
    requires i <= |s| && |s| - i < 3
    ensures MatchFrom(s, i) == None
    decreases |s| - i
  {
    if i < |s| {
      NoMatchNearEnd(s, i + 1);
    }
  }

  /**
   * The regex finds exactly the maximal trailing digit run, and only when it
   * is at least three digits long.
   */
  lemma MatchIsTrailingRun(s: string)
    ensures TrailingDigitsMatch(s) ==
      if |TrailingDigits(s)| >= 3 then Some(TrailingDigits(s)) else None
  {
    var t := TrailingDigits(s);
    var start := |s| - |t|;
    SkipToStart(s, 0, start);
    if |t| >= 3 {
      assert s[start..] == t;
    } else {
      NoMatchNearEnd(s, start);
    }
  }

  /** The character of a digit value. */
  function DigitChar(d: nat): (c: char)
    requires d < 10
    ensures IsDigit(c) && DigitValue(c) == d
  {
    ('0' as int + d) as char
  }

  function DigitValue(c: char): int {
    c as int - '0' as int
  }

  /** Decimal digits with no leading zero: how JavaScript prints a natural number. */
  predicate CanonicalNatural(s: string) {
    |s| >= 1 && AllDigits(s) && (|s| > 1 ==> s[0] != '0')
  }

  /** How JavaScript prints an integer: a canonical natural, after a minus sign when negative, never "-0". */
  predicate CanonicalInteger(s: string) {
    CanonicalNatural(s) || (|s| >= 2 && s[0] == '-' && CanonicalNatural(s[1..]) && s[1..] != "0")
  }

  /** `${n}` for a natural number: its decimal digits, with no leading zero. */
  function NaturalDecimal(n: nat): (r: string)
    ensures CanonicalNatural(r)
  {
    if n < 10 then [DigitChar(n)]
    else NaturalDecimal(n / 10) + [DigitChar(n % 10)]
  }

  /** The number a string of decimal digits spells. */
  function DigitsValue(s: string): int {
    if s == [] then 0
    else DigitsValue(s[..|s| - 1]) * 10 + DigitValue(s[|s| - 1])
  }

  /** The integer an optionally signed decimal string spells. */
  function DecimalValue(s: string): int {
    if |s| > 0 && s[0] == '-' then -DigitsValue(s[1..]) else DigitsValue(s)
  }

  lemma {:induction false} NaturalDecimalRoundTrip(n: nat)
    ensures DigitsValue(NaturalDecimal(n)) == n
  {
    if n >= 10 {
      NaturalDecimalRoundTrip(n / 10);
      var r := NaturalDecimal(n);
      assert r[..|r| - 1] == NaturalDecimal(n / 10);
    }
  }

  /** `${n}` for an integer: canonical text, with a minus sign exactly when `n` is negative. */
  function Decimal(n: int): (r: string)
    ensures CanonicalInteger(r)
    ensures |r| >= 1 && (r[0] == '-' <==> n < 0)
  {
    if n < 0 then
      NaturalDecimalRoundTrip(-n);
      assert DigitsValue("0") == 0;
      var r := "-" + NaturalDecimal(-n);
      assert r[1..] == NaturalDecimal(-n);
      r
    else NaturalDecimal(n)
  }

  /** Reading back the decimal text of an integer gives the integer. */
  lemma DecimalRoundTrip(n: int)
    ensures DecimalValue(Decimal(n)) == n
  {
    if n < 0 {
      NaturalDecimalRoundTrip(-n);
      assert Decimal(n)[1..] == NaturalDecimal(-n);
    } else {
      NaturalDecimalRoundTrip(n);
    }
  }

  /** A digit string starting with a non-zero digit spells at least 1, and at least 10 when longer than one digit. */
  lemma {:induction false} LeadingDigitBound(s: string)
    requires |s| >= 1 && AllDigits(s) && s[0] != '0'
    ensures DigitsValue(s) >= 1
    ensures |s| >= 2 ==> DigitsValue(s) >= 10
    decreases |s|
  {
    if |s| >= 2 {
      var init := s[..|s| - 1];
      assert init[0] == s[0];
      LeadingDigitBound(init);
    }
  }

  /** Two canonical naturals that spell the same number are the same text. */
  lemma {:induction false} CanonicalNaturalIsUnique(a: string, b: string)
    requires CanonicalNatural(a) && CanonicalNatural(b) && DigitsValue(a) == DigitsValue(b)
    ensures a == b
    decreases |a|
  {
    if |a| == 1 && |b| == 1 {
      assert DigitsValue(a) == DigitValue(a[0]) && DigitsValue(b) == DigitValue(b[0]);
    } else if |a| == 1 {
      assert DigitsValue(a) == DigitValue(a[0]);
      LeadingDigitBound(b);
    } else if |b| == 1 {
      assert DigitsValue(b) == DigitValue(b[0]);
      LeadingDigitBound(a);
    } else {
      var ai, bi := a[..|a| - 1], b[..|b| - 1];
      assert ai[0] == a[0] && bi[0] == b[0];
      assert CanonicalNatural(ai) && CanonicalNatural(bi);
      LeadingDigitBound(ai);
      LeadingDigitBound(bi);
      assert DigitsValue(ai) == DigitsValue(bi) && a[|a| - 1] == b[|b| - 1] by {
        var x, y := DigitsValue(ai), DigitsValue(bi);
        var d, e := DigitValue(a[|a| - 1]), DigitValue(b[|b| - 1]);
        assert 0 <= d <= 9 && 0 <= e <= 9;
        assert x * 10 + d == y * 10 + e;
      }
      CanonicalNaturalIsUnique(ai, bi);
      assert a == ai + [a[|a| - 1]] && b == bi + [b[|b| - 1]];
    }
  }

  /**
   * The printed form of an integer is the only canonical text that reads back
   * as it: no leading zero, no plus sign, no "-0".
   */
  lemma CanonicalIntegerIsUnique(a: string, b: string)
    requires CanonicalInteger(a) && CanonicalInteger(b) && DecimalValue(a) == DecimalValue(b)
    ensures a == b
  {
    var an, bn := CanonicalNatural(a), CanonicalNatural(b);
    if !an {
      assert a[1..][0] != '0' by {
        if |a[1..]| == 1 { assert a[1..] == [a[1..][0]]; }
      }
      LeadingDigitBound(a[1..]);
    }
    if !bn {
      assert b[1..][0] != '0' by {
        if |b[1..]| == 1 { assert b[1..] == [b[1..][0]]; }
      }
      LeadingDigitBound(b[1..]);
    }
    if an {
      DigitsValueNonNegative(a);
      assert a[0] != '-';
    }
    if bn {
      DigitsValueNonNegative(b);
      assert b[0] != '-';
    }
    if an && bn {
      CanonicalNaturalIsUnique(a, b);
    } else if !an && !bn {
      CanonicalNaturalIsUnique(a[1..], b[1..]);
      assert a == [a[0]] + a[1..] && b == [b[0]] + b[1..];
    }
  }

  lemma {:induction false} DigitsValueNonNegative(s: string)
    requires AllDigits(s)
    ensures DigitsValue(s) >= 0
    decreases |s|
  {
    if s != [] {
      DigitsValueNonNegative(s[..|s| - 1]);
    }
  }

  /** A JavaScript number used as a condition is true when it is present and not zero. */
  predicate Truthy(displayNumber: Option<int>) {
    displayNumber.Some? && displayNumber.value != 0
  }

  /** A run of three or more trailing digits ends the same way as the id it ends. */
  lemma SuffixLast3(s: string, t: string)
    requires 3 <= |t| <= |s| && t == s[|s| - |t|..]
    ensures Last3(t) == Last3(s)
  {
    assert t[|t| - 3..] == s[|s| - 3..];
  }

  /** The two fallback branches: the last three of a trailing run of three or more digits, or else the last three characters. */
  function FallbackLabel(id: string): (r: string)
    ensures r == "#" + Last3(id)
  {
    MatchIsTrailingRun(id);
    match TrailingDigitsMatch(id)
    case Some(digits) =>
      SuffixLast3(id, digits);
      "#" + Last3(digits)
    case None => "#" + Last3(id)
  }

  /** The label of a display number reads back as that number, in canonical form. */
  lemma NumberLabelReadsBack(n: int)
    ensures var text := "#" + Decimal(n);
      text[1..] == Decimal(n) && CanonicalInteger(text[1..]) && DecimalValue(text[1..]) == n
  {
    DecimalRoundTrip(n);
    assert ("#" + Decimal(n))[1..] == Decimal(n);
  }

  /**
   * The label of an order. With a non-zero display number it is "#" and the
   * number's printed form, which reads back as the number; without one it is
   * "#" and the id's last three characters (the digit-run branch gives the
   * same label as the last-resort branch).
   */
  function FormatOrderNumber(id: string, displayNumber: Option<int>): (r: string)
    ensures |r| >= 1 && r[0] == '#'
    ensures Truthy(displayNumber) ==> r == "#" + Decimal(displayNumber.value)
    ensures Truthy(displayNumber) ==> CanonicalInteger(r[1..]) && DecimalValue(r[1..]) == displayNumber.value
    ensures !Truthy(displayNumber) ==> r == "#" + Last3(id) && |r| <= 4
  {
    if Truthy(displayNumber) then
      NumberLabelReadsBack(displayNumber.value);
      "#" + Decimal(displayNumber.value)
    else
      FallbackLabel(id)
  }
}
