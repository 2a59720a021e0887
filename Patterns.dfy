/**
 * The pattern `assertLengthCompatible` builds when its guard holds: the
 * stored pattern in a group, followed by a bounded repetition over the
 * requested window, and the guard that selects it.
 */
module Patterns {
  import opened Wrappers
  import opened Lengths

  predicate IsDigit(c: char)
  {
    '0' <= c <= '9'
  }

  function DigitChar(d: nat): (c: char)
    requires d < 10
    ensures IsDigit(c) && DigitValue(c) == d
  {
    ('0' as int + d) as char
  }

  /** The decimal digits of `n`, without leading zeros, as Java renders an `int` in a string concatenation. */
  function NatToString(n: nat): (s: string)
    ensures 1 <= |s| && forall i :: 0 <= i < |s| ==> IsDigit(s[i])
    ensures |s| == 1 || s[0] != '0'
    decreases n
  {
    if n < 10 then [DigitChar(n)] else NatToString(n / 10) + [DigitChar(n % 10)]
  }

  function DigitValue(c: char): (d: nat)
    requires IsDigit(c)
    ensures d < 10
  {
    c as int - '0' as int
  }

  /** The value of a string of decimal digits. */
  function DecimalValue(s: string): (v: nat)
    requires forall i :: 0 <= i < |s| ==> IsDigit(s[i])
  {
    if s == [] then 0 else DecimalValue(s[..|s| - 1]) * 10 + DigitValue(s[|s| - 1])
  }

  /** Java's decimal rendering of an `int`: a minus sign exactly for negative values, then digits. */
  function IntToString(n: int): (s: string)
    ensures 1 <= |s| && (s[0] == '-' <==> n < 0) && (n < 0 ==> 2 <= |s|)
    ensures forall i :: (if n < 0 then 1 else 0) <= i < |s| ==> IsDigit(s[i])
  {
    if n < 0 then "-" + NatToString(-n) else NatToString(n)
  }

  /** Reading back what `IntToString` wrote: an optional minus sign followed by digits. */
  function ParseInt(s: string): (n: int)
  {
    if |s| > 0 && s[0] == '-' && forall i :: 1 <= i < |s| ==> IsDigit(s[i]) then -(DecimalValue(s[1..]) as int)
    else if forall i :: 0 <= i < |s| ==> IsDigit(s[i]) then DecimalValue(s)
    else 0
  }

  lemma {:induction false} NatToStringRoundTrip(n: nat)
    ensures DecimalValue(NatToString(n)) == n
    decreases n
  {
    if n >= 10 {
      NatToStringRoundTrip(n / 10);
      var s := NatToString(n);
      assert s[..|s| - 1] == NatToString(n / 10);
    }
  }

  /** The decimal rendering of every integer reads back as that integer. */
  lemma IntToStringRoundTrip(n: int)
    ensures ParseInt(IntToString(n)) == n
  {
    var s := IntToString(n);
    if n < 0 {
      NatToStringRoundTrip(-n);
      assert s[1..] == NatToString(-n);
    } else {
      NatToStringRoundTrip(n);
      assert s[0] != '-';
    }
  }

  /** Java's string concatenation renders a null pattern as "null". */
  function Spliced(regex: Option<string>): (s: string)
  {
    if regex.Some? then regex.value else "null"
  }

  /**
   * The rewritten pattern: the stored pattern in a group, followed by the
   * bounded repetition `{minLength,maxLength}` in decimal.
   */
  function Rewrite(regex: Option<string>, minLength: int, maxLength: int): (s: string)
    ensures |s| == |Spliced(regex)| + |IntToString(minLength)| + |IntToString(maxLength)| + 5
    ensures s[0] == '(' && s[|s| - 1] == '}'
  {
    "(" + Spliced(regex) + "){" + IntToString(minLength) + "," + IntToString(maxLength) + "}"
  }

  /**
   * A rewritten pattern opens with the stored pattern in a group, and both
   * repetition bounds read back as the requested window.
   */
  lemma RewriteBounds(regex: Option<string>, minLength: int, maxLength: int)
    ensures var s, p, m := Rewrite(regex, minLength, maxLength), Spliced(regex), IntToString(minLength);
            var k := |p| + 3 + |m|;
            k < |s| && s[..|p| + 3] == "(" + p + "){" && s[k] == ',' && s[|s| - 1] == '}' &&
            ParseInt(s[|p| + 3..k]) == minLength && ParseInt(s[k + 1..|s| - 1]) == maxLength
  {
    var s, p, m, n := Rewrite(regex, minLength, maxLength), Spliced(regex), IntToString(minLength), IntToString(maxLength);
    var head := "(" + p + "){";
    var k := |head| + |m|;
    assert s == head + m + "," + n + "}";
    assert s[..|head|] == head;
    assert s[|head|..k] == m;
    assert s[k + 1..|s| - 1] == n;
    IntToStringRoundTrip(minLength);
    IntToStringRoundTrip(maxLength);
  }

  /**
   * The guard of `assertLengthCompatible`. Its second conjunct compares the
   * minimum with itself, so only the maximum decides.
   */
  function RewriteGuard(expected: Range): (g: bool)
    ensures g <==> expected.max == 1
  {
    expected.max == 1 && expected.min == expected.min
  }
}
