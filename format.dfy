/**
 * Text formatting used by the round timer and the interim screen:
 * C#'s int.ToString(), the custom numeric format "00", and the
 * minutes/seconds split of a remaining time. ParseNat is the reading
 * of a digit string, the parser the formatting inverts.
 */
module Format {
  import opened UnityMath

  predicate IsDigits(s: string) {
    forall i :: 0 <= i < |s| ==> '0' <= s[i] <= '9'
  }

  function Digit(d: nat): (c: char)
    requires d < 10
    ensures '0' <= c <= '9'
  {
    ('0' as int + d) as char
  }

  /** The decimal digits of n, most significant first, without leading zeros. */
  function NatToString(n: nat): (s: string)
    ensures |s| >= 1 && IsDigits(s)
    ensures n < 10 <==> |s| == 1
    decreases n
  {
    if n < 10 then [Digit(n)] else NatToString(n / 10) + [Digit(n % 10)]
  }

  /** The number a digit string denotes. */
  function ParseNat(s: string): nat
    requires IsDigits(s)
    decreases |s|
  {
    if s == [] then 0 else ParseNat(s[..|s| - 1]) * 10 + (s[|s| - 1] as int - '0' as int)
  }

  /** Reading back the decimal text of n gives n. */
  lemma {:induction false} ParseNatToString(n: nat)
    ensures ParseNat(NatToString(n)) == n
    decreases n
  {
    if n >= 10 {
      var s := NatToString(n);
      assert s[..|s| - 1] == NatToString(n / 10);
      ParseNatToString(n / 10);
    }
  }

  /** int.ToString(): a minus sign before the digits of a negative number. */
  function IntToString(i: int): string {
    if i < 0 then "-" + NatToString(-i) else NatToString(i)
  }

  /** The text of an int reads back as the int: digits for a non-negative one, '-' and the digits of its magnitude otherwise. */
  lemma IntToStringReadsBack(i: int)
    ensures |IntToString(i)| >= 1
    ensures i >= 0 ==> IsDigits(IntToString(i)) && ParseNat(IntToString(i)) == i
    ensures i < 0 ==> IntToString(i)[0] == '-' && IsDigits(IntToString(i)[1..]) && ParseNat(IntToString(i)[1..]) == -i
  {
    if i < 0 {
      ParseNatToString(-i);
      assert ("-" + NatToString(-i))[1..] == NatToString(-i);
    } else {
      ParseNatToString(i);
    }
  }

  /** The custom format "00": at least two digits, zero-padded; a negative number gets a minus sign first. */
  function TwoDigits(i: int): (s: string)
    ensures |s| >= 2
    ensures 0 <= i < 100 ==> |s| == 2 && IsDigits(s) && ParseNat(s) == i
    ensures i >= 100 ==> IsDigits(s) && ParseNat(s) == i
    ensures i < 0 ==> s[0] == '-' && s[1..] == TwoDigits(-i)
    decreases if i < 0 then 1 else 0
  {
    if i < 0 then "-" + TwoDigits(-i)
    else if i < 10 then
      assert ParseNat("0" + [Digit(i)]) == i by {
        assert ("0" + [Digit(i)])[..1] == "0";
        assert "0"[..0] == "";
      }
      "0" + [Digit(i)]
    else
      ParseNatToString(i);
      NatToString(i)
  }

  /** Mathf.FloorToInt(t / 60f). */
  function MinutesOf(t: real): int {
    (t / 60.0).Floor
  }

  /** Mathf.FloorToInt(t % 60f), with C#'s truncating remainder. */
  function SecondsOf(t: real): int {
    FloatRem(t, 60.0).Floor
  }

  /** For a non-negative time the two parts are a whole number of minutes and 0..59 seconds that add up to the whole seconds of t. */
  lemma ClockParts(t: real)
    requires t >= 0.0
    ensures MinutesOf(t) >= 0 && 0 <= SecondsOf(t) < 60
    ensures 60 * MinutesOf(t) + SecondsOf(t) == t.Floor
  {
    FloatRemNonNegative(t, 60.0);
    var m := MinutesOf(t);
    var r := FloatRem(t, 60.0);
    assert r == t - 60.0 * (m as real);
    var s := r.Floor;
    assert s as real <= r < s as real + 1.0;
    assert (60 * m + s) as real <= t < (60 * m + s) as real + 1.0;
  }

  /** In the last fraction of a second below zero both parts are -1. */
  lemma ClockPartsJustBelowZero(t: real)
    requires -1.0 <= t < 0.0
    ensures MinutesOf(t) == -1 && SecondsOf(t) == -1
  {
    FloatRemSmallNegative(t, 60.0);
    DivStrict(t, 0.0, 60.0);
    DivStrict(-60.0, t, 60.0);
  }
}
