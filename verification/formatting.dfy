/**
 * The integer formatting helpers of the display: Python's `str(n)`, the
 * format specs `03d` (headings) and `,` (altitudes), and the eight-point
 * compass rose.
 */
module Formatting {

  predicate IsDigit(c: char) { '0' <= c <= '9' }

  predicate AllDigits(s: string) { forall i :: 0 <= i < |s| ==> IsDigit(s[i]) }

  function DigitChar(d: nat): (c: char)
    requires d < 10
    ensures IsDigit(c) && c as int - '0' as int == d
  {
    (d + '0' as int) as char
  }

  /** The number a string of decimal digits denotes, most significant digit first. */
  function DigitsValue(s: string): nat
    requires AllDigits(s)
  {
    if s == [] then 0 else 10 * DigitsValue(s[..|s| - 1]) + (s[|s| - 1] as int - '0' as int)
  }

  /** Python's `str(n)` for a non-negative integer: no sign, no leading zero. */
  function Decimal(n: nat): (r: string)
    ensures 1 <= |r| && AllDigits(r) && DigitsValue(r) == n
    ensures r[0] == '0' ==> r == "0"
    ensures n < 10 ==> |r| == 1
    ensures n < 100 ==> |r| <= 2
    ensures n < 1000 ==> |r| <= 3
    decreases n
  {
    if n < 10 then [DigitChar(n)]
    else
      var r := Decimal(n / 10) + [DigitChar(n % 10)];
      assert r[..|r| - 1] == Decimal(n / 10);
      r
  }

  /** Python's `str(i)` for any integer. */
  function IntToString(i: int): (r: string)
    ensures i >= 0 ==> r == Decimal(i)
    ensures i < 0 ==> r == "-" + Decimal(-i)
  {
    if i < 0 then "-" + Decimal(-i) else Decimal(i)
  }

  function Zeros(k: nat): (z: string)
    ensures |z| == k && AllDigits(z)
  {
    seq(k, _ => '0')
  }

  /** Left padding with zeros up to `width` characters, as the `0` flag of a format spec does. */
  function ZeroPad(s: string, width: nat): (r: string)
  {
    if |s| >= width then s else Zeros(width - |s|) + s
  }

  /** Leading zeros do not change the value of a digit string. */
  lemma {:induction false} ZerosDoNotCount(k: nat, s: string)
    requires AllDigits(s)
    ensures AllDigits(Zeros(k) + s) && DigitsValue(Zeros(k) + s) == DigitsValue(s)
    decreases |s|, k
  {
    var t := Zeros(k) + s;
    assert AllDigits(t);
    if s == [] {
      if k > 0 {
        assert t[..|t| - 1] == Zeros(k - 1);
        ZerosDoNotCount(k - 1, []);
        assert Zeros(k - 1) + [] == Zeros(k - 1);
      }
    } else {
      var init := s[..|s| - 1];
      assert t[..|t| - 1] == Zeros(k) + init;
      ZerosDoNotCount(k, init);
    }
  }

  /**
   * `f"{heading:03d}"`: at least three digits, zero padded; a negative
   * number keeps its sign in front and pads the digits to two.
   */
  function FormatHeading(heading: int): (r: string)
    ensures 0 <= heading <= 999 ==> |r| == 3 && AllDigits(r) && DigitsValue(r) == heading
    ensures heading >= 0 ==> AllDigits(r) && |r| >= 3
    ensures heading < 0 ==> |r| >= 3 && r[0] == '-' && IsDigit(r[1])
  {
    if heading >= 0 then
      var d := Decimal(heading);
      (if |d| < 3 then ZerosDoNotCount(3 - |d|, d); ZeroPad(d, 3) else ZeroPad(d, 3))
    else
      var d := Decimal(-heading);
      "-" + ZeroPad(d, 2)
  }

  /** `s` with every comma removed. */
  function WithoutCommas(s: string): (r: string)
  {
    if s == [] then [] else (if s[0] == ',' then [] else [s[0]]) + WithoutCommas(s[1..])
  }

  lemma {:induction false} WithoutCommasConcat(a: string, b: string)
    ensures WithoutCommas(a + b) == WithoutCommas(a) + WithoutCommas(b)
    decreases |a|
  {
    if a == [] {
      assert a + b == b;
    } else {
      assert (a + b)[1..] == a[1..] + b;
      WithoutCommasConcat(a[1..], b);
    }
  }

  lemma {:induction false} DigitsHaveNoCommas(d: string)
    requires AllDigits(d)
    ensures WithoutCommas(d) == d
    decreases |d|
  {
    if d != [] {
      DigitsHaveNoCommas(d[1..]);
    }
  }

  /** Thousands grouping of a digit string, as the `,` format spec does it. */
  function GroupThousands(d: string): (r: string)
    requires 1 <= |d| && AllDigits(d)
    ensures |r| >= |d| && r[0] == d[0]
    decreases |d|
  {
    if |d| <= 3 then d else GroupThousands(d[..|d| - 3]) + "," + d[|d| - 3..]
  }

  /**
   * A comma-grouped numeral: a leading group of one to three digits,
   * then groups of exactly three digits, each after a comma.
   */
  predicate WellGrouped(s: string)
    decreases |s|
  {
    (1 <= |s| <= 3 && AllDigits(s))
    || (|s| >= 5 && s[|s| - 4] == ',' && AllDigits(s[|s| - 3..]) && WellGrouped(s[..|s| - 4]))
  }

  lemma {:induction false} GroupThousandsCorrect(d: string)
    requires 1 <= |d| && AllDigits(d)
    ensures WellGrouped(GroupThousands(d))
    ensures WithoutCommas(GroupThousands(d)) == d
    decreases |d|
  {
    if |d| <= 3 {
      DigitsHaveNoCommas(d);
    } else {
      var head, tail := d[..|d| - 3], d[|d| - 3..];
      var g := GroupThousands(head);
      GroupThousandsCorrect(head);
      var s := g + "," + tail;
      assert s[..|s| - 4] == g;
      assert s[|s| - 3..] == tail;
      WithoutCommasConcat(g + ",", tail);
      WithoutCommasConcat(g, ",");
      DigitsHaveNoCommas(tail);
      assert WithoutCommas(",") == [];
      assert head + tail == d;
    }
  }

  /** `f"{altitude:,}"`. */
  function FormatAltitude(altitude: int): (r: string)
    ensures altitude >= 0 ==> WellGrouped(r) && WithoutCommas(r) == Decimal(altitude)
    ensures altitude >= 0 ==> IsDigit(r[0])
    ensures altitude < 0 ==> |r| >= 2 && r[0] == '-' && IsDigit(r[1])
  {
    if altitude >= 0 then
      GroupThousandsCorrect(Decimal(altitude));
      GroupThousands(Decimal(altitude))
    else
      "-" + GroupThousands(Decimal(-altitude))
  }

  const Directions: seq<string> := ["N", "NE", "E", "SE", "S", "SW", "W", "NW"]

  /**
   * `round(heading / 45)`. For an integer heading the quotient is never
   * half-way between two integers, so Python's round-half-to-even gives
   * the one integer nearest to it.
   */
  function RoundEighths(heading: int): (k: int)
    ensures -45 < 2 * heading - 90 * k < 45
  {
    OddRemainder(heading);
    (2 * heading + 45) / 90
  }

  /** `2 * heading + 45` is odd, so its remainder modulo 90 is never zero. */
  lemma OddRemainder(heading: int)
    ensures 0 < 2 * heading + 45 - 90 * ((2 * heading + 45) / 90) < 90
  {
    var q := (2 * heading + 45) / 90;
    var r := 2 * heading + 45 - 90 * q;
    assert 0 <= r < 90;
    assert r == 2 * (heading - 45 * q + 22) + 1;
  }

  /** No integer heading is equidistant from two multiples of 45. */
  lemma NoRoundingTie(heading: int, k: int)
    ensures 2 * heading - 90 * k != 45 && 2 * heading - 90 * k != -45
  {
  }

  /** The nearest multiple is unique, so `RoundEighths` is the rounding Python performs. */
  lemma NearestIsRoundEighths(heading: int, k: int)
    requires -45 < 2 * heading - 90 * k < 45
    ensures k == RoundEighths(heading)
  {
  }

  function CompassIndex(heading: int): (i: nat)
    ensures i < |Directions|
  {
    RoundEighths(heading) % 8
  }

  /** `compass_direction`. */
  function CompassDirection(heading: int): (d: string)
    ensures d in Directions
  {
    Directions[CompassIndex(heading)]
  }

  /** The compass point depends only on the heading modulo 360. */
  lemma {:induction false} CompassPeriodic(heading: int)
    ensures CompassDirection(heading) == CompassDirection(heading % 360)
  {
    var q, m := heading / 360, heading % 360;
    assert heading == 360 * q + m;
    var k := RoundEighths(m) + 8 * q;
    assert -45 < 2 * heading - 90 * k < 45;
    NearestIsRoundEighths(heading, k);
    assert (RoundEighths(m) + 8 * q) % 8 == RoundEighths(m) % 8;
  }

  lemma CompassSamples()
    ensures CompassDirection(0) == "N" && CompassDirection(22) == "N"
    ensures CompassDirection(23) == "NE" && CompassDirection(45) == "NE"
    ensures CompassDirection(180) == "S" && CompassDirection(337) == "NW"
    ensures CompassDirection(338) == "N" && CompassDirection(-30) == "NW"
  {
  }
}
