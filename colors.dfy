/**
 * The card's battery colour (`_getBatteryColor`): the percentage is clamped
 * to [0, 100], then red stays full while green rises from 0 to 50 (red to
 * yellow), and green stays full while red falls from 50 to 100 (yellow to
 * green). Blue is always 0. Arithmetic is over the reals.
 */
module Colors {
  import opened NumberText

  datatype Rgb = Rgb(red: int, green: int, blue: int)

  predicate IsChannel(x: int) {
    0 <= x <= 255
  }

  predicate IsColor(c: Rgb) {
    IsChannel(c.red) && IsChannel(c.green) && IsChannel(c.blue)
  }

  /** `Math.max(0, Math.min(100, x))`. */
  function Clamp(x: real): (p: real)
    ensures 0.0 <= p <= 100.0
    ensures 0.0 <= x <= 100.0 ==> p == x
    ensures x < 0.0 ==> p == 0.0
    ensures x > 100.0 ==> p == 100.0
  {
    var m := if x < 100.0 then x else 100.0;
    if 0.0 < m then m else 0.0
  }

  /** `Math.round`: the nearest integer, halves rounded up (towards +infinity). */
  function Round(x: real): (n: int)
    ensures n as real - 0.5 <= x < n as real + 0.5
  {
    (x + 0.5).Floor
  }

  function BatteryColor(percentage: real): (c: Rgb)
    ensures IsColor(c) && c.blue == 0
    ensures c.red == 255 || c.green == 255
  {
    var p := Clamp(percentage);
    if p <= 50.0 then
      Rgb(255, Round((p / 50.0) * 255.0), 0)
    else
      Rgb(Round(255.0 - ((p - 50.0) / 50.0) * 255.0), 255, 0)
  }

  /** The CSS text `rgb(r, g, b)` the card puts into the bar's style. */
  function ColorString(c: Rgb): (s: string)
    requires IsColor(c)
    ensures 4 < |s| && s[..4] == "rgb(" && s[|s| - 1] == ')'
  {
    "rgb(" + Decimal(c.red) + ", " + Decimal(c.green) + ", " + Decimal(c.blue) + ")"
  }

  lemma ClampIdempotent(x: real)
    ensures Clamp(Clamp(x)) == Clamp(x)
  {
  }

  lemma ClampMonotone(x: real, y: real)
    requires x <= y
    ensures Clamp(x) <= Clamp(y)
  {
  }

  lemma RoundMonotone(x: real, y: real)
    requires x <= y
    ensures Round(x) <= Round(y)
  {
  }

  /** Clamping before asking for the colour changes nothing: the colour clamps first. */
  lemma ColorOfClamped(x: real)
    ensures BatteryColor(Clamp(x)) == BatteryColor(x)
  {
  }

  /** Empty (and below) is pure red, full (and above) pure green, half is yellow. */
  lemma ColorEndpoints(x: real)
    ensures x <= 0.0 ==> BatteryColor(x) == Rgb(255, 0, 0)
    ensures x >= 100.0 ==> BatteryColor(x) == Rgb(0, 255, 0)
    ensures BatteryColor(50.0) == Rgb(255, 255, 0)
  {
  }

  /**
   * Up to 50 % red is full and green is the nearest integer to 5.1 * p;
   * above 50 % green is full and red is the nearest integer to 510 - 5.1 * p.
   */
  lemma ColorSegments(x: real)
    ensures var p, c := Clamp(x), BatteryColor(x);
      && (p <= 50.0 ==> c.red == 255 && c.green == Round(p * 5.1))
      && (p > 50.0 ==> c.green == 255 && c.red == Round(510.0 - p * 5.1))
  {
  }

  /** The channel that is not full is within half a unit of the exact linear ramp. */
  lemma ColorAccuracy(x: real)
    ensures var p, c := Clamp(x), BatteryColor(x);
      && (p <= 50.0 ==> -0.5 < c.green as real - p * 5.1 <= 0.5)
      && (p > 50.0 ==> -0.5 < c.red as real - (510.0 - p * 5.1) <= 0.5)
  {
  }

  /** Over the whole range green never falls and red never rises as the level grows. */
  lemma ColorMonotone(x: real, y: real)
    requires x <= y
    ensures BatteryColor(x).green <= BatteryColor(y).green
    ensures BatteryColor(x).red >= BatteryColor(y).red
  {
  }

  /** Round-half-up at work: 5 % gives green 25.5 rounded to 26, 75 % red 127.5 rounded to 128. */
  lemma ColorExamples()
    ensures BatteryColor(5.0) == Rgb(255, 26, 0)
    ensures BatteryColor(75.0) == Rgb(128, 255, 0)
    ensures BatteryColor(-20.0) == BatteryColor(0.0)
  {
  }

  /** The shape `rgb(a, b, c)` with digit strings a, b, c can be read back apart. */
  lemma {:induction false} SplitRgbText(a1: string, a2: string, a3: string, b1: string, b2: string, b3: string)
    requires AllDigits(a1) && AllDigits(a2) && AllDigits(b1) && AllDigits(b2)
    requires "rgb(" + a1 + ", " + a2 + ", " + a3 + ")" == "rgb(" + b1 + ", " + b2 + ", " + b3 + ")"
    ensures a1 == b1 && a2 == b2 && a3 == b3
  {
    var ta, tb := " " + a2 + ", " + a3 + ")", " " + b2 + ", " + b3 + ")";
    assert "rgb(" + a1 + ", " + a2 + ", " + a3 + ")" == "rgb(" + (a1 + [','] + ta);
    assert "rgb(" + b1 + ", " + b2 + ", " + b3 + ")" == "rgb(" + (b1 + [','] + tb);
    assert a1 + [','] + ta == ("rgb(" + (a1 + [','] + ta))[4..];
    assert b1 + [','] + tb == ("rgb(" + (b1 + [','] + tb))[4..];
    SplitAtSeparator(a1, b1, ',', ta, tb);
    var ua, ub := " " + a3 + ")", " " + b3 + ")";
    assert ta[1..] == a2 + [','] + ua;
    assert tb[1..] == b2 + [','] + ub;
    SplitAtSeparator(a2, b2, ',', ua, ub);
    assert a3 == ua[1..|ua| - 1];
    assert b3 == ub[1..|ub| - 1];
  }

  /** Reading the CSS text of a battery colour back gives red first, then green, then 0. */
  lemma ColorStringFields(c: Rgb, a1: string, a2: string, a3: string)
    requires IsColor(c) && c.blue == 0 && AllDigits(a1) && AllDigits(a2)
    requires ColorString(c) == "rgb(" + a1 + ", " + a2 + ", " + a3 + ")"
    ensures ParseDecimal(a1) == c.red && ParseDecimal(a2) == c.green && a3 == "0"
  {
    SplitRgbText(Decimal(c.red), Decimal(c.green), Decimal(c.blue), a1, a2, a3);
    ParseDecimalOfDecimal(c.red);
    ParseDecimalOfDecimal(c.green);
  }

  /** The CSS text determines the colour: no two colours are written alike. */
  lemma ColorStringInjective(c: Rgb, d: Rgb)
    requires IsColor(c) && IsColor(d)
    requires ColorString(c) == ColorString(d)
    ensures c == d
  {
    SplitRgbText(Decimal(c.red), Decimal(c.green), Decimal(c.blue), Decimal(d.red), Decimal(d.green), Decimal(d.blue));
    DecimalInjective(c.red, d.red);
    DecimalInjective(c.green, d.green);
    DecimalInjective(c.blue, d.blue);
  }
}
