/** The scalar helpers the analyser borrows from the C++ and JUCE libraries:
    std::round, the truncating (int) cast, juce::jlimit, juce::jmap and
    juce::Decibels::gainToDecibels. Floats are modelled as exact reals; the
    logarithm behind gainToDecibels is a parameter. */
module JuceMath {

  /** std::round: the nearest integer, halfway cases rounded away from zero. */
  function Round(x: real): (r: int)
    ensures x >= 0.0 ==> r as real - 0.5 <= x < r as real + 0.5
    ensures x < 0.0 ==> r as real - 0.5 < x <= r as real + 0.5
  {
    if x >= 0.0 then (x + 0.5).Floor else -((-x + 0.5).Floor)
  }

  lemma RoundMonotone(x: real, y: real)
    requires x <= y
    ensures Round(x) <= Round(y)
  {
  }

  lemma RoundOfInteger(n: int)
    ensures Round(n as real) == n
  {
  }

  /** Halving a positive integer gap and rounding gives the ceiling of the half:
      an odd gap 2m+1 sits exactly between m and m+1 and rounds up to m+1. */
  lemma RoundHalfGap(d: int)
    requires d >= 1
    ensures Round(d as real / 2.0) == (d + 1) / 2
  {
    var m := d / 2;
    if d % 2 == 0 {
      assert d as real / 2.0 == m as real;
    } else {
      assert d as real / 2.0 == m as real + 0.5;
    }
  }

  /** The C++ (int) cast of a real: truncation toward zero. */
  function TruncToInt(x: real): (r: int)
    ensures x >= 0.0 ==> 0 <= r && r as real <= x < r as real + 1.0
    ensures x < 0.0 ==> r <= 0 && r as real - 1.0 < x <= r as real
  {
    if x >= 0.0 then x.Floor else -((-x).Floor)
  }

  /** juce::jlimit on reals: the value when it lies in [lower, upper], else the nearer limit. */
  function Jlimit(lower: real, upper: real, v: real): (r: real)
    requires lower <= upper
    ensures lower <= r <= upper
    ensures lower <= v <= upper ==> r == v
    ensures v < lower ==> r == lower
    ensures upper < v ==> r == upper
  {
    if v < lower then lower else if upper < v then upper else v
  }

  /** juce::jlimit on ints. */
  function JlimitInt(lower: int, upper: int, v: int): (r: int)
    requires lower <= upper
    ensures lower <= r <= upper
    ensures lower <= v <= upper ==> r == v
    ensures v < lower ==> r == lower
    ensures upper < v ==> r == upper
  {
    if v < lower then lower else if upper < v then upper else v
  }

  /** juce::jmap: the linear map taking sourceMin to targetMin and sourceMax to targetMax. */
  function Jmap(v: real, sourceMin: real, sourceMax: real, targetMin: real, targetMax: real): (r: real)
    requires sourceMin < sourceMax
    ensures v == sourceMin ==> r == targetMin
    ensures v == sourceMax ==> r == targetMax
    ensures sourceMin <= v <= sourceMax && targetMin <= targetMax ==> targetMin <= r <= targetMax
    ensures sourceMin <= v <= sourceMax && targetMax <= targetMin ==> targetMax <= r <= targetMin
  {
    var t := (v - sourceMin) / (sourceMax - sourceMin);
    DivInUnit(v - sourceMin, sourceMax - sourceMin);
    JmapBetween(targetMin, targetMax, t);
    targetMin + (targetMax - targetMin) * t
  }

  /** jmap preserves the order of its argument onto an increasing target range
      and reverses it onto a decreasing one. */
  lemma JmapMonotone(v1: real, v2: real, sourceMin: real, sourceMax: real, targetMin: real, targetMax: real)
    requires sourceMin < sourceMax && v1 <= v2
    ensures targetMin <= targetMax ==>
      Jmap(v1, sourceMin, sourceMax, targetMin, targetMax) <= Jmap(v2, sourceMin, sourceMax, targetMin, targetMax)
    ensures targetMax <= targetMin ==>
      Jmap(v2, sourceMin, sourceMax, targetMin, targetMax) <= Jmap(v1, sourceMin, sourceMax, targetMin, targetMax)
  {
    var w := sourceMax - sourceMin;
    var t1 := (v1 - sourceMin) / w;
    var t2 := (v2 - sourceMin) / w;
    assert t2 - t1 == (v2 - v1) / w;
    assert (v2 - v1) / w >= 0.0 by {
      var q := (v2 - v1) / w;
      assert q * w == v2 - v1;
      if q < 0.0 {
        MulNonNegative(-q, w);
      }
    }
    var u := targetMax - targetMin;
    assert u * t2 - u * t1 == u * (t2 - t1);
    if u >= 0.0 {
      MulNonNegative(u, t2 - t1);
    } else {
      MulNonNegative(-u, t2 - t1);
    }
  }

  /** A point a + (b - a) * t with t in [0, 1] lies between a and b. */
  lemma JmapBetween(a: real, b: real, t: real)
    ensures 0.0 <= t <= 1.0 && a <= b ==> a <= a + (b - a) * t <= b
    ensures 0.0 <= t <= 1.0 && b <= a ==> b <= a + (b - a) * t <= a
  {
    if 0.0 <= t <= 1.0 {
      var u := b - a;
      assert u * t + u * (1.0 - t) == u;
      if u >= 0.0 {
        MulNonNegative(u, t);
        MulNonNegative(u, 1.0 - t);
      } else {
        MulNonNegative(-u, t);
        MulNonNegative(-u, 1.0 - t);
      }
    }
  }

  /** A quotient of a part by its positive whole lies in [0, 1]. */
  lemma DivInUnit(a: real, b: real)
    requires b > 0.0
    ensures 0.0 <= a <= b ==> 0.0 <= a / b <= 1.0
  {
    var t := a / b;
    assert t * b == a;
    if t < 0.0 {
      MulNonNegative(-t, b);
    }
    if t > 1.0 {
      MulNonNegative(t - 1.0, b);
    }
  }

  lemma MulNonNegative(x: real, y: real)
    requires x >= 0.0 && y >= 0.0
    ensures x * y >= 0.0
  {
  }

  /** The sign of a product with a non-negative factor, for either sign of the other. */
  lemma ProductSign(x: real, y: real)
    ensures x >= 0.0 && y >= 0.0 ==> x * y >= 0.0
    ensures x <= 0.0 && y >= 0.0 ==> x * y <= 0.0
  {
    if x >= 0.0 && y >= 0.0 {
      MulNonNegative(x, y);
    }
    if x <= 0.0 && y >= 0.0 {
      MulNonNegative(-x, y);
    }
  }

  /** The default floor of juce::Decibels::gainToDecibels. */
  const MinusInfinityDb: real := -100.0

  /** juce::Decibels::gainToDecibels: 20·log10(gain) for a positive gain, never below -100 dB;
      -100 dB for a gain that is not positive. `log10` stands for the floating-point logarithm. */
  function GainToDecibels(gain: real, log10: real -> real): (db: real)
    ensures db >= MinusInfinityDb
    ensures gain <= 0.0 ==> db == MinusInfinityDb
    ensures gain > 0.0 && 20.0 * log10(gain) >= MinusInfinityDb ==> db == 20.0 * log10(gain)
  {
    if gain > 0.0 then
      (if 20.0 * log10(gain) > MinusInfinityDb then 20.0 * log10(gain) else MinusInfinityDb)
    else MinusInfinityDb
  }

  /** A larger gain never has fewer decibels, provided the logarithm keeps the
      order of the two gains. */
  lemma GainToDecibelsMonotone(g1: real, g2: real, log10: real -> real)
    requires g1 <= g2 && (g1 > 0.0 ==> log10(g1) <= log10(g2))
    ensures GainToDecibels(g1, log10) <= GainToDecibels(g2, log10)
  {
  }
}
