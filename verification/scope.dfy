/** The oscilloscope-style level line of the older drawNextFrameOfSpectrum:
    scopeSize points, point i reading the bin at a skewed proportion of the
    spectrum's lower half and holding its level normalised to [0, 1].

    The skew 1 - exp(log(1 - i / scopeSize) · 0.2) is floating-point code and
    enters as the parameter `skew`, applied to the proportion i / scopeSize;
    nothing is assumed about its values. */
module Scope {
  import opened JuceMath
  import opened FftConfig
  import Levels

  /** The bin index of a skewed proportion: the (int) cast of
      proportion · FftSize · 0.5, limited to [0, FftSize / 2]. */
  function ScopeIndex(skewed: real): (idx: int)
    ensures 0 <= idx <= FftSize / 2
    ensures skewed <= 0.0 ==> idx == 0
    ensures skewed >= 1.0 ==> idx == FftSize / 2
    ensures 0.0 <= skewed <= 1.0 ==> idx as real <= skewed * 1024.0 < idx as real + 1.0
  {
    JlimitInt(0, FftSize / 2, TruncToInt(skewed * FftSize as real * 0.5))
  }

  /** A larger skewed proportion never reads a lower bin. */
  lemma ScopeIndexMonotone(s1: real, s2: real)
    requires s1 <= s2
    ensures ScopeIndex(s1) <= ScopeIndex(s2)
  {
    var x1 := s1 * FftSize as real * 0.5;
    var x2 := s2 * FftSize as real * 0.5;
    assert x1 <= x2;
  }

  /** The level of one magnitude on the scope: the relative decibels clamped
      to [-100, 0] and mapped with -100 dB to 0 and 0 dB to 1. */
  function ScopeLevel(gain: real, log10: real -> real): (level: real)
    ensures 0.0 <= level <= 1.0
    ensures Levels.RelativeDb(gain, log10) >= Levels.MaxDb ==> level == 1.0
    ensures Levels.RelativeDb(gain, log10) <= Levels.MinDb ==> level == 0.0
  {
    var db := Jlimit(Levels.MinDb, Levels.MaxDb, Levels.RelativeDb(gain, log10));
    Jmap(db, Levels.MinDb, Levels.MaxDb, 0.0, 1.0)
  }

  /** The scope level is the bar level read upside down: for a window of any
      height, level · height is the distance of getLevel's bar top from the
      bottom of the window. */
  lemma ScopeLevelMirrorsBarLevel(fftData: seq<real>, i: int, height: real, log10: real -> real)
    requires 0 <= i < |fftData|
    ensures ScopeLevel(fftData[i], log10) * height == height - Levels.GetLevel(fftData, i, height, log10)
  {
    var db := Jlimit(Levels.MinDb, Levels.MaxDb, Levels.RelativeDb(fftData[i], log10));
    var t := (db - Levels.MinDb) / (Levels.MaxDb - Levels.MinDb);
    assert ScopeLevel(fftData[i], log10) == t;
    assert Levels.GetLevel(fftData, i, height, log10) == height + (0.0 - height) * t;
  }

  /** The scope loop: point i holds the level of the bin its skewed proportion
      selects. Every point lies in [0, 1]. */
  method ScopeFrame(fftData: seq<real>, scopeSize: nat, skew: real -> real, log10: real -> real)
    returns (scopeData: seq<real>)
    requires |fftData| == 2 * FftSize
    ensures |scopeData| == scopeSize
    ensures forall i :: 0 <= i < scopeSize ==> 0.0 <= scopeData[i] <= 1.0
    ensures forall i :: 0 <= i < scopeSize ==>
      scopeData[i] == ScopeLevel(fftData[ScopeIndex(skew(i as real / scopeSize as real))], log10)
  {
    scopeData := [];
    var i := 0;
    while i < scopeSize
      invariant 0 <= i <= scopeSize
      invariant |scopeData| == i
      invariant forall k :: 0 <= k < i ==>
        scopeData[k] == ScopeLevel(fftData[ScopeIndex(skew(k as real / scopeSize as real))], log10)
    {
      var skewedProportionX := skew(i as real / scopeSize as real);
      var fftDataIndex := ScopeIndex(skewedProportionX);
      var level := ScopeLevel(fftData[fftDataIndex], log10);
      scopeData := scopeData + [level];
      i := i + 1;
    }
  }
}
