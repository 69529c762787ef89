/** Drawing levels: getLevel turns one magnitude of the working buffer into
    the y coordinate of a bar's top, and drawFrame picks each bar's top either
    from one bin (blended with the bin before it by the bar's interpolation
    factor) or by a scan over the bar's bin range.

    Screen y grows downward: a level of 0 is the top of the window (loudest),
    a level equal to the window height is the bottom (silent). Levels are
    decibels relative to gainToDecibels(FftSize): a bin whose magnitude is
    FftSize sits at 0 dB. */
module Levels {
  import opened JuceMath
  import opened FftConfig
  import Bars

  const MinDb: real := -100.0
  const MaxDb: real := 0.0

  /** The decibels of a magnitude relative to a magnitude of FftSize, before clamping. */
  function RelativeDb(gain: real, log10: real -> real): real
  {
    GainToDecibels(gain, log10) - GainToDecibels(FftSize as real, log10)
  }

  /** getLevel: the relative level clamped to [-100, 0] dB and mapped linearly
      with -100 dB to `height` and 0 dB to 0. */
  function GetLevel(fftData: seq<real>, i: int, height: real, log10: real -> real): (level: real)
    requires 0 <= i < |fftData|
    ensures 0.0 <= height ==> 0.0 <= level <= height
    ensures RelativeDb(fftData[i], log10) >= MaxDb ==> level == 0.0
    ensures RelativeDb(fftData[i], log10) <= MinDb ==> level == height
  {
    var db := Jlimit(MinDb, MaxDb, RelativeDb(fftData[i], log10));
    Jmap(db, MinDb, MaxDb, height, 0.0)
  }

  /** Between the two limits the level falls linearly: each decibel below 0
      lowers the bar top by a hundredth of the height. */
  lemma LevelIsLinear(fftData: seq<real>, i: int, height: real, log10: real -> real)
    requires 0 <= i < |fftData|
    requires MinDb <= RelativeDb(fftData[i], log10) <= MaxDb
    ensures GetLevel(fftData, i, height, log10) == -height * RelativeDb(fftData[i], log10) / 100.0
  {
    var db := RelativeDb(fftData[i], log10);
    assert (db - MinDb) / (MaxDb - MinDb) == (db + 100.0) / 100.0;
  }

  /** A louder bin never draws lower: with a logarithm that keeps the order of
      the two magnitudes, the larger magnitude gets the smaller (higher) level. */
  lemma LevelMonotone(fftData: seq<real>, i: int, j: int, height: real, log10: real -> real)
    requires 0 <= i < |fftData| && 0 <= j < |fftData| && 0.0 <= height
    requires fftData[i] <= fftData[j]
    requires fftData[i] > 0.0 ==> log10(fftData[i]) <= log10(fftData[j])
    ensures GetLevel(fftData, j, height, log10) <= GetLevel(fftData, i, height, log10)
  {
    GainToDecibelsMonotone(fftData[i], fftData[j], log10);
    var di := Jlimit(MinDb, MaxDb, RelativeDb(fftData[i], log10));
    var dj := Jlimit(MinDb, MaxDb, RelativeDb(fftData[j], log10));
    JmapMonotone(di, dj, MinDb, MaxDb, height, 0.0);
  }

  /** A silent bin (magnitude 0 or less) draws at the bottom of the window,
      provided the logarithm of FftSize is not negative. */
  lemma SilentBinAtBottom(fftData: seq<real>, i: int, height: real, log10: real -> real)
    requires 0 <= i < |fftData| && fftData[i] <= 0.0
    requires log10(FftSize as real) >= 0.0
    ensures GetLevel(fftData, i, height, log10) == height
  {
  }

  /** The blend of a shared bin's bar: prev + (own - prev) · factor. */
  function Interpolate(prev: real, own: real, factor: real): (h: real)
    ensures 0.0 <= factor <= 1.0 && prev <= own ==> prev <= h <= own
    ensures 0.0 <= factor <= 1.0 && own <= prev ==> own <= h <= prev
    ensures factor == 1.0 ==> h == own
  {
    var d := own - prev;
    ProductSign(d, factor);
    ProductSign(d, 1.0 - factor);
    assert d * factor + d * (1.0 - factor) == d;
    prev + d * factor
  }

  /** The aggregation loop over bins j..endIdx as the program writes it: the
      running top `h` is replaced by bin j's level whenever bin j's raw
      magnitude exceeds h, which is a pixel coordinate and not a magnitude. */
  function AggregateFrom(fftData: seq<real>, j: int, endIdx: int, h: real, height: real, log10: real -> real): (r: real)
    requires 0 <= j && endIdx < |fftData|
    ensures 0.0 <= h <= height ==> 0.0 <= r <= height
    ensures r == h || exists k :: j <= k <= endIdx && r == GetLevel(fftData, k, height, log10)
    decreases endIdx + 1 - j
  {
    if j > endIdx then h
    else
      var h' := if fftData[j] > h then GetLevel(fftData, j, height, log10) else h;
      AggregateFrom(fftData, j + 1, endIdx, h', height, log10)
  }

  /** The bar's buffer reads stay inside the working buffer. */
  predicate ReadsInside(bar: Bars.Bar, n: int)
  {
    0 <= bar.dataIdx && bar.endIdx < n && (bar.endIdx == 0 ==> bar.dataIdx < n)
  }

  /** The top of one bar in drawFrame. A bar with endIdx 0 reads its start bin,
      blended with the bin before it (or with itself at bin 0) when its factor
      is positive; any other bar runs the aggregation loop from 0. */
  function BarHeight(fftData: seq<real>, bar: Bars.Bar, height: real, log10: real -> real): (h: real)
    requires ReadsInside(bar, |fftData|)
    ensures 0.0 <= height && bar.factor <= 1.0 ==> 0.0 <= h <= height
  {
    if bar.endIdx == 0 then
      var own := GetLevel(fftData, bar.dataIdx, height, log10);
      if bar.factor > 0.0 then
        var prev := if bar.dataIdx > 0 then GetLevel(fftData, bar.dataIdx - 1, height, log10) else own;
        Interpolate(prev, own, bar.factor)
      else own
    else
      AggregateFrom(fftData, bar.dataIdx, bar.endIdx, 0.0, height, log10)
  }

  /** A single-bin bar with a factor in (0, 1] is drawn between the level of
      the bin before it (its own at bin 0) and its own level; with no factor it
      is drawn at its own level. */
  lemma InterpolatedBetween(fftData: seq<real>, bar: Bars.Bar, height: real, log10: real -> real)
    requires ReadsInside(bar, |fftData|) && bar.endIdx == 0
    ensures var own := GetLevel(fftData, bar.dataIdx, height, log10);
      var prev := if bar.dataIdx > 0 then GetLevel(fftData, bar.dataIdx - 1, height, log10) else own;
      var h := BarHeight(fftData, bar, height, log10);
      && (0.0 < bar.factor <= 1.0 && prev <= own ==> prev <= h <= own)
      && (0.0 < bar.factor <= 1.0 && own <= prev ==> own <= h <= prev)
      && (bar.factor <= 0.0 || bar.dataIdx == 0 ==> h == own)
  {
  }

  /** The factor plays no part in an aggregated bar. */
  lemma FactorIgnoredWhenAggregating(fftData: seq<real>, bar: Bars.Bar, f: real, height: real, log10: real -> real)
    requires ReadsInside(bar, |fftData|) && bar.endIdx != 0
    ensures BarHeight(fftData, bar.(factor := f), height, log10) == BarHeight(fftData, bar, height, log10)
  {
  }

  /** The aggregation loop leaves the running top alone when no magnitude in
      the range exceeds it. */
  lemma {:induction false} AggregateKeepsTop(fftData: seq<real>, j: int, endIdx: int, h: real, height: real, log10: real -> real)
    requires 0 <= j && endIdx < |fftData|
    requires forall k :: j <= k <= endIdx ==> fftData[k] <= h
    ensures AggregateFrom(fftData, j, endIdx, h, height, log10) == h
    decreases endIdx + 1 - j
  {
    if j <= endIdx {
      AggregateKeepsTop(fftData, j + 1, endIdx, h, height, log10);
    }
  }

  /** The last bin of the range whose raw magnitude exceeds the window height
      decides an aggregated bar, when no later bin of the range has a positive
      magnitude: the running top never exceeds the height, so that bin always
      replaces it, and nothing after it can. */
  lemma {:induction false} AggregateLastLoudBinWins(fftData: seq<real>, j: int, endIdx: int, h: real, height: real, log10: real -> real, k: int)
    requires 0 <= j <= k <= endIdx < |fftData| && 0.0 <= h <= height
    requires fftData[k] > height
    requires forall m :: k < m <= endIdx ==> fftData[m] <= 0.0
    ensures AggregateFrom(fftData, j, endIdx, h, height, log10) == GetLevel(fftData, k, height, log10)
    decreases k - j
  {
    var h' := if fftData[j] > h then GetLevel(fftData, j, height, log10) else h;
    if j < k {
      AggregateLastLoudBinWins(fftData, j + 1, endIdx, h', height, log10, k);
    } else {
      var top := GetLevel(fftData, k, height, log10);
      AggregateKeepsTop(fftData, k + 1, endIdx, top, height, log10);
    }
  }

  /** Not a peak hold: over the bins [0, 1] with magnitudes FftSize and 1 and
      a positive height, bin 0 sits at 0 dB and level 0, the top of the
      window, yet it is overwritten by the much quieter bin 1, whose magnitude 1 exceeds the
      running top 0. A peak hold would keep level 0. */
  lemma AggregateIsNotPeakHold(height: real, log10: real -> real)
    requires height > 0.0 && log10(1.0) == 0.0 && log10(FftSize as real) > 0.0
    ensures var data := [FftSize as real, 1.0];
      && GetLevel(data, 0, height, log10) == 0.0
      && AggregateFrom(data, 0, 1, 0.0, height, log10) == GetLevel(data, 1, height, log10)
      && GetLevel(data, 1, height, log10) > 0.0
  {
    var data := [FftSize as real, 1.0];
    var db := RelativeDb(data[1], log10);
    assert db < MaxDb;
    if db >= MinDb {
      LevelIsLinear(data, 1, height, log10);
      MulNonNegative(height, -db);
    }
  }

  /** An aggregated bar over a silent range is drawn at the top of the window,
      full height: the running top starts at 0 and no magnitude exceeds it.
      A single-bin bar over a silent bin is drawn at the bottom. */
  lemma SilentAggregatedBarAtTop(fftData: seq<real>, bar: Bars.Bar, height: real, log10: real -> real)
    requires ReadsInside(bar, |fftData|) && bar.endIdx != 0
    requires forall k :: bar.dataIdx <= k <= bar.endIdx ==> fftData[k] <= 0.0
    ensures BarHeight(fftData, bar, height, log10) == 0.0
  {
    AggregateKeepsTop(fftData, bar.dataIdx, bar.endIdx, 0.0, height, log10);
  }

  /** The tops of all bars of a frame, in table order. */
  function FrameHeights(fftData: seq<real>, bars: seq<Bars.Bar>, height: real, log10: real -> real): (tops: seq<real>)
    requires forall k :: 0 <= k < |bars| ==> ReadsInside(bars[k], |fftData|)
    ensures |tops| == |bars|
    ensures forall k :: 0 <= k < |bars| ==> tops[k] == BarHeight(fftData, bars[k], height, log10)
  {
    seq(|bars|, k requires 0 <= k < |bars| => BarHeight(fftData, bars[k], height, log10))
  }

  /** Every bar of a table built from a bin table within the working buffer
      reads inside it and is drawn within the window. */
  lemma FrameInsideWindow(bins: seq<int>, fftData: seq<real>, height: real, log10: real -> real)
    requires forall k :: 0 <= k < |bins| ==> 0 <= bins[k] < |fftData|
    requires 0.0 <= height
    ensures var bars := Bars.ScaleBars(bins);
      && (forall k :: 0 <= k < |bars| ==> ReadsInside(bars[k], |fftData|))
      && (forall k :: 0 <= k < |bars| ==> 0.0 <= FrameHeights(fftData, bars, height, log10)[k] <= height)
  {
    var bars := Bars.ScaleBars(bins);
    Bars.ScaleBarsShape(bins);
    Bars.IndicesInRange(bins, |fftData|);
    assert forall k :: 0 <= k < |bars| ==> ReadsInside(bars[k], |fftData|);
  }
}
