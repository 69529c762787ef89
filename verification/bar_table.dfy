/** buildTemperedScale as the program writes it: the note scan, then one loop
    over the kept frequencies that computes each bar's bins with freqToBin,
    counts the current run of bars sharing a start bin in `nBars`, and writes
    the run's interpolation factors back into the emitted bars when a bar with
    a different start bin ends it. */
module BarTable {
  import opened JuceMath
  import opened BinMap
  import opened Bars
  import TemperedScale

  /** The back-patching of a run that has just ended: when it holds more than
      one bar, the last nBars emitted bars get the factors 1/nBars, 2/nBars,
      ..., 1 in order; the bars before them are untouched. */
  method PatchFactors(bars: seq<Bar>, nBars: int) returns (patched: seq<Bar>)
    requires 0 <= nBars <= |bars|
    ensures patched == bars[..|bars| - nBars] + CloseRun(bars[|bars| - nBars..])
  {
    if nBars <= 1 {
      assert bars == bars[..|bars| - nBars] + bars[|bars| - nBars..];
      return bars;
    }
    ghost var done := bars[..|bars| - nBars];
    ghost var run := bars[|bars| - nBars..];
    patched := bars;
    var iFactor := 0;
    while iFactor < nBars
      invariant 0 <= iFactor <= nBars
      invariant |patched| == |bars|
      invariant patched[..|bars| - nBars] == done
      invariant forall t :: 0 <= t < iFactor ==>
        patched[|bars| - nBars + t] == run[t].(factor := (t + 1) as real / nBars as real)
      invariant forall t :: iFactor <= t < nBars ==> patched[|bars| - nBars + t] == run[t]
    {
      var factor := (iFactor as real + 1.0) / nBars as real;
      patched := patched[|patched| - nBars + iFactor := patched[|patched| - nBars + iFactor].(factor := factor)];
      iFactor := iFactor + 1;
    }
    assert patched[|bars| - nBars..] == CloseRun(run);
    assert patched == patched[..|bars| - nBars] + patched[|bars| - nBars..];
  }

  /** The look-ahead: a bar claims its own bin and, when the next note's bin is
      d > 1 bins higher, the rounded half of the gap, (d + 1) / 2, which stops
      short of the next bin. */
  method ClaimHalfGap(scale: seq<real>, sampleRate: real, index: nat, bin: int) returns (prevBin: int)
    requires sampleRate > 0.0 && index < |scale|
    requires bin == FreqToBin(scale[index], sampleRate)
    ensures prevBin >= bin
    ensures index + 1 < |scale| && FreqToBin(scale[index + 1], sampleRate) - bin > 1 ==>
      var nextBin := FreqToBin(scale[index + 1], sampleRate);
      prevBin == bin + (nextBin - bin + 1) / 2 && prevBin < nextBin
    ensures !(index + 1 < |scale| && FreqToBin(scale[index + 1], sampleRate) - bin > 1) ==> prevBin == bin
    ensures prevBin == Reach(Bins(scale, sampleRate), index)
  {
    var nextBin := bin;
    prevBin := bin;
    if index + 1 < |scale| {
      nextBin := FreqToBin(scale[index + 1], sampleRate);
      if nextBin - bin > 1 {
        RoundHalfGap(nextBin - bin);
        prevBin := prevBin + Round((nextBin - bin) as real / 2.0);
      }
    }
  }

  /** The loop's variables after `k` notes agree with the pending-run fold:
      the emitted bars are the closed bars followed by the pending run. */
  ghost predicate Tracks(bins: seq<int>, k: nat, bars: seq<Bar>, prevBin: int, prevIdx: int, nBars: int)
    requires k <= |bins|
  {
    var p := Fold(bins, k);
    bars == p.done + p.run && prevBin == p.prevBin && prevIdx == p.prevIdx && nBars == |p.run|
  }

  /** One iteration of the bar loop: place the bar of note `index`, closing and
      back-patching the pending run first when the new bar starts elsewhere. */
  method PlaceBar(scale: seq<real>, sampleRate: real, index: nat, bars: seq<Bar>, prevBin: int, prevIdx: int, nBars: int)
    returns (bars': seq<Bar>, prevBin': int, prevIdx': int, nBars': int)
    requires sampleRate > 0.0 && index < |scale|
    requires Tracks(Bins(scale, sampleRate), index, bars, prevBin, prevIdx, nBars)
    ensures Tracks(Bins(scale, sampleRate), index + 1, bars', prevBin', prevIdx', nBars')
  {
    ghost var bins := Bins(scale, sampleRate);
    ghost var p := Fold(bins, index);
    var bin := FreqToBin(scale[index], sampleRate);
    // start from the bin after the previous reach, or from the own bin
    var idx := if prevBin > 0 && prevBin + 1 <= bin then prevBin + 1 else bin;
    assert bin == bins[index];
    ghost var placed := PlacedBar(bins, index, idx);
    ghost var q: Pending;

    bars' := bars;
    prevIdx' := prevIdx;
    nBars' := nBars;
    if idx == prevIdx {
      nBars' := nBars + 1;
      StepExtends(bins, index, p, idx);
      q := Pending(p.done, p.run + [placed], Reach(bins, index), idx);
      assert q.done + q.run == bars' + [placed];
    } else {
      SplitPending(p.done, p.run);
      bars' := PatchFactors(bars, nBars);
      assert bars' == p.done + CloseRun(p.run);
      prevIdx' := idx;
      nBars' := 1;
      StepCloses(bins, index, p, idx);
      q := Pending(p.done + CloseRun(p.run), [placed], Reach(bins, index), idx);
    }
    assert q == Fold(bins, index + 1);

    prevBin' := ClaimHalfGap(scale, sampleRate, index, bin);

    var endIdx := if prevBin' - idx > 0 then prevBin' else 0;
    assert Bar(index, idx, endIdx, 0.0) == placed;
    bars' := bars' + [Bar(index, idx, endIdx, 0.0)];
  }

  /** The bar loop over a frequency table, with in-place back-patching. It
      builds exactly the table of the pending-run fold over the table's bins. */
  method BuildBars(scale: seq<real>, sampleRate: real) returns (bars: seq<Bar>)
    requires sampleRate > 0.0
    ensures bars == ScaleBars(Bins(scale, sampleRate))
    ensures |bars| == |scale|
  {
    bars := [];
    var prevBin := 0;
    var prevIdx := 0;
    var nBars := 0;
    var index := 0;
    while index < |scale|
      invariant 0 <= index <= |scale|
      invariant Tracks(Bins(scale, sampleRate), index, bars, prevBin, prevIdx, nBars)
    {
      bars, prevBin, prevIdx, nBars := PlaceBar(scale, sampleRate, index, bars, prevBin, prevIdx, nBars);
      index := index + 1;
    }
  }

  /** The whole constructor step: scan the tempered scale and build its bars.
      The sample rate must already be positive, and the grouping stride too. */
  method BuildTemperedScale(gen: nat -> real, bound: nat, minFreq: real, maxFreq: real, groupNotes: int, sampleRate: real)
    returns (scale: seq<real>, bars: seq<Bar>)
    requires sampleRate > 0.0 && groupNotes > 0 && gen(bound) > maxFreq
    ensures scale == TemperedScale.Scale(gen, minFreq, maxFreq, groupNotes, bound)
    ensures bars == ScaleBars(Bins(scale, sampleRate))
    ensures |bars| == |scale|
    ensures forall k :: 0 <= k < |scale| ==> minFreq <= scale[k] <= maxFreq
    ensures forall k :: 0 <= k < |bars| ==> bars[k].posX == k
  {
    scale := TemperedScale.BuildScale(gen, minFreq, maxFreq, groupNotes, bound);
    TemperedScale.ScaleInBand(gen, minFreq, maxFreq, groupNotes, bound);
    bars := BuildBars(scale, sampleRate);
    ScaleBarsShape(Bins(scale, sampleRate));
  }

  /** With an increasing generator and non-negative frequencies, the start bins
      of the built table never go down, and every start and end bin is a bin of
      the FFT working buffer's first half or its clamp FftSize - 1. */
  lemma BuiltTableMonotone(scale: seq<real>, sampleRate: real)
    requires sampleRate > 0.0
    requires TemperedScale.IncreasingSeq(scale)
    requires forall k :: 0 <= k < |scale| ==> scale[k] >= 0.0
    ensures var bars := ScaleBars(Bins(scale, sampleRate));
      && (forall k :: 0 <= k < |bars| - 1 ==> bars[k].dataIdx <= bars[k + 1].dataIdx)
      && (forall k :: 0 <= k < |bars| ==>
            0 <= bars[k].dataIdx < FftConfig.FftSize && 0 <= bars[k].endIdx < FftConfig.FftSize)
  {
    var bins := Bins(scale, sampleRate);
    BinsMonotone(scale, sampleRate);
    DataIdxMonotone(bins);
    BinsInRange(scale, sampleRate);
    IndicesInRange(bins, FftConfig.FftSize);
  }
}
