/** The bar table: one Bar per tempered-scale note, bound either to one FFT bin
    (possibly shared with neighbours, then blended by an interpolation factor)
    or to a range of bins to be aggregated.

    The program builds the table in one loop that carries the previous bar's
    reach (`prevBin`), the previous bar's start bin (`prevIdx`) and the length
    of the current run of bars sharing that start bin (`nBars`), and writes
    the interpolation factors of a run back into the already emitted bars once
    a bar with a different start bin ends it. This module states the same
    computation with an explicit pending run: bars of the current run wait in
    `run` and receive their factors when the run is closed. The trailing run
    is never closed, exactly as the loop has no flush after its last bar.
    Module BarTable proves the in-place loop equal to this fold. */
module Bars {
  import opened JuceMath

  /** One visual column: its position, the bin it starts at, the last bin of an
      aggregated range (0 when the bar reads one bin) and its interpolation factor. */
  datatype Bar = Bar(posX: int, dataIdx: int, endIdx: int, factor: real)

  /** The last bin bar k claims: its own bin, extended by the rounded half of the
      gap to the next bar's bin when that gap is more than one bin. */
  function Reach(bins: seq<int>, k: nat): int
    requires k < |bins|
  {
    if k + 1 < |bins| && bins[k + 1] - bins[k] > 1 then
      bins[k] + Round((bins[k + 1] - bins[k]) as real / 2.0)
    else bins[k]
  }

  /** The value of `prevBin` when bar k is placed: 0 before the first bar. */
  function PrevBin(bins: seq<int>, k: nat): int
    requires k <= |bins|
  {
    if k == 0 then 0 else Reach(bins, k - 1)
  }

  /** The start bin rule: a bar whose own bin lies beyond the previous reach
      starts right after it; otherwise it starts at its own bin. */
  function StartBin(prevBin: int, bin: int): int
  {
    if prevBin > 0 && prevBin + 1 <= bin then prevBin + 1 else bin
  }

  /** The end of an aggregated range, or 0 for a single-bin bar. */
  function EndBin(reach: int, idx: int): int
  {
    if reach - idx > 0 then reach else 0
  }

  function DataIdx(bins: seq<int>, k: nat): int
    requires k < |bins|
  {
    StartBin(PrevBin(bins, k), bins[k])
  }

  function EndIdx(bins: seq<int>, k: nat): int
    requires k < |bins|
  {
    EndBin(Reach(bins, k), DataIdx(bins, k))
  }

  /** Closing a run: a run of k > 1 bars gets the factors 1/k, 2/k, ..., k/k in
      order; a run of one bar keeps its factor. */
  function CloseRun(run: seq<Bar>): (closed: seq<Bar>)
    ensures |closed| == |run|
    ensures forall t :: 0 <= t < |run| ==>
      closed[t] == run[t].(factor := if |run| > 1 then (t + 1) as real / |run| as real else run[t].factor)
  {
    if |run| > 1 then
      seq(|run|, t requires 0 <= t < |run| => run[t].(factor := (t + 1) as real / |run| as real))
    else run
  }

  /** The fold state: closed bars, the pending run, and the two carried bins. */
  datatype Pending = Pending(done: seq<Bar>, run: seq<Bar>, prevBin: int, prevIdx: int)

  /** Placing the bar for note `index`. */
  function Step(bins: seq<int>, index: nat, p: Pending): Pending
    requires index < |bins|
  {
    var idx := StartBin(p.prevBin, bins[index]);
    var reach := Reach(bins, index);
    var bar := Bar(index, idx, EndBin(reach, idx), 0.0);
    if idx == p.prevIdx then Pending(p.done, p.run + [bar], reach, p.prevIdx)
    else Pending(p.done + CloseRun(p.run), [bar], reach, idx)
  }

  /** The state after the first k notes. */
  function Fold(bins: seq<int>, k: nat): (p: Pending)
    requires k <= |bins|
    ensures |p.done| + |p.run| == k
  {
    if k == 0 then Pending([], [], 0, 0) else Step(bins, k - 1, Fold(bins, k - 1))
  }

  /** A run split off the end of the table it was appended to. */
  lemma SplitPending(done: seq<Bar>, run: seq<Bar>)
    ensures (done + run)[..|done|] == done
    ensures (done + run)[|done|..] == run
  {
  }

  /** The bar a step places for note `index` when it starts at bin `idx`. */
  function PlacedBar(bins: seq<int>, index: nat, idx: int): Bar
    requires index < |bins|
  {
    Bar(index, idx, EndBin(Reach(bins, index), idx), 0.0)
  }

  /** A step whose bar starts at the pending run's bin extends the run. */
  lemma StepExtends(bins: seq<int>, index: nat, p: Pending, idx: int)
    requires index < |bins| && p == Fold(bins, index)
    requires idx == StartBin(p.prevBin, bins[index]) && idx == p.prevIdx
    ensures Fold(bins, index + 1) == Pending(p.done, p.run + [PlacedBar(bins, index, idx)], Reach(bins, index), idx)
  {
  }

  /** A step whose bar starts at another bin closes the pending run and opens a new one. */
  lemma StepCloses(bins: seq<int>, index: nat, p: Pending, idx: int)
    requires index < |bins| && p == Fold(bins, index)
    requires idx == StartBin(p.prevBin, bins[index]) && idx != p.prevIdx
    ensures Fold(bins, index + 1) == Pending(p.done + CloseRun(p.run), [PlacedBar(bins, index, idx)], Reach(bins, index), idx)
  {
  }

  /** The finished table: the closed bars followed by the trailing run as it stands. */
  function ScaleBars(bins: seq<int>): (bars: seq<Bar>)
    ensures |bars| == |bins|
  {
    var p := Fold(bins, |bins|);
    p.done + p.run
  }

  // ---------------------------------------------------------------------------
  // Runs of bars sharing a start bin

  /** [s, e) is a maximal run of bars with the same start bin. */
  predicate IsRun(bars: seq<Bar>, s: int, e: int)
  {
    && 0 <= s < e <= |bars|
    && (forall j :: s <= j < e ==> bars[j].dataIdx == bars[s].dataIdx)
    && (s == 0 || bars[s - 1].dataIdx != bars[s].dataIdx)
    && (e == |bars| || bars[e].dataIdx != bars[s].dataIdx)
  }

  /** The factor of bar j in a closed run [s, e). */
  function RampFactor(s: int, e: int, j: int): real
    requires s < e
  {
    if e - s > 1 then (j - s + 1) as real / (e - s) as real else 0.0
  }

  predicate Ramped(bars: seq<Bar>, s: int, e: int)
    requires 0 <= s < e <= |bars|
  {
    forall j :: s <= j < e ==> bars[j].factor == RampFactor(s, e, j)
  }

  /** Every maximal run of `bars` carries its closed-run factors. */
  ghost predicate AllRunsClosed(bars: seq<Bar>)
  {
    forall s, e :: IsRun(bars, s, e) ==> Ramped(bars, s, e)
  }

  /** The bars placed so far agree with the closed forms: position, start bin,
      end bin, and a factor in [0, 1]. */
  ghost predicate BarsMatch(bins: seq<int>, bars: seq<Bar>, k: nat)
    requires k <= |bins|
  {
    && |bars| == k
    && forall j :: 0 <= j < k ==>
         && bars[j].posX == j
         && bars[j].dataIdx == DataIdx(bins, j)
         && bars[j].endIdx == EndIdx(bins, j)
         && 0.0 <= bars[j].factor <= 1.0
  }

  /** The pending run shares the carried start bin and has no factors yet; the
      last closed bar has another start bin. */
  ghost predicate RunPending(p: Pending)
  {
    && (forall t :: 0 <= t < |p.run| ==> p.run[t].dataIdx == p.prevIdx && p.run[t].factor == 0.0)
    && (|p.done| > 0 ==> p.done[|p.done| - 1].dataIdx != p.prevIdx)
  }

  /** The fold's invariant after k notes. */
  ghost predicate FoldInv(bins: seq<int>, k: nat, p: Pending)
    requires k <= |bins|
  {
    && BarsMatch(bins, p.done + p.run, k)
    && p.prevBin == PrevBin(bins, k)
    && (k == 0 ==> p.done == [] && p.run == [] && p.prevIdx == 0)
    && (k > 0 ==> |p.run| > 0 && p.prevIdx == DataIdx(bins, k - 1))
    && RunPending(p)
    && AllRunsClosed(p.done)
  }

  /** A maximal run of a prefix that stops before the prefix's end is a maximal run of the whole. */
  lemma RunOfPrefix(done: seq<Bar>, tail: seq<Bar>, s: int, e: int)
    requires IsRun(done + tail, s, e) && e <= |done|
    ensures IsRun(done, s, e)
    ensures forall j :: s <= j < e ==> (done + tail)[j] == done[j]
  {
    var bars := done + tail;
    forall j | s <= j < e
      ensures bars[j] == done[j]
    {
    }
    if e < |done| {
      assert bars[e] == done[e];
    }
  }

  /** A maximal run reaching past the closed bars starts where they end, when the
      last closed bar has another start bin than every pending bar. */
  lemma RunPastDone(done: seq<Bar>, tail: seq<Bar>, v: int, s: int, e: int)
    requires forall t :: 0 <= t < |tail| ==> tail[t].dataIdx == v
    requires |done| > 0 ==> done[|done| - 1].dataIdx != v
    requires IsRun(done + tail, s, e) && e > |done|
    ensures s == |done| && e == |done| + |tail|
  {
    var bars := done + tail;
    assert bars[e - 1] == tail[e - 1 - |done|];
    assert bars[|done|] == tail[0];
    if |done| > 0 {
      assert bars[|done| - 1] == done[|done| - 1];
    }
    if s < |done| {
      assert false;
    }
    if s > |done| {
      assert false;
    }
    if e < |bars| {
      assert false;
    }
  }

  /** Closing the pending run keeps every maximal run closed. */
  lemma CloseRunKeepsRunsClosed(done: seq<Bar>, run: seq<Bar>, v: int)
    requires AllRunsClosed(done)
    requires forall t :: 0 <= t < |run| ==> run[t].dataIdx == v && run[t].factor == 0.0
    requires |done| > 0 ==> done[|done| - 1].dataIdx != v
    ensures AllRunsClosed(done + CloseRun(run))
  {
    var closed := CloseRun(run);
    var bars := done + closed;
    forall s, e | IsRun(bars, s, e)
      ensures Ramped(bars, s, e)
    {
      if e <= |done| {
        RunOfPrefix(done, closed, s, e);
        assert Ramped(done, s, e);
      } else {
        RunPastDone(done, closed, v, s, e);
        forall j | s <= j < e
          ensures bars[j].factor == RampFactor(s, e, j)
        {
          assert bars[j] == closed[j - |done|];
        }
      }
    }
  }

  /** Appending the bar for note k extends the agreement by one. */
  lemma AppendMatches(bins: seq<int>, k: nat, bars: seq<Bar>)
    requires k < |bins| && BarsMatch(bins, bars, k)
    ensures BarsMatch(bins, bars + [Bar(k, DataIdx(bins, k), EndIdx(bins, k), 0.0)], k + 1)
  {
  }

  /** Closing the pending run changes factors only, and keeps them in [0, 1]. */
  lemma CloseMatches(bins: seq<int>, k: nat, done: seq<Bar>, run: seq<Bar>)
    requires k <= |bins| && BarsMatch(bins, done + run, k)
    ensures BarsMatch(bins, done + CloseRun(run), k)
  {
    var closed := CloseRun(run);
    var before := done + run;
    var after := done + closed;
    forall j | 0 <= j < k
      ensures after[j].posX == j && after[j].dataIdx == DataIdx(bins, j) && after[j].endIdx == EndIdx(bins, j)
      ensures 0.0 <= after[j].factor <= 1.0
    {
      assert before[j].posX == j && 0.0 <= before[j].factor <= 1.0;
      if j < |done| {
        assert after[j] == done[j] == before[j];
      } else {
        var t := j - |done|;
        assert after[j] == closed[t];
        assert before[j] == run[t];
        if |run| > 1 {
          JuceMath.DivInUnit((t + 1) as real, |run| as real);
        }
      }
    }
  }

  lemma {:induction false} StepKeepsInv(bins: seq<int>, k: nat, p: Pending)
    requires k < |bins| && FoldInv(bins, k, p)
    ensures FoldInv(bins, k + 1, Step(bins, k, p))
  {
    var idx := StartBin(p.prevBin, bins[k]);
    var bar := Bar(k, idx, EndBin(Reach(bins, k), idx), 0.0);
    assert idx == DataIdx(bins, k);
    assert bar == Bar(k, DataIdx(bins, k), EndIdx(bins, k), 0.0);
    var q := Step(bins, k, p);
    if idx == p.prevIdx {
      AppendMatches(bins, k, p.done + p.run);
      assert q.done + q.run == (p.done + p.run) + [bar];
    } else {
      var closed := CloseRun(p.run);
      CloseMatches(bins, k, p.done, p.run);
      AppendMatches(bins, k, p.done + closed);
      assert q.done + q.run == (p.done + closed) + [bar];
      CloseRunKeepsRunsClosed(p.done, p.run, p.prevIdx);
      if |closed| > 0 {
        assert q.done[|q.done| - 1] == closed[|closed| - 1];
      }
    }
  }

  lemma {:induction false} FoldKeepsInv(bins: seq<int>, k: nat)
    requires k <= |bins|
    ensures FoldInv(bins, k, Fold(bins, k))
  {
    if k > 0 {
      FoldKeepsInv(bins, k - 1);
      StepKeepsInv(bins, k - 1, Fold(bins, k - 1));
    }
  }

  // ---------------------------------------------------------------------------
  // Properties of the finished table

  /** One bar per note, in order: bar k sits at position k, starts at DataIdx and
      ends at EndIdx, and its factor lies in [0, 1]. */
  lemma ScaleBarsShape(bins: seq<int>)
    ensures |ScaleBars(bins)| == |bins|
    ensures forall k :: 0 <= k < |bins| ==>
      && ScaleBars(bins)[k].posX == k
      && ScaleBars(bins)[k].dataIdx == DataIdx(bins, k)
      && ScaleBars(bins)[k].endIdx == EndIdx(bins, k)
      && 0.0 <= ScaleBars(bins)[k].factor <= 1.0
  {
    FoldKeepsInv(bins, |bins|);
  }

  /** Interpolation factors: a maximal run of k > 1 bars sharing a start bin
      that is ended by a bar with another start bin carries 1/k, 2/k, ..., k/k
      in order; a run of one bar and the run that ends the table carry 0. */
  lemma RunFactors(bins: seq<int>)
    ensures var bars := ScaleBars(bins);
      forall s, e :: IsRun(bars, s, e) ==>
        forall j :: s <= j < e ==>
          bars[j].factor == (if e < |bars| && e - s > 1 then (j - s + 1) as real / (e - s) as real else 0.0)
  {
    var p := Fold(bins, |bins|);
    FoldKeepsInv(bins, |bins|);
    var bars := p.done + p.run;
    forall s, e | IsRun(bars, s, e)
      ensures forall j :: s <= j < e ==>
        bars[j].factor == (if e < |bars| && e - s > 1 then (j - s + 1) as real / (e - s) as real else 0.0)
    {
      if e <= |p.done| {
        RunOfPrefix(p.done, p.run, s, e);
        assert Ramped(p.done, s, e);
        assert e < |bars|;
      } else {
        RunPastDone(p.done, p.run, p.prevIdx, s, e);
        forall j | s <= j < e
          ensures bars[j].factor == 0.0
        {
          assert bars[j] == p.run[j - |p.done|];
        }
      }
    }
  }

  /** The start bin never exceeds the bar's own bin. It is the bin right after
      the previous reach when that reach is positive and the own bin lies beyond
      it, and the own bin otherwise. */
  lemma DataIdxRule(bins: seq<int>, k: nat)
    requires k < |bins|
    ensures var bar := ScaleBars(bins)[k];
      && bar.dataIdx <= bins[k]
      && (PrevBin(bins, k) > 0 && bins[k] >= PrevBin(bins, k) + 1 ==> bar.dataIdx == PrevBin(bins, k) + 1)
      && (!(PrevBin(bins, k) > 0 && bins[k] >= PrevBin(bins, k) + 1) ==> bar.dataIdx == bins[k])
  {
    ScaleBarsShape(bins);
  }

  /** The reach of a bar stays between its own bin and the next bar's bin. */
  lemma ReachBounds(bins: seq<int>, k: nat)
    requires k < |bins|
    ensures bins[k] <= Reach(bins, k)
    ensures k + 1 < |bins| && bins[k + 1] - bins[k] > 1 ==>
      Reach(bins, k) == bins[k] + (bins[k + 1] - bins[k] + 1) / 2 && Reach(bins, k) < bins[k + 1]
    ensures !(k + 1 < |bins| && bins[k + 1] - bins[k] > 1) ==> Reach(bins, k) == bins[k]
  {
    if k + 1 < |bins| && bins[k + 1] - bins[k] > 1 {
      RoundHalfGap(bins[k + 1] - bins[k]);
    }
  }

  /** The end bin is 0 or lies beyond the start bin. When the next bar's bin is
      d > 1 bins higher, the bar aggregates up to its own bin plus the rounded
      half gap, (d + 1) / 2. */
  lemma EndIdxRule(bins: seq<int>, k: nat)
    requires k < |bins|
    ensures var bar := ScaleBars(bins)[k];
      && (bar.endIdx == 0 || bar.endIdx > bar.dataIdx)
      && (k + 1 < |bins| && bins[k + 1] - bins[k] > 1 ==>
            bar.endIdx == bins[k] + (bins[k + 1] - bins[k] + 1) / 2)
      && (!(k + 1 < |bins| && bins[k + 1] - bins[k] > 1) ==>
            bar.endIdx == (if bins[k] > bar.dataIdx then bins[k] else 0))
  {
    ScaleBarsShape(bins);
    ReachBounds(bins, k);
    DataIdxRule(bins, k);
  }

  predicate NonDecreasingBins(bins: seq<int>)
  {
    forall k, l :: 0 <= k < l < |bins| ==> bins[k] <= bins[l]
  }

  /** For a non-decreasing bin table, start bins never go down from one bar to the next. */
  lemma DataIdxMonotone(bins: seq<int>)
    requires NonDecreasingBins(bins)
    ensures var bars := ScaleBars(bins);
      forall k :: 0 <= k < |bars| - 1 ==> bars[k].dataIdx <= bars[k + 1].dataIdx
  {
    ScaleBarsShape(bins);
    forall k | 0 <= k < |bins| - 1
      ensures DataIdx(bins, k) <= DataIdx(bins, k + 1)
    {
      ReachBounds(bins, k);
      DataIdxRule(bins, k);
    }
  }

  /** For a non-decreasing table of bins that are not negative, bars leave no
      bin unclaimed: each bar starts at most one bin after the last bin of the
      bar before it. */
  lemma NoSkippedBins(bins: seq<int>)
    requires NonDecreasingBins(bins)
    requires forall k :: 0 <= k < |bins| ==> bins[k] >= 0
    ensures var bars := ScaleBars(bins);
      forall k :: 0 <= k < |bars| - 1 ==>
        bars[k + 1].dataIdx <= (if bars[k].endIdx > bars[k].dataIdx then bars[k].endIdx else bars[k].dataIdx) + 1
  {
    ScaleBarsShape(bins);
    forall k | 0 <= k < |bins| - 1
      ensures DataIdx(bins, k + 1) <= (if EndIdx(bins, k) > DataIdx(bins, k) then EndIdx(bins, k) else DataIdx(bins, k)) + 1
    {
      ReachBounds(bins, k);
      DataIdxRule(bins, k);
      DataIdxRule(bins, k + 1);
    }
  }

  /** Bins in [0, limit) give start and end bins in [0, limit): a bar never reads
      past the last bin the table was built from. */
  lemma IndicesInRange(bins: seq<int>, limit: int)
    requires forall k :: 0 <= k < |bins| ==> 0 <= bins[k] < limit
    ensures var bars := ScaleBars(bins);
      forall k :: 0 <= k < |bars| ==>
        0 <= bars[k].dataIdx < limit && 0 <= bars[k].endIdx < limit
  {
    ScaleBarsShape(bins);
    forall k | 0 <= k < |bins|
      ensures 0 <= DataIdx(bins, k) < limit && 0 <= EndIdx(bins, k) < limit
    {
      ReachBounds(bins, k);
      DataIdxRule(bins, k);
      if k > 0 {
        ReachBounds(bins, k - 1);
      }
    }
  }

  /** A concrete table: bins 3, 3, 3, 4, 9 give a closed run of three bars at
      bin 3 with factors 1/3, 2/3, 1; a lone bar at bin 4 that aggregates up to
      bin 7 (4 plus the rounded half of the gap 5); and a last bar whose start is
      pulled down from its own bin 9 to bin 8, right after that reach. As the
      last run it keeps factor 0. */
  lemma ExampleTable()
    ensures ScaleBars([3, 3, 3, 4, 9]) == [
      Bar(0, 3, 0, 1.0 / 3.0),
      Bar(1, 3, 0, 2.0 / 3.0),
      Bar(2, 3, 0, 1.0),
      Bar(3, 4, 7, 0.0),
      Bar(4, 8, 9, 0.0)]
  {
    RoundHalfGap(5);
    var bins := [3, 3, 3, 4, 9];
    assert Reach(bins, 3) == 7;
  }
}
