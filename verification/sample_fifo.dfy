/** The capture side of the analyser: samples accumulate in a fifo of FftSize
    slots, and a full window is handed to the FFT working buffer through a
    single "next block ready" flag that the timer side clears after drawing.
    The audio thread and the timer run concurrently in the program; here each
    call is one sequential transition of an immutable state record. */
module SampleFifo {
  import opened FftConfig

  /** The analyser fields the handoff touches: the capture fifo, its write
      cursor, the FFT working buffer and the ready flag. */
  datatype Analyser = Analyser(fifo: seq<real>, fifoIndex: int, fftData: seq<real>, nextBlockReady: bool)

  /** The shape the C++ member arrays give the state, and the cursor range every push keeps. */
  predicate Valid(a: Analyser)
  {
    |a.fifo| == FftSize && |a.fftData| == 2 * FftSize && 0 <= a.fifoIndex <= FftSize
  }

  function Zeros(n: nat): (z: seq<real>)
    ensures |z| == n
    ensures forall k :: 0 <= k < n ==> z[k] == 0.0
  {
    seq(n, k => 0.0)
  }

  /** zeromem over the whole working buffer followed by memcpy of the fifo into its front. */
  function CopyWindow(fifo: seq<real>, fftData: seq<real>): (d: seq<real>)
    requires |fifo| == FftSize && |fftData| == 2 * FftSize
    ensures |d| == 2 * FftSize
    ensures d[..FftSize] == fifo
    ensures forall k :: FftSize <= k < 2 * FftSize ==> d[k] == 0.0
  {
    var cleared := Zeros(|fftData|);
    fifo + cleared[|fifo|..]
  }

  /** pushNextSampleIntoFifo. A full fifo is first handed over (only when no
      block is pending; otherwise the new window is dropped and the pending one
      kept), the cursor goes back to 0, and then the sample is stored at the
      cursor, which advances. */
  function Push(a: Analyser, sample: real): (r: Analyser)
    requires Valid(a)
    ensures Valid(r)
    ensures 1 <= r.fifoIndex <= FftSize
    ensures r.fifo[r.fifoIndex - 1] == sample
    ensures a.fifoIndex < FftSize ==>
      && r.fifoIndex == a.fifoIndex + 1
      && r.fifo == a.fifo[a.fifoIndex := sample]
      && r.fftData == a.fftData && r.nextBlockReady == a.nextBlockReady
    ensures a.fifoIndex == FftSize ==>
      && r.fifoIndex == 1
      && r.fifo == a.fifo[0 := sample]
      && r.nextBlockReady
    ensures a.fifoIndex == FftSize && !a.nextBlockReady ==>
      && r.fftData[..FftSize] == a.fifo
      && (forall k :: FftSize <= k < 2 * FftSize ==> r.fftData[k] == 0.0)
    ensures a.fifoIndex == FftSize && a.nextBlockReady ==> r.fftData == a.fftData
  {
    var b :=
      if a.fifoIndex == FftSize then
        if !a.nextBlockReady then
          a.(fftData := CopyWindow(a.fifo, a.fftData), nextBlockReady := true, fifoIndex := 0)
        else
          a.(fifoIndex := 0)
      else a;
    b.(fifo := b.fifo[b.fifoIndex := sample], fifoIndex := b.fifoIndex + 1)
  }

  /** Pushing a sequence of samples one after another, in order. */
  function PushAll(a: Analyser, samples: seq<real>): (r: Analyser)
    requires Valid(a)
    ensures Valid(r)
    decreases |samples|
  {
    if |samples| == 0 then a
    else Push(PushAll(a, samples[..|samples| - 1]), samples[|samples| - 1])
  }

  /** The audio callback's sample block: one sequence per channel, read from startSample on. */
  datatype AudioBlock = AudioBlock(channels: seq<seq<real>>, startSample: nat, numSamples: nat)

  /** The caller's promise that channel 0 holds the requested samples. */
  predicate WellFormedBlock(block: AudioBlock)
  {
    |block.channels| > 0 ==> block.startSample + block.numSamples <= |block.channels[0]|
  }

  /** getNextAudioBlock: every sample of channel 0 in the requested span is
      pushed, in order; a buffer without channels pushes nothing. */
  method GetNextAudioBlock(a: Analyser, block: AudioBlock) returns (r: Analyser)
    requires Valid(a) && WellFormedBlock(block)
    ensures Valid(r)
    ensures |block.channels| == 0 ==> r == a
    ensures |block.channels| > 0 ==>
      r == PushAll(a, block.channels[0][block.startSample..block.startSample + block.numSamples])
  {
    r := a;
    if |block.channels| > 0 {
      var channelData := block.channels[0][block.startSample..block.startSample + block.numSamples];
      var i := 0;
      while i < block.numSamples
        invariant 0 <= i <= block.numSamples
        invariant Valid(r)
        invariant r == PushAll(a, channelData[..i])
      {
        assert channelData[..i + 1][..i] == channelData[..i];
        r := Push(r, channelData[i]);
        i := i + 1;
      }
      assert channelData[..block.numSamples] == channelData;
    }
  }

  /** timerCallback: when a block is ready, the frame is drawn (the windowing
      and FFT replace the working buffer by `spectrum`) and only then is the
      flag cleared; with no block ready nothing changes. */
  function TimerTick(a: Analyser, spectrum: seq<real>): (r: Analyser)
    requires Valid(a) && |spectrum| == 2 * FftSize
    ensures Valid(r)
    ensures !r.nextBlockReady
    ensures r.fifo == a.fifo && r.fifoIndex == a.fifoIndex
    ensures a.nextBlockReady ==> r.fftData == spectrum
    ensures !a.nextBlockReady ==> r == a
  {
    if a.nextBlockReady then a.(fftData := spectrum, nextBlockReady := false) else a
  }

  /** Pushing in two installments is pushing the concatenation. */
  lemma {:induction false} PushAllAppend(a: Analyser, xs: seq<real>, ys: seq<real>)
    requires Valid(a)
    ensures PushAll(a, xs + ys) == PushAll(PushAll(a, xs), ys)
    decreases |ys|
  {
    if |ys| == 0 {
      assert xs + ys == xs;
    } else {
      var zs := xs + ys;
      assert zs[..|zs| - 1] == xs + ys[..|ys| - 1];
      assert zs[|zs| - 1] == ys[|ys| - 1];
      PushAllAppend(a, xs, ys[..|ys| - 1]);
    }
  }

  /** The older pending block wins: while the flag is set, no number of pushes
      touches the working buffer or clears the flag. */
  lemma {:induction false} PendingBlockKept(a: Analyser, samples: seq<real>)
    requires Valid(a) && a.nextBlockReady
    ensures PushAll(a, samples).nextBlockReady
    ensures PushAll(a, samples).fftData == a.fftData
    decreases |samples|
  {
    if |samples| > 0 {
      PendingBlockKept(a, samples[..|samples| - 1]);
    }
  }

  /** Filling a fifo that does not overflow: the samples land in order from the
      cursor on, the earlier slots and the handoff state are untouched. */
  lemma {:induction false} FillWithoutHandoff(a: Analyser, samples: seq<real>)
    requires Valid(a) && a.fifoIndex + |samples| <= FftSize
    ensures PushAll(a, samples).fifoIndex == a.fifoIndex + |samples|
    ensures PushAll(a, samples).fifo[..a.fifoIndex] == a.fifo[..a.fifoIndex]
    ensures PushAll(a, samples).fifo[a.fifoIndex..a.fifoIndex + |samples|] == samples
    ensures PushAll(a, samples).fftData == a.fftData
    ensures PushAll(a, samples).nextBlockReady == a.nextBlockReady
    decreases |samples|
  {
    if |samples| > 0 {
      var n := |samples| - 1;
      FillWithoutHandoff(a, samples[..n]);
      var b := PushAll(a, samples[..n]);
      assert samples[..n] + [samples[n]] == samples;
      WriteExtendsSlice(b.fifo, a.fifoIndex, samples[..n], samples[n]);
    }
  }

  /** Writing x right after a slice that holds xs extends the slice to xs + [x]
      and leaves everything before the slice alone. */
  lemma WriteExtendsSlice(s: seq<real>, from: nat, xs: seq<real>, x: real)
    requires from + |xs| < |s| && s[from..from + |xs|] == xs
    ensures s[from + |xs| := x][..from] == s[..from]
    ensures s[from + |xs| := x][from..from + |xs| + 1] == xs + [x]
  {
    var t := s[from + |xs| := x];
    forall k | 0 <= k < |xs|
      ensures t[from + k] == xs[k]
    {
      assert s[from..from + |xs|][k] == s[from + k];
    }
  }

  /** From an empty cursor with nothing pending, the window of the first FftSize
      samples is handed over when sample FftSize + 1 arrives, and that sample
      starts the next window. The fifo's earlier contents play no part. */
  lemma FirstWindowHandedOver(a: Analyser, samples: seq<real>)
    requires Valid(a) && a.fifoIndex == 0 && !a.nextBlockReady
    requires |samples| == FftSize + 1
    ensures PushAll(a, samples).nextBlockReady
    ensures PushAll(a, samples).fftData == samples[..FftSize] + Zeros(FftSize)
    ensures PushAll(a, samples).fifoIndex == 1
    ensures PushAll(a, samples).fifo[0] == samples[FftSize]
  {
    var window := samples[..FftSize];
    FillWithoutHandoff(a, window);
    var b := PushAll(a, window);
    assert b.fifo == window by {
      assert b.fifo[0..FftSize] == window;
      assert b.fifo[0..FftSize] == b.fifo;
    }
    assert samples[..|samples| - 1] == window;
    var r := Push(b, samples[FftSize]);
    assert r.fftData == window + Zeros(FftSize) by {
      assert r.fftData[..FftSize] == window;
      assert r.fftData[FftSize..] == Zeros(FftSize);
      assert r.fftData == r.fftData[..FftSize] + r.fftData[FftSize..];
    }
  }

  /** Drop, not block: however many samples follow the first full window
      without the timer draining it, the first window stays the pending block
      and every later window is discarded. */
  lemma FirstWindowKept(a: Analyser, samples: seq<real>)
    requires Valid(a) && a.fifoIndex == 0 && !a.nextBlockReady
    requires |samples| >= FftSize + 1
    ensures PushAll(a, samples).nextBlockReady
    ensures PushAll(a, samples).fftData == samples[..FftSize] + Zeros(FftSize)
  {
    var head := samples[..FftSize + 1];
    var tail := samples[FftSize + 1..];
    assert samples == head + tail;
    FirstWindowHandedOver(a, head);
    assert head[..FftSize] == samples[..FftSize];
    PushAllAppend(a, head, tail);
    PendingBlockKept(PushAll(a, head), tail);
  }

  /** Once the timer has drained the pending block, the next push on a full
      fifo hands the current window over. */
  lemma DrainThenHandOver(a: Analyser, spectrum: seq<real>, sample: real)
    requires Valid(a) && a.fifoIndex == FftSize && |spectrum| == 2 * FftSize
    ensures Push(TimerTick(a, spectrum), sample).nextBlockReady
    ensures Push(TimerTick(a, spectrum), sample).fftData[..FftSize] == a.fifo
  {
  }
}
