/** freqToBin: the FFT bin that best represents a frequency. The product
    freq · FftSize / sampleRate is rounded to the nearest bin; a bin at or above
    FftSize / 2 is replaced by FftSize - 1, the last slot of the fifo-sized half
    of the working buffer (not FftSize / 2 - 1, the last bin below Nyquist). */
module BinMap {
  import opened JuceMath
  import opened FftConfig

  /** The exact bin position of a frequency, before rounding. */
  function BinPosition(freq: real, sampleRate: real): real
    requires sampleRate > 0.0
  {
    (freq * FftSize as real) / sampleRate
  }

  function FreqToBin(freq: real, sampleRate: real): (bin: int)
    requires sampleRate > 0.0
    ensures bin <= FftSize - 1
  {
    var b := Round(BinPosition(freq, sampleRate));
    if b < FftSize / 2 then b else FftSize - 1
  }

  /** The bin is the one nearest the exact position (halfway cases away from
      zero) when that lies below FftSize / 2, and FftSize - 1 otherwise. */
  lemma FreqToBinNearest(freq: real, sampleRate: real)
    requires sampleRate > 0.0
    ensures var x := BinPosition(freq, sampleRate); var bin := FreqToBin(freq, sampleRate);
      || (bin < FftSize / 2 && x >= 0.0 && bin as real - 0.5 <= x < bin as real + 0.5)
      || (bin < FftSize / 2 && x < 0.0 && bin as real - 0.5 < x <= bin as real + 0.5)
      || (bin == FftSize - 1 && Round(x) >= FftSize / 2)
    ensures var x := BinPosition(freq, sampleRate);
      Round(x) < FftSize / 2 ==> FreqToBin(freq, sampleRate) == Round(x)
  {
  }

  /** A frequency that is not negative maps to a bin of the working buffer's first half. */
  lemma FreqToBinRange(freq: real, sampleRate: real)
    requires sampleRate > 0.0 && freq >= 0.0
    ensures 0 <= FreqToBin(freq, sampleRate) < FftSize
    ensures FreqToBin(freq, sampleRate) < FftSize / 2 || FreqToBin(freq, sampleRate) == FftSize - 1
  {
    assert BinPosition(freq, sampleRate) >= 0.0;
  }

  /** For a fixed positive sample rate, a higher frequency never maps to a lower bin. */
  lemma FreqToBinMonotone(f1: real, f2: real, sampleRate: real)
    requires sampleRate > 0.0 && f1 <= f2
    ensures FreqToBin(f1, sampleRate) <= FreqToBin(f2, sampleRate)
  {
    assert f1 * FftSize as real <= f2 * FftSize as real;
    assert BinPosition(f1, sampleRate) <= BinPosition(f2, sampleRate);
    RoundMonotone(BinPosition(f1, sampleRate), BinPosition(f2, sampleRate));
  }

  /** The clamp reaches into the second half of the working buffer: at a
      22050 Hz sample rate a 20 kHz note lands on bin 2047. */
  lemma ClampIsFftSizeMinusOne()
    ensures FreqToBin(20000.0, 22050.0) == FftSize - 1
  {
    assert BinPosition(20000.0, 22050.0) == 40960000.0 / 22050.0;
    assert BinPosition(20000.0, 22050.0) >= 1024.0;
    RoundMonotone(1024.0, BinPosition(20000.0, 22050.0));
    RoundOfInteger(1024);
  }

  /** The bins of a whole table of frequencies. */
  function Bins(scale: seq<real>, sampleRate: real): (bins: seq<int>)
    requires sampleRate > 0.0
    ensures |bins| == |scale|
    ensures forall k :: 0 <= k < |scale| ==> bins[k] == FreqToBin(scale[k], sampleRate)
  {
    seq(|scale|, k requires 0 <= k < |scale| => FreqToBin(scale[k], sampleRate))
  }

  predicate NonDecreasing(bins: seq<int>)
  {
    forall k, l :: 0 <= k < l < |bins| ==> bins[k] <= bins[l]
  }

  /** An increasing frequency table gives a non-decreasing bin table. */
  lemma BinsMonotone(scale: seq<real>, sampleRate: real)
    requires sampleRate > 0.0
    requires forall k, l :: 0 <= k < l < |scale| ==> scale[k] < scale[l]
    ensures NonDecreasing(Bins(scale, sampleRate))
  {
    forall k, l | 0 <= k < l < |scale|
      ensures FreqToBin(scale[k], sampleRate) <= FreqToBin(scale[l], sampleRate)
    {
      FreqToBinMonotone(scale[k], scale[l], sampleRate);
    }
  }

  /** Frequencies that are not negative give bins in [0, FftSize). */
  lemma BinsInRange(scale: seq<real>, sampleRate: real)
    requires sampleRate > 0.0
    requires forall k :: 0 <= k < |scale| ==> scale[k] >= 0.0
    ensures forall k :: 0 <= k < |scale| ==> 0 <= Bins(scale, sampleRate)[k] < FftSize
  {
    forall k | 0 <= k < |scale|
      ensures 0 <= FreqToBin(scale[k], sampleRate) < FftSize
    {
      FreqToBinRange(scale[k], sampleRate);
    }
  }
}
