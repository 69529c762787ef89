/** The analyser's compile-time FFT dimensions. */
module FftConfig {

  /** The transform order: the analyser works on windows of 2^11 samples. */
  const FftOrder: nat := 11

  /** The window size N = 1 << FftOrder. The capture fifo holds N samples and
      the FFT working buffer 2·N values. */
  const FftSize: nat := 2048

  function Pow2(n: nat): (p: nat)
    ensures p >= 1
  {
    if n == 0 then 1 else 2 * Pow2(n - 1)
  }

  lemma FftSizeIsShiftOfOrder()
    ensures FftSize == Pow2(FftOrder)
    ensures FftSize % 2 == 0 && FftSize / 2 == 1024
  {
  }
}
