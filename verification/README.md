# juce-spectrum, modelled in Dafny

The JUCE spectrum analyser captures audio samples into a fifo, hands each full
window to an FFT working buffer through a single "next block ready" flag, and
draws one bar per note of an equal-tempered scale. This project models that
core of `MainComponent` and proves properties of the model. It covers:

- **The capture handoff** (`SampleFifo`): the push of one sample, the block
  loop of the audio callback, and the timer's consumption of the ready flag.
  Each is one sequential transition of an immutable state record.
- **The bar table** (`TemperedScale`, `BinMap`, `Bars`, `BarTable`):
  - the scan of the tempered scale, with the floating-point generator as a
    parameter;
  - `freqToBin`, with its rounding and its clamp;
  - the bar loop itself, with its carried `prevBin`, `prevIdx` and `nBars`,
    its half-gap extension and its in-place back-patching of interpolation
    factors.

  `Bars` states the same loop as a fold with an explicit pending run.
  `BarTable` proves the in-place loop equal to that fold. All the table's
  properties are then proved about the fold.
- **Drawing levels** (`Levels`): `getLevel`, and the per-bar height that
  `drawFrame` selects.
- **The scope line of the older `.cpp` variant** (`Scope`): its clamped bin
  index and its level normalised to [0, 1].
- **The library arithmetic these use** (`JuceMath`, `FftConfig`):
  `std::round`, the `(int)` cast, `jlimit`, `jmap`, `gainToDecibels` and the
  FFT size.

The model keeps the program's behaviour where it is surprising:

- `freqToBin` clamps to `fftSize - 1`, which is 2047, not to the last bin
  below Nyquist (`BinMap.ClampIsFftSizeMinusOne`).
- The run of bars that ends the table never receives its interpolation
  factors (`Bars.RunFactors`, `Bars.ExampleTable`).
- A bar's start bin is pulled down to the bin right after the previous bar's
  reach, never pushed up to it (`Bars.DataIdxRule`).
- The aggregation loop of `drawFrame` compares a raw magnitude with a pixel
  coordinate, so it is not a peak hold (`Levels.AggregateIsNotPeakHold`). An
  aggregated bar over silence is drawn full height
  (`Levels.SilentAggregatedBarAtTop`).
- While a block is pending, every new full window is dropped. The older
  block wins (`SampleFifo.FirstWindowKept`).
- A full window is handed over on the push after it fills, not when it
  fills: the cursor stays at `fftSize` until then (`SampleFifo.Push`,
  `SampleFifo.FirstWindowHandedOver`).

## Model

| member | source | states |
|---|---|---|
| `FftConfig.FftSizeIsShiftOfOrder` | Source/MainComponent.h:303-310 | fftSize is 1 << fftOrder = 2048, an even size whose half is 1024 |
| `SampleFifo.Push` | Source/MainComponent.h:125-142 | The cursor stays in [0, fftSize] and is in [1, fftSize] after a push, with the sample at the slot before it. Below fftSize the sample lands at the cursor, which advances, and nothing else changes. At fftSize with no block pending, the fifo goes to the front of the working buffer, the rest is zeroed and the flag is set. With a block pending, the working buffer and flag are kept. Either way the cursor restarts so the sample lands in slot 0 |
| `SampleFifo.CopyWindow` | Source/MainComponent.cpp:64-65 | zeromem then memcpy: the first fftSize entries are the fifo, the other fftSize are 0 |
| `SampleFifo.GetNextAudioBlock` | Source/MainComponent.cpp:44-55 | The result equals pushing every channel-0 sample of [startSample, startSample + numSamples), in order. With no channels the state is unchanged |
| `SampleFifo.TimerTick` | Source/MainComponent.h:115-123 | After a tick the flag is clear. A pending block is replaced by the drawn spectrum. With nothing pending the state is unchanged. The fifo and cursor are never touched |
| `SampleFifo.PushAllAppend` | Source/MainComponent.cpp:52-53 | Pushing two blocks one after the other equals pushing their concatenation |
| `SampleFifo.PendingBlockKept` | Source/MainComponent.cpp:60-70 | While a block is pending, no number of pushes changes the working buffer or clears the flag |
| `SampleFifo.FillWithoutHandoff` | Source/MainComponent.cpp:72 | Pushes that do not overflow write the samples in order from the cursor on. They advance the cursor by their count and leave earlier slots, the working buffer and the flag alone |
| `SampleFifo.FirstWindowHandedOver` | Source/MainComponent.h:129-141 | From an empty cursor with nothing pending, push fftSize + 1 hands over exactly the first fftSize samples, zero-padded. It sets the flag and starts the next window with the last sample |
| `SampleFifo.FirstWindowKept` | Source/MainComponent.h:131-138 | Without a drain, any longer stream keeps the first window as the pending block and drops the later ones |
| `SampleFifo.DrainThenHandOver` | Source/MainComponent.h:115-136 | After the timer drains a block, the next push on a full fifo hands the current window over |
| `JuceMath.Round` | Source/MainComponent.h:236 | std::round gives the nearest integer; halfway values round away from zero |
| `JuceMath.RoundMonotone` | Source/MainComponent.h:236 | Rounding never reverses the order of two values |
| `JuceMath.RoundHalfGap` | Source/MainComponent.h:218-219 | round(d / 2) of an integer gap d ≥ 1 is (d + 1) / 2 |
| `JuceMath.TruncToInt` | Source/MainComponent.cpp:88 | The (int) cast truncates toward zero |
| `JuceMath.Jlimit` | Source/MainComponent.h:258 | jlimit returns the value inside [lower, upper], and the nearer limit outside it |
| `JuceMath.JlimitInt` | Source/MainComponent.cpp:88 | The same as Jlimit, over ints |
| `JuceMath.Jmap` | Source/MainComponent.h:259 | jmap takes the source ends to the target ends, and the source range into the target range in either orientation |
| `JuceMath.JmapMonotone` | Source/MainComponent.h:259 | jmap keeps the order of its argument onto an increasing target and reverses it onto a decreasing one |
| `JuceMath.GainToDecibels` | Source/MainComponent.h:258 | gainToDecibels is never below -100 dB. A non-positive gain gives exactly -100. A positive gain gives 20·log10 of it when that is at least -100 |
| `JuceMath.GainToDecibelsMonotone` | Source/MainComponent.h:258 | A larger gain never has fewer decibels when log10 keeps their order |
| `TemperedScale.KeptNotes` | Source/MainComponent.h:168-177 | Every kept note index lies in the scanned range and is a multiple of groupNotes, with frequency in [minFreq, maxFreq]. The indices strictly increase |
| `TemperedScale.ScaleInBand` | Source/MainComponent.h:172-177 | Every kept frequency is in [minFreq, maxFreq] and comes from a note index that is a multiple of groupNotes. The table strictly increases when the generator does |
| `TemperedScale.KeptNotesComplete` | Source/MainComponent.h:172-176 | With an increasing generator, no qualifying note index is missed |
| `TemperedScale.BuildScale` | Source/MainComponent.h:164-177 | The while loop produces exactly the kept notes' frequencies, in scan order |
| `BinMap.FreqToBin` | Source/MainComponent.h:235-239 | The bin never exceeds fftSize - 1 |
| `BinMap.FreqToBinNearest` | Source/MainComponent.h:235-239 | The bin is the one nearest freq·fftSize/sampleRate when that rounds below fftSize/2, and fftSize - 1 otherwise |
| `BinMap.FreqToBinRange` | Source/MainComponent.h:236-238 | A non-negative frequency maps below fftSize/2 or to exactly fftSize - 1 |
| `BinMap.FreqToBinMonotone` | Source/MainComponent.h:235-239 | For a fixed positive sample rate, a higher frequency never maps to a lower bin |
| `BinMap.ClampIsFftSizeMinusOne` | Source/MainComponent.h:238 | At 22050 Hz a 20 kHz note maps to bin 2047, past the first half of the spectrum |
| `BinMap.BinsMonotone` | Source/MainComponent.h:186 | An increasing frequency table gives non-decreasing bins |
| `BinMap.BinsInRange` | Source/MainComponent.h:186 | Non-negative frequencies give bins in [0, fftSize) |
| `Bars.CloseRun` | Source/MainComponent.h:202-207 | A run of k > 1 bars gets the factors 1/k … k/k in order, with nothing else changed. A run of one is untouched |
| `Bars.FoldKeepsInv` | Source/MainComponent.h:183-232 | After any number of notes, the emitted bars match the closed forms for position, start, end and a factor in [0, 1]. The pending run shares one bin and has no factors. Every finished run is ramped |
| `Bars.ScaleBarsShape` | Source/MainComponent.h:225-231 | One bar per note, in order: bar k has posX = k, the start and end bins of the rules, and a factor in [0, 1] |
| `Bars.RunFactors` | Source/MainComponent.h:197-210 | A maximal run of k > 1 bars sharing a start bin, ended by another bar, carries 1/k … k/k. Single bars and the table's last run carry 0 |
| `Bars.DataIdxRule` | Source/MainComponent.h:190-195 | dataIdx ≤ bin. It is prevBin + 1 when prevBin > 0 and bin ≥ prevBin + 1, and bin otherwise |
| `Bars.ReachBounds` | Source/MainComponent.h:212-221 | A bar's reach is its bin plus (d + 1) / 2 when the next bin is d > 1 higher, and stays below that next bin. Otherwise the reach is its own bin |
| `Bars.EndIdxRule` | Source/MainComponent.h:212-223 | endIdx is 0 or beyond dataIdx. For a gap d > 1 to the next bin it is bin + (d + 1) / 2 |
| `Bars.DataIdxMonotone` | Source/MainComponent.h:190-195 | For non-decreasing bins, start bins never go down |
| `Bars.NoSkippedBins` | Source/MainComponent.h:190-223 | For non-decreasing non-negative bins, each bar starts at most one bin after the last bin of the bar before it |
| `Bars.IndicesInRange` | Source/MainComponent.h:186-223 | Bins in [0, limit) give start and end bins in [0, limit) |
| `Bars.ExampleTable` | Source/MainComponent.h:179-232 | Bins 3,3,3,4,9 give factors 1/3, 2/3, 1 on the first run, an aggregated bar 4..7, and a last bar pulled down to start at 8 with factor 0 |
| `BarTable.PatchFactors` | Source/MainComponent.h:202-207 | The back-patch rewrites exactly the last nBars bars as a closed run and leaves the earlier ones alone |
| `BarTable.ClaimHalfGap` | Source/MainComponent.h:212-221 | The bar's reach is never below its own bin. When the next note's bin is d > 1 higher, the reach is bin + (d + 1) / 2 and stays below that next bin. Otherwise the reach is the bar's own bin |
| `BarTable.PlaceBar` | Source/MainComponent.h:184-231 | One iteration takes the loop variables from the fold's state after index notes to its state after index + 1 |
| `BarTable.BuildBars` | Source/MainComponent.h:179-232 | The in-place loop with back-patching builds exactly the pending-run fold's table, one bar per note |
| `BarTable.BuildTemperedScale` | Source/MainComponent.h:162-233 | The scale is the kept notes' frequencies, all in band. The bars are the fold's table over their bins, with posX = k |
| `BarTable.BuiltTableMonotone` | Source/MainComponent.h:183-232 | For an increasing non-negative scale, start bins never go down, and every start and end bin lies in [0, fftSize) |
| `Levels.GetLevel` | Source/MainComponent.h:252-262 | The level lies in [0, height]. 0 dB or more (relative to fftSize) maps to 0; -100 dB or less maps to height |
| `Levels.LevelIsLinear` | Source/MainComponent.h:258-259 | Between the limits the level is -height·dB/100 |
| `Levels.LevelMonotone` | Source/MainComponent.h:256-259 | A larger magnitude never gets a larger (lower on screen) level |
| `Levels.SilentBinAtBottom` | Source/MainComponent.h:256-259 | A silent bin is drawn at the window's bottom |
| `Levels.Interpolate` | Source/MainComponent.h:285 | For a factor in [0, 1] the blend lies between the two levels. Factor 1 gives the own level |
| `Levels.AggregateFrom` | Source/MainComponent.h:288-292 | The scan's result is the starting top or some bin's level, and stays in [0, height] |
| `Levels.BarHeight` | Source/MainComponent.h:276-293 | For a factor ≤ 1, every bar top lies in [0, height] |
| `Levels.InterpolatedBetween` | Source/MainComponent.h:279-286 | A single-bin bar with a factor in (0, 1] is drawn between the previous bin's level (its own at bin 0) and its own. Without a factor it is drawn at its own level |
| `Levels.FactorIgnoredWhenAggregating` | Source/MainComponent.h:279-293 | The factor has no effect when endIdx ≠ 0 |
| `Levels.AggregateKeepsTop` | Source/MainComponent.h:288-292 | No magnitude above the running top leaves the top unchanged |
| `Levels.AggregateLastLoudBinWins` | Source/MainComponent.h:288-292 | The last bin whose raw magnitude exceeds the window height decides the bar when no later bin has a positive magnitude |
| `Levels.AggregateIsNotPeakHold` | Source/MainComponent.h:289-290 | Over magnitudes [fftSize, 1], the full-scale bin's level 0 is overwritten by the quieter bin's positive level |
| `Levels.SilentAggregatedBarAtTop` | Source/MainComponent.h:277-292 | An aggregated bar over silent bins is drawn at y = 0, full height |
| `Levels.FrameHeights` | Source/MainComponent.h:274-293 | One top per bar, in table order |
| `Levels.FrameInsideWindow` | Source/MainComponent.h:274-293 | For a built table over bins inside the working buffer, every bar reads inside it and is drawn within [0, height] |
| `Scope.ScopeIndex` | Source/MainComponent.cpp:87-88 | The index is in [0, fftSize/2] for any skew value. It is 0 for a proportion ≤ 0, fftSize/2 for one ≥ 1, and the truncation of proportion·1024 in between |
| `Scope.ScopeIndexMonotone` | Source/MainComponent.cpp:88 | A larger skewed proportion never reads a lower bin |
| `Scope.ScopeLevel` | Source/MainComponent.cpp:89-91 | The scope level lies in [0, 1]: 0 dB or more gives 1, and -100 dB or less gives 0 |
| `Scope.ScopeLevelMirrorsBarLevel` | Source/MainComponent.cpp:89-91 | scope level · height = height - getLevel: the same map, upside down |
| `Scope.ScopeFrame` | Source/MainComponent.cpp:85-94 | scopeSize points, each the level of the bin its skewed proportion selects, all in [0, 1] |

## Left out

- The JUCE FFT and Hann window (`performFrequencyOnlyForwardTransform`, `multiplyWithWindowingTable`) are foreign library code. `SampleFifo.TimerTick` takes their result as the arbitrary parameter `spectrum`.
- Floating point: samples, frequencies and levels are exact reals. `pow` in the scale scan is the generator parameter `gen`, `log10` inside `gainToDecibels` is a parameter, and so is the exp/log skew of the scope. Float-versus-double precision in `freqToBin` is not modelled.
- `TemperedScale.KeptNotes`: the scan is given a note index `bound` whose frequency exceeds maxFreq, only to show that it ends. The program relies on `pow` growing without bound.
- `Levels.LevelMonotone` and `Levels.SilentBinAtBottom` assume of the abstract logarithm only that it keeps the order of the two magnitudes, and that log10(fftSize) ≥ 0.
- Drawing geometry (`barWidth`, `barSpacePx`, `fillRect`), `paint`, `repaint` and `setSize` are UI. `Levels.FrameHeights` stops at each bar's top.
- Audio device set-up, runtime permissions, `setAudioChannels`, `shutdownAudio`, `startTimerHz`, `prepareToPlay` and `std::cout` are I/O and event-loop plumbing. The sample rate that `prepareToPlay` stores is a parameter that must be positive. The constructor calls `buildTemperedScale(2)` (Source/MainComponent.h:79) right after `setAudioChannels`. A rate is stored there only if a device opened and called `prepareToPlay`; otherwise `_sampleRate` (Source/MainComponent.h:322) is still uninitialised. The model therefore requires a positive rate.
- The race between the audio thread and the timer on the non-atomic ready flag is concurrency. The handoff is modelled only as sequential transitions.
- `buildTemperedScale` appends to member vectors. The model builds from empty vectors, as the single call from the constructor does; a second call would add a second table.
- The unused `Clock` typedef and the `minLog` member are left out. So are the `.cpp` variant's constructor and `scopeSize`/`scopeData` declarations, which the header lacks: `Scope.ScopeFrame` takes `scopeSize` as a parameter and returns the points.
