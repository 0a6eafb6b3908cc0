# Noise monitor: classifier and LED patterns

A Dafny model of the pure core of `noise-monitoring.c`, a Raspberry Pi Pico
firmware. The firmware reads a microphone and shows how loud it is on a 5 x 5
NeoPixel matrix. After each sampling cycle the firmware does four things:

1. It folds the RMS reading (in ADC codes) into a voltage magnitude,
   `2 * |raw * 3.3 / 4096 - 1.65|`.
2. It turns that magnitude into an intensity level. It counts how often the
   step `3.3 / 5 / 20` (0.033 V) can be subtracted while the remainder stays
   strictly positive. The count is returned as a `uint8_t`.
3. It clears the frame. For levels 1 to 4 it then paints the centre pixel in
   a colour for that level and up to three fixed rings in dim blue.
4. It flushes the frame to the LEDs.

The model has four modules:

- `Classifier` (`classifier.dfy`) has the fold and the step-counting
  classifier. `Intensity` is a recursive reference definition of the count.
  `GetIntensity` is the firmware's loop, including the byte narrowing. The
  closed form says that a magnitude in `(k*0.033, (k+1)*0.033]` gets level
  `k`, and anything at or below 0.033 V gets level 0. Magnitudes are
  `real`, so the arithmetic is exact.
- `NeoPixel` (`neopixel.dfy`) models the driver abstractly. A frame is a
  sequence of 25 RGB triples. `NpClear` darkens every pixel, and `NpSetLed`
  changes exactly one pixel.
- `Patterns` (`patterns.dfy`) has the ring painters, the per-level pattern
  functions and the switch on the level. It also gives two independent
  descriptions of the result:
  - a ring table (`RingPixel`, `Shown`);
  - a geometric one: reading the matrix as a row-major 5 x 5 grid, ring k
    is the set of pixels at Manhattan distance k from the centre, so level
    k lights a diamond of radius k - 1 (`ExpectedPixel`).
- `Monitor` (`monitor.dfy`) composes fold, classifier and renderer into one
  processing cycle. It proves the end-to-end properties and the finding
  below.

Where the firmware's documentation and its code disagree, the model
follows the code. The documented level table puts "0.132 V and above" at
level 4, and the level-4 pattern lights 21 pixels. As written, for every
reading the 12-bit ADC can produce (magnitudes up to 3.3 V), any magnitude
above 0.165 V gets a level from 5 to 99, and the frame stays dark (see
Findings). A magnitude exactly on a bucket edge goes to the lower level:
0.033 V gets level 0, because the loop stops once the remainder is no
longer strictly positive.

The RMS reading is an input of the model. The microphone sampling and the
RMS computation are not modelled.

## Model

| member | source | states |
|---|---|---|
| Classifier.Abs | noise-monitoring.c:43 | the macro's result is never negative and equals its argument up to sign |
| Classifier.Adjust | noise-monitoring.c:36 | the deviation from the bias is negative exactly below mid-scale (2048) and zero exactly at it, and it lies within ±1.65 V for every reading in [0, 4096] |
| Classifier.Fold | noise-monitoring.c:119 | the folded magnitude is never negative; it is 0 exactly at the DC-bias reading 2048; and it stays within 3.3 V for every reading in [0, 4096] |
| Classifier.FoldSymmetric | noise-monitoring.c:119 | readings the same distance above and below the bias fold to the same magnitude |
| Classifier.Intensity | noise-monitoring.c:279-286 | the number of positive-remainder subtractions always lies in the closed-form bucket `(k*step, (k+1)*step]` (bucket 0 also takes every magnitude at or below zero) |
| Classifier.GetIntensity | noise-monitoring.c:279-286 | the firmware loop returns the count modulo 256 (the `uint8_t` result), which is always below 256; when the count fits in a byte, the result is the closed-form bucket |
| Classifier.BucketUnique | noise-monitoring.c:282-283 | a magnitude lies in at most one bucket |
| Classifier.IntensityIsBucket | noise-monitoring.c:282-283 | in both directions, the count is k exactly when the magnitude lies in bucket k |
| Classifier.IntensityZeroIff | noise-monitoring.c:279-286 | the level is 0 exactly for magnitudes at or below 0.033 V, all negative inputs included |
| Classifier.SubtractionsCounted | noise-monitoring.c:282-283 | for every j at least 1, the j-th subtraction leaves a positive remainder exactly when j is at most the level |
| Classifier.IntensityMonotone | noise-monitoring.c:281-285 | a larger magnitude never gets a lower level |
| Classifier.IntensityAboveFourIff | noise-monitoring.c:281-285 | there is no clamp: the level exceeds 4 exactly when the magnitude exceeds 5 steps (0.165 V) |
| Classifier.FoldedLevelBound | noise-monitoring.c:119-120 | every reading in [0, 4096] gets a level of at most 99, so the byte narrowing never wraps |
| Classifier.SilenceIsLevelZero | noise-monitoring.c:119-120 | the bias reading 2048 folds to 0 V and gets level 0 |
| Classifier.IntensityMatchesTableIff | noise-monitoring.c:11-17 | the firmware's level equals the documented table's level exactly when the magnitude is at most 0.165 V |
| Classifier.RailReadingLevel | noise-monitoring.c:119-120 | the rail reading 0 folds to 3.3 V and gets level 99 |
| Classifier.ClampedMatchesTable | noise-monitoring.c:11-17 | the classifier clamped at 4 equals the documented table for every magnitude |
| NeoPixel.NpClear | noise-monitoring.c:122 | clearing gives a 25-pixel frame with every pixel dark and nothing lit |
| NeoPixel.NpSetLed | noise-monitoring.c:216-245 | setting a pixel gives it the requested colour and leaves every other pixel unchanged |
| Patterns.DistinctPixelsCount | noise-monitoring.c:214-246 | a ring of distinct indices paints as many pixels as it has entries |
| Patterns.PaintRing | noise-monitoring.c:214-246 | painting a ring makes exactly its pixels dim blue `(0,0,80)` and leaves every other pixel unchanged |
| Patterns.FirstLedRing | noise-monitoring.c:240-246 | the inner ring's pixels 7, 11, 13, 17 turn dim blue, and every other pixel keeps its colour |
| Patterns.SecondLedRing | noise-monitoring.c:227-237 | the middle ring's pixels 2, 6, 8, 10, 14, 16, 18, 22 turn dim blue, and every other pixel keeps its colour |
| Patterns.ThirdLedRing | noise-monitoring.c:214-224 | the outer ring's pixels 1, 3, 5, 9, 15, 19, 21, 23 turn dim blue, and every other pixel keeps its colour |
| Patterns.LevelOneNoise | noise-monitoring.c:208-211 | over any frame, only the centre pixel changes, to `(0,0,80)` |
| Patterns.LevelTwoNoise | noise-monitoring.c:201-205 | over any frame, the centre becomes `(0,0,120)` and the first ring dim blue; every other pixel keeps its colour |
| Patterns.LevelThreeNoise | noise-monitoring.c:193-198 | over any frame, the centre becomes `(60,60,0)` and the first two rings dim blue; every other pixel keeps its colour |
| Patterns.LevelFourNoise | noise-monitoring.c:184-190 | over any frame, the centre becomes `(80,0,0)` and all three rings dim blue; every other pixel keeps its colour |
| Patterns.Select | noise-monitoring.c:124-140 | the switch paints the pixels of the ring table for levels 1 to 4, and for level 0 and every level above 4 (no case, no default) it leaves every pixel unchanged |
| Patterns.Render | noise-monitoring.c:122-140 | clear then switch: every pixel of the frame equals the ring table's pixel for the level, which is dark wherever nothing is painted |
| Patterns.RingsAreShells | noise-monitoring.c:214-246 | the centre, first, second and third rings are exactly the pixels at Manhattan distance 0, 1, 2 and 3 from the centre; the corners are exactly the pixels at distance 4 |
| Patterns.RenderMatchesDiamond | noise-monitoring.c:184-246 | at level k in 1..4, the pixels within distance k-1 of the centre are lit (the centre in the level colour, the rest dim blue) and every other pixel is dark; any other level gives a dark frame |
| Patterns.RingsWellFormed | noise-monitoring.c:214-246 | each ring is duplicate-free; the rings are pairwise disjoint; they contain neither the centre nor a corner; and every index is below 25 |
| Patterns.RenderLit | noise-monitoring.c:122-140 | the lit pixels are exactly the centre plus the rings up to the level for levels 1 to 4, and none otherwise |
| Patterns.RenderLitCount | noise-monitoring.c:184-211 | 1, 5, 13 and 21 pixels are lit at levels 1 to 4, and 0 at every other level |
| Patterns.RenderNested | noise-monitoring.c:184-211 | for 1 <= k < 4, every pixel lit at level k is also lit at level k+1 |
| Patterns.RenderBlankOutsideOneToFour | noise-monitoring.c:122-140 | level 0 and every level above 4 leave the cleared frame unchanged |
| Patterns.CornersNeverLit | noise-monitoring.c:214-246 | pixels 0, 4, 20 and 24 are dark at every level |
| Monitor.Pipeline | noise-monitoring.c:117-140 | for every reading in [0, 4096], the frame lights something exactly when the folded magnitude is above 0.033 V and at most 0.165 V |
| Monitor.LevelShown | noise-monitoring.c:122-140 | a rendered frame lights something exactly at levels 1 to 4 |
| Monitor.NarrowingIsIdentity | noise-monitoring.c:119-120 | for every reading in [0, 4096], narrowing the level to `uint8_t` leaves it unchanged |
| Monitor.SelectNoiseIntensity | noise-monitoring.c:115-142 | one cycle: for in-range readings the level is the un-narrowed count; the frame is the level's diamond; something is lit exactly at levels 1 to 4; and silence gives level 0 and a dark frame |
| Monitor.SilenceIsDark | noise-monitoring.c:115-142 | a reading at the DC bias shows a dark frame |
| Monitor.LoudReadingRendersDark | noise-monitoring.c:119-140 | as written, every in-range reading that folds above 0.165 V shows a dark frame, just like silence |
| Monitor.RailReadingRendersDark | noise-monitoring.c:119-140 | as written, the loudest reading (0) shows a dark frame |
| Monitor.CorrectedPipeline | noise-monitoring.c:11-17 | with the clamp, the frame lights something exactly when the folded magnitude is above 0.033 V |
| Monitor.CorrectedLoudReadingLightsAll | noise-monitoring.c:11-17 | with the clamp, every reading that folds above 0.132 V gets level 4 and lights all 21 pixels |
| Monitor.CorrectedAgreesBelowFiveSteps | noise-monitoring.c:11-17 | for in-range readings, the clamped frame equals the frame as written exactly when the magnitude is at most 0.165 V |
| Monitor.CorrectedLouderLightsMore | noise-monitoring.c:11-17 | with the clamp, a louder magnitude never lights fewer pixels |

## Left out

- `setup`, `setup_adc`, `setup_dma` and `sample_mic` are hardware configuration and a blocking DMA transfer through SDK calls. They have no logic to state.
- `mic_power` is not modelled: it accumulates floats and calls `sqrt`. Its result is a parameter of the model.
- `timer_callback`, `setup_timer` and the `do_sample`/`processing` handshake in `main` only coordinate the timer interrupt with the main loop. The model covers the body of one cycle.
- `npInit`, `npWrite`, the NeoPixel wire protocol and the diagnostic `printf` are left out. The driver source (`neopixel.c`) is not part of this model.
- NeoPixel.NpSetLed: requires the index to be below 25. The driver's own handling of other indices is unknown, and every call in the firmware uses a constant below 25.
- Classifier.Intensity: uses exact real arithmetic instead of IEEE-754 single precision. The step, the fold and the repeated subtraction are rounded in the firmware. For magnitudes up to 3.3 V, which covers every reading the fold can produce, the firmware may differ from the model by one level near a bucket edge. The edges themselves are assigned the way exact arithmetic assigns them (upper edge inclusive).
- Classifier.GetIntensity: promises a result for every real magnitude, but the float loop does not behave like the model on huge magnitudes. Each float subtraction rounds to a multiple of the magnitude's unit in the last place, so from a few thousand volts the count drifts by many levels. From about 2^20 V (or infinity) the subtraction leaves the value unchanged, and the loop never ends. No such magnitude reaches the classifier: the fold stays at or below 3.3 V for every reading the ADC can produce.
- Classifier.GetIntensity: the 32-bit wrap-around of the `uint` counter is not modelled separately. The result is taken modulo 256, and a 32-bit wrap-around does not change that.

## Findings

| source | as written | input that shows it | evidently intended | confidence | as-written member | corrected member |
|---|---|---|---|---|---|---|
| noise-monitoring.c:279-286 | `get_intensity` has no upper clamp, and the level switch has no case above 4, so for every reading the 12-bit ADC can produce (magnitudes up to 3.3 V), any magnitude above 0.165 V shows a dark frame, the same as silence | raw reading 0 (a rail): it folds to 3.3 V, gets level 99, and the frame stays dark | the documented table (lines 11-17) gives level 4 for "0.132 V and above", and the comment at line 278 says levels 0-4, so the level should be clamped at 4, so that every magnitude of 0.132 V and above shows the level-4 pattern (21 pixels) | medium, not executed | Monitor.LoudReadingRendersDark | Monitor.CorrectedLoudReadingLightsAll |
