/** The level classifier of the noise monitor.

    A raw RMS reading (in ADC codes) is folded into a voltage magnitude
    around the microphone's DC bias, and the magnitude is turned into an
    intensity level by counting how often a fixed 0.033 V step can be
    subtracted while the remainder stays strictly positive.

    The firmware computes in single-precision floats; here every quantity
    is a `real`, so the step boundaries are exact. */
module Classifier {

  /** Full-scale voltage of the 12-bit ADC. */
  const AdcMax: real := 3.3

  /** Width of one of the five coarse voltage bands. */
  const AdcStep: real := AdcMax / 5.0

  /** The subtraction step of the classifier: a twentieth of a band, 0.033 V. */
  const LevelStep: real := AdcStep / 20.0

  /** Number of codes of the 12-bit ADC, `1 << 12`. */
  const AdcCodes: real := 4096.0

  /** The microphone's DC bias, half of full scale. */
  const Bias: real := 1.65

  /** The reading the DC bias produces on its own: silence. */
  const MidScale: real := 2048.0

  /** Largest level the firmware's `uint8_t` result can carry, plus one. */
  const ByteRange: nat := 256

  /** Magnitude of `x`: never negative, and `x` up to sign. */
  function Abs(x: real): (a: real)
    ensures a >= 0.0
    ensures a == x || a == -x
  {
    if x < 0.0 then -x else x
  }

  /** Converts a raw reading to a signed voltage deviation from the bias:
      negative below mid-scale, zero at it, positive above it, and within
      half of full scale for every reading the 12-bit ADC can produce. */
  function Adjust(raw: real): (d: real)
    ensures d < 0.0 <==> raw < MidScale
    ensures d == 0.0 <==> raw == MidScale
    ensures 0.0 <= raw <= AdcCodes ==> -Bias <= d <= Bias
  {
    raw * AdcMax / AdcCodes - Bias
  }

  /** Folds a raw reading into the non-negative magnitude the classifier
      consumes: twice the absolute deviation from the bias. It vanishes
      exactly at the bias and stays within full scale for every reading the
      12-bit ADC can produce. */
  function Fold(raw: real): (m: real)
    ensures m >= 0.0
    ensures m == 0.0 <==> raw == MidScale
    ensures 0.0 <= raw <= AdcCodes ==> m <= AdcMax
  {
    2.0 * Abs(Adjust(raw))
  }

  /** The fold is symmetric around the bias: a reading `d` codes above
      mid-scale and one `d` codes below it give the same magnitude. */
  lemma FoldSymmetric(d: real)
    ensures Fold(MidScale + d) == Fold(MidScale - d)
  {
  }

  /** `k` is the level of magnitude `v` in the closed form: `v` lies in the
      half-open bucket `(k*step, (k+1)*step]`, where bucket 0 also takes
      every magnitude at or below zero. */
  predicate InBucket(v: real, k: nat)
  {
    && v <= (k + 1) as real * LevelStep
    && (k == 0 || k as real * LevelStep < v)
  }

  /** Reference definition of the count: one more level for every step that
      can be taken off while leaving a strictly positive remainder. Its
      result always lies in the closed-form bucket. */
  function Intensity(v: real): (k: nat)
    ensures InBucket(v, k)
    decreases (v / LevelStep).Floor
  {
    if v - LevelStep > 0.0 then 1 + Intensity(v - LevelStep) else 0
  }

  /** The step-counting loop of the firmware. The count is returned as an
      unsigned byte, so the level is the count modulo 256. (The counter
      itself is a 32-bit `uint`; its wrap-around leaves the count modulo
      256 unchanged.) */
  method GetIntensity(v: real) returns (level: nat)
    ensures level < ByteRange
    ensures level == Intensity(v) % ByteRange
    ensures Intensity(v) < ByteRange ==> InBucket(v, level)
  {
    var count: nat := 0;
    var rest := v - LevelStep;
    while rest > 0.0
      invariant count + Intensity(rest + LevelStep) == Intensity(v)
      decreases (rest / LevelStep).Floor
    {
      count := count + 1;
      rest := rest - LevelStep;
    }
    level := count % ByteRange;
  }

  /** Buckets do not overlap: a magnitude has at most one level. */
  lemma BucketUnique(v: real, k1: nat, k2: nat)
    requires InBucket(v, k1) && InBucket(v, k2)
    ensures k1 == k2
  {
  }

  /** The closed form, both ways: the count is `k` exactly when `v` lies in
      bucket `k`. */
  lemma IntensityIsBucket(v: real, k: nat)
    ensures Intensity(v) == k <==> InBucket(v, k)
  {
    if InBucket(v, k) {
      BucketUnique(v, Intensity(v), k);
    }
  }

  /** Level 0 is exactly the magnitudes up to one step, negatives included. */
  lemma IntensityZeroIff(v: real)
    ensures Intensity(v) == 0 <==> v <= LevelStep
  {
  }

  /** The count counts: the `j`-th subtraction leaves a positive remainder
      exactly when `j` is at most the level. */
  lemma SubtractionsCounted(v: real, j: nat)
    requires 1 <= j
    ensures j <= Intensity(v) <==> v - j as real * LevelStep > 0.0
  {
  }

  /** A louder magnitude never gives a lower level. */
  lemma IntensityMonotone(v1: real, v2: real)
    requires v1 <= v2
    ensures Intensity(v1) <= Intensity(v2)
  {
  }

  /** The count has no upper clamp: levels above 4 are produced exactly by
      magnitudes above five steps (0.165 V). */
  lemma IntensityAboveFourIff(v: real)
    ensures Intensity(v) > 4 <==> v > 5.0 * LevelStep
  {
  }

  /** The largest level any 12-bit reading can produce is 99, reached at the
      rails; in particular the byte narrowing of the result never wraps. */
  lemma FoldedLevelBound(raw: real)
    requires 0.0 <= raw <= AdcCodes
    ensures Intensity(Fold(raw)) <= 99 < ByteRange
  {
    IntensityIsBucket(AdcMax, 99);
    IntensityMonotone(Fold(raw), AdcMax);
  }

  /** Silence: the bias reading folds to 0 V and classifies as level 0. */
  lemma SilenceIsLevelZero()
    ensures Fold(MidScale) == 0.0
    ensures Intensity(Fold(MidScale)) == 0
  {
  }

  /** The level table documented with the firmware: 0.033 V wide buckets for
      levels 0 to 3, and level 4 for 0.132 V and above. Bucket edges are
      assigned the way the subtraction loop assigns them (upper edge
      inclusive). */
  function TableLevel(v: real): (k: nat)
    ensures k <= 4
  {
    if v <= 0.033 then 0
    else if v <= 0.066 then 1
    else if v <= 0.099 then 2
    else if v <= 0.132 then 3
    else 4
  }

  /** The firmware's count agrees with the documented table exactly up to
      five steps (0.165 V); every louder magnitude gets a level the table
      does not have. */
  lemma IntensityMatchesTableIff(v: real)
    ensures Intensity(v) == TableLevel(v) <==> v <= 5.0 * LevelStep
  {
    IntensityAboveFourIff(v);
    var t := TableLevel(v);
    IntensityIsBucket(v, t);
  }

  /** The loudest possible reading, a rail, folds to full scale and gets
      level 99, far outside the documented 0 to 4. */
  lemma RailReadingLevel()
    ensures Fold(0.0) == AdcMax
    ensures Intensity(Fold(0.0)) == 99
  {
    IntensityIsBucket(AdcMax, 99);
  }

  /** The classifier with the clamp the documented table calls for: levels
      above 4 are reported as 4. */
  function ClampedIntensity(v: real): (k: nat)
    ensures k <= 4
  {
    var n := Intensity(v);
    if n > 4 then 4 else n
  }

  /** The clamped classifier agrees with the documented table everywhere. */
  lemma ClampedMatchesTable(v: real)
    ensures ClampedIntensity(v) == TableLevel(v)
  {
    IntensityMatchesTableIff(v);
    IntensityAboveFourIff(v);
  }
}
