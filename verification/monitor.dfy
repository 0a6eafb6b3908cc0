/** One processing cycle of the noise monitor, after the microphone has been
    sampled: the RMS reading is folded and classified, the frame is cleared
    and the level's pattern painted. The RMS reading itself is a parameter. */
module Monitor {
  import opened NeoPixel
  import Classifier
  import Patterns

  /** The frame the firmware shows for an RMS reading, level narrowed to a
      byte as the firmware's classifier returns it. For every reading the
      12-bit ADC can produce, something is lit exactly when the magnitude
      lies above one step (0.033 V) and at most five steps (0.165 V). */
  function Pipeline(rms: real): (f: seq<Color>)
    ensures |f| == LedCount
    ensures 0.0 <= rms <= Classifier.AdcCodes ==>
      (Lit(f) != {} <==> Classifier.LevelStep < Classifier.Fold(rms) <= 5.0 * Classifier.LevelStep)
  {
    var v := Classifier.Fold(rms);
    var k := Classifier.Intensity(v);
    Classifier.IntensityZeroIff(v);
    Classifier.IntensityAboveFourIff(v);
    LevelShown(k);
    NarrowingIsIdentity(rms);
    Patterns.Render(k % Classifier.ByteRange)
  }

  /** For every reading the 12-bit ADC can produce, narrowing the level to
      a byte leaves it unchanged. */
  lemma NarrowingIsIdentity(rms: real)
    ensures 0.0 <= rms <= Classifier.AdcCodes ==>
      Classifier.Intensity(Classifier.Fold(rms)) % Classifier.ByteRange == Classifier.Intensity(Classifier.Fold(rms))
  {
    if 0.0 <= rms <= Classifier.AdcCodes {
      Classifier.FoldedLevelBound(rms);
    }
  }

  /** Something is lit exactly at levels 1 to 4. */
  lemma LevelShown(level: nat)
    ensures Lit(Patterns.Render(level)) != {} <==> 1 <= level <= 4
  {
    Patterns.RenderLit(level);
  }

  /** The processing cycle: classify the folded reading with the firmware's
      loop, then clear and paint. For every reading the 12-bit ADC can give,
      the byte narrowing is the identity; the frame is the diamond of the
      level; something is lit exactly for levels 1 to 4; and silence, the
      bias reading, gives level 0 and a dark frame. */
  method SelectNoiseIntensity(rms: real) returns (level: nat, frame: seq<Color>)
    ensures 0.0 <= rms <= Classifier.AdcCodes ==> level == Classifier.Intensity(Classifier.Fold(rms))
    ensures level < Classifier.ByteRange
    ensures |frame| == LedCount
    ensures forall j :: 0 <= j < LedCount ==> frame[j] == Patterns.ExpectedPixel(level, j)
    ensures Lit(frame) != {} <==> 1 <= level <= 4
    ensures rms == Classifier.MidScale ==> level == 0 && Lit(frame) == {}
    ensures frame == Pipeline(rms)
  {
    var v := Classifier.Fold(rms);
    level := Classifier.GetIntensity(v);
    NarrowingIsIdentity(rms);
    if rms == Classifier.MidScale {
      Classifier.SilenceIsLevelZero();
    }
    frame := Patterns.Render(level);
    forall j | 0 <= j < LedCount
      ensures frame[j] == Patterns.ExpectedPixel(level, j)
    {
      Patterns.RenderMatchesDiamond(level, j);
    }
    LevelShown(level);
  }

  /** Silence, a buffer resting at the DC bias, shows a dark frame. */
  lemma SilenceIsDark()
    ensures Lit(Pipeline(Classifier.MidScale)) == {}
  {
    Classifier.SilenceIsLevelZero();
    Patterns.RenderLit(0);
  }

  /** As written, a reading loud enough to fold above five steps (0.165 V)
      shows a dark frame, exactly like silence: the level exceeds 4 and the
      switch has no case for it. The rail reading 0 is one such input. */
  lemma LoudReadingRendersDark(rms: real)
    requires 0.0 <= rms <= Classifier.AdcCodes
    requires Classifier.Fold(rms) > 5.0 * Classifier.LevelStep
    ensures Lit(Pipeline(rms)) == {}
  {
    var k := Classifier.Intensity(Classifier.Fold(rms));
    Classifier.FoldedLevelBound(rms);
    Classifier.IntensityAboveFourIff(Classifier.Fold(rms));
    assert k % Classifier.ByteRange == k;
    Patterns.RenderBlankOutsideOneToFour(k);
  }

  /** The rail reading is loud enough to be shown dark. */
  lemma RailReadingRendersDark()
    ensures Lit(Pipeline(0.0)) == {}
  {
    Classifier.RailReadingLevel();
    LoudReadingRendersDark(0.0);
  }

  /** The frame with the level clamped to 4, as the documented table says:
      something is lit exactly when the magnitude lies above one step. */
  function CorrectedPipeline(rms: real): (f: seq<Color>)
    ensures |f| == LedCount
    ensures Lit(f) != {} <==> Classifier.Fold(rms) > Classifier.LevelStep
  {
    var k := Classifier.ClampedIntensity(Classifier.Fold(rms));
    Classifier.IntensityZeroIff(Classifier.Fold(rms));
    LevelShown(k);
    Patterns.Render(k)
  }

  /** With the clamp, every reading folding above four steps (0.132 V) lights
      the full 21-pixel pattern, the rail reading included. */
  lemma CorrectedLoudReadingLightsAll(rms: real)
    requires Classifier.Fold(rms) > 4.0 * Classifier.LevelStep
    ensures Classifier.ClampedIntensity(Classifier.Fold(rms)) == 4
    ensures |Lit(CorrectedPipeline(rms))| == 21
  {
    Classifier.ClampedMatchesTable(Classifier.Fold(rms));
    Patterns.RenderLitCount(4);
  }

  /** The clamp changes nothing where the firmware already agrees with the
      documented table: up to five steps the two frames are the same, and
      above it they differ. */
  lemma CorrectedAgreesBelowFiveSteps(rms: real)
    requires 0.0 <= rms <= Classifier.AdcCodes
    ensures CorrectedPipeline(rms) == Pipeline(rms) <==> Classifier.Fold(rms) <= 5.0 * Classifier.LevelStep
  {
    var v := Classifier.Fold(rms);
    var k := Classifier.Intensity(v);
    Classifier.FoldedLevelBound(rms);
    Classifier.IntensityAboveFourIff(v);
    assert k % Classifier.ByteRange == k;
    if v > 5.0 * Classifier.LevelStep {
      LoudReadingRendersDark(rms);
      CorrectedLoudReadingLightsAll(rms);
    }
  }

  /** With the clamp, a louder reading never lights fewer pixels. */
  lemma CorrectedLouderLightsMore(rms1: real, rms2: real)
    requires Classifier.Fold(rms1) <= Classifier.Fold(rms2)
    ensures Lit(CorrectedPipeline(rms1)) <= Lit(CorrectedPipeline(rms2))
  {
    var k1 := Classifier.ClampedIntensity(Classifier.Fold(rms1));
    var k2 := Classifier.ClampedIntensity(Classifier.Fold(rms2));
    Classifier.IntensityMonotone(Classifier.Fold(rms1), Classifier.Fold(rms2));
    Patterns.RenderLit(k1);
    Patterns.RenderLit(k2);
  }
}
