/** The pattern renderer of the noise monitor: from an intensity level to a
    frame. The frame is cleared, then the centre pixel is painted in a
    colour that encodes the level and up to three fixed rings around it are
    painted dim blue. */
module Patterns {
  import opened NeoPixel

  /** The centre pixel of the 5 x 5 matrix. */
  const Center: nat := 12

  /** Colour of every ring pixel, at every level. */
  const DimBlue: Color := Color(0, 0, 80)

  /** The rings, in the order the firmware paints their pixels. */
  const FirstRing: seq<nat> := [7, 11, 13, 17]
  const SecondRing: seq<nat> := [2, 6, 8, 10, 14, 16, 18, 22]
  const ThirdRing: seq<nat> := [1, 3, 5, 9, 15, 19, 21, 23]

  /** The pixels a ring paints. */
  function Pixels(ring: seq<nat>): set<nat>
  {
    set i | i in ring
  }

  /** No index occurs twice in `s`. */
  predicate Distinct(s: seq<nat>)
  {
    forall i, j :: 0 <= i < j < |s| ==> s[i] != s[j]
  }

  /** A ring of distinct indices paints exactly as many pixels as it has
      entries. */
  lemma {:induction false} DistinctPixelsCount(s: seq<nat>)
    requires Distinct(s)
    ensures |Pixels(s)| == |s|
  {
    if |s| > 0 {
      DistinctPixelsCount(s[1..]);
      assert Pixels(s) == {s[0]} + Pixels(s[1..]);
      assert s[0] !in Pixels(s[1..]);
    }
  }

  /** Paints the pixels of a ring dim blue, one `NpSetLed` call per index in
      order: the ring's pixels end up dim blue and no other pixel changes. */
  function PaintRing(f: seq<Color>, ring: seq<nat>): (f': seq<Color>)
    requires forall i :: 0 <= i < |ring| ==> ring[i] < |f|
    ensures |f'| == |f|
    ensures forall j :: 0 <= j < |f| ==> f'[j] == (if j in ring then DimBlue else f[j])
    decreases |ring|
  {
    if |ring| == 0 then f
    else PaintRing(NpSetLed(f, ring[0], 0, 0, 80), ring[1..])
  }

  /** The inner ring: its pixels turn dim blue, every other pixel keeps its
      colour. */
  function FirstLedRing(f: seq<Color>): (f': seq<Color>)
    requires |f| == LedCount
    ensures |f'| == LedCount
    ensures forall j :: 0 <= j < LedCount ==>
      f'[j] == (if j in FirstRing then DimBlue else f[j])
  {
    PaintRing(f, FirstRing)
  }

  /** The middle ring: its pixels turn dim blue, every other pixel keeps
      its colour. */
  function SecondLedRing(f: seq<Color>): (f': seq<Color>)
    requires |f| == LedCount
    ensures |f'| == LedCount
    ensures forall j :: 0 <= j < LedCount ==>
      f'[j] == (if j in SecondRing then DimBlue else f[j])
  {
    PaintRing(f, SecondRing)
  }

  /** The outer ring: its pixels turn dim blue, every other pixel keeps its
      colour. */
  function ThirdLedRing(f: seq<Color>): (f': seq<Color>)
    requires |f| == LedCount
    ensures |f'| == LedCount
    ensures forall j :: 0 <= j < LedCount ==>
      f'[j] == (if j in ThirdRing then DimBlue else f[j])
  {
    PaintRing(f, ThirdRing)
  }

  /** Level 1: only the centre pixel changes, to dim blue. */
  function LevelOneNoise(f: seq<Color>): (f': seq<Color>)
    requires |f| == LedCount
    ensures |f'| == LedCount
    ensures forall j :: 0 <= j < LedCount ==>
      f'[j] == (if j == Center then Color(0, 0, 80) else f[j])
  {
    NpSetLed(f, Center, 0, 0, 80)
  }

  /** Level 2: the centre pixel turns blue and the first ring dim blue;
      every other pixel keeps its colour. */
  function LevelTwoNoise(f: seq<Color>): (f': seq<Color>)
    requires |f| == LedCount
    ensures |f'| == LedCount
    ensures forall j :: 0 <= j < LedCount ==>
      f'[j] == (if j == Center then Color(0, 0, 120)
                else if j in FirstRing then DimBlue
                else f[j])
  {
    FirstLedRing(NpSetLed(f, Center, 0, 0, 120))
  }

  /** Level 3: the centre pixel turns yellow and the first two rings dim
      blue; every other pixel keeps its colour. */
  function LevelThreeNoise(f: seq<Color>): (f': seq<Color>)
    requires |f| == LedCount
    ensures |f'| == LedCount
    ensures forall j :: 0 <= j < LedCount ==>
      f'[j] == (if j == Center then Color(60, 60, 0)
                else if j in FirstRing || j in SecondRing then DimBlue
                else f[j])
  {
    SecondLedRing(FirstLedRing(NpSetLed(f, Center, 60, 60, 0)))
  }

  /** Level 4: the centre pixel turns red and all three rings dim blue;
      every other pixel keeps its colour. */
  function LevelFourNoise(f: seq<Color>): (f': seq<Color>)
    requires |f| == LedCount
    ensures |f'| == LedCount
    ensures forall j :: 0 <= j < LedCount ==>
      f'[j] == (if j == Center then Color(80, 0, 0)
                else if j in FirstRing || j in SecondRing || j in ThirdRing then DimBlue
                else f[j])
  {
    ThirdLedRing(SecondLedRing(FirstLedRing(NpSetLed(f, Center, 80, 0, 0))))
  }

  /** Whether the firmware paints pixel `j` at `level`: for levels 1 to 4,
      the centre and the rings up to the level. */
  predicate Painted(level: nat, j: nat)
  {
    && 1 <= level <= 4
    && (|| j == Center
        || (level >= 2 && j in FirstRing)
        || (level >= 3 && j in SecondRing)
        || (level >= 4 && j in ThirdRing))
  }

  /** The colour of a painted pixel: the level colour on the centre, dim
      blue on the rings. */
  function PaintColor(level: nat, j: nat): Color
    requires 1 <= level <= 4
  {
    if j == Center then CenterColor(level) else DimBlue
  }

  /** What the firmware shows at each level, pixel by pixel, in terms of
      the rings: dark where nothing is painted. */
  function RingPixel(level: nat, j: nat): Color
  {
    if Painted(level, j) then PaintColor(level, j) else Off
  }

  // Each level function paints exactly its pixels of the ring table, pixel
  // by pixel and then on the whole frame.

  lemma LevelOnePixel(f: seq<Color>, j: nat)
    requires |f| == LedCount && j < LedCount
    ensures LevelOneNoise(f)[j] == (if Painted(1, j) then PaintColor(1, j) else f[j])
  {
  }

  lemma LevelTwoPixel(f: seq<Color>, j: nat)
    requires |f| == LedCount && j < LedCount
    ensures LevelTwoNoise(f)[j] == (if Painted(2, j) then PaintColor(2, j) else f[j])
  {
  }

  lemma LevelThreePixel(f: seq<Color>, j: nat)
    requires |f| == LedCount && j < LedCount
    ensures LevelThreeNoise(f)[j] == (if Painted(3, j) then PaintColor(3, j) else f[j])
  {
  }

  lemma LevelFourPixel(f: seq<Color>, j: nat)
    requires |f| == LedCount && j < LedCount
    ensures LevelFourNoise(f)[j] == (if Painted(4, j) then PaintColor(4, j) else f[j])
  {
  }

  lemma LevelOnePattern(f: seq<Color>)
    requires |f| == LedCount
    ensures forall j :: 0 <= j < LedCount ==>
      LevelOneNoise(f)[j] == (if Painted(1, j) then PaintColor(1, j) else f[j])
  {
    forall j | 0 <= j < LedCount
      ensures LevelOneNoise(f)[j] == (if Painted(1, j) then PaintColor(1, j) else f[j])
    {
      LevelOnePixel(f, j);
    }
  }

  lemma LevelTwoPattern(f: seq<Color>)
    requires |f| == LedCount
    ensures forall j :: 0 <= j < LedCount ==>
      LevelTwoNoise(f)[j] == (if Painted(2, j) then PaintColor(2, j) else f[j])
  {
    forall j | 0 <= j < LedCount
      ensures LevelTwoNoise(f)[j] == (if Painted(2, j) then PaintColor(2, j) else f[j])
    {
      LevelTwoPixel(f, j);
    }
  }

  lemma LevelThreePattern(f: seq<Color>)
    requires |f| == LedCount
    ensures forall j :: 0 <= j < LedCount ==>
      LevelThreeNoise(f)[j] == (if Painted(3, j) then PaintColor(3, j) else f[j])
  {
    forall j | 0 <= j < LedCount
      ensures LevelThreeNoise(f)[j] == (if Painted(3, j) then PaintColor(3, j) else f[j])
    {
      LevelThreePixel(f, j);
    }
  }

  lemma LevelFourPattern(f: seq<Color>)
    requires |f| == LedCount
    ensures forall j :: 0 <= j < LedCount ==>
      LevelFourNoise(f)[j] == (if Painted(4, j) then PaintColor(4, j) else f[j])
  {
    forall j | 0 <= j < LedCount
      ensures LevelFourNoise(f)[j] == (if Painted(4, j) then PaintColor(4, j) else f[j])
    {
      LevelFourPixel(f, j);
    }
  }

  /** The switch on the level, applied to the driver's frame: levels 1 to
      4 paint their pixels of the ring table; levels without a case, 0 and
      everything above 4, leave the frame as it is. */
  function Select(level: nat, f: seq<Color>): (f': seq<Color>)
    requires |f| == LedCount
    ensures |f'| == LedCount
    ensures forall j :: 0 <= j < LedCount ==>
      f'[j] == (if Painted(level, j) then PaintColor(level, j) else f[j])
  {
    match level
    case 1 => LevelOnePattern(f); LevelOneNoise(f)
    case 2 => LevelTwoPattern(f); LevelTwoNoise(f)
    case 3 => LevelThreePattern(f); LevelThreeNoise(f)
    case 4 => LevelFourPattern(f); LevelFourNoise(f)
    case _ => f
  }

  /** The frame shown for a level: the frame is cleared, then painted, so
      it is the ring table on a dark background. */
  function Render(level: nat): (f: seq<Color>)
    ensures |f| == LedCount
    ensures forall j :: 0 <= j < LedCount ==> f[j] == RingPixel(level, j)
  {
    Select(level, NpClear())
  }

  // An independent description of the patterns: the matrix read as a
  // row-major 5 x 5 grid, where each ring is the set of pixels at one
  // Manhattan distance from the centre, so level k lights a diamond of
  // radius k - 1.

  function AbsInt(x: int): nat
  {
    if x < 0 then -x else x
  }

  /** Manhattan distance of pixel `j` from the centre (row 2, column 2). */
  function Distance(j: nat): nat
  {
    AbsInt(j / 5 - 2) + AbsInt(j % 5 - 2)
  }

  /** The colour that encodes a level on the centre pixel. */
  function CenterColor(level: nat): Color
    requires 1 <= level <= 4
  {
    match level
    case 1 => Color(0, 0, 80)
    case 2 => Color(0, 0, 120)
    case 3 => Color(60, 60, 0)
    case _ => Color(80, 0, 0)
  }

  /** The colour pixel `j` should show at `level`: inside the diamond of
      radius `level - 1` the centre shows the level colour and every other
      pixel dim blue; everything else is dark. */
  function ExpectedPixel(level: nat, j: nat): Color
  {
    if 1 <= level <= 4 && Distance(j) < level then
      (if j == Center then CenterColor(level) else DimBlue)
    else Off
  }

  /** The rings are the distance shells 1, 2 and 3 around the centre, the
      centre is the only pixel at distance 0, and only the four corners lie
      farther out. */
  lemma RingsAreShells(j: nat)
    requires j < LedCount
    ensures j == Center <==> Distance(j) == 0
    ensures j in FirstRing <==> Distance(j) == 1
    ensures j in SecondRing <==> Distance(j) == 2
    ensures j in ThirdRing <==> Distance(j) == 3
    ensures j in {0, 4, 20, 24} <==> Distance(j) == 4
  {
  }

  /** Every level renders exactly the diamond pattern. */
  lemma RenderMatchesDiamond(level: nat, j: nat)
    requires j < LedCount
    ensures Render(level)[j] == ExpectedPixel(level, j)
  {
    RingsAreShells(j);
  }

  /** The rings are made of distinct pixels, pairwise disjoint, never the
      centre, never a corner, and all on the 25-pixel matrix. */
  lemma RingsWellFormed()
    ensures Distinct(FirstRing) && Distinct(SecondRing) && Distinct(ThirdRing)
    ensures Pixels(FirstRing) * Pixels(SecondRing) == {}
    ensures Pixels(FirstRing) * Pixels(ThirdRing) == {}
    ensures Pixels(SecondRing) * Pixels(ThirdRing) == {}
    ensures Center !in Pixels(FirstRing) + Pixels(SecondRing) + Pixels(ThirdRing)
    ensures {0, 4, 20, 24} * (Pixels(FirstRing) + Pixels(SecondRing) + Pixels(ThirdRing)) == {}
    ensures forall j :: j in Pixels(FirstRing) + Pixels(SecondRing) + Pixels(ThirdRing) ==> j < LedCount
  {
  }

  /** The pixels lit at a level, as a set: the centre plus the rings up to
      the level, and nothing at all for levels without a case. */
  function Shown(level: nat): set<nat>
  {
    if level < 1 || level > 4 then {}
    else
      ({Center}
       + (if level >= 2 then Pixels(FirstRing) else {})
       + (if level >= 3 then Pixels(SecondRing) else {})
       + (if level >= 4 then Pixels(ThirdRing) else {}))
  }

  /** A pixel is lit in the ring table exactly when it is in the shown set. */
  lemma RingPixelLit(level: nat, j: nat)
    ensures RingPixel(level, j) != Off <==> j in Shown(level)
  {
  }

  /** Every shown pixel is on the matrix. */
  lemma ShownOnMatrix(level: nat, j: nat)
    requires j in Shown(level)
    ensures j < LedCount
  {
  }

  /** The lit pixels of a rendered frame are exactly the shown set. */
  lemma RenderLit(level: nat)
    ensures Lit(Render(level)) == Shown(level)
  {
    var f := Render(level);
    forall j | j in Lit(f)
      ensures j in Shown(level)
    {
      RingPixelLit(level, j);
    }
    forall j | j in Shown(level)
      ensures j in Lit(f)
    {
      ShownOnMatrix(level, j);
      RingPixelLit(level, j);
    }
  }

  /** Number of pixels lit at each level. */
  function LitCount(level: nat): nat
  {
    match level
    case 1 => 1
    case 2 => 5
    case 3 => 13
    case 4 => 21
    case _ => 0
  }

  /** Exactly 1, 5, 13 and 21 pixels are lit at levels 1 to 4, and none at
      any other level. */
  lemma RenderLitCount(level: nat)
    ensures |Lit(Render(level))| == LitCount(level)
  {
    RenderLit(level);
    RingsWellFormed();
    DistinctPixelsCount(FirstRing);
    DistinctPixelsCount(SecondRing);
    DistinctPixelsCount(ThirdRing);
    var c := {Center};
    var a := Pixels(FirstRing);
    var b := Pixels(SecondRing);
    var d := Pixels(ThirdRing);
    assert |c + a| == 5 by { assert c * a == {}; }
    assert |c + a + b| == 13 by { assert (c + a) * b == {}; }
    assert |c + a + b + d| == 21 by { assert (c + a + b) * d == {}; }
  }

  /** The patterns grow with the level: every pixel lit at level k is lit at
      level k + 1. */
  lemma RenderNested(k: nat)
    requires 1 <= k < 4
    ensures Lit(Render(k)) <= Lit(Render(k + 1))
  {
    RenderLit(k);
    RenderLit(k + 1);
  }

  /** Level 0 and every level above 4 leave the cleared frame untouched. */
  lemma RenderBlankOutsideOneToFour(level: nat)
    requires level == 0 || level > 4
    ensures Render(level) == NpClear()
    ensures Lit(Render(level)) == {}
  {
  }

  /** The four corners are dark at every level. */
  lemma CornersNeverLit(level: nat)
    ensures {0, 4, 20, 24} * Lit(Render(level)) == {}
  {
    RenderLit(level);
    RingsWellFormed();
  }
}
