/** The NeoPixel driver as the noise monitor uses it: a frame of 25 colour
    triples that can be cleared or updated one pixel at a time. Only the
    effect of each call on the frame is modelled; pushing the frame to the
    LEDs is not. */
module NeoPixel {

  /** Number of pixels of the 5 x 5 LED matrix. */
  const LedCount: nat := 25

  /** One 8-bit colour channel. */
  type Byte = x: int | 0 <= x < 256

  datatype Color = Color(r: Byte, g: Byte, b: Byte)

  /** A dark pixel. */
  const Off: Color := Color(0, 0, 0)

  /** The pixels of a frame that are not dark. */
  function Lit(f: seq<Color>): set<nat>
  {
    set j: nat | j < |f| && f[j] != Off
  }

  /** Clearing gives a full-size frame with every pixel dark. */
  function NpClear(): (f: seq<Color>)
    ensures |f| == LedCount
    ensures forall j :: 0 <= j < |f| ==> f[j] == Off
    ensures Lit(f) == {}
  {
    seq(LedCount, _ => Off)
  }

  /** Setting one pixel changes that pixel to the given colour and leaves
      every other pixel as it was. */
  function NpSetLed(f: seq<Color>, index: nat, r: Byte, g: Byte, b: Byte): (f': seq<Color>)
    requires index < |f|
    ensures |f'| == |f|
    ensures f'[index] == Color(r, g, b)
    ensures forall j :: 0 <= j < |f| && j != index ==> f'[j] == f[j]
  {
    f[index := Color(r, g, b)]
  }
}
