/** The film-grain noise fill: one random grey, fully opaque pixel per canvas
    pixel, written as 32-bit words into a fresh image buffer. */
module StaticNoise {
  import opened Common

  /** Byte `i` (0 = lowest address) of a 32-bit word laid out little-endian, the
      byte order under which a `Uint32Array` view aliases the RGBA bytes of an
      image buffer: byte 0 is red, 1 green, 2 blue, 3 alpha. */
  function ByteOf(w: bv32, i: nat): bv8
    requires i < 4
  {
    ((w >> (8 * i) as bv5) & 0xFF) as bv8
  }

  function Red(w: bv32): bv8 { ByteOf(w, 0) }
  function Green(w: bv32): bv8 { ByteOf(w, 1) }
  function Blue(w: bv32): bv8 { ByteOf(w, 2) }
  function Alpha(w: bv32): bv8 { ByteOf(w, 3) }

  /** An opaque grey pixel: red, green and blue equal, alpha 255. */
  predicate IsOpaqueGrey(w: bv32) {
    Red(w) == Green(w) == Blue(w) && Alpha(w) == 0xFF
  }

  /** The grey level `Math.floor(Math.random() * 256)` drawn from one random
      value: the largest integer not above `r * 256`, so one of 0..255. */
  function ShadeOf(r: Roll): (shade: bv8)
    ensures (shade as int) as real <= r * 256.0 < (shade as int) as real + 1.0
  {
    (r * 256.0).Floor as bv8
  }

  /** The packed pixel `(255 << 24) | (shade << 16) | (shade << 8) | shade`.
      JavaScript computes it as a signed 32-bit integer and the store into the
      `Uint32Array` keeps the same 32 bits, so the word is modelled as a `bv32`. */
  function Pack(shade: bv8): (w: bv32)
    ensures w == 0xFF00_0000 + (shade as bv32) * 0x01_0101
    ensures Red(w) == shade && Green(w) == shade && Blue(w) == shade && Alpha(w) == 0xFF
  {
    var s := shade as bv32;
    (255 << 24) | (s << 16) | (s << 8) | s
  }

  /** The noise frame for the given per-pixel random values, in buffer order. */
  function NoiseFrame(rolls: seq<Roll>): (frame: seq<bv32>)
    ensures |frame| == |rolls|
    ensures forall i :: 0 <= i < |frame| ==> IsOpaqueGrey(frame[i])
  {
    seq(|rolls|, i requires 0 <= i < |rolls| => Pack(ShadeOf(rolls[i])))
  }

  /** `drawStatic`: allocates a zeroed `width * height` buffer, as
      `createImageData` does, and fills every word with a fresh grey pixel. The
      buffer is what `putImageData` then copies over the whole canvas. */
  method DrawStatic(width: nat, height: nat, rolls: seq<Roll>) returns (buffer: array<bv32>)
    requires |rolls| == width * height
    ensures buffer.Length == width * height
    ensures buffer[..] == NoiseFrame(rolls)
    ensures fresh(buffer)
  {
    buffer := new bv32[width * height];
    for i := 0 to buffer.Length
      invariant forall k :: 0 <= k < i ==> buffer[k] == Pack(ShadeOf(rolls[k]))
    {
      buffer[i] := Pack(ShadeOf(rolls[i]));
    }
  }
}
