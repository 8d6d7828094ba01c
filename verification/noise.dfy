/** The background texture's noise: a sine hash, its octave sum, and the
    mapping from the 200x200 RGBA buffer's byte index to pixel
    coordinates. Writing the bytes and attaching the image are left to the
    host. */
module Noise {
  import opened Common
  import opened Particles

  /** `noise(x, y)`: the fractional part of a scaled sine of a linear
      combination of the coordinates, mapped to [-1, 1). */
  function Hash(x: real, y: real, sin: real -> Signed): (r: real)
    ensures -1.0 <= r < 1.0
  {
    var n := sin(x * 12.9898 + y * 78.233) * 43758.5453;
    (n - n.Floor as real) * 2.0 - 1.0
  }

  /** The amplitude of octave `n`: halved at every octave. */
  function Half(n: nat): (a: real)
    ensures 0.0 < a <= 1.0
  {
    if n == 0 then 1.0 else Half(n - 1) * 0.5
  }

  /** `generateNoise(x, y)`: the absolute value of the octave sum. Each
      octave doubles the frequency and halves the amplitude, so the result
      stays below the sum of the amplitudes, which is below 2. */
  method GenerateNoise(x: real, y: real, t: TextureConfig, sin: real -> Signed) returns (v: real)
    ensures 0.0 <= v
    ensures t.octaves <= 0 ==> v == 0.0
    ensures 0 < t.octaves ==> v <= 2.0 - 2.0 * Half(t.octaves)
    ensures v < 2.0
  {
    var value := 0.0;
    var amplitude := 1.0;
    var frequency := t.frequency;
    var i := 0;
    while i < t.octaves
      invariant 0 <= i <= (if t.octaves < 0 then 0 else t.octaves)
      invariant amplitude == Half(i)
      invariant i == 0 ==> value == 0.0
      invariant Abs(value) <= 2.0 - 2.0 * amplitude
    {
      var n := Hash(x * frequency, y * frequency, sin);
      SignedScale(n, amplitude);
      value := value + n * amplitude;
      amplitude := amplitude * 0.5;
      frequency := frequency * 2.0;
      i := i + 1;
    }
    v := Abs(value);
  }

  /** The texture's side, in pixels. */
  const TextureSide: nat := 200

  /** The number of bytes in the RGBA buffer. */
  const TextureBytes: nat := 4 * TextureSide * TextureSide

  /** The pixel whose red byte sits at index `i` of the buffer:
      `((i / 4) % 200, floor((i / 4) / 200))`. */
  function PixelOf(i: nat): (xy: (nat, nat))
    requires i < TextureBytes && i % 4 == 0
    ensures xy.0 < TextureSide && xy.1 < TextureSide
  {
    ((i / 4) % TextureSide, (i / 4) / TextureSide)
  }

  /** The index of the red byte of pixel `(x, y)`: row-major, four bytes
      per pixel. */
  function ByteOf(x: nat, y: nat): (i: nat)
    requires x < TextureSide && y < TextureSide
    ensures i < TextureBytes && i % 4 == 0
  {
    4 * (y * TextureSide + x)
  }

  /** The loop's byte index and the pixel coordinates are in one-to-one
      correspondence: each visited index names one pixel, and every pixel is
      visited at its own index. */
  lemma PixelMappingBijective(i: nat, x: nat, y: nat)
    requires i < TextureBytes && i % 4 == 0
    requires x < TextureSide && y < TextureSide
    ensures ByteOf(PixelOf(i).0, PixelOf(i).1) == i
    ensures PixelOf(ByteOf(x, y)) == (x, y)
  {
    var k := i / 4;
    assert k == (k / TextureSide) * TextureSide + k % TextureSide;
    var j := y * TextureSide + x;
    assert ByteOf(x, y) / 4 == j;
    assert j / TextureSide == y && j % TextureSide == x;
  }

  /** The alpha byte every texture pixel gets: `floor(intensity * 255)`,
      3 at the default intensity and never more at lower levels. */
  function TextureAlpha(t: TextureConfig): (a: int)
    ensures 0.0 <= t.intensity <= 0.015 ==> 0 <= a <= 3
    ensures t.intensity == 0.015 ==> a == 3
  {
    (t.intensity * 255.0).Floor
  }
}
