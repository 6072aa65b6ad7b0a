/** The texture builder of the chunk pipeline: every chunk gets a flat
    `size` by `size` texture of one colour, halfway between black and white;
    the height map does not enter into it. */
module TextureGeneration {
  import opened Unity
  import Arith

  /** Opaque mid-grey, the value of `Color.Lerp(Color.black, Color.white, 0.5)`. */
  const MidGrey: Color := Color(0.5, 0.5, 0.5, 1.0)

  /** `n` pixels of mid-grey. */
  function Uniform(n: nat): seq<Color>
  {
    seq(n, _ => MidGrey)
  }

  class TextureGenerator {
    const size: nat

    constructor (inSize: nat)
      ensures size == inSize
    {
      size := inSize;
    }

    /** Fills a fresh `size * size` pixel array row by row with the colour
        halfway between black and white: every pixel is mid-grey. */
    method Generate() returns (pixels: array<Color>)
      ensures fresh(pixels)
      ensures pixels.Length == size * size
      ensures pixels[..] == Uniform(size * size)
    {
      pixels := new Color[size * size];
      var colour := Lerp(Black, White, 0.5);
      assert colour == MidGrey;
      var y := 0;
      ghost var filled := 0;
      while y < size
        invariant 0 <= y <= size && filled == y * size <= pixels.Length
        invariant forall i :: 0 <= i < filled ==> pixels[i] == colour
      {
        Arith.MulMono(y + 1, size, size);
        Arith.NextRow(y, size);
        FillRow(pixels, size, y, colour, filled);
        y, filled := y + 1, filled + size;
      }
      assert pixels[..] == Uniform(size * size);
    }
  }

  /** The inner loop of `TextureGenerator.Generate`: writes `colour` over row
      `y`, which starts at `start`, leaving the rows before it as they were. */
  method FillRow(pixels: array<Color>, size: nat, y: nat, colour: Color, ghost start: nat)
    requires start == y * size && start + size <= pixels.Length
    requires forall i :: 0 <= i < start ==> pixels[i] == colour
    modifies pixels
    ensures forall i :: 0 <= i < start + size ==> pixels[i] == colour
  {
    var x := 0;
    while x < size
      invariant 0 <= x <= size
      invariant forall i :: 0 <= i < start + x ==> pixels[i] == colour
    {
      pixels[y * size + x] := colour;
      x := x + 1;
    }
  }
}
