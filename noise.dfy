/** The octave noise evaluator: parameters, a chunk offset and a seed give a
    `(resolution + 1) x (resolution + 1)` grid of heights.

    `Mathf.PerlinNoise` and the sample stream of `System.Random` are passed in
    as `Primitives`; with them fixed, every height is a function of the
    parameters, the offset and the cell, given by `Height` below. */
module Noise {
  import opened Unity
  import opened SystemRandom

  datatype Parameters = Parameters(
    resolution: nat,
    scale: int,
    octaves: nat,
    persistance: real,
    lacunarity: real,
    rangeMultiplier: real,
    seed: int)

  /** The coherent-noise function and the random sample stream. */
  datatype Primitives = Primitives(perlin: (real, real) -> real, samples: SampleStream)

  /** Octave offsets are drawn from `[-OffsetRange, OffsetRange)`. */
  const OffsetRange: int := 100000

  /** `b` multiplied into 1, `n` times: the amplitude after `n` octaves is
      `Pow(persistance, n)`, the frequency `Pow(lacunarity, n)`. */
  function Pow(b: real, n: nat): real
  {
    if n == 0 then 1.0 else Pow(b, n - 1) * b
  }

  /** Draw `k` of the generator seeded with `seed`: octave `i` takes draw
      `2 * i` for X and `2 * i + 1` for Y. */
  function Draw(samples: SampleStream, seed: int, k: nat): int
  {
    Scale(samples(seed, k), -OffsetRange, OffsetRange)
  }

  /** The offset of octave `i`: its two draws, shifted by the chunk offset
      times the resolution (before the `+ 1`), with Y inverted. */
  function OctaveOffset(p: Parameters, prim: Primitives, offset: Vector2, i: nat): Vector2
  {
    Vector2(Draw(prim.samples, p.seed, 2 * i) as real + offset.x * p.resolution as real,
            Draw(prim.samples, p.seed, 2 * i + 1) as real - offset.y * p.resolution as real)
  }

  /** Half the side of the output grid, `(resolution + 1) / 2`. */
  function HalfSize(p: Parameters): real
  {
    (p.resolution + 1) as real / 2.0
  }

  /** A cell coordinate centred on the grid, shifted by its octave offset,
      divided by the scale and multiplied by the frequency of octave `i`. */
  function SampleCoord(p: Parameters, cell: int, octaveOffset: real, i: nat): real
    requires p.scale != 0
  {
    (cell as real - HalfSize(p) + octaveOffset) / (p.scale as real) * Pow(p.lacunarity, i)
  }

  /** The Perlin sample of octave `i` at cell `(x, y)`. */
  function OctaveSample(p: Parameters, prim: Primitives, offset: Vector2, x: int, y: int, i: nat): real
    requires p.scale != 0
  {
    prim.perlin(SampleCoord(p, x, OctaveOffset(p, prim, offset, i).x, i),
                SampleCoord(p, y, OctaveOffset(p, prim, offset, i).y, i))
  }

  /** The first `n` octaves at cell `(x, y)`, octave `i` weighted by
      `Pow(persistance, i)`. */
  function OctaveSum(p: Parameters, prim: Primitives, offset: Vector2, x: int, y: int, n: nat): real
    requires p.scale != 0 || n == 0
  {
    if n == 0 then 0.0
    else OctaveSum(p, prim, offset, x, y, n - 1) + OctaveSample(p, prim, offset, x, y, n - 1) * Pow(p.persistance, n - 1)
  }

  /** The height of cell `(x, y)`: all octaves, times the range multiplier,
      with no normalisation. */
  function Height(p: Parameters, prim: Primitives, offset: Vector2, x: int, y: int): real
    requires p.scale != 0 || p.octaves == 0
  {
    OctaveSum(p, prim, offset, x, y, p.octaves) * p.rangeMultiplier
  }

  /** With no octaves every cell is 0. */
  lemma NoOctavesIsFlat(p: Parameters, prim: Primitives, offset: Vector2, x: int, y: int)
    requires p.octaves == 0
    ensures Height(p, prim, offset, x, y) == 0.0
  {
  }

  /** Octave `i` is weighted by `persistance^i`: with persistance 0 only the
      first octave contributes. */
  lemma {:induction false} ZeroPersistanceKeepsFirstOctave(p: Parameters, prim: Primitives, offset: Vector2, x: int, y: int, n: nat)
    requires p.scale != 0 && p.persistance == 0.0 && n >= 1
    ensures OctaveSum(p, prim, offset, x, y, n) == OctaveSample(p, prim, offset, x, y, 0)
  {
    if n > 1 {
      ZeroPersistanceKeepsFirstOctave(p, prim, offset, x, y, n - 1);
      assert Pow(p.persistance, n - 1) == Pow(p.persistance, n - 2) * 0.0;
    }
  }

  /** Every octave offset is its two draws, each in `[-100000, 100000)`,
      plus the chunk offset scaled by the resolution. */
  lemma OctaveOffsetDraws(p: Parameters, prim: Primitives, offset: Vector2, i: nat)
    ensures var o := OctaveOffset(p, prim, offset, i);
      -OffsetRange as real <= o.x - offset.x * p.resolution as real < OffsetRange as real &&
      -OffsetRange as real <= o.y + offset.y * p.resolution as real < OffsetRange as real
  {
  }

  /** The first `n` octave sums agree at two cells of two chunks whose cell
      positions, shifted by their chunk offsets, coincide. */
  lemma {:induction false} OctaveSumShift(p: Parameters, prim: Primitives, a: Vector2, x: int, y: int,
                                          b: Vector2, x': int, y': int, n: nat)
    requires p.scale != 0 || n == 0
    requires x as real + a.x * p.resolution as real == x' as real + b.x * p.resolution as real
    requires y as real - a.y * p.resolution as real == y' as real - b.y * p.resolution as real
    ensures OctaveSum(p, prim, a, x, y, n) == OctaveSum(p, prim, b, x', y', n)
  {
    if n > 0 {
      OctaveSumShift(p, prim, a, x, y, b, x', y', n - 1);
      OctaveSampleShift(p, prim, a, x, y, b, x', y', n - 1);
    }
  }

  /** One octave: the sample depends on the cell only through its shifted
      position. */
  lemma OctaveSampleShift(p: Parameters, prim: Primitives, a: Vector2, x: int, y: int,
                          b: Vector2, x': int, y': int, i: nat)
    requires p.scale != 0
    requires x as real + a.x * p.resolution as real == x' as real + b.x * p.resolution as real
    requires y as real - a.y * p.resolution as real == y' as real - b.y * p.resolution as real
    ensures OctaveSample(p, prim, a, x, y, i) == OctaveSample(p, prim, b, x', y', i)
  {
    var oa, ob := OctaveOffset(p, prim, a, i), OctaveOffset(p, prim, b, i);
    var cx, cy := x as real - HalfSize(p) + oa.x, y as real - HalfSize(p) + oa.y;
    assert cx == x' as real - HalfSize(p) + ob.x;
    assert cy == y' as real - HalfSize(p) + ob.y;
    assert SampleCoord(p, x, oa.x, i) == cx / (p.scale as real) * Pow(p.lacunarity, i) == SampleCoord(p, x', ob.x, i);
    assert SampleCoord(p, y, oa.y, i) == cy / (p.scale as real) * Pow(p.lacunarity, i) == SampleCoord(p, y', ob.y, i);
  }

  /** The height at a cell depends only on where the cell lies in noise
      space: moving the chunk offset by one along X and the cell by
      `resolution` the other way gives the same height, and likewise along Y
      with the sign inverted. */
  lemma SameNoisePointSameHeight(p: Parameters, prim: Primitives, a: Vector2, x: int, y: int,
                                 b: Vector2, x': int, y': int)
    requires p.scale != 0 || p.octaves == 0
    requires x as real + a.x * p.resolution as real == x' as real + b.x * p.resolution as real
    requires y as real - a.y * p.resolution as real == y' as real - b.y * p.resolution as real
    ensures Height(p, prim, a, x, y) == Height(p, prim, b, x', y')
  {
    OctaveSumShift(p, prim, a, x, y, b, x', y', p.octaves);
  }

  /** The sample the octave loop computes for octave `i`, from its local half
      size, frequency and octave offset, is `OctaveSample`. */
  lemma OctaveSampleAt(p: Parameters, prim: Primitives, offset: Vector2, x: int, y: int, i: nat,
                       halfSize: real, frequency: real, o: Vector2, sampleX: real, sampleY: real)
    requires p.scale != 0
    requires halfSize == (p.resolution + 1) as real / 2.0
    requires frequency == Pow(p.lacunarity, i)
    requires o == OctaveOffset(p, prim, offset, i)
    requires sampleX == (x as real - halfSize + o.x) / (p.scale as real) * frequency
    requires sampleY == (y as real - halfSize + o.y) / (p.scale as real) * frequency
    ensures prim.perlin(sampleX, sampleY) == OctaveSample(p, prim, offset, x, y, i)
  {
    assert halfSize == HalfSize(p);
    assert SampleCoord(p, x, o.x, i) == sampleX;
    assert SampleCoord(p, y, o.y, i) == sampleY;
  }

  /** One more octave: the running sum plus the next sample times its
      amplitude. */
  lemma OctaveSumStep(p: Parameters, prim: Primitives, offset: Vector2, x: int, y: int, i: nat,
                      sum: real, sample: real, amplitude: real)
    requires p.scale != 0
    requires sum == OctaveSum(p, prim, offset, x, y, i)
    requires sample == OctaveSample(p, prim, offset, x, y, i)
    requires amplitude == Pow(p.persistance, i)
    ensures sum + sample * amplitude == OctaveSum(p, prim, offset, x, y, i + 1)
  {
  }

  /** The octave loop for one cell: sums the Perlin samples of every octave,
      each weighted by its amplitude, given the octave offsets already
      drawn. */
  method SumOctaves(parameters: Parameters, prim: Primitives, offset: Vector2, octaveOffsets: array<Vector2>,
                    halfSize: real, x: int, y: int) returns (noiseHeight: real)
    requires parameters.scale != 0 || parameters.octaves == 0
    requires halfSize == (parameters.resolution + 1) as real / 2.0
    requires octaveOffsets.Length == parameters.octaves
    requires forall j :: 0 <= j < octaveOffsets.Length ==> octaveOffsets[j] == OctaveOffset(parameters, prim, offset, j)
    ensures noiseHeight == OctaveSum(parameters, prim, offset, x, y, parameters.octaves)
  {
    var amplitude := 1.0;
    var frequency := 1.0;
    noiseHeight := 0.0;

    var i := 0;
    while i < parameters.octaves
      invariant 0 <= i <= parameters.octaves
      invariant amplitude == Pow(parameters.persistance, i) && frequency == Pow(parameters.lacunarity, i)
      invariant noiseHeight == OctaveSum(parameters, prim, offset, x, y, i)
    {
      noiseHeight, amplitude, frequency :=
        AddOctave(parameters, prim, offset, octaveOffsets[i], halfSize, x, y, i, noiseHeight, amplitude, frequency);
      i := i + 1;
    }
  }

  /** The body of the octave loop: adds octave `i`'s sample, weighted by the
      current amplitude, and moves amplitude and frequency on to octave
      `i + 1`. */
  method AddOctave(parameters: Parameters, prim: Primitives, offset: Vector2, octaveOffset: Vector2,
                   halfSize: real, x: int, y: int, i: nat, noiseHeight: real, amplitude: real, frequency: real)
    returns (noiseHeight': real, amplitude': real, frequency': real)
    requires parameters.scale != 0
    requires halfSize == (parameters.resolution + 1) as real / 2.0
    requires octaveOffset == OctaveOffset(parameters, prim, offset, i)
    requires amplitude == Pow(parameters.persistance, i) && frequency == Pow(parameters.lacunarity, i)
    requires noiseHeight == OctaveSum(parameters, prim, offset, x, y, i)
    ensures amplitude' == Pow(parameters.persistance, i + 1) && frequency' == Pow(parameters.lacunarity, i + 1)
    ensures noiseHeight' == OctaveSum(parameters, prim, offset, x, y, i + 1)
  {
    var sampleX := (x as real - halfSize + octaveOffset.x) / (parameters.scale as real) * frequency;
    var sampleY := (y as real - halfSize + octaveOffset.y) / (parameters.scale as real) * frequency;

    var perlinValue := prim.perlin(sampleX, sampleY);
    OctaveSampleAt(parameters, prim, offset, x, y, i, halfSize, frequency, octaveOffset, sampleX, sampleY);
    OctaveSumStep(parameters, prim, offset, x, y, i, noiseHeight, perlinValue, amplitude);
    noiseHeight' := noiseHeight + perlinValue * amplitude;

    amplitude' := amplitude * parameters.persistance;
    frequency' := frequency * parameters.lacunarity;
  }

  /** The first loop of `Generate`: a generator seeded with the parameters'
      seed gives two draws per octave, which become that octave's offset. */
  method DrawOctaveOffsets(parameters: Parameters, offset: Vector2, prim: Primitives)
    returns (octaveOffsets: array<Vector2>)
    ensures fresh(octaveOffsets)
    ensures octaveOffsets.Length == parameters.octaves
    ensures forall j :: 0 <= j < octaveOffsets.Length ==> octaveOffsets[j] == OctaveOffset(parameters, prim, offset, j)
  {
    var resolution := parameters.resolution;
    var rng := new Random(parameters.seed, prim.samples);
    octaveOffsets := new Vector2[parameters.octaves];
    var i := 0;
    while i < parameters.octaves
      invariant 0 <= i <= parameters.octaves
      invariant rng.drawn == 2 * i
      invariant forall j :: 0 <= j < i ==> octaveOffsets[j] == OctaveOffset(parameters, prim, offset, j)
    {
      var drawX := rng.Next(-OffsetRange, OffsetRange);
      var octaveOffsetX := drawX as real + offset.x * resolution as real;
      var drawY := rng.Next(-OffsetRange, OffsetRange);
      var octaveOffsetY := drawY as real - offset.y * resolution as real;
      octaveOffsets[i] := Vector2(octaveOffsetX, octaveOffsetY);
      i := i + 1;
    }
  }

  /** Builds the height grid: draws the octave offsets, then sums the octaves
      at every cell. */
  method Generate(parameters: Parameters, offset: Vector2, prim: Primitives) returns (noiseMap: array2<real>)
    requires parameters.scale != 0 || parameters.octaves == 0
    ensures fresh(noiseMap)
    ensures noiseMap.Length0 == parameters.resolution + 1 && noiseMap.Length1 == parameters.resolution + 1
    ensures forall x, y :: 0 <= x < noiseMap.Length0 && 0 <= y < noiseMap.Length1 ==>
              noiseMap[x, y] == Height(parameters, prim, offset, x, y)
  {
    var resolution := parameters.resolution;
    var octaves := parameters.octaves;

    var octaveOffsets := DrawOctaveOffsets(parameters, offset, prim);

    resolution := resolution + 1;

    noiseMap := new real[resolution, resolution];

    var halfSize := resolution as real / 2.0;

    var y := 0;
    while y < resolution
      invariant 0 <= y <= resolution
      invariant octaveOffsets.Length == octaves
      invariant forall j :: 0 <= j < octaves ==> octaveOffsets[j] == OctaveOffset(parameters, prim, offset, j)
      invariant forall x', y' :: 0 <= x' < resolution && 0 <= y' < y ==>
                  noiseMap[x', y'] == Height(parameters, prim, offset, x', y')
    {
      FillNoiseRow(parameters, offset, prim, octaveOffsets, halfSize, noiseMap, y);
      y := y + 1;
    }
  }

  /** The inner loop of `Generate`: fills row `y` of the grid, leaving the
      rows before it as they were. */
  method FillNoiseRow(parameters: Parameters, offset: Vector2, prim: Primitives, octaveOffsets: array<Vector2>,
                      halfSize: real, noiseMap: array2<real>, y: nat)
    requires parameters.scale != 0 || parameters.octaves == 0
    requires halfSize == (parameters.resolution + 1) as real / 2.0
    requires octaveOffsets.Length == parameters.octaves
    requires forall j :: 0 <= j < octaveOffsets.Length ==> octaveOffsets[j] == OctaveOffset(parameters, prim, offset, j)
    requires noiseMap.Length0 == noiseMap.Length1 == parameters.resolution + 1 && y < noiseMap.Length1
    requires forall x', y' :: 0 <= x' < noiseMap.Length0 && 0 <= y' < y ==>
               noiseMap[x', y'] == Height(parameters, prim, offset, x', y')
    modifies noiseMap
    ensures forall x', y' :: 0 <= x' < noiseMap.Length0 && 0 <= y' <= y ==>
              noiseMap[x', y'] == Height(parameters, prim, offset, x', y')
  {
    var x := 0;
    while x < noiseMap.Length0
      invariant 0 <= x <= noiseMap.Length0
      invariant forall x', y' :: 0 <= x' < noiseMap.Length0 && 0 <= y' < y ==>
                  noiseMap[x', y'] == Height(parameters, prim, offset, x', y')
      invariant forall x' :: 0 <= x' < x ==> noiseMap[x', y] == Height(parameters, prim, offset, x', y)
    {
      var noiseHeight := SumOctaves(parameters, prim, offset, octaveOffsets, halfSize, x, y);
      noiseMap[x, y] := noiseHeight * parameters.rangeMultiplier;
      x := x + 1;
    }
  }
}
