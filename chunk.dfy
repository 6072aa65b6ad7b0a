/** The chunk pipeline: `ChunkGenerator` places a chunk in the world, a worker
    builds its height map, mesh and texture and queues one callback for each,
    and the main thread drains the queues, installing results on chunks whose
    game object still exists.

    A chunk is identified with its game object: `alive` says whether the
    object still exists, `mesh` and `texture` are what its mesh filter and
    renderer hold. Threads are not modelled: `GenerateChunkData` is the body
    the worker runs, called whenever the environment schedules it. */
module ChunkGeneration {
  import opened Unity
  import Noise
  import MeshGeneration
  import TextureGeneration

  datatype Option<T> = None | Some(value: T)

  /** What a mesh filter holds once the callback has assigned it: Unity copies
      the arrays on assignment. */
  datatype Mesh = Mesh(vertices: seq<Vector3>, uv: seq<Vector2>, triangles: seq<int>)

  /** A `Texture2D` of the given dimensions with its pixels set. */
  datatype Texture = Texture(width: nat, height: nat, pixels: seq<Color>)

  class Chunk {
    const position: Vector3
    /** Whether the game object still exists (`inChunk.gameObject` is truthy). */
    var alive: bool
    var mesh: Option<Mesh>
    var texture: Option<Texture>

    constructor (position: Vector3)
      ensures this.position == position
      ensures alive && mesh == None && texture == None
    {
      this.position := position;
      alive := true;
      mesh := None;
      texture := None;
    }

    /** The game object is destroyed by the world, outside the generator. */
    method Destroy()
      modifies this
      ensures !alive && mesh == old(mesh) && texture == old(texture)
    {
      alive := false;
    }
  }

  /** A queued `() => On...DataRecieved(result, inChunk)`: the worker's
      result and the chunk it is for. */
  datatype Callback<T> = Callback(result: T, chunk: Chunk)

  /** A queued `() => OnMeshDataRecieved(result, inChunk)`. */
  type MeshCallback = Callback<Mesh>

  /** A queued `() => OnTextureDataRecieved(result, inChunk)`. */
  type TextureCallback = Callback<seq<Color>>

  /** Where the chunk at `offset` is placed: `offset.x * size` along X and
      `-offset.y * size` along Z, on the ground plane. */
  function ChunkPosition(offset: Vector2, size: nat): Vector3
  {
    Vector3(offset.x * size as real, 0.0, -offset.y * size as real)
  }

  /** The mesh the chunk ends with after the callbacks in `q` run in order,
      starting from `current`: the last callback for `c` wins, and a chunk
      whose game object is gone keeps what it had. */
  function MeshAfter(q: seq<MeshCallback>, c: Chunk, alive: bool, current: Option<Mesh>): Option<Mesh>
  {
    if q == [] then current
    else
      var before := MeshAfter(q[..|q| - 1], c, alive, current);
      var last := q[|q| - 1];
      if last.chunk == c && alive then Some(last.result) else before
  }

  /** The texture the chunk ends with after the callbacks in `q`, each
      building a `size` by `size` texture from its pixels. */
  function TextureAfter(q: seq<TextureCallback>, size: nat, c: Chunk, alive: bool, current: Option<Texture>): Option<Texture>
  {
    if q == [] then current
    else
      var before := TextureAfter(q[..|q| - 1], size, c, alive, current);
      var last := q[|q| - 1];
      if last.chunk == c && alive then Some(Texture(size, size, last.result)) else before
  }

  /** The index of the last callback for `c` in `q`. */
  predicate IsLastFor<T>(q: seq<Callback<T>>, c: Chunk, i: int)
  {
    0 <= i < |q| && q[i].chunk == c && forall j :: i < j < |q| ==> q[j].chunk != c
  }

  /** A live chunk ends with the mesh of the last callback addressed to it. */
  lemma {:induction false} LastMeshWins(q: seq<MeshCallback>, c: Chunk, current: Option<Mesh>, i: int)
    requires IsLastFor(q, c, i)
    ensures MeshAfter(q, c, true, current) == Some(q[i].result)
  {
    if i < |q| - 1 {
      var p := q[..|q| - 1];
      assert IsLastFor(p, c, i) by {
        forall j | i < j < |p|
          ensures p[j].chunk != c
        {
          assert p[j] == q[j];
        }
      }
      LastMeshWins(p, c, current, i);
    }
  }

  /** A live chunk ends with a `size` by `size` texture holding the pixels of
      the last texture callback addressed to it. */
  lemma {:induction false} LastTextureWins(q: seq<TextureCallback>, size: nat, c: Chunk, current: Option<Texture>, i: int)
    requires IsLastFor(q, c, i)
    ensures TextureAfter(q, size, c, true, current) == Some(Texture(size, size, q[i].result))
  {
    if i < |q| - 1 {
      var p := q[..|q| - 1];
      assert IsLastFor(p, c, i) by {
        forall j | i < j < |p|
          ensures p[j].chunk != c
        {
          assert p[j] == q[j];
        }
      }
      LastTextureWins(p, size, c, current, i);
    }
  }

  /** A chunk no callback addresses, or whose game object is gone, keeps its
      mesh. */
  lemma {:induction false} MeshUntouched(q: seq<MeshCallback>, c: Chunk, alive: bool, current: Option<Mesh>)
    requires !alive || forall j :: 0 <= j < |q| ==> q[j].chunk != c
    ensures MeshAfter(q, c, alive, current) == current
  {
    if q != [] {
      var p := q[..|q| - 1];
      assert forall j :: 0 <= j < |p| ==> p[j] == q[j];
      MeshUntouched(p, c, alive, current);
    }
  }

  /** A chunk no texture callback addresses, or whose game object is gone,
      keeps its texture. */
  lemma {:induction false} TextureUntouched(q: seq<TextureCallback>, size: nat, c: Chunk, alive: bool, current: Option<Texture>)
    requires !alive || forall j :: 0 <= j < |q| ==> q[j].chunk != c
    ensures TextureAfter(q, size, c, alive, current) == current
  {
    if q != [] {
      var p := q[..|q| - 1];
      assert forall j :: 0 <= j < |p| ==> p[j] == q[j];
      TextureUntouched(p, size, c, alive, current);
    }
  }

  /** The chunks the callbacks in a queue address. */
  function Targets<T(==)>(q: seq<Callback<T>>): set<Chunk>
  {
    set cb | cb in q :: cb.chunk
  }

  class ChunkGenerator {
    const parameters: Noise.Parameters
    const prim: Noise.Primitives
    /** The chunk's side in quads, taken from the noise resolution. */
    const size: nat
    const meshGenerator: MeshGeneration.MeshGenerator
    const textureGenerator: TextureGeneration.TextureGenerator
    var meshQueue: seq<MeshCallback>
    var textureQueue: seq<TextureCallback>

    ghost predicate Valid()
      reads this, meshGenerator, meshGenerator.uv, meshGenerator.triangles
    {
      size == parameters.resolution &&
      meshGenerator.size == size && meshGenerator.Valid() &&
      textureGenerator.size == size
    }

    constructor (inParameters: Noise.Parameters, prim: Noise.Primitives)
      ensures Valid() && parameters == inParameters && this.prim == prim
      ensures meshQueue == [] && textureQueue == []
    {
      parameters := inParameters;
      this.prim := prim;
      size := inParameters.resolution;
      meshGenerator := new MeshGeneration.MeshGenerator(inParameters.resolution);
      textureGenerator := new TextureGeneration.TextureGenerator(inParameters.resolution);
      meshQueue := [];
      textureQueue := [];
    }

    /** Creates the chunk's game object at its place in the world; the worker
        that fills it is `GenerateChunkData`. */
    method GenerateChunk(offset: Vector2) returns (chunk: Chunk)
      ensures fresh(chunk)
      ensures chunk.position == ChunkPosition(offset, size)
      ensures chunk.alive && chunk.mesh == None && chunk.texture == None
    {
      chunk := new Chunk(Vector3(offset.x * size as real, 0.0, -offset.y * size as real));
    }

    /** The worker: builds the height map at `offset`, then the mesh and the
        texture from it, and queues one callback of each kind for `chunk`. */
    method GenerateChunkData(offset: Vector2, chunk: Chunk) returns (heightMap: array2<real>)
      requires Valid() && (parameters.scale != 0 || parameters.octaves == 0)
      modifies this
      ensures Valid()
      ensures heightMap.Length0 == size + 1 && heightMap.Length1 == size + 1
      ensures forall x, y :: 0 <= x <= size && 0 <= y <= size ==>
                heightMap[x, y] == Noise.Height(parameters, prim, offset, x, y)
      ensures meshQueue == old(meshQueue) + [Callback(
                Mesh(MeshGeneration.VertexTable(size, heightMap), MeshGeneration.UvTable(size),
                     MeshGeneration.TriangleTable(size)), chunk)]
      ensures textureQueue == old(textureQueue) + [Callback(TextureGeneration.Uniform(size * size), chunk)]
    {
      heightMap := Noise.Generate(parameters, offset, prim);
      var meshResult := meshGenerator.Generate(heightMap);
      meshQueue := meshQueue + [Callback(
        Mesh(meshResult.vertices[..], meshResult.uv[..], meshResult.triangles[..]), chunk)];
      var pixels := textureGenerator.Generate();
      textureQueue := textureQueue + [Callback(pixels[..], chunk)];
    }

    /** Installs a mesh on a chunk whose game object still exists. */
    method OnMeshDataRecieved(mesh: Mesh, chunk: Chunk)
      modifies chunk
      ensures chunk.alive == old(chunk.alive) && chunk.texture == old(chunk.texture)
      ensures chunk.mesh == if old(chunk.alive) then Some(mesh) else old(chunk.mesh)
    {
      if !chunk.alive {
        return;
      }
      chunk.mesh := Some(mesh);
    }

    /** Installs a `size` by `size` texture with the given pixels on a chunk
        whose game object still exists. */
    method OnTextureDataRecieved(pixels: seq<Color>, chunk: Chunk)
      modifies chunk
      ensures chunk.alive == old(chunk.alive) && chunk.mesh == old(chunk.mesh)
      ensures chunk.texture == if old(chunk.alive) then Some(Texture(size, size, pixels)) else old(chunk.texture)
    {
      if !chunk.alive {
        return;
      }
      chunk.texture := Some(Texture(size, size, pixels));
    }

    /** Drains the mesh queue, then the texture queue, running each callback
        in the order it was queued. */
    method ProcessQueues()
      modifies this, Targets(meshQueue), Targets(textureQueue)
      ensures meshQueue == [] && textureQueue == []
      ensures forall c :: c in Targets(old(meshQueue)) || c in Targets(old(textureQueue)) ==>
                c.alive == old(c.alive) &&
                c.mesh == MeshAfter(old(meshQueue), c, old(c.alive), old(c.mesh)) &&
                c.texture == TextureAfter(old(textureQueue), size, c, old(c.alive), old(c.texture))
    {
      ghost var targets := Targets(meshQueue) + Targets(textureQueue);
      DrainMeshQueue(targets);
      DrainTextureQueue(targets);
    }

    /** The first loop of `ProcessQueues`: runs the mesh callbacks in queue
        order, leaving the texture queue and every chunk's texture alone. */
    method DrainMeshQueue(ghost targets: set<Chunk>)
      modifies this, Targets(meshQueue)
      ensures meshQueue == [] && textureQueue == old(textureQueue)
      ensures forall c :: c in targets ==>
                c.alive == old(c.alive) && c.texture == old(c.texture) &&
                c.mesh == MeshAfter(old(meshQueue), c, old(c.alive), old(c.mesh))
    {
      ghost var meshes := meshQueue;
      ghost var k := 0;
      while |meshQueue| > 0
        invariant 0 <= k <= |meshes| && meshQueue == meshes[k..] && textureQueue == old(textureQueue)
        invariant forall c :: c in targets ==>
                    c.alive == old(c.alive) && c.texture == old(c.texture) &&
                    c.mesh == MeshAfter(meshes[..k], c, old(c.alive), old(c.mesh))
        modifies this, Targets(meshes)
      {
        var callback := meshQueue[0];
        assert meshes[..k + 1] == meshes[..k] + [callback];
        meshQueue := meshQueue[1..];
        OnMeshDataRecieved(callback.result, callback.chunk);
        k := k + 1;
      }
      assert meshes[..k] == meshes;
    }

    /** The second loop of `ProcessQueues`: runs the texture callbacks in
        queue order, leaving the mesh queue and every chunk's mesh alone. */
    method DrainTextureQueue(ghost targets: set<Chunk>)
      modifies this, Targets(textureQueue)
      ensures textureQueue == [] && meshQueue == old(meshQueue)
      ensures forall c :: c in targets ==>
                c.alive == old(c.alive) && c.mesh == old(c.mesh) &&
                c.texture == TextureAfter(old(textureQueue), size, c, old(c.alive), old(c.texture))
    {
      ghost var textures := textureQueue;
      ghost var k := 0;
      while |textureQueue| > 0
        invariant 0 <= k <= |textures| && textureQueue == textures[k..] && meshQueue == old(meshQueue)
        invariant forall c :: c in targets ==>
                    c.alive == old(c.alive) && c.mesh == old(c.mesh) &&
                    c.texture == TextureAfter(textures[..k], size, c, old(c.alive), old(c.texture))
        modifies this, Targets(textures)
      {
        var callback := textureQueue[0];
        assert textures[..k + 1] == textures[..k] + [callback];
        textureQueue := textureQueue[1..];
        OnTextureDataRecieved(callback.result, callback.chunk);
        k := k + 1;
      }
      assert textures[..k] == textures;
    }
  }

  /** Neighbouring chunks along X meet: the last vertex column of the chunk at
      `a` (local X = `size`) and the first column of the chunk one step to the
      right (local X = 0) land on the same world points, heights included,
      because both height maps sample the same noise point there. */
  lemma SeamAlongX(p: Noise.Parameters, prim: Noise.Primitives, a: Vector2,
                   left: array2<real>, right: array2<real>, z: nat)
    requires p.scale != 0 || p.octaves == 0
    requires left.Length0 == p.resolution + 1 && left.Length1 == p.resolution + 1
    requires right.Length0 == p.resolution + 1 && right.Length1 == p.resolution + 1
    requires forall x, y :: 0 <= x <= p.resolution && 0 <= y <= p.resolution ==>
               left[x, y] == Noise.Height(p, prim, a, x, y)
    requires forall x, y :: 0 <= x <= p.resolution && 0 <= y <= p.resolution ==>
               right[x, y] == Noise.Height(p, prim, Vector2(a.x + 1.0, a.y), x, y)
    requires z <= p.resolution
    ensures ChunkPosition(a, p.resolution).Plus(MeshGeneration.GridVertex(left, p.resolution, z)) ==
            ChunkPosition(Vector2(a.x + 1.0, a.y), p.resolution).Plus(MeshGeneration.GridVertex(right, 0, z))
  {
    var size := p.resolution;
    var b := Vector2(a.x + 1.0, a.y);
    assert size as real + a.x * size as real == 0 as real + b.x * size as real;
    Noise.SameNoisePointSameHeight(p, prim, a, size, z, b, 0, z);
  }

  /** Neighbouring chunks along Z meet: the first vertex row of the chunk at
      `a` (local Z = 0) and the last row of the chunk whose offset is one more
      in Y (local Z = `size`), which sits one chunk further towards -Z. */
  lemma SeamAlongZ(p: Noise.Parameters, prim: Noise.Primitives, a: Vector2,
                   near: array2<real>, far: array2<real>, x: nat)
    requires p.scale != 0 || p.octaves == 0
    requires near.Length0 == p.resolution + 1 && near.Length1 == p.resolution + 1
    requires far.Length0 == p.resolution + 1 && far.Length1 == p.resolution + 1
    requires forall x, y :: 0 <= x <= p.resolution && 0 <= y <= p.resolution ==>
               near[x, y] == Noise.Height(p, prim, a, x, y)
    requires forall x, y :: 0 <= x <= p.resolution && 0 <= y <= p.resolution ==>
               far[x, y] == Noise.Height(p, prim, Vector2(a.x, a.y + 1.0), x, y)
    requires x <= p.resolution
    ensures ChunkPosition(a, p.resolution).Plus(MeshGeneration.GridVertex(near, x, 0)) ==
            ChunkPosition(Vector2(a.x, a.y + 1.0), p.resolution).Plus(MeshGeneration.GridVertex(far, x, p.resolution))
  {
    var size := p.resolution;
    var b := Vector2(a.x, a.y + 1.0);
    assert 0 as real - a.y * size as real == size as real - b.y * size as real;
    Noise.SameNoisePointSameHeight(p, prim, a, x, 0, b, x, size);
  }
}
