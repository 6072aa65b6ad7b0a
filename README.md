# Absent terrain chunks in Dafny

This project models the core of Absent's terrain streaming. The world asks
for one chunk at each integer point strictly inside a disc around the origin.
For each chunk, `ChunkGenerator` creates the game object at its place in the
world and starts a worker. The worker samples an octave-noise height map,
builds a duplicated-vertex mesh and a flat texture from it, and queues one
callback of each kind. Once per frame, the main thread drains both queues.
It installs each result on its chunk, but only while the chunk's game object
still exists. Beside this, a small job system keeps a list of threaded jobs.
On each update it fires the callbacks of the finished jobs, walking the list
from the back, and removes those jobs.

Modules, following the source's classes:

- `Unity`: the engine value types `Vector2`, `Vector3` and `Color`, plus
  `Color.Lerp`. Floats are `real`.
- `SystemRandom`: `System.Random` as a class. It counts the samples it has
  consumed and scales each one into `Next`'s range. The internal sample
  stream is a parameter.
- `Noise`: `Noise.Parameters` and `Noise.Generate`. A pure function
  `Height` gives every cell of the grid in closed form, and the imperative
  `Generate` is proved to fill the grid with it. `Mathf.PerlinNoise` is a
  parameter.
- `MeshGeneration`: `MeshGenerator`. Its constructor fills the cached UV and
  triangle tables, and `Generate` fills a fresh vertex array. Each array is
  proved equal to a specification table. Lemmas give the tables their
  meaning: which quad corner owns which slot, the two triangles of every
  quad, indices in range, the UV of each slot, and the vertex stored at
  each slot.
- `TextureGeneration`: `TextureGenerator`, which fills `size * size` pixels
  with the colour halfway between black and white.
- `ChunkGeneration`: `Chunk` and `ChunkGenerator` with their two callback
  queues. It covers the chunk's world position, the worker, the liveness
  guards of the two callbacks, and the draining of the queues. Fold
  functions state what every chunk holds once the queues are drained. Two
  seam lemmas show that neighbouring chunks share their border vertices.
- `Jobs`: `JobSystem` with `DoThreaded`, thread completion and the
  backward `Update` walk.
- `World`: the disc sweep of `WorldGenerator.TestGenerate`.
- `Arith`: small arithmetic lemmas about row-major indexing. It models
  nothing by itself.

## Model

| member | source | states |
|---|---|---|
| `SystemRandom.Scale` | Assets/Code/Noise.cs:48-49 | `rng.Next(min, max)` lies in `[min, max)` when the range is non-empty, and equals `min` when it is empty |
| `SystemRandom.Random.Next` | Assets/Code/Noise.cs:44-49 | each call consumes exactly one sample of the generator built from the seed, and returns that sample scaled into the range |
| `Noise.DrawOctaveOffsets` | Assets/Code/Noise.cs:44-51 | octave `i`'s offset comes from draws `2i` (X) and `2i+1` (Y) of the seeded generator. The chunk offset times the resolution is added to X and subtracted from Y |
| `Noise.OctaveOffsetDraws` | Assets/Code/Noise.cs:48-49 | every octave offset, with the chunk shift taken off, lies in `[-100000, 100000)` on both axes |
| `Noise.SumOctaves` | Assets/Code/Noise.cs:64-78 | the octave loop at a cell yields the sum of every octave's Perlin sample. Octave `i` is sampled at frequency `lacunarity^i` and weighted by amplitude `persistance^i`, since both restart at 1 for every cell |
| `Noise.Generate` | Assets/Code/Noise.cs:32-85 | the map is `(resolution + 1)` square, and cell `[x, y]` holds `Height`: the full octave sum at that cell times `rangeMultiplier`, with no normalisation |
| `Noise.NoOctavesIsFlat` | Assets/Code/Noise.cs:64-80 | with zero octaves every cell is 0 |
| `Noise.ZeroPersistanceKeepsFirstOctave` | Assets/Code/Noise.cs:68-77 | with persistance 0, only the first octave contributes to a cell |
| `Noise.SameNoisePointSameHeight` | Assets/Code/Noise.cs:48-49 | two cells of two chunks get the same height when their positions, shifted by chunk offset times resolution (Y inverted), coincide. The height depends only on the world noise point |
| `MeshGeneration.SlotOwner` | Assets/Code/ChunkGenerator.cs:206-230 | every corner of every quad is written to a slot inside the vertex array, and that slot identifies the corner |
| `MeshGeneration.OwnerSlot` | Assets/Code/ChunkGenerator.cs:206-230 | every slot of the `size * size * 4` vertex array is written by exactly one quad corner, so none is left at its default |
| `MeshGeneration.SlotInjective` | Assets/Code/ChunkGenerator.cs:206-230 | no two quad corners write the same slot |
| `MeshGeneration.QuadSlots` | Assets/Code/ChunkGenerator.cs:211-227 | quad `(x, y)` writes slots `b`, `b+1`, `b+vertexSize` and `b+vertexSize+1`, and the next quad of the row starts two slots on |
| `MeshGeneration.CornerVertexAt` | Assets/Code/ChunkGenerator.cs:206-230 | the slot of each quad corner holds that corner's grid point `(x, z)`, with Y equal to the height map there times 100 |
| `MeshGeneration.QuadTrianglesAt` | Assets/Code/ChunkGenerator.cs:176-192 | the table has `size * size * 6` entries. Quad `(qx, qy)`, numbered row-major, owns entries `6 * quad` to `6 * quad + 5` |
| `MeshGeneration.QuadTriangleCorners` | Assets/Code/ChunkGenerator.cs:180-189 | each quad's two triangles are its corners (0,0),(1,1),(1,0) and (0,0),(0,1),(1,1), in the slots where `Generate` stores those corners: they cover the quad and share its diagonal |
| `MeshGeneration.TriangleIndicesInRange` | Assets/Code/ChunkGenerator.cs:162-192 | every triangle index is a valid index into the vertex array |
| `MeshGeneration.UvAtGridPoint` | Assets/Code/ChunkGenerator.cs:171-173 | the UV table has one entry per vertex slot, and slot `y * vertexSize + x` holds `(x / size, y / size)` |
| `MeshGeneration.CornerUv` | Assets/Code/ChunkGenerator.cs:171-173 | a quad corner's UV follows its slot, not its grid position, so the UVs run over `[0, 2)` across a chunk |
| `MeshGeneration.FillUv` | Assets/Code/ChunkGenerator.cs:171-173 | the UV loop leaves the array equal to the UV table |
| `MeshGeneration.FillTriangles` | Assets/Code/ChunkGenerator.cs:176-192 | the triangle loop, with its running quad number, leaves the array equal to the triangle table |
| `MeshGeneration.MeshGenerator.constructor` | Assets/Code/ChunkGenerator.cs:156-193 | `vertexSize = 2 * size` and `vertexCount = size * size * 4`. The cached UV and triangle arrays are fresh and hold the two tables |
| `MeshGeneration.MeshGenerator.Generate` | Assets/Code/ChunkGenerator.cs:196-230 | the vertex array is fresh and equal to the vertex table. The UV and triangle arrays are the cached ones, shared by every mesh |
| `TextureGeneration.TextureGenerator.constructor` | Assets/Code/ChunkGenerator.cs:255-260 | the generator keeps the chunk size |
| `TextureGeneration.TextureGenerator.Generate` | Assets/Code/ChunkGenerator.cs:263-269 | `size * size` pixels, every one `Lerp(black, white, 0.5)`, i.e. opaque mid-grey, whatever the height map |
| `ChunkGeneration.ChunkGenerator.constructor` | Assets/Code/ChunkGenerator.cs:21-30 | both queues start empty. The mesh and texture generators share the chunk size, and the mesh tables are built |
| `ChunkGeneration.ChunkGenerator.GenerateChunk` | Assets/Code/ChunkGenerator.cs:39-53 | a new live chunk at `(offset.x * size, 0, -offset.y * size)`, with no mesh or texture yet |
| `ChunkGeneration.ChunkGenerator.GenerateChunkData` | Assets/Code/ChunkGenerator.cs:66-76 | the worker samples the height map at the chunk's offset. It appends exactly one mesh callback (the vertex table of that map, with the shared UV and triangle tables) and one mid-grey texture callback for the chunk, each at the end of its queue |
| `ChunkGeneration.ChunkGenerator.OnMeshDataRecieved` | Assets/Code/ChunkGenerator.cs:78-91 | a chunk whose game object is gone is left untouched. Otherwise its mesh becomes the given arrays, and its texture and liveness stay as they were |
| `ChunkGeneration.ChunkGenerator.OnTextureDataRecieved` | Assets/Code/ChunkGenerator.cs:93-104 | a chunk whose game object is gone is left untouched. Otherwise it gets a `size` by `size` texture of the given pixels, and its mesh stays as it was |
| `ChunkGeneration.ChunkGenerator.ProcessQueues` | Assets/Code/ChunkGenerator.cs:57-64 | both queues end empty. Every addressed chunk ends with the results of its callbacks applied in queue order, mesh queue first, and liveness is unchanged |
| `ChunkGeneration.LastMeshWins` | Assets/Code/ChunkGenerator.cs:59-60 | after the mesh queue drains, a live chunk holds the mesh of the last callback addressed to it |
| `ChunkGeneration.LastTextureWins` | Assets/Code/ChunkGenerator.cs:62-63 | after the texture queue drains, a live chunk holds the texture of the last callback addressed to it |
| `ChunkGeneration.MeshUntouched` | Assets/Code/ChunkGenerator.cs:80-81 | a destroyed chunk, or one no callback addresses, keeps its mesh through the drain |
| `ChunkGeneration.TextureUntouched` | Assets/Code/ChunkGenerator.cs:95-96 | a destroyed chunk, or one no callback addresses, keeps its texture through the drain |
| `ChunkGeneration.SeamAlongX` | Assets/Code/ChunkGenerator.cs:43 | the last vertex column of a chunk and the first column of its neighbour one offset step along X land on the same world points, heights included |
| `ChunkGeneration.SeamAlongZ` | Assets/Code/ChunkGenerator.cs:43 | the first vertex row of a chunk and the last row of its neighbour one offset step along Y (one chunk towards -Z) land on the same world points, heights included |
| `Jobs.JobSystem.constructor` | Assets/Code/JobSystem.cs:42 | the job list starts empty and no callback has fired |
| `Jobs.JobSystem.DoThreaded` | Assets/Code/JobSystem.cs:56-66 | the new job is appended at the end of the list as running, and no callback fires |
| `Jobs.JobSystem.Complete` | Assets/Code/JobSystem.cs:36-39 | a running job's thread ends with the work's result stored in that job, and nothing else changes |
| `Jobs.JobSystem.Update` | Assets/Code/JobSystem.cs:46-54 | afterwards only the running jobs remain, in their original order. Each finished job's callback fired once with its result, in back-to-front order |
| `Jobs.Unfinished` | Assets/Code/JobSystem.cs:48-53 | the survivors of an update are running jobs taken from the list, and there are no more of them than jobs |
| `Jobs.BackwardIsReversed` | Assets/Code/JobSystem.cs:48 | the backward walk fires the finished callbacks in exactly the reverse of list order, so the most recently added job fires first |
| `Jobs.EachJobOnce` | Assets/Code/JobSystem.cs:48-53 | a job is kept exactly when it is still running. The calls number exactly the finished jobs, so the survivors and the calls together account for the whole list: every job is either kept or fired, never both and never neither (for callbacks that return) |
| `Jobs.FinishedJobFires` | Assets/Code/JobSystem.cs:49-51 | every finished job's callback is among those fired, with that job's result |
| `Jobs.UnfinishedAppend` | Assets/Code/JobSystem.cs:52 | removal keeps the survivors' relative order, on any split of the list |
| `Jobs.NothingFinished` | Assets/Code/JobSystem.cs:48-53 | with no finished job the list is kept whole and nothing fires |
| `World.TestGenerate` | Assets/Code/WorldGenerator.cs:24-30 | chunks are requested exactly at the integer points strictly inside the disc of `radius`. The order is row by row (Z ascending, then X ascending), with no point twice. The rim point `(radius, 0)` is not requested, and a radius of 0 or less requests nothing |

## Left out

- Unity plumbing is not modelled. This covers creating the game object, its parent transform, the mesh filter and renderer, `Texture2D` upload and filter mode, `RecalculateNormals`, and the job-system singleton. A chunk is modelled by its position, whether its game object exists, and the mesh and texture it holds.
- Threads, locks and `Join` are not modelled. `GenerateChunkData` is the body a worker runs, called whenever the environment schedules it; the noise, mesh and texture steps run in sequence. Job threads finishing is the environment step `Jobs.JobSystem.Complete`. A game object being destroyed is `ChunkGeneration.Chunk.Destroy`.
- Floats are modelled as `real`: rounding, infinities and NaN are not captured.
- `Mathf.PerlinNoise` and the internal sample sequence of `System.Random` are parameters, not definitions. `SystemRandom.Scale` models only the branch of `Next` whose range fits in an `int`, which is the only branch used here.
- `Noise.Generate`: requires `scale != 0 || octaves == 0`. With no octaves nothing is divided, and every cell is 0 whatever the scale; the model covers that case. With a zero scale and at least one octave, the source divides by zero and the sample coordinates become infinite or NaN. What `Mathf.PerlinNoise` returns for those is outside the model. The resolution and the octave count are naturals. A negative octave count and a resolution of -2 or less make the source's array allocations throw. A resolution of -1 becomes 0 after the `+ 1`, and the source then returns an empty 0 by 0 map: the `nat` type leaves that case out of the model.
- `ChunkGeneration.ChunkGenerator.GenerateChunkData`: requires `parameters.scale != 0 || parameters.octaves == 0`, the condition under which `Noise.Generate` is modelled. The constructor accepts any parameters, as the source does.
- The chunk size is taken as the noise resolution. The constructor reads a `size` member that `Noise.Parameters` does not declare. `WorldGenerator.Start` calls a two-argument constructor that does not exist, and passes the whole parameter array.
- `World.TestGenerate`: integers are unbounded, so the source's 32-bit wrap-around is not captured. From radius 32768, `xCircle * xCircle + zCircle * zCircle` wraps at the corners of the square, and points outside the disc are requested. From radius 46341, `radius * radius` wraps too. At `int.MaxValue`, `xCircle++` and `zCircle++` wrap and the source's loops never end.
- `MeshGeneration.MeshGenerator.constructor`: integers are unbounded, so the 32-bit overflow of `inSize * inSize * 6` (from size 18919) and of `inSize * inSize * 4` (from size 23171) is not captured; no chunk comes near that size.
- `ChunkGeneration.ChunkGenerator.GenerateChunkData`: the queued callbacks carry the mesh and texture arrays as sequences taken at enqueue time. In the source they carry references to the same arrays, which nothing writes after that point.
- `TextureGeneration.TextureGenerator.Generate`: `Color.Lerp(black, white, 0.5)` is evaluated once, not once per pixel. The value is the same for every pixel. The model's `Generate` returns the pixels, and `GenerateChunkData` does the enqueue that ends the source's `Generate`.
- `MeshGeneration.MeshGenerator.Generate`: the model's `Generate` returns the vertex table. The enqueue of the mesh callback that ends the source's `Generate` (Assets/Code/ChunkGenerator.cs:233-237) is done by `GenerateChunkData`, as is the texture enqueue (Assets/Code/ChunkGenerator.cs:271-275).
- `Jobs.JobSystem.Update`: callbacks are assumed to return. In the source a callback that throws escapes `Update` before `RemoveAt`: its job stays in the list, the jobs below it are not visited that frame, and the same callback fires again on the next frame. "Kept or fired, never both" (`Jobs.EachJobOnce`) holds only for callbacks that return.
- `Jobs.JobSystem.Complete`: the work is a total function that always yields a result. A work that throws ends its thread (Assets/Code/JobSystem.cs:38) before `result` is assigned, so `Update` then sees a thread that is no longer alive and fires the callback with a null result; that path is not modelled.
- Some loop bodies and inner loops are separate methods, each stated for one pass. They belong to the source methods listed above: `Noise.AddOctave`, `Noise.FillNoiseRow`, `MeshGeneration.WriteQuadTriangles`, `MeshGeneration.FillQuadRow`, `MeshGeneration.FillVertexRows`, `MeshGeneration.WriteQuadVertices`, `TextureGeneration.FillRow`, `ChunkGeneration.ChunkGenerator.DrainMeshQueue`, `ChunkGeneration.ChunkGenerator.DrainTextureQueue`, `Jobs.JobSystem.Visit` and `World.SweepRow`.
- `ChunkGenerator.Update` only calls `ProcessQueues` and has no row of its own. `NoiseGenerator` only forwards to `Noise.Generate` and is folded into `GenerateChunkData`.
- Job callbacks and results are opaque values: firing a callback is recorded in the `invoked` log, and the callback's own effects are not modelled.
- Assets/Code/Terrain Gen/ChunkGenerator.cs, Assets/Code/TerrainGen/ChunkObjectGenerator.cs, Assets/Code/AtlasManager.cs and Assets/Test.cs are not part of this model.
