# Terrain chunk streaming of anim.js, in Dafny

`anim.js` flies a camera over an endless terrain. The terrain is cut into
square chunks of 200 world units. The module-level `Map` named `chunks` holds
the chunks that are resident, keyed by the string `"cx,cz"`. Each frame,
`updateTerrain` does three things:

1. It finds the chunk under the camera by floor division.
2. It loads every missing chunk of the 5×5 square around that chunk, with
   fade 0.
3. It scans all resident entries. It decodes each key back to two integers,
   deletes every entry farther than 3 (Chebyshev distance) and raises the
   fade of every other entry by 0.02, capped at 1.

This project models that state machine and proves what it guarantees.

- `chunk_key.dfy` (module `ChunkKey`) models the key template `${cx},${cz}`
  and the parse `key.split(",").map(Number)` on strings, and proves them
  inverse for every pair of integers, negatives included. It also defines
  `Encoded`, which re-keys a coordinate-keyed map by key strings, and proves
  that the re-keying loses nothing.
- `chunk_grid.dfy` (module `ChunkGrid`) models the chunk size, the floor
  division, the Chebyshev distance and the square neighbourhoods (25 chunks
  for radius 2, 49 for radius 3).
- `fade.dfy` (module `Fade`) models the fade-in ramp
  `Math.min(fadeState + 0.02, 1)`.
- `terrain_streaming.dfy` (module `TerrainStreaming`) models the streaming
  state and the tick:
  - `Load`, `EvictFade` and `Tick` are functions on a `Store` value (the map,
    the groups in the scene, and a generation counter). The tick's
    properties are proved about them as lemmas.
  - The class `TerrainStreamer` holds the same state as mutable fields. Its
    methods run the source's nested `for` loops and its `for..of` loop, and
    each method is proved to compute exactly the matching function.

The map in the model is keyed by the coordinate `(cx, cz)` itself, not by the
string. `ChunkKey` proves that this is the same map:
- `KeyRoundTrip` and `KeyOfInjective` show that the codec is a bijection
  between coordinates and the keys in use.
- `EncodedAt`, `EncodedKey` and `EncodedCard` show that the source's
  string-keyed map is `Encoded` of the model's map. Every key decodes to the
  coordinate whose entry it holds.
- `TickKeys` restates the tick's guarantees on that string-keyed map.

## Model

| member | source | states |
|---|---|---|
| ChunkKey.NatToDecimal | anim.js:243 | printing a non-negative integer gives a non-empty string of digits, with no leading zero except for 0 itself |
| ChunkKey.IntToDecimal | anim.js:243 | printing an integer gives a non-empty, comma-free string that starts with '-' exactly when the integer is negative |
| ChunkKey.ToNumber | anim.js:256 | `Number` on a key field: the empty string is 0, an optional sign followed by decimal digits is that integer, anything else is NaN (None); NumberOfDecimal proves that it inverts IntToDecimal |
| ChunkKey.DecimalRoundTrip | anim.js:243-256 | reading back the digits printed for n gives n |
| ChunkKey.NumberOfDecimal | anim.js:243-256 | `Number` of a printed integer gives that integer back, negatives included |
| ChunkKey.Split | anim.js:256 | `split(",")` gives at least one field, and no field holds a comma |
| ChunkKey.SplitJoin | anim.js:256 | splitting undoes joining comma-free fields with "," |
| ChunkKey.JoinSplit | anim.js:256 | joining the fields with "," gives back the split string |
| ChunkKey.KeyOf | anim.js:243 | the key template `${cx},${cz}`; KeyRoundTrip and KeyOfInjective state its properties |
| ChunkKey.ParseKey | anim.js:256 | `key.split(",").map(Number)` with the first two numbers taken, NaN when either is NaN or missing; KeyRoundTrip proves that it inverts KeyOf |
| ChunkKey.KeyRoundTrip | anim.js:243-256 | parsing the key `${cx},${cz}` yields `(cx, cz)` for all integers, negatives included |
| ChunkKey.KeyOfInjective | anim.js:243 | two coordinates have equal keys if and only if they are equal |
| ChunkKey.KeysOfCard | anim.js:243 | a set of coordinates has exactly as many keys as elements |
| ChunkKey.EncodedAt | anim.js:243-250 | in the string-keyed map, the key of coordinate c holds the entry of c |
| ChunkKey.EncodedKey | anim.js:255-256 | every key of the string-keyed map decodes to a coordinate of the model's map whose entry it holds |
| ChunkKey.EncodedCard | anim.js:4 | the string-keyed map has as many entries as the coordinate-keyed map |
| ChunkGrid.ChunkOf | anim.js:238-239 | the current chunk c of position p satisfies `c*200 <= p < (c+1)*200` |
| ChunkGrid.ChunkOfUnique | anim.js:238-239 | only one chunk satisfies those bounds, so the current chunk is exactly the floor of p/200 |
| ChunkGrid.Chebyshev | anim.js:257-260 | `Math.max(Math.abs(dx), Math.abs(dz))`; ChunkGrid.Square states which chunks lie within distance r |
| ChunkGrid.Square | anim.js:241-242 | a chunk is in the square of radius r if and only if its Chebyshev distance is at most r |
| ChunkGrid.SquareCard | anim.js:241-262 | the square of radius r holds (2r+1)² chunks: 25 for the load radius, 49 for the unload radius |
| Fade.NextFade | anim.js:266 | a raised fade is at most 1, not below a start in [0, 1], above 0 from any start at or above 0, and stays 1 at 1 |
| Fade.FadeFromZero | anim.js:250-266 | from fade 0, n raises give n·0.02 for n < 50 and 1 from then on |
| Fade.FadeMonotone | anim.js:266 | from a start in [0, 1], repeated raises stay in [0, 1] and never decrease |
| Fade.FadeStaysOne | anim.js:266 | once the fade is 1 it stays 1 |
| TerrainStreaming.LoadAt | anim.js:243-251 | one iteration of the load loops; LoadAtSpec and LoadAtInv state its properties |
| TerrainStreaming.Load | anim.js:241-253 | the whole load pass; LoadSpec states its properties |
| TerrainStreaming.LoadAtSpec | anim.js:243-251 | one loop iteration keeps every entry and makes (cx, cz) present; if it adds anything, it adds only (cx, cz), with a new group and fade 0 |
| TerrainStreaming.LoadAtInv | anim.js:243-251 | one loop iteration keeps each entry under its own coordinate, fades in [0, 1], and the scene equal to the resident groups |
| TerrainStreaming.LoadColumnSpec | anim.js:242-252 | the inner loop keeps every entry and adds only new chunks within radius 2, with fade 0 |
| TerrainStreaming.LoadColumnCovers | anim.js:242-252 | after the inner loop for offset x, the visited chunks of column cur.x + x are present |
| TerrainStreaming.LoadColumnsSpec | anim.js:241-253 | the outer loop keeps every entry and adds only new chunks within radius 2, with fade 0 |
| TerrainStreaming.LoadColumnsCovers | anim.js:241-253 | after the outer loop has visited x up to j-3, every chunk of the 5×5 square in those columns is present |
| TerrainStreaming.LoadSpec | anim.js:241-253 | after the load pass all 25 chunks within radius 2 are present; existing entries are unchanged (never regenerated, fade not reset); every added entry was absent before, lies within radius 2 and has fade 0 and a group generated in this pass; the invariant is kept |
| TerrainStreaming.OutOfRange | anim.js:256-262 | `distance > 3` for the decoded coordinate; TickEntries proves that it is exactly the deletion condition |
| TerrainStreaming.Faded | anim.js:266 | a kept entry with its fade raised by NextFade and its group unchanged; Fade.NextFade states the bounds |
| TerrainStreaming.EvictFade | anim.js:255-269 | the whole evict/fade pass; EvictFadeBounded and EvictFadeInv state its properties |
| TerrainStreaming.EvictFadeStep | anim.js:255-268 | visiting one more entry deletes it and removes its group from the scene when it is farther than 3, and otherwise raises its fade |
| TerrainStreaming.EvictFadeInv | anim.js:255-269 | the evict/fade pass keeps the invariant; the scene loses exactly the groups of the deleted entries |
| TerrainStreaming.EvictFadeBounded | anim.js:255-265 | after the evict/fade pass every entry is within distance 3, so at most 49 remain |
| TerrainStreaming.Tick | anim.js:237-270 | one `updateTerrain` call at a given current chunk, the load pass followed by the evict/fade pass; TickSpec and TickEntries state its properties |
| TerrainStreaming.TickSpec | anim.js:237-270 | after a tick the invariant holds, all 25 chunks within radius 2 are present (none loaded in the tick is evicted in it), every entry is within distance 3, and at most 49 remain |
| TerrainStreaming.TickEntries | anim.js:241-266 | in a tick an old entry is deleted if and only if it is farther than 3; a kept old entry keeps its group and has its fade raised once; a new entry lies within radius 2, has a newly generated group, and ends the tick with fade 0.02 |
| TerrainStreaming.TickFromEmpty | anim.js:237-269 | from an empty map, one tick leaves exactly the 25 chunks of the square of radius 2, each with fade 0.02 |
| TerrainStreaming.TickKeys | anim.js:243-262 | on the string-keyed map after a tick, every key decodes to a chunk within distance 3, the keys of the 25 nearest chunks are present, and at most 49 keys remain |
| TerrainStreaming.ResidentThroughRun | anim.js:255-266 | a chunk that stays within distance 3 through a run of ticks stays resident with the same group, and its fade is the start fade raised once per tick |
| TerrainStreaming.TwoTicks | anim.js:237-270 | from the empty map, after a tick at chunk a, a second tick at chunk b farther than 3 away evicts every chunk of the first square that is farther than 3 from b, and gives b fade 0.02 |
| TerrainStreaming.TerrainStreamer.constructor | anim.js:4 | the streamer starts with an empty map and an empty scene |
| TerrainStreaming.TerrainStreamer.GenerateTerrainChunk | anim.js:125-221 | each call returns the group for chunk (cx, cz) tagged with the next serial and advances the counter, so under the invariant it differs from every resident group |
| TerrainStreaming.TerrainStreamer.LoadChunk | anim.js:243-251 | the body of the load loops changes the state exactly as LoadAt does |
| TerrainStreaming.TerrainStreamer.LoadColumnPass | anim.js:242-252 | the inner `for` over z changes the state exactly as LoadColumn does |
| TerrainStreaming.TerrainStreamer.LoadPass | anim.js:241-253 | the nested `for` loops change the state exactly as Load does |
| TerrainStreaming.TerrainStreamer.EvictOrFade | anim.js:256-268 | the body of the scan deletes the entry and removes its group from the scene when it is farther than 3, and otherwise raises its fade |
| TerrainStreaming.TerrainStreamer.EvictFadePass | anim.js:255-269 | the `for..of` over the entries changes the state exactly as EvictFade does |
| TerrainStreaming.TerrainStreamer.UpdateTerrain | anim.js:237-270 | `updateTerrain` keeps the invariant, performs Tick at the floor chunk of the camera position, leaves all 25 nearest chunks present and every chunk within distance 3, and leaves at most 49 entries |
| TerrainStreaming.FirstFrame | anim.js:52-56 | a new streamer ticked once with the camera anywhere in chunk (0, 0), which includes the flight's first frame, holds exactly the 25 chunks around (0, 0), each with fade 0.02 |

## Left out

- Rendering is left out: the scene's lights, stars, camera, resize listener and the animation loop (anim.js:22-116, anim.js:288-303). `scene.add` and `scene.remove` are modelled only as a set of group handles.
- The noise terrain, tree placement and `Math.random` jitter inside `generateTerrainChunk` (anim.js:118-235) are left out. The generator is an opaque call that returns a new handle `Chunk(cx, cz, serial)`.
- The opacity write `material.opacity = fadeState` (anim.js:267) is left out; it only mirrors the fade into three.js.
- `updateFlight` (anim.js:272-286) is left out. The camera position is an input of `UpdateTerrain`.
- `fadeState` is an exact real: the IEEE rounding of repeated `+ 0.02` is not modelled.
- ChunkKey.ToNumber: models `Number` only on the empty string, an optional sign followed by decimal digits, and other strings (NaN). The keys the source builds never contain other forms.
- ChunkKey.IntToDecimal: coordinates are exact integers; JS Number arithmetic and printing agree with them only for |n| ≤ 2^53, and use exponent notation from 1e21 on.
- TerrainStreaming.OutOfRange: decides on the coordinate directly. In the source a key that failed to parse would give a NaN distance and be kept. Every key the source stores parses back to its coordinate (ChunkKey.EncodedKey), so that branch is unreachable.
- The order of `Map` iteration is not modelled. The evict/fade pass is specified by the set of entries it has visited. The result does not depend on the order, because each entry's fate depends only on itself.
- TerrainStreaming.FirstFrame: runs only one tick on the class. TerrainStreaming.TwoTicks states a move from chunk a to any chunk b more than 3 away, such as (0, 0) → (5, 0), on the Tick function only. The flight itself never makes this move: each `updateFlight` step (anim.js:272-286) moves the camera by 0.5 in z and at most 0.2 in x.
