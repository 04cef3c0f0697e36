/** The chunk-streaming state machine of anim.js: the module-level `chunks`
    map (anim.js:4) and the per-frame tick `updateTerrain` (anim.js:237-270).

    The source keys `chunks` by the string `${cx},${cz}` and decodes a key
    back with `split(",").map(Number)`. ChunkKey proves that this codec is a
    bijection between coordinates and the keys in use (KeyRoundTrip,
    KeyOfInjective, EncodedAt, EncodedKey, EncodedCard), so the map here is
    keyed by the coordinate itself and the source's map is its Encoded form.

    The tick is specified by functions on a `Store` value (Load, EvictFade,
    Tick) whose properties are proved as lemmas; the class TerrainStreamer
    holds the mutable state and its methods are proved to compute exactly
    those functions, loop by loop. */
module TerrainStreaming {
  import opened ChunkKey
  import opened ChunkGrid
  import opened Fade

  /** Handle of the THREE.Group that `generateTerrainChunk(cx, cz)` built
      (anim.js:125-221). The generator itself is opaque; `serial` tells one
      call's group from another's, as object identity does in the source. */
  datatype Chunk = Chunk(cx: int, cz: int, serial: nat)

  /** The `{ chunk, fadeState }` record stored under a key (anim.js:250). */
  datatype ChunkEntry = ChunkEntry(chunk: Chunk, fadeState: real)

  /** Everything one tick reads and writes: the `chunks` map, the chunk groups
      added to the scene, and how many groups have been generated so far. */
  datatype Store = Store(chunks: map<Coord, ChunkEntry>, scene: set<Chunk>, generated: nat)

  function CoordOf(c: Chunk): Coord { (c.cx, c.cz) }

  /** The groups of the resident chunks. */
  function SceneOf(chunks: map<Coord, ChunkEntry>): set<Chunk>
  {
    set c | c in chunks :: chunks[c].chunk
  }

  /** What every tick preserves: each entry sits under its own chunk's
      coordinate, each fade lies in [0, 1], each group was generated before,
      and the scene holds exactly the groups of the resident chunks. */
  ghost predicate Inv(s: Store)
  {
    && (forall c | c in s.chunks :: CoordOf(s.chunks[c].chunk) == c)
    && (forall c | c in s.chunks :: 0.0 <= s.chunks[c].fadeState <= 1.0)
    && (forall c | c in s.chunks :: s.chunks[c].chunk.serial < s.generated)
    && s.scene == SceneOf(s.chunks)
  }

  // ---------------------------------------------------------------------
  // Load pass (anim.js:241-253)

  /** One iteration of the load loops for chunk (cx, cz) (anim.js:243-251):
      a missing key gets a newly generated group, added to the scene, with
      fadeState 0; a present key is left alone. */
  function LoadAt(s: Store, cx: int, cz: int): Store
  {
    if (cx, cz) in s.chunks then s
    else
      var chunk := Chunk(cx, cz, s.generated);
      Store(s.chunks[(cx, cz) := ChunkEntry(chunk, 0.0)], s.scene + {chunk}, s.generated + 1)
  }

  /** The state after the first m iterations of the inner loop for offset
      x = dx: it has visited z = -2 .. m - 3. */
  function LoadColumn(s: Store, cur: Coord, dx: int, m: nat): Store
    requires m <= 5
  {
    if m == 0 then s
    else LoadAt(LoadColumn(s, cur, dx, m - 1), cur.0 + dx, cur.1 + m - 3)
  }

  /** The state after the first j iterations of the outer loop: it has
      visited x = -2 .. j - 3, each with all of z = -2 .. 2. */
  function LoadColumns(s: Store, cur: Coord, j: nat): Store
    requires j <= 5
  {
    if j == 0 then s
    else LoadColumn(LoadColumns(s, cur, j - 1), cur, j - 3, 5)
  }

  /** The whole load pass around current chunk cur. */
  function Load(s: Store, cur: Coord): Store
  {
    LoadColumns(s, cur, 5)
  }

  /** An entry that the load pass from s to r added under coordinate c:
      fade 0, a group generated during the pass for chunk c, within the load
      radius of cur. */
  ghost predicate NewlyLoaded(s: Store, r: Store, cur: Coord, c: Coord)
    requires c in r.chunks
  {
    var e := r.chunks[c];
    && e.fadeState == 0.0
    && CoordOf(e.chunk) == c
    && Chebyshev(c, cur) <= LoadRadius
    && s.generated <= e.chunk.serial < r.generated
  }

  /** The entries of s are kept unchanged in r, and r has generated no fewer groups. */
  ghost predicate Extends(s: Store, r: Store)
  {
    && s.generated <= r.generated
    && (forall c | c in s.chunks :: c in r.chunks && r.chunks[c] == s.chunks[c])
  }

  /** Every entry of r that s lacks was loaded on the way from s to r. */
  ghost predicate OnlyLoads(s: Store, r: Store, cur: Coord)
  {
    forall c | c in r.chunks && c !in s.chunks :: NewlyLoaded(s, r, cur, c)
  }

  /** One load iteration keeps every entry, makes (cx, cz) present, and adds
      nothing but (cx, cz), with fade 0 and a new group. */
  lemma LoadAtSpec(s: Store, cx: int, cz: int)
    ensures var r := LoadAt(s, cx, cz);
      && Extends(s, r)
      && (cx, cz) in r.chunks
      && (forall c | c in r.chunks && c !in s.chunks ::
            c == (cx, cz) && r.chunks[c] == ChunkEntry(Chunk(cx, cz, s.generated), 0.0)
            && r.generated == s.generated + 1)
  {
  }

  lemma LoadAtInv(s: Store, cx: int, cz: int)
    requires Inv(s)
    ensures Inv(LoadAt(s, cx, cz))
  {
    if (cx, cz) !in s.chunks {
      var r := LoadAt(s, cx, cz);
      var chunk := Chunk(cx, cz, s.generated);
      forall h | h in SceneOf(r.chunks)
        ensures h in SceneOf(s.chunks) + {chunk}
      {
        var c :| c in r.chunks && r.chunks[c].chunk == h;
        if c != (cx, cz) {
          assert c in s.chunks;
        }
      }
      forall h | h in SceneOf(s.chunks) + {chunk}
        ensures h in SceneOf(r.chunks)
      {
        if h != chunk {
          var c :| c in s.chunks && s.chunks[c].chunk == h;
          assert c in r.chunks && r.chunks[c].chunk == h;
        } else {
          assert r.chunks[(cx, cz)].chunk == h;
        }
      }
    }
  }

  /** Loading (cx, cz) after the loads from s to prev adds only a chunk near cur. */
  lemma LoadAtAdds(s: Store, prev: Store, cur: Coord, cx: int, cz: int)
    requires Chebyshev((cx, cz), cur) <= LoadRadius
    requires Extends(s, prev) && OnlyLoads(s, prev, cur)
    ensures Extends(s, LoadAt(prev, cx, cz)) && OnlyLoads(s, LoadAt(prev, cx, cz), cur)
  {
    var r := LoadAt(prev, cx, cz);
    LoadAtSpec(prev, cx, cz);
    forall c | c in r.chunks && c !in s.chunks
      ensures NewlyLoaded(s, r, cur, c)
    {
      if c in prev.chunks {
        assert NewlyLoaded(s, prev, cur, c);
      }
    }
  }

  /** The first m iterations of the inner loop for offset dx keep every
      entry and only load chunks near cur. */
  lemma {:induction false} LoadColumnSpec(s: Store, cur: Coord, dx: int, m: nat)
    requires -2 <= dx <= 2 && m <= 5
    ensures Extends(s, LoadColumn(s, cur, dx, m)) && OnlyLoads(s, LoadColumn(s, cur, dx, m), cur)
  {
    if m > 0 {
      LoadColumnSpec(s, cur, dx, m - 1);
      LoadAtAdds(s, LoadColumn(s, cur, dx, m - 1), cur, cur.0 + dx, cur.1 + m - 3);
    }
  }

  /** The first m iterations of the inner loop for offset dx make chunks
      (cur.0 + dx, cur.1 - 2 .. cur.1 + m - 3) present. */
  lemma {:induction false} LoadColumnCovers(s: Store, cur: Coord, dx: int, m: nat)
    requires m <= 5
    ensures forall p: Coord | p.0 == cur.0 + dx && cur.1 - 2 <= p.1 <= cur.1 + m - 3 ::
      p in LoadColumn(s, cur, dx, m).chunks
  {
    if m > 0 {
      LoadColumnCovers(s, cur, dx, m - 1);
      LoadAtSpec(LoadColumn(s, cur, dx, m - 1), cur.0 + dx, cur.1 + m - 3);
    }
  }

  lemma {:induction false} LoadColumnInv(s: Store, cur: Coord, dx: int, m: nat)
    requires m <= 5 && Inv(s)
    ensures Inv(LoadColumn(s, cur, dx, m))
  {
    if m > 0 {
      LoadColumnInv(s, cur, dx, m - 1);
      LoadAtInv(LoadColumn(s, cur, dx, m - 1), cur.0 + dx, cur.1 + m - 3);
    }
  }

  lemma ExtendsTransitive(s: Store, t: Store, r: Store, cur: Coord)
    requires Extends(s, t) && Extends(t, r)
    requires OnlyLoads(s, t, cur) && OnlyLoads(t, r, cur)
    ensures Extends(s, r) && OnlyLoads(s, r, cur)
  {
    forall c | c in r.chunks && c !in s.chunks
      ensures NewlyLoaded(s, r, cur, c)
    {
      if c in t.chunks {
        assert NewlyLoaded(s, t, cur, c);
      } else {
        assert NewlyLoaded(t, r, cur, c);
      }
    }
  }

  /** The first j iterations of the outer loop keep every entry and only
      load chunks near cur. */
  lemma {:induction false} LoadColumnsSpec(s: Store, cur: Coord, j: nat)
    requires j <= 5
    ensures Extends(s, LoadColumns(s, cur, j)) && OnlyLoads(s, LoadColumns(s, cur, j), cur)
  {
    if j > 0 {
      LoadColumnsSpec(s, cur, j - 1);
      var prev := LoadColumns(s, cur, j - 1);
      LoadColumnSpec(prev, cur, j - 3, 5);
      ExtendsTransitive(s, prev, LoadColumns(s, cur, j), cur);
    }
  }

  /** The first j iterations of the outer loop make every chunk of the load
      square with x <= cur.0 + j - 3 present. */
  lemma {:induction false} LoadColumnsCovers(s: Store, cur: Coord, j: nat)
    requires j <= 5
    ensures forall p | p in Square(cur, LoadRadius) && p.0 <= cur.0 + j - 3 :: p in LoadColumns(s, cur, j).chunks
  {
    if j > 0 {
      LoadColumnsCovers(s, cur, j - 1);
      var prev := LoadColumns(s, cur, j - 1);
      var r := LoadColumns(s, cur, j);
      LoadColumnSpec(prev, cur, j - 3, 5);
      LoadColumnCovers(prev, cur, j - 3, 5);
      forall p | p in Square(cur, LoadRadius) && p.0 <= cur.0 + j - 3
        ensures p in r.chunks
      {
        if p.0 < cur.0 + j - 3 {
          assert p in prev.chunks;
        }
      }
    }
  }

  lemma {:induction false} LoadColumnsInv(s: Store, cur: Coord, j: nat)
    requires j <= 5 && Inv(s)
    ensures Inv(LoadColumns(s, cur, j))
  {
    if j > 0 {
      LoadColumnsInv(s, cur, j - 1);
      LoadColumnInv(LoadColumns(s, cur, j - 1), cur, j - 3, 5);
    }
  }

  /** After the load pass all 25 chunks within the load radius are present;
      the pass only adds keys that were absent, each with fadeState 0, and
      never regenerates or resets an entry that was there. */
  lemma LoadSpec(s: Store, cur: Coord)
    ensures var r := Load(s, cur);
      && s.generated <= r.generated
      && (forall c | c in s.chunks :: c in r.chunks && r.chunks[c] == s.chunks[c])
      && (forall p | p in Square(cur, LoadRadius) :: p in r.chunks)
      && (forall c | c in r.chunks && c !in s.chunks :: NewlyLoaded(s, r, cur, c))
      && (Inv(s) ==> Inv(r))
  {
    LoadColumnsSpec(s, cur, 5);
    LoadColumnsCovers(s, cur, 5);
    if Inv(s) {
      LoadColumnsInv(s, cur, 5);
    }
  }

  // ---------------------------------------------------------------------
  // Evict/fade pass (anim.js:255-269)

  /** `distance > 3` for the coordinate a key decodes to (anim.js:256-262). */
  predicate OutOfRange(c: Coord, cur: Coord)
  {
    Chebyshev(c, cur) > UnloadRadius
  }

  /** The kept entry with its fade raised (anim.js:266). */
  function Faded(e: ChunkEntry): ChunkEntry
  {
    ChunkEntry(e.chunk, NextFade(e.fadeState))
  }

  /** The groups of the entries of s that the loop, having visited done, has evicted. */
  function EvictedOn(s: Store, cur: Coord, done: set<Coord>): set<Chunk>
  {
    set c | c in s.chunks && c in done && OutOfRange(c, cur) :: s.chunks[c].chunk
  }

  /** The state after the evict/fade loop has visited the keys in done:
      visited far keys are deleted and their groups removed from the scene,
      visited near keys are faded, unvisited keys are as they were. */
  function EvictFadeOn(s: Store, cur: Coord, done: set<Coord>): Store
  {
    Store(
      map c | c in s.chunks && !(c in done && OutOfRange(c, cur)) ::
        if c in done then Faded(s.chunks[c]) else s.chunks[c],
      s.scene - EvictedOn(s, cur, done),
      s.generated)
  }

  /** The whole evict/fade pass: every resident key visited once. */
  function EvictFade(s: Store, cur: Coord): Store
  {
    EvictFadeOn(s, cur, s.chunks.Keys)
  }

  /** Visiting one more key c: if it is out of range its entry is deleted
      and its group leaves the scene, otherwise its entry is faded; before
      the visit the entry is still the one the pass started from. */
  lemma EvictFadeStep(s: Store, cur: Coord, done: set<Coord>, c: Coord)
    requires c in s.chunks && c !in done
    ensures var prev := EvictFadeOn(s, cur, done);
      && c in prev.chunks && prev.chunks[c] == s.chunks[c]
      && EvictFadeOn(s, cur, done + {c}) ==
        if OutOfRange(c, cur) then Store(prev.chunks - {c}, prev.scene - {s.chunks[c].chunk}, prev.generated)
        else Store(prev.chunks[c := Faded(s.chunks[c])], prev.scene, prev.generated)
  {
    if OutOfRange(c, cur) {
      assert EvictedOn(s, cur, done + {c}) == EvictedOn(s, cur, done) + {s.chunks[c].chunk};
    } else {
      assert EvictedOn(s, cur, done + {c}) == EvictedOn(s, cur, done);
    }
  }

  /** Evicting and fading keeps the invariant: in particular the scene loses
      exactly the groups of the evicted chunks. */
  lemma EvictFadeInv(s: Store, cur: Coord)
    requires Inv(s)
    ensures Inv(EvictFade(s, cur))
  {
    var r := EvictFade(s, cur);
    var evicted := EvictedOn(s, cur, s.chunks.Keys);
    forall h | h in SceneOf(r.chunks)
      ensures h in s.scene - evicted
    {
      var c :| c in r.chunks && r.chunks[c].chunk == h;
      assert c in s.chunks && s.chunks[c].chunk == h && !OutOfRange(c, cur);
    }
    forall h | h in s.scene - evicted
      ensures h in SceneOf(r.chunks)
    {
      var c :| c in s.chunks && s.chunks[c].chunk == h;
      assert c in r.chunks && r.chunks[c].chunk == h;
    }
  }

  lemma SubsetCard<T>(a: set<T>, b: set<T>)
    requires a <= b
    ensures |a| <= |b|
  {
    assert b == a + (b - a);
  }

  /** After eviction every resident chunk is within the unload radius of the
      current chunk, so at most 49 remain. */
  lemma EvictFadeBounded(s: Store, cur: Coord)
    ensures var r := EvictFade(s, cur);
      && (forall c | c in r.chunks :: Chebyshev(c, cur) <= UnloadRadius)
      && |r.chunks| <= (2 * UnloadRadius + 1) * (2 * UnloadRadius + 1)
  {
    var r := EvictFade(s, cur);
    SquareCard(cur, UnloadRadius);
    SubsetCard(r.chunks.Keys, Square(cur, UnloadRadius));
  }

  // ---------------------------------------------------------------------
  // The tick (anim.js:237-270)

  /** One call of updateTerrain with current chunk cur: load, then evict/fade. */
  function Tick(s: Store, cur: Coord): Store
  {
    EvictFade(Load(s, cur), cur)
  }

  /** After a tick the invariant holds, every chunk within the load radius is
      resident (none loaded this tick is evicted, because 2 < 3), every
      resident chunk is within the unload radius, and at most 49 remain. */
  lemma TickSpec(s: Store, cur: Coord)
    requires Inv(s)
    ensures var r := Tick(s, cur);
      && Inv(r)
      && (forall p | p in Square(cur, LoadRadius) :: p in r.chunks)
      && (forall c | c in r.chunks :: Chebyshev(c, cur) <= UnloadRadius)
      && |r.chunks| <= 49
  {
    var l := Load(s, cur);
    LoadSpec(s, cur);
    EvictFadeInv(l, cur);
    EvictFadeBounded(l, cur);
  }

  /** What a tick does to each entry: an entry that was resident is deleted
      exactly when it is farther than 3, and otherwise keeps its group (it is
      never regenerated) with its fade raised once; an entry that was not
      resident was loaded this tick and ends it with fade 0.02. */
  lemma TickEntries(s: Store, cur: Coord)
    ensures var r := Tick(s, cur);
      && (forall c | c in s.chunks :: c in r.chunks <==> !OutOfRange(c, cur))
      && (forall c | c in s.chunks && c in r.chunks :: r.chunks[c] == Faded(s.chunks[c]))
      && (forall c | c in r.chunks && c !in s.chunks ::
            && r.chunks[c].fadeState == FadeStep
            && CoordOf(r.chunks[c].chunk) == c
            && Chebyshev(c, cur) <= LoadRadius
            && s.generated <= r.chunks[c].chunk.serial)
  {
    LoadSpec(s, cur);
  }

  /** Starting from an empty map, one tick leaves exactly the 25 chunks
      within the load radius, each with fade 0.02. */
  lemma TickFromEmpty(cur: Coord, generated: nat)
    ensures var r := Tick(Store(map[], {}, generated), cur);
      && r.chunks.Keys == Square(cur, LoadRadius)
      && |r.chunks| == 25
      && (forall c | c in r.chunks :: r.chunks[c].fadeState == FadeStep)
  {
    var s := Store(map[], {}, generated);
    TickSpec(s, cur);
    TickEntries(s, cur);
    SquareCard(cur, LoadRadius);
  }

  /** The source's string-keyed map after a tick: every key decodes to a
      chunk within the unload radius, the keys of all 25 chunks within the
      load radius are present, and at most 49 keys remain. */
  lemma TickKeys(s: Store, cur: Coord)
    requires Inv(s)
    ensures var keyed := Encoded(Tick(s, cur).chunks);
      && (forall k | k in keyed :: ParseKey(k).Some? && Chebyshev(ParseKey(k).value, cur) <= UnloadRadius)
      && (forall p | p in Square(cur, LoadRadius) :: KeyOf(p.0, p.1) in keyed)
      && |keyed| <= 49
  {
    var m := Tick(s, cur).chunks;
    TickSpec(s, cur);
    EncodedCard(m);
    forall k | k in Encoded(m)
      ensures ParseKey(k).Some? && Chebyshev(ParseKey(k).value, cur) <= UnloadRadius
    {
      EncodedKey(m, k);
    }
    forall p | p in Square(cur, LoadRadius)
      ensures KeyOf(p.0, p.1) in Encoded(m)
    {
      EncodedAt(m, p);
    }
  }

  /** The state after one tick per current chunk in curs, in order. */
  function Run(s: Store, curs: seq<Coord>): Store
  {
    if curs == [] then s else Tick(Run(s, curs[..|curs| - 1]), curs[|curs| - 1])
  }

  /** A chunk that stays within the unload radius through a run of ticks stays
      resident with the same group (never regenerated), and its fade is the
      start fade raised once per tick. */
  lemma {:induction false} ResidentThroughRun(s: Store, curs: seq<Coord>, c: Coord)
    requires c in s.chunks
    requires forall j | 0 <= j < |curs| :: Chebyshev(c, curs[j]) <= UnloadRadius
    ensures c in Run(s, curs).chunks
    ensures Run(s, curs).chunks[c] == ChunkEntry(s.chunks[c].chunk, FadeAfter(s.chunks[c].fadeState, |curs|))
  {
    if curs != [] {
      var prefix := curs[..|curs| - 1];
      ResidentThroughRun(s, prefix, c);
      TickEntries(Run(s, prefix), curs[|curs| - 1]);
    }
  }

  // ---------------------------------------------------------------------
  // The mutable state and the tick as the source runs it

  class TerrainStreamer {
    /** `chunks` (anim.js:4), keyed by the coordinate its key string encodes. */
    var chunks: map<Coord, ChunkEntry>
    /** The chunk groups currently added to the scene (anim.js:249, anim.js:263). */
    var scene: set<Chunk>
    /** How many groups generateTerrainChunk has built. */
    var generated: nat

    function State(): Store
      reads this
    {
      Store(chunks, scene, generated)
    }

    ghost predicate Valid()
      reads this
    {
      Inv(State())
    }

    constructor ()
      ensures Valid()
      ensures chunks == map[] && scene == {} && generated == 0
    {
      chunks := map[];
      scene := {};
      generated := 0;
    }

    /** `generateTerrainChunk(cx, cz)` (anim.js:125-221), opaque: a new group
        for chunk (cx, cz). Its mesh and trees are not modelled. */
    method GenerateTerrainChunk(cx: int, cz: int) returns (chunk: Chunk)
      modifies this`generated
      ensures chunk == Chunk(cx, cz, old(generated))
      ensures generated == old(generated) + 1
    {
      chunk := Chunk(cx, cz, generated);
      generated := generated + 1;
    }

    /** The body of the load loops (anim.js:243-251): generate, add to the
        scene and insert with fadeState 0 the chunk whose key is missing. */
    method LoadChunk(cx: int, cz: int)
      modifies this
      ensures chunks == LoadAt(old(State()), cx, cz).chunks
      ensures scene == LoadAt(old(State()), cx, cz).scene
      ensures generated == LoadAt(old(State()), cx, cz).generated
    {
      if (cx, cz) !in chunks {
        var chunk := GenerateTerrainChunk(cx, cz);
        scene := scene + {chunk};
        chunks := chunks[(cx, cz) := ChunkEntry(chunk, 0.0)];
      }
    }

    /** The inner load loop for offset x (anim.js:242-252): z from -2 to 2. */
    method LoadColumnPass(cur: Coord, x: int)
      modifies this
      ensures State() == LoadColumn(old(State()), cur, x, 5)
    {
      ghost var start := State();
      var z := -2;
      while z <= 2
        invariant -2 <= z <= 3
        invariant State() == LoadColumn(start, cur, x, z + 2)
      {
        LoadChunk(cur.0 + x, cur.1 + z);
        z := z + 1;
      }
    }

    /** The outer load loop (anim.js:241-253): x from -2 to 2. */
    method LoadPass(cur: Coord)
      modifies this
      ensures State() == Load(old(State()), cur)
    {
      ghost var start := State();
      var x := -2;
      while x <= 2
        invariant -2 <= x <= 3
        invariant State() == LoadColumns(start, cur, x + 2)
      {
        LoadColumnPass(cur, x);
        x := x + 1;
      }
    }

    /** The body of the evict/fade loop for the entry under c (anim.js:256-268):
        an entry farther than 3 from cur leaves the scene and the map, any
        other has its fade raised. */
    method EvictOrFade(c: Coord, cur: Coord)
      requires c in chunks
      modifies this
      ensures OutOfRange(c, cur) ==>
        chunks == old(chunks) - {c} && scene == old(scene) - {old(chunks)[c].chunk}
      ensures !OutOfRange(c, cur) ==>
        chunks == old(chunks)[c := Faded(old(chunks)[c])] && scene == old(scene)
      ensures generated == old(generated)
    {
      var data := chunks[c];
      if OutOfRange(c, cur) {
        scene := scene - {data.chunk};
        chunks := chunks - {c};
      } else {
        chunks := chunks[c := Faded(data)];
      }
    }

    /** The `for..of` over `chunks.entries()` (anim.js:255-269). Deleting the
        visited entry does not disturb the iteration, so every entry present
        at the start is visited once; the order does not change the result. */
    method EvictFadePass(cur: Coord)
      modifies this
      ensures State() == EvictFade(old(State()), cur)
    {
      ghost var start := State();
      var todo := chunks.Keys;
      ghost var done: set<Coord> := {};
      while todo != {}
        invariant todo + done == start.chunks.Keys && todo !! done
        invariant State() == EvictFadeOn(start, cur, done)
        decreases |todo|
      {
        var c :| c in todo;
        EvictFadeStep(start, cur, done, c);
        EvictOrFade(c, cur);
        todo := todo - {c};
        done := done + {c};
      }
    }

    /** `updateTerrain()` (anim.js:237-270) with the camera at world position
        (x, z): the current chunk is the floor of the position over the chunk
        size, then the load pass, then the evict/fade pass. */
    method UpdateTerrain(x: real, z: real)
      requires Valid()
      modifies this
      ensures Valid()
      ensures State() == Tick(old(State()), (ChunkOf(x), ChunkOf(z)))
      ensures forall p | p in Square((ChunkOf(x), ChunkOf(z)), LoadRadius) :: p in chunks
      ensures forall c | c in chunks :: Chebyshev(c, (ChunkOf(x), ChunkOf(z))) <= UnloadRadius
      ensures |chunks| <= 49
    {
      var currentChunk := (ChunkOf(x), ChunkOf(z));
      LoadPass(currentChunk);
      EvictFadePass(currentChunk);
      TickSpec(old(State()), currentChunk);
    }
  }

  /** Two ticks from the empty map, at chunk a and then at a chunk b more
      than 3 away: a chunk p of the first load square that is more than 3
      from b is loaded by the first tick and evicted by the second, and b,
      loaded by the second, ends it with fade 0.02. */
  lemma TwoTicks(generated: nat, a: Coord, b: Coord, p: Coord)
    requires Chebyshev(b, a) > UnloadRadius
    requires Chebyshev(p, a) <= LoadRadius && Chebyshev(p, b) > UnloadRadius
    ensures var first := Tick(Store(map[], {}, generated), a);
      var second := Tick(first, b);
      && p in first.chunks && p !in second.chunks
      && b in second.chunks && second.chunks[b].fadeState == FadeStep
  {
    var first := Tick(Store(map[], {}, generated), a);
    TickFromEmpty(a, generated);
    TickSpec(Store(map[], {}, generated), a);
    TickEntries(first, b);
    TickSpec(first, b);
    assert b in Square(b, LoadRadius);
    assert p in Square(a, LoadRadius);
  }

  /** A new streamer ticked once with the camera at a position (x, z) in
      chunk (0, 0) holds exactly the 25 chunks around (0, 0), each with fade
      0.02. This includes the flight's first frame: `animate` moves the
      camera from its start (0, 100) (anim.js:52) by one `updateFlight` step
      before the first `updateTerrain` (anim.js:297-299). */
  method FirstFrame(x: real, z: real) returns (streamer: TerrainStreamer, firstKeys: set<Coord>)
    requires 0.0 <= x < ChunkSize as real && 0.0 <= z < ChunkSize as real
    ensures fresh(streamer) && streamer.Valid()
    ensures streamer.State() == Tick(Store(map[], {}, 0), (0, 0))
    ensures firstKeys == streamer.chunks.Keys == Square((0, 0), LoadRadius) && |firstKeys| == 25
    ensures forall c | c in streamer.chunks :: streamer.chunks[c].fadeState == FadeStep
  {
    streamer := new TerrainStreamer();
    streamer.UpdateTerrain(x, z);
    ChunkOfUnique(x, 0);
    ChunkOfUnique(z, 0);
    var start := (0, 0);
    TickFromEmpty(start, 0);
    firstKeys := streamer.chunks.Keys;
  }
}
