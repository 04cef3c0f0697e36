/** The chunk grid: chunk size, the current chunk of a world position,
    Chebyshev distance between chunks, and the square neighbourhoods that
    the load and unload radii describe (anim.js:5, anim.js:238-262). */
module ChunkGrid {

  type Coord = (int, int)

  /** Side of a chunk in world units (anim.js:5). */
  const ChunkSize: nat := 200

  /** The load pass covers offsets -2..2 on both axes (anim.js:241-242). */
  const LoadRadius: nat := 2

  /** Chunks farther than this from the current chunk are evicted (anim.js:262). */
  const UnloadRadius: nat := 3

  /** `Math.floor(p / chunkSize)` (anim.js:238-239): the chunk whose span
      [c * 200, (c + 1) * 200) holds world position p. */
  function ChunkOf(p: real): (c: int)
    ensures (c * ChunkSize) as real <= p < ((c + 1) * ChunkSize) as real
  {
    (p / ChunkSize as real).Floor
  }

  /** Only one chunk's span holds p, so ChunkOf is the floor and nothing else. */
  lemma ChunkOfUnique(p: real, c: int)
    requires (c * ChunkSize) as real <= p < ((c + 1) * ChunkSize) as real
    ensures c == ChunkOf(p)
  {
  }

  function Abs(n: int): nat { if n < 0 then -n else n }

  /** `Math.max(Math.abs(ax - bx), Math.abs(az - bz))` (anim.js:257-260). */
  function Chebyshev(a: Coord, b: Coord): nat
  {
    var dx, dz := Abs(a.0 - b.0), Abs(a.1 - b.1);
    if dx < dz then dz else dx
  }

  /** The chunks with x0 <= x <= x1 and z0 <= z <= z1. */
  function Rect(x0: int, x1: int, z0: int, z1: int): set<Coord>
  {
    set x, z | x0 <= x <= x1 && z0 <= z <= z1 :: (x, z)
  }

  /** The chunks within Chebyshev distance r of center. */
  function Square(center: Coord, r: nat): (cells: set<Coord>)
    ensures forall p :: p in cells <==> Chebyshev(p, center) <= r
  {
    Rect(center.0 - r, center.0 + r, center.1 - r, center.1 + r)
  }

  lemma {:induction false} ColumnCard(x: int, z0: int, z1: int)
    requires z0 <= z1 + 1
    ensures |Rect(x, x, z0, z1)| == z1 - z0 + 1
    decreases z1 - z0
  {
    if z0 <= z1 {
      assert Rect(x, x, z0, z1) == Rect(x, x, z0, z1 - 1) + {(x, z1)};
      ColumnCard(x, z0, z1 - 1);
    } else {
      assert Rect(x, x, z0, z1) == {};
    }
  }

  lemma {:induction false} RectCard(x0: int, x1: int, z0: int, z1: int)
    requires x0 <= x1 + 1 && z0 <= z1 + 1
    ensures |Rect(x0, x1, z0, z1)| == (x1 - x0 + 1) * (z1 - z0 + 1)
    decreases x1 - x0
  {
    if x0 <= x1 {
      assert Rect(x0, x1, z0, z1) == Rect(x0, x1 - 1, z0, z1) + Rect(x1, x1, z0, z1);
      assert Rect(x0, x1 - 1, z0, z1) !! Rect(x1, x1, z0, z1);
      RectCard(x0, x1 - 1, z0, z1);
      ColumnCard(x1, z0, z1);
      assert (x1 - x0 + 1) * (z1 - z0 + 1) == (x1 - x0) * (z1 - z0 + 1) + (z1 - z0 + 1);
    } else {
      assert Rect(x0, x1, z0, z1) == {};
    }
  }

  /** A square of radius r holds (2r + 1)^2 chunks: 25 for the load radius,
      49 for the unload radius. */
  lemma SquareCard(center: Coord, r: nat)
    ensures |Square(center, r)| == (2 * r + 1) * (2 * r + 1)
  {
    RectCard(center.0 - r, center.0 + r, center.1 - r, center.1 + r);
  }
}
