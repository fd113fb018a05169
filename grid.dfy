/**
 * The uniform grid of the particle field: a map from a cell `(column, row)` to
 * the particles inserted into that cell, in insertion order, and the 3×3
 * neighbourhood lookup the grid drawing strategy uses.
 *
 * The cell key is the pair itself rather than its `"col:row"` spelling; the
 * spelling of two integers is injective, so the map has the same cells.
 */
module Grids {
  import opened Points

  type Key = (int, int)

  /** A cell size; the grid divides coordinates by it. */
  type CellSize = c: int | c > 0 witness 1

  type Cells = map<Key, seq<Particle>>

  /** The cell a position falls in: floor division of each coordinate by the cell size. */
  function KeyOf(x: int, y: int, cellSize: CellSize): (k: Key)
    ensures k.0 * cellSize <= x < k.0 * cellSize + cellSize
    ensures k.1 * cellSize <= y < k.1 * cellSize + cellSize
  {
    (x / cellSize, y / cellSize)
  }

  function ParticleKey(p: Particle, cellSize: CellSize): Key {
    KeyOf(p.x, p.y, cellSize)
  }

  /** The particles stored under `k`, or none when the map has no such cell. */
  function CellOf(cells: Cells, k: Key): seq<Particle> {
    if k in cells then cells[k] else []
  }

  /** The map after appending `p` to cell `k`. */
  function Put(cells: Cells, k: Key, p: Particle): Cells {
    cells[k := CellOf(cells, k) + [p]]
  }

  /** The map after inserting each of `ps` in turn. */
  function PutAll(cells: Cells, ps: seq<Particle>, cellSize: CellSize): Cells
    decreases |ps|
  {
    if ps == [] then cells
    else
      var last := ps[|ps| - 1];
      Put(PutAll(cells, ps[..|ps| - 1], cellSize), ParticleKey(last, cellSize), last)
  }

  /** The particles of `ps` that fall in cell `k`, in their order in `ps`. */
  function InCell(ps: seq<Particle>, k: Key, cellSize: CellSize): (r: seq<Particle>)
    ensures forall q :: q in r <==> q in ps && ParticleKey(q, cellSize) == k
    decreases |ps|
  {
    if ps == [] then []
    else
      var last := ps[|ps| - 1];
      var rest := InCell(ps[..|ps| - 1], k, cellSize);
      assert ps == ps[..|ps| - 1] + [last];
      if ParticleKey(last, cellSize) == k then rest + [last] else rest
  }

  /**
   * Batch insertion leaves every cell holding what it held before followed by
   * exactly the inserted particles that fall in it, in their order.
   */
  lemma {:induction false} PutAllCell(cells: Cells, ps: seq<Particle>, cellSize: CellSize, k: Key)
    ensures CellOf(PutAll(cells, ps, cellSize), k) == CellOf(cells, k) + InCell(ps, k, cellSize)
    ensures k in PutAll(cells, ps, cellSize) <==> k in cells || InCell(ps, k, cellSize) != []
    decreases |ps|
  {
    if ps != [] {
      PutAllCell(cells, ps[..|ps| - 1], cellSize, k);
    }
  }

  /** Every inserted particle is stored in its own cell. */
  lemma PutAllStores(cells: Cells, ps: seq<Particle>, cellSize: CellSize, q: Particle)
    requires q in ps
    ensures q in CellOf(PutAll(cells, ps, cellSize), ParticleKey(q, cellSize))
  {
    PutAllCell(cells, ps, cellSize, ParticleKey(q, cellSize));
  }

  // The neighbourhood, in the order of the lookup loops: column offset outer,
  // row offset inner, each from -1 to 1.

  /** The key of the `n`-th cell of the 3×3 block around `k`. */
  function NeighbourKey(k: Key, n: int): Key {
    (k.0 + n / 3 - 1, k.1 + n % 3 - 1)
  }

  /** The cell at column offset `dx` and row offset `dy` from `k` is the block's cell number 3(dx + 1) + (dy + 1). */
  lemma NeighbourKeyOffsets(k: Key, dx: int, dy: int)
    requires -1 <= dx <= 1 && -1 <= dy <= 1
    ensures NeighbourKey(k, 3 * (dx + 1) + (dy + 1)) == (k.0 + dx, k.1 + dy)
  {
    var m := 3 * (dx + 1) + (dy + 1);
    assert m / 3 == dx + 1 && m % 3 == dy + 1;
  }

  /** The first `n` cells of the block around `k`, concatenated. */
  function Block(cells: Cells, k: Key, n: nat): seq<Particle>
    requires n <= 9
  {
    if n == 0 then [] else Block(cells, k, n - 1) + CellOf(cells, NeighbourKey(k, n - 1))
  }

  /** All particles stored in the nine cells around and including `k`. */
  function Neighbourhood(cells: Cells, k: Key): seq<Particle> {
    Block(cells, k, 9)
  }

  lemma {:induction false} BlockMembership(cells: Cells, k: Key, n: nat, q: Particle)
    requires n <= 9
    ensures q in Block(cells, k, n) <==> exists m :: 0 <= m < n && q in CellOf(cells, NeighbourKey(k, m))
  {
    if n > 0 {
      BlockMembership(cells, k, n - 1, q);
    }
  }

  /** Cell `j` is `k` itself or one of its eight neighbours. */
  predicate Adjacent(k: Key, j: Key) {
    Abs(j.0 - k.0) <= 1 && Abs(j.1 - k.1) <= 1
  }

  /** A particle is in the neighbourhood of `k` exactly when it is stored in a cell adjacent to `k`. */
  lemma NeighbourhoodMembership(cells: Cells, k: Key, q: Particle)
    ensures q in Neighbourhood(cells, k) <==> exists j :: Adjacent(k, j) && q in CellOf(cells, j)
  {
    BlockMembership(cells, k, 9, q);
    if q in Neighbourhood(cells, k) {
      var m :| 0 <= m < 9 && q in CellOf(cells, NeighbourKey(k, m));
      assert Adjacent(k, NeighbourKey(k, m));
    }
    forall j | Adjacent(k, j) && q in CellOf(cells, j)
      ensures q in Neighbourhood(cells, k)
    {
      var m := 3 * (j.0 - k.0 + 1) + (j.1 - k.1 + 1);
      assert m / 3 == j.0 - k.0 + 1 && m % 3 == j.1 - k.1 + 1;
      assert NeighbourKey(k, m) == j;
    }
  }

  /** A particle stored in its own cell is in the neighbourhood of that cell. */
  lemma NeighbourhoodHoldsOwn(cells: Cells, cellSize: CellSize, q: Particle)
    requires q in CellOf(cells, ParticleKey(q, cellSize))
    ensures q in Neighbourhood(cells, ParticleKey(q, cellSize))
  {
    var k := ParticleKey(q, cellSize);
    assert Adjacent(k, k);
    NeighbourhoodMembership(cells, k, q);
  }

  /** Two coordinates less than one cell apart fall in the same or adjacent columns. */
  lemma FloorNeighbour(a: int, b: int, cellSize: CellSize)
    requires Abs(a - b) < cellSize
    ensures -1 <= a / cellSize - b / cellSize <= 1
  {
    var qa, qb := a / cellSize, b / cellSize;
    if qa >= qb + 2 {
      MultiplyMonotone(cellSize, qb + 2, qa);
      assert false;
    }
    if qb >= qa + 2 {
      MultiplyMonotone(cellSize, qa + 2, qb);
      assert false;
    }
  }

  /**
   * With cells as large as the connection distance, the neighbourhood of a
   * particle's cell holds every stored particle connected to it.
   */
  lemma NeighbourhoodComplete(cells: Cells, cellSize: CellSize, p: Particle, q: Particle)
    requires q in CellOf(cells, ParticleKey(q, cellSize))
    requires Connected(p, q, cellSize)
    ensures q in Neighbourhood(cells, ParticleKey(p, cellSize))
  {
    ConnectedAxes(q, p, cellSize);
    FloorNeighbour(q.x, p.x, cellSize);
    FloorNeighbour(q.y, p.y, cellSize);
    var k := ParticleKey(p, cellSize);
    assert Adjacent(k, ParticleKey(q, cellSize));
    NeighbourhoodMembership(cells, k, q);
  }

  /**
   * In a grid built from `ps` alone, the neighbourhood of a cell holds only
   * particles of `ps` whose own cell is adjacent to it.
   */
  lemma NeighbourhoodSound(ps: seq<Particle>, cellSize: CellSize, k: Key, q: Particle)
    requires q in Neighbourhood(PutAll(map[], ps, cellSize), k)
    ensures q in ps
    ensures Adjacent(k, ParticleKey(q, cellSize))
  {
    var cells := PutAll(map[], ps, cellSize);
    NeighbourhoodMembership(cells, k, q);
    var j :| Adjacent(k, j) && q in CellOf(cells, j);
    PutAllCell(map[], ps, cellSize, j);
  }

  /** An empty grid has an empty neighbourhood everywhere. */
  lemma EmptyNeighbourhood(k: Key)
    ensures Neighbourhood(map[], k) == []
  {
    assert forall n: nat :: n <= 9 ==> Block(map[], k, n) == [] by {
      forall n: nat | n <= 9
        ensures Block(map[], k, n) == []
      {
        BlockEmpty(k, n);
      }
    }
  }

  lemma {:induction false} BlockEmpty(k: Key, n: nat)
    requires n <= 9
    ensures Block(map[], k, n) == []
  {
    if n > 0 {
      BlockEmpty(k, n - 1);
    }
  }

  class Grid {
    const cellSize: CellSize
    var cells: Cells

    constructor(cellSize: CellSize)
      ensures this.cellSize == cellSize && cells == map[]
    {
      this.cellSize := cellSize;
      cells := map[];
    }

    /** Appends `p` to the list of its cell, creating the cell when it is missing. */
    method Insert(p: Particle)
      modifies this
      ensures cells == Put(old(cells), ParticleKey(p, cellSize), p)
    {
      var key := KeyOf(p.x, p.y, cellSize);
      if key in cells {
        cells := cells[key := cells[key] + [p]];
      } else {
        cells := cells[key := [p]];
        assert CellOf(old(cells), key) + [p] == [p];
      }
    }

    /** Inserts each particle of `ps` in order. */
    method InsertParticles(ps: seq<Particle>)
      modifies this
      ensures cells == PutAll(old(cells), ps, cellSize)
    {
      for i := 0 to |ps|
        invariant cells == PutAll(old(cells), ps[..i], cellSize)
      {
        Insert(ps[i]);
        assert ps[..i + 1][..i] == ps[..i];
      }
      assert ps[..|ps|] == ps;
    }

    /** The particles of the 3×3 block of cells around `p`'s cell, row offset varying fastest. */
    method GetNearbyParticles(p: Particle) returns (nearby: seq<Particle>)
      ensures nearby == Neighbourhood(cells, ParticleKey(p, cellSize))
    {
      nearby := [];
      var col := p.x / cellSize;
      var row := p.y / cellSize;
      ghost var k := (col, row);
      for xOffset := -1 to 2
        invariant nearby == Block(cells, k, 3 * (xOffset + 1))
      {
        for yOffset := -1 to 2
          invariant nearby == Block(cells, k, 3 * (xOffset + 1) + (yOffset + 1))
        {
          var cellKey := (col + xOffset, row + yOffset);
          NeighbourKeyOffsets(k, xOffset, yOffset);
          if cellKey in cells {
            nearby := nearby + cells[cellKey];
          }
        }
      }
    }

    method Clear()
      modifies this
      ensures cells == map[]
    {
      cells := map[];
    }
  }
}
