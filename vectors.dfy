/**
 * Three-component vectors as used for positions, offsets and normals, integer
 * grid cells, and the per-axis snapping the puzzle applies to positions.
 */
module Vectors {
  import opened JsMath

  datatype Vec3 = Vec3(x: real, y: real, z: real)
  {
    function Add(o: Vec3): Vec3 { Vec3(x + o.x, y + o.y, z + o.z) }
    function Sub(o: Vec3): Vec3 { Vec3(x - o.x, y - o.y, z - o.z) }
  }

  /** An integer grid cell, as returned for occupancy. */
  datatype Cell = Cell(x: int, y: int, z: int)

  const Origin := Vec3(0.0, 0.0, 0.0)

  function CellToVec(c: Cell): Vec3 { Vec3(c.x as real, c.y as real, c.z as real) }

  /** Every component is a whole number. */
  predicate IsIntegral(v: Vec3)
  {
    v.x.Floor as real == v.x && v.y.Floor as real == v.y && v.z.Floor as real == v.z
  }

  /** Math.round applied to each component. */
  function RoundCell(v: Vec3): (c: Cell)
    ensures c.x as real - 0.5 <= v.x < c.x as real + 0.5
    ensures c.y as real - 0.5 <= v.y < c.y as real + 0.5
    ensures c.z as real - 0.5 <= v.z < c.z as real + 0.5
  {
    Cell(Round(v.x), Round(v.y), Round(v.z))
  }

  /** The vector whose components are Math.round of v's. */
  function Snap(v: Vec3): (r: Vec3)
    ensures IsIntegral(r)
    ensures r.x - 0.5 <= v.x < r.x + 0.5
    ensures r.y - 0.5 <= v.y < r.y + 0.5
    ensures r.z - 0.5 <= v.z < r.z + 0.5
  {
    CellToVec(RoundCell(v))
  }

  /** Snapping an integral vector leaves it unchanged. */
  lemma SnapIntegral(v: Vec3)
    requires IsIntegral(v)
    ensures Snap(v) == v
  {
    RoundOfInteger(v.x.Floor);
    RoundOfInteger(v.y.Floor);
    RoundOfInteger(v.z.Floor);
  }

  /** Snapping is idempotent. */
  lemma SnapIdempotent(v: Vec3)
    ensures Snap(Snap(v)) == Snap(v)
  {
    SnapIntegral(Snap(v));
  }

  /** Rounding a cell's exact coordinates gives the cell back. */
  lemma RoundCellOfCell(c: Cell)
    ensures RoundCell(CellToVec(c)) == c
  {
    RoundOfInteger(c.x);
    RoundOfInteger(c.y);
    RoundOfInteger(c.z);
  }
}
