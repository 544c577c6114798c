/**
 * The T-shaped puzzle piece: a group of four unit boxes (children 0..3 are
 * the center, right, left and top blocks), the four layouts the blocks can be
 * put in, the rule that picks a layout once the piece has been turned, the
 * grid cells it occupies, and its emissive highlight.
 */
module TShapes {
  import opened JsMath
  import opened Vectors
  import opened Options

  // ---------------------------------------------------------------------------
  // Layouts

  /** Child positions, in child order (center, right, left, top), for each layout. */
  const CENTER_SET: seq<Cell> := [Cell(0, 0, 0), Cell(1, 0, 0), Cell(-1, 0, 0), Cell(0, 0, -1)]
  const TOP_SET: seq<Cell> := [Cell(0, 0, 1), Cell(1, 0, 1), Cell(-1, 0, 1), Cell(0, 0, 0)]
  const LEFT_SET: seq<Cell> := [Cell(1, 0, 0), Cell(2, 0, 0), Cell(0, 0, 0), Cell(1, 0, -1)]
  const RIGHT_SET: seq<Cell> := [Cell(-1, 0, 0), Cell(0, 0, 0), Cell(-2, 0, 0), Cell(-1, 0, -1)]

  const CENTER_INDEX := 0
  const RIGHT_INDEX := 1
  const LEFT_INDEX := 2
  const TOP_INDEX := 3

  datatype Layout = Center | Top | Left | Right

  function Positions(l: Layout): seq<Cell>
  {
    match l
    case Center => CENTER_SET
    case Top => TOP_SET
    case Left => LEFT_SET
    case Right => RIGHT_SET
  }

  /** The block that sits at the local origin in a layout. */
  function Pivot(l: Layout): nat
  {
    match l
    case Center => CENTER_INDEX
    case Top => TOP_INDEX
    case Left => LEFT_INDEX
    case Right => RIGHT_INDEX
  }

  function AddCell(a: Cell, d: Cell): Cell { Cell(a.x + d.x, a.y + d.y, a.z + d.z) }

  function Translate(cells: seq<Cell>, d: Cell): seq<Cell>
  {
    seq(|cells|, i requires 0 <= i < |cells| => AddCell(cells[i], d))
  }

  lemma TranslateFour(cells: seq<Cell>, d: Cell)
    requires |cells| == 4
    ensures Translate(cells, d) == [AddCell(cells[0], d), AddCell(cells[1], d), AddCell(cells[2], d), AddCell(cells[3], d)]
  {
  }

  /** How far each layout is moved from the center layout. */
  function Offset(l: Layout): Cell
  {
    match l
    case Center => Cell(0, 0, 0)
    case Top => Cell(0, 0, 1)
    case Left => Cell(1, 0, 0)
    case Right => Cell(-1, 0, 0)
  }

  lemma LayoutIsTranslate(l: Layout)
    ensures Positions(l) == Translate(CENTER_SET, Offset(l))
  {
    TranslateFour(CENTER_SET, Offset(l));
  }

  /** Every layout is the center layout moved by a whole cell, so the T is kept. */
  lemma LayoutsAreTranslates()
    ensures TOP_SET == Translate(CENTER_SET, Cell(0, 0, 1))
    ensures LEFT_SET == Translate(CENTER_SET, Cell(1, 0, 0))
    ensures RIGHT_SET == Translate(CENTER_SET, Cell(-1, 0, 0))
    ensures CENTER_SET == Translate(CENTER_SET, Cell(0, 0, 0))
  {
    LayoutIsTranslate(Top);
    LayoutIsTranslate(Left);
    LayoutIsTranslate(Right);
    LayoutIsTranslate(Center);
  }

  function Negate(c: Cell): Cell { Cell(-c.x, -c.y, -c.z) }

  /** Each layout is the center layout moved so that its pivot block lands on the origin. */
  lemma LayoutsMovePivotToOrigin(l: Layout)
    ensures Positions(l) == Translate(CENTER_SET, Negate(CENTER_SET[Pivot(l)]))
  {
    LayoutsAreTranslates();
  }

  /** Four pairwise distinct cells, all on the y == 0 layer. */
  ghost predicate FlatDistinctFour(cells: seq<Cell>)
  {
    && |cells| == 4
    && (forall i :: 0 <= i < 4 ==> cells[i].y == 0)
    && (forall i, j :: 0 <= i < j < 4 ==> cells[i] != cells[j])
  }

  lemma LayoutsWellFormed(l: Layout)
    ensures FlatDistinctFour(Positions(l))
  {
  }

  /**
   * The rule of updateBlockPositions, given the rounded world heights of the
   * four blocks: the first of top, left and right (in that order) that lies
   * below the center block becomes the pivot; if none does, the center
   * layout is kept.
   */
  function ChooseLayout(centerY: int, topY: int, rightY: int, leftY: int): (l: Layout)
    ensures l == Center <==> (topY >= centerY && leftY >= centerY && rightY >= centerY)
    ensures l == Top <==> topY < centerY
    ensures l == Left <==> (topY >= centerY && leftY < centerY)
    ensures l == Right <==> (topY >= centerY && leftY >= centerY && rightY < centerY)
  {
    if topY < centerY then Top
    else if leftY < centerY then Left
    else if rightY < centerY then Right
    else Center
  }

  /** The layout picked from the world positions of the four children. */
  function LayoutFor(world: seq<Vec3>): Layout
    requires |world| == 4
  {
    ChooseLayout(Round(world[CENTER_INDEX].y), Round(world[TOP_INDEX].y),
                 Round(world[RIGHT_INDEX].y), Round(world[LEFT_INDEX].y))
  }

  /** The block that becomes the pivot is one that lies below the center block. */
  lemma ChosenPivotIsLowest(world: seq<Vec3>)
    requires |world| == 4
    ensures var l := LayoutFor(world);
            && Positions(l)[Pivot(l)] == Cell(0, 0, 0)
            && (l != Center ==> Round(world[Pivot(l)].y) < Round(world[CENTER_INDEX].y))
            && (l == Center ==> forall i :: 0 <= i < 4 ==> Round(world[i].y) >= Round(world[CENTER_INDEX].y))
  {
    var l := LayoutFor(world);
    assert Positions(l)[Pivot(l)] == Cell(0, 0, 0) by {
      match l
      case Center =>
      case Top =>
      case Left =>
      case Right =>
    }
  }

  // ---------------------------------------------------------------------------
  // Occupancy

  /** getOccupiedCells: Math.round of each child's world position, in child order. */
  function OccupiedCells(world: seq<Vec3>): (cells: seq<Cell>)
    ensures |cells| == |world|
    ensures forall i :: 0 <= i < |world| ==> cells[i] == RoundCell(world[i])
  {
    seq(|world|, i requires 0 <= i < |world| => RoundCell(world[i]))
  }

  /** World positions of the children of an unrotated group placed at p. */
  function PlacedAt(p: Vec3, local: seq<Cell>): (w: seq<Vec3>)
    ensures |w| == |local|
  {
    seq(|local|, i requires 0 <= i < |local| => p.Add(CellToVec(local[i])))
  }

  /**
   * Each reported cell is the one whose unit box around it holds the child's
   * world position, so nearby positions report the same cell.
   */
  lemma {:induction false} OccupiedCellsAreNearest(world: seq<Vec3>, i: nat, c: Cell)
    requires i < |world|
    requires CellToVec(c).x - 0.5 <= world[i].x < CellToVec(c).x + 0.5
    requires CellToVec(c).y - 0.5 <= world[i].y < CellToVec(c).y + 0.5
    requires CellToVec(c).z - 0.5 <= world[i].z < CellToVec(c).z + 0.5
    ensures OccupiedCells(world)[i] == c
  {
    RoundUnique(world[i].x, c.x);
    RoundUnique(world[i].y, c.y);
    RoundUnique(world[i].z, c.z);
  }

  /** An unrotated piece at an integer cell occupies the layout moved to that cell. */
  lemma OccupiedCellsOfPlacedPiece(p: Cell, l: Layout)
    ensures OccupiedCells(PlacedAt(CellToVec(p), Positions(l))) == Translate(Positions(l), p)
  {
    var local := Positions(l);
    var w := PlacedAt(CellToVec(p), local);
    forall i | 0 <= i < |local|
      ensures OccupiedCells(w)[i] == Translate(local, p)[i]
    {
      assert w[i] == CellToVec(AddCell(local[i], p));
      RoundCellOfCell(AddCell(local[i], p));
    }
  }

  // ---------------------------------------------------------------------------
  // Emissive highlight

  /** One node visited by traverse(): whether it is a Mesh, and its material's emissive colour (None: no emissive property). */
  datatype Part = Part(isMesh: bool, emissive: Option<int>)

  const HIGHLIGHT_COLOR := 0xffff00
  const HOVER_COLOR := 0x555555
  const NO_COLOR := 0x000000

  /** The effect of setEmissiveColor on one node. */
  function Paint(p: Part, color: int): Part
  {
    if p.isMesh && p.emissive.Some? then p.(emissive := Some(color)) else p
  }

  /** The effect of setEmissiveColor on the traversal list. */
  function Painted(ps: seq<Part>, color: int): (r: seq<Part>)
    ensures |r| == |ps|
    ensures forall i :: 0 <= i < |ps| ==> r[i] == Paint(ps[i], color)
  {
    seq(|ps|, i requires 0 <= i < |ps| => Paint(ps[i], color))
  }

  /** Every mesh with an emissive material shows the colour. */
  ghost predicate ShowsColor(ps: seq<Part>, color: int)
  {
    forall i :: 0 <= i < |ps| && ps[i].isMesh && ps[i].emissive.Some? ==> ps[i].emissive == Some(color)
  }

  /** Painting sets every emissive mesh and leaves every other node as it was. */
  lemma PaintedEffect(ps: seq<Part>, color: int)
    ensures ShowsColor(Painted(ps, color), color)
    ensures forall i :: 0 <= i < |ps| && !(ps[i].isMesh && ps[i].emissive.Some?) ==> Painted(ps, color)[i] == ps[i]
    ensures forall i :: 0 <= i < |ps| ==> Painted(ps, color)[i].isMesh == ps[i].isMesh
                                          && Painted(ps, color)[i].emissive.Some? == ps[i].emissive.Some?
  {
  }

  /** The last colour set wins: painting twice is painting once with the second colour. */
  lemma PaintedLastWins(ps: seq<Part>, a: int, b: int)
    ensures Painted(Painted(ps, a), b) == Painted(ps, b)
  {
    var l := Painted(Painted(ps, a), b);
    var r := Painted(ps, b);
    assert |l| == |r|;
    forall i | 0 <= i < |ps| ensures l[i] == r[i] {
      assert Painted(ps, a)[i] == Paint(ps[i], a);
    }
  }

  /** Highlighting (or any colouring) is idempotent. */
  lemma PaintedIdempotent(ps: seq<Part>, c: int)
    ensures Painted(Painted(ps, c), c) == Painted(ps, c)
  {
    PaintedLastWins(ps, c, c);
  }

  /** The traversal of a freshly built piece: the group, then each box followed by its edge lines. */
  function InitialParts(material: Option<int>): (ps: seq<Part>)
    ensures |ps| == 9
    ensures !ps[0].isMesh
    ensures forall k :: 0 <= k < 4 ==> ps[1 + 2 * k] == Part(true, material) && !ps[2 + 2 * k].isMesh
  {
    var box := Part(true, material);
    var edges := Part(false, None);
    [Part(false, None), box, edges, box, edges, box, edges, box, edges]
  }

  // ---------------------------------------------------------------------------
  // The piece

  /** A child box; only its local position is modelled. */
  class Block {
    var position: Vec3

    constructor (p: Vec3)
      ensures position == p
    {
      position := p;
    }
  }

  class TShape {
    /** The four boxes, in the order the constructor adds them. */
    const children: seq<Block>
    /** The group's own position, which the selection controller moves. */
    var position: Vec3
    /** The nodes traverse() visits, with their emissive state. */
    var parts: seq<Part>

    ghost predicate Valid()
    {
      && |children| == 4
      && (forall i, j :: 0 <= i < j < |children| ==> children[i] != children[j])
    }

    /** Builds the four boxes at the center layout, in order. */
    constructor (material: Option<int>)
      ensures Valid()
      ensures forall i :: 0 <= i < 4 ==> fresh(children[i]) && children[i].position == CellToVec(CENTER_SET[i])
      ensures position == Origin
      ensures parts == InitialParts(material)
    {
      var bs: seq<Block> := [];
      var k := 0;
      while k < |CENTER_SET|
        invariant 0 <= k <= |CENTER_SET| && |bs| == k
        invariant forall i :: 0 <= i < k ==> fresh(bs[i]) && bs[i].position == CellToVec(CENTER_SET[i])
        invariant forall i, j :: 0 <= i < j < k ==> bs[i] != bs[j]
      {
        var b := new Block(CellToVec(CENTER_SET[k]));
        bs := bs + [b];
        k := k + 1;
      }
      children := bs;
      position := Origin;
      parts := InitialParts(material);
    }

    /** Re-lays the blocks after a turn; world holds the children's world positions beforehand. */
    method UpdateBlockPositions(world: seq<Vec3>)
      requires Valid() && |world| == |children|
      modifies children
      ensures forall i :: 0 <= i < 4 ==> children[i].position == CellToVec(Positions(LayoutFor(world))[i])
    {
      var positions := Positions(LayoutFor(world));
      for i := 0 to |children|
        invariant forall k :: 0 <= k < i ==> children[k].position == CellToVec(positions[k])
      {
        children[i].position := CellToVec(positions[i]);
      }
    }

    method SetEmissiveColor(color: int)
      modifies this
      ensures parts == Painted(old(parts), color)
      ensures position == old(position)
    {
      var i := 0;
      while i < |parts|
        invariant 0 <= i <= |parts| == |old(parts)|
        invariant forall k :: 0 <= k < i ==> parts[k] == Paint(old(parts)[k], color)
        invariant forall k :: i <= k < |parts| ==> parts[k] == old(parts)[k]
        invariant position == old(position)
      {
        parts := parts[i := Paint(parts[i], color)];
        i := i + 1;
      }
    }

    method OnHoverEnter()
      modifies this
      ensures parts == Painted(old(parts), HOVER_COLOR) && position == old(position)
    {
      SetEmissiveColor(HOVER_COLOR);
    }

    method OnHoverExit()
      modifies this
      ensures parts == Painted(old(parts), NO_COLOR) && position == old(position)
    {
      SetEmissiveColor(NO_COLOR);
    }

    method Highlight()
      modifies this
      ensures parts == Painted(old(parts), HIGHLIGHT_COLOR) && position == old(position)
    {
      SetEmissiveColor(HIGHLIGHT_COLOR);
    }

    method RemoveHighlight()
      modifies this
      ensures parts == Painted(old(parts), NO_COLOR) && position == old(position)
    {
      SetEmissiveColor(NO_COLOR);
    }
  }
}
