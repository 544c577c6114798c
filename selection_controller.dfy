/**
 * The drag-and-place controller of the puzzle: mouse-down selects the
 * T-piece under the cursor and records where on the ground plane it was
 * grabbed, mouse-move drags it along the plane snapped to whole units, and
 * mouse-up places it and releases it. Raycasts are oracle inputs; the change
 * events the controller dispatches are counted in a ghost field.
 */
module Selection {
  import opened JsMath
  import opened Vectors
  import opened Options
  import opened TShapes

  /** The first object a raycast against the selectables reports, and that object's parent. */
  datatype ObjectHit = ObjectHit(obj: object, parent: object?)

  /** The first intersection of the cursor ray with the ground plane. */
  datatype PlaneHit = PlaneHit(point: Vec3, normal: Vec3)

  /** findSelectable's test of one candidate: the hit is the piece, one of its children, or has it as parent. */
  predicate Matches(s: TShape, o: ObjectHit)
  {
    o.obj == s || o.obj in s.children || o.parent == s
  }

  /** The first candidate that the hit belongs to, or null. */
  function FirstSelectable(candidates: seq<TShape>, o: ObjectHit): (r: TShape?)
    ensures r == null <==> forall k :: 0 <= k < |candidates| ==> !Matches(candidates[k], o)
    ensures r != null ==> exists k :: 0 <= k < |candidates| && candidates[k] == r && Matches(r, o)
                                      && forall j :: 0 <= j < k ==> !Matches(candidates[j], o)
  {
    if |candidates| == 0 then null
    else if Matches(candidates[0], o) then candidates[0]
    else
      var r := FirstSelectable(candidates[1..], o);
      assert r != null ==> exists k :: 0 <= k < |candidates| && candidates[k] == r && Matches(r, o)
                                       && forall j :: 0 <= j < k ==> !Matches(candidates[j], o) by {
        if r != null {
          var k :| 0 <= k < |candidates[1..]| && candidates[1..][k] == r && Matches(r, o)
                   && forall j :: 0 <= j < k ==> !Matches(candidates[1..][j], o);
          assert candidates[k + 1] == r;
          assert forall j :: 0 <= j < k + 1 ==> !Matches(candidates[j], o) by {
            forall j | 0 <= j < k + 1 ensures !Matches(candidates[j], o) {
              if j > 0 { assert candidates[j] == candidates[1..][j - 1]; }
            }
          }
        }
      }
      assert r == null ==> forall k :: 0 <= k < |candidates| ==> !Matches(candidates[k], o) by {
        if r == null {
          forall k | 0 <= k < |candidates| ensures !Matches(candidates[k], o) {
            if k > 0 { assert candidates[k] == candidates[1..][k - 1]; }
          }
        }
      }
      r
  }

  /** Where a drag puts the piece: point + normal - offset, each component rounded. */
  function Placement(hit: PlaneHit, offset: Vec3): Vec3
  {
    Snap(hit.point.Add(hit.normal).Sub(offset))
  }

  /** A placement lies on the grid, within half a unit of the unsnapped target, and snapping it again changes nothing. */
  lemma PlacementOnGrid(hit: PlaneHit, offset: Vec3)
    ensures IsIntegral(Placement(hit, offset))
    ensures var t := hit.point.Add(hit.normal).Sub(offset);
            var p := Placement(hit, offset);
            p.x - 0.5 <= t.x < p.x + 0.5 && p.y - 0.5 <= t.y < p.y + 0.5 && p.z - 0.5 <= t.z < p.z + 0.5
    ensures Snap(Placement(hit, offset)) == Placement(hit, offset)
  {
    SnapIdempotent(hit.point.Add(hit.normal).Sub(offset));
  }

  /**
   * The grab point is kept: a piece at an integer position p grabbed at plane
   * point q, and dragged at the same q over a face with integer normal n,
   * lands on p + n rather than under the cursor.
   */
  lemma GrabPointKept(p: Vec3, q: Vec3, n: Vec3)
    requires IsIntegral(p) && IsIntegral(n)
    ensures Placement(PlaneHit(q, n), q.Sub(p)) == p.Add(n)
  {
    var t := q.Add(n).Sub(q.Sub(p));
    assert t == p.Add(n);
    assert IsIntegral(p.Add(n)) by {
      assert (p.x + n.x).Floor == p.x.Floor + n.x.Floor;
      assert (p.y + n.y).Floor == p.y.Floor + n.y.Floor;
      assert (p.z + n.z).Floor == p.z.Floor + n.z.Floor;
    }
    SnapIntegral(p.Add(n));
  }

  class SelectionController {
    const selectableObjects: seq<TShape>
    var selected: TShape?
    var offset: Vec3
    /** The number of 'change' events dispatched so far. */
    ghost var changeEvents: nat

    ghost predicate Valid()
      reads this
    {
      selected != null ==> selected in selectableObjects
    }

    constructor (selectables: seq<TShape>)
      ensures Valid()
      ensures selectableObjects == selectables && selected == null && offset == Origin && changeEvents == 0
    {
      selectableObjects := selectables;
      selected := null;
      offset := Origin;
      changeEvents := 0;
    }

    method FindSelectable(o: ObjectHit) returns (r: TShape?)
      ensures r == FirstSelectable(selectableObjects, o)
    {
      for i := 0 to |selectableObjects|
        invariant forall j :: 0 <= j < i ==> !Matches(selectableObjects[j], o)
      {
        if Matches(selectableObjects[i], o) {
          return selectableObjects[i];
        }
      }
      return null;
    }

    /** hit: the first object under the cursor, if any; plane: the ground-plane intersection, if any. */
    method OnMouseDown(hit: Option<ObjectHit>, plane: Option<PlaneHit>)
      requires Valid()
      modifies this, selectableObjects
      ensures Valid()
      ensures hit.None? || FirstSelectable(selectableObjects, hit.value) == null ==>
                && selected == old(selected) && offset == old(offset) && changeEvents == old(changeEvents)
                && forall t :: t in selectableObjects ==> unchanged(t)
      ensures hit.Some? && FirstSelectable(selectableObjects, hit.value) != null ==>
                var s := FirstSelectable(selectableObjects, hit.value);
                && selected == s
                && s.parts == Painted(old(s.parts), HIGHLIGHT_COLOR) && s.position == old(s.position)
                && offset == (if plane.Some? then plane.value.point.Sub(old(s.position)) else old(offset))
                && changeEvents == old(changeEvents) + 1
                && forall t :: t in selectableObjects && t != s ==> unchanged(t)
    {
      if hit.Some? {
        var selectable := FindSelectable(hit.value);
        if selectable != null {
          selected := selectable;
          selected.Highlight();
          if plane.Some? {
            offset := plane.value.point.Sub(selected.position);
          }
          changeEvents := changeEvents + 1;
        }
      }
    }

    /** plane: the ground-plane intersection under the cursor, if any. */
    method OnMouseMove(plane: Option<PlaneHit>)
      requires Valid()
      modifies this, selectableObjects
      ensures Valid() && selected == old(selected) && offset == old(offset)
      ensures old(selected) == null || plane.None? ==>
                changeEvents == old(changeEvents) && forall t :: t in selectableObjects ==> unchanged(t)
      ensures old(selected) != null && plane.Some? ==>
                && selected.position == Placement(plane.value, offset)
                && selected.parts == old(selected.parts)
                && changeEvents == old(changeEvents) + 1
                && forall t :: t in selectableObjects && t != selected ==> unchanged(t)
    {
      if selected == null {
        return;
      }
      if plane.Some? {
        selected.position := Placement(plane.value, offset);
        changeEvents := changeEvents + 1;
      }
    }

    /** plane: the ground-plane intersection under the cursor, if any. */
    method OnMouseUp(plane: Option<PlaneHit>)
      requires Valid()
      modifies this, selectableObjects
      ensures Valid() && selected == null && offset == old(offset)
      ensures old(selected) == null ==>
                changeEvents == old(changeEvents) && forall t :: t in selectableObjects ==> unchanged(t)
      ensures old(selected) != null ==>
                var s := old(selected);
                && s.position == (if plane.Some? then Placement(plane.value, offset) else old(s.position))
                && s.parts == Painted(old(s.parts), NO_COLOR)
                && changeEvents == old(changeEvents) + 1
                && forall t :: t in selectableObjects && t != s ==> unchanged(t)
    {
      if selected != null {
        if plane.Some? {
          selected.position := Placement(plane.value, offset);
        }
        selected.RemoveHighlight();
        changeEvents := changeEvents + 1;
        selected := null;
      }
    }
  }

  /**
   * Select a piece standing on the grid and drag it without moving the cursor:
   * the contracts of the handlers alone show it moves by exactly the face normal.
   */
  method GrabAndDragInPlace(c: SelectionController, piece: TShape, hit: ObjectHit, q: Vec3, n: Vec3)
    requires c.Valid() && piece in c.selectableObjects
    requires FirstSelectable(c.selectableObjects, hit) == piece
    requires IsIntegral(piece.position) && IsIntegral(n)
    modifies c, c.selectableObjects
    ensures c.selected == piece && piece.position == old(piece.position).Add(n)
    ensures c.changeEvents == old(c.changeEvents) + 2
  {
    c.OnMouseDown(Some(hit), Some(PlaneHit(q, Origin)));
    assert c.offset == q.Sub(old(piece.position));
    c.OnMouseMove(Some(PlaneHit(q, n)));
    GrabPointKept(old(piece.position), q, n);
  }
}
