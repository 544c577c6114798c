/**
 * The rotation gizmo: three rings tagged 'x', 'y' and 'z'. Dragging a ring
 * accumulates a continuous angle and turns the attached object in whole
 * quarter turns once the accumulated angle crosses an eighth of a turn.
 * Object3D.rotateX/Y/Z are recorded as entries appended to the target's
 * rotation log.
 */
module Gizmo {
  import opened JsMath
  import opened Vectors
  import opened Options

  const SENSITIVITY: real := 0.02
  /** Math.PI / 4: the accumulated angle at which a quarter turn is applied. */
  const SNAP_THRESHOLD: real := PI / 4.0
  /** Math.PI / 2: one quarter turn. */
  const SNAP_STEP: real := PI / 2.0

  datatype Axis = X | Y | Z

  /** A call target.rotateX/Y/Z(steps * SNAP_STEP). */
  datatype Turn = Turn(axis: Axis, steps: int)

  /** The object the gizmo turns: its position and the turns applied to it so far. */
  class Object3D {
    var position: Vec3
    var rotations: seq<Turn>

    constructor (p: Vec3)
      ensures position == p && rotations == []
    {
      position := p;
      rotations := [];
    }
  }

  /** The axis named by a ring's userData.axis; any other value is not recognised. */
  function AxisOf(name: string): Option<Axis>
  {
    if name == "x" then Some(X) else if name == "y" then Some(Y) else if name == "z" then Some(Z) else None
  }

  /** The angle one mouse move adds: vertical motion for the x and z rings, horizontal for y. */
  function DeltaAngle(axis: Axis, movementX: real, movementY: real): real
  {
    match axis
    case X => movementY * SENSITIVITY
    case Y => movementX * SENSITIVITY
    case Z => movementY * SENSITIVITY
  }

  /** The accumulator window that remains after snapping. */
  predicate Settled(a: real)
  {
    -SNAP_THRESHOLD < a <= SNAP_THRESHOLD
  }

  /** Closed form of the net number of quarter turns the two loops take out of v. */
  function SnapSteps(v: real): int
  {
    -((SNAP_THRESHOLD - v) / SNAP_STEP).Floor
  }

  /** The net turns leave v inside the settled window, and no other count does. */
  lemma SnapStepsCharacterised(v: real, k: int)
    ensures Settled(v - SnapSteps(v) as real * SNAP_STEP)
    ensures Settled(v - k as real * SNAP_STEP) ==> k == SnapSteps(v)
  {
    var f := ((SNAP_THRESHOLD - v) / SNAP_STEP).Floor;
    assert f as real <= (SNAP_THRESHOLD - v) / SNAP_STEP < f as real + 1.0;
    assert f as real * SNAP_STEP <= SNAP_THRESHOLD - v < f as real * SNAP_STEP + SNAP_STEP;
    if Settled(v - k as real * SNAP_STEP) {
      assert -SNAP_THRESHOLD < v - k as real * SNAP_STEP <= SNAP_THRESHOLD;
      assert (-k) as real * SNAP_STEP <= SNAP_THRESHOLD - v < (-k) as real * SNAP_STEP + SNAP_STEP;
      if -k < f {
        assert (-k + 1) as real * SNAP_STEP <= f as real * SNAP_STEP;
      }
    }
  }

  /** Shifting the input by whole turns shifts the count by the same amount. */
  lemma SnapStepsShift(v: real, k: int)
    ensures SnapSteps(v - k as real * SNAP_STEP) == SnapSteps(v) - k
  {
    var w := v - k as real * SNAP_STEP;
    SnapStepsCharacterised(v, 0);
    SnapStepsCharacterised(w, SnapSteps(v) - k);
    assert w - (SnapSteps(v) - k) as real * SNAP_STEP == v - SnapSteps(v) as real * SNAP_STEP;
  }

  /** The accumulator after snapping. */
  function Settle(v: real): real
  {
    v - SnapSteps(v) as real * SNAP_STEP
  }

  /** Net turns of a run of mouse moves; the accumulator goes from a to Settle of the running sum. */
  function TurnsOver(a: real, deltas: seq<real>): int
    decreases |deltas|
  {
    if deltas == [] then 0 else SnapSteps(a + deltas[0]) + TurnsOver(Settle(a + deltas[0]), deltas[1..])
  }

  function Sum(deltas: seq<real>): real
    decreases |deltas|
  {
    if deltas == [] then 0.0 else deltas[0] + Sum(deltas[1..])
  }

  /**
   * Over any run of mouse moves the turns applied add up to what one move by
   * the total would give: small moves are never lost, they accumulate.
   */
  lemma {:induction false} TurnsOverTotal(a: real, deltas: seq<real>)
    requires Settled(a)
    ensures TurnsOver(a, deltas) == SnapSteps(a + Sum(deltas))
    decreases |deltas|
  {
    if deltas != [] {
      var v := a + deltas[0];
      var rest := deltas[1..];
      var w := v + Sum(rest);
      var k := SnapSteps(v);
      assert a + Sum(deltas) == w;
      assert TurnsOver(a, deltas) == k + TurnsOver(Settle(v), rest);
      SnapStepsCharacterised(v, k);
      TurnsOverTotal(Settle(v), rest);
      assert Settle(v) + Sum(rest) == w - k as real * SNAP_STEP;
      SnapStepsShift(w, k);
      assert TurnsOver(Settle(v), rest) == SnapSteps(w) - k;
    } else {
      SnapStepsCharacterised(a, 0);
    }
  }

  /** The accumulator a run of mouse moves leaves, starting from a. */
  function AccumulatorAfter(a: real, deltas: seq<real>): real
    decreases |deltas|
  {
    if deltas == [] then a else AccumulatorAfter(Settle(a + deltas[0]), deltas[1..])
  }

  /** The quarter turns each mouse move of a run applies, in order. */
  function StepsPerMove(a: real, deltas: seq<real>): (steps: seq<int>)
    ensures |steps| == |deltas|
    decreases |deltas|
  {
    if deltas == [] then [] else [SnapSteps(a + deltas[0])] + StepsPerMove(Settle(a + deltas[0]), deltas[1..])
  }

  /** After any run of mouse moves the accumulator holds what one move by the total would leave. */
  lemma {:induction false} AccumulatorAfterTotal(a: real, deltas: seq<real>)
    requires Settled(a)
    ensures AccumulatorAfter(a, deltas) == Settle(a + Sum(deltas))
    decreases |deltas|
  {
    if deltas != [] {
      var v := a + deltas[0];
      var rest := deltas[1..];
      var w := v + Sum(rest);
      var k := SnapSteps(v);
      assert a + Sum(deltas) == w;
      SnapStepsCharacterised(v, k);
      AccumulatorAfterTotal(Settle(v), rest);
      assert Settle(v) + Sum(rest) == w - k as real * SNAP_STEP;
      SnapStepsShift(w, k);
      assert Settle(w - k as real * SNAP_STEP) == Settle(w);
    } else {
      SnapStepsCharacterised(a, 0);
    }
  }

  /** An accumulator inside the settled window takes no turn and is kept as it is. */
  lemma SettledStays(v: real)
    requires Settled(v)
    ensures SnapSteps(v) == 0 && Settle(v) == v
  {
    SnapStepsCharacterised(v, 0);
  }

  /**
   * Eight moves of a sixteenth of a turn each, from a reset accumulator: the
   * fifth move, the first to pass an eighth of a turn, applies the one quarter
   * turn, no other move turns, and the accumulator ends back at zero.
   */
  lemma EightSixteenthsMakeOneTurn()
    ensures TurnsOver(0.0, seq(8, _ => PI / 16.0)) == 1
    ensures StepsPerMove(0.0, seq(8, _ => PI / 16.0)) == [0, 0, 0, 0, 1, 0, 0, 0]
    ensures AccumulatorAfter(0.0, seq(8, _ => PI / 16.0)) == 0.0
  {
    var d := PI / 16.0;
    var ds := seq(8, _ => PI / 16.0);
    assert ds == [d, d, d, d, d, d, d, d];
    assert Sum(ds[7..]) == d;
    assert Sum(ds[6..]) == 2.0 * d;
    assert Sum(ds[5..]) == 3.0 * d;
    assert Sum(ds[4..]) == 4.0 * d;
    assert Sum(ds[3..]) == 5.0 * d;
    assert Sum(ds[2..]) == 6.0 * d;
    assert Sum(ds[1..]) == 7.0 * d;
    assert Sum(ds) == SNAP_STEP;
    TurnsOverTotal(0.0, ds);
    AccumulatorAfterTotal(0.0, ds);
    SnapStepsCharacterised(SNAP_STEP, 1);
    SixteenthSteps(d);
  }

  /** The per-move turns of eight sixteenths, one accumulator value at a time. */
  lemma SixteenthSteps(d: real)
    requires d == PI / 16.0
    ensures StepsPerMove(0.0, [d, d, d, d, d, d, d, d]) == [0, 0, 0, 0, 1, 0, 0, 0]
  {
    SettledStays(-d + d);
    assert StepsPerMove(-d, [d]) == [0];
    SettledStays(-2.0 * d + d);
    assert StepsPerMove(-2.0 * d, [d, d]) == [0, 0];
    SettledStays(-3.0 * d + d);
    assert StepsPerMove(-3.0 * d, [d, d, d]) == [0, 0, 0];
    SnapStepsCharacterised(4.0 * d + d, 1);
    assert Settle(4.0 * d + d) == -3.0 * d;
    assert StepsPerMove(4.0 * d, [d, d, d, d]) == [1, 0, 0, 0];
    SettledStays(3.0 * d + d);
    assert StepsPerMove(3.0 * d, [d, d, d, d, d]) == [0, 1, 0, 0, 0];
    SettledStays(2.0 * d + d);
    assert StepsPerMove(2.0 * d, [d, d, d, d, d, d]) == [0, 0, 1, 0, 0, 0];
    SettledStays(d + d);
    assert StepsPerMove(d, [d, d, d, d, d, d, d]) == [0, 0, 0, 1, 0, 0, 0];
    SettledStays(0.0 + d);
  }

  class TransformControls {
    const axisSize: real
    /** userData.axis of the three rings createGizmos adds. */
    const ringAxes: seq<string>
    var selectedAxis: Option<string>
    var rotateActive: bool
    var targetObject: Object3D?
    var accumulatedDelta: real
    var visible: bool
    var position: Vec3
    var rotation: seq<Turn>

    constructor ()
      ensures axisSize == 2.0 && ringAxes == ["x", "y", "z"]
      ensures forall i :: 0 <= i < |ringAxes| ==> AxisOf(ringAxes[i]).Some?
      ensures selectedAxis == None && !rotateActive && targetObject == null && accumulatedDelta == 0.0
      ensures visible && position == Origin && rotation == []
    {
      axisSize := 2.0;
      ringAxes := ["x", "y", "z"];
      selectedAxis := None;
      rotateActive := false;
      targetObject := null;
      accumulatedDelta := 0.0;
      visible := true;
      position := Origin;
      rotation := [];
    }

    /**
     * One mouse move. Returns the net quarter turns applied (0 when the move
     * is ignored) so that callers can see the conservation law.
     */
    method HandleMouseMove(movementX: real, movementY: real) returns (steps: int)
      modifies this, targetObject
      ensures targetObject == old(targetObject) && selectedAxis == old(selectedAxis) && rotateActive == old(rotateActive)
      ensures visible == old(visible) && position == old(position) && rotation == old(rotation)
      ensures !old(rotateActive) || old(targetObject) == null || old(selectedAxis).None? || AxisOf(old(selectedAxis).value).None? ==>
                steps == 0 && accumulatedDelta == old(accumulatedDelta)
                && (old(targetObject) != null ==> unchanged(old(targetObject)))
      ensures old(rotateActive) && old(targetObject) != null && old(selectedAxis).Some? && AxisOf(old(selectedAxis).value).Some? ==>
                var axis := AxisOf(selectedAxis.value).value;
                var v := old(accumulatedDelta) + DeltaAngle(axis, movementX, movementY);
                && steps as real * SNAP_STEP + accumulatedDelta == v
                && Settled(accumulatedDelta)
                && steps == SnapSteps(v) && accumulatedDelta == Settle(v)
                && targetObject.position == old(targetObject.position)
                && targetObject.rotations == old(targetObject.rotations) + (if steps != 0 then [Turn(axis, steps)] else [])
    {
      steps := 0;
      if !rotateActive || targetObject == null || selectedAxis.None? {
        return;
      }
      var axis := AxisOf(selectedAxis.value);
      if axis.None? {
        return;
      }
      var deltaAngle := DeltaAngle(axis.value, movementX, movementY);
      var acc := accumulatedDelta + deltaAngle;
      ghost var v := acc;

      while acc >= SNAP_THRESHOLD
        invariant steps as real * SNAP_STEP + acc == v
        invariant steps >= 0
        decreases ((acc - SNAP_THRESHOLD) / SNAP_STEP).Floor
      {
        steps := steps + 1;
        acc := acc - SNAP_STEP;
      }

      while acc <= -SNAP_THRESHOLD
        invariant steps as real * SNAP_STEP + acc == v
        invariant acc <= SNAP_THRESHOLD
        decreases ((-SNAP_THRESHOLD - acc) / SNAP_STEP).Floor
      {
        steps := steps - 1;
        acc := acc + SNAP_STEP;
      }

      accumulatedDelta := acc;
      SnapStepsCharacterised(v, steps);
      if steps != 0 {
        targetObject.rotations := targetObject.rotations + [Turn(axis.value, steps)];
      }
    }

    method Attach(obj: Object3D)
      modifies this
      ensures targetObject == obj && visible
      ensures position == obj.position && rotation == obj.rotations
      ensures selectedAxis == old(selectedAxis) && rotateActive == old(rotateActive) && accumulatedDelta == old(accumulatedDelta)
    {
      targetObject := obj;
      visible := true;
      position := obj.position;
      rotation := obj.rotations;
    }

    method Detach()
      modifies this
      ensures targetObject == null && !visible
      ensures position == old(position) && rotation == old(rotation)
      ensures selectedAxis == old(selectedAxis) && rotateActive == old(rotateActive) && accumulatedDelta == old(accumulatedDelta)
    {
      targetObject := null;
      visible := false;
    }

    /** intersect: the gizmo object under the cursor, if any, given by its userData.axis (None: unset). */
    method HandleMouseDown(intersect: Option<Option<string>>) returns (grabbed: bool)
      modifies this
      ensures grabbed <==> intersect.Some? && intersect.value.Some? && intersect.value.value != ""
      ensures grabbed ==> selectedAxis == intersect.value && rotateActive && accumulatedDelta == 0.0
      ensures !grabbed ==> selectedAxis == old(selectedAxis) && rotateActive == old(rotateActive)
                           && accumulatedDelta == old(accumulatedDelta)
      ensures targetObject == old(targetObject) && visible == old(visible)
      ensures position == old(position) && rotation == old(rotation)
    {
      if intersect.Some? && intersect.value.Some? && intersect.value.value != "" {
        selectedAxis := intersect.value;
        rotateActive := true;
        accumulatedDelta := 0.0;
        return true;
      }
      return false;
    }

    method HandleMouseUp()
      modifies this
      ensures !rotateActive && selectedAxis == None
      ensures targetObject == old(targetObject) && accumulatedDelta == old(accumulatedDelta)
      ensures visible == old(visible) && position == old(position) && rotation == old(rotation)
    {
      rotateActive := false;
      selectedAxis := None;
    }
  }
}
