/**
 * The grid floor (Floor.js): `lines + 1` segments parallel to the x axis and
 * as many parallel to the z axis, spaced `dimension / lines` apart across a
 * square of side `dimension` centred on the origin in the y = 0 plane, with
 * one upward normal per vertex. Vertices and normals are flat number lists,
 * three numbers per point, as the Float32Arrays hold them.
 */
module GridFloor {
  /** The coordinate of the k-th line: the loop counter after k steps. */
  function Coord(size: real, step: real, k: nat): real
  {
    -size + k as real * step
  }

  lemma LinesNext(size: real, step: real, k: nat)
    ensures XLines(size, step, k + 1) == XLines(size, step, k) + LineX(size, Coord(size, step, k))
    ensures ZLines(size, step, k + 1) == ZLines(size, step, k) + LineZ(size, Coord(size, step, k))
    ensures Coord(size, step, k + 1) == Coord(size, step, k) + step
  {
  }

  /** vertices.push(-size, 0, i, size, 0, i) */
  function LineX(size: real, i: real): seq<real>
  {
    [-size, 0.0, i, size, 0.0, i]
  }

  /** vertices.push(i, 0, -size, i, 0, size) */
  function LineZ(size: real, i: real): seq<real>
  {
    [i, 0.0, -size, i, 0.0, size]
  }

  /** The k-th segment (six numbers) of a vertex list. */
  function Segment(v: seq<real>, k: nat): seq<real>
    requires 6 * k + 6 <= |v|
  {
    v[6 * k..6 * k + 6]
  }

  /** The m-th point (three numbers) of a flat list. */
  function Point(v: seq<real>, m: nat): seq<real>
    requires 3 * m + 3 <= |v|
  {
    v[3 * m..3 * m + 3]
  }

  /** The segments the first loop has pushed after `count` iterations. */
  function XLines(size: real, step: real, count: nat): (r: seq<real>)
    ensures |r| == 6 * count
  {
    if count == 0 then [] else XLines(size, step, count - 1) + LineX(size, Coord(size, step, count - 1))
  }

  /** The segments the second loop has pushed after `count` iterations. */
  function ZLines(size: real, step: real, count: nat): (r: seq<real>)
    ensures |r| == 6 * count
  {
    if count == 0 then [] else ZLines(size, step, count - 1) + LineZ(size, Coord(size, step, count - 1))
  }

  /** The k-th segment of the first loop runs along x from -size to size at z = the k-th line coordinate. */
  lemma {:induction false} XLinesSegments(size: real, step: real, count: nat)
    ensures forall k :: 0 <= k < count ==> Segment(XLines(size, step, count), k) == LineX(size, Coord(size, step, k))
  {
    if count > 0 {
      XLinesSegments(size, step, count - 1);
      var prefix := XLines(size, step, count - 1);
      var r := XLines(size, step, count);
      assert forall k :: 0 <= k < count - 1 ==> Segment(r, k) == Segment(prefix, k);
      assert Segment(r, count - 1) == LineX(size, Coord(size, step, count - 1));
    }
  }

  /** The k-th segment of the second loop runs along z from -size to size at x = the k-th line coordinate. */
  lemma {:induction false} ZLinesSegments(size: real, step: real, count: nat)
    ensures forall k :: 0 <= k < count ==> Segment(ZLines(size, step, count), k) == LineZ(size, Coord(size, step, k))
  {
    if count > 0 {
      ZLinesSegments(size, step, count - 1);
      var prefix := ZLines(size, step, count - 1);
      var r := ZLines(size, step, count);
      assert forall k :: 0 <= k < count - 1 ==> Segment(r, k) == Segment(prefix, k);
      assert Segment(r, count - 1) == LineZ(size, Coord(size, step, count - 1));
    }
  }

  /**
   * With exact arithmetic the counter stays within [-size, size] for exactly
   * lines + 1 values k = 0..lines, so each loop runs lines + 1 times.
   */
  lemma CoordWithin(dimension: real, lines: nat, k: nat)
    requires dimension > 0.0 && lines >= 1
    ensures var size := dimension / 2.0;
            Coord(size, dimension / lines as real, k) <= size <==> k <= lines
    ensures -(dimension / 2.0) <= Coord(dimension / 2.0, dimension / lines as real, k)
  {
    var size, step := dimension / 2.0, dimension / lines as real;
    var x := k as real * step;
    assert Coord(size, step, k) == -size + x;
    assert size + size == dimension;
    assert step * lines as real == dimension;
    assert step > 0.0;
    if k <= lines {
      MulMonotone(k as real, lines as real, step);
      assert x <= dimension;
    } else {
      MulMonotone((lines + 1) as real, k as real, step);
      assert (lines + 1) as real * step == dimension + step;
      assert x > dimension;
    }
    MulMonotone(0.0, k as real, step);
    assert 0.0 <= x;
  }

  lemma MulMonotone(a: real, b: real, c: real)
    requires a <= b && c >= 0.0
    ensures a * c <= b * c
  {
  }

  /** With a negative dimension the counter starts above its bound and neither loop runs. */
  lemma NegativeDimensionNoLines(dimension: real, lines: nat)
    requires dimension < 0.0 && lines >= 1
    ensures !(Coord(dimension / 2.0, dimension / lines as real, 0) <= dimension / 2.0)
  {
  }

  /** How many times each loop of generateGrid runs. */
  function Runs(dimension: real, lines: nat): nat
  {
    if dimension > 0.0 then lines + 1 else 0
  }

  /** The loop condition `i <= size` holds after k steps iff fewer than Runs steps have been taken. */
  lemma LoopCondition(dimension: real, lines: nat, k: nat)
    requires dimension != 0.0 && lines >= 1 && k <= Runs(dimension, lines)
    ensures Coord(dimension / 2.0, dimension / lines as real, k) <= dimension / 2.0 <==> k < Runs(dimension, lines)
  {
    if dimension > 0.0 {
      CoordWithin(dimension, lines, k);
    } else {
      NegativeDimensionNoLines(dimension, lines);
    }
  }

  /** The vertices generateGrid produces for a non-zero dimension and a whole number of lines. */
  function GridVertices(dimension: real, lines: nat): seq<real>
    requires lines >= 1
  {
    var size := dimension / 2.0;
    var step := dimension / lines as real;
    XLines(size, step, Runs(dimension, lines)) + ZLines(size, step, Runs(dimension, lines))
  }

  /** normals.push(0, 1, 0) `count` times. */
  function UpNormals(count: nat): (r: seq<real>)
    ensures |r| == 3 * count
    ensures forall m :: 0 <= m < count ==> Point(r, m) == [0.0, 1.0, 0.0]
  {
    if count == 0 then []
    else
      var prefix := UpNormals(count - 1);
      var r := prefix + [0.0, 1.0, 0.0];
      assert forall m :: 0 <= m < count - 1 ==> Point(r, m) == Point(prefix, m);
      r
  }

  /** Every point of the list has y = 0 and x and z within [-size, size]. */
  ghost predicate FlatWithin(v: seq<real>, size: real)
  {
    |v| % 3 == 0
    && forall m :: 0 <= m < |v| / 3 ==>
         Point(v, m)[1] == 0.0 && -size <= Point(v, m)[0] <= size && -size <= Point(v, m)[2] <= size
  }

  lemma FlatWithinAppend(a: seq<real>, b: seq<real>, size: real)
    requires FlatWithin(a, size) && FlatWithin(b, size)
    ensures FlatWithin(a + b, size)
  {
    var v := a + b;
    forall m | 0 <= m < |v| / 3
      ensures Point(v, m)[1] == 0.0 && -size <= Point(v, m)[0] <= size && -size <= Point(v, m)[2] <= size
    {
      if m < |a| / 3 {
        assert Point(v, m) == Point(a, m);
      } else {
        assert Point(v, m) == Point(b, m - |a| / 3);
      }
    }
  }

  lemma {:induction false} XLinesFlat(dimension: real, lines: nat, count: nat)
    requires dimension > 0.0 && lines >= 1 && count <= lines + 1
    ensures FlatWithin(XLines(dimension / 2.0, dimension / lines as real, count), dimension / 2.0)
  {
    var size := dimension / 2.0;
    var step := dimension / lines as real;
    if count > 0 {
      XLinesFlat(dimension, lines, count - 1);
      CoordWithin(dimension, lines, count - 1);
      var l := LineX(size, Coord(size, step, count - 1));
      assert Point(l, 0) == [-size, 0.0, Coord(size, step, count - 1)];
      assert Point(l, 1) == [size, 0.0, Coord(size, step, count - 1)];
      FlatWithinAppend(XLines(size, step, count - 1), l, size);
    }
  }

  lemma {:induction false} ZLinesFlat(dimension: real, lines: nat, count: nat)
    requires dimension > 0.0 && lines >= 1 && count <= lines + 1
    ensures FlatWithin(ZLines(dimension / 2.0, dimension / lines as real, count), dimension / 2.0)
  {
    var size := dimension / 2.0;
    var step := dimension / lines as real;
    if count > 0 {
      ZLinesFlat(dimension, lines, count - 1);
      CoordWithin(dimension, lines, count - 1);
      var l := LineZ(size, Coord(size, step, count - 1));
      assert Point(l, 0) == [Coord(size, step, count - 1), 0.0, -size];
      assert Point(l, 1) == [Coord(size, step, count - 1), 0.0, size];
      FlatWithinAppend(ZLines(size, step, count - 1), l, size);
    }
  }

  /**
   * The grid has 12 (lines + 1) numbers, 4 (lines + 1) points, all in the
   * y = 0 plane within the square [-dimension/2, dimension/2]^2; the first
   * 2 (lines + 1) points are the x-parallel segments, the rest z-parallel.
   */
  lemma GridShape(dimension: real, lines: nat)
    requires dimension > 0.0 && lines >= 1
    ensures var v := GridVertices(dimension, lines);
            var size := dimension / 2.0;
            var step := dimension / lines as real;
            && |v| == 12 * (lines + 1)
            && FlatWithin(v, size)
            && v[..6 * (lines + 1)] == XLines(size, step, lines + 1)
            && v[6 * (lines + 1)..] == ZLines(size, step, lines + 1)
  {
    XLinesFlat(dimension, lines, lines + 1);
    ZLinesFlat(dimension, lines, lines + 1);
    var size := dimension / 2.0;
    var step := dimension / lines as real;
    FlatWithinAppend(XLines(size, step, lines + 1), ZLines(size, step, lines + 1), size);
  }

  class Floor {
    const dimension: real
    const lines: nat
    var wireframe: bool
    var vertices: seq<real>
    var normals: seq<real>
    var color: seq<real>

    /** dimension = 0 would never end the loops (the step is 0), and lines = 0 makes the step an infinite quotient, which exact reals do not have. */
    constructor (dimension0: real, lines0: nat)
      requires dimension0 != 0.0 && lines0 >= 1
      ensures dimension == dimension0 && lines == lines0 && wireframe
      ensures vertices == GridVertices(dimension, lines)
      ensures normals == UpNormals(|vertices| / 3)
      ensures color == [0.5, 0.5, 0.5, 1.0]
    {
      dimension := dimension0;
      lines := lines0;
      wireframe := true;
      new;
      GenerateGrid();
    }

    method GenerateGrid()
      requires dimension != 0.0 && lines >= 1
      modifies this
      ensures vertices == GridVertices(dimension, lines)
      ensures normals == UpNormals(|vertices| / 3)
      ensures color == [0.5, 0.5, 0.5, 1.0] && wireframe == old(wireframe)
    {
      var xs := PushXLines(dimension, lines);
      var zs := PushZLines(dimension, lines);
      vertices := xs + zs;
      normals := PushNormals(|vertices| / 3);
      color := [0.5, 0.5, 0.5, 1.0];
    }
  }

  /** The first loop of generateGrid: for (i = -size; i <= size; i += step), a segment along x. */
  method PushXLines(dimension: real, lines: nat) returns (vs: seq<real>)
    requires dimension != 0.0 && lines >= 1
    ensures vs == XLines(dimension / 2.0, dimension / lines as real, Runs(dimension, lines))
  {
    var size := dimension / 2.0;
    var step := dimension / lines as real;
    ghost var count := Runs(dimension, lines);
    vs := [];
    var i := -size;
    ghost var k: nat := 0;
    while i <= size
      invariant k <= count && i == Coord(size, step, k)
      invariant vs == XLines(size, step, k)
      decreases count - k
    {
      LoopCondition(dimension, lines, k);
      LinesNext(size, step, k);
      vs := vs + LineX(size, i);
      i := i + step;
      k := k + 1;
    }
    LoopCondition(dimension, lines, k);
  }

  /** The second loop of generateGrid: the same counter, a segment along z. */
  method PushZLines(dimension: real, lines: nat) returns (vs: seq<real>)
    requires dimension != 0.0 && lines >= 1
    ensures vs == ZLines(dimension / 2.0, dimension / lines as real, Runs(dimension, lines))
  {
    var size := dimension / 2.0;
    var step := dimension / lines as real;
    ghost var count := Runs(dimension, lines);
    vs := [];
    var i := -size;
    ghost var k: nat := 0;
    while i <= size
      invariant k <= count && i == Coord(size, step, k)
      invariant vs == ZLines(size, step, k)
      decreases count - k
    {
      LoopCondition(dimension, lines, k);
      LinesNext(size, step, k);
      vs := vs + LineZ(size, i);
      i := i + step;
      k := k + 1;
    }
    LoopCondition(dimension, lines, k);
  }

  /** The normals loop: one (0, 1, 0) per vertex. */
  method PushNormals(count: nat) returns (ns: seq<real>)
    ensures ns == UpNormals(count)
  {
    ns := [];
    for j := 0 to count
      invariant ns == UpNormals(j)
    {
      ns := ns + [0.0, 1.0, 0.0];
    }
  }

  /** One upward normal per vertex: the normals list is as long as the vertex list. */
  lemma NormalsMatchVertices(dimension: real, lines: nat)
    requires dimension > 0.0 && lines >= 1
    ensures var v := GridVertices(dimension, lines);
            |UpNormals(|v| / 3)| == |v| == 12 * (lines + 1)
  {
    GridShape(dimension, lines);
  }
}
