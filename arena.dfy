/**
 * The arena level (arena/arena.js): a text map split into rows, one voxel per
 * character, `S` cells becoming spawn points on the floor and `X` cells
 * becoming wall boxes standing on it; and the keydown handler that turns
 * arrow and WASD key codes into movement flags of the player.
 */
module Arena {
  import opened Vectors

  const HORIZONTAL_UNIT: real := 100.0
  const VERTICAL_UNIT: real := 100.0

  /** The level map, row by row as the source writes it. */
  const MAP_ROWS: seq<string> := [
    "XXXXXXX ",
    "X     X ",
    "X  S  X ",
    "X     X ",
    "X   S XXX",
    "XXX     X",
    " XX   S X",
    "  X     X",
    "   XXXXXX"]

  /** The map literal: the rows joined by newlines. */
  const MAP: string := "XXXXXXX \n" + "X     X \n" + "X  S  X \n" + "X     X \n" + "X   S XXX\n"
                       + "XXX     X\n" + " XX   S X\n" + "  X     X\n" + "   XXXXXX"

  // ---------------------------------------------------------------------------
  // String.prototype.split with a one-character separator

  /** The index of the first occurrence of c, or |s|. */
  function IndexOf(s: string, c: char): (n: nat)
    ensures n <= |s| && (forall k :: 0 <= k < n ==> s[k] != c) && (n < |s| ==> s[n] == c)
  {
    if s == [] || s[0] == c then 0 else 1 + IndexOf(s[1..], c)
  }

  /** s.split(c): the pieces between occurrences of c, empty ones included, so never an empty list. */
  function SplitOn(s: string, c: char): (r: seq<string>)
    ensures |r| >= 1
    ensures forall k, i :: 0 <= k < |r| && 0 <= i < |r[k]| ==> r[k][i] != c
    decreases |s|
  {
    var n := IndexOf(s, c);
    if n == |s| then [s] else [s[..n]] + SplitOn(s[n + 1..], c)
  }

  /** pieces.join(c) */
  function JoinWith(pieces: seq<string>, c: char): string
    requires |pieces| >= 1
    decreases |pieces|
  {
    if |pieces| == 1 then pieces[0] else pieces[0] + [c] + JoinWith(pieces[1..], c)
  }

  /** Splitting on c undoes joining with c, for pieces free of c. */
  lemma {:induction false} SplitJoin(pieces: seq<string>, c: char)
    requires |pieces| >= 1
    requires forall k, i :: 0 <= k < |pieces| && 0 <= i < |pieces[k]| ==> pieces[k][i] != c
    ensures SplitOn(JoinWith(pieces, c), c) == pieces
    decreases |pieces|
  {
    var p := pieces[0];
    var s := JoinWith(pieces, c);
    if |pieces| == 1 {
      assert IndexOf(s, c) == |s| by { IndexOfFree(p, [], c); }
    } else {
      var rest := JoinWith(pieces[1..], c);
      assert s == p + ([c] + rest);
      IndexOfFree(p, [c] + rest, c);
      assert s[..|p|] == p && s[|p| + 1..] == rest;
      SplitJoin(pieces[1..], c);
    }
  }

  lemma IndexOfFree(p: string, rest: string, c: char)
    requires forall i :: 0 <= i < |p| ==> p[i] != c
    requires rest == [] || rest[0] == c
    ensures IndexOf(p + rest, c) == |p|
    decreases |p|
  {
    if p != [] {
      assert (p + rest)[1..] == p[1..] + rest;
      IndexOfFree(p[1..], rest, c);
    } else {
      assert p + rest == rest;
    }
  }

  /** Joining with c followed by splitting on c gives back any string: split loses nothing. */
  lemma {:induction false} JoinSplit(s: string, c: char)
    ensures JoinWith(SplitOn(s, c), c) == s
    decreases |s|
  {
    var n := IndexOf(s, c);
    var ps := SplitOn(s, c);
    if n < |s| {
      var rest := SplitOn(s[n + 1..], c);
      assert ps == [s[..n]] + rest;
      assert |ps| > 1 && ps[0] == s[..n] && ps[1..] == rest;
      assert JoinWith(ps, c) == s[..n] + [c] + JoinWith(rest, c);
      JoinSplit(s[n + 1..], c);
      assert s == s[..n] + [c] + s[n + 1..];
    } else {
      assert ps == [s];
    }
  }

  // ---------------------------------------------------------------------------
  // Voxel coordinates

  /** ZSIZE: the number of rows times the unit. */
  function DepthOf(rows: seq<string>): real
  {
    |rows| as real * HORIZONTAL_UNIT
  }

  /** XSIZE: the length of the FIRST row times the unit. */
  function WidthOf(rows: seq<string>): real
    requires |rows| >= 1
  {
    |rows[0]| as real * HORIZONTAL_UNIT
  }

  /** z = (row + 1) * HORIZONTAL_UNIT - ZSIZE * 0.5 */
  function VoxelZ(row: nat, zSize: real): real
  {
    (row + 1) as real * HORIZONTAL_UNIT - zSize * 0.5
  }

  /** x = (col + 1) * HORIZONTAL_UNIT - XSIZE * 0.5 */
  function VoxelX(col: nat, xSize: real): real
  {
    (col + 1) as real * HORIZONTAL_UNIT - xSize * 0.5
  }

  /**
   * Rows map to z in steps of one unit from -ZSIZE/2 + 100 up to ZSIZE/2, and
   * so do the columns of a row as long as the first row.
   */
  lemma VoxelRanges(rows: seq<string>, row: nat, col: nat)
    requires |rows| >= 1 && row < |rows| && col < |rows[0]|
    ensures -DepthOf(rows) * 0.5 + HORIZONTAL_UNIT <= VoxelZ(row, DepthOf(rows)) <= DepthOf(rows) * 0.5
    ensures -WidthOf(rows) * 0.5 + HORIZONTAL_UNIT <= VoxelX(col, WidthOf(rows)) <= WidthOf(rows) * 0.5
    ensures VoxelZ(row + 1, DepthOf(rows)) == VoxelZ(row, DepthOf(rows)) + HORIZONTAL_UNIT
  {
  }

  /** The spawn points of one row, in column order. */
  function RowSpawns(row: string, i: nat, zSize: real, xSize: real): seq<Vec3>
    decreases |row|
  {
    if row == [] then []
    else
      var j := |row| - 1;
      RowSpawns(row[..j], i, zSize, xSize) + (if row[j] == 'S' then [Vec3(VoxelX(j, xSize), 0.0, VoxelZ(i, zSize))] else [])
  }

  /** The spawn points of the given rows, in row-major order. */
  function GridSpawns(rows: seq<string>, zSize: real, xSize: real): seq<Vec3>
    decreases |rows|
  {
    if rows == [] then []
    else GridSpawns(rows[..|rows| - 1], zSize, xSize) + RowSpawns(rows[|rows| - 1], |rows| - 1, zSize, xSize)
  }

  /** The wall-box centres of one row, in column order. */
  function RowBlocks(row: string, i: nat, zSize: real, xSize: real): seq<Vec3>
    decreases |row|
  {
    if row == [] then []
    else
      var j := |row| - 1;
      RowBlocks(row[..j], i, zSize, xSize)
      + (if row[j] == 'X' then [Vec3(VoxelX(j, xSize), VERTICAL_UNIT * 0.5, VoxelZ(i, zSize))] else [])
  }

  function GridBlocks(rows: seq<string>, zSize: real, xSize: real): seq<Vec3>
    decreases |rows|
  {
    if rows == [] then []
    else GridBlocks(rows[..|rows| - 1], zSize, xSize) + RowBlocks(rows[|rows| - 1], |rows| - 1, zSize, xSize)
  }

  /** One spawn point per `S` of the row, each at the cell's x and z on the floor, and nothing else. */
  lemma {:induction false} RowSpawnsAreCells(row: string, i: nat, zSize: real, xSize: real)
    ensures forall p :: p in RowSpawns(row, i, zSize, xSize) <==>
              exists j :: 0 <= j < |row| && row[j] == 'S' && p == Vec3(VoxelX(j, xSize), 0.0, VoxelZ(i, zSize))
    decreases |row|
  {
    if row != [] {
      var j := |row| - 1;
      RowSpawnsAreCells(row[..j], i, zSize, xSize);
      forall p
        ensures p in RowSpawns(row, i, zSize, xSize) <==>
                exists j' :: 0 <= j' < |row| && row[j'] == 'S' && p == Vec3(VoxelX(j', xSize), 0.0, VoxelZ(i, zSize))
      {
        if p in RowSpawns(row, i, zSize, xSize) && p !in RowSpawns(row[..j], i, zSize, xSize) {
          assert row[j] == 'S' && p == Vec3(VoxelX(j, xSize), 0.0, VoxelZ(i, zSize));
        }
        if exists j' :: 0 <= j' < |row| && row[j'] == 'S' && p == Vec3(VoxelX(j', xSize), 0.0, VoxelZ(i, zSize)) {
          var j' :| 0 <= j' < |row| && row[j'] == 'S' && p == Vec3(VoxelX(j', xSize), 0.0, VoxelZ(i, zSize));
          if j' < j {
            assert row[..j][j'] == 'S';
          }
        }
      }
    }
  }

  /** One wall box per `X` of the row, each half a unit up at the cell's x and z, and nothing else. */
  lemma {:induction false} RowBlocksAreCells(row: string, i: nat, zSize: real, xSize: real)
    ensures forall p :: p in RowBlocks(row, i, zSize, xSize) <==>
              exists j :: 0 <= j < |row| && row[j] == 'X' && p == Vec3(VoxelX(j, xSize), VERTICAL_UNIT * 0.5, VoxelZ(i, zSize))
    decreases |row|
  {
    if row != [] {
      var j := |row| - 1;
      RowBlocksAreCells(row[..j], i, zSize, xSize);
      forall p
        ensures p in RowBlocks(row, i, zSize, xSize) <==>
                exists j' :: 0 <= j' < |row| && row[j'] == 'X' && p == Vec3(VoxelX(j', xSize), VERTICAL_UNIT * 0.5, VoxelZ(i, zSize))
      {
        if p in RowBlocks(row, i, zSize, xSize) && p !in RowBlocks(row[..j], i, zSize, xSize) {
          assert row[j] == 'X' && p == Vec3(VoxelX(j, xSize), VERTICAL_UNIT * 0.5, VoxelZ(i, zSize));
        }
        if exists j' :: 0 <= j' < |row| && row[j'] == 'X' && p == Vec3(VoxelX(j', xSize), VERTICAL_UNIT * 0.5, VoxelZ(i, zSize)) {
          var j' :| 0 <= j' < |row| && row[j'] == 'X' && p == Vec3(VoxelX(j', xSize), VERTICAL_UNIT * 0.5, VoxelZ(i, zSize));
          if j' < j {
            assert row[..j][j'] == 'X';
          }
        }
      }
    }
  }

  /** The spawn points of a map are the floor cells of its `S` characters, over every row and column. */
  lemma {:induction false} GridSpawnsAreCells(rows: seq<string>, zSize: real, xSize: real)
    ensures forall p :: p in GridSpawns(rows, zSize, xSize) <==>
              exists i, j :: 0 <= i < |rows| && 0 <= j < |rows[i]| && rows[i][j] == 'S' && p == Vec3(VoxelX(j, xSize), 0.0, VoxelZ(i, zSize))
    decreases |rows|
  {
    if rows != [] {
      var i := |rows| - 1;
      var init := rows[..i];
      GridSpawnsAreCells(init, zSize, xSize);
      RowSpawnsAreCells(rows[i], i, zSize, xSize);
      assert GridSpawns(rows, zSize, xSize) == GridSpawns(init, zSize, xSize) + RowSpawns(rows[i], i, zSize, xSize);
      forall p
        ensures p in GridSpawns(rows, zSize, xSize) <==>
                exists i', j :: 0 <= i' < |rows| && 0 <= j < |rows[i']| && rows[i'][j] == 'S' && p == Vec3(VoxelX(j, xSize), 0.0, VoxelZ(i', zSize))
      {
        if p in GridSpawns(init, zSize, xSize) {
          var i', j :| 0 <= i' < |init| && 0 <= j < |init[i']| && init[i'][j] == 'S' && p == Vec3(VoxelX(j, xSize), 0.0, VoxelZ(i', zSize));
          assert rows[i'] == init[i'];
        } else if p in RowSpawns(rows[i], i, zSize, xSize) {
          var j :| 0 <= j < |rows[i]| && rows[i][j] == 'S' && p == Vec3(VoxelX(j, xSize), 0.0, VoxelZ(i, zSize));
        }
        if exists i', j :: 0 <= i' < |rows| && 0 <= j < |rows[i']| && rows[i'][j] == 'S' && p == Vec3(VoxelX(j, xSize), 0.0, VoxelZ(i', zSize)) {
          var i', j :| 0 <= i' < |rows| && 0 <= j < |rows[i']| && rows[i'][j] == 'S' && p == Vec3(VoxelX(j, xSize), 0.0, VoxelZ(i', zSize));
          if i' < i {
            assert init[i'][j] == 'S';
          }
        }
      }
    }
  }

  /** The wall boxes of a map are the raised cells of its `X` characters, over every row and column. */
  lemma {:induction false} GridBlocksAreCells(rows: seq<string>, zSize: real, xSize: real)
    ensures forall p :: p in GridBlocks(rows, zSize, xSize) <==>
              exists i, j :: 0 <= i < |rows| && 0 <= j < |rows[i]| && rows[i][j] == 'X' && p == Vec3(VoxelX(j, xSize), VERTICAL_UNIT * 0.5, VoxelZ(i, zSize))
    decreases |rows|
  {
    if rows != [] {
      var i := |rows| - 1;
      var init := rows[..i];
      GridBlocksAreCells(init, zSize, xSize);
      RowBlocksAreCells(rows[i], i, zSize, xSize);
      assert GridBlocks(rows, zSize, xSize) == GridBlocks(init, zSize, xSize) + RowBlocks(rows[i], i, zSize, xSize);
      forall p
        ensures p in GridBlocks(rows, zSize, xSize) <==>
                exists i', j :: 0 <= i' < |rows| && 0 <= j < |rows[i']| && rows[i'][j] == 'X' && p == Vec3(VoxelX(j, xSize), VERTICAL_UNIT * 0.5, VoxelZ(i', zSize))
      {
        if p in GridBlocks(init, zSize, xSize) {
          var i', j :| 0 <= i' < |init| && 0 <= j < |init[i']| && init[i'][j] == 'X' && p == Vec3(VoxelX(j, xSize), VERTICAL_UNIT * 0.5, VoxelZ(i', zSize));
          assert rows[i'] == init[i'];
        } else if p in RowBlocks(rows[i], i, zSize, xSize) {
          var j :| 0 <= j < |rows[i]| && rows[i][j] == 'X' && p == Vec3(VoxelX(j, xSize), VERTICAL_UNIT * 0.5, VoxelZ(i, zSize));
        }
        if exists i', j :: 0 <= i' < |rows| && 0 <= j < |rows[i']| && rows[i'][j] == 'X' && p == Vec3(VoxelX(j, xSize), VERTICAL_UNIT * 0.5, VoxelZ(i', zSize)) {
          var i', j :| 0 <= i' < |rows| && 0 <= j < |rows[i']| && rows[i'][j] == 'X' && p == Vec3(VoxelX(j, xSize), VERTICAL_UNIT * 0.5, VoxelZ(i', zSize));
          if i' < i {
            assert init[i'][j] == 'X';
          }
        }
      }
    }
  }

  /** A row has as many spawn points as `S` characters. */
  lemma {:induction false} RowSpawnCount(row: string, i: nat, zSize: real, xSize: real)
    ensures |RowSpawns(row, i, zSize, xSize)| == CountOf(row, 'S')
    decreases |row|
  {
    if row != [] {
      RowSpawnCount(row[..|row| - 1], i, zSize, xSize);
    }
  }

  /** The number of occurrences of c, counted from the end as the loop's prefix grows. */
  function CountOf(s: string, c: char): nat
    decreases |s|
  {
    if s == [] then 0 else CountOf(s[..|s| - 1], c) + (if s[|s| - 1] == c then 1 else 0)
  }

  // ---------------------------------------------------------------------------
  // The level build

  class Level {
    const rows: seq<string>
    const zSize: real
    const xSize: real
    /** The module-level spawnPoints array. */
    var spawnPoints: seq<Vec3>
    /** The positions of the wall meshes addVoxel builds (they are never added to the scene). */
    var blocks: seq<Vec3>

    /** map.split("\n") and the two sizes. */
    constructor (mapText: string)
      ensures rows == SplitOn(mapText, '\n') && zSize == DepthOf(rows) && xSize == WidthOf(rows)
      ensures spawnPoints == [] && blocks == []
    {
      rows := SplitOn(mapText, '\n');
      var r := SplitOn(mapText, '\n');
      zSize := |r| as real * HORIZONTAL_UNIT;
      xSize := |r[0]| as real * HORIZONTAL_UNIT;
      spawnPoints := [];
      blocks := [];
    }

    /** addVoxel(type, row, col): a spawn point for 'S', a box on the floor for 'X', nothing otherwise. */
    method AddVoxel(kind: char, row: nat, col: nat)
      modifies this
      ensures kind == 'S' ==> spawnPoints == old(spawnPoints) + [Vec3(VoxelX(col, xSize), 0.0, VoxelZ(row, zSize))]
                              && blocks == old(blocks)
      ensures kind == 'X' ==> blocks == old(blocks) + [Vec3(VoxelX(col, xSize), VERTICAL_UNIT * 0.5, VoxelZ(row, zSize))]
                              && spawnPoints == old(spawnPoints)
      ensures kind != 'S' && kind != 'X' ==> spawnPoints == old(spawnPoints) && blocks == old(blocks)
    {
      var z := (row + 1) as real * HORIZONTAL_UNIT - zSize * 0.5;
      var x := (col + 1) as real * HORIZONTAL_UNIT - xSize * 0.5;
      if kind == 'S' {
        spawnPoints := spawnPoints + [Vec3(x, 0.0, z)];
      } else if kind == 'X' {
        blocks := blocks + [Vec3(x, VERTICAL_UNIT * 0.5, z)];
      }
    }

    /** The column loop of row i. */
    method AddRow(i: nat)
      requires i < |rows|
      modifies this
      ensures spawnPoints == old(spawnPoints) + RowSpawns(rows[i], i, zSize, xSize)
      ensures blocks == old(blocks) + RowBlocks(rows[i], i, zSize, xSize)
    {
      var row := rows[i];
      for j := 0 to |row|
        invariant spawnPoints == old(spawnPoints) + RowSpawns(row[..j], i, zSize, xSize)
        invariant blocks == old(blocks) + RowBlocks(row[..j], i, zSize, xSize)
      {
        RowStep(row, i, j, zSize, xSize);
        AddVoxel(row[j], i, j);
      }
      assert row[..|row|] == row;
    }

    /** The row/column loop over the whole map. */
    method Build()
      modifies this
      ensures spawnPoints == old(spawnPoints) + GridSpawns(rows, zSize, xSize)
      ensures blocks == old(blocks) + GridBlocks(rows, zSize, xSize)
    {
      ghost var spawns0, blocks0 := spawnPoints, blocks;
      for i := 0 to |rows|
        invariant spawnPoints == spawns0 + GridSpawns(rows[..i], zSize, xSize)
        invariant blocks == blocks0 + GridBlocks(rows[..i], zSize, xSize)
      {
        GridStep(rows, i, zSize, xSize);
        AddRow(i);
        assert spawnPoints == spawns0 + (GridSpawns(rows[..i], zSize, xSize) + RowSpawns(rows[i], i, zSize, xSize));
        assert blocks == blocks0 + (GridBlocks(rows[..i], zSize, xSize) + RowBlocks(rows[i], i, zSize, xSize));
      }
      assert rows[..|rows|] == rows;
    }
  }

  /** One more column appends that column's spawn point or wall box, if any. */
  lemma RowStep(row: string, i: nat, j: nat, zSize: real, xSize: real)
    requires j < |row|
    ensures RowSpawns(row[..j + 1], i, zSize, xSize)
            == RowSpawns(row[..j], i, zSize, xSize) + (if row[j] == 'S' then [Vec3(VoxelX(j, xSize), 0.0, VoxelZ(i, zSize))] else [])
    ensures RowBlocks(row[..j + 1], i, zSize, xSize)
            == RowBlocks(row[..j], i, zSize, xSize) + (if row[j] == 'X' then [Vec3(VoxelX(j, xSize), VERTICAL_UNIT * 0.5, VoxelZ(i, zSize))] else [])
  {
    assert row[..j + 1][..j] == row[..j];
  }

  /** One more row appends that row's spawn points and wall boxes. */
  lemma GridStep(rows: seq<string>, k: nat, zSize: real, xSize: real)
    requires k < |rows|
    ensures GridSpawns(rows[..k + 1], zSize, xSize) == GridSpawns(rows[..k], zSize, xSize) + RowSpawns(rows[k], k, zSize, xSize)
    ensures GridBlocks(rows[..k + 1], zSize, xSize) == GridBlocks(rows[..k], zSize, xSize) + RowBlocks(rows[k], k, zSize, xSize)
  {
    assert rows[..k + 1][..k] == rows[..k];
  }

  /** The literal map splits into the nine rows. */
  lemma MapRows()
    ensures SplitOn(MAP, '\n') == MAP_ROWS
  {
    MapIsJoin();
    RowsWithoutNewline();
    SplitJoin(MAP_ROWS, '\n');
  }

  lemma MapIsJoin()
    ensures JoinWith(MAP_ROWS, '\n') == MAP
  {
    MapHeadJoin();
    MapTailJoin();
  }

  /** The first four rows joined, each followed by its newline, in front of the rest. */
  lemma MapHeadJoin()
    ensures JoinWith(MAP_ROWS, '\n') == "XXXXXXX \n" + "X     X \n" + "X  S  X \n" + "X     X \n" + JoinWith(MAP_ROWS[4..], '\n')
  {
    var r := MAP_ROWS;
    JoinStep(r, 3);
    JoinStep(r, 2);
    JoinStep(r, 1);
    JoinStep(r, 0);
    assert r[0..] == r;
    HeadRowLines();
    Reassociate(r[0] + "\n", r[1] + "\n", r[2] + "\n", r[3] + "\n", JoinWith(r[4..], '\n'));
  }

  lemma HeadRowLines()
    ensures MAP_ROWS[0] + "\n" == "XXXXXXX \n" && MAP_ROWS[1] + "\n" == "X     X \n"
    ensures MAP_ROWS[2] + "\n" == "X  S  X \n" && MAP_ROWS[3] + "\n" == "X     X \n"
  {
  }

  lemma Reassociate(a: string, b: string, c: string, d: string, e: string)
    ensures a + b + c + d + e == a + (b + (c + (d + e)))
  {
  }

  /** Joining from row k on is row k, a newline, and the join from row k + 1 on. */
  lemma JoinStep(rows: seq<string>, k: nat)
    requires k + 1 < |rows|
    ensures JoinWith(rows[k..], '\n') == rows[k] + "\n" + JoinWith(rows[k + 1..], '\n')
  {
    assert rows[k..][1..] == rows[k + 1..];
  }

  /** The last five rows joined: the map literal from its fifth line on. */
  lemma MapTailJoin()
    ensures JoinWith(MAP_ROWS[4..], '\n') == "X   S XXX\n" + "XXX     X\n" + " XX   S X\n" + "  X     X\n" + "   XXXXXX"
  {
    var r := MAP_ROWS;
    assert JoinWith(r[8..], '\n') == r[8];
    assert JoinWith(r[7..], '\n') == r[7] + "\n" + r[8];
    assert JoinWith(r[6..], '\n') == r[6] + "\n" + JoinWith(r[7..], '\n');
    assert JoinWith(r[5..], '\n') == r[5] + "\n" + JoinWith(r[6..], '\n');
    assert JoinWith(r[4..], '\n') == r[4] + "\n" + JoinWith(r[5..], '\n');
  }

  lemma RowsWithoutNewline()
    ensures forall k, i :: 0 <= k < |MAP_ROWS| && 0 <= i < |MAP_ROWS[k]| ==> MAP_ROWS[k][i] != '\n'
  {
  }

  /** The spawn points of each row of the embedded map on its own. */
  function ExpectedRowSpawns(k: nat): seq<Vec3>
  {
    if k == 2 then [Vec3(0.0, 0.0, -150.0)]
    else if k == 4 then [Vec3(100.0, 0.0, 50.0)]
    else if k == 6 then [Vec3(300.0, 0.0, 250.0)]
    else []
  }

  lemma MapRowSpawns(k: nat)
    requires k < |MAP_ROWS|
    ensures RowSpawns(MAP_ROWS[k], k, 900.0, 800.0) == ExpectedRowSpawns(k)
  {
    var r := MAP_ROWS[k];
    if k == 2 {
      assert r == "X  S  X ";
      RowWithOneSpawn(r, k, 3);
    } else if k == 4 {
      assert r == "X   S XXX";
      RowWithOneSpawn(r, k, 4);
    } else if k == 6 {
      assert r == " XX   S X";
      RowWithOneSpawn(r, k, 6);
    } else {
      NoSpawnInOtherRows(k);
      RowWithoutSpawn(r, k);
    }
  }

  lemma NoSpawnInOtherRows(k: nat)
    requires k < |MAP_ROWS| && k != 2 && k != 4 && k != 6
    ensures forall i :: 0 <= i < |MAP_ROWS[k]| ==> MAP_ROWS[k][i] != 'S'
  {
  }

  lemma EmbeddedSpawnsFirstThree()
    ensures GridSpawns(MAP_ROWS[..3], 900.0, 800.0) == [Vec3(0.0, 0.0, -150.0)]
  {
    var r := MAP_ROWS;
    assert GridSpawns(r[..0], 900.0, 800.0) == [];
    GridStep(r, 0, 900.0, 800.0);
    MapRowSpawns(0);
    GridStep(r, 1, 900.0, 800.0);
    MapRowSpawns(1);
    GridStep(r, 2, 900.0, 800.0);
    MapRowSpawns(2);
  }

  lemma EmbeddedSpawnsFirstSix()
    ensures GridSpawns(MAP_ROWS[..6], 900.0, 800.0) == [Vec3(0.0, 0.0, -150.0), Vec3(100.0, 0.0, 50.0)]
  {
    var r := MAP_ROWS;
    EmbeddedSpawnsFirstThree();
    GridStep(r, 3, 900.0, 800.0);
    MapRowSpawns(3);
    GridStep(r, 4, 900.0, 800.0);
    MapRowSpawns(4);
    GridStep(r, 5, 900.0, 800.0);
    MapRowSpawns(5);
  }

  lemma EmbeddedSpawnsLastThree()
    ensures GridSpawns(MAP_ROWS, 900.0, 800.0) == GridSpawns(MAP_ROWS[..6], 900.0, 800.0) + [Vec3(300.0, 0.0, 250.0)]
  {
    var r := MAP_ROWS;
    GridStep(r, 6, 900.0, 800.0);
    MapRowSpawns(6);
    GridStep(r, 7, 900.0, 800.0);
    MapRowSpawns(7);
    GridStep(r, 8, 900.0, 800.0);
    MapRowSpawns(8);
    assert r[..9] == r;
  }

  /**
   * On the embedded map ZSIZE = 900 and XSIZE = 800, and the spawn points are
   * (0, 0, -150), (100, 0, 50) and (300, 0, 250), in this order.
   */
  lemma EmbeddedSpawns()
    ensures DepthOf(MAP_ROWS) == 900.0 && WidthOf(MAP_ROWS) == 800.0
    ensures GridSpawns(MAP_ROWS, 900.0, 800.0) == [Vec3(0.0, 0.0, -150.0), Vec3(100.0, 0.0, 50.0), Vec3(300.0, 0.0, 250.0)]
  {
    assert |MAP_ROWS| == 9 && |MAP_ROWS[0]| == 8;
    EmbeddedSpawnsFirstSix();
    EmbeddedSpawnsLastThree();
  }

  lemma {:induction false} RowWithoutSpawn(row: string, i: nat)
    requires forall k :: 0 <= k < |row| ==> row[k] != 'S'
    ensures RowSpawns(row, i, 900.0, 800.0) == []
    decreases |row|
  {
    if row != [] {
      RowWithoutSpawn(row[..|row| - 1], i);
    }
  }

  lemma RowWithOneSpawn(row: string, i: nat, j: nat)
    requires j < |row| && row[j] == 'S' && forall k :: 0 <= k < |row| && k != j ==> row[k] != 'S'
    ensures RowSpawns(row, i, 900.0, 800.0) == [Vec3(VoxelX(j, 800.0), 0.0, VoxelZ(i, 900.0))]
  {
    RowSpawnsSplit(row, j + 1, i);
    RowWithoutSpawn(row[..j], i);
    RowWithoutSpawn(row[j + 1..], i);
    assert row[..j + 1][..j] == row[..j];
  }

  /** The spawns of a row are those of a prefix followed by those of the rest, shifted by the prefix length. */
  lemma RowSpawnsSplit(row: string, n: nat, i: nat)
    requires n <= |row|
    requires forall k :: n <= k < |row| ==> row[k] != 'S'
    ensures RowSpawns(row, i, 900.0, 800.0) == RowSpawns(row[..n], i, 900.0, 800.0)
    decreases |row| - n
  {
    if n < |row| {
      RowSpawnsSplit(row, n + 1, i);
      assert row[..n + 1][..n] == row[..n];
    } else {
      assert row[..n] == row;
    }
  }

  /** XSIZE comes from the first row only: the last column of the fifth row lies beyond XSIZE / 2. */
  lemma WidthFromFirstRowOnly()
    ensures |MAP_ROWS[4]| == 9 && MAP_ROWS[4][8] == 'X'
    ensures VoxelX(8, WidthOf(MAP_ROWS)) == 500.0 > WidthOf(MAP_ROWS) * 0.5
  {
  }

  // ---------------------------------------------------------------------------
  // Keyboard

  /** The movement flags of the player and the number of jump() calls. */
  class PlayerInput {
    var forward: bool
    var left: bool
    var backward: bool
    var right: bool
    var jumps: nat

    constructor ()
      ensures !forward && !left && !backward && !right && jumps == 0
    {
      forward, left, backward, right := false, false, false, false;
      jumps := 0;
    }

    /** The keydown listener: a flag is set, never cleared; space jumps; other codes do nothing. */
    method OnKeyDown(keyCode: int)
      modifies this
      ensures forward == (old(forward) || keyCode == 38 || keyCode == 87)
      ensures left == (old(left) || keyCode == 37 || keyCode == 65)
      ensures backward == (old(backward) || keyCode == 40 || keyCode == 83)
      ensures right == (old(right) || keyCode == 39 || keyCode == 68)
      ensures jumps == old(jumps) + (if keyCode == 32 then 1 else 0)
    {
      if keyCode == 38 || keyCode == 87 {
        forward := true;
      } else if keyCode == 37 || keyCode == 65 {
        left := true;
      } else if keyCode == 40 || keyCode == 83 {
        backward := true;
      } else if keyCode == 39 || keyCode == 68 {
        right := true;
      } else if keyCode == 32 {
        jumps := jumps + 1;
      }
    }
  }
}
