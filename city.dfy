/**
 * The city scene of chapter 2 (chapter-2/city_scene/city.js): a hundred gray
 * boxes at random grid positions with random footprints and heights, and one
 * floor plane. Math.random() is replaced by a sequence of draws, each in
 * [0, 1), consumed in the order the source calls it: five per building.
 */
module City {
  import opened JsMath
  import opened Vectors
  import GrayColors

  const BUILDING_COUNT: nat := 100
  /** Math.random() calls per building: colour, position x, position z, scale x, scale y. */
  const DRAWS_PER_BUILDING: nat := 5

  /** randomNumber(min, max): Math.floor(Math.random() * (max - min + 1) + min). */
  function RandomNumber(min: int, max: int, r: real): (n: int)
    requires min <= max && 0.0 <= r < 1.0
    ensures min <= n <= max
  {
    MulStrict(r, 1.0, (max - min + 1) as real);
    Floor(r * (max - min + 1) as real + min as real)
  }

  /** Every integer of [min, max] is drawn by some r in [0, 1): both ends are "included". */
  lemma RandomNumberReachesAll(min: int, max: int, n: int)
    requires min <= n <= max
    ensures var r := (n - min) as real / (max - min + 1) as real;
            0.0 <= r < 1.0 && RandomNumber(min, max, r) == n
  {
    var w := (max - min + 1) as real;
    var r := (n - min) as real / w;
    assert r * w == (n - min) as real;
    assert r < 1.0 by {
      if r >= 1.0 {
        MulMonotoneReal(1.0, r, w);
      }
    }
    assert r * w + min as real == n as real;
  }

  lemma MulMonotoneReal(a: real, b: real, m: real)
    requires a <= b && m > 0.0
    ensures a * m <= b * m
  {
  }

  /** The index into the gray table drawn for a building is always a valid one. */
  lemma ColorIndexValid(r: real)
    requires 0.0 <= r < 1.0
    ensures 0 <= RandomNumber(0, |GrayColors.GRAY_COLORS| - 1, r) < |GrayColors.GRAY_COLORS|
  {
  }

  /** Math.floor(Math.random() * 200 - 100) * 4 */
  function GridOffset(r: real): (p: int)
    requires 0.0 <= r < 1.0
    ensures p % 4 == 0 && -400 <= p <= 396
  {
    MulStrict(r, 1.0, 200.0);
    Floor(r * 200.0 - 100.0) * 4
  }

  /** What scene.add receives. */
  datatype SceneObject =
    | Box(grayColor: string, position: Vec3, scale: Vec3)
    | Plane(width: real, height: real, widthSegments: nat, heightSegments: nat, color: int, rotationX: real)

  /** The floor: a 2000 x 2000 plane in 20 x 20 segments, colour 0x9db3b5, turned by -90 * PI / 180 about x. */
  const FLOOR: SceneObject := Plane(2000.0, 2000.0, 20, 20, 0x9d_b3b5, -90.0 * PI / 180.0)

  /** The building drawn from five consecutive random numbers. */
  function BuildingOf(c: real, px: real, pz: real, sx: real, sy: real): SceneObject
    requires 0.0 <= c < 1.0 && 0.0 <= px < 1.0 && 0.0 <= pz < 1.0
  {
    var scaleX := sx * 50.0 + 10.0;
    Box(GrayColors.GRAY_COLORS[RandomNumber(0, |GrayColors.GRAY_COLORS| - 1, c)],
        Vec3(GridOffset(px) as real, 0.0, GridOffset(pz) as real),
        Vec3(scaleX, sy * scaleX * 8.0 + 8.0, scaleX))
  }

  predicate ValidDraws(draws: seq<real>)
  {
    forall k :: 0 <= k < |draws| ==> 0.0 <= draws[k] < 1.0
  }

  /** The first n buildings, from the first 5n draws. */
  function Buildings(draws: seq<real>, n: nat): (r: seq<SceneObject>)
    requires ValidDraws(draws) && DRAWS_PER_BUILDING * n <= |draws|
    ensures |r| == n && forall k :: 0 <= k < n ==> r[k].Box?
    ensures forall k :: 0 <= k < n ==>
              var b := DRAWS_PER_BUILDING * k;
              r[k] == BuildingOf(draws[b], draws[b + 1], draws[b + 2], draws[b + 3], draws[b + 4])
  {
    if n == 0 then []
    else
      var b := DRAWS_PER_BUILDING * (n - 1);
      Buildings(draws, n - 1) + [BuildingOf(draws[b], draws[b + 1], draws[b + 2], draws[b + 3], draws[b + 4])]
  }

  /** Everything addCitySceen adds: the hundred buildings, then the floor. */
  function CityObjects(draws: seq<real>): seq<SceneObject>
    requires ValidDraws(draws) && |draws| == DRAWS_PER_BUILDING * BUILDING_COUNT
  {
    Buildings(draws, BUILDING_COUNT) + [FLOOR]
  }

  /** The city adds exactly a hundred boxes and then one floor plane. */
  lemma CityCount(draws: seq<real>)
    requires ValidDraws(draws) && |draws| == DRAWS_PER_BUILDING * BUILDING_COUNT
    ensures |CityObjects(draws)| == 101
    ensures forall k :: 0 <= k < 100 ==> CityObjects(draws)[k].Box?
    ensures CityObjects(draws)[100] == FLOOR
  {
  }

  /**
   * A building stands on the ground at a multiple of 4 in [-400, 396] on both
   * axes; its footprint is a square of side in [10, 60) and its height in
   * [8, 8 * side + 8).
   */
  lemma BuildingRanges(c: real, px: real, pz: real, sx: real, sy: real)
    requires 0.0 <= c < 1.0 && 0.0 <= px < 1.0 && 0.0 <= pz < 1.0 && 0.0 <= sx < 1.0 && 0.0 <= sy < 1.0
    ensures var b := BuildingOf(c, px, pz, sx, sy);
            b.grayColor in GrayColors.GRAY_COLORS
            && b.position.y == 0.0
            && -400.0 <= b.position.x <= 396.0 && IsMultipleOfFour(b.position.x)
            && -400.0 <= b.position.z <= 396.0 && IsMultipleOfFour(b.position.z)
            && 10.0 <= b.scale.x < 60.0 && b.scale.z == b.scale.x
            && 8.0 <= b.scale.y < 8.0 * b.scale.x + 8.0
  {
    var scaleX := sx * 50.0 + 10.0;
    MulStrict(sx, 1.0, 50.0);
    MulStrict(sy, 1.0, scaleX * 8.0);
  }

  /** The ranges BuildingRanges proves for one building. */
  predicate InCityRanges(o: SceneObject)
  {
    && o.Box?
    && o.grayColor in GrayColors.GRAY_COLORS
    && o.position.y == 0.0
    && -400.0 <= o.position.x <= 396.0 && IsMultipleOfFour(o.position.x)
    && -400.0 <= o.position.z <= 396.0 && IsMultipleOfFour(o.position.z)
    && 10.0 <= o.scale.x < 60.0 && o.scale.z == o.scale.x
    && 8.0 <= o.scale.y < 8.0 * o.scale.x + 8.0
  }

  /** Every box the city adds is one building drawn from its five draws, so each one is within the ranges. */
  lemma CityBoxesInRange(draws: seq<real>)
    requires ValidDraws(draws) && |draws| == DRAWS_PER_BUILDING * BUILDING_COUNT
    ensures forall k :: 0 <= k < BUILDING_COUNT ==> InCityRanges(CityObjects(draws)[k])
  {
    var bs := Buildings(draws, BUILDING_COUNT);
    forall k | 0 <= k < BUILDING_COUNT
      ensures InCityRanges(CityObjects(draws)[k])
    {
      var b := DRAWS_PER_BUILDING * k;
      assert CityObjects(draws)[k] == bs[k];
      BuildingRanges(draws[b], draws[b + 1], draws[b + 2], draws[b + 3], draws[b + 4]);
    }
  }

  predicate IsMultipleOfFour(x: real)
  {
    x.Floor as real == x && x.Floor % 4 == 0
  }

  /** The scene graph, as the list of objects added to it. */
  class Scene {
    var objects: seq<SceneObject>

    constructor ()
      ensures objects == []
    {
      objects := [];
    }

    method Add(o: SceneObject)
      modifies this
      ensures objects == old(objects) + [o]
    {
      objects := objects + [o];
    }
  }

  /** addCitySceen(scene): the loop of a hundred buildings, then the floor. */
  method AddCityScene(scene: Scene, draws: seq<real>)
    requires ValidDraws(draws) && |draws| == DRAWS_PER_BUILDING * BUILDING_COUNT
    modifies scene
    ensures scene.objects == old(scene.objects) + CityObjects(draws)
  {
    var next := 0;
    for i := 0 to BUILDING_COUNT
      invariant next == DRAWS_PER_BUILDING * i
      invariant scene.objects == old(scene.objects) + Buildings(draws, i)
    {
      assert next + DRAWS_PER_BUILDING <= |draws|;
      var colorIndex := RandomNumber(0, |GrayColors.GRAY_COLORS| - 1, draws[next]);
      var x := Floor(draws[next + 1] * 200.0 - 100.0) * 4;
      var z := Floor(draws[next + 2] * 200.0 - 100.0) * 4;
      var scaleX := draws[next + 3] * 50.0 + 10.0;
      var scaleY := draws[next + 4] * scaleX * 8.0 + 8.0;
      var building := Box(GrayColors.GRAY_COLORS[colorIndex], Vec3(x as real, 0.0, z as real), Vec3(scaleX, scaleY, scaleX));
      assert building == BuildingOf(draws[next], draws[next + 1], draws[next + 2], draws[next + 3], draws[next + 4]);
      scene.Add(building);
      assert scene.objects == old(scene.objects) + (Buildings(draws, i) + [building]);
      next := next + DRAWS_PER_BUILDING;
    }
    scene.Add(Plane(2000.0, 2000.0, 20, 20, 0x9d_b3b5, -90.0 * PI / 180.0));
  }
}
