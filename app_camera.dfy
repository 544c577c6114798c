/**
 * The camera of the WebGL app (Camera.js): it orbits the origin at a given
 * distance, turned by yaw and pitch in degrees. Mouse drags turn it, the
 * wheel zooms it; pitch and distance are clamped, yaw is reduced with `%`.
 */
module AppCamera {
  import opened JsMath
  import opened Vectors

  const PITCH_LIMIT: real := 89.0
  const YAW_PERIOD: real := 360.0

  /** Math.max(lo, Math.min(hi, x)). */
  function Clamp(lo: real, hi: real, x: real): real
  {
    Max(lo, Min(hi, x))
  }

  /** With lo <= hi, a clamped value lies in [lo, hi] and a value already there is kept. */
  lemma ClampInRange(lo: real, hi: real, x: real)
    requires lo <= hi
    ensures lo <= Clamp(lo, hi, x) <= hi
    ensures lo <= x <= hi ==> Clamp(lo, hi, x) == x
    ensures x < lo ==> Clamp(lo, hi, x) == lo
    ensures hi < x ==> Clamp(lo, hi, x) == hi
  {
  }

  /** The yaw after a horizontal drag: turned by deltaX * sensitivity, then reduced with JS `%`. */
  function TurnedYaw(yaw: real, deltaX: real, sensitivity: real): real
  {
    JsRem(yaw - deltaX * sensitivity, YAW_PERIOD)
  }

  class Camera {
    var target: Vec3
    var up: Vec3
    var yaw: real
    var pitch: real
    var distance: real
    // Camera.js assigns these four as ordinary fields. No code of the program reassigns
    // them after the constructor, so they are constants here.
    const sensitivity: real
    const zoomSpeed: real
    const minDistance: real
    const maxDistance: real
    var isDragging: bool
    var fov: real
    var aspect: real
    var near: real
    var far: real

    /** The invariant the camera keeps from construction on. */
    ghost predicate Valid()
      reads this
    {
      && -PITCH_LIMIT <= pitch <= PITCH_LIMIT
      && -YAW_PERIOD < yaw < YAW_PERIOD
      && minDistance <= distance <= maxDistance
    }

    constructor ()
      ensures Valid()
      ensures target == Origin && up == Vec3(0.0, 1.0, 0.0)
      ensures yaw == 0.0 && pitch == 0.0 && distance == 5.0 && !isDragging
      ensures sensitivity == 0.3 && zoomSpeed == 0.005 && minDistance == 2.0 && maxDistance == 20.0
      ensures fov == 90.0 && aspect == 1.0 && near == 0.1 && far == 100.0
    {
      target := Origin;
      up := Vec3(0.0, 1.0, 0.0);
      yaw := 0.0;
      pitch := 0.0;
      sensitivity := 0.3;
      distance := 5.0;
      isDragging := false;
      fov := 90.0;
      aspect := 1.0;
      near := 0.1;
      far := 100.0;
      zoomSpeed := 0.005;
      minDistance := 2.0;
      maxDistance := 20.0;
    }

    method UpdateMouse(deltaX: real, deltaY: real)
      modifies this
      ensures yaw == TurnedYaw(old(yaw), deltaX, sensitivity)
      ensures pitch == Clamp(-PITCH_LIMIT, PITCH_LIMIT, old(pitch) + deltaY * sensitivity)
      ensures distance == old(distance) && isDragging == old(isDragging)
      ensures old(Valid()) ==> Valid()
    {
      yaw := yaw - deltaX * sensitivity;
      yaw := JsRem(yaw, YAW_PERIOD);
      pitch := pitch + deltaY * sensitivity;
      pitch := Max(-PITCH_LIMIT, Min(PITCH_LIMIT, pitch));
    }

    method HandleMouseWheel(deltaY: real)
      modifies this
      ensures distance == Clamp(minDistance, maxDistance, old(distance) + deltaY * zoomSpeed)
      ensures yaw == old(yaw) && pitch == old(pitch) && isDragging == old(isDragging)
      ensures old(Valid()) ==> Valid()
    {
      distance := distance + deltaY * zoomSpeed;
      distance := Max(minDistance, Min(maxDistance, distance));
      if minDistance <= maxDistance {
        ClampInRange(minDistance, maxDistance, old(distance) + deltaY * zoomSpeed);
      }
    }
  }

  /** Whatever the deltas, the updated pitch is in [-89, 89] and yaw strictly inside (-360, 360), keeping the sign of the turned yaw. */
  lemma MouseUpdateBounds(yaw: real, pitch: real, dx: real, dy: real, sensitivity: real)
    ensures -PITCH_LIMIT <= Clamp(-PITCH_LIMIT, PITCH_LIMIT, pitch + dy * sensitivity) <= PITCH_LIMIT
    ensures -PITCH_LIMIT <= pitch + dy * sensitivity <= PITCH_LIMIT ==>
              Clamp(-PITCH_LIMIT, PITCH_LIMIT, pitch + dy * sensitivity) == pitch + dy * sensitivity
    ensures -YAW_PERIOD < TurnedYaw(yaw, dx, sensitivity) < YAW_PERIOD
    ensures yaw - dx * sensitivity < 0.0 ==> TurnedYaw(yaw, dx, sensitivity) <= 0.0
    ensures yaw - dx * sensitivity >= 0.0 ==> TurnedYaw(yaw, dx, sensitivity) >= 0.0
    ensures -YAW_PERIOD < yaw - dx * sensitivity < YAW_PERIOD ==> TurnedYaw(yaw, dx, sensitivity) == yaw - dx * sensitivity
  {
    ClampInRange(-PITCH_LIMIT, PITCH_LIMIT, pitch + dy * sensitivity);
    if -YAW_PERIOD < yaw - dx * sensitivity < YAW_PERIOD {
      JsRemSmall(yaw - dx * sensitivity, YAW_PERIOD);
    }
  }
}
