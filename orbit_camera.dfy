/**
 * The orbit camera of camera.js: radius, pitch and yaw (radians) around a
 * target. Zooming clamps the radius to [1, 100]; orbiting adds to yaw freely
 * and clamps pitch just short of straight up or down.
 */
module OrbitCamera {
  import opened JsMath
  import opened Vectors

  /** Math.PI / 2 - 0.01. */
  const MAX_PITCH: real := PI / 2.0 - 0.01

  lemma MaxPitchPositive()
    ensures 1.5 < MAX_PITCH < 1.6
  {
  }

  class Camera {
    var radius: real
    var pitch: real
    var yaw: real
    var target: Vec3
    const minRadius: real
    const maxRadius: real
    const zoomSpeed: real

    /** The constructor takes radius and pitch as given: neither is clamped until the first update. */
    constructor (radius0: real, pitch0: real, yaw0: real, target0: Vec3)
      ensures radius == radius0 && pitch == pitch0 && yaw == yaw0 && target == target0
      ensures minRadius == 1.0 && maxRadius == 100.0 && zoomSpeed == 0.1
    {
      radius := radius0;
      pitch := pitch0;
      yaw := yaw0;
      target := target0;
      minRadius := 1.0;
      maxRadius := 100.0;
      zoomSpeed := 0.1;
    }

    predicate RadiusInRange()
      reads this
    {
      minRadius <= radius <= maxRadius
    }

    method UpdateRadius(delta: real)
      modifies this
      ensures radius == Max(minRadius, Min(old(radius) + delta * zoomSpeed, maxRadius))
      ensures minRadius <= maxRadius ==> RadiusInRange()
      ensures pitch == old(pitch) && yaw == old(yaw) && target == old(target)
    {
      radius := radius + delta * zoomSpeed;
      radius := Max(minRadius, Min(radius, maxRadius));
    }

    /** The clamping part of updateOrbit; the view-matrix update that follows it is not modelled. */
    method UpdateOrbit(deltaYaw: real, deltaPitch: real)
      modifies this
      ensures yaw == old(yaw) + deltaYaw
      ensures pitch == Max(-MAX_PITCH, Min(MAX_PITCH, old(pitch) + deltaPitch))
      ensures radius == old(radius) && target == old(target)
    {
      yaw := yaw + deltaYaw;
      pitch := pitch + deltaPitch;
      var maxPitch := PI / 2.0 - 0.01;
      pitch := Max(-maxPitch, Min(maxPitch, pitch));
    }
  }

  /** After an orbit the pitch is within [-MAX_PITCH, MAX_PITCH], and an in-range pitch is kept exactly. */
  lemma OrbitPitchBounds(pitch: real, deltaPitch: real)
    ensures var p := Max(-MAX_PITCH, Min(MAX_PITCH, pitch + deltaPitch));
            -MAX_PITCH <= p <= MAX_PITCH
            && (-MAX_PITCH <= pitch + deltaPitch <= MAX_PITCH ==> p == pitch + deltaPitch)
  {
    MaxPitchPositive();
  }

  /** A camera built with a radius outside [1, 100] keeps it until the first zoom. */
  method ConstructedOutOfRange() returns (c: Camera)
    ensures !c.RadiusInRange()
  {
    c := new Camera(500.0, 0.0, 0.0, Origin);
  }
}
