// The FreeCamera of Camera/Camera.cs: inverted mouse look with an unconditional pitch limit,
// and movement.
module Camera {
  import opened Geometry

  const InitialYaw: real := -90.0
  const Speed: real := 3.0
  const Sensitivity: real := 0.2
  const PitchLimit: real := 89.0

  class FreeCamera {
    /** The trigonometry and normalisation of UpdateVectors, as a function of (yaw, pitch). */
    const vectors: (real, real) -> Frame
    var Position: Vec3
    var Front: Vec3
    var Up: Vec3
    var Right: Vec3
    var pitch: real
    var yaw: real
    var speed: real
    var sensitivity: real

    /** Pitch never leaves [-89, 89]; the basis is the one yaw and pitch determine. */
    ghost predicate Valid()
      reads this
    {
      speed == Speed && sensitivity == Sensitivity &&
      -PitchLimit <= pitch <= PitchLimit &&
      Frame(Front, Right, Up) == vectors(yaw, pitch)
    }

    constructor (position: Vec3, vectors: (real, real) -> Frame)
      ensures Valid() && this.vectors == vectors
      ensures Position == position && yaw == InitialYaw && pitch == 0.0
    {
      this.vectors := vectors;
      Front := Neg(UnitZ);
      Up := UnitY;
      Right := UnitX;
      pitch := 0.0;
      yaw := InitialYaw;
      speed := Speed;
      sensitivity := Sensitivity;
      Position := position;
      new;
      UpdateVectors();
    }

    method Move(direction: Vec3, deltaTime: real)
      requires Valid()
      modifies this`Position
      ensures Valid()
      ensures Position == Add(old(Position), Scale(direction, Speed * deltaTime))
    {
      Position := Add(Position, Scale(Scale(direction, speed), deltaTime));
    }

    /** Turns by the mouse movement, with vertical movement inverted; pitch is always clamped. */
    method Look(deltaX: real, deltaY: real)
      requires Valid()
      modifies this`yaw, this`pitch, this`Front, this`Right, this`Up
      ensures Valid()
      ensures yaw == old(yaw) + deltaX * Sensitivity
      ensures pitch == Clamp(old(pitch) - deltaY * Sensitivity, -PitchLimit, PitchLimit)
      ensures -PitchLimit <= pitch <= PitchLimit
    {
      yaw := yaw + deltaX * sensitivity;
      pitch := pitch - deltaY * sensitivity;
      ClampFacts(pitch, -PitchLimit, PitchLimit);
      pitch := Clamp(pitch, -PitchLimit, PitchLimit);
      UpdateVectors();
    }

    /** The arguments of Matrix4.LookAt: the camera looks from its position along Front. */
    function GetViewMatrix(): (v: View)
      reads this
      ensures v.eye == Position && v.up == Up
      ensures Sub(v.target, v.eye) == Front
    {
      View(Position, Add(Position, Front), Up)
    }

    method UpdateVectors()
      modifies this`Front, this`Right, this`Up
      ensures Frame(Front, Right, Up) == vectors(yaw, pitch)
    {
      var f := vectors(yaw, pitch);
      Front := f.front;
      Right := f.right;
      Up := f.up;
    }
  }
}
