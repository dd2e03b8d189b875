// The FreeCamera of Camera/FreeCamera.cs: mouse look with optional pitch limit, movement,
// a distance-limited zoom, and three views placed relative to the train.
module FreeCamera {
  import opened Geometry

  const InitialYaw: real := -90.0
  const MovementSpeed: real := 2.5
  const MouseSensitivity: real := 0.1
  const PitchLimit: real := 89.0
  const MinZoomDistance: real := 2.0
  const MaxZoomDistance: real := 20.0
  const FollowDistance: real := 5.0
  const FollowHeight: real := 2.0
  const TopViewHeight: real := 20.0
  const SideViewDistance: real := 10.0

  /** Zoom's test `2 < |p| < 20`, stated on the squared length. */
  predicate WithinZoomRange(p: Vec3) {
    MinZoomDistance * MinZoomDistance < LengthSquared(p) < MaxZoomDistance * MaxZoomDistance
  }

  /** For a length d >= 0 (the square root of the squared length), the source's test on d and the
      squared test agree. */
  lemma ZoomRangeSquared(d: real)
    requires d >= 0.0
    ensures (MinZoomDistance < d < MaxZoomDistance) <==>
            (MinZoomDistance * MinZoomDistance < d * d < MaxZoomDistance * MaxZoomDistance)
  {
    if d <= 2.0 {
      ProductNonNegative(d, 2.0 - d);
      ProductNonNegative(2.0, 2.0 - d);
    } else if d < 20.0 {
      ProductNonNegative(d, d - 2.0);
      ProductNonNegative(2.0, d - 2.0);
      ProductNonNegative(d, 20.0 - d);
      ProductNonNegative(20.0, 20.0 - d);
      assert d * d > 4.0 by {
        assert d * (d - 2.0) > 0.0 by { assert d > 0.0 && d - 2.0 > 0.0; StrictProduct(d, d - 2.0); }
      }
      assert d * d < 400.0 by {
        StrictProduct(20.0, 20.0 - d);
      }
    } else {
      ProductNonNegative(d, d - 20.0);
      ProductNonNegative(20.0, d - 20.0);
    }
  }

  lemma StrictProduct(a: real, b: real)
    requires a > 0.0 && b > 0.0
    ensures a * b > 0.0
  {
  }

  /** SetFollowMode's position: five directions behind the train and two units up. */
  function FollowPosition(trainPosition: Vec3, trainDirection: Vec3): Vec3 {
    Add(Sub(trainPosition, Scale(trainDirection, FollowDistance)), Scale(UnitY, FollowHeight))
  }

  /** SetTopView's position: twenty units above the train. */
  function TopViewPosition(trainPosition: Vec3): Vec3 {
    Add(trainPosition, Scale(UnitY, TopViewHeight))
  }

  /** SetSideView's position: ten times the (un-normalised) right vector from the train. */
  function SideViewPosition(trainPosition: Vec3, trainDirection: Vec3): Vec3 {
    Add(trainPosition, Scale(Cross(trainDirection, UnitY), SideViewDistance))
  }

  /** The top view is straight above the train; the side view is level with the train and off to
      the side, orthogonal to the train's direction. */
  lemma ViewPlacement(trainPosition: Vec3, trainDirection: Vec3)
    ensures var top := TopViewPosition(trainPosition);
      top.x == trainPosition.x && top.z == trainPosition.z && top.y == trainPosition.y + TopViewHeight
    ensures var offset := Sub(SideViewPosition(trainPosition, trainDirection), trainPosition);
      offset.y == 0.0 && Dot(offset, trainDirection) == 0.0
    ensures Add(Sub(trainPosition, FollowPosition(trainPosition, trainDirection)), Scale(UnitY, FollowHeight))
      == Scale(trainDirection, FollowDistance)
  {
    var d := trainDirection;
    var offset := Sub(SideViewPosition(trainPosition, d), trainPosition);
    assert offset == Vec3(-d.z * 10.0, 0.0, d.x * 10.0);
    assert Dot(offset, d) == (-d.z * 10.0) * d.x + (d.x * 10.0) * d.z;
  }

  class FreeCamera {
    /** The trigonometry and normalisation of UpdateVectors, as a function of (yaw, pitch). */
    const vectors: (real, real) -> Frame
    var position: Vec3
    var front: Vec3
    var up: Vec3
    var right: Vec3
    var worldUp: Vec3
    var yaw: real
    var pitch: real
    var movementSpeed: real
    var mouseSensitivity: real

    /** The basis is the one yaw and pitch determine; the constants keep their initial values. */
    ghost predicate Valid()
      reads this
    {
      worldUp == UnitY && movementSpeed == MovementSpeed && mouseSensitivity == MouseSensitivity &&
      Frame(front, right, up) == vectors(yaw, pitch)
    }

    constructor (position: Vec3, vectors: (real, real) -> Frame)
      ensures Valid() && this.vectors == vectors
      ensures this.position == position && yaw == InitialYaw && pitch == 0.0
    {
      this.vectors := vectors;
      this.position := position;
      worldUp := UnitY;
      yaw := InitialYaw;
      pitch := 0.0;
      front := UnitZ;
      movementSpeed := MovementSpeed;
      mouseSensitivity := MouseSensitivity;
      new;
      UpdateVectors();
    }

    method Look(xOffset: real, yOffset: real, constrainPitch: bool)
      requires Valid()
      modifies this`yaw, this`pitch, this`front, this`right, this`up
      ensures Valid()
      ensures yaw == old(yaw) + xOffset * MouseSensitivity
      ensures pitch == if constrainPitch
        then Clamp(old(pitch) + yOffset * MouseSensitivity, -PitchLimit, PitchLimit)
        else old(pitch) + yOffset * MouseSensitivity
      ensures constrainPitch ==> -PitchLimit <= pitch <= PitchLimit
    {
      var dx := xOffset * mouseSensitivity;
      var dy := yOffset * mouseSensitivity;
      yaw := yaw + dx;
      pitch := pitch + dy;
      if constrainPitch {
        ClampFacts(pitch, -PitchLimit, PitchLimit);
        pitch := Clamp(pitch, -PitchLimit, PitchLimit);
      }
      UpdateVectors();
    }

    method Move(direction: Vec3, deltaTime: real)
      requires Valid()
      modifies this`position
      ensures Valid()
      ensures position == Add(old(position), Scale(direction, MovementSpeed * deltaTime))
    {
      var velocity := movementSpeed * deltaTime;
      position := Add(position, Scale(direction, velocity));
    }

    /** Moves along the view direction only when the camera's new distance from the origin
        stays strictly between 2 and 20. */
    method Zoom(amount: real)
      requires Valid()
      modifies this`position
      ensures Valid()
      ensures position == if WithinZoomRange(Add(old(position), Scale(front, amount)))
        then Add(old(position), Scale(front, amount)) else old(position)
      ensures position != old(position) ==> WithinZoomRange(position)
    {
      var newDistanceSquared := LengthSquared(Add(position, Scale(front, amount)));
      if newDistanceSquared > MinZoomDistance * MinZoomDistance && newDistanceSquared < MaxZoomDistance * MaxZoomDistance {
        position := Add(position, Scale(front, amount));
      }
    }

    /** The arguments of Matrix4.LookAt: the camera looks from its position along `front`. */
    function GetViewMatrix(): (v: View)
      reads this
      ensures v.eye == position && v.up == up
      ensures Sub(v.target, v.eye) == front
    {
      View(position, Add(position, front), up)
    }

    method UpdateVectors()
      modifies this`front, this`right, this`up
      ensures Frame(front, right, up) == vectors(yaw, pitch)
    {
      var f := vectors(yaw, pitch);
      front := f.front;
      right := f.right;
      up := f.up;
    }

    /** Places the camera behind and above the train; the front it assigns is overwritten by
        UpdateVectors, so the view direction still follows yaw and pitch alone. */
    method SetFollowMode(trainPosition: Vec3, trainDirection: Vec3)
      requires Valid()
      modifies this`position, this`front, this`right, this`up
      ensures Valid()
      ensures position == FollowPosition(trainPosition, trainDirection)
      ensures front == old(front) && right == old(right) && up == old(up)
    {
      position := Add(Sub(trainPosition, Scale(trainDirection, FollowDistance)), Scale(UnitY, FollowHeight));
      front := Sub(trainPosition, position);
      UpdateVectors();
    }

    /** Places the camera above the train; the downward front it assigns is overwritten. */
    method SetTopView(trainPosition: Vec3)
      requires Valid()
      modifies this`position, this`front, this`right, this`up
      ensures Valid()
      ensures position == TopViewPosition(trainPosition)
      ensures front == old(front) && right == old(right) && up == old(up)
    {
      position := Add(trainPosition, Scale(UnitY, TopViewHeight));
      front := Neg(UnitY);
      UpdateVectors();
    }

    /** Places the camera beside the train; the front it assigns is overwritten. */
    method SetSideView(trainPosition: Vec3, trainDirection: Vec3)
      requires Valid()
      modifies this`position, this`front, this`right, this`up
      ensures Valid()
      ensures position == SideViewPosition(trainPosition, trainDirection)
      ensures front == old(front) && right == old(right) && up == old(up)
    {
      var sideways := Cross(trainDirection, UnitY);
      position := Add(trainPosition, Scale(sideways, SideViewDistance));
      front := Sub(trainPosition, position);
      UpdateVectors();
    }

    /** The camera's position. */
    function Position(): (r: Vec3)
      reads this
    {
      position
    }

    /** The view direction, which is the one yaw and pitch determine. */
    function Front(): (r: Vec3)
      reads this
      requires Valid()
      ensures r == vectors(yaw, pitch).front
    {
      front
    }

    /** The camera's up vector, which is the one yaw and pitch determine. */
    function Up(): (r: Vec3)
      reads this
      requires Valid()
      ensures r == vectors(yaw, pitch).up
    {
      up
    }
  }
}
