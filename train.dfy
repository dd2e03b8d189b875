// Train: a single body following the track with a clamped speed and no normal offset.
module Train {
  import opened Geometry
  import opened Wrappers
  import opened Track
  import opened Progress

  const InitialSpeed: real := 5.0
  const MaxSpeed: real := 20.0

  /** The as-written step on a freshly built track: GetTrackLength returns 0, so every
      frame's increment is infinite or NaN. */
  method IncrementOnFreshTrack(speed: real, deltaTime: real) returns (r: Option<real>)
    ensures r == None
  {
    var track := new RollerCoasterTrack();
    r := IncrementAsWritten(speed, deltaTime, track.GetTrackLength());
  }

  class Train {
    const track: RollerCoasterTrack
    var speed: real
    var trackParameter: real
    var position: Vec3
    var direction: Vec3
    var normal: Vec3

    /** The cached pose is the track's samples at the parameter. */
    ghost predicate PoseIsCurrent()
      reads this, track
      requires track.Valid()
    {
      var cps := track.controlPoints;
      Some(position) == CurvePosition(cps, trackParameter) &&
      Some(direction) == CurveDirection(cps, trackParameter) &&
      Some(normal) == CurveNormal(cps, trackParameter)
    }

    ghost predicate Valid()
      reads this, track
    {
      track.Valid() &&
      0.0 <= trackParameter &&
      0.0 <= speed <= MaxSpeed &&
      PoseIsCurrent()
    }

    constructor (track: RollerCoasterTrack)
      requires track.Valid()
      ensures Valid()
      ensures this.track == track
      ensures speed == InitialSpeed && trackParameter == 0.0
    {
      this.track := track;
      speed := InitialSpeed;
      trackParameter := 0.0;
      new;
      UpdatePosition();
    }

    method Update(deltaTime: real, trackLength: real)
      requires Valid()
      requires deltaTime >= 0.0 && trackLength > 0.0
      modifies this
      ensures Valid()
      ensures speed == old(speed)
      ensures trackParameter == Wrap(old(trackParameter) + Increment(old(speed), deltaTime, trackLength))
      ensures PoseIsCurrent()
    {
      ghost var p0 := trackParameter;
      IncrementSign(speed, deltaTime, trackLength);
      trackParameter := trackParameter + Increment(speed, deltaTime, trackLength);
      if trackParameter >= 1.0 {
        trackParameter := trackParameter - 1.0;
      }
      WrapNonNegative(p0, Increment(speed, deltaTime, trackLength));
      UpdatePosition();
    }

    method UpdatePosition()
      requires track.Valid() && 0.0 <= trackParameter
      modifies this`position, this`direction, this`normal
      ensures PoseIsCurrent()
    {
      SamplesDefined(track.controlPoints, trackParameter);
      position := track.GetPosition(trackParameter).value;
      direction := track.GetDirection(trackParameter).value;
      normal := track.GetNormal(trackParameter).value;
    }

    /** The cached position, which is the track's position at the parameter. */
    function GetPosition(): (r: Vec3)
      reads this, track
      requires Valid()
      ensures Some(r) == CurvePosition(RealisticControlPoints(), trackParameter)
    {
      position
    }

    /** The cached direction, which is the track's direction at the parameter. */
    function GetDirection(): (r: Vec3)
      reads this, track
      requires Valid()
      ensures Some(r) == CurveDirection(RealisticControlPoints(), trackParameter)
    {
      direction
    }

    /** The cached normal: the track's normal at the parameter, horizontal and orthogonal to the direction. */
    function GetNormal(): (r: Vec3)
      reads this, track
      requires Valid()
      ensures Some(r) == CurveNormal(RealisticControlPoints(), trackParameter)
      ensures r.y == 0.0 && Dot(direction, r) == 0.0
    {
      NormalOrthogonal(track.controlPoints, trackParameter);
      normal
    }

    function GetSpeed(): (r: real)
      reads this, track
      requires Valid()
      ensures 0.0 <= r <= MaxSpeed
    {
      speed
    }

    function GetTrackParameter(): (r: real)
      reads this, track
      requires Valid()
      ensures 0.0 <= r
    {
      trackParameter
    }

    method SetSpeed(newSpeed: real)
      requires Valid()
      modifies this`speed
      ensures Valid()
      ensures speed == Clamp(newSpeed, 0.0, MaxSpeed)
    {
      ClampFacts(newSpeed, 0.0, MaxSpeed);
      speed := Clamp(newSpeed, 0.0, MaxSpeed);
    }
  }

  /** SetSpeed's clamp: the stored speed is within [0, 20], is the request itself when that is
      in range, and a second SetSpeed with the stored value changes nothing. */
  lemma SetSpeedClamp(newSpeed: real)
    ensures 0.0 <= Clamp(newSpeed, 0.0, MaxSpeed) <= MaxSpeed
    ensures 0.0 <= newSpeed <= MaxSpeed ==> Clamp(newSpeed, 0.0, MaxSpeed) == newSpeed
    ensures newSpeed < 0.0 ==> Clamp(newSpeed, 0.0, MaxSpeed) == 0.0
    ensures newSpeed > MaxSpeed ==> Clamp(newSpeed, 0.0, MaxSpeed) == MaxSpeed
    ensures Clamp(Clamp(newSpeed, 0.0, MaxSpeed), 0.0, MaxSpeed) == Clamp(newSpeed, 0.0, MaxSpeed)
  {
    ClampFacts(newSpeed, 0.0, MaxSpeed);
  }
}
