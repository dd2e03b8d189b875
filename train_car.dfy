// TrainCar: a body following the track with a station slow zone, an unclamped speed, and
// its position offset from the centre line along the normal (sideways on the planar track).
module TrainCar {
  import opened Geometry
  import opened Wrappers
  import opened Track
  import opened Progress

  const InitialSpeed: real := 30.0
  /** How far the cached position sits along the normal. */
  const NormalOffset: real := 0.1
  /** Fraction of the speed kept inside the slow zone. */
  const SlowFactor: real := 0.5

  /** The station slow zone: parameters below 0.1 or above 0.9. */
  predicate InSlowZone(p: real) {
    p < 0.1 || p > 0.9
  }

  /** `adjustedSpeed` of Update. */
  function EffectiveSpeed(p: real, speed: real): real {
    if InSlowZone(p) then speed * SlowFactor else speed
  }

  /** The parameter Update computes from the current parameter and speed. */
  function NextParameter(p: real, speed: real, deltaTime: real, trackLength: real): real
    requires trackLength > 0.0
  {
    Wrap(p + Increment(EffectiveSpeed(p, speed), deltaTime, trackLength))
  }

  /** The slow zone halves the speed and leaves it alone elsewhere; it is symmetric about the station. */
  lemma SlowZoneSpeed(p: real, speed: real)
    ensures InSlowZone(p) ==> EffectiveSpeed(p, speed) == speed / 2.0
    ensures !InSlowZone(p) ==> EffectiveSpeed(p, speed) == speed
    ensures EffectiveSpeed(1.0 - p, speed) == EffectiveSpeed(p, speed)
    ensures speed >= 0.0 ==> speed / 2.0 <= EffectiveSpeed(p, speed) <= speed
  {
  }

  /** A car in [0,1) moving forward by less than a lap stays in [0,1); moving forward at all it
      never becomes negative, so the track can always be sampled. */
  lemma CarStepStaysOnTrack(p: real, speed: real, deltaTime: real, trackLength: real)
    requires 0.0 <= p && 0.0 <= speed && 0.0 <= deltaTime && trackLength > 0.0
    ensures 0.0 <= NextParameter(p, speed, deltaTime, trackLength)
    ensures p < 1.0 && Increment(EffectiveSpeed(p, speed), deltaTime, trackLength) < 1.0 ==>
      NextParameter(p, speed, deltaTime, trackLength) < 1.0
    ensures Samplable(RealisticControlPoints(), NextParameter(p, speed, deltaTime, trackLength))
  {
    var inc := Increment(EffectiveSpeed(p, speed), deltaTime, trackLength);
    SlowZoneSpeed(p, speed);
    IncrementSign(EffectiveSpeed(p, speed), deltaTime, trackLength);
    WrapNonNegative(p, inc);
    SamplesDefined(RealisticControlPoints(), NextParameter(p, speed, deltaTime, trackLength));
  }

  class TrainCar {
    const track: RollerCoasterTrack
    var speed: real
    var trackParameter: real
    var position: Vec3
    var direction: Vec3
    var normal: Vec3

    /** The cached pose is the track's samples at the parameter, the position offset by
        NormalOffset along the normal, which on the hard-coded track points sideways (along z). */
    ghost predicate PoseIsCurrent()
      reads this, track
      requires track.Valid()
    {
      var cps := track.controlPoints;
      Samplable(cps, trackParameter) &&
      position == Add(CurvePosition(cps, trackParameter).value, Scale(CurveNormal(cps, trackParameter).value, NormalOffset)) &&
      Some(direction) == CurveDirection(cps, trackParameter) &&
      Some(normal) == CurveNormal(cps, trackParameter)
    }

    ghost predicate Valid()
      reads this, track
    {
      track.Valid() && PoseIsCurrent()
    }

    constructor (track: RollerCoasterTrack, initialTrackParameter: real)
      requires track.Valid()
      requires Samplable(track.controlPoints, initialTrackParameter)
      ensures Valid()
      ensures this.track == track
      ensures trackParameter == initialTrackParameter && speed == InitialSpeed
    {
      this.track := track;
      trackParameter := initialTrackParameter;
      speed := InitialSpeed;
      new;
      UpdatePosition();
    }

    method Update(deltaTime: real, trackLength: real)
      requires Valid() && trackLength > 0.0
      requires Samplable(track.controlPoints, NextParameter(trackParameter, speed, deltaTime, trackLength))
      modifies this
      ensures Valid()
      ensures speed == old(speed)
      ensures trackParameter == NextParameter(old(trackParameter), old(speed), deltaTime, trackLength)
      ensures PoseIsCurrent()
    {
      ghost var next := NextParameter(trackParameter, speed, deltaTime, trackLength);
      var adjustedSpeed := speed;
      if trackParameter < 0.1 || trackParameter > 0.9 {
        adjustedSpeed := adjustedSpeed * SlowFactor;
      }
      assert adjustedSpeed == EffectiveSpeed(old(trackParameter), speed);
      trackParameter := trackParameter + Increment(adjustedSpeed, deltaTime, trackLength);
      if trackParameter >= 1.0 {
        trackParameter := trackParameter - 1.0;
      }
      assert trackParameter == next;
      UpdatePosition();
    }

    method UpdatePosition()
      requires track.Valid() && Samplable(track.controlPoints, trackParameter)
      modifies this`position, this`direction, this`normal
      ensures PoseIsCurrent()
    {
      position := track.GetPosition(trackParameter).value;
      direction := track.GetDirection(trackParameter).value;
      normal := track.GetNormal(trackParameter).value;
      position := Add(position, Scale(normal, NormalOffset));
    }

    /** The cached position: the track point at the parameter, offset along the normal. */
    function GetPosition(): (r: Vec3)
      reads this, track
      requires Valid()
      ensures Sub(r, Scale(normal, NormalOffset)) == CurvePosition(RealisticControlPoints(), trackParameter).value
    {
      position
    }

    /** The cached direction, which is the track's direction at the parameter. */
    function GetDirection(): (r: Vec3)
      reads this, track
      requires Valid()
      ensures Some(r) == CurveDirection(RealisticControlPoints(), trackParameter)
    {
      direction
    }

    /** The cached normal, which is the track's normal at the parameter. */
    function GetNormal(): (r: Vec3)
      reads this, track
      requires Valid()
      ensures Some(r) == CurveNormal(RealisticControlPoints(), trackParameter)
    {
      normal
    }

    function GetTrackParameter(): (r: real)
      reads this, track
      requires Valid()
      ensures Samplable(RealisticControlPoints(), r)
    {
      trackParameter
    }

    /** Stores the new speed as given: no clamp. */
    method SetSpeed(newSpeed: real)
      requires Valid()
      modifies this`speed
      ensures Valid()
      ensures speed == newSpeed
    {
      speed := newSpeed;
    }
  }
}
