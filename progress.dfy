// How Train and TrainCar advance their track parameter each frame.
module Progress {
  import opened Wrappers

  /** The single wrap of Update: once the parameter reaches 1 it loses one lap. */
  function Wrap(p: real): real {
    if p >= 1.0 then p - 1.0 else p
  }

  /** `(speed * deltaTime) / trackLength`, for a positive track length. */
  function Increment(speed: real, deltaTime: real, trackLength: real): real
    requires trackLength > 0.0
  {
    (speed * deltaTime) / trackLength
  }

  /** The increment as the source computes it from GetTrackLength: a zero length gives an
      infinite or NaN float, represented here by None. */
  function IncrementAsWritten(speed: real, deltaTime: real, trackLength: real): Option<real> {
    if trackLength == 0.0 then None else Some((speed * deltaTime) / trackLength)
  }

  /** With a positive length the as-written increment is the finite one. */
  lemma IncrementAsWrittenAgrees(speed: real, deltaTime: real, trackLength: real)
    requires trackLength > 0.0
    ensures IncrementAsWritten(speed, deltaTime, trackLength) == Some(Increment(speed, deltaTime, trackLength))
  {
  }

  /** A non-negative speed over a non-negative time never moves the parameter backwards;
      a zero speed or a zero time does not move it at all. */
  lemma IncrementSign(speed: real, deltaTime: real, trackLength: real)
    requires trackLength > 0.0
    ensures speed >= 0.0 && deltaTime >= 0.0 ==> Increment(speed, deltaTime, trackLength) >= 0.0
    ensures speed == 0.0 || deltaTime == 0.0 ==> Increment(speed, deltaTime, trackLength) == 0.0
  {
    if speed >= 0.0 && deltaTime >= 0.0 {
      assert speed * deltaTime >= 0.0;
    }
  }

  /** A parameter in [0,1) advanced by an increment in [0,1) stays in [0,1) after the wrap. */
  lemma WrapStaysInLap(p: real, inc: real)
    requires 0.0 <= p < 1.0 && 0.0 <= inc < 1.0
    ensures 0.0 <= Wrap(p + inc) < 1.0
    ensures Wrap(p + inc) == if p + inc < 1.0 then p + inc else p + inc - 1.0
  {
  }

  /** The wrap subtracts only once: after an increment of a lap or more the parameter has not
      gone back below where it was, and it is still 1 or more exactly when p + inc >= 2. */
  lemma WrapOnlyOnce(p: real, inc: real)
    requires 0.0 <= p && inc >= 1.0
    ensures Wrap(p + inc) == p + inc - 1.0 >= p
    ensures Wrap(p + inc) >= 1.0 <==> p + inc >= 2.0
  {
  }

  /** A non-negative parameter stays non-negative under a non-negative increment. */
  lemma WrapNonNegative(p: real, inc: real)
    requires 0.0 <= p && 0.0 <= inc
    ensures 0.0 <= Wrap(p + inc)
  {
  }
}
