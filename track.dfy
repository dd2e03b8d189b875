// The roller-coaster track: a closed polyline through hard-coded control points,
// sampled by a parameter t with C#'s float remainder and integer-cast semantics (over reals).
module Track {
  import opened Geometry
  import opened Wrappers

  /** The control points CreateRealisticTrack appends, in order: station, first hill, loop,
      second hill, return, and the station again. */
  function RealisticControlPoints(): seq<Vec3> {
    [Vec3(0.0, 0.0, 0.0),
     Vec3(10.0, 5.0, 0.0),
     Vec3(20.0, 10.0, 0.0), Vec3(30.0, 10.0, 0.0), Vec3(40.0, 5.0, 0.0),
     Vec3(50.0, 8.0, 0.0),
     Vec3(60.0, 0.0, 0.0), Vec3(0.0, 0.0, 0.0)]
  }

  /** The step of GetDirection's forward difference. */
  const DirectionDelta: real := 0.01

  /** C#'s `(int)x`: truncation toward zero. */
  function Truncate(x: real): int {
    if x >= 0.0 then x.Floor else -((-x).Floor)
  }

  /** C#'s `t % 1.0f`: the remainder keeps the sign of t. */
  function Rem1(t: real): real {
    t - Truncate(t) as real
  }

  /** `numSegments` of GetPosition. */
  function SegmentCount(cps: seq<Vec3>): int {
    |cps| - 1
  }

  /** `segmentLength` of GetPosition. */
  function SegmentLength(cps: seq<Vec3>): real
    requires |cps| >= 2
  {
    1.0 / SegmentCount(cps) as real
  }

  /** `segment` of GetPosition, computed from the reduced parameter. */
  function SegmentIndex(cps: seq<Vec3>, t: real): int
    requires |cps| >= 2
  {
    Truncate(Rem1(t) / SegmentLength(cps))
  }

  /** `localT` of GetPosition. */
  function LocalT(cps: seq<Vec3>, t: real): real
    requires |cps| >= 2
  {
    (Rem1(t) - SegmentIndex(cps, t) as real * SegmentLength(cps)) / SegmentLength(cps)
  }

  /** GetPosition. None stands for the list read `_controlPoints[segment]` failing, which
      happens when the reduced parameter is negative enough to give a negative segment. */
  function CurvePosition(cps: seq<Vec3>, t: real): Option<Vec3>
    requires |cps| >= 2
  {
    var segment := SegmentIndex(cps, t);
    if 0 <= segment < |cps| then
      Some(Lerp(cps[segment], cps[(segment + 1) % |cps|], LocalT(cps, t)))
    else
      None
  }

  /** GetDirection before its final Vector3.Normalize: the forward difference over DirectionDelta. */
  function CurveDirection(cps: seq<Vec3>, t: real): Option<Vec3>
    requires |cps| >= 2
  {
    var pos1 := CurvePosition(cps, t);
    var pos2 := CurvePosition(cps, Rem1(t + DirectionDelta));
    if pos1.Some? && pos2.Some? then Some(Sub(pos2.value, pos1.value)) else None
  }

  /** GetNormal before its final Vector3.Normalize: direction crossed with the world up axis. */
  function CurveNormal(cps: seq<Vec3>, t: real): Option<Vec3>
    requires |cps| >= 2
  {
    var d := CurveDirection(cps, t);
    if d.Some? then Some(Cross(d.value, UnitY)) else None
  }

  /** All three samples can be taken at t without a failing list read. */
  predicate Samplable(cps: seq<Vec3>, t: real)
    requires |cps| >= 2
  {
    CurvePosition(cps, t).Some? && CurveDirection(cps, t).Some? && CurveNormal(cps, t).Some?
  }

  // ---------------------------------------------------------------------------------------
  // Arithmetic of the reduced parameter

  lemma RemOfNonNegative(t: real)
    requires t >= 0.0
    ensures Rem1(t) == t - t.Floor as real
    ensures 0.0 <= Rem1(t) < 1.0
    ensures Rem1(Rem1(t)) == Rem1(t)
    ensures Rem1(t + 1.0) == Rem1(t)
  {
    assert (t + 1.0).Floor == t.Floor + 1;
    assert Rem1(t).Floor == 0;
  }

  lemma FractionScaled(r: real, n: real)
    requires 0.0 <= r < 1.0 && n > 0.0
    ensures 0.0 <= r * n < n
  {
    ProductNonNegative(r, n);
    ProductNonNegative(1.0 - r, n);
    assert (1.0 - r) * n > 0.0 by {
      assert (1.0 - r) * n == n - r * n;
      if (1.0 - r) * n == 0.0 {
        assert 1.0 - r > 0.0;
      }
    }
  }

  lemma DivideByReciprocal(r: real, n: int)
    requires n > 0
    ensures r / (1.0 / n as real) == r * n as real
  {
  }

  lemma FloorWithin(x: real, n: int)
    requires 0.0 <= x < n as real
    ensures 0 <= x.Floor < n
  {
  }

  lemma LocalBlend(r: real, k: int, n: int)
    requires n > 0
    ensures (r - k as real * (1.0 / n as real)) / (1.0 / n as real) == r * n as real - k as real
  {
    var m := 1.0 / n as real;
    assert m * n as real == 1.0;
    assert (r - k as real * m) / m == (r - k as real * m) * n as real;
    assert (r - k as real * m) * n as real == r * n as real - k as real * (m * n as real);
  }

  /** The segment arithmetic of GetPosition on a reduced parameter r in [0, 1). */
  lemma SegmentArithmetic(r: real, n: int)
    requires 0.0 <= r < 1.0 && n > 0
    ensures var k := Truncate(r / (1.0 / n as real));
      0 <= k < n &&
      (r - k as real * (1.0 / n as real)) / (1.0 / n as real) == r * n as real - k as real &&
      0.0 <= r * n as real - k as real < 1.0
  {
    DivideByReciprocal(r, n);
    FractionScaled(r, n as real);
    FloorWithin(r * n as real, n);
    var k := Truncate(r / (1.0 / n as real));
    assert k == (r * n as real).Floor;
    LocalBlend(r, k, n);
  }

  /** For t >= 0 the segment index is a valid segment, both list reads are in range,
      the `% Count` of the second read does not wrap, and localT lies in [0, 1). */
  lemma SegmentFacts(cps: seq<Vec3>, t: real)
    requires |cps| >= 2 && t >= 0.0
    ensures 0 <= SegmentIndex(cps, t) < SegmentCount(cps)
    ensures (SegmentIndex(cps, t) + 1) % |cps| == SegmentIndex(cps, t) + 1
    ensures LocalT(cps, t) == Rem1(t) * SegmentCount(cps) as real - SegmentIndex(cps, t) as real
    ensures 0.0 <= LocalT(cps, t) < 1.0
  {
    RemOfNonNegative(t);
    SegmentArithmetic(Rem1(t), SegmentCount(cps));
  }

  /** For t >= 0, position, direction and normal are all defined. */
  lemma SamplesDefined(cps: seq<Vec3>, t: real)
    requires |cps| >= 2 && t >= 0.0
    ensures Samplable(cps, t)
  {
    SegmentFacts(cps, t);
    SegmentFacts(cps, Rem1(t + DirectionDelta));
  }

  /** A reduced parameter at or below -1/numSegments gives a negative segment, so the list read fails. */
  lemma NegativeParameterFails(cps: seq<Vec3>, t: real)
    requires |cps| >= 2
    requires Rem1(t) * SegmentCount(cps) as real <= -1.0
    ensures CurvePosition(cps, t) == None
  {
    var n := SegmentCount(cps) as real;
    assert Rem1(t) / SegmentLength(cps) == Rem1(t) * n;
  }

  // ---------------------------------------------------------------------------------------
  // Shape of the curve

  /** For t >= 0, GetPosition interpolates linearly inside segment k = SegmentIndex, with
      blend localT = numSegments * (t % 1) - k. */
  lemma PositionOnSegment(cps: seq<Vec3>, t: real)
    requires |cps| >= 2 && t >= 0.0
    ensures var k := SegmentIndex(cps, t);
      0 <= k < SegmentCount(cps) &&
      CurvePosition(cps, t) == Some(Lerp(cps[k], cps[k + 1], LocalT(cps, t))) &&
      LocalT(cps, t) == Rem1(t) * SegmentCount(cps) as real - k as real
  {
    SegmentFacts(cps, t);
  }

  /** For t >= 0 the position lies coordinate-wise between the two ends of its segment. */
  lemma PositionBetweenEnds(cps: seq<Vec3>, t: real)
    requires |cps| >= 2 && t >= 0.0
    ensures var k := SegmentIndex(cps, t);
      0 <= k < SegmentCount(cps) &&
      CurvePosition(cps, t).Some? && InBox(cps[k], cps[k + 1], CurvePosition(cps, t).value)
  {
    SegmentFacts(cps, t);
    var k := SegmentIndex(cps, t);
    LerpInBox(cps[k], cps[k + 1], LocalT(cps, t));
  }

  /** The parameter k / numSegments lands exactly on control point k. */
  lemma PositionAtVertex(cps: seq<Vec3>, k: int)
    requires |cps| >= 2 && 0 <= k < SegmentCount(cps)
    ensures CurvePosition(cps, k as real / SegmentCount(cps) as real) == Some(cps[k])
  {
    var n := SegmentCount(cps) as real;
    var t := k as real / n;
    assert 0.0 <= t < 1.0 by {
      assert t * n == k as real;
    }
    RemOfNonNegative(t);
    assert t.Floor == 0;
    assert Rem1(t) == t;
    assert t / SegmentLength(cps) == k as real;
    assert SegmentIndex(cps, t) == k;
    assert LocalT(cps, t) == 0.0;
  }

  /** Segment k at blend 1 is where segment k + 1 starts (for the last segment of a closed
      polyline, where the parameter 1 wraps to the start): the curve is continuous. */
  lemma SegmentsJoin(cps: seq<Vec3>, k: int)
    requires |cps| >= 2 && 0 <= k < SegmentCount(cps)
    requires k + 1 == SegmentCount(cps) ==> cps[0] == cps[|cps| - 1]
    ensures CurvePosition(cps, (k + 1) as real / SegmentCount(cps) as real) == Some(Lerp(cps[k], cps[k + 1], 1.0))
  {
    var n := SegmentCount(cps);
    if k + 1 < n {
      PositionAtVertex(cps, k + 1);
    } else {
      assert (k + 1) as real / n as real == 1.0;
      assert Rem1(1.0) == 0.0;
      PositionAtVertex(cps, 0);
      assert 0 as real / n as real == 0.0;
    }
  }

  /** For t >= 0 every sample repeats with period 1. */
  lemma SamplesPeriodic(cps: seq<Vec3>, t: real)
    requires |cps| >= 2 && t >= 0.0
    ensures CurvePosition(cps, t + 1.0) == CurvePosition(cps, t)
    ensures CurveDirection(cps, t + 1.0) == CurveDirection(cps, t)
    ensures CurveNormal(cps, t + 1.0) == CurveNormal(cps, t)
  {
    RemOfNonNegative(t);
    SameRemainderSameSample(cps, t + 1.0, t);
    RemOfNonNegative(t + DirectionDelta);
    assert t + 1.0 + DirectionDelta == (t + DirectionDelta) + 1.0;
    assert CurveDirection(cps, t + 1.0) == CurveDirection(cps, t);
  }

  /** A sample depends on the parameter only through its remainder. */
  lemma SameRemainderSameSample(cps: seq<Vec3>, t: real, u: real)
    requires |cps| >= 2 && Rem1(t) == Rem1(u)
    ensures CurvePosition(cps, t) == CurvePosition(cps, u)
  {
    assert SegmentIndex(cps, t) == SegmentIndex(cps, u);
    assert LocalT(cps, t) == LocalT(cps, u);
  }

  /** When t and t + delta lie in the same lap and the same segment, the forward difference is
      delta * numSegments times the segment's own vector: the direction is parallel to the segment. */
  lemma DirectionAlongSegment(cps: seq<Vec3>, t: real)
    requires |cps| >= 2 && t >= 0.0
    requires Rem1(t) + DirectionDelta < 1.0
    requires SegmentIndex(cps, t + DirectionDelta) == SegmentIndex(cps, t)
    ensures var k := SegmentIndex(cps, t);
      0 <= k < SegmentCount(cps) &&
      CurveDirection(cps, t) == Some(Scale(Sub(cps[k + 1], cps[k]), DirectionDelta * SegmentCount(cps) as real))
  {
    var k := SegmentIndex(cps, t);
    var ru := Rem1(t + DirectionDelta);
    LocalStep(cps, t);
    ShiftedRemainder(t);
    PositionOnSegment(cps, t);
    PositionOnSegment(cps, ru);
    var a := LocalT(cps, t);
    var b := LocalT(cps, ru);
    LerpStep(cps[k], cps[k + 1], a, b, DirectionDelta * SegmentCount(cps) as real);
    DirectionFromPositions(cps, t, Lerp(cps[k], cps[k + 1], a), Lerp(cps[k], cps[k + 1], b));
  }

  /** The step by DirectionDelta stays on the segment and advances localT by DirectionDelta * numSegments. */
  lemma LocalStep(cps: seq<Vec3>, t: real)
    requires |cps| >= 2 && t >= 0.0
    requires Rem1(t) + DirectionDelta < 1.0
    requires SegmentIndex(cps, t + DirectionDelta) == SegmentIndex(cps, t)
    ensures SegmentIndex(cps, Rem1(t + DirectionDelta)) == SegmentIndex(cps, t)
    ensures LocalT(cps, Rem1(t + DirectionDelta)) - LocalT(cps, t) == DirectionDelta * SegmentCount(cps) as real
  {
    SameSegmentAfterStep(cps, t);
    ShiftedRemainder(t);
    LocalTDifference(cps, t, Rem1(t + DirectionDelta));
  }

  /** Two parameters on the same segment whose remainders differ by DirectionDelta. */
  lemma LocalTDifference(cps: seq<Vec3>, t: real, u: real)
    requires |cps| >= 2 && t >= 0.0 && u >= 0.0
    requires Rem1(u) == Rem1(t) + DirectionDelta && SegmentIndex(cps, u) == SegmentIndex(cps, t)
    ensures LocalT(cps, u) - LocalT(cps, t) == DirectionDelta * SegmentCount(cps) as real
  {
    SegmentFacts(cps, t);
    SegmentFacts(cps, u);
    BlendStep(Rem1(t), Rem1(u), SegmentCount(cps) as real, SegmentIndex(cps, t) as real, SegmentIndex(cps, u) as real,
              LocalT(cps, t), LocalT(cps, u));
  }

  lemma SameSegmentAfterStep(cps: seq<Vec3>, t: real)
    requires |cps| >= 2 && t >= 0.0
    requires Rem1(t) + DirectionDelta < 1.0
    requires SegmentIndex(cps, t + DirectionDelta) == SegmentIndex(cps, t)
    ensures SegmentIndex(cps, Rem1(t + DirectionDelta)) == SegmentIndex(cps, t)
  {
    ShiftedRemainder(t);
  }

  lemma DirectionFromPositions(cps: seq<Vec3>, t: real, p: Vec3, q: Vec3)
    requires |cps| >= 2
    requires CurvePosition(cps, t) == Some(p) && CurvePosition(cps, Rem1(t + DirectionDelta)) == Some(q)
    ensures CurveDirection(cps, t) == Some(Sub(q, p))
  {
  }

  /** Within one lap the step by DirectionDelta does not wrap. */
  lemma ShiftedRemainder(t: real)
    requires t >= 0.0 && Rem1(t) + DirectionDelta < 1.0
    ensures Rem1(t + DirectionDelta) == Rem1(t) + DirectionDelta
    ensures Rem1(t + DirectionDelta) >= 0.0
    ensures Rem1(Rem1(t + DirectionDelta)) == Rem1(t) + DirectionDelta
  {
    RemOfNonNegative(t);
    assert (t + DirectionDelta).Floor == t.Floor;
    RemOfNonNegative(t + DirectionDelta);
  }

  /** Two blends on the same segment differ by the parameter step times the segment count. */
  lemma BlendStep(ra: real, rb: real, n: real, ka: real, kb: real, a: real, b: real)
    requires a == ra * n - ka && b == rb * n - kb && ka == kb && rb == ra + DirectionDelta
    ensures b - a == DirectionDelta * n
  {
  }

  lemma LerpStep(p: Vec3, q: Vec3, u: real, v: real, d: real)
    requires v - u == d
    ensures Sub(Lerp(p, q, v), Lerp(p, q, u)) == Scale(Sub(q, p), d)
  {
    LerpDifference(p, q, u, v);
  }

  /** The cross product with the world up axis is horizontal and orthogonal to its argument. */
  lemma CrossUpFacts(d: Vec3)
    ensures Cross(d, UnitY) == Vec3(-d.z, 0.0, d.x)
    ensures Dot(d, Cross(d, UnitY)) == 0.0
  {
    assert d.x * -d.z + d.z * d.x == 0.0;
  }

  /** For t >= 0 the normal is (-d.z, 0, d.x) for the direction d: horizontal and orthogonal to d. */
  lemma NormalOrthogonal(cps: seq<Vec3>, t: real)
    requires |cps| >= 2 && t >= 0.0
    ensures CurveDirection(cps, t).Some? && CurveNormal(cps, t).Some?
    ensures var d := CurveDirection(cps, t).value;
      var nrm := CurveNormal(cps, t).value;
      nrm == Vec3(-d.z, 0.0, d.x) && nrm.y == 0.0 && Dot(d, nrm) == 0.0
  {
    SamplesDefined(cps, t);
    CrossUpFacts(CurveDirection(cps, t).value);
  }

  /** Normalisation rescales by a positive factor; a horizontal normal orthogonal to the direction
      stays so after both vectors are rescaled. */
  lemma RescalingKeepsNormalFacts(d: Vec3, a: real, b: real)
    requires a > 0.0 && b > 0.0
    ensures Scale(Cross(d, UnitY), a).y == 0.0
    ensures Dot(Scale(d, b), Scale(Cross(d, UnitY), a)) == 0.0
  {
    assert Cross(d, UnitY) == Vec3(-d.z, 0.0, d.x);
    assert (d.x * b) * (-d.z * a) + (d.z * b) * (d.x * a) == 0.0;
  }

  // ---------------------------------------------------------------------------------------
  // The hard-coded track

  /** Eight control points, first and last the station at the origin: seven segments, closed. */
  lemma RealisticTrackShape()
    ensures |RealisticControlPoints()| == 8 && SegmentCount(RealisticControlPoints()) == 7
    ensures RealisticControlPoints()[0] == RealisticControlPoints()[7] == Zero
  {
  }

  /** Every position of the hard-coded track lies in the plane z = 0, with 0 <= x <= 60 and 0 <= y <= 10. */
  lemma RealisticTrackBounds(t: real)
    requires t >= 0.0
    ensures CurvePosition(RealisticControlPoints(), t).Some?
    ensures var p := CurvePosition(RealisticControlPoints(), t).value;
      0.0 <= p.x <= 60.0 && 0.0 <= p.y <= 10.0 && p.z == 0.0
  {
    var cps := RealisticControlPoints();
    PositionBetweenEnds(cps, t);
    var k := SegmentIndex(cps, t);
    assert forall i :: 0 <= i < |cps| ==> 0.0 <= cps[i].x <= 60.0 && 0.0 <= cps[i].y <= 10.0 && cps[i].z == 0.0;
    assert 0 <= k < 7;
  }

  /** On a track of seven segments, a parameter in [0, 1) with 7 * t in [k, k + 1) lies on
      segment k, from a to b, with blend 7 * t - k. */
  lemma PositionAt(cps: seq<Vec3>, t: real, k: int, a: Vec3, b: Vec3, blend: real)
    requires |cps| == 8 && 0.0 <= t < 1.0 && 0 <= k < 7 && cps[k] == a && cps[k + 1] == b
    requires k as real <= t * 7.0 < k as real + 1.0
    requires blend == t * 7.0 - k as real
    ensures CurvePosition(cps, t) == Some(Lerp(a, b, blend))
  {
    IndexAt(cps, t, k);
    SegmentFacts(cps, t);
  }

  /** The segment index of such a parameter is k, and the reduced parameter is t itself. */
  lemma IndexAt(cps: seq<Vec3>, t: real, k: int)
    requires |cps| == 8 && 0.0 <= t < 1.0
    requires k as real <= t * 7.0 < k as real + 1.0
    ensures Rem1(t) == t
    ensures SegmentIndex(cps, t) == k
  {
    assert t.Floor == 0;
    DivideByReciprocal(t, 7);
    assert (t * 7.0).Floor == k;
  }

  /** The difference of the two samples at the return seam is vertical, so its cross product
      with up vanishes. */
  lemma ReturnSeamDifference()
    ensures Sub(Vec3(59.4, 0.0, 0.0), Vec3(59.4, 0.48, 0.0)) == Vec3(0.0, -0.48, 0.0)
    ensures Cross(Vec3(0.0, -0.48, 0.0), UnitY) == Zero
  {
  }

  /** Likewise at the station. */
  lemma StationSeamDifference()
    ensures Sub(Vec3(0.6, 0.3, 0.0), Vec3(0.6, 0.0, 0.0)) == Vec3(0.0, 0.3, 0.0)
    ensures Cross(Vec3(0.0, 0.3, 0.0), UnitY) == Zero
  {
  }

  /** GetDirection's step from the two seam parameters, 5.94/7 and 6.99/7, without and with a
      wrap past the end of the lap. */
  lemma SeamStep(t: real, u: real)
    requires (t * 7.0 == 5.94 && u * 7.0 == 6.01) || (t * 7.0 == 6.99 && u * 7.0 == 0.06)
    ensures Rem1(t + DirectionDelta) == u
  {
    RemOfNonNegative(t + DirectionDelta);
  }

  /** Direction and normal before normalisation, from the two samples GetDirection takes. */
  lemma NormalFromPositions(cps: seq<Vec3>, t: real, u: real, p: Vec3, q: Vec3)
    requires |cps| >= 2 && Rem1(t + DirectionDelta) == u
    requires CurvePosition(cps, t) == Some(p) && CurvePosition(cps, u) == Some(q)
    ensures CurveDirection(cps, t) == Some(Sub(q, p))
    ensures CurveNormal(cps, t) == Some(Cross(Sub(q, p), UnitY))
  {
  }

  /** The sample near the foot of the second hill's descent (segment 5, blend 0.94). */
  lemma DescentSample(cps: seq<Vec3>, t: real)
    requires |cps| == 8 && cps[5] == Vec3(50.0, 8.0, 0.0) && cps[6] == Vec3(60.0, 0.0, 0.0)
    requires t * 7.0 == 5.94
    ensures CurvePosition(cps, t) == Some(Vec3(59.4, 0.48, 0.0))
  {
    PositionAt(cps, t, 5, Vec3(50.0, 8.0, 0.0), Vec3(60.0, 0.0, 0.0), 0.94);
  }

  /** The sample just after the start of the return leg (segment 6, blend 0.01). */
  lemma ReturnSample(cps: seq<Vec3>, u: real)
    requires |cps| == 8 && cps[6] == Vec3(60.0, 0.0, 0.0) && cps[7] == Vec3(0.0, 0.0, 0.0)
    requires u * 7.0 == 6.01
    ensures CurvePosition(cps, u) == Some(Vec3(59.4, 0.0, 0.0))
  {
    PositionAt(cps, u, 6, Vec3(60.0, 0.0, 0.0), Vec3(0.0, 0.0, 0.0), 0.01);
  }

  /** The last sample of the lap, near the end of the return leg (segment 6, blend 0.99). */
  lemma LapEndSample(cps: seq<Vec3>, t: real)
    requires |cps| == 8 && cps[6] == Vec3(60.0, 0.0, 0.0) && cps[7] == Vec3(0.0, 0.0, 0.0)
    requires t * 7.0 == 6.99
    ensures CurvePosition(cps, t) == Some(Vec3(0.6, 0.0, 0.0))
  {
    PositionAt(cps, t, 6, Vec3(60.0, 0.0, 0.0), Vec3(0.0, 0.0, 0.0), 0.99);
  }

  /** The first sample of the next lap, on the climb of the first hill (segment 0, blend 0.06). */
  lemma LapStartSample(cps: seq<Vec3>, u: real)
    requires |cps| == 8 && cps[0] == Vec3(0.0, 0.0, 0.0) && cps[1] == Vec3(10.0, 5.0, 0.0)
    requires u * 7.0 == 0.06
    ensures CurvePosition(cps, u) == Some(Vec3(0.6, 0.3, 0.0))
  {
    PositionAt(cps, u, 0, Vec3(0.0, 0.0, 0.0), Vec3(10.0, 5.0, 0.0), 0.06);
  }

  lemma ReturnSeam(cps: seq<Vec3>, t: real, u: real)
    requires |cps| == 8 && cps[5] == Vec3(50.0, 8.0, 0.0) && cps[6] == Vec3(60.0, 0.0, 0.0)
    requires cps[7] == Vec3(0.0, 0.0, 0.0)
    requires t * 7.0 == 5.94 && u * 7.0 == 6.01
    ensures CurveDirection(cps, t) == Some(Vec3(0.0, -0.48, 0.0))
    ensures CurveNormal(cps, t) == Some(Zero)
  {
    SeamStep(t, u);
    DescentSample(cps, t);
    ReturnSample(cps, u);
    NormalFromPositions(cps, t, u, Vec3(59.4, 0.48, 0.0), Vec3(59.4, 0.0, 0.0));
    ReturnSeamDifference();
  }

  lemma StationSeam(cps: seq<Vec3>, t: real, u: real)
    requires |cps| == 8 && cps[6] == Vec3(60.0, 0.0, 0.0) && cps[7] == Vec3(0.0, 0.0, 0.0)
    requires cps[0] == Vec3(0.0, 0.0, 0.0) && cps[1] == Vec3(10.0, 5.0, 0.0)
    requires t * 7.0 == 6.99 && u * 7.0 == 0.06
    ensures CurveDirection(cps, t) == Some(Vec3(0.0, 0.3, 0.0))
    ensures CurveNormal(cps, t) == Some(Zero)
  {
    SeamStep(t, u);
    LapEndSample(cps, t);
    LapStartSample(cps, u);
    NormalFromPositions(cps, t, u, Vec3(0.6, 0.0, 0.0), Vec3(0.6, 0.3, 0.0));
    StationSeamDifference();
  }

  /** Every sample of the hard-coded track lies in the plane z = 0, so the direction has no z
      part and the normal (0, 0, d.x) points across the track, sideways, and never up. */
  lemma RealisticNormalSideways(t: real)
    requires t >= 0.0
    ensures CurveDirection(RealisticControlPoints(), t).Some? && CurveNormal(RealisticControlPoints(), t).Some?
    ensures var d := CurveDirection(RealisticControlPoints(), t).value;
      d.z == 0.0 && CurveNormal(RealisticControlPoints(), t).value == Vec3(0.0, 0.0, d.x)
  {
    var cps := RealisticControlPoints();
    RemOfNonNegative(t + DirectionDelta);
    RealisticTrackBounds(t);
    RealisticTrackBounds(Rem1(t + DirectionDelta));
    NormalOrthogonal(cps, t);
  }

  /** Where the forward difference spans the join of the second hill's descent and the return
      leg, both samples have x = 59.4: the direction is vertical and the normal before
      normalisation is the zero vector, which Vector3.Normalize cannot scale to unit length. */
  lemma NormalVanishesBeforeReturn()
    ensures CurveDirection(RealisticControlPoints(), 5.94 / 7.0) == Some(Vec3(0.0, -0.48, 0.0))
    ensures CurveNormal(RealisticControlPoints(), 5.94 / 7.0) == Some(Zero)
  {
    ReturnSeam(RealisticControlPoints(), 5.94 / 7.0, 6.01 / 7.0);
  }

  /** Where the forward difference spans the station, across the end of the lap, both samples
      have x = 0.6: again the direction is vertical and the normal is the zero vector. */
  lemma NormalVanishesAtStation()
    ensures CurveDirection(RealisticControlPoints(), 6.99 / 7.0) == Some(Vec3(0.0, 0.3, 0.0))
    ensures CurveNormal(RealisticControlPoints(), 6.99 / 7.0) == Some(Zero)
  {
    StationSeam(RealisticControlPoints(), 6.99 / 7.0, 0.06 / 7.0);
  }

  // ---------------------------------------------------------------------------------------
  // RollerCoasterTrack

  class RollerCoasterTrack {
    var controlPoints: seq<Vec3>
    var trackLength: real

    /** The control points are the hard-coded ones; the length field keeps its default 0,
        since nothing in the class assigns it. */
    ghost predicate Valid()
      reads this
    {
      controlPoints == RealisticControlPoints() && trackLength == 0.0
    }

    constructor ()
      ensures Valid()
    {
      controlPoints := [];
      trackLength := 0.0;
      new;
      CreateRealisticTrack();
    }

    method CreateRealisticTrack()
      modifies this
      ensures controlPoints == old(controlPoints) + RealisticControlPoints()
      ensures trackLength == old(trackLength)
    {
      controlPoints := controlPoints + [Vec3(0.0, 0.0, 0.0)];
      controlPoints := controlPoints + [Vec3(10.0, 5.0, 0.0)];
      controlPoints := controlPoints + [Vec3(20.0, 10.0, 0.0)];
      controlPoints := controlPoints + [Vec3(30.0, 10.0, 0.0)];
      controlPoints := controlPoints + [Vec3(40.0, 5.0, 0.0)];
      controlPoints := controlPoints + [Vec3(50.0, 8.0, 0.0)];
      controlPoints := controlPoints + [Vec3(60.0, 0.0, 0.0)];
      controlPoints := controlPoints + [Vec3(0.0, 0.0, 0.0)];
    }

    function GetPosition(t: real): (r: Option<Vec3>)
      reads this
      requires Valid()
      ensures r == CurvePosition(RealisticControlPoints(), t)
      ensures t >= 0.0 ==> r.Some?
    {
      if t >= 0.0 then SamplesDefined(controlPoints, t); CurvePosition(controlPoints, t)
      else CurvePosition(controlPoints, t)
    }

    function GetDirection(t: real): (r: Option<Vec3>)
      reads this
      requires Valid()
      ensures r == CurveDirection(RealisticControlPoints(), t)
      ensures t >= 0.0 ==> r.Some?
    {
      if t >= 0.0 then SamplesDefined(controlPoints, t); CurveDirection(controlPoints, t)
      else CurveDirection(controlPoints, t)
    }

    function GetNormal(t: real): (r: Option<Vec3>)
      reads this
      requires Valid()
      ensures r == CurveNormal(RealisticControlPoints(), t)
      ensures t >= 0.0 ==> r.Some? && r.value.y == 0.0 && Dot(GetDirection(t).value, r.value) == 0.0
    {
      if t >= 0.0 then NormalOrthogonal(controlPoints, t); CurveNormal(controlPoints, t)
      else CurveNormal(controlPoints, t)
    }

    /** Returns the control-point list itself. */
    function GetTrackPoints(): (r: seq<Vec3>)
      reads this
      requires Valid()
      ensures r == RealisticControlPoints()
    {
      controlPoints
    }

    /** Returns the length field, which is never assigned and so is always 0. */
    function GetTrackLength(): (r: real)
      reads this
      requires Valid()
      ensures r == 0.0
    {
      trackLength
    }
  }
}
