// TreeObject: scattering trees around the lake, choosing their kinds and sizes, building the
// shared trunk and leaves meshes, and moving the selected tree.
module Objects {
  import opened Geometry
  import opened Wrappers

  /** One entry of GeneratePositions' `treeTypes` table. */
  datatype TreeType = TreeType(height: real, trunkRadius: real, leavesHeight: real, leavesRadius: real, probability: real)

  /** One entry of `Scales`. */
  datatype TreeScale = TreeScale(trunkHeight: real, trunkRadius: real, leavesHeight: real, leavesRadius: real)

  /** One accepted tree together with what was drawn for it. */
  datatype Planted = Planted(position: Vec3, treeType: TreeType, heightVariation: real, radiusVariation: real)

  function TreeTypes(): seq<TreeType> {
    [TreeType(4.0, 0.15, 3.0, 0.8, 0.3),
     TreeType(2.5, 0.2, 2.0, 1.2, 0.5),
     TreeType(1.5, 0.1, 1.2, 1.5, 0.2)]
  }

  const LakeRadius: real := 15.0
  /** Half the side of the square around the origin that GeneratePositions also keeps clear. */
  const ClearingHalfSide: real := 10.0
  /** `segments` of CreateMesh. */
  const MeshSegments: nat := 12
  /** Floats per vertex in the mesh lists: position, normal, texture coordinate. */
  const VertexStride: nat := 8

  function Abs(x: real): real {
    if x < 0.0 then -x else x
  }

  /** Maps a draw in [0,1) to a coordinate in [-90, 90). */
  function Coordinate(u: real): real {
    u * 180.0 - 90.0
  }

  /** The two rejection tests of GeneratePositions; the distance test is on the squared distance. */
  predicate Rejected(x: real, z: real) {
    x * x + z * z < (LakeRadius + 2.0) * (LakeRadius + 2.0) ||
    (Abs(x) < ClearingHalfSide && Abs(z) < ClearingHalfSide)
  }

  /** The source compares `sqrt(x*x + z*z)` with 17; for the true square root that is the squared test. */
  lemma DistanceTestSquared(d: real, x: real, z: real)
    requires d >= 0.0 && d * d == x * x + z * z
    ensures d < LakeRadius + 2.0 <==> x * x + z * z < (LakeRadius + 2.0) * (LakeRadius + 2.0)
  {
    if d < 17.0 {
      ProductNonNegative(d, 17.0 - d);
      ProductNonNegative(17.0, 17.0 - d);
    } else {
      ProductNonNegative(d, d - 17.0);
      ProductNonNegative(17.0, d - 17.0);
    }
  }

  /** The square test is redundant: every point in the square is already inside the lake test's circle. */
  lemma SquareTestRedundant(x: real, z: real)
    ensures Rejected(x, z) <==> x * x + z * z < (LakeRadius + 2.0) * (LakeRadius + 2.0)
  {
    if Abs(x) < ClearingHalfSide && Abs(z) < ClearingHalfSide {
      assert x * x == Abs(x) * Abs(x);
      assert z * z == Abs(z) * Abs(z);
      ProductNonNegative(Abs(x), 10.0 - Abs(x));
      ProductNonNegative(10.0, 10.0 - Abs(x));
      ProductNonNegative(Abs(z), 10.0 - Abs(z));
      ProductNonNegative(10.0, 10.0 - Abs(z));
      assert x * x + z * z < 200.0;
    }
  }

  // ---------------------------------------------------------------------------------------
  // Tree type selection

  /** The first type, from index j on, whose running probability sum reaches r; type 0 if none. */
  function TypeFrom(r: real, j: nat, cumulative: real): (kind: nat)
    ensures kind < |TreeTypes()|
    decreases |TreeTypes()| - j
  {
    if j >= |TreeTypes()| then 0
    else if r <= cumulative + TreeTypes()[j].probability then j
    else TypeFrom(r, j + 1, cumulative + TreeTypes()[j].probability)
  }

  /** The type GeneratePositions picks for the draw r. */
  function TypeFor(r: real): nat {
    TypeFrom(r, 0, 0.0)
  }

  /** The running sums are 0.3, 0.8 and 1.0, so a draw picks a type by its band, and the
      default type 0 is reached only by draws above 1. */
  lemma TypeBands(r: real)
    ensures TypeFor(r) == if r <= 0.3 then 0 else if r <= 0.8 then 1 else if r <= 1.0 then 2 else 0
  {
    assert TypeFor(r) == TypeFrom(r, 0, 0.0);
    if r > 0.3 {
      assert TypeFrom(r, 0, 0.0) == TypeFrom(r, 1, 0.3);
      if r > 0.8 {
        assert TypeFrom(r, 1, 0.3) == TypeFrom(r, 2, 0.8);
        if r > 1.0 {
          assert TypeFrom(r, 2, 0.8) == TypeFrom(r, 3, 1.0);
        }
      }
    }
  }

  /** The cumulative-probability loop of GeneratePositions. */
  method SelectTreeType(r: real) returns (kind: nat)
    ensures kind == TypeFor(r)
    ensures kind < |TreeTypes()|
  {
    var types := TreeTypes();
    var cumulative := 0.0;
    kind := 0;
    var j := 0;
    while j < |types|
      invariant 0 <= j <= |types|
      invariant kind == 0
      invariant TypeFrom(r, j, cumulative) == TypeFor(r)
    {
      cumulative := cumulative + types[j].probability;
      if r <= cumulative {
        kind := j;
        break;
      }
      j := j + 1;
    }
  }

  // ---------------------------------------------------------------------------------------
  // Placement

  /** The scale entry of a tree: one factor on both heights, another on both radii. */
  function ScaleOf(t: Planted): TreeScale {
    TreeScale(t.treeType.height * t.heightVariation, t.treeType.trunkRadius * t.radiusVariation,
              t.treeType.leavesHeight * t.heightVariation, t.treeType.leavesRadius * t.radiusVariation)
  }

  /** How many trees GeneratePositions' loop asks for. */
  function Need(count: int): nat {
    if count > 0 then count else 0
  }

  /** The trees the random stream places: each candidate takes two draws (x, z); an accepted one
      takes three more (type, height factor, radius factor). The list ends when `need` trees are
      placed or the stream runs out. */
  function Plant(height: (real, real) -> real, rand: seq<real>, need: nat): seq<Planted>
    decreases |rand|
  {
    if need == 0 || |rand| < 2 then []
    else
      var x := Coordinate(rand[0]);
      var z := Coordinate(rand[1]);
      if Rejected(x, z) then Plant(height, rand[2..], need)
      else if |rand| < 5 then []
      else
        [Planted(Vec3(x, height(x, z), z), TreeTypes()[TypeFor(rand[2])], 0.8 + rand[3] * 0.4, 0.9 + rand[4] * 0.2)]
        + Plant(height, rand[5..], need - 1)
  }

  /** The tree an accepted candidate at position `next` of the stream becomes. */
  function Candidate(height: (real, real) -> real, rand: seq<real>, next: nat): Planted
    requires next + 5 <= |rand|
  {
    var x := Coordinate(rand[next]);
    var z := Coordinate(rand[next + 1]);
    Planted(Vec3(x, height(x, z), z), TreeTypes()[TypeFor(rand[next + 2])], 0.8 + rand[next + 3] * 0.4, 0.9 + rand[next + 4] * 0.2)
  }

  /** One unfolding of Plant on the stream from position `next` on. */
  lemma PlantStep(height: (real, real) -> real, rand: seq<real>, next: nat, need: nat)
    requires next <= |rand| && need > 0
    ensures next + 2 > |rand| ==> Plant(height, rand[next..], need) == []
    ensures next + 2 <= |rand| && Rejected(Coordinate(rand[next]), Coordinate(rand[next + 1])) ==>
      Plant(height, rand[next..], need) == Plant(height, rand[next + 2..], need)
    ensures next + 2 <= |rand| && !Rejected(Coordinate(rand[next]), Coordinate(rand[next + 1])) && next + 5 > |rand| ==>
      Plant(height, rand[next..], need) == []
    ensures next + 5 <= |rand| && !Rejected(Coordinate(rand[next]), Coordinate(rand[next + 1])) ==>
      Plant(height, rand[next..], need) == [Candidate(height, rand, next)] + Plant(height, rand[next + 5..], need - 1)
  {
    var rest := rand[next..];
    if next + 2 <= |rand| {
      assert rest[0] == rand[next] && rest[1] == rand[next + 1];
      assert rest[2..] == rand[next + 2..];
      if next + 5 <= |rand| {
        assert rest[2] == rand[next + 2] && rest[3] == rand[next + 3] && rest[4] == rand[next + 4];
        assert rest[5..] == rand[next + 5..];
      }
    }
  }

  /** A rejected candidate at `from` uses up two draws and places nothing. */
  lemma RejectStep(height: (real, real) -> real, rand: seq<real>, from: nat, next: nat, planted: seq<Planted>, need: nat)
    requires from + 2 <= |rand| && next == from + 2 && |planted| < need
    requires Rejected(Coordinate(rand[from]), Coordinate(rand[from + 1]))
    requires planted + Plant(height, rand[from..], need - |planted|) == Plant(height, rand, need)
    ensures planted + Plant(height, rand[next..], need - |planted|) == Plant(height, rand, need)
  {
    PlantStep(height, rand, from, need - |planted|);
  }

  /** Placement ends once fewer draws remain than the next candidate needs. */
  lemma ExhaustStep(height: (real, real) -> real, rand: seq<real>, next: nat, need: nat)
    requires next <= |rand| && need > 0
    requires next + 2 > |rand| || (next + 5 > |rand| && !Rejected(Coordinate(rand[next]), Coordinate(rand[next + 1])))
    ensures Plant(height, rand[next..], need) == []
  {
    PlantStep(height, rand, next, need);
  }

  /** Accepting the candidate at `from` keeps the placed trees a prefix of the whole placement. */
  lemma AcceptStep(height: (real, real) -> real, rand: seq<real>, from: nat, next: nat,
                   before: seq<Planted>, planted: seq<Planted>, need: nat)
    requires from + 5 <= |rand| && next == from + 5 && |before| < need
    requires planted == before + [Candidate(height, rand, from)]
    requires !Rejected(Coordinate(rand[from]), Coordinate(rand[from + 1]))
    requires before + Plant(height, rand[from..], need - |before|) == Plant(height, rand, need)
    ensures |planted| <= need
    ensures planted + Plant(height, rand[next..], need - |planted|) == Plant(height, rand, need)
  {
    var c := [Candidate(height, rand, from)];
    var tail := Plant(height, rand[next..], need - |planted|);
    PlantStep(height, rand, from, need - |before|);
    assert (before + c) + tail == before + (c + tail);
  }

  function PositionsOf(ts: seq<Planted>): seq<Vec3> {
    if ts == [] then [] else PositionsOf(ts[..|ts| - 1]) + [ts[|ts| - 1].position]
  }

  function ScalesOf(ts: seq<Planted>): seq<TreeScale> {
    if ts == [] then [] else ScalesOf(ts[..|ts| - 1]) + [ScaleOf(ts[|ts| - 1])]
  }

  /** Every draw of System.Random.NextDouble lies in [0, 1). */
  predicate UnitDraws(rand: seq<real>) {
    forall k :: 0 <= k < |rand| ==> 0.0 <= rand[k] < 1.0
  }

  /** What GeneratePositions promises of each tree it stores. */
  predicate WellPlaced(height: (real, real) -> real, t: Planted) {
    var p := t.position;
    !Rejected(p.x, p.z) &&
    p.x * p.x + p.z * p.z >= (LakeRadius + 2.0) * (LakeRadius + 2.0) &&
    -90.0 <= p.x < 90.0 && -90.0 <= p.z < 90.0 &&
    p.y == height(p.x, p.z) &&
    t.treeType in TreeTypes() &&
    0.8 <= t.heightVariation < 1.2 && 0.9 <= t.radiusVariation < 1.1
  }

  /** At most `need` trees are placed, each outside the lake margin, on the terrain, of one of
      the three types, with its size factors in range. */
  lemma {:induction false} PlantFacts(height: (real, real) -> real, rand: seq<real>, need: nat)
    requires UnitDraws(rand)
    ensures |Plant(height, rand, need)| <= need
    ensures forall k :: 0 <= k < |Plant(height, rand, need)| ==> WellPlaced(height, Plant(height, rand, need)[k])
    decreases |rand|
  {
    if need == 0 || |rand| < 2 {
    } else {
      var x := Coordinate(rand[0]);
      var z := Coordinate(rand[1]);
      if Rejected(x, z) {
        PlantFacts(height, rand[2..], need);
      } else if |rand| >= 5 {
        PlantFacts(height, rand[5..], need - 1);
        var head := Planted(Vec3(x, height(x, z), z), TreeTypes()[TypeFor(rand[2])], 0.8 + rand[3] * 0.4, 0.9 + rand[4] * 0.2);
        var rest := Plant(height, rand[5..], need - 1);
        assert Plant(height, rand, need) == [head] + rest;
        SquareTestRedundant(x, z);
        assert WellPlaced(height, head);
      }
    }
  }

  lemma PositionsOfAppend(ts: seq<Planted>, t: Planted)
    ensures PositionsOf(ts + [t]) == PositionsOf(ts) + [t.position]
    ensures ScalesOf(ts + [t]) == ScalesOf(ts) + [ScaleOf(t)]
    ensures |PositionsOf(ts)| == |ScalesOf(ts)| == |ts|
  {
    assert (ts + [t])[..|ts|] == ts;
    PositionsOfLength(ts);
  }

  lemma {:induction false} PositionsOfLength(ts: seq<Planted>)
    ensures |PositionsOf(ts)| == |ScalesOf(ts)| == |ts|
  {
    if ts != [] {
      PositionsOfLength(ts[..|ts| - 1]);
    }
  }

  /** Entry k of the stored positions is the position of the k-th placed tree. */
  lemma {:induction false} PositionsOfIndex(ts: seq<Planted>)
    ensures |PositionsOf(ts)| == |ts|
    ensures forall k :: 0 <= k < |ts| ==> PositionsOf(ts)[k] == ts[k].position
  {
    if ts != [] {
      var init := ts[..|ts| - 1];
      PositionsOfIndex(init);
      assert PositionsOf(ts) == PositionsOf(init) + [ts[|ts| - 1].position];
      forall k | 0 <= k < |ts|
        ensures PositionsOf(ts)[k] == ts[k].position
      {
        if k < |init| {
          assert init[k] == ts[k];
        }
      }
    }
  }

  /** Entry k of the stored scales is the scale of the k-th placed tree. */
  lemma {:induction false} ScalesOfIndex(ts: seq<Planted>)
    ensures |ScalesOf(ts)| == |ts|
    ensures forall k :: 0 <= k < |ts| ==> ScalesOf(ts)[k] == ScaleOf(ts[k])
  {
    if ts != [] {
      var init := ts[..|ts| - 1];
      ScalesOfIndex(init);
      assert ScalesOf(ts) == ScalesOf(init) + [ScaleOf(ts[|ts| - 1])];
      forall k | 0 <= k < |ts|
        ensures ScalesOf(ts)[k] == ScaleOf(ts[k])
      {
        if k < |init| {
          assert init[k] == ts[k];
        }
      }
    }
  }

  /** With draws in [0, 1), every stored position is outside the lake margin and on the
      terrain, and every stored scale is that of a tree of one of the three types with its
      size factors in range. */
  lemma StoredTreesWellPlaced(height: (real, real) -> real, rand: seq<real>, need: nat)
    requires UnitDraws(rand)
    ensures var ts := Plant(height, rand, need);
      |PositionsOf(ts)| == |ScalesOf(ts)| == |ts| <= need &&
      forall k :: 0 <= k < |ts| ==>
        PositionsOf(ts)[k] == ts[k].position && ScalesOf(ts)[k] == ScaleOf(ts[k]) && WellPlaced(height, ts[k])
  {
    PlantFacts(height, rand, need);
    PositionsOfIndex(Plant(height, rand, need));
    ScalesOfIndex(Plant(height, rand, need));
  }

  /** The stored positions, read off directly: outside the lake margin and on the terrain. */
  lemma StoredPositionsClear(height: (real, real) -> real, rand: seq<real>, need: nat, ps: seq<Vec3>)
    requires ps == PositionsOf(Plant(height, rand, need))
    ensures UnitDraws(rand) ==> forall k :: 0 <= k < |ps| ==>
      !Rejected(ps[k].x, ps[k].z) && ps[k].y == height(ps[k].x, ps[k].z)
  {
    if UnitDraws(rand) {
      StoredTreesWellPlaced(height, rand, need);
    }
  }

  // ---------------------------------------------------------------------------------------
  // Mesh lists of CreateMesh

  /** The two vertices of trunk ring i: bottom at height 0, top at height 1, with the trunk's
      normal and texture coordinates. `circle(i, n)` is (cos, sin) of the angle i * 2 pi / n. */
  function TrunkRing(circle: (nat, nat) -> (real, real), i: nat, segments: nat): seq<real>
    requires segments > 0
  {
    var c := circle(i, segments);
    var u := i as real / segments as real;
    [c.0, 0.0, c.1, 0.5, 0.25, 0.1, u, 0.0,
     c.0, 1.0, c.1, 0.5, 0.25, 0.1, u, 1.0]
  }

  /** The two vertices of leaves ring i: a bottom vertex on the circle and the cone's tip. */
  function LeavesRing(circle: (nat, nat) -> (real, real), i: nat, segments: nat): seq<real>
    requires segments > 0
  {
    var c := circle(i, segments);
    var u := i as real / segments as real;
    [c.0, 0.0, c.1, 0.1, 0.5, 0.1, u, 0.0,
     0.0, 1.0, 0.0, 0.1, 0.5, 0.1, 0.5, 1.0]
  }

  /** The two triangles between trunk rings i and i + 1. */
  function TrunkQuad(i: nat): seq<nat> {
    [2 * i, 2 * i + 1, 2 * i + 2, 2 * i + 1, 2 * i + 3, 2 * i + 2]
  }

  /** The leaves triangle of segment i, closing onto ring 0 after the last segment. */
  function LeavesTriangle(i: nat, segments: nat): seq<nat>
    requires segments > 0
  {
    [2 * i, 2 * i + 1, ((i + 1) % segments) * 2]
  }

  lemma SliceOfAppend(a: seq<real>, b: seq<real>, lo: nat, hi: nat)
    requires lo <= hi <= |a|
    ensures (a + b)[lo..hi] == a[lo..hi]
  {
  }

  lemma AppendedSlice(a: seq<real>, b: seq<real>)
    ensures (a + b)[|a|..|a| + |b|] == b
  {
  }

  /** The trunk vertex list: ring after ring, 16 floats each. */
  method TrunkVertices(circle: (nat, nat) -> (real, real), segments: nat) returns (v: seq<real>)
    requires segments > 0
    ensures |v| == 2 * VertexStride * (segments + 1)
    ensures forall i :: 0 <= i <= segments ==> v[16 * i .. 16 * i + 16] == TrunkRing(circle, i, segments)
  {
    v := [];
    var i := 0;
    while i <= segments
      invariant 0 <= i <= segments + 1
      invariant |v| == 16 * i
      invariant forall j :: 0 <= j < i ==> v[16 * j .. 16 * j + 16] == TrunkRing(circle, j, segments)
    {
      var c := circle(i, segments);
      var x := c.0;
      var z := c.1;
      var u := i as real / segments as real;
      ghost var before := v;
      v := v + [x, 0.0, z, 0.5, 0.25, 0.1, u, 0.0,   // bottom vertex: position, normal, texture
                x, 1.0, z, 0.5, 0.25, 0.1, u, 1.0];  // top vertex
      assert v == before + TrunkRing(circle, i, segments);
      AppendedSlice(before, TrunkRing(circle, i, segments));
      forall j | 0 <= j < i
        ensures v[16 * j .. 16 * j + 16] == TrunkRing(circle, j, segments)
      {
        SliceOfAppend(before, TrunkRing(circle, i, segments), 16 * j, 16 * j + 16);
      }
      i := i + 1;
    }
  }

  /** The leaves vertex list: ring after ring, 16 floats each. */
  method LeavesVertices(circle: (nat, nat) -> (real, real), segments: nat) returns (v: seq<real>)
    requires segments > 0
    ensures |v| == 2 * VertexStride * (segments + 1)
    ensures forall i :: 0 <= i <= segments ==> v[16 * i .. 16 * i + 16] == LeavesRing(circle, i, segments)
  {
    v := [];
    var i := 0;
    while i <= segments
      invariant 0 <= i <= segments + 1
      invariant |v| == 16 * i
      invariant forall j :: 0 <= j < i ==> v[16 * j .. 16 * j + 16] == LeavesRing(circle, j, segments)
    {
      var c := circle(i, segments);
      var x := c.0;
      var z := c.1;
      var u := i as real / segments as real;
      ghost var before := v;
      v := v + [x, 0.0, z, 0.1, 0.5, 0.1, u, 0.0,       // bottom vertex: position, normal, texture
                0.0, 1.0, 0.0, 0.1, 0.5, 0.1, 0.5, 1.0];  // top vertex: the tip
      assert v == before + LeavesRing(circle, i, segments);
      AppendedSlice(before, LeavesRing(circle, i, segments));
      forall j | 0 <= j < i
        ensures v[16 * j .. 16 * j + 16] == LeavesRing(circle, j, segments)
      {
        SliceOfAppend(before, LeavesRing(circle, i, segments), 16 * j, 16 * j + 16);
      }
      i := i + 1;
    }
  }

  /** The trunk index list: two triangles per segment, every index naming one of the
      2 * (segments + 1) trunk vertices. */
  method TrunkIndices(segments: nat) returns (idx: seq<nat>)
    ensures |idx| == 6 * segments
    ensures forall i :: 0 <= i < segments ==> idx[6 * i .. 6 * i + 6] == TrunkQuad(i)
    ensures forall k :: 0 <= k < |idx| ==> idx[k] < 2 * (segments + 1)
  {
    idx := [];
    var i := 0;
    while i < segments
      invariant 0 <= i <= segments
      invariant |idx| == 6 * i
      invariant forall j :: 0 <= j < i ==> idx[6 * j .. 6 * j + 6] == TrunkQuad(j)
      invariant forall k :: 0 <= k < |idx| ==> idx[k] < 2 * i + 2
    {
      var baseIdx := i * 2;
      ghost var before := idx;
      idx := idx + [baseIdx, baseIdx + 1, baseIdx + 2];
      idx := idx + [baseIdx + 1, baseIdx + 3, baseIdx + 2];
      assert idx == before + TrunkQuad(i);
      assert forall j :: 0 <= j < i ==> idx[6 * j .. 6 * j + 6] == before[6 * j .. 6 * j + 6];
      i := i + 1;
    }
  }

  /** The leaves index list: one triangle per segment, every index naming a vertex of the
      first `segments` rings (the last ring is never used). */
  method LeavesIndices(segments: nat) returns (idx: seq<nat>)
    ensures |idx| == 3 * segments
    ensures forall i :: 0 <= i < segments ==> idx[3 * i .. 3 * i + 3] == LeavesTriangle(i, segments)
    ensures forall k :: 0 <= k < |idx| ==> idx[k] < 2 * segments
  {
    idx := [];
    var i := 0;
    while i < segments
      invariant 0 <= i <= segments
      invariant |idx| == 3 * i
      invariant forall j :: 0 <= j < i ==> idx[3 * j .. 3 * j + 3] == LeavesTriangle(j, segments)
      invariant forall k :: 0 <= k < |idx| ==> idx[k] < 2 * segments
    {
      var baseIdx := i * 2;
      ghost var before := idx;
      idx := idx + [baseIdx, baseIdx + 1, ((i + 1) % segments) * 2];
      assert idx == before + LeavesTriangle(i, segments);
      assert forall j :: 0 <= j < i ==> idx[3 * j .. 3 * j + 3] == before[3 * j .. 3 * j + 3];
      i := i + 1;
    }
  }

  // ---------------------------------------------------------------------------------------
  // TreeObject

  /** The accepted branch of GeneratePositions: terrain height, tree type and size factors
      of the candidate whose draws start at `next`. */
  method PlaceCandidate(height: (real, real) -> real, rand: seq<real>, next: nat) returns (tree: Planted)
    requires next + 5 <= |rand|
    ensures tree == Candidate(height, rand, next)
  {
    var x := Coordinate(rand[next]);
    var z := Coordinate(rand[next + 1]);
    var y := height(x, z);
    var kind := SelectTreeType(rand[next + 2]);
    var selectedType := TreeTypes()[kind];
    var heightVariation := 0.8 + rand[next + 3] * 0.4;
    var radiusVariation := 0.9 + rand[next + 4] * 0.2;
    tree := Planted(Vec3(x, y, z), selectedType, heightVariation, radiusVariation);
  }

  class TreeObject {
    var positions: seq<Vec3>
    var scales: seq<TreeScale>
    var selectedIndex: Option<int>
    var trunkIndexCount: int
    var leavesIndexCount: int

    /** One scale entry per position. */
    ghost predicate Valid()
      reads this
    {
      |positions| == |scales|
    }

    constructor ()
      ensures Valid()
      ensures positions == [] && scales == [] && selectedIndex == None
    {
      positions := [];
      scales := [];
      selectedIndex := None;
      trunkIndexCount := 0;
      leavesIndexCount := 0;
    }

    /** The rejection loop over the stream `rand`; `complete` says whether the stream lasted
        until `count` trees were placed. The old contents are discarded. */
    method GeneratePositions(getTerrainHeight: (real, real) -> real, count: int, rand: seq<real>) returns (complete: bool)
      modifies this`positions, this`scales
      ensures Valid()
      ensures positions == PositionsOf(Plant(getTerrainHeight, rand, Need(count)))
      ensures scales == ScalesOf(Plant(getTerrainHeight, rand, Need(count)))
      ensures complete <==> |positions| == Need(count)
      ensures UnitDraws(rand) ==> forall k :: 0 <= k < |positions| ==>
        !Rejected(positions[k].x, positions[k].z) &&
        positions[k].y == getTerrainHeight(positions[k].x, positions[k].z)
    {
      var need := Need(count);
      // the source clears its lists and appends to them; the model collects into locals
      var ps: seq<Vec3> := [];
      var ss: seq<TreeScale> := [];
      ghost var planted: seq<Planted> := [];
      ghost var whole := Plant(getTerrainHeight, rand, need);
      var next := 0;
      while |ps| < need
        invariant 0 <= next <= |rand|
        invariant |planted| <= need
        invariant ps == PositionsOf(planted) && ss == ScalesOf(planted)
        invariant planted + Plant(getTerrainHeight, rand[next..], need - |planted|) == whole
        decreases |rand| - next
      {
        PositionsOfLength(planted);
        if next + 2 > |rand| {
          // the stream of draws is used up
          ExhaustStep(getTerrainHeight, rand, next, need - |planted|);
          break;
        }
        var x := Coordinate(rand[next]);
        var z := Coordinate(rand[next + 1]);
        if Rejected(x, z) {
          // the source's `i--; continue;`
          ghost var from := next;
          next := next + 2;
          RejectStep(getTerrainHeight, rand, from, next, planted, need);
        } else {
          if next + 5 > |rand| {
            ExhaustStep(getTerrainHeight, rand, next, need - |planted|);
            break;
          }
          var tree := PlaceCandidate(getTerrainHeight, rand, next);
          PositionsOfAppend(planted, tree);
          ps := ps + [tree.position];
          ss := ss + [ScaleOf(tree)];
          ghost var before, from := planted, next;
          planted := planted + [tree];
          next := next + 5;
          AcceptStep(getTerrainHeight, rand, from, next, before, planted, need);
        }
      }
      PositionsOfLength(planted);
      assert Plant(getTerrainHeight, rand[next..], need - |planted|) == [];
      assert planted + [] == planted;
      assert planted == Plant(getTerrainHeight, rand, need);
      StoredPositionsClear(getTerrainHeight, rand, need, ps);
      positions, scales := ps, ss;
      complete := |ps| == need;
    }

    /** Builds the four mesh lists and keeps the index counts; the vertex and index lists go to
        the GPU, which is not part of this model. */
    method CreateMesh(circle: (nat, nat) -> (real, real))
      modifies this`trunkIndexCount, this`leavesIndexCount
      ensures trunkIndexCount == 6 * MeshSegments && leavesIndexCount == 3 * MeshSegments
    {
      var trunkVertices := TrunkVertices(circle, MeshSegments);
      var trunkIndices := TrunkIndices(MeshSegments);
      var leavesVertices := LeavesVertices(circle, MeshSegments);
      var leavesIndices := LeavesIndices(MeshSegments);
      trunkIndexCount := |trunkIndices|;
      leavesIndexCount := |leavesIndices|;
    }

    /** A selection that names an existing tree. */
    predicate HasSelection()
      reads this
    {
      selectedIndex.Some? && 0 <= selectedIndex.value < |positions|
    }

    /** Moves the selected tree by delta; any other selection state leaves everything as it was. */
    method MoveSelected(delta: Vec3)
      requires Valid()
      modifies this`positions
      ensures Valid()
      ensures |positions| == |old(positions)|
      ensures scales == old(scales) && selectedIndex == old(selectedIndex)
      ensures positions == if old(HasSelection())
        then old(positions)[selectedIndex.value := Add(old(positions)[selectedIndex.value], delta)]
        else old(positions)
    {
      if selectedIndex.Some? && selectedIndex.value >= 0 && selectedIndex.value < |positions| {
        positions := positions[selectedIndex.value := Add(positions[selectedIndex.value], delta)];
      }
    }
  }
}
