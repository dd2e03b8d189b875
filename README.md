# Roller-coaster simulator core, modelled in Dafny

This project models the simulation core of a small OpenTK roller-coaster program. It covers:

- **The track** (`track.dfy`, module `Track`). `RollerCoasterTrack` holds eight hard-coded
  control points: the station, a first hill, a loop, a second hill, the return, and the
  station again. The track is a closed polyline sampled by a parameter `t`. `GetPosition`
  reduces `t` with C#'s `% 1.0f`, finds the segment with an `(int)` cast, and blends the two
  ends of that segment with `Vector3.Lerp`. `GetDirection` is a forward difference over
  0.01. `GetNormal` is the direction crossed with world up. The model uses C#'s semantics
  for these operations: `Truncate` rounds toward zero and `Rem1` keeps the sign of `t`. A
  list read that would fail is represented as `None`.
- **The train and its car** (`train.dfy`, `train_car.dfy`, and the shared step arithmetic in
  `progress.dfy`). Each frame, `Train` and `TrainCar` advance their track parameter by
  `speed * deltaTime / trackLength` and wrap it once at 1. `TrainCar` halves its speed in
  the station zone (parameter below 0.1 or above 0.9) and offsets its position 0.1 along the
  normal. On this track, which lies in the plane z = 0, the normal points along ±z, so the
  offset is sideways, across the track, and not upward (`Track.RealisticNormalSideways`).
  `Train` clamps its speed to [0, 20] and `TrainCar` does not.
- **The trees** (`tree_object.dfy`, module `Objects`). `GeneratePositions` scatters trees
  by rejection sampling:
  - it rejects points inside the lake margin or the central square;
  - it reads the height from a terrain function;
  - it picks one of three tree types by cumulative probability;
  - it draws height and radius factors.

  `CreateMesh` builds the trunk and leaves vertex and index lists, and `MoveSelected` moves
  the selected tree.
- **The two cameras** (`free_camera.dfy` and `camera.dfy`). The repository defines a class
  `FreeCamera` twice, once in `Camera/FreeCamera.cs` and once in `Camera/Camera.cs`, in the
  same namespace. Each definition is modelled as written, in its own module: `FreeCamera`
  and `Camera`. The first has:
  - an optional pitch limit;
  - a zoom limited by the camera's distance from the origin;
  - follow, top and side views.

  The second inverts the vertical mouse movement and always clamps pitch.

Vectors are exact reals (`Geometry.Vec3`), and the OpenTK operations the core uses are
written out in `geometry.dfy`.

Where the description of the system and the code differ, the model follows the code:

- A `Train` owns no cars. Its position, direction and normal are the track's samples at
  the train's own parameter. `TrainCar` is a separate class that nothing in the core
  attaches to a train.
- The track normal is one cross product of the direction with world up, normalised
  (`Track/RollerCoasterTrack.cs:70-76`). Before normalisation it is horizontal and orthogonal
  to the direction (`Track.NormalOrthogonal`), and so is the normalised vector wherever it
  exists, that is, wherever the cross product is not zero. At two parameters per lap,
  t = 5.94/7 and t = 6.99/7, the direction is vertical and the cross product is the zero
  vector (`Track.NormalVanishesBeforeReturn`, `Track.NormalVanishesAtStation`). There
  `Vector3.Normalize` has nothing to scale, and the source's normal is NaN.
- `RollerCoasterTrack._trackLength` is never assigned, so `GetTrackLength()` is 0 and
  `Update` divides by zero. See "## Findings".
- The three set-view methods of `Camera/FreeCamera.cs` assign `_front` and then call
  `UpdateVectors`, which recomputes `_front` from yaw and pitch. Only the position they set
  survives, and the view direction is left as it was. `SetFollowMode`, `SetTopView` and
  `SetSideView` state this.
- One wrap cannot bring an arbitrary parameter back below 1. With an increment of a lap or
  more, the parameter after the wrap is at least 1 exactly when `p + inc >= 2`
  (`Progress.WrapOnlyOnce`). For example, `p = 0.5` and `inc = 1` give 0.5.

## Model

| member | source | states |
|---|---|---|
| Track.RollerCoasterTrack.constructor | RollerCoasterModel/Track/RollerCoasterTrack.cs:15-19 | a new track holds exactly the eight realistic control points and its length field is 0 |
| Track.RollerCoasterTrack.CreateRealisticTrack | RollerCoasterModel/Track/RollerCoasterTrack.cs:21-40 | appends the eight control points in order to whatever list is there; the length field is untouched |
| Track.RealisticTrackShape | RollerCoasterModel/Track/RollerCoasterTrack.cs:21-40 | the hard-coded track has 8 points and 7 segments, and it is closed (first and last point are both the station at the origin) |
| Track.RealisticTrackBounds | RollerCoasterModel/Track/RollerCoasterTrack.cs:21-51 | for every t >= 0 the position exists, lies in the plane z = 0, and has 0 <= x <= 60 and 0 <= y <= 10 |
| Track.RemOfNonNegative | RollerCoasterModel/Track/RollerCoasterTrack.cs:44 | for t >= 0, `t % 1` is the fractional part of t: in [0,1), idempotent, and unchanged by adding a lap |
| Track.SegmentFacts | RollerCoasterModel/Track/RollerCoasterTrack.cs:44-50 | for t >= 0 the segment index is a valid segment, the `% Count` of the second read never wraps, and localT = numSegments·(t % 1) − segment lies in [0,1) |
| Track.SamplesDefined | RollerCoasterModel/Track/RollerCoasterTrack.cs:42-76 | for t >= 0, position, direction and normal are all defined (no list read fails) |
| Track.NegativeParameterFails | RollerCoasterModel/Track/RollerCoasterTrack.cs:44-49 | a parameter whose C# remainder is at most −1/numSegments gives a negative segment, so the list read fails |
| Track.RollerCoasterTrack.GetPosition | RollerCoasterModel/Track/RollerCoasterTrack.cs:42-52 | the result is the curve position of the track's control points at t, and it exists whenever t >= 0 |
| Track.PositionOnSegment | RollerCoasterModel/Track/RollerCoasterTrack.cs:44-51 | for t >= 0 the position is the linear blend of control points k and k+1 with blend numSegments·(t % 1) − k |
| Track.PositionBetweenEnds | RollerCoasterModel/Track/RollerCoasterTrack.cs:49-51 | for t >= 0, in each coordinate the position lies between the two ends of its segment |
| Track.PositionAtVertex | RollerCoasterModel/Track/RollerCoasterTrack.cs:44-51 | the parameter k/numSegments lands exactly on control point k |
| Track.SegmentsJoin | RollerCoasterModel/Track/RollerCoasterTrack.cs:44-51 | the end of segment k is the point where segment k+1 starts, wrapping at the last segment of a closed track: the curve is continuous |
| Track.SameRemainderSameSample | RollerCoasterModel/Track/RollerCoasterTrack.cs:44 | the position depends on t only through `t % 1` |
| Track.SamplesPeriodic | RollerCoasterModel/Track/RollerCoasterTrack.cs:42-76 | for t >= 0, position, direction and normal all repeat with period 1 |
| Track.RollerCoasterTrack.GetDirection | RollerCoasterModel/Track/RollerCoasterTrack.cs:54-60 | the result is the forward difference pos(t + 0.01 reduced) − pos(t) on the track's points, and it exists whenever t >= 0 |
| Track.DirectionAlongSegment | RollerCoasterModel/Track/RollerCoasterTrack.cs:54-59 | when t and t + 0.01 fall in the same lap and segment, the direction is 0.01·numSegments times that segment's vector, so it is parallel to the segment |
| Track.RollerCoasterTrack.GetNormal | RollerCoasterModel/Track/RollerCoasterTrack.cs:70-76 | the result is direction × world up; for t >= 0 it exists, is horizontal, and is orthogonal to GetDirection(t) |
| Track.NormalOrthogonal | RollerCoasterModel/Track/RollerCoasterTrack.cs:70-76 | for t >= 0 the normal is (−d.z, 0, d.x) for the direction d: horizontal and orthogonal to d |
| Track.RescalingKeepsNormalFacts | RollerCoasterModel/Track/RollerCoasterTrack.cs:54-76 | rescaling the direction and the normal by positive factors keeps the normal horizontal and orthogonal to the direction; this is what Normalize does to a non-zero vector |
| Track.RealisticNormalSideways | RollerCoasterModel/Track/RollerCoasterTrack.cs:21-76 | on the hard-coded track, for t >= 0, the direction has no z part and the normal is (0, 0, d.x): it points sideways across the track, never up |
| Track.NormalVanishesBeforeReturn | RollerCoasterModel/Track/RollerCoasterTrack.cs:54-76 | at t = 5.94/7 both samples of the forward difference have x = 59.4, so the direction is (0, −0.48, 0) and the normal before normalisation is the zero vector |
| Track.NormalVanishesAtStation | RollerCoasterModel/Track/RollerCoasterTrack.cs:54-76 | at t = 6.99/7, where the forward difference wraps past the end of the lap, both samples have x = 0.6, so the direction is (0, 0.3, 0) and the normal before normalisation is the zero vector |
| Track.ReturnSeam | RollerCoasterModel/Track/RollerCoasterTrack.cs:42-76 | on any seven-segment track with the hard-coded points 5 to 7, the direction at 7t = 5.94 is (0, −0.48, 0) and the normal is zero |
| Track.StationSeam | RollerCoasterModel/Track/RollerCoasterTrack.cs:42-76 | on any seven-segment track with the hard-coded points 0, 1, 6 and 7, the direction at 7t = 6.99 is (0, 0.3, 0) and the normal is zero |
| Track.PositionAt | RollerCoasterModel/Track/RollerCoasterTrack.cs:44-51 | on a seven-segment track, a parameter t in [0,1) with 7t in [k, k+1) lies on segment k with blend 7t − k |
| Track.RollerCoasterTrack.GetTrackPoints | RollerCoasterModel/Track/RollerCoasterTrack.cs:78-81 | returns the eight realistic control points |
| Track.RollerCoasterTrack.GetTrackLength | RollerCoasterModel/Track/RollerCoasterTrack.cs:83-86 | always returns 0, since the field is never assigned |
| Geometry.LerpInBox | RollerCoasterModel/Track/RollerCoasterTrack.cs:51 | Vector3.Lerp with a blend in [0,1] stays coordinate-wise between its two ends |
| Geometry.ClampFacts | RollerCoasterModel/Train/Train.cs:51 | Math.Clamp lands in [lo, hi], is the identity on [lo, hi], and is idempotent |
| Progress.IncrementAsWrittenAgrees | RollerCoasterModel/Train/Train.cs:24-25 | with a positive track length the step the source computes is the finite quotient speed·dt / length |
| Progress.IncrementSign | RollerCoasterModel/Train/Train.cs:25 | a non-negative speed and time never move the parameter backwards, and a zero speed or time does not move it |
| Progress.WrapStaysInLap | RollerCoasterModel/Train/Train.cs:25-31 | a parameter in [0,1) advanced by less than a lap stays in [0,1) after the wrap, and is p + inc or p + inc − 1 |
| Progress.WrapOnlyOnce | RollerCoasterModel/Train/Train.cs:28-31 | for an increment of a lap or more, the single wrap subtracts exactly 1, the result is not below p, and it is still >= 1 exactly when p + inc >= 2 |
| Progress.WrapNonNegative | RollerCoasterModel/Train/Train.cs:25-31 | a non-negative parameter stays non-negative under a non-negative step and the wrap |
| Train.IncrementOnFreshTrack | RollerCoasterModel/Train/Train.cs:24-25 | on a freshly built track the step the code computes is undefined (division by the length 0) for every speed and time |
| Train.Train.constructor | RollerCoasterModel/Train/Train.cs:9-19 | a new train has speed 5 and parameter 0, and its cached pose is the track's samples at 0 |
| Train.Train.Update | RollerCoasterModel/Train/Train.cs:21-34 | the new parameter is Wrap(old parameter + speed·dt / length), the speed is unchanged, and the pose is the track's samples at the new parameter |
| Train.Train.UpdatePosition | RollerCoasterModel/Train/Train.cs:36-41 | position, direction and normal become the track's samples at the current parameter |
| Train.Train.GetPosition | RollerCoasterModel/Train/Train.cs:43 | the cached position is the track position at the train's parameter |
| Train.Train.GetDirection | RollerCoasterModel/Train/Train.cs:44 | the cached direction is the track direction at the train's parameter |
| Train.Train.GetNormal | RollerCoasterModel/Train/Train.cs:45 | the cached normal is the track normal at the parameter; it is horizontal and orthogonal to the cached direction |
| Train.Train.GetSpeed | RollerCoasterModel/Train/Train.cs:46 | the speed is always within [0, 20] |
| Train.Train.GetTrackParameter | RollerCoasterModel/Train/Train.cs:47 | the parameter is never negative |
| Train.Train.SetSpeed | RollerCoasterModel/Train/Train.cs:49-52 | the stored speed is the request clamped to [0, 20] |
| Train.SetSpeedClamp | RollerCoasterModel/Train/Train.cs:49-52 | the clamp keeps an in-range request, sends a negative request to 0 and a request above 20 to 20, and is idempotent |
| TrainCar.SlowZoneSpeed | RollerCoasterModel/Train/TrainCar.cs:26-30 | inside the station zone the speed is halved and elsewhere it is unchanged; the zone is symmetric about the station (p and 1 − p) |
| TrainCar.CarStepStaysOnTrack | RollerCoasterModel/Train/TrainCar.cs:26-35 | a forward step never makes the parameter negative, a step of less than a lap from [0,1) stays in [0,1), and the track can always be sampled afterwards |
| TrainCar.TrainCar.constructor | RollerCoasterModel/Train/TrainCar.cs:15-21 | a new car has speed 30 and the given parameter, and its pose is current |
| TrainCar.TrainCar.Update | RollerCoasterModel/Train/TrainCar.cs:23-38 | the new parameter is the single-wrapped step with the slow-zone speed, the speed is unchanged, and the pose is current |
| TrainCar.TrainCar.UpdatePosition | RollerCoasterModel/Train/TrainCar.cs:40-47 | direction and normal are the track's samples, and the position is the track point offset 0.1 along the normal |
| TrainCar.TrainCar.GetPosition | RollerCoasterModel/Train/TrainCar.cs:49 | the cached position minus 0.1 times the normal is the track position at the parameter |
| TrainCar.TrainCar.GetDirection | RollerCoasterModel/Train/TrainCar.cs:50 | the cached direction is the track direction at the parameter |
| TrainCar.TrainCar.GetNormal | RollerCoasterModel/Train/TrainCar.cs:51 | the cached normal is the track normal at the parameter |
| TrainCar.TrainCar.GetTrackParameter | RollerCoasterModel/Train/TrainCar.cs:52 | the parameter is one at which the track can be sampled |
| TrainCar.TrainCar.SetSpeed | RollerCoasterModel/Train/TrainCar.cs:53 | the speed becomes the request as given, unclamped |
| Objects.DistanceTestSquared | RollerCoasterModel/Objects/TreeObject.cs:33-34 | comparing the square root of x² + z² with 17 is the same as comparing x² + z² with 17² |
| Objects.SquareTestRedundant | RollerCoasterModel/Objects/TreeObject.cs:33-35 | the central-square rejection adds nothing: a point is rejected exactly when it is within 17 of the lake centre |
| Objects.TypeFrom | RollerCoasterModel/Objects/TreeObject.cs:38-44 | the cumulative scan always yields an index into the three-entry type table |
| Objects.TypeBands | RollerCoasterModel/Objects/TreeObject.cs:22-44 | a draw up to 0.3 picks type 0, up to 0.8 type 1, up to 1.0 type 2, and anything above 1 falls back to type 0 |
| Objects.SelectTreeType | RollerCoasterModel/Objects/TreeObject.cs:37-44 | the foreach-with-break over running probability sums picks the type of the draw's band |
| Objects.PlaceCandidate | RollerCoasterModel/Objects/TreeObject.cs:31-48 | an accepted candidate becomes the tree at (x, height(x, z), z) with the selected type and the two size factors drawn after the type |
| Objects.PlantStep | RollerCoasterModel/Objects/TreeObject.cs:29-49 | one iteration: running out of draws ends placement, a rejected candidate uses two draws and places nothing, and an accepted one uses five and places one tree |
| Objects.PlantFacts | RollerCoasterModel/Objects/TreeObject.cs:29-49 | given draws in [0,1), at most `count` trees are placed; each lies outside the lake margin, in [−90, 90)², on the terrain, with a table type, height factor in [0.8, 1.2) and radius factor in [0.9, 1.1) |
| Objects.PositionsOfAppend | RollerCoasterModel/Objects/TreeObject.cs:47-48 | placing one more tree appends its position to Positions and its scale entry to Scales |
| Objects.PositionsOfLength | RollerCoasterModel/Objects/TreeObject.cs:47-48 | Positions and Scales have one entry per placed tree |
| Objects.PositionsOfIndex | RollerCoasterModel/Objects/TreeObject.cs:47 | entry k of Positions is the position of the k-th placed tree |
| Objects.ScalesOfIndex | RollerCoasterModel/Objects/TreeObject.cs:48 | entry k of Scales is the scale entry of the k-th placed tree |
| Objects.StoredTreesWellPlaced | RollerCoasterModel/Objects/TreeObject.cs:29-49 | given draws in [0,1), at most `count` entries are stored, and entry k of both lists comes from the k-th placed tree, which lies outside the lake margin, on the terrain, with a table type and its size factors in range |
| Objects.StoredPositionsClear | RollerCoasterModel/Objects/TreeObject.cs:31-47 | given draws in [0,1), every stored position is outside the lake margin and its height is the terrain height at its (x, z) |
| Objects.TreeObject.constructor | RollerCoasterModel/Objects/TreeObject.cs:10-12 | a new object has no positions, no scales and no selection |
| Objects.TreeObject.GeneratePositions | RollerCoasterModel/Objects/TreeObject.cs:17-50 | the old lists are replaced by the positions and scales of exactly the trees the draws place, one scale per position; the result says whether `count` trees were placed; with draws in [0,1) every stored position is outside the lake margin and on the terrain |
| Objects.TrunkVertices | RollerCoasterModel/Objects/TreeObject.cs:61-74 | the trunk vertex list is the 13 rings in order, 16 floats each: a bottom and a top vertex on the circle, with the trunk normal and texture coordinates |
| Objects.TrunkIndices | RollerCoasterModel/Objects/TreeObject.cs:76-81 | two triangles per segment between rings i and i+1, every index naming an existing trunk vertex |
| Objects.LeavesVertices | RollerCoasterModel/Objects/TreeObject.cs:83-96 | the leaves vertex list is the 13 rings in order, 16 floats each: a bottom vertex on the circle and the cone's tip |
| Objects.LeavesIndices | RollerCoasterModel/Objects/TreeObject.cs:98-102 | one triangle per segment, closing onto ring 0 after the last segment, every index naming a bottom or tip vertex of rings 0 to 11 |
| Objects.TreeObject.CreateMesh | RollerCoasterModel/Objects/TreeObject.cs:52-138 | the trunk draws 72 indices and the leaves 36 |
| Objects.TreeObject.MoveSelected | RollerCoasterModel/Objects/TreeObject.cs:165-171 | with a selection naming an existing tree, only that position moves by delta; otherwise nothing changes; scales and selection never change |
| FreeCamera.ZoomRangeSquared | RollerCoasterModel/Camera/FreeCamera.cs:58-59 | for a length d >= 0, the test 2 < d < 20 is the same as the test on d² |
| FreeCamera.ViewPlacement | RollerCoasterModel/Camera/FreeCamera.cs:82-102 | the top view is 20 straight above the train; the side view is level with the train and offset orthogonally to its direction; the follow view is 5 directions back and 2 up |
| FreeCamera.FreeCamera.constructor | RollerCoasterModel/Camera/FreeCamera.cs:21-32 | a new camera is at the given position with yaw −90 and pitch 0, and its basis is the one these angles determine |
| FreeCamera.FreeCamera.Look | RollerCoasterModel/Camera/FreeCamera.cs:34-48 | yaw and pitch grow by 0.1 times the offsets; pitch is clamped to [−89, 89] exactly when asked; the basis follows the new angles |
| FreeCamera.FreeCamera.Move | RollerCoasterModel/Camera/FreeCamera.cs:50-54 | the position moves by direction · 2.5 · dt and nothing else changes |
| FreeCamera.FreeCamera.Zoom | RollerCoasterModel/Camera/FreeCamera.cs:56-63 | the camera steps along its front exactly when the new distance from the origin is strictly between 2 and 20; otherwise it stays |
| FreeCamera.FreeCamera.GetViewMatrix | RollerCoasterModel/Camera/FreeCamera.cs:65-68 | the view looks from the camera's position, along its front, with its up vector |
| FreeCamera.FreeCamera.UpdateVectors | RollerCoasterModel/Camera/FreeCamera.cs:70-80 | front, right and up become the basis that yaw and pitch determine |
| FreeCamera.FreeCamera.SetFollowMode | RollerCoasterModel/Camera/FreeCamera.cs:82-87 | the camera moves 5 directions behind and 2 above the train; the view direction is unchanged because UpdateVectors overwrites the assigned front |
| FreeCamera.FreeCamera.SetTopView | RollerCoasterModel/Camera/FreeCamera.cs:89-94 | the camera moves 20 above the train; the view direction is unchanged |
| FreeCamera.FreeCamera.SetSideView | RollerCoasterModel/Camera/FreeCamera.cs:96-102 | the camera moves 10 along direction × world up from the train; the view direction is unchanged |
| FreeCamera.FreeCamera.Front | RollerCoasterModel/Camera/FreeCamera.cs:105 | the front is always the one yaw and pitch determine |
| FreeCamera.FreeCamera.Up | RollerCoasterModel/Camera/FreeCamera.cs:106 | the up vector is always the one yaw and pitch determine |
| Camera.FreeCamera.constructor | RollerCoasterModel/Camera/Camera.cs:7-22 | a new camera is at the given position with yaw −90 and pitch 0, and its basis follows these angles |
| Camera.FreeCamera.Move | RollerCoasterModel/Camera/Camera.cs:24-27 | the position moves by direction · 3 · dt and nothing else changes |
| Camera.FreeCamera.Look | RollerCoasterModel/Camera/Camera.cs:29-36 | yaw grows by 0.2·dx, and pitch falls by 0.2·dy and is then always clamped to [−89, 89], which it therefore never leaves |
| Camera.FreeCamera.GetViewMatrix | RollerCoasterModel/Camera/Camera.cs:38-41 | the view looks from Position along Front with Up |
| Camera.FreeCamera.UpdateVectors | RollerCoasterModel/Camera/Camera.cs:43-53 | Front, Right and Up become the basis that yaw and pitch determine |

## Left out

- Vector3.Normalize and square roots are not modelled. Direction, normal, the side-view
  right vector and the camera bases are the vectors before normalisation. Zoom's distance
  test is stated on the squared length (`FreeCamera.ZoomRangeSquared` shows the two agree).
  The distance test for the trees is done the same way (`Objects.DistanceTestSquared`).
  `Track.RescalingKeepsNormalFacts` covers what normalising a non-zero vector does to the
  normal's properties.
- The NaN normal is not modelled. At t = 5.94/7 and t = 6.99/7 of every lap the normal
  before normalisation is the zero vector in exact arithmetic. `Vector3.Normalize` then
  yields NaN, `Train.UpdatePosition` stores that NaN normal, and `TrainCar.UpdatePosition`
  adds 0.1·NaN to the position. The model states the zero vector there
  (`Track.NormalVanishesBeforeReturn`, `Track.NormalVanishesAtStation`). Near those
  parameters, in 32-bit floats, the normal's direction depends on rounding.
- TrainCar.TrainCar.UpdatePosition: the 0.1 offset is along the un-normalised normal, which
  is not the source's unit normal.
- FreeCamera.FreeCamera.SetSideView: the 10-unit offset is along the un-normalised
  direction × world up, which is not the source's unit vector.
- The trigonometry of both cameras' UpdateVectors is a constructor parameter `vectors`,
  taken as a function of (yaw, pitch). The cosine and sine of CreateMesh's ring angles are
  a parameter `circle`. Neither is computed.
- GetBankAngle is left out, because it is atan2 and a degree conversion.
- Floating-point behaviour is left out: 32-bit rounding, infinities and NaN. Values are
  exact reals. The infinite step that a zero track length causes is `None`
  (`Progress.IncrementAsWritten`).
- System.Random is left out. GeneratePositions takes the stream of draws `rand` as input,
  using two per candidate and three more per accepted tree. The source's loop ends only when
  `count` trees are placed. The model's loop also ends when the stream runs out, and reports
  which happened.
- Objects.TreeObject.GeneratePositions: builds the new lists in locals and assigns them at
  the end. The source clears them and appends in place. No one else can observe the lists
  during the call, so the final state is the same.
- Objects.TreeObject.CreateMesh: the vertex and index lists are built and specified, but only
  the index counts are kept. The GL buffer, vertex-array and attribute calls are left out.
- TreeObject.Draw, Renderer, shaders, ImGui and the other UI, MainWindow, Program, and all
  OpenGL calls are left out. They are rendering and windowing, not simulation.
- Train.Train.Update: requires `deltaTime >= 0`. The invariant that the parameter is never
  negative depends on it.
- Train.Train.Update and TrainCar.TrainCar.Update take the track length as a positive
  parameter instead of reading GetTrackLength, which is always 0. The code as written is
  under "## Findings".
- TrainCar.TrainCar.Update: requires that the track can be sampled at the new parameter.
  The car's speed is unclamped and its parameter may start negative, so the source can fail
  a list read there, and the model keeps to states without that failure.
- TrainCar.TrainCar.constructor: requires that the track can be sampled at the initial
  parameter, for the same reason. The C# default argument 0 is left out.
- FreeCamera.FreeCamera.Look: the C# default `constrainPitch = true` is not modelled. The
  flag is always passed.
- Objects.TreeObject.GeneratePositions: the C# default `count = 100` is not modelled. The
  count is always passed.
- Track.RollerCoasterTrack.GetTrackPoints returns the list object itself in C#. The model
  returns its value, so changes a caller makes through that reference are not modelled.
- `Camera.cs` and `FreeCamera.cs` declare the same class in the same namespace, so the
  repository does not compile as it stands. Each is modelled separately. The
  `Renderer.Draw` arity mismatch with its caller is outside this model.
- The source's public fields of `Camera.cs` (Position, Front, Up, Right) are fields of the
  class. Writes to them from outside the class are not modelled and would break `Valid()`.
- FreeCamera.FreeCamera.Position is a getter that returns the field, with no `ensures`.

## Findings

| source | as written | input that shows it | evidently intended | confidence | as-written member | corrected member |
|---|---|---|---|---|---|---|
| RollerCoasterModel/Track/RollerCoasterTrack.cs:10 | `_trackLength` is declared but never assigned, so `GetTrackLength()` returns 0. `Train.Update` (Train.cs:24-25) and `TrainCar.Update` (TrainCar.cs:25, 32) divide the step by it. | any `Update(deltaTime)` on a freshly built track, e.g. speed 5 and deltaTime 0.016: the step is 0.08 / 0 | divide by the track's positive length, so each frame advances the parameter by a fraction of a lap that is then wrapped | not executed | Train.IncrementOnFreshTrack | Train.Train.Update |
