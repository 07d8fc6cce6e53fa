/**
 * The two animation bakes of the car rig (car_rig.py): the wheel-rotation bake,
 * which accumulates the distance the root bone travels, and the steering bake,
 * which turns the root's change of heading into a steering position. Both visit
 * one integer frame after another over the range of the root's curves and write
 * one keyframe per frame into a freshly created target curve.
 *
 * The per-frame geometry (vector differences, quaternion products, `copysign`,
 * the steering scale) is floating-point maths and stays opaque: a `Maths` value
 * supplies it.
 */
module Bake {
  import opened Wrappers
  import opened Curves
  import opened Actions

  /**
   * The opaque per-frame maths: the signed distance travelled between two root
   * positions given the root's rotation, the signed turn between two rotations,
   * and the steering value a turn angle is keyed as.
   */
  datatype Maths = Maths(
    travel: (seq<real>, seq<real>, seq<real>) -> real,
    turn: (seq<real>, seq<real>) -> real,
    steer: real -> real)

  /** The group the bakes file their new curve under. */
  const BAKE_GROUP: string := "Wheel rotation baking"

  /** `'pose.bones["%s"].%s' % (bone, property)` */
  function PoseBonePath(bone: string, property: string): string {
    "pose.bones[\"" + bone + "\"]." + property
  }

  /** `_create_location_evaluator`: the bone's three location curves, defaulting to the origin. */
  function LocationEvaluator(curves: seq<FCurve>, bone: string): (e: FCurvesEvaluator)
    ensures |e.fcurves| == |e.defaultValue| == 3
  {
    var path := PoseBonePath(bone, "location");
    FCurvesEvaluator(seq(3, i => Lookup(curves, path, i)), [0.0, 0.0, 0.0])
  }

  /** `_create_rotation_evaluator`: the bone's four quaternion curves, defaulting to the identity. */
  function RotationEvaluator(curves: seq<FCurve>, bone: string): (e: FCurvesEvaluator)
    ensures |e.fcurves| == |e.defaultValue| == 4
  {
    var path := PoseBonePath(bone, "rotation_quaternion");
    FCurvesEvaluator(seq(4, i => Lookup(curves, path, i)), [1.0, 0.0, 0.0, 0.0])
  }

  /**
   * The frames a bake visits over a range: none when `end - start <= 0`, otherwise
   * every integer frame from `start` to `end` inclusive, in order.
   */
  function Schedule(r: FrameRange): seq<int> {
    if r.end - r.start <= 0 then [] else seq(r.end - r.start + 1, k => r.start + k)
  }

  /** The schedule visits exactly the frames of a non-empty range, each once, in increasing order. */
  lemma ScheduleCoversRange(r: FrameRange)
    ensures forall f :: f in Schedule(r) <==> r.start < r.end && r.start <= f <= r.end
    ensures forall i, j :: 0 <= i < j < |Schedule(r)| ==> Schedule(r)[i] < Schedule(r)[j]
    ensures r.start < r.end ==> |Schedule(r)| == r.end - r.start + 1 && Schedule(r)[0] == r.start
  {
    if r.start < r.end {
      forall f | r.start <= f <= r.end ensures f in Schedule(r) {
        assert Schedule(r)[f - r.start] == f;
      }
    }
  }

  function Frames(samples: seq<Keyframe>): seq<int> {
    seq(|samples|, k requires 0 <= k < |samples| => samples[k].frame)
  }

  // ---------------------------------------------------------------------------
  // `_evaluate_distance_per_frame`

  /** The position the distance step at frame `f` starts from: the range start for the first frame, else the previous frame. */
  function PreviousFrame(start: int, f: int): int {
    if f == start then start else f - 1
  }

  /** Signed distance the root has travelled from the start of the range up to and including frame `f`. */
  function Travelled(loc: FCurvesEvaluator, rot: FCurvesEvaluator, host: Host, maths: Maths, start: int, f: int): real
    requires start <= f
    decreases f - start
  {
    (if f == start then 0.0 else Travelled(loc, rot, host, maths, start, f - 1))
      + maths.travel(loc.ValueAt(host, f), loc.ValueAt(host, PreviousFrame(start, f)), rot.ValueAt(host, f))
  }

  /** What `_evaluate_distance_per_frame` yields: one (frame, distance so far) pair per scheduled frame. */
  function DistanceSamples(loc: FCurvesEvaluator, rot: FCurvesEvaluator, host: Host, maths: Maths): seq<Keyframe>
    requires |loc.fcurves| > 0
  {
    var r := loc.Range(host).value;
    var frames := Schedule(r);
    seq(|frames|, k requires 0 <= k < |frames| => Keyframe(frames[k], Travelled(loc, rot, host, maths, r.start, frames[k])))
  }

  /**
   * `_evaluate_distance_per_frame`: nothing when the location range is empty;
   * otherwise, frame after frame, adds the step from the previous position to the
   * running distance and yields the frame with the distance so far.
   */
  method DistancePerFrame(loc: FCurvesEvaluator, rot: FCurvesEvaluator, host: Host, maths: Maths)
    returns (samples: seq<Keyframe>)
    requires |loc.fcurves| > 0
    ensures samples == DistanceSamples(loc, rot, host, maths)
  {
    var r := loc.Range(host).value;
    DistanceSamplesAt(loc, rot, host, maths);
    if r.end - r.start <= 0 {
      return [];
    }
    samples := DistanceLoop(loc, rot, host, maths, r.start, r.end);
  }

  /** The frame loop of `_evaluate_distance_per_frame` over a non-empty range. */
  method DistanceLoop(loc: FCurvesEvaluator, rot: FCurvesEvaluator, host: Host, maths: Maths, start: int, end: int)
    returns (samples: seq<Keyframe>)
    requires start < end
    ensures |samples| == end - start + 1
    ensures forall j :: 0 <= j < |samples| ==>
      samples[j] == Keyframe(start + j, Travelled(loc, rot, host, maths, start, start + j))
  {
    var r := FrameRange(start, end);
    var prevPos := loc.Evaluate(host, r.start);
    var distance := 0.0;
    samples := [];
    for f := r.start to r.end + 1
      invariant |samples| == f - r.start
      invariant forall j :: 0 <= j < |samples| ==>
        samples[j] == Keyframe(r.start + j, Travelled(loc, rot, host, maths, r.start, r.start + j))
      invariant prevPos == loc.ValueAt(host, PreviousFrame(r.start, f))
      invariant distance == if f == r.start then 0.0 else Travelled(loc, rot, host, maths, r.start, f - 1)
    {
      var pos := loc.Evaluate(host, f);
      var rotation := rot.Evaluate(host, f);
      distance := distance + maths.travel(pos, prevPos, rotation);
      samples := samples + [Keyframe(f, distance)];
      prevPos := pos;
    }
  }

  /** `DistanceSamples` element by element. */
  lemma DistanceSamplesAt(loc: FCurvesEvaluator, rot: FCurvesEvaluator, host: Host, maths: Maths)
    requires |loc.fcurves| > 0
    ensures var r := loc.Range(host).value;
      var s := DistanceSamples(loc, rot, host, maths);
      (r.end - r.start <= 0 ==> s == [])
      && (r.end - r.start > 0 ==> |s| == r.end - r.start + 1)
      && forall k :: 0 <= k < |s| ==> s[k] == Keyframe(r.start + k, Travelled(loc, rot, host, maths, r.start, r.start + k))
  {
  }

  // ---------------------------------------------------------------------------
  // `_evaluate_rotation_per_frame`

  /**
   * What `_evaluate_rotation_per_frame` yields: for each scheduled frame `f` the
   * turn from the rotation at `f` to the rotation at `f + 1`.
   */
  function TurnSamples(rot: FCurvesEvaluator, host: Host, maths: Maths): seq<Keyframe>
    requires |rot.fcurves| > 0
  {
    var frames := Schedule(rot.Range(host).value);
    seq(|frames|, k requires 0 <= k < |frames| =>
      Keyframe(frames[k], maths.turn(rot.ValueAt(host, frames[k]), rot.ValueAt(host, frames[k] + 1))))
  }

  /**
   * `_evaluate_rotation_per_frame`: nothing when the rotation range is empty;
   * otherwise it carries the current rotation from frame to frame, yielding the
   * turn to the next frame's rotation.
   */
  method RotationPerFrame(rot: FCurvesEvaluator, host: Host, maths: Maths) returns (samples: seq<Keyframe>)
    requires |rot.fcurves| > 0
    ensures samples == TurnSamples(rot, host, maths)
  {
    var r := rot.Range(host).value;
    TurnSamplesAt(rot, host, maths);
    if r.end - r.start <= 0 {
      return [];
    }
    samples := TurnLoop(rot, host, maths, r.start, r.end);
  }

  /** The frame loop of `_evaluate_rotation_per_frame` over a non-empty range. */
  method TurnLoop(rot: FCurvesEvaluator, host: Host, maths: Maths, start: int, end: int)
    returns (samples: seq<Keyframe>)
    requires start < end
    ensures |samples| == end - start + 1
    ensures forall j :: 0 <= j < |samples| ==>
      samples[j] == Keyframe(start + j, maths.turn(rot.ValueAt(host, start + j), rot.ValueAt(host, start + j + 1)))
  {
    var current := rot.Evaluate(host, start);
    samples := [];
    for f := start to end + 1
      invariant |samples| == f - start
      invariant forall j :: 0 <= j < |samples| ==>
        samples[j] == Keyframe(start + j, maths.turn(rot.ValueAt(host, start + j), rot.ValueAt(host, start + j + 1)))
      invariant current == rot.ValueAt(host, f)
    {
      var next := rot.Evaluate(host, f + 1);
      samples := samples + [Keyframe(f, maths.turn(current, next))];
      current := next;
    }
  }

  /** `TurnSamples` element by element. */
  lemma TurnSamplesAt(rot: FCurvesEvaluator, host: Host, maths: Maths)
    requires |rot.fcurves| > 0
    ensures var r := rot.Range(host).value;
      var s := TurnSamples(rot, host, maths);
      (r.end - r.start <= 0 ==> s == [])
      && (r.end - r.start > 0 ==> |s| == r.end - r.start + 1)
      && forall k :: 0 <= k < |s| ==>
        s[k] == Keyframe(r.start + k, maths.turn(rot.ValueAt(host, r.start + k), rot.ValueAt(host, r.start + k + 1)))
  {
  }

  /** Both generators yield exactly the scheduled frames of their curves' range. */
  lemma SampleFrames(loc: FCurvesEvaluator, rot: FCurvesEvaluator, host: Host, maths: Maths)
    requires |loc.fcurves| > 0 && |rot.fcurves| > 0
    ensures Frames(DistanceSamples(loc, rot, host, maths)) == Schedule(loc.Range(host).value)
    ensures Frames(TurnSamples(rot, host, maths)) == Schedule(rot.Range(host).value)
  {
  }

  /** A root without location curves yields no distance at all, so the wheel bake keys nothing. */
  lemma NoLocationCurvesNoSamples(curves: seq<FCurve>, bone: string, host: Host, maths: Maths)
    requires forall i :: 0 <= i < 3 ==> Lookup(curves, PoseBonePath(bone, "location"), i).None?
    ensures DistanceSamples(LocationEvaluator(curves, bone), RotationEvaluator(curves, bone), host, maths) == []
  {
    AllMissingRange(LocationEvaluator(curves, bone), host);
  }

  /** A root without rotation curves yields no turn at all, so the steering bake keys nothing. */
  lemma NoRotationCurvesNoSamples(curves: seq<FCurve>, bone: string, host: Host, maths: Maths)
    requires forall i :: 0 <= i < 4 ==> Lookup(curves, PoseBonePath(bone, "rotation_quaternion"), i).None?
    ensures TurnSamples(RotationEvaluator(curves, bone), host, maths) == []
  {
    AllMissingRange(RotationEvaluator(curves, bone), host);
  }

  // ---------------------------------------------------------------------------
  // `_bake_wheel_rotation` and `_bake_steering_wheel_rotation`

  /**
   * The ratio that turns distance into wheel rotation: the inverse of the wheel
   * bone's height when it is above the ground, 1 otherwise.
   */
  function SpeedRatio(headZ: real): (ratio: real)
    ensures ratio > 0.0
    ensures headZ > 0.0 ==> ratio * headZ == 1.0
    ensures headZ <= 0.0 ==> ratio == 1.0
  {
    if headZ > 0.0 then 1.0 / headZ else 1.0
  }

  /** The keyframes written for yielded samples: same frames, each value passed through `value`. */
  function Keys(samples: seq<Keyframe>, value: real -> real): (keys: seq<Keyframe>)
    ensures Frames(keys) == Frames(samples)
  {
    seq(|samples|, k requires 0 <= k < |samples| => Keyframe(samples[k].frame, value(samples[k].value)))
  }

  function Scale(ratio: real): real -> real {
    d => d * ratio
  }

  /** The curve a wheel bake writes: the target bone's X rotation. */
  function WheelPath(target: string): string {
    PoseBonePath(target, "rotation_euler")
  }

  /** The curve a steering bake writes: the target bone's X location. */
  function SteeringPath(target: string): string {
    PoseBonePath(target, "location")
  }

  /** Keyframes of the wheel bake: distance so far times the speed ratio, per frame. */
  function WheelKeys(curves: seq<FCurve>, host: Host, maths: Maths, source: string, headZ: real): seq<Keyframe> {
    Keys(DistanceSamples(LocationEvaluator(curves, source), RotationEvaluator(curves, source), host, maths),
         Scale(SpeedRatio(headZ)))
  }

  /** Keyframes of the steering bake: the steering value of each frame's turn. */
  function SteeringKeys(curves: seq<FCurve>, host: Host, maths: Maths, source: string): seq<Keyframe> {
    Keys(TurnSamples(RotationEvaluator(curves, source), host, maths), maths.steer)
  }

  /** The curves after a bake: the old curve for the key is gone and a new one holding `keys` is added. */
  function Rebaked(curves: seq<FCurve>, path: string, keys: seq<Keyframe>): seq<FCurve> {
    Without(curves, path, 0) + [FCurve(path, 0, BAKE_GROUP, keys)]
  }

  /**
   * After a bake exactly one curve animates the target, and it holds the baked
   * keyframes; every curve for another key is still there.
   */
  lemma RebakedHasOneCurve(curves: seq<FCurve>, path: string, keys: seq<Keyframe>)
    requires UniqueKeys(curves)
    ensures UniqueKeys(Rebaked(curves, path, keys))
    ensures CountKey(Rebaked(curves, path, keys), path, 0) == 1
    ensures Lookup(Rebaked(curves, path, keys), path, 0) == Some(FCurve(path, 0, BAKE_GROUP, keys))
    ensures forall c :: c in curves && !HasKey(c, path, 0) ==> c in Rebaked(curves, path, keys)
  {
    var rest := Without(curves, path, 0);
    var c := FCurve(path, 0, BAKE_GROUP, keys);
    WithoutProperties(curves, path, 0);
    CountKeyAppend(rest, c, path, 0);
    WithoutNoKey(rest, path);
    var r := Rebaked(curves, path, keys);
    assert Find(rest, path, 0).None?;
    FindAfterMissing(rest, c, path);
  }

  lemma {:induction false} CountKeyAppend(curves: seq<FCurve>, c: FCurve, path: string, index: int)
    ensures CountKey(curves + [c], path, index) == CountKey(curves, path, index) + (if HasKey(c, path, index) then 1 else 0)
  {
    if curves != [] {
      CountKeyAppend(curves[1..], c, path, index);
      assert (curves + [c])[1..] == curves[1..] + [c];
    }
  }

  lemma {:induction false} WithoutNoKey(curves: seq<FCurve>, path: string)
    requires CountKey(curves, path, 0) == 0
    ensures forall k :: 0 <= k < |curves| ==> !HasKey(curves[k], path, 0)
  {
    if curves != [] {
      WithoutNoKey(curves[1..], path);
      forall k | 1 <= k < |curves| ensures !HasKey(curves[k], path, 0) {
        assert curves[k] == curves[1..][k - 1];
      }
    }
  }

  lemma FindAfterMissing(curves: seq<FCurve>, c: FCurve, path: string)
    requires forall k :: 0 <= k < |curves| ==> !HasKey(curves[k], path, 0)
    requires HasKey(c, path, 0)
    ensures Lookup(curves + [c], path, 0) == Some(c)
    ensures UniqueKeys(curves) ==> UniqueKeys(curves + [c])
  {
    var s := curves + [c];
    var r := Find(s, path, 0);
    assert s[|curves|] == c;
    assert r.Some? && r.value == |curves|;
  }

  /** The paths the bakes read and the paths they write never coincide, whatever the bone names. */
  lemma BakePathsDiffer(a: string, b: string)
    ensures PoseBonePath(a, "location") != WheelPath(b)
    ensures PoseBonePath(a, "rotation_quaternion") != WheelPath(b)
    ensures PoseBonePath(a, "rotation_quaternion") != SteeringPath(b)
  {
    var loc := PoseBonePath(a, "location");
    var quat := PoseBonePath(a, "rotation_quaternion");
    var euler := WheelPath(b);
    var steer := SteeringPath(b);
    assert loc[|loc| - 1] == 'n' && euler[|euler| - 1] == 'r';
    assert quat[|quat| - 1] == 'n';
    assert quat[|quat| - 11] == '_' && steer[|steer| - 11] == '"';
  }

  /** Looking up another path reads the same curve before and after the target curve is rebuilt. */
  lemma LookupUnaffected(curves: seq<FCurve>, path: string, c: FCurve, other: string)
    requires c.dataPath == path && other != path
    ensures forall i :: Lookup(Without(curves, path, 0) + [c], other, i) == Lookup(curves, other, i)
  {
    forall i ensures Lookup(Without(curves, path, 0) + [c], other, i) == Lookup(curves, other, i) {
      LookupAppend(Without(curves, path, 0), c, other, i);
      LookupWithout(curves, path, 0, other, i);
    }
  }

  /**
   * The insertion loop of both bakes: one `keyframe_points.insert` per yielded
   * sample into the new, empty curve at position `k`. Frames come in strictly
   * increasing order, so each insertion lands after the previous one.
   */
  method InsertSamples(action: Action, k: nat, samples: seq<Keyframe>, value: real -> real)
    requires action.Valid() && k < |action.fcurves| && action.fcurves[k].keyframes == []
    requires StrictlyIncreasing(samples)
    modifies action
    ensures action.Valid()
    ensures action.fcurves == old(action.fcurves)[k := old(action.fcurves)[k].(keyframes := Keys(samples, value))]
  {
    var keys := Keys(samples, value);
    for j := 0 to |samples|
      invariant action.Valid()
      invariant action.fcurves == old(action.fcurves)[k := old(action.fcurves)[k].(keyframes := keys[..j])]
    {
      InsertKeyAfterLast(keys[..j], keys[j]);
      assert keys[..j] + [keys[j]] == keys[..j + 1];
      action.InsertKeyframe(k, samples[j].frame, value(samples[j].value));
    }
    assert keys[..|samples|] == keys;
  }

  lemma DistanceSamplesIncreasing(loc: FCurvesEvaluator, rot: FCurvesEvaluator, host: Host, maths: Maths)
    requires |loc.fcurves| > 0
    ensures StrictlyIncreasing(DistanceSamples(loc, rot, host, maths))
  {
    ScheduleCoversRange(loc.Range(host).value);
  }

  lemma TurnSamplesIncreasing(rot: FCurvesEvaluator, host: Host, maths: Maths)
    requires |rot.fcurves| > 0
    ensures StrictlyIncreasing(TurnSamples(rot, host, maths))
  {
    ScheduleCoversRange(rot.Range(host).value);
  }

  /**
   * Replaces the target's curve, if any, by a fresh empty one in the bake group.
   * Returns its position.
   */
  method ReplaceCurve(action: Action, path: string) returns (k: nat)
    requires action.Valid()
    modifies action
    ensures action.Valid()
    ensures action.fcurves == Rebaked(old(action.fcurves), path, []) && k == |action.fcurves| - 1
  {
    var found := Find(action.fcurves, path, 0);
    if found.Some? {
      RemoveFound(action.fcurves, path, 0, found.value);
      action.Remove(found.value);
    } else {
      WithoutNone(action.fcurves, path, 0);
    }
    WithoutProperties(old(action.fcurves), path, 0);
    WithoutNoKey(action.fcurves, path);
    k := action.New(path, 0, BAKE_GROUP);
  }

  /**
   * `_bake_wheel_rotation`: replaces the target bone's X-rotation curve and keys it,
   * frame by frame, with the distance the source bone has travelled times the
   * speed ratio.
   */
  method BakeWheelRotation(action: Action, host: Host, maths: Maths, source: string, target: string, headZ: real)
    requires action.Valid()
    modifies action
    ensures action.Valid()
    ensures action.fcurves == Rebaked(old(action.fcurves), WheelPath(target), WheelKeys(old(action.fcurves), host, maths, source, headZ))
  {
    var path := WheelPath(target);
    var k := ReplaceCurve(action, path);
    var ratio := SpeedRatio(headZ);
    BakePathsDiffer(source, target);
    LookupUnaffected(old(action.fcurves), path, FCurve(path, 0, BAKE_GROUP, []), PoseBonePath(source, "location"));
    LookupUnaffected(old(action.fcurves), path, FCurve(path, 0, BAKE_GROUP, []), PoseBonePath(source, "rotation_quaternion"));
    var loc := LocationEvaluator(action.fcurves, source);
    var rot := RotationEvaluator(action.fcurves, source);
    assert loc == LocationEvaluator(old(action.fcurves), source);
    assert rot == RotationEvaluator(old(action.fcurves), source);
    var samples := DistancePerFrame(loc, rot, host, maths);
    DistanceSamplesIncreasing(loc, rot, host, maths);
    InsertSamples(action, k, samples, Scale(ratio));
  }

  /**
   * `_bake_steering_wheel_rotation`: replaces the target bone's X-location curve and
   * keys it, frame by frame, with the steering value of the source bone's turn.
   */
  method BakeSteeringWheelRotation(action: Action, host: Host, maths: Maths, source: string, target: string)
    requires action.Valid()
    modifies action
    ensures action.Valid()
    ensures action.fcurves == Rebaked(old(action.fcurves), SteeringPath(target), SteeringKeys(old(action.fcurves), host, maths, source))
  {
    var path := SteeringPath(target);
    var k := ReplaceCurve(action, path);
    BakePathsDiffer(source, target);
    LookupUnaffected(old(action.fcurves), path, FCurve(path, 0, BAKE_GROUP, []), PoseBonePath(source, "rotation_quaternion"));
    var rot := RotationEvaluator(action.fcurves, source);
    assert rot == RotationEvaluator(old(action.fcurves), source);
    var samples := RotationPerFrame(rot, host, maths);
    TurnSamplesIncreasing(rot, host, maths);
    InsertSamples(action, k, samples, maths.steer);
  }

  /**
   * The baked curves are keyed on every scheduled frame of the source's range and
   * on no other: the location range for the wheels, the rotation range for the
   * steering.
   */
  lemma BakedFrames(curves: seq<FCurve>, host: Host, maths: Maths, source: string, headZ: real)
    ensures Frames(WheelKeys(curves, host, maths, source, headZ)) == Schedule(LocationEvaluator(curves, source).Range(host).value)
    ensures Frames(SteeringKeys(curves, host, maths, source)) == Schedule(RotationEvaluator(curves, source).Range(host).value)
  {
    var loc := LocationEvaluator(curves, source);
    var rot := RotationEvaluator(curves, source);
    SampleFrames(loc, rot, host, maths);
  }
}
