/**
 * Animation curves as the car rig sees them, and `FCurvesEvaluator`
 * (car_rig.py), which reads a vector property from a group of optional
 * per-component curves. The host's interpolation of a curve is opaque: a `Host`
 * value supplies a curve's value at a frame and the frame range it covers.
 * Frames are integers.
 */
module Curves {
  import opened Wrappers

  /** `sys.maxsize` on a 64-bit host: the start a missing curve contributes to a range. */
  const MAXSIZE: int := 0x7FFF_FFFF_FFFF_FFFF

  datatype Keyframe = Keyframe(frame: int, value: real)

  /** A curve of an action: the property it animates (data path and array index), its group and its keyframes. */
  datatype FCurve = FCurve(dataPath: string, index: int, group: string, keyframes: seq<Keyframe>)

  datatype FrameRange = FrameRange(start: int, end: int)

  /** The host's curve interpolation: `fcurve.evaluate(f)` and `fcurve.range()`. */
  datatype Host = Host(evaluate: (FCurve, int) -> real, range: FCurve -> FrameRange)

  /** Python's `min` over a non-empty list. */
  function MinOf(xs: seq<int>): (m: int)
    requires |xs| > 0
    ensures m in xs
    ensures forall x :: x in xs ==> m <= x
  {
    if |xs| == 1 then xs[0]
    else
      var rest := MinOf(xs[1..]);
      assert forall x :: x in xs ==> x == xs[0] || x in xs[1..];
      if xs[0] <= rest then xs[0] else rest
  }

  /** Python's `max` over a non-empty list. */
  function MaxOf(xs: seq<int>): (m: int)
    requires |xs| > 0
    ensures m in xs
    ensures forall x :: x in xs ==> x <= m
  {
    if |xs| == 1 then xs[0]
    else
      var rest := MaxOf(xs[1..]);
      assert forall x :: x in xs ==> x == xs[0] || x in xs[1..];
      if xs[0] >= rest then xs[0] else rest
  }

  /**
   * A vector property read from curves: one optional curve per component and a
   * default value per component for the components without a curve.
   */
  datatype FCurvesEvaluator = FCurvesEvaluator(fcurves: seq<Option<FCurve>>, defaultValue: seq<real>) {

    /** `zip(fcurves, default_value)` stops at the shorter of the two. */
    function Width(): nat {
      if |fcurves| <= |defaultValue| then |fcurves| else |defaultValue|
    }

    /** Component `i` of the vector at frame `f`. */
    function ComponentAt(host: Host, i: nat, f: int): real
      requires i < Width()
    {
      match fcurves[i]
      case Some(c) => host.evaluate(c, f)
      case None => defaultValue[i]
    }

    /** The vector at frame `f`. */
    function ValueAt(host: Host, f: int): seq<real> {
      seq(Width(), i requires 0 <= i < Width() => ComponentAt(host, i, f))
    }

    /**
     * `evaluate(f)`: zips the curves with the defaults; a present curve gives its
     * value at `f`, a missing one the default of its component.
     */
    method Evaluate(host: Host, f: int) returns (result: seq<real>)
      ensures |result| <= |fcurves| && |result| <= |defaultValue|
      ensures |fcurves| <= |defaultValue| ==> |result| == |fcurves|
      ensures |defaultValue| <= |fcurves| ==> |result| == |defaultValue|
      ensures forall i :: 0 <= i < |result| && fcurves[i].Some? ==> result[i] == host.evaluate(fcurves[i].value, f)
      ensures forall i :: 0 <= i < |result| && fcurves[i].None? ==> result[i] == defaultValue[i]
      ensures result == ValueAt(host, f)
    {
      result := [];
      var n := Width();
      for i := 0 to n
        invariant result == ValueAt(host, f)[..i]
      {
        if fcurves[i].Some? {
          result := result + [host.evaluate(fcurves[i].value, f)];
        } else {
          result := result + [defaultValue[i]];
        }
      }
      assert ValueAt(host, f)[..n] == ValueAt(host, f);
    }

    /** Each curve's start, or `sys.maxsize` for a missing curve. */
    function StartCandidates(host: Host): seq<int> {
      seq(|fcurves|, i requires 0 <= i < |fcurves| =>
        if fcurves[i].Some? then host.range(fcurves[i].value).start else MAXSIZE)
    }

    /** Each curve's end, or `0` for a missing curve. */
    function EndCandidates(host: Host): seq<int> {
      seq(|fcurves|, i requires 0 <= i < |fcurves| =>
        if fcurves[i].Some? then host.range(fcurves[i].value).end else 0)
    }

    /**
     * `range()`: the smallest start and the largest end over the curves, missing
     * curves counting as `sys.maxsize` and `0`. With no curves at all Python's
     * `min` raises, which is `None` here.
     */
    function Range(host: Host): (r: Option<FrameRange>)
      ensures r.None? <==> |fcurves| == 0
      ensures r.Some? ==> r.value.start in StartCandidates(host) && r.value.end in EndCandidates(host)
      ensures r.Some? ==> forall s :: s in StartCandidates(host) ==> r.value.start <= s
      ensures r.Some? ==> forall e :: e in EndCandidates(host) ==> e <= r.value.end
    {
      if |fcurves| == 0 then None
      else Some(FrameRange(MinOf(StartCandidates(host)), MaxOf(EndCandidates(host))))
    }
  }

  /** With every curve missing, the evaluator returns its defaults whatever the frame. */
  lemma AllMissingGivesDefaults(e: FCurvesEvaluator, host: Host, f: int)
    requires forall i :: 0 <= i < |e.fcurves| ==> e.fcurves[i].None?
    requires |e.defaultValue| <= |e.fcurves|
    ensures e.ValueAt(host, f) == e.defaultValue
  {
    assert e.Width() == |e.defaultValue|;
    assert forall i :: 0 <= i < e.Width() ==> e.ValueAt(host, f)[i] == e.defaultValue[i];
  }

  /** With every curve missing, the range is `[sys.maxsize, 0]`, which is empty. */
  lemma AllMissingRange(e: FCurvesEvaluator, host: Host)
    requires |e.fcurves| > 0
    requires forall i :: 0 <= i < |e.fcurves| ==> e.fcurves[i].None?
    ensures e.Range(host) == Some(FrameRange(MAXSIZE, 0))
  {
    var starts := e.StartCandidates(host);
    var ends := e.EndCandidates(host);
    assert forall s :: s in starts ==> s == MAXSIZE;
    assert forall x :: x in ends ==> x == 0;
  }

  /**
   * With at least one curve present and every present curve starting no later than
   * `sys.maxsize` and ending no earlier than 0, the range is exactly the smallest
   * start and the largest end of the present curves: the sentinels never win.
   */
  lemma PresentCurvesDecideRange(e: FCurvesEvaluator, host: Host, k: nat)
    requires k < |e.fcurves| && e.fcurves[k].Some?
    requires forall i :: 0 <= i < |e.fcurves| && e.fcurves[i].Some? ==>
      host.range(e.fcurves[i].value).start <= MAXSIZE && 0 <= host.range(e.fcurves[i].value).end
    ensures var r := e.Range(host).value;
      (exists i :: 0 <= i < |e.fcurves| && e.fcurves[i].Some? && r.start == host.range(e.fcurves[i].value).start)
      && (exists i :: 0 <= i < |e.fcurves| && e.fcurves[i].Some? && r.end == host.range(e.fcurves[i].value).end)
  {
    var r := e.Range(host).value;
    var starts := e.StartCandidates(host);
    var ends := e.EndCandidates(host);
    var c := e.fcurves[k].value;
    assert starts[k] == host.range(c).start && ends[k] == host.range(c).end;
    var i :| 0 <= i < |starts| && starts[i] == r.start;
    if e.fcurves[i].None? {
      assert r.start == MAXSIZE;
      assert starts[k] in starts;
      i := k;
    }
    var j :| 0 <= j < |ends| && ends[j] == r.end;
    if e.fcurves[j].None? {
      assert r.end == 0;
      assert ends[k] in ends;
      j := k;
    }
  }

  /**
   * The end sentinel wins when a component has no curve and every present curve
   * ends before frame 0: the range then ends at frame 0, past the end of every
   * curve, so a bake over it keys frames no curve covers.
   */
  lemma EndSentinelWins(e: FCurvesEvaluator, host: Host, missing: nat)
    requires missing < |e.fcurves| && e.fcurves[missing].None?
    requires forall i :: 0 <= i < |e.fcurves| && e.fcurves[i].Some? ==> host.range(e.fcurves[i].value).end < 0
    ensures e.Range(host).value.end == 0
    ensures forall i :: 0 <= i < |e.fcurves| && e.fcurves[i].Some? ==>
      host.range(e.fcurves[i].value).end < e.Range(host).value.end
  {
    var ends := e.EndCandidates(host);
    assert ends[missing] == 0 && ends[missing] in ends;
    forall x | x in ends ensures x <= 0 {
      var i :| 0 <= i < |ends| && ends[i] == x;
      assert e.fcurves[i].Some? ==> x == host.range(e.fcurves[i].value).end;
    }
    assert e.Range(host).value.end in ends;
  }
}
