/**
 * The curve collection of an action (`action.fcurves`) as the wheel bakes use it:
 * find a curve by data path and index, remove it, create a new one, and insert
 * keyframes into it. These are host operations; the model states what the host
 * does with them.
 */
module Actions {
  import opened Wrappers
  import opened Curves

  predicate HasKey(c: FCurve, path: string, index: int) {
    c.dataPath == path && c.index == index
  }

  /** The host keeps at most one curve per (data path, index) in an action. */
  predicate UniqueKeys(curves: seq<FCurve>) {
    forall i, j :: 0 <= i < j < |curves| ==> !HasKey(curves[j], curves[i].dataPath, curves[i].index)
  }

  /** `action.fcurves.find(path, index)`: position of the curve for that key, if any. */
  function Find(curves: seq<FCurve>, path: string, index: int): (r: Option<nat>)
    ensures r.Some? ==> r.value < |curves| && HasKey(curves[r.value], path, index)
    ensures r.Some? ==> forall k :: 0 <= k < r.value ==> !HasKey(curves[k], path, index)
    ensures r.None? ==> forall k :: 0 <= k < |curves| ==> !HasKey(curves[k], path, index)
  {
    if curves == [] then None
    else if HasKey(curves[0], path, index) then Some(0)
    else match Find(curves[1..], path, index)
      case None => None
      case Some(k) => Some(k + 1)
  }

  /** The curve `find` returns. */
  function Lookup(curves: seq<FCurve>, path: string, index: int): Option<FCurve> {
    match Find(curves, path, index)
    case None => None
    case Some(k) => Some(curves[k])
  }

  /** The curves with every curve for the key taken out, the others in their order. */
  function Without(curves: seq<FCurve>, path: string, index: int): (r: seq<FCurve>)
    ensures forall c :: c in r <==> c in curves && !HasKey(c, path, index)
  {
    if curves == [] then []
    else if HasKey(curves[0], path, index) then Without(curves[1..], path, index)
    else [curves[0]] + Without(curves[1..], path, index)
  }

  /** Number of curves for a key. */
  function CountKey(curves: seq<FCurve>, path: string, index: int): nat {
    if curves == [] then 0
    else (if HasKey(curves[0], path, index) then 1 else 0) + CountKey(curves[1..], path, index)
  }

  predicate StrictlyIncreasing(keys: seq<Keyframe>) {
    forall i, j :: 0 <= i < j < |keys| ==> keys[i].frame < keys[j].frame
  }

  /**
   * `keyframe_points.insert(frame, value)`: the keyframe goes in frame order; an
   * existing keyframe on the same frame has its value replaced.
   */
  function InsertKey(keys: seq<Keyframe>, k: Keyframe): (r: seq<Keyframe>)
    ensures k in r
    ensures |keys| <= |r| <= |keys| + 1
  {
    if keys == [] then [k]
    else if k.frame < keys[0].frame then [k] + keys
    else if k.frame == keys[0].frame then [k] + keys[1..]
    else [keys[0]] + InsertKey(keys[1..], k)
  }

  /** Every keyframe of a non-empty list is its first or one of the rest. */
  lemma HeadOrTail(keys: seq<Keyframe>)
    requires keys != []
    ensures forall x :: x in keys <==> x == keys[0] || x in keys[1..]
  {
    assert keys == [keys[0]] + keys[1..];
  }

  /**
   * After inserting, the list holds the inserted keyframe and every old keyframe on
   * another frame, and nothing else.
   */
  lemma {:induction false} InsertKeyMembers(keys: seq<Keyframe>, k: Keyframe)
    requires StrictlyIncreasing(keys)
    ensures forall x :: x in InsertKey(keys, k) <==> x == k || (x in keys && x.frame != k.frame)
  {
    if keys != [] {
      HeadOrTail(keys);
      if k.frame > keys[0].frame {
        InsertKeyMembers(keys[1..], k);
        HeadOrTail(InsertKey(keys, k));
      } else {
        TailLater(keys);
        if k.frame == keys[0].frame {
          HeadOrTail(InsertKey(keys, k));
        }
      }
    }
  }

  /** A keyframe earlier than every keyframe of a sorted list can go in front of it. */
  lemma ConsIncreasing(h: Keyframe, r: seq<Keyframe>)
    requires StrictlyIncreasing(r)
    requires forall x :: x in r ==> h.frame < x.frame
    ensures StrictlyIncreasing([h] + r)
  {
    forall i, j | 0 <= i < j < |[h] + r| ensures ([h] + r)[i].frame < ([h] + r)[j].frame {
      assert ([h] + r)[j] == r[j - 1];
      if i > 0 {
        assert ([h] + r)[i] == r[i - 1];
      }
    }
  }

  /** The keyframes after the first of a sorted list all lie on later frames. */
  lemma TailLater(keys: seq<Keyframe>)
    requires keys != [] && StrictlyIncreasing(keys)
    ensures forall x :: x in keys[1..] ==> keys[0].frame < x.frame
  {
    forall x | x in keys[1..] ensures keys[0].frame < x.frame {
      var i :| 0 <= i < |keys[1..]| && keys[1..][i] == x;
      assert keys[i + 1] == x;
    }
  }

  /**
   * Inserting keeps the keyframes in strictly increasing frame order, and
   * afterwards the frame holds the inserted value while every other frame keeps
   * its keyframe.
   */
  lemma {:induction false} InsertKeySorted(keys: seq<Keyframe>, k: Keyframe)
    requires StrictlyIncreasing(keys)
    ensures StrictlyIncreasing(InsertKey(keys, k))
    ensures forall x :: x in InsertKey(keys, k) <==> x == k || (x in keys && x.frame != k.frame)
  {
    InsertKeyMembers(keys, k);
    if keys == [] {
    } else if k.frame < keys[0].frame {
      HeadOrTail(keys);
      ConsIncreasing(k, keys);
    } else if k.frame == keys[0].frame {
      TailLater(keys);
      ConsIncreasing(k, keys[1..]);
    } else {
      InsertKeySorted(keys[1..], k);
      TailLater(keys);
      ConsIncreasing(keys[0], InsertKey(keys[1..], k));
    }
  }

  /** A keyframe later than every existing one is appended at the end. */
  lemma {:induction false} InsertKeyAfterLast(keys: seq<Keyframe>, k: Keyframe)
    requires forall i :: 0 <= i < |keys| ==> keys[i].frame < k.frame
    ensures InsertKey(keys, k) == keys + [k]
  {
    if keys != [] {
      InsertKeyAfterLast(keys[1..], k);
      assert [keys[0]] + (keys[1..] + [k]) == keys + [k];
    }
  }

  /** Taking a key out leaves no curve for it, and the rest still have unique keys. */
  lemma {:induction false} WithoutProperties(curves: seq<FCurve>, path: string, index: int)
    requires UniqueKeys(curves)
    ensures UniqueKeys(Without(curves, path, index))
    ensures CountKey(Without(curves, path, index), path, index) == 0
  {
    if curves != [] {
      WithoutProperties(curves[1..], path, index);
      var rest := Without(curves[1..], path, index);
      if !HasKey(curves[0], path, index) {
        forall j | 0 <= j < |rest| ensures !HasKey(rest[j], curves[0].dataPath, curves[0].index) {
          assert rest[j] in curves[1..];
          var i :| 0 <= i < |curves[1..]| && curves[1..][i] == rest[j];
          assert curves[i + 1] == rest[j];
        }
        assert ([curves[0]] + rest)[1..] == rest;
      }
    }
  }

  /** Removing the curve at the position `find` gave is taking its key out. */
  lemma {:induction false} RemoveFound(curves: seq<FCurve>, path: string, index: int, k: nat)
    requires UniqueKeys(curves)
    requires k < |curves| && HasKey(curves[k], path, index)
    ensures curves[..k] + curves[k + 1..] == Without(curves, path, index)
  {
    var tail := curves[1..];
    UniqueTail(curves);
    if k == 0 {
      forall i | 0 <= i < |tail| ensures !HasKey(tail[i], path, index) {
        assert tail[i] == curves[i + 1];
      }
      WithoutNone(tail, path, index);
    } else {
      assert tail[k - 1] == curves[k];
      RemoveFound(tail, path, index, k - 1);
      SpliceTail(curves, k);
      assert !HasKey(curves[0], path, index);
    }
  }

  /** Leaving out a position after the first is leaving it out of the rest. */
  lemma SpliceTail(curves: seq<FCurve>, k: nat)
    requires 0 < k < |curves|
    ensures curves[..k] + curves[k + 1..] == [curves[0]] + (curves[1..][..k - 1] + curves[1..][k..])
  {
    assert curves[1..][..k - 1] == curves[1..k];
    assert curves[1..][k..] == curves[k + 1..];
    assert curves[..k] == [curves[0]] + curves[1..k];
  }

  /** The curves after the first of a collection with unique keys have unique keys too. */
  lemma UniqueTail(curves: seq<FCurve>)
    requires curves != [] && UniqueKeys(curves)
    ensures UniqueKeys(curves[1..])
  {
    forall i, j | 0 <= i < j < |curves[1..]|
      ensures !HasKey(curves[1..][j], curves[1..][i].dataPath, curves[1..][i].index)
    {
      assert curves[1..][i] == curves[i + 1] && curves[1..][j] == curves[j + 1];
    }
  }

  /** Taking out a key no curve has changes nothing. */
  lemma {:induction false} WithoutNone(curves: seq<FCurve>, path: string, index: int)
    requires forall i :: 0 <= i < |curves| ==> !HasKey(curves[i], path, index)
    ensures Without(curves, path, index) == curves
  {
    if curves != [] {
      WithoutNone(curves[1..], path, index);
    }
  }

  /** Looking up another key is not affected by taking a key out. */
  lemma {:induction false} LookupWithout(curves: seq<FCurve>, path: string, index: int, other: string, i: int)
    requires other != path
    ensures Lookup(Without(curves, path, index), other, i) == Lookup(curves, other, i)
  {
    if curves != [] {
      var rest := Without(curves[1..], path, index);
      LookupWithout(curves[1..], path, index, other, i);
      LookupCons(curves[0], curves[1..], other, i);
      if !HasKey(curves[0], path, index) {
        assert curves[0..1] + curves[1..] == curves;
        LookupCons(curves[0], rest, other, i);
      }
    }
  }

  /** Looking up a key in a collection is checking its first curve, then the rest. */
  lemma LookupCons(c: FCurve, rest: seq<FCurve>, path: string, index: int)
    ensures Lookup([c] + rest, path, index)
         == if HasKey(c, path, index) then Some(c) else Lookup(rest, path, index)
  {
    assert ([c] + rest)[1..] == rest;
  }

  /** Looking up a key is not affected by appending a curve for another key. */
  lemma {:induction false} LookupAppend(curves: seq<FCurve>, c: FCurve, other: string, i: int)
    requires c.dataPath != other
    ensures Lookup(curves + [c], other, i) == Lookup(curves, other, i)
  {
    if curves != [] {
      LookupAppend(curves[1..], c, other, i);
      assert (curves + [c])[1..] == curves[1..] + [c];
    }
  }

  /** The curves of an action, in the order the host lists them. */
  class Action {
    var fcurves: seq<FCurve>

    ghost predicate Valid()
      reads this
    {
      UniqueKeys(fcurves)
    }

    constructor (fcurves: seq<FCurve>)
      requires UniqueKeys(fcurves)
      ensures Valid() && this.fcurves == fcurves
    {
      this.fcurves := fcurves;
    }

    /** `action.fcurves.remove(fc)` for the curve at position `k`. */
    method Remove(k: nat)
      requires Valid() && k < |fcurves|
      modifies this
      ensures Valid()
      ensures fcurves == old(fcurves[..k] + fcurves[k + 1..])
    {
      fcurves := fcurves[..k] + fcurves[k + 1..];
      assert forall i :: 0 <= i < |fcurves| ==> fcurves[i] == old(fcurves)[if i < k then i else i + 1];
    }

    /**
     * `action.fcurves.new(path, index, group)`: appends an empty curve. The host
     * refuses a key that already has a curve, hence the precondition.
     */
    method New(path: string, index: int, group: string) returns (k: nat)
      requires Valid() && Find(fcurves, path, index).None?
      modifies this
      ensures Valid()
      ensures k == |old(fcurves)| && fcurves == old(fcurves) + [FCurve(path, index, group, [])]
    {
      k := |fcurves|;
      fcurves := fcurves + [FCurve(path, index, group, [])];
    }

    /** `fc.keyframe_points.insert(frame, value)` on the curve at position `k`. */
    method InsertKeyframe(k: nat, frame: int, value: real)
      requires Valid() && k < |fcurves|
      modifies this
      ensures Valid()
      ensures fcurves == old(fcurves[k := fcurves[k].(keyframes := InsertKey(fcurves[k].keyframes, Keyframe(frame, value)))])
    {
      fcurves := fcurves[k := fcurves[k].(keyframes := InsertKey(fcurves[k].keyframes, Keyframe(frame, value)))];
      assert forall i :: 0 <= i < |fcurves| ==> HasKey(fcurves[i], old(fcurves)[i].dataPath, old(fcurves)[i].index);
    }
  }
}
