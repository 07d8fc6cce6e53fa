/**
 * The operators and menus of the context-menu add-on (dga_ui_tweak_ctx_menus.py):
 * the Properties/Outliner toggle, the Pose/Rest toggle of the armatures above the
 * selection, the simplify toggle, the `poll` decisions of the pivot-point and
 * falloff menus, and the brush buttons of the sculpt menu.
 */
module CtxMenuOperators {
  import opened Wrappers

  // ---------------------------------------------------------------------------
  // Properties/Outliner toggle

  const OUTLINER: string := "OUTLINER"
  const PROPERTIES: string := "PROPERTIES"

  /** The editor type an area switches to: Outliner and Properties swap, any other type stays. */
  function ToggledAreaType(areaType: string): (t: string)
    ensures areaType == OUTLINER ==> t == PROPERTIES
    ensures areaType == PROPERTIES ==> t == OUTLINER
    ensures areaType != OUTLINER && areaType != PROPERTIES ==> t == areaType
  {
    if areaType == OUTLINER then PROPERTIES
    else if areaType == PROPERTIES then OUTLINER
    else areaType
  }

  /** Toggling twice gives the area back its type, and the toggle keeps an area in or out of the pair. */
  lemma ToggleInvolution(areaType: string)
    ensures ToggledAreaType(ToggledAreaType(areaType)) == areaType
    ensures (ToggledAreaType(areaType) in {OUTLINER, PROPERTIES}) <==> (areaType in {OUTLINER, PROPERTIES})
  {
  }

  /** The area the operator runs in. */
  class Area {
    var areaType: string

    constructor (areaType: string)
      ensures this.areaType == areaType
    {
      this.areaType := areaType;
    }
  }

  /** `PropertiesOutlinerTogglerOperator.execute`. */
  method ToggleProperties(area: Area)
    modifies area
    ensures area.areaType == ToggledAreaType(old(area.areaType))
  {
    if area.areaType == OUTLINER {
      area.areaType := PROPERTIES;
    } else if area.areaType == PROPERTIES {
      area.areaType := OUTLINER;
    }
  }

  // ---------------------------------------------------------------------------
  // Pose/Rest toggle of the armatures above the selection

  datatype PosePosition = Pose | Rest

  /** `'POSE' if pose_position == 'REST' else 'REST'`. */
  function Flipped(p: PosePosition): (q: PosePosition)
    ensures q != p
  {
    if p == Rest then Pose else Rest
  }

  /** The position after `n` flips. */
  function FlippedTimes(p: PosePosition, n: nat): (q: PosePosition)
    ensures n % 2 == 0 ==> q == p
    ensures n % 2 == 1 ==> q == Flipped(p)
  {
    if n == 0 then p else Flipped(FlippedTimes(p, n - 1))
  }

  /**
   * An object of the scene: whether it is an armature, its parent (by position in
   * the scene) and, for an armature, its armature data block (by position).
   */
  datatype SceneObject = SceneObject(isArmature: bool, parent: Option<nat>, data: nat)

  /**
   * The objects, and the pose position of each armature data block. Several armature
   * objects may share one data block.
   */
  class Scene {
    const objects: seq<SceneObject>
    var posePosition: seq<PosePosition>

    /** Every parent comes before its child, so parent chains end. */
    predicate ParentsFirst() {
      forall i :: 0 <= i < |objects| && objects[i].parent.Some? ==> objects[i].parent.value < i
    }

    ghost predicate Valid()
      reads this
    {
      && ParentsFirst()
      && forall i :: 0 <= i < |objects| && objects[i].isArmature ==> objects[i].data < |posePosition|
    }

    constructor (objects: seq<SceneObject>, posePosition: seq<PosePosition>)
      requires forall i :: 0 <= i < |objects| && objects[i].parent.Some? ==> objects[i].parent.value < i
      requires forall i :: 0 <= i < |objects| && objects[i].isArmature ==> objects[i].data < |posePosition|
      ensures Valid() && this.objects == objects && this.posePosition == posePosition
    {
      this.objects := objects;
      this.posePosition := posePosition;
    }

    /** The nearest armature among an object and its ancestors, if there is one. */
    function ArmatureOf(i: nat): (a: Option<nat>)
      requires ParentsFirst() && i < |objects|
      ensures a.Some? ==> a.value <= i && objects[a.value].isArmature
      ensures objects[i].isArmature ==> a == Some(i)
      decreases i
    {
      if objects[i].isArmature then Some(i)
      else match objects[i].parent
        case None => None
        case Some(p) => ArmatureOf(p)
    }

    /** `a` is `i` itself or reached from `i` by following parent links. */
    ghost predicate AncestorOrSelf(i: nat, a: nat)
      requires ParentsFirst() && i < |objects|
      decreases i
    {
      i == a || (objects[i].parent.Some? && AncestorOrSelf(objects[i].parent.value, a))
    }

    /** `a` is an armature on `i`'s parent chain, and no armature lies between them. */
    ghost predicate NearestArmatureAbove(i: nat, a: nat)
      requires ParentsFirst() && i < |objects|
    {
      && a < |objects| && AncestorOrSelf(i, a) && objects[a].isArmature
      && forall b :: a < b < |objects| && AncestorOrSelf(i, b) ==> !objects[b].isArmature
    }

    /** Parents come first, so an ancestor never has a larger position. */
    lemma {:induction false} AncestorBelow(i: nat, a: nat)
      requires ParentsFirst() && i < |objects| && AncestorOrSelf(i, a)
      ensures a <= i
      decreases i
    {
      if i != a {
        AncestorBelow(objects[i].parent.value, a);
      }
    }

    /**
     * `ArmatureOf` is the nearest armature on the object's parent chain, the object
     * itself included, and it is `None` exactly when that chain holds no armature.
     */
    lemma {:induction false} ArmatureOfNearest(i: nat)
      requires ParentsFirst() && i < |objects|
      ensures forall a: nat :: ArmatureOf(i) == Some(a) <==> NearestArmatureAbove(i, a)
      ensures ArmatureOf(i).None? <==>
        forall b :: 0 <= b < |objects| && AncestorOrSelf(i, b) ==> !objects[b].isArmature
      decreases i
    {
      if objects[i].isArmature {
        forall b | 0 <= b < |objects| && AncestorOrSelf(i, b) ensures b <= i {
          AncestorBelow(i, b);
        }
      } else if objects[i].parent.None? {
      } else {
        var p := objects[i].parent.value;
        ArmatureOfNearest(p);
        forall a: nat ensures NearestArmatureAbove(i, a) <==> NearestArmatureAbove(p, a) {
        }
      }
    }

    /** Every selected position names an object of the scene. */
    predicate InScene(selected: seq<nat>) {
      forall i :: 0 <= i < |selected| ==> selected[i] < |objects|
    }

    /** The armatures the selected objects resolve to, each once. */
    function Resolved(selected: seq<nat>): set<nat>
      requires ParentsFirst() && InScene(selected)
    {
      set i | 0 <= i < |selected| && ArmatureOf(selected[i]).Some? :: ArmatureOf(selected[i]).value
    }

    /** The resolved armatures whose data block is `d`. */
    function SharingData(armatures: set<nat>, d: nat): set<nat>
      requires forall a :: a in armatures ==> a < |objects|
    {
      set a | a in armatures && objects[a].data == d
    }

    /**
     * `ArmaturePositionTogglerOperator.execute`: each selected object climbs to its
     * nearest armature; each armature reached is toggled once, however many selected
     * objects lead to it. A data block shared by several armatures is flipped once
     * per armature.
     */
    method TogglePosePositions(selected: seq<nat>)
      requires Valid() && InScene(selected)
      modifies this
      ensures Valid() && |posePosition| == old(|posePosition|)
      ensures FlipsCounted(old(posePosition), posePosition, Resolved(selected))
    {
      var armatures: seq<nat> := [];
      ghost var seen: set<nat> := {};
      for s := 0 to |selected|
        invariant Valid() && |posePosition| == old(|posePosition|)
        invariant forall a :: a in armatures <==> a in seen
        invariant seen == Resolved(selected[..s])
        invariant FlipsCounted(old(posePosition), posePosition, seen)
      {
        var obj := NearestArmature(selected[s]);
        ResolvedStep(selected, s);
        if obj.Some? && obj.value !in armatures {
          var armature := obj.value;
          var d := objects[armature].data;
          FlipStep(old(posePosition), posePosition, seen, armature);
          posePosition := posePosition[d := Flipped(posePosition[d])];
          armatures := armatures + [armature];
          seen := seen + {armature};
        }
      }
      assert selected[..|selected|] == selected;
    }

    /** The parent-chain walk: from an object up to the first armature, or past the root. */
    method NearestArmature(i: nat) returns (obj: Option<nat>)
      requires ParentsFirst() && i < |objects|
      ensures obj == ArmatureOf(i)
    {
      obj := Some(i);
      while obj.Some? && !objects[obj.value].isArmature
        invariant obj.Some? ==> obj.value < |objects| && ArmatureOf(obj.value) == ArmatureOf(i)
        invariant obj.None? ==> ArmatureOf(i).None?
        decreases if obj.Some? then obj.value + 1 else 0
      {
        obj := objects[obj.value].parent;
      }
    }

    /**
     * Each data block has been flipped once for every armature in `seen` that uses it.
     */
    ghost predicate FlipsCounted(before: seq<PosePosition>, current: seq<PosePosition>, seen: set<nat>) {
      && |before| == |current|
      && (forall x :: x in seen ==> x < |objects|)
      && forall d :: 0 <= d < |current| ==> current[d] == FlippedTimes(before[d], |SharingData(seen, d)|)
    }

    /** Flipping the data of one more armature counts it among those sharing that data block. */
    lemma FlipStep(before: seq<PosePosition>, current: seq<PosePosition>, seen: set<nat>, a: nat)
      requires a < |objects| && a !in seen
      requires objects[a].data < |current|
      requires FlipsCounted(before, current, seen)
      ensures FlipsCounted(before, current[objects[a].data := Flipped(current[objects[a].data])], seen + {a})
    {
      forall d | 0 <= d < |current| ensures |SharingData(seen + {a}, d)| == |SharingData(seen, d)| + (if d == objects[a].data then 1 else 0) {
        if d == objects[a].data {
          assert SharingData(seen + {a}, d) == SharingData(seen, d) + {a};
        } else {
          assert SharingData(seen + {a}, d) == SharingData(seen, d);
        }
      }
    }

    /** Resolving one more selected object adds its armature, if any, to the resolved set. */
    lemma ResolvedStep(selected: seq<nat>, s: nat)
      requires ParentsFirst() && InScene(selected)
      requires s < |selected|
      ensures Resolved(selected[..s + 1]) ==
        Resolved(selected[..s]) + (if ArmatureOf(selected[s]).Some? then {ArmatureOf(selected[s]).value} else {})
    {
      assert selected[..s + 1] == selected[..s] + [selected[s]];
    }

    /**
     * When no two armature objects share a data block, every resolved armature's
     * data is flipped exactly once, and every other data block keeps its position.
     */
    lemma DistinctArmaturesFlipOnce(selected: seq<nat>, before: seq<PosePosition>, after: seq<PosePosition>)
      requires ParentsFirst() && InScene(selected)
      requires forall i :: 0 <= i < |objects| && objects[i].isArmature ==> objects[i].data < |after|
      requires forall i, j :: 0 <= i < j < |objects| && objects[i].isArmature && objects[j].isArmature ==>
        objects[i].data != objects[j].data
      requires FlipsCounted(before, after, Resolved(selected))
      ensures forall a :: a in Resolved(selected) ==> after[objects[a].data] == Flipped(before[objects[a].data])
      ensures forall d :: 0 <= d < |after| && (forall a :: a in Resolved(selected) ==> objects[a].data != d) ==>
        after[d] == before[d]
    {
      forall a | a in Resolved(selected) ensures after[objects[a].data] == Flipped(before[objects[a].data]) {
        var d := objects[a].data;
        assert SharingData(Resolved(selected), d) == {a};
      }
      forall d | 0 <= d < |after| && (forall a :: a in Resolved(selected) ==> objects[a].data != d)
        ensures after[d] == before[d]
      {
        assert SharingData(Resolved(selected), d) == {};
      }
    }
  }

  // ---------------------------------------------------------------------------
  // Simplify toggle

  class RenderSettings {
    var useSimplify: bool

    constructor (useSimplify: bool)
      ensures this.useSimplify == useSimplify
    {
      this.useSimplify := useSimplify;
    }
  }

  /** `SimplifySceneTogglerOperator.execute`: switches scene simplification the other way. */
  method ToggleSimplify(render: RenderSettings)
    modifies render
    ensures render.useSimplify == !old(render.useSimplify)
  {
    render.useSimplify := !render.useSimplify;
  }

  // ---------------------------------------------------------------------------
  // Menu polls

  /** The editor in the area: its type, whether a movie clip is loaded, and its mode. */
  datatype SpaceData = SpaceData(spaceType: string, hasClip: bool, mode: string)

  /** The tool settings the falloff menu reads. */
  datatype ToolSettings = ToolSettings(useProportionalEditMask: bool, useProportionalEditObjects: bool, proportionalEdit: string)

  datatype Context = Context(space: SpaceData, mode: string, tools: ToolSettings)

  /** `CtxPivotPointMenu.poll`. */
  predicate PivotPoll(ctx: Context) {
    ctx.space.spaceType != "CLIP_EDITOR" || ctx.space.hasClip
  }

  /**
   * The pivot poll reads only the editor type and, in a clip editor, whether a clip
   * is loaded: the modes and tool settings never change the answer, and outside the
   * clip editor the menu is offered whatever the clip.
   */
  lemma PivotPollInputs(ctx: Context, other: Context)
    ensures ctx.space.spaceType == other.space.spaceType && ctx.space.hasClip == other.space.hasClip ==>
      PivotPoll(ctx) == PivotPoll(other)
    ensures ctx.space.spaceType != "CLIP_EDITOR" ==> PivotPoll(ctx)
  {
  }

  /** `ProportionalEditingFalloffMenu.poll`: the clip editor first, then object mode, then any other mode. */
  predicate FalloffPoll(ctx: Context) {
    if ctx.space.spaceType == "CLIP_EDITOR" then
      ctx.space.mode == "MASK" && ctx.tools.useProportionalEditMask
    else if ctx.mode == "OBJECT" then
      ctx.tools.useProportionalEditObjects
    else
      ctx.tools.proportionalEdit != "DISABLED"
  }

  /**
   * What the falloff poll reads in each case: in a clip editor only the editor's
   * mode and the mask setting (not the context mode nor the other settings); in
   * object mode elsewhere only the object setting; in any other mode only the
   * proportional-editing setting.
   */
  lemma FalloffPollInputs(ctx: Context, other: Context)
    ensures ctx.space.spaceType == "CLIP_EDITOR" && other.space.spaceType == "CLIP_EDITOR"
      && ctx.space.mode == other.space.mode
      && ctx.tools.useProportionalEditMask == other.tools.useProportionalEditMask
      ==> FalloffPoll(ctx) == FalloffPoll(other)
    ensures ctx.space.spaceType != "CLIP_EDITOR" && other.space.spaceType != "CLIP_EDITOR"
      && ctx.mode == "OBJECT" && other.mode == "OBJECT"
      && ctx.tools.useProportionalEditObjects == other.tools.useProportionalEditObjects
      ==> FalloffPoll(ctx) == FalloffPoll(other)
    ensures ctx.space.spaceType != "CLIP_EDITOR" && other.space.spaceType != "CLIP_EDITOR"
      && ctx.mode != "OBJECT" && other.mode != "OBJECT"
      && ctx.tools.proportionalEdit == other.tools.proportionalEdit
      ==> FalloffPoll(ctx) == FalloffPoll(other)
  {
  }

  /**
   * The two polls disagree in a clip editor without a clip: the pivot menu is
   * refused there, while the falloff menu is offered in mask mode with mask
   * proportional editing on.
   */
  lemma PollsDisagreeWithoutClip(ctx: Context)
    requires ctx.space.spaceType == "CLIP_EDITOR" && !ctx.space.hasClip
    requires ctx.space.mode == "MASK" && ctx.tools.useProportionalEditMask
    ensures !PivotPoll(ctx) && FalloffPoll(ctx)
  {
  }

  // ---------------------------------------------------------------------------
  // Sculpt brush menu

  datatype Brush = Brush(name: string, usePaintSculpt: bool)

  /** A `brush.active_index_set` button: its text, the index it sets and the paint mode. */
  datatype Button = Button(text: string, index: nat, mode: string)

  /** The menu's rows per column. */
  const ROWS: nat := 8

  /** The brushes usable in sculpt mode, in their order. */
  function SculptBrushes(brushes: seq<Brush>): (r: seq<Brush>)
    ensures |r| <= |brushes|
    ensures forall b :: b in r <==> b in brushes && b.usePaintSculpt
  {
    if brushes == [] then []
    else if brushes[0].usePaintSculpt then [brushes[0]] + SculptBrushes(brushes[1..])
    else SculptBrushes(brushes[1..])
  }

  /** `divmod(n, 8)`, plus one column for a remainder. */
  function ColumnCount(n: nat): (columns: nat)
    ensures ROWS * columns >= n
    ensures columns > 0 ==> ROWS * (columns - 1) < n
  {
    var q := n / ROWS;
    if n % ROWS > 0 then q + 1 else q
  }

  /** The column count is the least number of 8-row columns that holds every brush. */
  lemma ColumnCountLeast(n: nat, c: nat)
    requires ROWS * c >= n
    ensures ColumnCount(n) <= c
    ensures ColumnCount(n) == 0 <==> n == 0
  {
  }

  /**
   * `SculptBrushMenu.draw`: the sculpt brushes are laid out over `ColumnCount`
   * columns, one button per brush, the i-th setting index i in sculpt mode.
   */
  method DrawSculptMenu(brushes: seq<Brush>) returns (columns: nat, buttons: seq<Button>)
    ensures columns == ColumnCount(|SculptBrushes(brushes)|)
    ensures |buttons| == |SculptBrushes(brushes)|
    ensures forall i :: 0 <= i < |buttons| ==> buttons[i] == Button(SculptBrushes(brushes)[i].name, i, "sculpt")
  {
    var sculptBrushes := SculptBrushes(brushes);
    var remainder;
    columns, remainder := |sculptBrushes| / ROWS, |sculptBrushes| % ROWS;
    if remainder > 0 {
      columns := columns + 1;
    }
    buttons := [];
    for i := 0 to |sculptBrushes|
      invariant |buttons| == i
      invariant forall j :: 0 <= j < i ==> buttons[j] == Button(sculptBrushes[j].name, j, "sculpt")
    {
      buttons := buttons + [Button(sculptBrushes[i].name, i, "sculpt")];
    }
  }

  /** Every sculpt brush gets a button, and the columns hold all of them. */
  lemma SculptMenuComplete(brushes: seq<Brush>, b: Brush)
    requires b in brushes && b.usePaintSculpt
    ensures exists i :: 0 <= i < |SculptBrushes(brushes)| && SculptBrushes(brushes)[i] == b
    ensures |SculptBrushes(brushes)| <= ROWS * ColumnCount(|SculptBrushes(brushes)|)
  {
    assert b in SculptBrushes(brushes);
  }
}
