/**
 * Keymap bookkeeping of the context-menu add-on (dga_ui_tweak_ctx_menus.py):
 * `KeymapsAddon` translates a short keymap key into the host's (name, space type),
 * finds or creates that keymap in the add-on key configuration, creates the item and
 * records the pair; `register` runs each class's `create_keymaps`, and `unregister`
 * removes every recorded item again.
 */
module CtxMenuKeymaps {
  import opened Wrappers
  import opened Keymaps

  /** `keymaps_name`: the short keys the operators and menus use, and the host keymap each stands for. */
  const KEYMAPS_NAME: map<string, (string, string)> := map[
    "PROPERTIES" := ("Property Editor", "PROPERTIES"),
    "OUTLINER" := ("Outliner", "OUTLINER"),
    "VIEW_3D" := ("3D View", "VIEW_3D"),
    "IMAGE_EDITOR" := ("Image", "IMAGE_EDITOR"),
    "GRAPH_EDITOR" := ("Graph Editor", "GRAPH_EDITOR"),
    "CLIP_EDITOR" := ("Clip Editor", "CLIP_EDITOR"),
    "MESH" := ("Mesh", "EMPTY"),
    "GREASE_PENCIL_STROKE_EDIT_MODE" := ("Grease Pencil Stroke Edit Mode", "EMPTY"),
    "METABALL" := ("Metaball", "EMPTY"),
    "LATTICE" := ("Lattice", "EMPTY"),
    "PARTICLE" := ("Particle", "EMPTY"),
    "UV_EDITOR" := ("UV Editor", "EMPTY"),
    "OBJECT_MODE" := ("Object Mode", "EMPTY"),
    "MASK_EDITING" := ("Mask Editing", "EMPTY"),
    "SCULPT" := ("Sculpt", "EMPTY")]

  /** Looking up a key missing from `keymaps_name` raises `KeyError`. */
  datatype NewError = KeyError(key: string)

  /** One `KeymapsAddon.new` call of a `create_keymaps`: the short keymap key and the item. */
  datatype Call = Call(keymapName: string, spec: ItemSpec)

  /** Every binding names a key of `keymaps_name`. */
  predicate Known(calls: seq<Call>) {
    forall c :: c in calls ==> c.keymapName in KEYMAPS_NAME
  }

  /** The keymap a call's short key stands for, with the call's item. */
  function Resolve(c: Call): Binding
    requires c.keymapName in KEYMAPS_NAME
  {
    var km := KEYMAPS_NAME[c.keymapName];
    Binding(km.0, km.1, false, c.spec)
  }

  function ResolveAll(calls: seq<Call>): (bindings: seq<Binding>)
    requires Known(calls)
    ensures |bindings| == |calls|
  {
    seq(|calls|, i requires 0 <= i < |calls| => Resolve(calls[i]))
  }

  /** Resolving a list of calls one call longer adds that call's binding at the end. */
  lemma ResolveAllSnoc(calls: seq<Call>, c: Call)
    requires Known(calls) && c.keymapName in KEYMAPS_NAME
    ensures Known(calls + [c])
    ensures ResolveAll(calls + [c]) == ResolveAll(calls) + [Resolve(c)]
  {
  }

  lemma ResolveAllConcat(a: seq<Call>, b: seq<Call>)
    requires Known(a) && Known(b)
    ensures Known(a + b)
    ensures ResolveAll(a + b) == ResolveAll(a) + ResolveAll(b)
  {
  }

  /** The class-level state of `KeymapsAddon`: the add-on key configuration, if any, and the recorded pairs. */
  class KeymapsAddon {
    const keyconfig: KeyConfig?
    var createdKeymaps: seq<Recorded>

    ghost predicate Valid()
      reads this, keyconfig
    {
      if keyconfig == null then createdKeymaps == [] else RecordsValid(keyconfig, createdKeymaps)
    }

    constructor (keyconfig: KeyConfig?)
      requires keyconfig != null ==> keyconfig.Valid()
      ensures Valid() && this.keyconfig == keyconfig && createdKeymaps == []
    {
      this.keyconfig := keyconfig;
      createdKeymaps := [];
    }

    /** `is_available()`: an add-on key configuration exists. */
    predicate IsAvailable() {
      keyconfig != null
    }

    /** The key configuration with the records, as a registry. */
    function State(): Registry
      requires IsAvailable()
      reads this, keyconfig
    {
      Registry(keyconfig.keymaps, keyconfig.nextId, createdKeymaps)
    }

    /**
     * `new(keymap_name, ...)`: an unknown key fails before anything else, even with
     * no key configuration; with none, nothing happens; otherwise the binding is
     * added and the new item returned.
     */
    method New(keymapName: string, spec: ItemSpec) returns (r: Result<Option<Recorded>, NewError>)
      requires Valid()
      modifies this, keyconfig
      ensures Valid()
      ensures keymapName !in KEYMAPS_NAME ==>
        && r == Failure(KeyError(keymapName))
        && createdKeymaps == old(createdKeymaps)
        && (IsAvailable() ==> State() == old(State()))
      ensures keymapName in KEYMAPS_NAME && !IsAvailable() ==>
        r == Success(None) && createdKeymaps == old(createdKeymaps)
      ensures keymapName in KEYMAPS_NAME && IsAvailable() ==>
        var km := KEYMAPS_NAME[keymapName];
        && State() == AddBinding(old(State()), km.0, km.1, false, spec)
        && r == Success(Some(createdKeymaps[|createdKeymaps| - 1]))
    {
      if keymapName !in KEYMAPS_NAME {
        return Failure(KeyError(keymapName));
      }
      var km := KEYMAPS_NAME[keymapName];
      if keyconfig == null {
        return Success(None);
      }
      ghost var before := State();
      var found := FindKeymap(keyconfig.keymaps, km.0, km.1);
      var k: nat;
      if found.Some? {
        k := found.value;
      } else {
        k := keyconfig.NewKeymap(km.0, km.1, false);
      }
      ghost var mid := keyconfig.keymaps;
      var id := keyconfig.NewItem(k, spec);
      if found.None? {
        assert mid == before.keymaps + [Keymap(km.0, km.1, false, [])] && k == |before.keymaps|;
        assert mid[k].items + [KeymapItem(id, spec)] == [KeymapItem(id, spec)];
        assert keyconfig.keymaps == mid[k := Keymap(km.0, km.1, false, [KeymapItem(id, spec)])];
        assert keyconfig.keymaps == before.keymaps + [Keymap(km.0, km.1, false, [KeymapItem(id, spec)])];
      }
      var recorded := Recorded(k, id);
      createdKeymaps := createdKeymaps + [recorded];
      assert State() == AddBinding(before, km.0, km.1, false, spec);
      AddBindingValid(before, km.0, km.1, false, spec);
      return Success(Some(recorded));
    }

    /**
     * `KeymapsAddon.unregister()`: every recorded item is removed from its keymap and
     * the records are cleared, so a second call removes nothing.
     */
    method Unregister()
      requires Valid()
      modifies this, keyconfig
      ensures Valid() && createdKeymaps == []
      ensures IsAvailable() ==>
        && |keyconfig.keymaps| == old(|keyconfig.keymaps|) && keyconfig.nextId == old(keyconfig.nextId)
        && (forall k :: 0 <= k < |keyconfig.keymaps| ==>
          keyconfig.keymaps[k] == old(keyconfig.keymaps[k]).(items := WithoutIds(old(keyconfig.keymaps[k].items), RecordedIn(old(createdKeymaps), k))))
        && (forall r :: r in old(createdKeymaps) ==> r.item !in ItemIds(keyconfig.keymaps[r.keymap].items))
    {
      if keyconfig != null {
        ghost var records := createdKeymaps;
        RemoveRecorded(keyconfig, createdKeymaps);
        forall r | r in records ensures r.item !in ItemIds(keyconfig.keymaps[r.keymap].items) {
          assert r.item in RecordedIn(records, r.keymap);
        }
      }
      createdKeymaps := [];
    }
  }

  /** The add-on's classes, in `CLASSES` order. */
  datatype AddonClass =
    | PropertiesOutlinerToggler
    | ArmaturePositionToggler
    | SimplifySceneToggler
    | PivotPointMenu
    | ProportionalEditingMenu
    | ProportionalEditingFalloffMenu
    | SculptBrushMenu

  const CLASSES: seq<AddonClass> := [
    PropertiesOutlinerToggler, ArmaturePositionToggler, SimplifySceneToggler,
    PivotPointMenu, ProportionalEditingMenu, ProportionalEditingFalloffMenu, SculptBrushMenu]

  /** A `wm.call_menu` item opening the named menu. */
  function CallMenu(key: string, shift: bool, menu: string): ItemSpec {
    ItemSpec("wm.call_menu", key, Press, shift, false, Some(menu))
  }

  /** The calls each class's `create_keymaps` makes, in order. */
  function Calls(c: AddonClass): seq<Call> {
    match c
    case PropertiesOutlinerToggler =>
      var toggle := ItemSpec("outliner.toggle_properties", "TAB", Press, false, false, None);
      [Call("PROPERTIES", toggle), Call("OUTLINER", toggle)]
    case ArmaturePositionToggler => []
    case SimplifySceneToggler => []
    case PivotPointMenu =>
      var item := CallMenu("COMMA", false, "ANY_MT_pivot_point_ctx_menu");
      [Call("VIEW_3D", item), Call("IMAGE_EDITOR", item), Call("GRAPH_EDITOR", item),
       Call("CLIP_EDITOR", item)]
    case ProportionalEditingMenu =>
      var item := CallMenu("O", false, "ANY_MT_proportional_editing_ctx_menu");
      [Call("MESH", item), Call("GREASE_PENCIL_STROKE_EDIT_MODE", item), Call("METABALL", item),
       Call("LATTICE", item), Call("PARTICLE", item), Call("UV_EDITOR", item)]
    case ProportionalEditingFalloffMenu =>
      var item := CallMenu("O", true, "CTXMENU_MT_proportional_editing_falloff_ctx_menu");
      [Call("OBJECT_MODE", item), Call("MESH", item), Call("GREASE_PENCIL_STROKE_EDIT_MODE", item),
       Call("METABALL", item), Call("LATTICE", item), Call("PARTICLE", item),
       Call("UV_EDITOR", item), Call("MASK_EDITING", item)]
    case SculptBrushMenu =>
      [Call("SCULPT", CallMenu("W", false, "CTXMENU_MT_sculpt_brush_ctx_menu"))]
  }

  /** The menus check `is_available()` themselves before calling `new`; the Properties/Outliner toggler does not. */
  predicate ChecksAvailability(c: AddonClass) {
    c in {PivotPointMenu, ProportionalEditingMenu, ProportionalEditingFalloffMenu, SculptBrushMenu}
  }

  /** Every binding of the classes, in registration order. */
  function AllCalls(classes: seq<AddonClass>): seq<Call> {
    if classes == [] then [] else AllCalls(classes[..|classes| - 1]) + Calls(classes[|classes| - 1])
  }

  /**
   * The classes create 2 items for the toggler, 4 for the pivot menu, 6 for the
   * proportional menu, 8 for the falloff menu and 1 for the sculpt menu.
   */
  lemma ClassCallCounts()
    ensures |Calls(PropertiesOutlinerToggler)| == 2 && |Calls(ArmaturePositionToggler)| == 0
    ensures |Calls(SimplifySceneToggler)| == 0 && |Calls(PivotPointMenu)| == 4
    ensures |Calls(ProportionalEditingMenu)| == 6 && |Calls(ProportionalEditingFalloffMenu)| == 8
    ensures |Calls(SculptBrushMenu)| == 1
  {
  }

  /** Every key a class passes to `new` is in `keymaps_name`. */
  lemma CallsKnown(c: AddonClass)
    ensures Known(Calls(c))
  {
  }

  /** Every key the classes pass to `new` is in `keymaps_name`, so registration never raises. */
  lemma {:induction false} AllCallsKnown(classes: seq<AddonClass>)
    ensures Known(AllCalls(classes))
  {
    if classes != [] {
      var n := |classes| - 1;
      AllCallsKnown(classes[..n]);
      CallsKnown(classes[n]);
      var bs := Calls(classes[n]);
      forall b | b in AllCalls(classes) ensures b.keymapName in KEYMAPS_NAME {
        if b !in AllCalls(classes[..n]) {
          assert b in bs;
        }
      }
    }
  }

  /** The bindings of the first i + 1 classes are those of the first i, then those of class i. */
  lemma AllCallsSnoc(classes: seq<AddonClass>, i: nat)
    requires i < |classes|
    ensures AllCalls(classes[..i + 1]) == AllCalls(classes[..i]) + Calls(classes[i])
  {
    assert classes[..i + 1][..i] == classes[..i];
  }

  /** The number of `new` calls the classes make, class by class. */
  function CallsTotal(classes: seq<AddonClass>): nat {
    if classes == [] then 0 else CallsTotal(classes[..|classes| - 1]) + |Calls(classes[|classes| - 1])|
  }

  /** Registration makes as many calls as the classes' tables hold together. */
  lemma {:induction false} AllCallsLength(classes: seq<AddonClass>)
    ensures |AllCalls(classes)| == CallsTotal(classes)
  {
    if classes != [] {
      AllCallsLength(classes[..|classes| - 1]);
    }
  }

  /** Registration creates 21 items in all. */
  lemma RegisteredCallCount()
    ensures |AllCalls(CLASSES)| == 21
  {
    var cs := CLASSES;
    AllCallsLength(cs);
    ClassCallCounts();
    assert cs[..0] == [];
    CallsTotalSnoc(cs, 0);
    CallsTotalSnoc(cs, 1);
    CallsTotalSnoc(cs, 2);
    CallsTotalSnoc(cs, 3);
    CallsTotalSnoc(cs, 4);
    CallsTotalSnoc(cs, 5);
    CallsTotalSnoc(cs, 6);
    assert cs[..7] == cs;
  }

  /** The calls of the first i + 1 classes are those of the first i and those of class i. */
  lemma CallsTotalSnoc(classes: seq<AddonClass>, i: nat)
    requires i < |classes|
    ensures CallsTotal(classes[..i + 1]) == CallsTotal(classes[..i]) + |Calls(classes[i])|
  {
    assert classes[..i + 1][..i] == classes[..i];
  }

  /** The `KeymapsAddon.new` calls of one `create_keymaps`, made in order. */
  method NewAll(addon: KeymapsAddon, calls: seq<Call>)
    requires addon.Valid() && Known(calls)
    modifies addon, addon.keyconfig
    ensures addon.Valid()
    ensures !addon.IsAvailable() ==> addon.createdKeymaps == old(addon.createdKeymaps)
    ensures addon.IsAvailable() ==> addon.State() == AddAll(old(addon.State()), ResolveAll(calls))
  {
    for i := 0 to |calls|
      invariant addon.Valid()
      invariant !addon.IsAvailable() ==> addon.createdKeymaps == old(addon.createdKeymaps)
      invariant addon.IsAvailable() ==> addon.State() == AddAll(old(addon.State()), ResolveAll(calls[..i]))
    {
      var _ := addon.New(calls[i].keymapName, calls[i].spec);
      assert calls[..i + 1] == calls[..i] + [calls[i]];
      ResolveAllSnoc(calls[..i], calls[i]);
      assert (ResolveAll(calls[..i]) + [Resolve(calls[i])])[..i] == ResolveAll(calls[..i]);
    }
    assert calls[..|calls|] == calls;
  }

  /**
   * `cls.create_keymaps()`: the class's bindings are added through
   * `KeymapsAddon.new`; the menus skip this when no key configuration exists.
   */
  method CreateKeymaps(addon: KeymapsAddon, c: AddonClass)
    requires addon.Valid()
    modifies addon, addon.keyconfig
    ensures addon.Valid()
    ensures !addon.IsAvailable() ==> addon.createdKeymaps == old(addon.createdKeymaps)
    ensures addon.IsAvailable() ==> Known(Calls(c)) && addon.State() == AddAll(old(addon.State()), ResolveAll(Calls(c)))
  {
    CallsKnown(c);
    if ChecksAvailability(c) && !addon.IsAvailable() {
      return;
    }
    NewAll(addon, Calls(c));
  }

  /**
   * `register()`: each class in `CLASSES` creates its keymaps. With a key
   * configuration the add-on ends up with the 21 bindings added in order; without,
   * nothing is recorded.
   */
  method Register(addon: KeymapsAddon)
    requires addon.Valid()
    modifies addon, addon.keyconfig
    ensures addon.Valid()
    ensures !addon.IsAvailable() ==> addon.createdKeymaps == old(addon.createdKeymaps)
    ensures addon.IsAvailable() ==>
      Known(AllCalls(CLASSES)) && addon.State() == AddAll(old(addon.State()), ResolveAll(AllCalls(CLASSES)))
    ensures addon.IsAvailable() ==> |addon.createdKeymaps| == |old(addon.createdKeymaps)| + 21
  {
    for i := 0 to |CLASSES|
      invariant addon.Valid()
      invariant !addon.IsAvailable() ==> addon.createdKeymaps == old(addon.createdKeymaps)
      invariant addon.IsAvailable() ==>
        Known(AllCalls(CLASSES[..i])) && addon.State() == AddAll(old(addon.State()), ResolveAll(AllCalls(CLASSES[..i])))
    {
      CreateKeymaps(addon, CLASSES[i]);
      if addon.IsAvailable() {
        AllCallsSnoc(CLASSES, i);
        ResolveAllConcat(AllCalls(CLASSES[..i]), Calls(CLASSES[i]));
        AddAllConcat(old(addon.State()), ResolveAll(AllCalls(CLASSES[..i])), ResolveAll(Calls(CLASSES[i])));
      }
    }
    assert CLASSES[..|CLASSES|] == CLASSES;
    if addon.IsAvailable() {
      RegisteredCallCount();
      AddAllCounts(old(addon.State()), ResolveAll(AllCalls(CLASSES)));
    }
  }
}
