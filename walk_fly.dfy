/**
 * The walk/fly add-on for AZERTY keyboards (dga_walk_fly_mode_azerty.py): `register`
 * finds or creates the Fly and Walk modal keymaps and adds ZQSD-style bindings to
 * them, recording each (keymap, item) pair in the module-level `keymaps` list;
 * `unregister` removes every recorded item and clears the list.
 */
module WalkFlyKeymaps {
  import opened Wrappers
  import opened Keymaps

  const FLY_MODAL: string := "View3D Fly Modal"
  const WALK_MODAL: string := "View3D Walk Modal"
  const EMPTY_SPACE: string := "EMPTY"

  /** `new_modal(action, key, event, any=...)`. */
  function Modal(action: string, key: string, value: EventValue, any: bool): ItemSpec {
    ItemSpec(action, key, value, false, any, None)
  }

  /** The Fly modal bindings, in the order `register` creates them. */
  const FLY_BINDINGS: seq<ItemSpec> := [
    Modal("FORWARD", "Z", Press, false),
    Modal("BACKWARD", "S", Press, false),
    Modal("LEFT", "Q", Press, false),
    Modal("RIGHT", "D", Press, false),
    Modal("UP", "E", Press, false),
    Modal("DOWN", "A", Press, false),
    Modal("UP", "R", Press, false),
    Modal("DOWN", "F", Press, false),
    Modal("AXIS_LOCK_X", "X", Press, false),
    Modal("AXIS_LOCK_Z", "W", Press, false)]

  /** The Walk modal bindings, in the order `register` creates them. */
  const WALK_BINDINGS: seq<ItemSpec> := [
    Modal("FORWARD", "Z", Press, true),
    Modal("BACKWARD", "S", Press, true),
    Modal("LEFT", "Q", Press, true),
    Modal("RIGHT", "D", Press, true),
    Modal("UP", "E", Press, true),
    Modal("DOWN", "A", Press, true),
    Modal("FORWARD_STOP", "Z", Release, true),
    Modal("BACKWARD_STOP", "S", Release, true),
    Modal("LEFT_STOP", "Q", Release, true),
    Modal("RIGHT_STOP", "D", Release, true),
    Modal("UP_STOP", "E", Release, true),
    Modal("DOWN_STOP", "A", Release, true)]

  /** The bindings `new_modal` adds for `specs` to the modal keymap `name` of the empty space. */
  function ModalBindings(name: string, specs: seq<ItemSpec>): (bindings: seq<Binding>)
    ensures |bindings| == |specs|
    ensures forall i :: 0 <= i < |specs| ==> bindings[i] == Binding(name, EMPTY_SPACE, true, specs[i])
  {
    seq(|specs|, i requires 0 <= i < |specs| => Binding(name, EMPTY_SPACE, true, specs[i]))
  }

  /** Adding the bindings for one more spec is one more `AddBinding`. */
  lemma ModalStep(s: Registry, name: string, specs: seq<ItemSpec>, i: nat)
    requires i < |specs|
    ensures AddAll(s, ModalBindings(name, specs[..i + 1]))
         == AddBinding(AddAll(s, ModalBindings(name, specs[..i])), name, EMPTY_SPACE, true, specs[i])
  {
    assert ModalBindings(name, specs[..i + 1])[..i] == ModalBindings(name, specs[..i]);
  }

  /** Every binding `register` adds: the Fly bindings, then the Walk bindings. */
  function RegisterBindings(): seq<Binding> {
    ModalBindings(FLY_MODAL, FLY_BINDINGS) + ModalBindings(WALK_MODAL, WALK_BINDINGS)
  }

  /** Record `n` of `t` names item `id`, which holds `spec` in the keymap `name` of the empty space. */
  ghost predicate RecordedBinding(t: Registry, n: nat, id: nat, name: string, spec: ItemSpec) {
    && n < |t.records|
    && t.records[n].item == id
    && t.records[n].keymap < |t.keymaps|
    && t.keymaps[t.records[n].keymap].name == name
    && t.keymaps[t.records[n].keymap].spaceType == EMPTY_SPACE
    && KeymapItem(id, spec) in t.keymaps[t.records[n].keymap].items
  }

  /** The add-on's module-level state: the add-on key configuration, if any, and the `keymaps` list. */
  class WalkFlyAddon {
    const keyconfig: KeyConfig?
    var keymaps: seq<Recorded>

    ghost predicate Valid()
      reads this, keyconfig
    {
      if keyconfig == null then keymaps == [] else RecordsValid(keyconfig, keymaps)
    }

    constructor (keyconfig: KeyConfig?)
      requires keyconfig != null ==> keyconfig.Valid()
      ensures Valid() && this.keyconfig == keyconfig && keymaps == []
    {
      this.keyconfig := keyconfig;
      keymaps := [];
    }

    function State(): Registry
      requires keyconfig != null
      reads this, keyconfig
    {
      Registry(keyconfig.keymaps, keyconfig.nextId, keymaps)
    }

    /**
     * One modal keymap of `register`: `keymaps.new(name, space_type='EMPTY', modal=True)`
     * once, then `new_modal` for each spec on the keymap it returned, each pair recorded.
     */
    method AddModal(name: string, specs: seq<ItemSpec>)
      requires Valid() && keyconfig != null && |specs| > 0
      modifies this, keyconfig
      ensures Valid()
      ensures State() == AddAll(old(State()), ModalBindings(name, specs))
    {
      ghost var before := State();
      var km := keyconfig.NewKeymap(name, EMPTY_SPACE, true);
      ghost var created := keyconfig.keymaps;
      for i := 0 to |specs|
        invariant keyconfig.Valid() && km < |keyconfig.keymaps|
        invariant i == 0 ==> keyconfig.keymaps == created && keyconfig.nextId == before.nextId && keymaps == before.records
        invariant i > 0 ==>
          State() == AddAll(before, ModalBindings(name, specs[..i]))
          && FindKeymap(State().keymaps, name, EMPTY_SPACE) == Some(km)
      {
        ghost var prev := if i == 0 then before else State();
        ghost var current := keyconfig.keymaps;
        var id := keyconfig.NewItem(km, specs[i]);
        keymaps := keymaps + [Recorded(km, id)];
        AppendIsBinding(prev, current, km, name, EMPTY_SPACE, true, specs[i]);
        AddBindingProperties(prev, name, EMPTY_SPACE, true, specs[i]);
        ModalStep(before, name, specs, i);
      }
      assert specs[..|specs|] == specs;
      AddAllValid(before, ModalBindings(name, specs));
    }

    /**
     * `register()`: with an add-on key configuration, the ten Fly bindings and then
     * the twelve Walk bindings; without one, nothing.
     */
    method Register()
      requires Valid()
      modifies this, keyconfig
      ensures Valid()
      ensures keyconfig == null ==> keymaps == old(keymaps)
      ensures keyconfig != null ==> State() == AddAll(old(State()), RegisterBindings())
    {
      if keyconfig != null {
        ghost var before := State();
        AddModal(FLY_MODAL, FLY_BINDINGS);
        AddModal(WALK_MODAL, WALK_BINDINGS);
        AddAllConcat(before, ModalBindings(FLY_MODAL, FLY_BINDINGS), ModalBindings(WALK_MODAL, WALK_BINDINGS));
      }
    }

    /** `unregister()`: every recorded item is removed from its keymap, then the list is cleared. */
    method Unregister()
      requires Valid()
      modifies this, keyconfig
      ensures Valid() && keymaps == []
      ensures keyconfig != null ==>
        && |keyconfig.keymaps| == old(|keyconfig.keymaps|) && keyconfig.nextId == old(keyconfig.nextId)
        && (forall k :: 0 <= k < |keyconfig.keymaps| ==>
          keyconfig.keymaps[k] == old(keyconfig.keymaps[k]).(items := WithoutIds(old(keyconfig.keymaps[k].items), RecordedIn(old(keymaps), k))))
        && (forall r :: r in old(keymaps) ==> r.item !in ItemIds(keyconfig.keymaps[r.keymap].items))
    {
      if keyconfig != null {
        ghost var records := keymaps;
        RemoveRecorded(keyconfig, keymaps);
        forall r | r in records ensures r.item !in ItemIds(keyconfig.keymaps[r.keymap].items) {
          assert r.item in RecordedIn(records, r.keymap);
        }
      }
      keymaps := [];
    }
  }

  /**
   * Adding the bindings of two modal keymaps records one pair per spec after the
   * old ones, on fresh items in order: first in keymap `name1`, each holding its spec
   * of `specs1`, then in keymap `name2`, each holding its spec of `specs2`.
   */
  lemma TwoModalRecords(s: Registry, name1: string, specs1: seq<ItemSpec>, name2: string, specs2: seq<ItemSpec>)
    ensures var t := AddAll(s, ModalBindings(name1, specs1) + ModalBindings(name2, specs2));
      && |t.records| == |s.records| + |specs1| + |specs2|
      && t.records[..|s.records|] == s.records
      && t.nextId == s.nextId + |specs1| + |specs2|
      && (forall i :: 0 <= i < |specs1| ==> RecordedBinding(t, |s.records| + i, s.nextId + i, name1, specs1[i]))
      && (forall i :: 0 <= i < |specs2| ==>
        RecordedBinding(t, |s.records| + |specs1| + i, s.nextId + |specs1| + i, name2, specs2[i]))
  {
    var bs := ModalBindings(name1, specs1) + ModalBindings(name2, specs2);
    var t := AddAll(s, bs);
    AddAllCounts(s, bs);
    forall i | 0 <= i < |specs1|
      ensures RecordedBinding(t, |s.records| + i, s.nextId + i, name1, specs1[i])
    {
      BindingRecorded(s, bs, i, name1, specs1[i]);
    }
    forall i | 0 <= i < |specs2|
      ensures RecordedBinding(t, |s.records| + |specs1| + i, s.nextId + |specs1| + i, name2, specs2[i])
    {
      assert bs[|specs1| + i] == ModalBindings(name2, specs2)[i];
      BindingRecorded(s, bs, |specs1| + i, name2, specs2[i]);
    }
  }

  /** The record of the `i`-th modal binding names its item in a keymap of that name. */
  lemma BindingRecorded(s: Registry, bs: seq<Binding>, i: nat, name: string, spec: ItemSpec)
    requires i < |bs| && bs[i] == Binding(name, EMPTY_SPACE, true, spec)
    ensures RecordedBinding(AddAll(s, bs), |s.records| + i, s.nextId + i, name, spec)
  {
    AddAllRecordAt(s, bs, i);
  }

  /**
   * Registration records 22 pairs after the old ones, on fresh items: ten in the
   * Fly modal keymap of the empty space, each holding its Fly binding, then twelve in
   * the Walk modal keymap, each holding its Walk binding.
   */
  lemma RegisterRecords(s: Registry)
    ensures var t := AddAll(s, RegisterBindings());
      && |t.records| == |s.records| + 22
      && t.records[..|s.records|] == s.records
      && (forall i :: 0 <= i < 10 ==> RecordedBinding(t, |s.records| + i, s.nextId + i, FLY_MODAL, FLY_BINDINGS[i]))
      && (forall i :: 0 <= i < 12 ==> RecordedBinding(t, |s.records| + 10 + i, s.nextId + 10 + i, WALK_MODAL, WALK_BINDINGS[i]))
  {
    var fly, walk := FLY_BINDINGS, WALK_BINDINGS;
    assert |fly| == 10 && |walk| == 12;
    TwoModalRecords(s, FLY_MODAL, fly, WALK_MODAL, walk);
  }

  // ---------------------------------------------------------------------------
  // The binding tables

  /** The keys a modal action is bound to, with the event. */
  function KeysFor(table: seq<ItemSpec>, action: string, value: EventValue): set<string> {
    set i | 0 <= i < |table| && table[i].action == action && table[i].value == value :: table[i].key
  }

  /** Fly mode moves with Z/S/Q/D, goes up with E or R and down with A or F. */
  lemma FlyDirections()
    ensures KeysFor(FLY_BINDINGS, "FORWARD", Press) == {"Z"}
    ensures KeysFor(FLY_BINDINGS, "BACKWARD", Press) == {"S"}
    ensures KeysFor(FLY_BINDINGS, "LEFT", Press) == {"Q"}
    ensures KeysFor(FLY_BINDINGS, "RIGHT", Press) == {"D"}
    ensures KeysFor(FLY_BINDINGS, "UP", Press) == {"E", "R"}
    ensures KeysFor(FLY_BINDINGS, "DOWN", Press) == {"A", "F"}
  {
    var t := FLY_BINDINGS;
    assert t[0].key == "Z" && t[1].key == "S" && t[2].key == "Q" && t[3].key == "D";
    assert t[4].key == "E" && t[5].key == "A" && t[6].key == "R" && t[7].key == "F";
    forall i | 0 <= i < |t|
      ensures t[i].action == "FORWARD" ==> i == 0
      ensures t[i].action == "BACKWARD" ==> i == 1
      ensures t[i].action == "LEFT" ==> i == 2
      ensures t[i].action == "RIGHT" ==> i == 3
      ensures t[i].action == "UP" ==> i == 4 || i == 6
      ensures t[i].action == "DOWN" ==> i == 5 || i == 7
    {
    }
  }

  /** In Walk mode each direction pressed on a key stops when the same key is released. */
  lemma WalkPressReleasePairs()
    ensures forall i :: 0 <= i < 6 ==>
      && WALK_BINDINGS[i].value == Press
      && WALK_BINDINGS[i + 6] == WALK_BINDINGS[i].(action := WALK_BINDINGS[i].action + "_STOP", value := Release)
  {
  }

  /** Every Walk item takes any modifier; no Fly item does. */
  lemma AnyModifier()
    ensures forall b :: b in WALK_BINDINGS ==> b.any
    ensures forall b :: b in FLY_BINDINGS ==> !b.any
  {
  }

  /** No (key, event) pair of a table is bound to two different actions. */
  predicate NoConflicts(table: seq<ItemSpec>) {
    forall i, j :: 0 <= i < |table| && 0 <= j < |table| && table[i].key == table[j].key && table[i].value == table[j].value ==>
      table[i].action == table[j].action
  }

  lemma FlyHasNoConflicts()
    ensures NoConflicts(FLY_BINDINGS)
  {
    var t := FLY_BINDINGS;
    forall i, j | 0 <= i < |t| && 0 <= j < |t| && t[i].key == t[j].key
      ensures i == j
    {
    }
  }

  lemma WalkHasNoConflicts()
    ensures NoConflicts(WALK_BINDINGS)
  {
    var t := WALK_BINDINGS;
    forall i, j | 0 <= i < |t| && 0 <= j < |t| && t[i].key == t[j].key && t[i].value == t[j].value
      ensures i == j
    {
    }
  }
}
