/**
 * The host's add-on key configuration as the two keymap add-ons use it: keymaps
 * found or created by name and space type, items appended to a keymap and removed
 * from it again. An add-on records each item it creates as a (keymap, item) pair;
 * this module also holds what the two add-ons share: the invariant that keeps
 * those records removable, and the removal loop of their `unregister`.
 */
module Keymaps {
  import opened Wrappers

  datatype EventValue = Press | Release

  /**
   * What an item binds: an operator id (or, in a modal keymap, the modal action),
   * the key, the event, the `shift` and `any` modifiers, and the menu a
   * `wm.call_menu` item opens.
   */
  datatype ItemSpec = ItemSpec(action: string, key: string, value: EventValue, shift: bool, any: bool, menu: Option<string>)

  /** An item of a keymap; `id` is the host object's identity. */
  datatype KeymapItem = KeymapItem(id: nat, spec: ItemSpec)

  datatype Keymap = Keymap(name: string, spaceType: string, modal: bool, items: seq<KeymapItem>)

  /** An item an add-on created: its keymap (by position in the key configuration) and its identity. */
  datatype Recorded = Recorded(keymap: nat, item: nat)

  function ItemIds(items: seq<KeymapItem>): set<nat> {
    set it | it in items :: it.id
  }

  /** `keymaps.find(name, space_type)`: position of the keymap with that name and space type, if any. */
  function FindKeymap(keymaps: seq<Keymap>, name: string, spaceType: string): (r: Option<nat>)
    ensures r.Some? ==> r.value < |keymaps| && keymaps[r.value].name == name && keymaps[r.value].spaceType == spaceType
    ensures r.Some? ==> forall k :: 0 <= k < r.value ==> !(keymaps[k].name == name && keymaps[k].spaceType == spaceType)
    ensures r.None? ==> forall k :: 0 <= k < |keymaps| ==> !(keymaps[k].name == name && keymaps[k].spaceType == spaceType)
  {
    if keymaps == [] then None
    else if keymaps[0].name == name && keymaps[0].spaceType == spaceType then Some(0)
    else match FindKeymap(keymaps[1..], name, spaceType)
      case None => None
      case Some(k) => Some(k + 1)
  }

  /** The items whose identity is not in `ids`, in their order. */
  function WithoutIds(items: seq<KeymapItem>, ids: set<nat>): (r: seq<KeymapItem>)
    ensures forall it :: it in r <==> it in items && it.id !in ids
  {
    if items == [] then []
    else if items[0].id in ids then WithoutIds(items[1..], ids)
    else [items[0]] + WithoutIds(items[1..], ids)
  }

  /** Identities of the recorded items that live in keymap `k`. */
  function RecordedIn(records: seq<Recorded>, k: nat): set<nat> {
    set r | r in records && r.keymap == k :: r.item
  }

  lemma {:induction false} WithoutIdsTwice(items: seq<KeymapItem>, ids: set<nat>, id: nat)
    ensures WithoutIds(WithoutIds(items, ids), {id}) == WithoutIds(items, ids + {id})
  {
    if items != [] {
      WithoutIdsTwice(items[1..], ids, id);
      if items[0].id !in ids {
        assert ([items[0]] + WithoutIds(items[1..], ids))[1..] == WithoutIds(items[1..], ids);
      }
    }
  }

  lemma {:induction false} WithoutNoIds(items: seq<KeymapItem>)
    ensures WithoutIds(items, {}) == items
  {
    if items != [] {
      WithoutNoIds(items[1..]);
    }
  }

  /** No two items of a keymap share an identity. */
  predicate DistinctIds(items: seq<KeymapItem>) {
    forall i, j :: 0 <= i < j < |items| ==> items[i].id != items[j].id
  }

  /** Every keymap's items have distinct identities. */
  predicate DistinctIdsIn(keymaps: seq<Keymap>) {
    forall k :: 0 <= k < |keymaps| ==> DistinctIds(keymaps[k].items)
  }

  /** Removing items keeps the survivors' identities distinct. */
  lemma {:induction false} WithoutIdsDistinct(items: seq<KeymapItem>, ids: set<nat>)
    requires DistinctIds(items)
    ensures DistinctIds(WithoutIds(items, ids))
  {
    if items != [] {
      var rest := WithoutIds(items[1..], ids);
      WithoutIdsDistinct(items[1..], ids);
      if items[0].id !in ids {
        forall j | 0 <= j < |rest|
          ensures rest[j].id != items[0].id
        {
          assert rest[j] in items[1..];
        }
        assert WithoutIds(items, ids) == [items[0]] + rest;
      }
    }
  }

  /** Removing one identity the keymap holds takes out exactly one item. */
  lemma {:induction false} WithoutOneId(items: seq<KeymapItem>, id: nat)
    requires DistinctIds(items) && id in ItemIds(items)
    ensures |WithoutIds(items, {id})| == |items| - 1
  {
    if items[0].id == id {
      assert forall it :: it in items[1..] ==> it.id != id;
      WithoutAbsentId(items[1..], id);
    } else {
      var it :| it in items && it.id == id;
      assert it in items[1..];
      WithoutOneId(items[1..], id);
    }
  }

  /** Removing an identity no item holds changes nothing. */
  lemma {:induction false} WithoutAbsentId(items: seq<KeymapItem>, id: nat)
    requires forall it :: it in items ==> it.id != id
    ensures WithoutIds(items, {id}) == items
  {
    if items != [] {
      assert items[0] in items;
      assert forall it :: it in items[1..] ==> it in items;
      WithoutAbsentId(items[1..], id);
    }
  }

  /** The add-on key configuration (`window_manager.keyconfigs.addon`). */
  class KeyConfig {
    var keymaps: seq<Keymap>
    /** The identity the host gives the next item it creates. */
    var nextId: nat

    ghost predicate Valid()
      reads this
    {
      && (forall k, i :: 0 <= k < |keymaps| && 0 <= i < |keymaps[k].items| ==> keymaps[k].items[i].id < nextId)
      && DistinctIdsIn(keymaps)
    }

    constructor (keymaps: seq<Keymap>, nextId: nat)
      requires forall k, i :: 0 <= k < |keymaps| && 0 <= i < |keymaps[k].items| ==> keymaps[k].items[i].id < nextId
      requires DistinctIdsIn(keymaps)
      ensures Valid() && this.keymaps == keymaps && this.nextId == nextId
    {
      this.keymaps := keymaps;
      this.nextId := nextId;
    }

    /**
     * `keymaps.new(name, space_type, ...)`: the host hands back the keymap with that
     * name and space type, creating an empty one when there is none.
     */
    method NewKeymap(name: string, spaceType: string, modal: bool) returns (k: nat)
      requires Valid()
      modifies this
      ensures Valid() && nextId == old(nextId)
      ensures FindKeymap(old(keymaps), name, spaceType).Some? ==>
        k == FindKeymap(old(keymaps), name, spaceType).value && keymaps == old(keymaps)
      ensures FindKeymap(old(keymaps), name, spaceType).None? ==>
        k == |old(keymaps)| && keymaps == old(keymaps) + [Keymap(name, spaceType, modal, [])]
      ensures k < |keymaps| && keymaps[k].name == name && keymaps[k].spaceType == spaceType
    {
      var found := FindKeymap(keymaps, name, spaceType);
      if found.Some? {
        k := found.value;
      } else {
        k := |keymaps|;
        keymaps := keymaps + [Keymap(name, spaceType, modal, [])];
      }
    }

    /** `keymap_items.new(...)` / `new_modal(...)` on keymap `k`: appends a fresh item. */
    method NewItem(k: nat, spec: ItemSpec) returns (id: nat)
      requires Valid() && k < |keymaps|
      modifies this
      ensures Valid()
      ensures id == old(nextId) && nextId == old(nextId) + 1
      ensures keymaps == old(keymaps[k := keymaps[k].(items := keymaps[k].items + [KeymapItem(nextId, spec)])])
    {
      id := nextId;
      keymaps := keymaps[k := keymaps[k].(items := keymaps[k].items + [KeymapItem(id, spec)])];
      nextId := nextId + 1;
    }

    /** `keymap_items.remove(kmi)` on keymap `k`; the host refuses an item the keymap does not hold. */
    method RemoveItem(k: nat, id: nat)
      requires Valid() && k < |keymaps| && id in ItemIds(keymaps[k].items)
      modifies this
      ensures Valid() && nextId == old(nextId)
      ensures keymaps == old(keymaps[k := keymaps[k].(items := WithoutIds(keymaps[k].items, {id}))])
      ensures |keymaps[k].items| == |old(keymaps[k].items)| - 1
    {
      WithoutIdsDistinct(keymaps[k].items, {id});
      WithoutOneId(keymaps[k].items, id);
      keymaps := keymaps[k := keymaps[k].(items := WithoutIds(keymaps[k].items, {id}))];
    }
  }

  // ---------------------------------------------------------------------------
  // Find-or-create and record: the step both add-ons repeat at registration.

  /** The key configuration's keymaps and next identity, with an add-on's records. */
  datatype Registry = Registry(keymaps: seq<Keymap>, nextId: nat, records: seq<Recorded>)

  /** The keymap an item for (name, space type) goes to: the one found, or a new one at the end. */
  function KeymapFor(keymaps: seq<Keymap>, name: string, spaceType: string): nat {
    match FindKeymap(keymaps, name, spaceType)
    case Some(k) => k
    case None => |keymaps|
  }

  /** The keymaps after appending `item` to the keymap for (name, space type), created if missing. */
  function WithItem(keymaps: seq<Keymap>, name: string, spaceType: string, modal: bool, item: KeymapItem): seq<Keymap> {
    match FindKeymap(keymaps, name, spaceType)
    case Some(k) => keymaps[k := keymaps[k].(items := keymaps[k].items + [item])]
    case None => keymaps + [Keymap(name, spaceType, modal, [item])]
  }

  /**
   * Finding or creating the keymap for (name, space type), creating an item in it
   * and recording the pair.
   */
  function AddBinding(s: Registry, name: string, spaceType: string, modal: bool, spec: ItemSpec): Registry {
    Registry(
      WithItem(s.keymaps, name, spaceType, modal, KeymapItem(s.nextId, spec)),
      s.nextId + 1,
      s.records + [Recorded(KeymapFor(s.keymaps, name, spaceType), s.nextId)])
  }

  /**
   * What a binding does to the registry: a keymap is created only when none has the
   * name and space type; the item is appended to that keymap, which a later lookup
   * finds again; no other keymap changes; exactly one pair is recorded.
   */
  lemma {:induction false} AddBindingProperties(s: Registry, name: string, spaceType: string, modal: bool, spec: ItemSpec)
    ensures var t := AddBinding(s, name, spaceType, modal, spec);
      var k := KeymapFor(s.keymaps, name, spaceType);
      && |t.keymaps| == |s.keymaps| + (if FindKeymap(s.keymaps, name, spaceType).Some? then 0 else 1)
      && k < |t.keymaps| && t.keymaps[k].name == name && t.keymaps[k].spaceType == spaceType
      && FindKeymap(t.keymaps, name, spaceType) == Some(k)
      && KeymapFor(t.keymaps, name, spaceType) == k
      && t.keymaps[k].items == (if k < |s.keymaps| then s.keymaps[k].items else []) + [KeymapItem(s.nextId, spec)]
      && (forall j :: 0 <= j < |s.keymaps| && j != k ==> t.keymaps[j] == s.keymaps[j])
      && t.records == s.records + [Recorded(k, s.nextId)]
      && t.nextId == s.nextId + 1
  {
    var t := AddBinding(s, name, spaceType, modal, spec);
    var k := KeymapFor(s.keymaps, name, spaceType);
    forall j | 0 <= j < |s.keymaps|
      ensures t.keymaps[j].name == s.keymaps[j].name && t.keymaps[j].spaceType == s.keymaps[j].spaceType
    {
    }
    assert t.keymaps[k].name == name && t.keymaps[k].spaceType == spaceType;
    assert forall j :: 0 <= j < k ==> !(t.keymaps[j].name == name && t.keymaps[j].spaceType == spaceType);
  }

  /**
   * Appending an item to the keymap the host found, or to the keymap it has just
   * created, and recording the pair is adding the binding.
   */
  lemma AppendIsBinding(s: Registry, current: seq<Keymap>, k: nat, name: string, spaceType: string, modal: bool, spec: ItemSpec)
    requires FindKeymap(s.keymaps, name, spaceType).Some? ==>
      k == FindKeymap(s.keymaps, name, spaceType).value && current == s.keymaps
    requires FindKeymap(s.keymaps, name, spaceType).None? ==>
      k == |s.keymaps| && current == s.keymaps + [Keymap(name, spaceType, modal, [])]
    ensures k < |current|
    ensures Registry(current[k := current[k].(items := current[k].items + [KeymapItem(s.nextId, spec)])],
                     s.nextId + 1, s.records + [Recorded(k, s.nextId)])
         == AddBinding(s, name, spaceType, modal, spec)
  {
    if FindKeymap(s.keymaps, name, spaceType).None? {
      assert current[k].items + [KeymapItem(s.nextId, spec)] == [KeymapItem(s.nextId, spec)];
    }
  }

  /** Each keymap of `before` is still there, with the same name and space type and at least its items. */
  ghost predicate Grows(before: seq<Keymap>, after: seq<Keymap>) {
    && |before| <= |after|
    && forall j :: 0 <= j < |before| ==>
      && after[j].name == before[j].name && after[j].spaceType == before[j].spaceType
      && |before[j].items| <= |after[j].items|
      && after[j].items[..|before[j].items|] == before[j].items
  }

  lemma AddBindingGrows(s: Registry, name: string, spaceType: string, modal: bool, spec: ItemSpec)
    ensures Grows(s.keymaps, AddBinding(s, name, spaceType, modal, spec).keymaps)
  {
    AddBindingProperties(s, name, spaceType, modal, spec);
  }

  lemma GrowsTransitive(a: seq<Keymap>, b: seq<Keymap>, c: seq<Keymap>)
    requires Grows(a, b) && Grows(b, c)
    ensures Grows(a, c)
  {
    forall j | 0 <= j < |a| ensures c[j].items[..|a[j].items|] == a[j].items {
      assert c[j].items[..|a[j].items|] == c[j].items[..|b[j].items|][..|a[j].items|];
    }
  }

  /** An item a keymap holds is still held once the keymaps have grown. */
  lemma GrowsKeepsItems(before: seq<Keymap>, after: seq<Keymap>, k: nat, it: KeymapItem)
    requires Grows(before, after) && k < |before| && it in before[k].items
    ensures k < |after| && it in after[k].items
  {
    var i :| 0 <= i < |before[k].items| && before[k].items[i] == it;
    assert after[k].items[..|before[k].items|][i] == it;
  }

  /**
   * Records an add-on can always remove: the host's identities are below `nextId`,
   * each record names an item its keymap still holds, and no item is recorded twice.
   */
  ghost predicate RegistryValid(s: Registry) {
    && (forall k, i :: 0 <= k < |s.keymaps| && 0 <= i < |s.keymaps[k].items| ==> s.keymaps[k].items[i].id < s.nextId)
    && (forall r :: r in s.records ==> r.keymap < |s.keymaps| && r.item in ItemIds(s.keymaps[r.keymap].items))
    && (forall i, j :: 0 <= i < j < |s.records| ==> s.records[i].item != s.records[j].item)
  }

  /** Adding a binding keeps the records removable. */
  lemma AddBindingValid(s: Registry, name: string, spaceType: string, modal: bool, spec: ItemSpec)
    requires RegistryValid(s)
    ensures RegistryValid(AddBinding(s, name, spaceType, modal, spec))
  {
    var t := AddBinding(s, name, spaceType, modal, spec);
    var k := KeymapFor(s.keymaps, name, spaceType);
    AddBindingProperties(s, name, spaceType, modal, spec);
    forall j, i | 0 <= j < |t.keymaps| && 0 <= i < |t.keymaps[j].items| ensures t.keymaps[j].items[i].id < t.nextId {
      if j != k {
        assert t.keymaps[j] == s.keymaps[j];
      } else if i < |t.keymaps[k].items| - 1 {
        assert t.keymaps[k].items[i] == s.keymaps[k].items[i];
      }
    }
    assert KeymapItem(s.nextId, spec) in t.keymaps[k].items;
    forall r | r in s.records ensures r.item in ItemIds(t.keymaps[r.keymap].items) && r.item < s.nextId {
      var it :| it in s.keymaps[r.keymap].items && it.id == r.item;
      AddBindingGrows(s, name, spaceType, modal, spec);
      GrowsKeepsItems(s.keymaps, t.keymaps, r.keymap, it);
    }
  }

  /** A resolved binding: the keymap's name, space type and modal flag, and the item. */
  datatype Binding = Binding(name: string, spaceType: string, modal: bool, spec: ItemSpec)

  /** Registration as a function: every binding added in turn. */
  function AddAll(s: Registry, bindings: seq<Binding>): Registry {
    if bindings == [] then s
    else
      var b := bindings[|bindings| - 1];
      AddBinding(AddAll(s, bindings[..|bindings| - 1]), b.name, b.spaceType, b.modal, b.spec)
  }

  /** Adding two lists of bindings in turn is adding their concatenation. */
  lemma {:induction false} AddAllConcat(s: Registry, a: seq<Binding>, b: seq<Binding>)
    ensures AddAll(s, a + b) == AddAll(AddAll(s, a), b)
  {
    if b == [] {
      assert a + b == a;
    } else {
      var n := |b| - 1;
      assert (a + b)[..|a + b| - 1] == a + b[..n];
      assert (a + b)[|a + b| - 1] == b[n];
      AddAllConcat(s, a, b[..n]);
    }
  }

  /** Registration records one pair per binding after the older records, and the keymaps only grow. */
  lemma {:induction false} AddAllCounts(s: Registry, bindings: seq<Binding>)
    ensures var t := AddAll(s, bindings);
      && t.nextId == s.nextId + |bindings|
      && |t.records| == |s.records| + |bindings|
      && t.records[..|s.records|] == s.records
      && Grows(s.keymaps, t.keymaps)
  {
    if bindings == [] {
      assert s.records[..|s.records|] == s.records;
      assert forall j :: 0 <= j < |s.keymaps| ==> s.keymaps[j].items[..|s.keymaps[j].items|] == s.keymaps[j].items;
    } else {
      var n := |bindings| - 1;
      var b := bindings[n];
      var u := AddAll(s, bindings[..n]);
      AddAllCounts(s, bindings[..n]);
      AddBindingGrows(u, b.name, b.spaceType, b.modal, b.spec);
      GrowsTransitive(s.keymaps, u.keymaps, AddAll(s, bindings).keymaps);
      assert AddAll(s, bindings).records[..|s.records|] == u.records[..|s.records|];
    }
  }

  /**
   * The i-th record registration adds names a fresh item holding the i-th binding's
   * item, in a keymap with that binding's name and space type.
   */
  lemma {:induction false} AddAllRecordAt(s: Registry, bindings: seq<Binding>, i: nat)
    requires i < |bindings|
    ensures var t := AddAll(s, bindings);
      && |s.records| + i < |t.records|
      && var r := t.records[|s.records| + i];
      && r.item == s.nextId + i
      && r.keymap < |t.keymaps|
      && t.keymaps[r.keymap].name == bindings[i].name
      && t.keymaps[r.keymap].spaceType == bindings[i].spaceType
      && KeymapItem(r.item, bindings[i].spec) in t.keymaps[r.keymap].items
  {
    var t := AddAll(s, bindings);
    var n := |bindings| - 1;
    var b := bindings[n];
    var u := AddAll(s, bindings[..n]);
    AddAllCounts(s, bindings[..n]);
    assert t.records == u.records + [Recorded(KeymapFor(u.keymaps, b.name, b.spaceType), u.nextId)];
    if i < n {
      AddAllRecordAt(s, bindings[..n], i);
      var r := u.records[|s.records| + i];
      assert t.records[|s.records| + i] == r;
      assert bindings[..n][i] == bindings[i];
      RecordSurvivesBinding(u, b, r, bindings[i]);
    } else {
      LastRecordHolds(u, b);
    }
  }

  /** The pair a binding records names its fresh item, in a keymap with the binding's name and space type. */
  lemma LastRecordHolds(u: Registry, b: Binding)
    ensures var t := AddBinding(u, b.name, b.spaceType, b.modal, b.spec);
      && |t.records| == |u.records| + 1
      && var r := t.records[|u.records|];
      && r.item == u.nextId
      && r.keymap < |t.keymaps|
      && t.keymaps[r.keymap].name == b.name && t.keymaps[r.keymap].spaceType == b.spaceType
      && KeymapItem(r.item, b.spec) in t.keymaps[r.keymap].items
  {
    var t := AddBinding(u, b.name, b.spaceType, b.modal, b.spec);
    AddBindingProperties(u, b.name, b.spaceType, b.modal, b.spec);
    var k := KeymapFor(u.keymaps, b.name, b.spaceType);
    assert KeymapItem(u.nextId, b.spec) in t.keymaps[k].items;
  }

  /** A record whose item sits in a keymap for binding `c` still does after binding `b` is added. */
  lemma RecordSurvivesBinding(u: Registry, b: Binding, r: Recorded, c: Binding)
    requires r.keymap < |u.keymaps|
    requires u.keymaps[r.keymap].name == c.name && u.keymaps[r.keymap].spaceType == c.spaceType
    requires KeymapItem(r.item, c.spec) in u.keymaps[r.keymap].items
    ensures var t := AddBinding(u, b.name, b.spaceType, b.modal, b.spec);
      && r.keymap < |t.keymaps|
      && t.keymaps[r.keymap].name == c.name && t.keymaps[r.keymap].spaceType == c.spaceType
      && KeymapItem(r.item, c.spec) in t.keymaps[r.keymap].items
  {
    var t := AddBinding(u, b.name, b.spaceType, b.modal, b.spec);
    AddBindingGrows(u, b.name, b.spaceType, b.modal, b.spec);
    GrowsKeepsItems(u.keymaps, t.keymaps, r.keymap, KeymapItem(r.item, c.spec));
  }

  /** Registration keeps the records removable. */
  lemma {:induction false} AddAllValid(s: Registry, bindings: seq<Binding>)
    requires RegistryValid(s)
    ensures RegistryValid(AddAll(s, bindings))
  {
    if bindings != [] {
      var n := |bindings| - 1;
      var b := bindings[n];
      AddAllValid(s, bindings[..n]);
      AddBindingValid(AddAll(s, bindings[..n]), b.name, b.spaceType, b.modal, b.spec);
    }
  }

  // ---------------------------------------------------------------------------
  // Removing what registration recorded gives the keymaps back.

  lemma {:induction false} WithoutIdsConcat(a: seq<KeymapItem>, b: seq<KeymapItem>, ids: set<nat>)
    ensures WithoutIds(a + b, ids) == WithoutIds(a, ids) + WithoutIds(b, ids)
  {
    if a == [] {
      assert a + b == b;
    } else {
      assert (a + b)[1..] == a[1..] + b;
      WithoutIdsConcat(a[1..], b, ids);
    }
  }

  lemma {:induction false} WithoutOtherIds(items: seq<KeymapItem>, ids: set<nat>)
    requires forall it :: it in items ==> it.id !in ids
    ensures WithoutIds(items, ids) == items
  {
    if items != [] {
      assert items[0] in items;
      WithoutOtherIds(items[1..], ids);
    }
  }

  lemma {:induction false} WithoutAllIds(items: seq<KeymapItem>, ids: set<nat>)
    requires forall it :: it in items ==> it.id in ids
    ensures WithoutIds(items, ids) == []
  {
    if items != [] {
      assert items[0] in items;
      WithoutAllIds(items[1..], ids);
    }
  }

  /** How many items keymap `k` of `s` held: none for a keymap `s` does not have. */
  function OldCount(s: Registry, k: nat): nat {
    if k < |s.keymaps| then |s.keymaps[k].items| else 0
  }

  /**
   * Between `s` and `t` the keymaps only grew, every identity recorded since is at
   * least `s.nextId`, and every item added since carries an identity recorded since
   * in its keymap.
   */
  ghost predicate AddedRecorded(s: Registry, t: Registry) {
    && |s.records| <= |t.records|
    && t.records[..|s.records|] == s.records
    && Grows(s.keymaps, t.keymaps)
    && (forall r :: r in t.records[|s.records|..] ==> s.nextId <= r.item)
    && forall k, i :: 0 <= k < |t.keymaps| && OldCount(s, k) <= i < |t.keymaps[k].items| ==>
      t.keymaps[k].items[i].id in RecordedIn(t.records[|s.records|..], k)
  }

  /** One more binding keeps `AddedRecorded`. */
  lemma AddBindingAddedRecorded(s: Registry, u: Registry, name: string, spaceType: string, modal: bool, spec: ItemSpec)
    requires AddedRecorded(s, u) && s.nextId <= u.nextId
    ensures AddedRecorded(s, AddBinding(u, name, spaceType, modal, spec))
  {
    var t := AddBinding(u, name, spaceType, modal, spec);
    var k0 := KeymapFor(u.keymaps, name, spaceType);
    AddBindingProperties(u, name, spaceType, modal, spec);
    AddBindingGrows(u, name, spaceType, modal, spec);
    GrowsTransitive(s.keymaps, u.keymaps, t.keymaps);
    var before := u.records[|s.records|..];
    var after := t.records[|s.records|..];
    assert after == before + [Recorded(k0, u.nextId)];
    assert t.records[..|s.records|] == u.records[..|s.records|];
    AddedItemsRecorded(s, u, name, spaceType, modal, spec);
  }

  /** The items added since `s`, the new one included, stay recorded after one more binding. */
  lemma AddedItemsRecorded(s: Registry, u: Registry, name: string, spaceType: string, modal: bool, spec: ItemSpec)
    requires AddedRecorded(s, u)
    ensures var t := AddBinding(u, name, spaceType, modal, spec);
      forall k, i :: 0 <= k < |t.keymaps| && OldCount(s, k) <= i < |t.keymaps[k].items| ==>
        t.keymaps[k].items[i].id in RecordedIn(t.records[|s.records|..], k)
  {
    var t := AddBinding(u, name, spaceType, modal, spec);
    var k0 := KeymapFor(u.keymaps, name, spaceType);
    AddBindingProperties(u, name, spaceType, modal, spec);
    var before := u.records[|s.records|..];
    var after := t.records[|s.records|..];
    assert after == before + [Recorded(k0, u.nextId)];
    forall k, i | 0 <= k < |t.keymaps| && OldCount(s, k) <= i < |t.keymaps[k].items|
      ensures t.keymaps[k].items[i].id in RecordedIn(after, k)
    {
      if k == k0 && i == |t.keymaps[k].items| - 1 {
        assert Recorded(k0, u.nextId) in after;
      } else {
        assert k < |u.keymaps| && t.keymaps[k].items[i] == u.keymaps[k].items[i];
        var r :| r in before && r.keymap == k && r.item == u.keymaps[k].items[i].id;
        assert r in after;
      }
    }
  }

  lemma {:induction false} AddAllAddedRecorded(s: Registry, bindings: seq<Binding>)
    ensures AddedRecorded(s, AddAll(s, bindings))
  {
    if bindings == [] {
      assert s.records[..|s.records|] == s.records;
      assert forall j :: 0 <= j < |s.keymaps| ==> s.keymaps[j].items[..|s.keymaps[j].items|] == s.keymaps[j].items;
    } else {
      var n := |bindings| - 1;
      var b := bindings[n];
      AddAllAddedRecorded(s, bindings[..n]);
      AddAllCounts(s, bindings[..n]);
      AddBindingAddedRecorded(s, AddAll(s, bindings[..n]), b.name, b.spaceType, b.modal, b.spec);
    }
  }

  /**
   * `unregister` after registration, starting with nothing recorded, gives every
   * keymap back its items from before, and leaves each keymap registration created
   * empty: removing the recorded items undoes exactly what registration added.
   */
  lemma UnregisterUndoesRegister(s: Registry, bindings: seq<Binding>)
    requires RegistryValid(s) && s.records == []
    ensures var t := AddAll(s, bindings);
      forall k :: 0 <= k < |t.keymaps| ==>
        WithoutIds(t.keymaps[k].items, RecordedIn(t.records, k)) == (if k < |s.keymaps| then s.keymaps[k].items else [])
  {
    var t := AddAll(s, bindings);
    AddAllAddedRecorded(s, bindings);
    assert t.records[|s.records|..] == t.records;
    forall k | 0 <= k < |t.keymaps|
      ensures WithoutIds(t.keymaps[k].items, RecordedIn(t.records, k)) == (if k < |s.keymaps| then s.keymaps[k].items else [])
    {
      KeymapRestored(s, t, k);
    }
  }

  /** One keymap of `UnregisterUndoesRegister`. */
  lemma KeymapRestored(s: Registry, t: Registry, k: nat)
    requires RegistryValid(s) && s.records == [] && AddedRecorded(s, t)
    requires t.records[|s.records|..] == t.records
    requires k < |t.keymaps|
    ensures WithoutIds(t.keymaps[k].items, RecordedIn(t.records, k)) == (if k < |s.keymaps| then s.keymaps[k].items else [])
  {
    var ids := RecordedIn(t.records, k);
    var old_ := if k < |s.keymaps| then s.keymaps[k].items else [];
    assert |old_| == OldCount(s, k);
    var items := t.keymaps[k].items;
    var added := items[|old_|..];
    assert items == old_ + added;
    if k < |s.keymaps| {
      OldItemsUnrecorded(s, t, k);
    }
    forall it | it in added ensures it.id in ids {
      var i :| 0 <= i < |added| && added[i] == it;
      assert it == items[|old_| + i];
    }
    WithoutIdsConcat(old_, added, ids);
    WithoutOtherIds(old_, ids);
    WithoutAllIds(added, ids);
  }

  /** Items a keymap held before registration carry no identity registration recorded. */
  lemma OldItemsUnrecorded(s: Registry, t: Registry, k: nat)
    requires RegistryValid(s) && AddedRecorded(s, t)
    requires t.records[|s.records|..] == t.records
    requires k < |s.keymaps|
    ensures forall it :: it in s.keymaps[k].items ==> it.id !in RecordedIn(t.records, k)
  {
    forall it | it in s.keymaps[k].items ensures it.id !in RecordedIn(t.records, k) {
      var i :| 0 <= i < |s.keymaps[k].items| && s.keymaps[k].items[i] == it;
      assert it.id < s.nextId;
    }
  }

  /** The records of a key configuration are removable. */
  ghost predicate RecordsValid(kc: KeyConfig, records: seq<Recorded>)
    reads kc
  {
    kc.Valid() && RegistryValid(Registry(kc.keymaps, kc.nextId, records))
  }

  /** After removing the first `j` records, each keymap lacks exactly the items recorded in it so far. */
  ghost predicate RemovedSoFar(before: seq<Keymap>, current: seq<Keymap>, records: seq<Recorded>, j: nat)
    requires j <= |records|
  {
    && |current| == |before|
    && forall k :: 0 <= k < |current| ==>
      current[k] == before[k].(items := WithoutIds(before[k].items, RecordedIn(records[..j], k)))
  }

  /** The records from `j` on still name items their keymaps hold. */
  ghost predicate StillHeld(current: seq<Keymap>, records: seq<Recorded>, j: nat) {
    forall i :: j <= i < |records| ==>
      records[i].keymap < |current| && records[i].item in ItemIds(current[records[i].keymap].items)
  }

  /** One turn of the removal loop keeps both predicates. */
  lemma RemoveStep(before: seq<Keymap>, current: seq<Keymap>, records: seq<Recorded>, j: nat)
    requires j < |records|
    requires forall i, i' :: 0 <= i < i' < |records| ==> records[i].item != records[i'].item
    requires RemovedSoFar(before, current, records, j) && StillHeld(current, records, j)
    ensures var r := records[j];
      var next := current[r.keymap := current[r.keymap].(items := WithoutIds(current[r.keymap].items, {r.item}))];
      RemovedSoFar(before, next, records, j + 1) && StillHeld(next, records, j + 1)
  {
    var r := records[j];
    var next := current[r.keymap := current[r.keymap].(items := WithoutIds(current[r.keymap].items, {r.item}))];
    assert records[..j + 1] == records[..j] + [r];
    forall k | 0 <= k < |next|
      ensures next[k] == before[k].(items := WithoutIds(before[k].items, RecordedIn(records[..j + 1], k)))
    {
      if k == r.keymap {
        assert RecordedIn(records[..j + 1], k) == RecordedIn(records[..j], k) + {r.item};
        WithoutIdsTwice(before[k].items, RecordedIn(records[..j], k), r.item);
      } else {
        assert RecordedIn(records[..j + 1], k) == RecordedIn(records[..j], k);
      }
    }
    forall i | j + 1 <= i < |records|
      ensures records[i].item in ItemIds(next[records[i].keymap].items)
    {
      var q := records[i];
      var it :| it in current[q.keymap].items && it.id == q.item;
      assert q.item != r.item;
      assert it in next[q.keymap].items;
    }
  }

  /**
   * The `unregister` loop both add-ons run: every recorded item is removed from its
   * keymap. Afterwards each keymap holds exactly its old items minus the recorded ones.
   */
  method RemoveRecorded(kc: KeyConfig, records: seq<Recorded>)
    requires RecordsValid(kc, records)
    modifies kc
    ensures kc.Valid() && |kc.keymaps| == old(|kc.keymaps|) && kc.nextId == old(kc.nextId)
    ensures forall k :: 0 <= k < |kc.keymaps| ==>
      kc.keymaps[k] == old(kc.keymaps[k]).(items := WithoutIds(old(kc.keymaps[k].items), RecordedIn(records, k)))
  {
    ghost var before := kc.keymaps;
    forall k | 0 <= k < |before| ensures WithoutIds(before[k].items, RecordedIn(records[..0], k)) == before[k].items {
      assert RecordedIn(records[..0], k) == {};
      WithoutNoIds(before[k].items);
    }
    for j := 0 to |records|
      invariant kc.Valid() && kc.nextId == old(kc.nextId)
      invariant RemovedSoFar(before, kc.keymaps, records, j)
      invariant StillHeld(kc.keymaps, records, j)
    {
      RemoveStep(before, kc.keymaps, records, j);
      kc.RemoveItem(records[j].keymap, records[j].item);
    }
    assert records[..|records|] == records;
  }
}
