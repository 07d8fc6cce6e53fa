# Car rig and keymap add-ons — a Dafny model

This project models the rule logic and bookkeeping of three Blender add-ons:

- **car_rig.py**, the car rig generator. The model covers:
  - the bone-layer classification `apply_layer`;
  - the names the generator and the meta-rig operator give the bones they create;
  - `FCurvesEvaluator`, which reads a vector property from optional per-component animation curves;
  - the two bakes, which visit every integer frame of the root bone's curve range and key a freshly created target curve.
- **dga_ui_tweak_ctx_menus.py**, the context-menu add-on. The model covers:
  - `KeymapsAddon` (find-or-create a keymap, create an item, record the pair, remove every recorded item again);
  - the `create_keymaps` calls of every class and `register`;
  - the three toggle operators;
  - the `poll` decisions of the pivot-point and falloff menus;
  - the button layout of the sculpt brush menu.
- **dga_walk_fly_mode_azerty.py**, the ZQSD walk/fly add-on. The model covers the Fly and Walk modal binding tables, `register`, which adds and records them, and `unregister`, which removes them.

Host objects are abstract values:

- A curve is a datatype. Its interpolated value and its frame range come from an opaque `Host` value.
- The per-frame vector and quaternion maths of the bakes comes from an opaque `Maths` value.
- A keymap is a name, a space type and a list of items. Each item carries the identity the host gave it.
- The add-on key configuration is a class whose methods find or create keymaps, append items and remove items.

State that the source changes in place is modelled imperatively:

- the bone's layer mask;
- the action's curve collection;
- the recorded-pairs lists of both add-ons;
- the area type, the pose positions and the simplify flag.

Each such method is proved against a function of the old state:

- `BoneLayers.LayerOf` and `BoneLayers.LayerMask` for the layer mask;
- `Actions.Without`, `Actions.InsertKey` and `Bake.Rebaked` for the curve collection;
- `Keymaps.AddAll` and `Keymaps.WithoutIds` for the recorded pairs;
- `CtxMenuOperators.ToggledAreaType` for the area type;
- `CtxMenuOperators.Scene.FlipsCounted` for the pose positions;
- the negation of the old flag for simplification.

The properties the add-ons promise are lemmas about those functions. For example, the bake leaves exactly one target curve, registration records one pair per binding in order, and unregistering gives every keymap its items back.

Modules, one file each: `Wrappers`, `Strings`, `BoneLayers`, `Curves`, `Actions`, `Bake`, `Keymaps` (shared by both keymap add-ons), `CtxMenuKeymaps`, `CtxMenuOperators` and `WalkFlyKeymaps`.

## Model

| member | source | states |
|---|---|---|
| BoneLayers.LayerOf | car_rig.py:45-56 | the layer chosen for a name is one of the four layer constants, all below 32 |
| BoneLayers.ApplyLayer | car_rig.py:45-58 | the bone gets a 32-slot mask whose slot i is on exactly when i is the layer its name selects |
| BoneLayers.ApplyLayers | car_rig.py:276-277 | after the generator's last pass every bone holds the one-layer mask of its own name |
| BoneLayers.MaskHasOneLayer | car_rig.py:46-58 | the mask `apply_layer` builds has exactly one slot on |
| BoneLayers.LayerCharacterisation | car_rig.py:48-56 | each layer, in both directions: layer 30 iff the name starts with `DEF-` (even when it mentions GroundSensor); layer 1 iff `MCH-` with GroundSensor; layer 31 iff `MCH-` without it; layer 0 iff neither prefix |
| BoneLayers.SensorNameLayer | car_rig.py:259-262 | a name made from a `DEF-Wheel` bone by replacing that prefix with `MCH-GroundSensor` lands on the ground-sensor layer |
| BoneLayers.SensorName | car_rig.py:262 | definition: the wheel name with `DEF-Wheel` replaced by `MCH-GroundSensor`; `SensorNames` states the four results |
| BoneLayers.MetaRigBoneName | car_rig.py:495 | definition: `DEF-` followed by the part name; `MetaRigBoneLayer` states its layer |
| BoneLayers.SensorNames | car_rig.py:259-262 | the four sensor names are exactly the ones the wheel constraints target, and all four land on layer 1 |
| BoneLayers.MetaRigBoneLayer | car_rig.py:494-495 | every meta-rig bone, named `DEF-` plus its part, lands on the deforming layer whatever the part |
| BoneLayers.MetaRigWheels | car_rig.py:522-526 | the meta-rig operator creates `DEF-Body` and the four wheel bones the generator looks up |
| BoneLayers.GeneratedBoneLayers | car_rig.py:212-277 | the generated control bones stay on layer 0, the sensors go to layer 1 and the other mechanism bones to layer 31 |
| Strings.ReplaceAbsent | car_rig.py:262 | `replace` leaves a string without the pattern unchanged |
| Strings.Replace | car_rig.py:262 | definition: Python `str.replace`, scanning left to right and replacing non-overlapping occurrences; `ReplaceAbsent` states it |
| Curves.MinOf | car_rig.py:78 | Python `min`: the result is in the list and below every element |
| Curves.MaxOf | car_rig.py:79 | Python `max`: the result is in the list and above every element |
| Curves.FCurvesEvaluator.Evaluate | car_rig.py:68-75 | the result is as long as the shorter of curves and defaults; a present curve gives its value at the frame, a missing one its default |
| Curves.FCurvesEvaluator.Range | car_rig.py:77-80 | None iff there are no curves (Python `min([])` raises); otherwise start and end are the least start and greatest end among the candidates, a missing curve counting as `sys.maxsize` and 0 |
| Curves.AllMissingGivesDefaults | car_rig.py:68-75 | with every curve missing the evaluator returns its defaults at every frame |
| Curves.AllMissingRange | car_rig.py:77-80 | with every curve missing the range is `[sys.maxsize, 0]` |
| Curves.PresentCurvesDecideRange | car_rig.py:77-80 | with a curve present, and every present curve starting no later than `sys.maxsize` and ending at frame 0 or later, start and end each come from a present curve: the sentinels do not win |
| Curves.EndSentinelWins | car_rig.py:79 | when a component has no curve and every present curve ends before frame 0, the range ends at frame 0, after every present curve's end |
| Actions.Find | car_rig.py:134 | `fcurves.find` gives the first curve with the data path and index, or none when no curve has them |
| Actions.InsertKey | car_rig.py:144 | the inserted keyframe is in the result, and the list grows by at most one; `InsertKeySorted` states the rest |
| Actions.Without | car_rig.py:135-136 | a curve survives removal exactly when it does not have the key |
| Actions.InsertKeySorted | car_rig.py:144 | keyframe insertion keeps frames strictly increasing; the frame then holds the new value and every other keyframe stays |
| Actions.InsertKeyAfterLast | car_rig.py:144 | a keyframe later than all others is appended |
| Actions.WithoutProperties | car_rig.py:134-136 | after removal no curve has the key, and keys stay unique |
| Actions.RemoveFound | car_rig.py:134-136 | removing the curve `find` returned is taking the key out |
| Actions.WithoutNone | car_rig.py:134-136 | when `find` returns nothing, nothing is removed |
| Actions.LookupWithout | car_rig.py:134-136 | removing one data path does not change the lookup of another |
| Actions.LookupAppend | car_rig.py:138 | creating a curve for one data path does not change the lookup of another |
| Actions.Action.Remove | car_rig.py:136 | `fcurves.remove`: the curve at that position is gone and the rest keep their order |
| Actions.Action.New | car_rig.py:138 | `fcurves.new`: an empty curve for the key is added to the action, which held none for that key |
| Actions.Action.InsertKeyframe | car_rig.py:144 | `keyframe_points.insert` changes only that curve's keyframes |
| Bake.LocationEvaluator | car_rig.py:105-108 | the location evaluator reads three curves with three defaults |
| Bake.RotationEvaluator | car_rig.py:100-103 | the rotation evaluator reads four curves with four defaults |
| Bake.PoseBonePath | car_rig.py:101-106 | definition: the data path `pose.bones["<bone>"].<property>`; `BakePathsDiffer` states that read and written paths differ |
| Bake.Schedule | car_rig.py:114-121 | definition: the frames a bake visits; `ScheduleCoversRange` states what they are |
| Bake.Travelled | car_rig.py:118-128 | definition: the distance summed step by step from the range start up to a frame |
| Bake.DistanceSamples | car_rig.py:110-128 | definition: one (frame, distance so far) pair per scheduled frame; `DistanceSamplesAt` states it element by element |
| Bake.TurnSamples | car_rig.py:168-180 | definition: one (frame, turn to the next frame) pair per scheduled frame; `TurnSamplesAt` states it element by element |
| Bake.ScheduleCoversRange | car_rig.py:114-121 | the frames visited are exactly `int(start)`..`int(end)` when `end - start > 0`, none otherwise, strictly increasing |
| Bake.DistancePerFrame | car_rig.py:110-129 | the generator yields the samples `DistanceSamples` describes, or nothing for an empty range |
| Bake.DistanceLoop | car_rig.py:118-129 | the frame loop yields each frame with the distance summed from the range start up to that frame, each step starting from the previous position |
| Bake.DistanceSamplesAt | car_rig.py:114-129 | no samples for an empty range; otherwise one per frame, the k-th at `start + k` carrying the distance up to it |
| Bake.RotationPerFrame | car_rig.py:168-180 | the generator yields each frame with the turn from that frame's rotation to the next frame's |
| Bake.TurnLoop | car_rig.py:175-180 | the frame loop, carrying the current rotation forward, yields each frame from the range start with the turn from its rotation to the next frame's |
| Bake.TurnSamplesAt | car_rig.py:168-180 | no samples for an empty range; otherwise one per frame, the k-th at `start + k` carrying the turn from that frame to the next |
| Bake.SampleFrames | car_rig.py:121-128 | both generators yield exactly the scheduled frames of their range |
| Bake.NoLocationCurvesNoSamples | car_rig.py:110-116 | a root without location curves yields no samples |
| Bake.NoRotationCurvesNoSamples | car_rig.py:168-173 | a root without rotation curves yields no samples |
| Bake.SpeedRatio | car_rig.py:140 | the ratio is positive; it is the inverse of the height when the height is above 0, and 1.0 otherwise |
| Bake.Keys | car_rig.py:142-144 | the keyed frames are the sampled frames |
| Bake.Rebaked | car_rig.py:133-144 | definition: the old curves without the target key, plus the fresh target curve with the baked keys (placed at the end, see Left out); `RebakedHasOneCurve` states what that means |
| Bake.RebakedHasOneCurve | car_rig.py:133-138 | after a bake exactly one curve has the target key, lookup finds it with the baked keys, and every other curve is kept |
| Bake.BakePathsDiffer | car_rig.py:100-108 | the location and quaternion paths the bakes read never equal the Euler-rotation or location path they write |
| Bake.LookupUnaffected | car_rig.py:134-138 | replacing the target curve does not change which curve the source paths read |
| Bake.InsertSamples | car_rig.py:142-144 | inserting increasing samples into the new empty curve leaves exactly those keys, scaled, in it |
| Bake.DistanceSamplesIncreasing | car_rig.py:121-128 | distance samples come in strictly increasing frame order |
| Bake.TurnSamplesIncreasing | car_rig.py:176-180 | turn samples come in strictly increasing frame order |
| Bake.ReplaceCurve | car_rig.py:133-138 | any curve for the target key is removed, then a fresh empty one in the bake group is added, so exactly one curve holds the key |
| Bake.BakeWheelRotation | car_rig.py:131-144 | the action's curves become the old ones with the target curve rebuilt from the distance samples times the speed ratio |
| Bake.BakeSteeringWheelRotation | car_rig.py:182-193 | the action's curves become the old ones with the target curve rebuilt from the steering value of each turn |
| Bake.BakedFrames | car_rig.py:131-193 | the baked curves are keyed on every scheduled frame of the source range and no other |
| Keymaps.FindKeymap | dga_ui_tweak_ctx_menus.py:47 | `keymaps.find` gives the first keymap with that name and space type, or none when there is none |
| Keymaps.AddBinding | dga_ui_tweak_ctx_menus.py:47-51 | definition: find or create the keymap, append a fresh item, record the pair; `AddBindingProperties` states what that does |
| Keymaps.AddAll | dga_ui_tweak_ctx_menus.py:47-51 | definition: the bindings added one after another; `AddAllCounts`, `AddAllRecordAt` and `UnregisterUndoesRegister` state what that does |
| Keymaps.WithoutIds | dga_ui_tweak_ctx_menus.py:56-57 | an item survives removal exactly when its identity is not removed |
| Keymaps.WithoutIdsTwice | dga_ui_tweak_ctx_menus.py:56-57 | removing items one identity at a time is removing them all at once |
| Keymaps.WithoutNoIds | dga_ui_tweak_ctx_menus.py:56-57 | removing no identities changes nothing |
| Keymaps.KeyConfig.NewKeymap | dga_ui_tweak_ctx_menus.py:47-49 | the keymap with that name and space type is reused when found and created at the end otherwise |
| Keymaps.KeyConfig.NewItem | dga_ui_tweak_ctx_menus.py:50 | a fresh item is appended to that keymap only; its identity differs from every item already there |
| Keymaps.KeyConfig.RemoveItem | dga_ui_tweak_ctx_menus.py:57 | `keymap_items.remove` takes out exactly that item: the keymap loses one item, the one with that identity, and no other keymap changes |
| Keymaps.WithoutIdsDistinct | dga_ui_tweak_ctx_menus.py:57 | removing items keeps the identities of a keymap distinct |
| Keymaps.WithoutOneId | dga_ui_tweak_ctx_menus.py:57 | with distinct identities, removing one identity the keymap holds removes exactly one item |
| Keymaps.AddBindingProperties | dga_ui_tweak_ctx_menus.py:47-51 | a keymap is created only when none matches; the item is appended to it; a later find returns it; no other keymap changes; one pair is recorded |
| Keymaps.AddBindingGrows | dga_ui_tweak_ctx_menus.py:47-51 | adding a binding only grows the keymaps |
| Keymaps.AddBindingValid | dga_ui_tweak_ctx_menus.py:47-51 | adding a binding keeps every record removable and every recorded item distinct |
| Keymaps.AddAllConcat | dga_ui_tweak_ctx_menus.py:219-223 | adding two binding lists in turn is adding their concatenation |
| Keymaps.AddAllCounts | dga_walk_fly_mode_azerty.py:19-47 | registration records one pair per binding after the old ones, and the keymaps only grow |
| Keymaps.AddAllRecordAt | dga_walk_fly_mode_azerty.py:19-47 | the i-th new record names a fresh item holding the i-th binding, in a keymap with that binding's name and space type |
| Keymaps.AddAllValid | dga_ui_tweak_ctx_menus.py:44-52 | registration keeps every record removable |
| Keymaps.AddAllAddedRecorded | dga_ui_tweak_ctx_menus.py:44-52 | every item registration adds carries an identity it recorded, in that keymap |
| Keymaps.UnregisterUndoesRegister | dga_walk_fly_mode_azerty.py:16-52 | unregistering after registering, with nothing recorded before, gives every keymap back its old items and leaves the keymaps registration created empty |
| Keymaps.RemoveStep | dga_ui_tweak_ctx_menus.py:56-57 | one turn of the removal loop removes that record's item, and the later records still name items their keymaps hold |
| Keymaps.RemoveRecorded | dga_ui_tweak_ctx_menus.py:56-57 | every keymap ends up with exactly its old items minus those recorded in it |
| CtxMenuKeymaps.ResolveAll | dga_ui_tweak_ctx_menus.py:45 | one resolved binding per call |
| CtxMenuKeymaps.Calls | dga_ui_tweak_ctx_menus.py:67-193 | definition: the `new` calls each class's `create_keymaps` makes, in order, with their space keys and items; `ClassCallCounts` and `CallsKnown` state their size and keys |
| CtxMenuKeymaps.KeymapsAddon.New | dga_ui_tweak_ctx_menus.py:44-52 | an unknown key fails with KeyError and changes nothing, even without a key configuration; without one the result is None and nothing is recorded; otherwise the binding is added and the new pair returned |
| CtxMenuKeymaps.KeymapsAddon.Unregister | dga_ui_tweak_ctx_menus.py:54-58 | every recorded item is gone from its keymap, the other items stay, and the record list is empty, so a second call removes nothing |
| CtxMenuKeymaps.ClassCallCounts | dga_ui_tweak_ctx_menus.py:67-193 | the classes make 2, 0, 0, 4, 6, 8 and 1 `new` calls |
| CtxMenuKeymaps.CallsKnown | dga_ui_tweak_ctx_menus.py:21-37 | every key a class passes to `new` is in `keymaps_name` |
| CtxMenuKeymaps.AllCallsKnown | dga_ui_tweak_ctx_menus.py:219-223 | registration never passes an unknown key, so it never raises |
| CtxMenuKeymaps.AllCallsLength | dga_ui_tweak_ctx_menus.py:219-223 | the registered calls number the sum, over the classes, of the lengths of their call tables |
| CtxMenuKeymaps.RegisteredCallCount | dga_ui_tweak_ctx_menus.py:208-223 | registration makes 21 calls |
| CtxMenuKeymaps.NewAll | dga_ui_tweak_ctx_menus.py:69-70 | a `create_keymaps` body adds its calls' bindings in order, or records nothing without a key configuration |
| CtxMenuKeymaps.CreateKeymaps | dga_ui_tweak_ctx_menus.py:126-193 | a class adds exactly its own bindings; the menus skip when no key configuration exists |
| CtxMenuKeymaps.Register | dga_ui_tweak_ctx_menus.py:219-223 | with a key configuration all bindings are added in class order and 21 pairs recorded; without one nothing is recorded |
| CtxMenuOperators.ToggledAreaType | dga_ui_tweak_ctx_menus.py:73-76 | OUTLINER becomes PROPERTIES, PROPERTIES becomes OUTLINER, and any other type stays |
| CtxMenuOperators.ToggleInvolution | dga_ui_tweak_ctx_menus.py:72-77 | toggling twice restores the type, and the toggle keeps a type inside or outside the pair |
| CtxMenuOperators.ToggleProperties | dga_ui_tweak_ctx_menus.py:72-77 | the area's new type is the toggled old type |
| CtxMenuOperators.FlippedTimes | dga_ui_tweak_ctx_menus.py:96 | an even number of flips keeps the position, an odd number flips it |
| CtxMenuOperators.Flipped | dga_ui_tweak_ctx_menus.py:96 | one flip always changes the pose position |
| CtxMenuOperators.Scene.Resolved | dga_ui_tweak_ctx_menus.py:92-95 | definition: the set of armatures the selected objects climb to, each once, objects with none ignored |
| CtxMenuOperators.Scene.ArmatureOf | dga_ui_tweak_ctx_menus.py:93-94 | the result, when there is one, is an armature at a position no later than the object's, and it is the object itself when that is an armature; the parent-chain meaning is `Scene.ArmatureOfNearest` |
| CtxMenuOperators.Scene.ArmatureOfNearest | dga_ui_tweak_ctx_menus.py:93-94 | `ArmatureOf` gives `a` exactly when `a` is an armature on the object's parent chain (the object included) with no armature between them, and gives none exactly when that chain holds no armature |
| CtxMenuOperators.Scene.NearestArmature | dga_ui_tweak_ctx_menus.py:93-94 | the parent-chain loop stops at the nearest armature, or at none past the root |
| CtxMenuOperators.Scene.TogglePosePositions | dga_ui_tweak_ctx_menus.py:90-98 | each data block is flipped once per distinct armature the selection resolves to that uses it |
| CtxMenuOperators.Scene.FlipStep | dga_ui_tweak_ctx_menus.py:95-97 | flipping one more new armature counts it once for its data block |
| CtxMenuOperators.Scene.ResolvedStep | dga_ui_tweak_ctx_menus.py:92-95 | one more selected object adds its armature, if any, to the resolved set |
| CtxMenuOperators.Scene.DistinctArmaturesFlipOnce | dga_ui_tweak_ctx_menus.py:90-98 | when armatures do not share data, each resolved armature is flipped exactly once and every other data block is left alone |
| CtxMenuOperators.ToggleSimplify | dga_ui_tweak_ctx_menus.py:111-113 | simplification switches the other way |
| CtxMenuOperators.PivotPoll | dga_ui_tweak_ctx_menus.py:122-123 | definition: the pivot menu is offered unless the editor is a clip editor with no clip |
| CtxMenuOperators.PivotPollInputs | dga_ui_tweak_ctx_menus.py:122-123 | the answer depends only on the editor type and the clip; the modes and tool settings never change it, and outside the clip editor the menu is always offered |
| CtxMenuOperators.FalloffPoll | dga_ui_tweak_ctx_menus.py:161-168 | definition: the clip editor first (mask mode with mask proportional editing), then object mode (the object setting), then any other mode (proportional editing not DISABLED) |
| CtxMenuOperators.FalloffPollInputs | dga_ui_tweak_ctx_menus.py:161-168 | two contexts get the same answer when they agree on what their case reads: in a clip editor the editor mode and mask setting, whatever the context mode and other settings; in object mode the object setting; in other modes the proportional-editing setting |
| CtxMenuOperators.PollsDisagreeWithoutClip | dga_ui_tweak_ctx_menus.py:122-168 | in a clip editor without a clip, in mask mode with mask proportional editing on, the pivot menu is refused while the falloff menu is offered |
| CtxMenuOperators.SculptBrushes | dga_ui_tweak_ctx_menus.py:196 | a brush is listed exactly when it is a sculpt brush |
| CtxMenuOperators.ColumnCount | dga_ui_tweak_ctx_menus.py:197-199 | the columns hold every brush at 8 per column, and one column fewer would not |
| CtxMenuOperators.ColumnCountLeast | dga_ui_tweak_ctx_menus.py:197-199 | the count is the least that holds every brush, and 0 exactly for no brushes |
| CtxMenuOperators.DrawSculptMenu | dga_ui_tweak_ctx_menus.py:195-205 | the column count is `ColumnCount` of the sculpt brushes; the i-th button shows the i-th brush and sets index i in sculpt mode |
| CtxMenuOperators.SculptMenuComplete | dga_ui_tweak_ctx_menus.py:195-205 | every sculpt brush gets a button and fits in the columns |
| WalkFlyKeymaps.ModalBindings | dga_walk_fly_mode_azerty.py:19-22 | one binding per spec, on the named modal keymap of the empty space |
| WalkFlyKeymaps.WalkFlyAddon.AddModal | dga_walk_fly_mode_azerty.py:19-31 | a modal keymap's bindings are added and recorded in order |
| WalkFlyKeymaps.WalkFlyAddon.Register | dga_walk_fly_mode_azerty.py:16-47 | with a key configuration the Fly bindings, then the Walk bindings, are added; without one nothing is recorded |
| WalkFlyKeymaps.WalkFlyAddon.Unregister | dga_walk_fly_mode_azerty.py:49-52 | every recorded item is gone from its keymap, the rest stay, and the list is empty |
| WalkFlyKeymaps.TwoModalRecords | dga_walk_fly_mode_azerty.py:19-47 | two modal keymaps' bindings give one record per spec, in order, each naming a fresh item holding its spec in the right keymap |
| WalkFlyKeymaps.RegisterRecords | dga_walk_fly_mode_azerty.py:19-47 | registration records 22 pairs: 10 Fly items, then 12 Walk items, each holding its table entry |
| WalkFlyKeymaps.FlyDirections | dga_walk_fly_mode_azerty.py:22-29 | Fly mode binds FORWARD/BACKWARD/LEFT/RIGHT to Z/S/Q/D, UP to E and R, and DOWN to A and F |
| WalkFlyKeymaps.WalkPressReleasePairs | dga_walk_fly_mode_azerty.py:36-47 | each of the six Walk presses has a `_STOP` release on the same key |
| WalkFlyKeymaps.AnyModifier | dga_walk_fly_mode_azerty.py:22-47 | every Walk item accepts any modifier and no Fly item does |
| WalkFlyKeymaps.FlyHasNoConflicts | dga_walk_fly_mode_azerty.py:22-31 | no (key, event) pair of the Fly table is bound to two actions |
| WalkFlyKeymaps.WalkHasNoConflicts | dga_walk_fly_mode_azerty.py:36-47 | no (key, event) pair of the Walk table is bound to two actions |

## Left out

- Vector and quaternion maths of the bakes (`mathutils`, `copysign`, `rotation_difference`, the `radians(25)` and `4*pi` steering scale): floating-point geometry, supplied as the opaque `Maths` value.
- Host curve interpolation (`fcurve.evaluate`, `fcurve.range`): supplied as the opaque `Host` value. Frames are integers, so the `int()` truncation of a float range is not modelled.
- Constraint and driver wiring in `Generate` and `add_wheel_constraints`, edit-bone geometry, `mode_set` and matrix maths in `_create_bone`: host state and float matrices. Only the bone names, which decide the layers, are modelled.
- Panels, the menus' `draw` layout calls apart from the sculpt menu's buttons, `menu_func`, `bpy.utils.register_class` / `unregister_class`: host UI and registration plumbing.
- The operators' `poll` methods in car_rig.py, and the bone lookups by name in the `execute` methods: host lookups.
- The assignment `context.object.data['wheels_on_y_axis'] = False` that `BakeWheelRotationOperator.execute` makes after baking: a custom property of the armature that the wheel driver's Transformation constraint reads. Constraints and drivers are not modelled.
- `region_type='WINDOW'` of the walk/fly keymaps: keymaps are found by name and space type only.
- The `properties.name` assignment on a menu item is modelled as the item's `menu` field, set when the item is created.
- The host's item identities are modelled as a counter in the key configuration. `keymap_items.remove` of an item the keymap does not hold, which raises, is a precondition that the add-ons' invariants always meet.
- The add-on key configuration is fixed for the life of an add-on object; the host replacing it between calls is not modelled.
- Objects of a scene are numbered, with each parent before its child, so parent chains always end; arbitrary object identity is not modelled.
- Strings.Replace: only non-empty patterns are modelled, the only ones the rig uses.
- Bake.SpeedRatio, Bake.Scale: float division and multiplication are exact real arithmetic; rounding, overflow and inf/NaN are not modelled. With doubles `1.0 / z * z` need not be exactly 1.0, and `1.0 / inf` is 0.0.
- WalkFlyKeymaps.WalkFlyAddon.AddModal: requires at least one spec. With none, `keymaps.new` would still create an empty keymap that the fold of bindings does not create. `register` always passes ten or twelve.
- Actions.Action.New, Bake.ReplaceCurve, Bake.Rebaked: the host files a curve created with a group among that group's curves, after the group's last curve, or, for a new group, after the earlier groups' curves and ahead of ungrouped ones. The model appends the new curve at the end of the action's curves. No lookup depends on where it sits, because every key has at most one curve.
- Actions.Action.New: requires that no curve has the key, because the host refuses a duplicate. The bakes always remove the old curve first.
- `dga_walk_fly_mode_azerty.py` and the context-menu add-on see `keymaps.new` as find-or-create by name and space type, which is the host's behaviour. The host's own code is not part of this model.
