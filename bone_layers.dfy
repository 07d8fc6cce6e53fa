/**
 * Bone-layer classification of the car rig (car_rig.py, `apply_layer`) and the bone
 * names the generator and the meta-rig operator derive, which decide the layer each
 * generated bone lands on.
 */
module BoneLayers {
  import opened Strings

  /** The armature has 32 bone layers; each bone's visibility is a 32-slot mask. */
  const LAYER_COUNT: nat := 32

  const ANIM_BONE_LAYER: nat := 0
  const GROUND_SENSOR_BONE_LAYER: nat := 1
  const DEF_BONE_LAYER: nat := 30
  const MCH_BONE_LAYER: nat := 31

  const DEF_PREFIX: string := "DEF-"
  const MCH_PREFIX: string := "MCH-"
  const GROUND_SENSOR: string := "GroundSensor"

  /**
   * The layer `apply_layer` switches on for a bone name: deforming bones (`DEF-`)
   * first, then mechanism bones (`MCH-`), split into ground sensors and the rest,
   * and every other bone on the animation layer.
   */
  function LayerOf(name: string): (layer: nat)
    ensures layer < LAYER_COUNT
    ensures layer in {ANIM_BONE_LAYER, GROUND_SENSOR_BONE_LAYER, DEF_BONE_LAYER, MCH_BONE_LAYER}
  {
    if StartsWith(name, DEF_PREFIX) then DEF_BONE_LAYER
    else if StartsWith(name, MCH_PREFIX) then
      if Contains(name, GROUND_SENSOR) then GROUND_SENSOR_BONE_LAYER else MCH_BONE_LAYER
    else ANIM_BONE_LAYER
  }

  /** The mask with exactly the given layer switched on. */
  function LayerMask(layer: nat): (mask: seq<bool>)
    requires layer < LAYER_COUNT
    ensures |mask| == LAYER_COUNT
  {
    seq(LAYER_COUNT, i => i == layer)
  }

  /** Number of `true` slots of a mask. */
  function CountOn(mask: seq<bool>): nat {
    if mask == [] then 0 else (if mask[0] then 1 else 0) + CountOn(mask[1..])
  }

  /** An edit bone: its name is fixed, its layer mask is assigned by `ApplyLayer`. */
  class Bone {
    const name: string
    var layers: seq<bool>

    constructor (name: string, layers: seq<bool>)
      ensures this.name == name && this.layers == layers
    {
      this.name := name;
      this.layers := layers;
    }
  }

  /**
   * `apply_layer(bone)`: starts from 32 cleared slots, switches on the one slot the
   * name selects, and assigns the mask to the bone.
   */
  method ApplyLayer(bone: Bone)
    modifies bone
    ensures |bone.layers| == LAYER_COUNT
    ensures forall i :: 0 <= i < LAYER_COUNT ==> (bone.layers[i] <==> i == LayerOf(bone.name))
  {
    var layers := new bool[LAYER_COUNT](_ => false);
    var layer := LayerOf(bone.name);
    layers[layer] := true;
    bone.layers := layers[..];
  }

  /** The generator's final pass: `apply_layer` on every edit bone of the armature. */
  method ApplyLayers(bones: seq<Bone>)
    modifies set b | b in bones
    ensures forall b :: b in bones ==> b.layers == LayerMask(LayerOf(b.name))
  {
    for k := 0 to |bones|
      invariant forall j :: 0 <= j < k ==> bones[j].layers == LayerMask(LayerOf(bones[j].name))
    {
      ApplyLayer(bones[k]);
      assert bones[k].layers == LayerMask(LayerOf(bones[k].name));
    }
  }

  /** Whatever the name, `apply_layer` produces a 32-slot mask with exactly one slot on. */
  lemma {:induction false} MaskHasOneLayer(layer: nat)
    requires layer < LAYER_COUNT
    ensures CountOn(LayerMask(layer)) == 1
  {
    CountOnSingle(LayerMask(layer), layer);
  }

  lemma {:induction false} CountOnSingle(mask: seq<bool>, layer: nat)
    requires layer < |mask|
    requires forall i :: 0 <= i < |mask| ==> (mask[i] <==> i == layer)
    ensures CountOn(mask) == 1
  {
    if layer == 0 {
      CountOnNone(mask[1..]);
    } else {
      CountOnSingle(mask[1..], layer - 1);
    }
  }

  lemma {:induction false} CountOnNone(mask: seq<bool>)
    requires forall i :: 0 <= i < |mask| ==> !mask[i]
    ensures CountOn(mask) == 0
  {
    if mask != [] {
      CountOnNone(mask[1..]);
    }
  }

  /**
   * The classification order, stated layer by layer in both directions: a `DEF-`
   * name is a deforming bone even when it mentions a ground sensor, and only
   * `MCH-` names mentioning "GroundSensor" reach the sensor layer.
   */
  lemma LayerCharacterisation(name: string)
    ensures LayerOf(name) == DEF_BONE_LAYER <==> StartsWith(name, DEF_PREFIX)
    ensures LayerOf(name) == GROUND_SENSOR_BONE_LAYER
      <==> StartsWith(name, MCH_PREFIX) && Contains(name, GROUND_SENSOR)
    ensures LayerOf(name) == MCH_BONE_LAYER
      <==> StartsWith(name, MCH_PREFIX) && !Contains(name, GROUND_SENSOR)
    ensures LayerOf(name) == ANIM_BONE_LAYER
      <==> !StartsWith(name, DEF_PREFIX) && !StartsWith(name, MCH_PREFIX)
  {
    if StartsWith(name, MCH_PREFIX) {
      assert name[..|DEF_PREFIX|][0] == 'M';
    }
  }

  // ---------------------------------------------------------------------------
  // Names derived by the generator (`Generate`) and the meta-rig operator.

  /** The four wheel bones of the meta-rig that `Generate` walks over. */
  const WHEELS: seq<string> := ["DEF-Wheel.Ft.L", "DEF-Wheel.Ft.R", "DEF-Wheel.Bk.L", "DEF-Wheel.Bk.R"]

  /** The ground-sensor bone created beside a wheel: `w.replace('DEF-Wheel', 'MCH-GroundSensor')`. */
  function SensorName(wheel: string): string {
    Replace(wheel, "DEF-Wheel", "MCH-GroundSensor")
  }

  /** `_create_bone` names the meta-rig bone for a part `'DEF-' + name`. */
  function MetaRigBoneName(part: string): string {
    DEF_PREFIX + part
  }

  /** The five parts `AddCarMetaRig.execute` creates bones for. */
  const META_RIG_PARTS: seq<string> := ["Body", "Wheel.Ft.L", "Wheel.Ft.R", "Wheel.Bk.L", "Wheel.Bk.R"]

  /** Every bone named after a wheel bone lands on the ground-sensor layer. */
  lemma SensorNameLayer(wheel: string)
    requires StartsWith(wheel, "DEF-Wheel")
    ensures LayerOf(SensorName(wheel)) == GROUND_SENSOR_BONE_LAYER
  {
    var s := SensorName(wheel);
    ReplacePrefix(wheel, "DEF-Wheel", "MCH-GroundSensor");
    assert s[..|MCH_PREFIX|] == MCH_PREFIX;
    assert s[..|DEF_PREFIX|] != DEF_PREFIX by {
      assert s[0] == 'M';
    }
    assert s[4..4 + |GROUND_SENSOR|] == GROUND_SENSOR;
    assert OccursAt(s, GROUND_SENSOR, 4);
  }

  /** The sensors of the four wheels are exactly the bones the wheel constraints target. */
  lemma SensorNames()
    ensures SensorName(WHEELS[0]) == "MCH-GroundSensor.Ft.L"
    ensures SensorName(WHEELS[1]) == "MCH-GroundSensor.Ft.R"
    ensures SensorName(WHEELS[2]) == "MCH-GroundSensor.Bk.L"
    ensures SensorName(WHEELS[3]) == "MCH-GroundSensor.Bk.R"
    ensures forall w :: w in WHEELS ==> LayerOf(SensorName(w)) == GROUND_SENSOR_BONE_LAYER
  {
    forall k | 0 <= k < 4
      ensures SensorName(WHEELS[k]) == "MCH-GroundSensor" + WHEELS[k][9..]
      ensures LayerOf(SensorName(WHEELS[k])) == GROUND_SENSOR_BONE_LAYER
    {
      WheelSensor(WHEELS[k]);
      SensorNameLayer(WHEELS[k]);
    }
  }

  /** A short wheel name keeps its side suffix after the prefix is replaced. */
  lemma WheelSensor(w: string)
    requires StartsWith(w, "DEF-Wheel") && |w| < 18
    ensures SensorName(w) == "MCH-GroundSensor" + w[9..]
  {
    ReplacePrefix(w, "DEF-Wheel", "MCH-GroundSensor");
    assert |w[9..]| < 9;
  }

  /** Every meta-rig bone, whatever its part name, lands on the deforming layer. */
  lemma MetaRigBoneLayer(part: string)
    ensures LayerOf(MetaRigBoneName(part)) == DEF_BONE_LAYER
  {
    assert MetaRigBoneName(part)[..|DEF_PREFIX|] == DEF_PREFIX;
  }

  /** The meta-rig wheel bones are the four wheels `Generate` expects to find. */
  lemma MetaRigWheels()
    ensures forall k :: 1 <= k < 5 ==> MetaRigBoneName(META_RIG_PARTS[k]) == WHEELS[k - 1]
    ensures MetaRigBoneName(META_RIG_PARTS[0]) == "DEF-Body"
  {
  }

  /** The bones `Generate` creates itself, in creation order (sensors follow the damper). */
  const GENERATED_BONES: seq<string> := [
    "Root", "MCH-Wheel.engine", "MCH-axis", "MCH-Damper.center", "Steering",
    "MCH-Damper.Ft", "MCH-Damper.Bk", "Damper",
    "MCH-GroundSensor.Ft.L", "MCH-GroundSensor.Ft.R", "MCH-GroundSensor.Bk.L", "MCH-GroundSensor.Bk.R",
    "Wheel rotation"]

  /**
   * Layers of the generated rig: the controls a user animates stay on layer 0,
   * the sensors on layer 1 and the other mechanism bones on layer 31.
   */
  lemma GeneratedBoneLayers()
    ensures forall k :: k in {0, 4, 7, 12} ==> LayerOf(GENERATED_BONES[k]) == ANIM_BONE_LAYER
    ensures forall k :: k in {1, 2, 3, 5, 6} ==> LayerOf(GENERATED_BONES[k]) == MCH_BONE_LAYER
    ensures forall k :: 8 <= k < 12 ==> LayerOf(GENERATED_BONES[k]) == GROUND_SENSOR_BONE_LAYER
  {
    AnimationBones();
    MechanismBones();
    SensorBones();
  }

  lemma AnimationBones()
    ensures forall k :: k in {0, 4, 7, 12} ==> LayerOf(GENERATED_BONES[k]) == ANIM_BONE_LAYER
  {
    forall k | k in {0, 4, 7, 12} ensures LayerOf(GENERATED_BONES[k]) == ANIM_BONE_LAYER {
      AnimationLayer(GENERATED_BONES[k]);
    }
  }

  lemma MechanismBones()
    ensures forall k :: k in {1, 2, 3, 5, 6} ==> LayerOf(GENERATED_BONES[k]) == MCH_BONE_LAYER
  {
    forall k | k in {1, 2, 3, 5, 6} ensures LayerOf(GENERATED_BONES[k]) == MCH_BONE_LAYER {
      MechanismLayer(GENERATED_BONES[k]);
    }
  }

  lemma SensorBones()
    ensures forall k :: 8 <= k < 12 ==> LayerOf(GENERATED_BONES[k]) == GROUND_SENSOR_BONE_LAYER
  {
    forall k | 8 <= k < 12 ensures LayerOf(GENERATED_BONES[k]) == GROUND_SENSOR_BONE_LAYER {
      SensorLayer(GENERATED_BONES[k]);
    }
  }

  /** A name that starts neither `DEF-` nor `MCH-` is an animation bone. */
  lemma AnimationLayer(n: string)
    requires |n| >= 4 && n[0] != 'M' && n[1] != 'E'
    ensures LayerOf(n) == ANIM_BONE_LAYER
  {
    assert n[..4][1] != 'E' && n[..4][0] != 'M';
  }

  /** A `MCH-` name without a `G` anywhere is a plain mechanism bone. */
  lemma MechanismLayer(n: string)
    requires |n| >= 4 && n[..4] == MCH_PREFIX
    requires forall j :: 0 <= j < |n| ==> n[j] != 'G'
    ensures LayerOf(n) == MCH_BONE_LAYER
  {
    assert n[..4] != DEF_PREFIX by { assert n[0] == 'M'; }
    forall i | 0 <= i <= |n| - |GROUND_SENSOR| ensures !OccursAt(n, GROUND_SENSOR, i) {
      assert n[i..i + |GROUND_SENSOR|][0] == n[i] != GROUND_SENSOR[0];
    }
  }

  /** A name starting `MCH-GroundSensor` is a ground sensor. */
  lemma SensorLayer(n: string)
    requires |n| >= 16 && n[..16] == MCH_PREFIX + GROUND_SENSOR
    ensures LayerOf(n) == GROUND_SENSOR_BONE_LAYER
  {
    assert n[..4] == MCH_PREFIX && n[4..16] == GROUND_SENSOR by {
      assert n[..4] == n[..16][..4] && n[4..16] == n[..16][4..];
    }
    assert n[..4] != DEF_PREFIX by { assert n[0] == 'M'; }
    assert OccursAt(n, GROUND_SENSOR, 4);
  }

}
