/**
 * The light entities LightStorage keeps: RPLight with its point-light
 * variant RPPointLight, the older Light class, and the ShadowSource views a
 * shadow-casting light owns.
 */
module Lights {
  import opened Wrappers
  import opened Commands
  import opened Atlas

  /**
   * `RPLight::LightType`. The enumeration is declared in RPLight.h, which is
   * not part of this model; its tags are taken to be 0, 1 and 2 in this order.
   */
  datatype LightType = EmptyLight | PointLight | SpotLight

  /** The integer a light type is pushed as. */
  function TypeCode(t: LightType): int
  {
    match t
    case EmptyLight => 0
    case PointLight => 1
    case SpotLight => 2
  }

  /** The arguments of `ShadowSource::set_perspective_lens`. */
  datatype Lens = Lens(fov: real, nearPlane: real, farPlane: real, position: Vec3, direction: Vec3)

  /** The cube-face directions of a point light: +X, -X, +Y, -Y, +Z, -Z. */
  const CubeDirections: seq<Vec3> := [
    Vec3(1.0, 0.0, 0.0), Vec3(-1.0, 0.0, 0.0),
    Vec3(0.0, 1.0, 0.0), Vec3(0.0, -1.0, 0.0),
    Vec3(0.0, 0.0, 1.0), Vec3(0.0, 0.0, -1.0)
  ]

  /** The field of view of every cube face: 90 degrees widened by 3 against seams. */
  const CubeFaceFov: real := 93.0

  /** The number of shadow sources of a point light, one per cube face. */
  const PointLightSources: nat := 6

  /**
   * The resolution a new shadow source has. ShadowSource.cpp is not part of
   * this model; this is the default the model assumes for it.
   */
  const DefaultSourceResolution: int := 512

  /**
   * One shadow-casting view of a light. The ShadowSource header is not part
   * of this model: only its calls in RPPointLight.cpp and LightStorage.cpp
   * are seen, and what a new source holds and which setters raise the update
   * flag are assumed here (see the constructor and the setters).
   */
  class ShadowSource {
    /** The light whose `init_shadow_sources` created this source. */
    ghost const owner: RPLight
    /** The cube face, that is the index in the owner's list, this source was created for. */
    ghost const face: nat
    var slot: int
    var resolution: int
    var region: Region
    var needsUpdate: bool
    var lens: Option<Lens>

    /** A new source has no slot and no region, the assumed default resolution, and needs an update (assumed). */
    constructor (ghost owner: RPLight, ghost face: nat)
      ensures this.owner == owner && this.face == face
      ensures slot == -1 && resolution == DefaultSourceResolution
      ensures region == NoRegion && needsUpdate && lens == None
    {
      this.owner := owner;
      this.face := face;
      slot := -1;
      resolution := DefaultSourceResolution;
      region := NoRegion;
      needsUpdate := true;
      lens := None;
    }

    /** `has_region`: the source holds a region other than the failure value. */
    predicate HasRegion()
      reads this
    {
      region != NoRegion
    }

    /** The state `update_shadow_sources` of the owner leaves: its resolution, its face's lens, awaiting a region. */
    ghost predicate Updated()
      reads this, owner`shadowMapResolution, owner`nearPlane, owner`radius, owner`position
    {
      face < |CubeDirections| && resolution == owner.shadowMapResolution &&
      lens == Some(owner.FaceLens(face)) && needsUpdate
    }

    /** `set_slot`. */
    method SetSlot(s: int)
      modifies this`slot
      ensures slot == s
    {
      slot := s;
    }

    /**
     * `set_resolution`, as RPPointLight.cpp calls it: the resolution is
     * stored, and the source is taken to need an update, a new resolution
     * invalidating its region (assumed, the header not being modelled).
     */
    method SetResolution(r: int)
      modifies this`resolution, this`needsUpdate
      ensures resolution == r && needsUpdate
    {
      resolution := r;
      needsUpdate := true;
    }

    /**
     * `set_perspective_lens`, as RPPointLight.cpp calls it: the lens is
     * stored, and the source is taken to need an update, a new projection
     * invalidating its region (assumed, the header not being modelled).
     */
    method SetPerspectiveLens(l: Lens)
      modifies this`lens, this`needsUpdate
      ensures lens == Some(l) && needsUpdate
    {
      lens := Some(l);
      needsUpdate := true;
    }

    /** `set_region`. */
    method SetRegion(r: Region)
      modifies this`region
      ensures region == r
    {
      region := r;
    }
  }

  /** The fields every light store command starts with, as the consumer reads them. */
  datatype LightRecord = LightRecord(slot: int, typeCode: int, iesProfile: int, position: Vec3, color: Vec3)

  /** The consumer's reading of the base fields of an RPLight store payload. */
  function DecodeBase(p: seq<Datum>): Option<LightRecord>
  {
    if |p| >= 5 && p[0].IntDatum? && p[1].IntDatum? && p[2].IntDatum? && p[3].Vec3Datum? && p[4].Vec3Datum?
    then Some(LightRecord(p[0].i, p[1].i, p[2].i, p[3].v, p[4].v))
    else None
  }

  /** The consumer's reading of a point light's trailing radius and inner radius. */
  function DecodePointExtras(p: seq<Datum>): Option<(real, real)>
  {
    if |p| == 7 && p[5].FloatDatum? && p[6].FloatDatum? then Some((p[5].f, p[6].f)) else None
  }

  /** The consumer's reading of an old-style Light payload, which has no IES field. */
  function DecodeLegacy(p: seq<Datum>): Option<LightRecord>
  {
    if |p| == 4 && p[0].IntDatum? && p[1].IntDatum? && p[2].Vec3Datum? && p[3].Vec3Datum?
    then Some(LightRecord(p[0].i, p[1].i, -1, p[2].v, p[3].v))
    else None
  }

  /**
   * An RPLight, or an RPPointLight when `isPoint` is set. The fields that
   * live in RPLight.h (shadow casting, shadow-map resolution, near plane)
   * are constructor arguments, since that header is not part of this model.
   */
  class RPLight {
    /** Whether the object was constructed as an RPPointLight. */
    const isPoint: bool
    var lightType: LightType
    var dirty: bool
    var slot: int
    var position: Vec3
    var color: Vec3
    var iesProfile: int
    var radius: real
    var innerRadius: real
    var castsShadows: bool
    var shadowMapResolution: int
    var nearPlane: real
    var shadowSources: seq<ShadowSource>
    /** References taken with `ref()` and not yet dropped with `unref()`. */
    var refs: int

    /** The light owns its shadow sources, each at its face index, and has no more than its variant creates. */
    ghost predicate SourcesOwned()
      reads this`shadowSources
    {
      (forall s :: s in shadowSources ==> s.owner == this) &&
      (forall i :: 0 <= i < |shadowSources| ==> shadowSources[i].face == i) &&
      (if isPoint then |shadowSources| <= PointLightSources else shadowSources == [])
    }

    /** `RPLight(light_type)`. */
    constructor (lightType: LightType, castsShadows: bool, shadowMapResolution: int, nearPlane: real)
      ensures !isPoint && this.lightType == lightType
      ensures !dirty && slot == -1 && iesProfile == -1
      ensures position == Vec3(0.0, 0.0, 0.0) && color == Vec3(1.0, 1.0, 1.0)
      ensures this.castsShadows == castsShadows && this.shadowMapResolution == shadowMapResolution
      ensures this.nearPlane == nearPlane
      ensures shadowSources == [] && refs == 0 && SourcesOwned()
    {
      isPoint := false;
      this.lightType := lightType;
      dirty := false;
      slot := -1;
      position := Vec3(0.0, 0.0, 0.0);
      color := Vec3(1.0, 1.0, 1.0);
      iesProfile := -1;
      radius, innerRadius := 0.0, 0.0;
      this.castsShadows := castsShadows;
      this.shadowMapResolution := shadowMapResolution;
      this.nearPlane := nearPlane;
      shadowSources := [];
      refs := 0;
    }

    /** `RPPointLight()`: an infinitely small point light of radius 10. */
    constructor Point(castsShadows: bool, shadowMapResolution: int, nearPlane: real)
      ensures isPoint && lightType == PointLight
      ensures radius == 10.0 && innerRadius == 0.0
      ensures !dirty && slot == -1 && iesProfile == -1
      ensures position == Vec3(0.0, 0.0, 0.0) && color == Vec3(1.0, 1.0, 1.0)
      ensures this.castsShadows == castsShadows && this.shadowMapResolution == shadowMapResolution
      ensures this.nearPlane == nearPlane
      ensures shadowSources == [] && refs == 0 && SourcesOwned()
    {
      isPoint := true;
      lightType := PointLight;
      dirty := false;
      slot := -1;
      position := Vec3(0.0, 0.0, 0.0);
      color := Vec3(1.0, 1.0, 1.0);
      iesProfile := -1;
      radius := 10.0;
      innerRadius := 0.0;
      this.castsShadows := castsShadows;
      this.shadowMapResolution := shadowMapResolution;
      this.nearPlane := nearPlane;
      shadowSources := [];
      refs := 0;
    }

    /** `has_slot`. */
    predicate HasSlot()
      reads this
    {
      slot >= 0
    }

    /** `assign_slot`. */
    method AssignSlot(s: int)
      modifies this`slot
      ensures slot == s
    {
      slot := s;
    }

    /** `remove_slot`. */
    method RemoveSlot()
      modifies this`slot
      ensures slot == -1 && !HasSlot()
    {
      slot := -1;
    }

    /** The light's setters mark it dirty. */
    method SetDirty()
      modifies this`dirty
      ensures dirty
    {
      dirty := true;
    }

    /** `unset_dirty_flag`. */
    method UnsetDirtyFlag()
      modifies this`dirty
      ensures !dirty
    {
      dirty := false;
    }

    /** `ref()`. */
    method Ref()
      modifies this`refs
      ensures refs == old(refs) + 1
    {
      refs := refs + 1;
    }

    /** `unref()`. */
    method Unref()
      modifies this`refs
      ensures refs == old(refs) - 1
    {
      refs := refs - 1;
    }

    /** The data `write_to_command` pushes, in push order. */
    function Payload(): seq<Datum>
      reads this`slot, this`lightType, this`iesProfile, this`position, this`color, this`radius, this`innerRadius
    {
      [IntDatum(slot), IntDatum(TypeCode(lightType)), IntDatum(iesProfile), Vec3Datum(position), Vec3Datum(color)] +
      (if isPoint then [FloatDatum(radius), FloatDatum(innerRadius)] else [])
    }

    /**
     * `write_to_command`: the base fields (slot, type, IES profile, position,
     * colour), then for a point light its radius and inner radius.
     */
    method WriteToCommand(cmd: Command) returns (r: Command)
      ensures r.kind == cmd.kind && r.payload == cmd.payload + Payload()
    {
      r := cmd.Push(IntDatum(slot));
      r := r.Push(IntDatum(TypeCode(lightType)));
      r := r.Push(IntDatum(iesProfile));
      r := r.Push(Vec3Datum(position));
      r := r.Push(Vec3Datum(color));
      if isPoint {
        r := r.Push(FloatDatum(radius));
        r := r.Push(FloatDatum(innerRadius));
      }
    }

    /**
     * `init_shadow_sources`: a point light with no sources creates one per
     * cube face. The assertion that the list is empty returns without
     * effect when it fails. Other light types are not part of this model
     * and create none.
     */
    method InitShadowSources()
      requires SourcesOwned()
      modifies this`shadowSources
      ensures SourcesOwned()
      ensures if isPoint && old(shadowSources) == []
        then |shadowSources| == PointLightSources &&
             forall s :: s in shadowSources ==> fresh(s) && s.slot == -1 && !s.HasRegion()
        else shadowSources == old(shadowSources)
    {
      if !isPoint || |shadowSources| != 0 {
        return;
      }
      var i := 0;
      while i < PointLightSources
        invariant 0 <= i <= PointLightSources && |shadowSources| == i
        invariant SourcesOwned()
        invariant forall s :: s in shadowSources ==> fresh(s) && s.slot == -1 && !s.HasRegion()
      {
        var s := new ShadowSource(this, i);
        shadowSources := shadowSources + [s];
        i := i + 1;
      }
    }

    /** The projection `update_shadow_sources` gives the source of face i. */
    function FaceLens(i: nat): Lens
      requires i < |CubeDirections|
      reads this`nearPlane, this`radius, this`position
    {
      Lens(CubeFaceFov, nearPlane, radius, position, CubeDirections[i])
    }

    /** Every source has the light's shadow-map resolution, the lens of its face, and awaits a new region. */
    ghost predicate SourcesUpdated()
      reads this`shadowSources, this`shadowMapResolution, this`nearPlane, this`radius, this`position
      reads shadowSources
    {
      forall i :: 0 <= i < |shadowSources| ==>
        i < |CubeDirections| && shadowSources[i].resolution == shadowMapResolution &&
        shadowSources[i].lens == Some(FaceLens(i)) && shadowSources[i].needsUpdate
    }

    /**
     * `update_shadow_sources`: every source gets the light's shadow-map
     * resolution and the lens of its cube face; the list itself, the
     * sources' slots and regions stay as they are.
     */
    method UpdateShadowSources()
      requires SourcesOwned()
      modifies shadowSources`resolution, shadowSources`lens, shadowSources`needsUpdate
      ensures SourcesUpdated()
      ensures forall s :: s in shadowSources ==> s.slot == old(s.slot) && s.region == old(s.region)
    {
      var i := 0;
      while i < |shadowSources|
        invariant 0 <= i <= |shadowSources|
        invariant forall k :: 0 <= k < i ==>
          shadowSources[k].resolution == shadowMapResolution &&
          shadowSources[k].lens == Some(FaceLens(k)) && shadowSources[k].needsUpdate
        invariant forall s :: s in shadowSources ==> s.slot == old(s.slot) && s.region == old(s.region)
      {
        shadowSources[i].SetResolution(shadowMapResolution);
        shadowSources[i].SetPerspectiveLens(FaceLens(i));
        i := i + 1;
      }
    }

    /** The consumer reads back exactly the fields the light wrote. */
    lemma PayloadRoundTrip()
      ensures DecodeBase(Payload()) == Some(LightRecord(slot, TypeCode(lightType), iesProfile, position, color))
      ensures isPoint ==> DecodePointExtras(Payload()) == Some((radius, innerRadius))
      ensures !isPoint ==> |Payload()| == 5
    {
    }

    /** The base part of the payload holds three integers and two vectors. */
    lemma {:induction false} PayloadShape()
      ensures CountInts(Payload()) == 3 && CountVec3s(Payload()) == 2
    {
      var d := [IntDatum(slot), IntDatum(TypeCode(lightType)), IntDatum(iesProfile), Vec3Datum(position)];
      CountsSnoc([], d[0]);
      CountsSnoc([d[0]], d[1]);
      CountsSnoc(d[..2], d[2]);
      CountsSnoc(d[..3], d[3]);
      CountsSnoc(d, Vec3Datum(color));
      assert [d[0]] + [d[1]] == d[..2] && d[..2] + [d[2]] == d[..3] && d[..3] + [d[3]] == d;
      var extra := if isPoint then [FloatDatum(radius), FloatDatum(innerRadius)] else [];
      CountsSnoc([], FloatDatum(radius));
      CountsSnoc([FloatDatum(radius)], FloatDatum(innerRadius));
      CountsAppend(d + [Vec3Datum(color)], extra);
      assert Payload() == d + [Vec3Datum(color)] + extra;
    }
  }

  /** The older `Light` class, whose command carries no IES profile. */
  class Light {
    var lightType: LightType
    var dirty: bool
    var slot: int
    var position: Vec3
    var color: Vec3

    /** `Light(light_type)`. */
    constructor (lightType: LightType)
      ensures this.lightType == lightType && !dirty && slot == -1
      ensures position == Vec3(0.0, 0.0, 0.0) && color == Vec3(1.0, 1.0, 1.0)
    {
      this.lightType := lightType;
      dirty := false;
      slot := -1;
      position := Vec3(0.0, 0.0, 0.0);
      color := Vec3(1.0, 1.0, 1.0);
    }

    /** The data `write_to_command` pushes, in push order. */
    function Payload(): seq<Datum>
      reads this
    {
      [IntDatum(slot), IntDatum(TypeCode(lightType)), Vec3Datum(position), Vec3Datum(color)]
    }

    /** `write_to_command`: slot, type, position, colour. */
    method WriteToCommand(cmd: Command) returns (r: Command)
      ensures r.kind == cmd.kind && r.payload == cmd.payload + Payload()
    {
      r := cmd.Push(IntDatum(slot));
      r := r.Push(IntDatum(TypeCode(lightType)));
      r := r.Push(Vec3Datum(position));
      r := r.Push(Vec3Datum(color));
    }

    /** The consumer reads back the fields; the IES slot reads as "none". */
    lemma PayloadRoundTrip()
      ensures DecodeLegacy(Payload()) == Some(LightRecord(slot, TypeCode(lightType), -1, position, color))
      ensures DecodeBase(Payload()) == None
    {
    }

    /** Two integers and two vectors, one integer fewer than RPLight writes. */
    lemma {:induction false} PayloadShape()
      ensures CountInts(Payload()) == 2 && CountVec3s(Payload()) == 2
    {
      var d := [IntDatum(slot), IntDatum(TypeCode(lightType)), Vec3Datum(position)];
      CountsSnoc([], d[0]);
      CountsSnoc([d[0]], d[1]);
      CountsSnoc(d[..2], d[2]);
      CountsSnoc(d, Vec3Datum(color));
      assert [d[0]] + [d[1]] == d[..2] && d[..2] + [d[2]] == d;
      assert Payload() == d + [Vec3Datum(color)];
    }
  }
}
