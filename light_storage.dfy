/**
 * LightStorage: the two fixed-capacity slot tables for lights and shadow
 * sources, their counters, the shadow atlas and the GPU command list, with
 * registration, removal and the per-frame update.
 */
module Storage {
  import opened Wrappers
  import opened Commands
  import opened Atlas
  import opened Lights
  import opened SlotTables

  /** What `add_light` did; the source reports the two failures on stderr. */
  datatype AddOutcome = Added(slot: nat) | AlreadySlotted | NoFreeSlot

  /** What `update` reads of a light-table entry: its dirty flag and the payload it would write. */
  datatype LightView = LightView(dirty: bool, payload: seq<Datum>)

  /** The light table as `update` sees it; empty entries read as None. */
  function Views(t: seq<RPLight?>): seq<Option<LightView>>
    reads t
  {
    seq(|t|, k requires 0 <= k < |t| reads t =>
      if t[k] == null then None else Some(LightView(t[k].dirty, t[k].Payload())))
  }

  /** The store commands `update` emits for a viewed table prefix: one per taken, dirty entry, in slot order. */
  function StoreCommandsOf(v: seq<Option<LightView>>): seq<Command>
  {
    if v == [] then []
    else
      var e := v[|v| - 1];
      StoreCommandsOf(v[..|v| - 1]) + (if e.Some? && e.value.dirty then [StoreCommand(e.value.payload)] else [])
  }

  /** The store commands `update` emits for the light table. */
  function StoreCommands(t: seq<RPLight?>): seq<Command>
    reads t
  {
    StoreCommandsOf(Views(t))
  }

  /** The sources `update` collects for a table prefix: taken entries that need an update, in slot order. */
  function DirtySources(t: seq<ShadowSource?>): seq<ShadowSource>
    reads t`needsUpdate
  {
    if t == [] then []
    else
      var s := t[|t| - 1];
      DirtySources(t[..|t| - 1]) + (if s != null && s.needsUpdate then [s] else [])
  }

  /** The regions `update` frees for the collected sources: each one that holds a region, in order. */
  function OldRegions(pending: seq<ShadowSource>): seq<Region>
    reads pending`region
  {
    if pending == [] then []
    else
      var s := pending[|pending| - 1];
      OldRegions(pending[..|pending| - 1]) + (if s.region != NoRegion then [s.region] else [])
  }

  /** The atlas events of freeing the given regions, in order. */
  function FreeEvents(rs: seq<Region>): (e: seq<AtlasEvent>)
    ensures |e| == |rs| && forall k :: 0 <= k < |rs| ==> e[k] == Freed(rs[k])
  {
    if rs == [] then [] else FreeEvents(rs[..|rs| - 1]) + [Freed(rs[|rs| - 1])]
  }

  /** The tiles per side `update` requests for each collected source, from its resolution. */
  function RequestedTiles(requiredTiles: int -> int, pending: seq<ShadowSource>): (n: seq<int>)
    reads pending`resolution
    ensures |n| == |pending| && forall k :: 0 <= k < |pending| ==> n[k] == requiredTiles(pending[k].resolution)
  {
    if pending == [] then []
    else RequestedTiles(requiredTiles, pending[..|pending| - 1]) + [requiredTiles(pending[|pending| - 1].resolution)]
  }

  /** The atlas events of reserving an n-by-n region for each request, with the regions the atlas returned. */
  function ReserveEvents(n: seq<int>, results: seq<Region>): (e: seq<AtlasEvent>)
    requires |n| == |results|
    ensures |e| == |n|
  {
    seq(|n|, k requires 0 <= k < |n| => Reserved(n[k], n[k], results[k]))
  }

  /** No later entry of `pending` is the k-th one: the k-th assignment is the last one it receives. */
  predicate LastOccurrence(pending: seq<ShadowSource>, k: nat)
    requires k < |pending|
  {
    forall j :: k < j < |pending| ==> pending[j] != pending[k]
  }

  class LightStorage {
    const lights: array<RPLight?>
    const shadowSources: array<ShadowSource?>
    const atlas: ShadowAtlas
    var numStoredLights: int
    var maxLightIndex: int
    var maxSourceIndex: int
    var numStoredSources: int
    /** The GPU command list the storage appends to. */
    var commands: seq<Command>
    /** Every shadow source a stored light owns is in the pool; the pool only grows. */
    ghost var sourcePool: seq<ShadowSource>

    /** The lights in the light table. */
    ghost function StoredLights(): set<RPLight>
      reads this, lights
    {
      set i | 0 <= i < lights.Length && lights[i] != null :: lights[i]
    }

    /** The shadow sources in the shadow-source table. */
    ghost function TableSources(): set<ShadowSource>
      reads this, shadowSources
    {
      set i | 0 <= i < shadowSources.Length && shadowSources[i] != null :: shadowSources[i]
    }

    /** The light table records each light at the slot it holds; counter and max index agree with it. */
    ghost predicate LightTableValid()
      reads this`numStoredLights, this`maxLightIndex, lights, lights[..]`slot
    {
      lights.Length > 0 &&
      (forall i :: 0 <= i < lights.Length && lights[i] != null ==> lights[i].slot == i) &&
      numStoredLights == Occupied(lights[..], null) &&
      maxLightIndex == Highest(lights[..], null)
    }

    /** Each stored light owns its shadow sources, and the pool holds them all. */
    ghost predicate OwnershipValid()
      reads this`sourcePool, lights, lights[..]`shadowSources
    {
      forall i :: 0 <= i < lights.Length && lights[i] != null ==>
        lights[i].SourcesOwned() && forall s :: s in lights[i].shadowSources ==> s in sourcePool
    }

    /** The max source index is the highest taken entry of the source table. */
    ghost predicate SourceTableValid()
      reads this, shadowSources
    {
      shadowSources.Length > 0 && maxSourceIndex == Highest(shadowSources[..], null)
    }

    ghost predicate Valid()
      reads this, lights, lights[..]`slot, lights[..]`shadowSources, shadowSources
    {
      LightTableValid() && OwnershipValid() && SourceTableValid()
    }

    /**
     * `LightStorage()`: both tables empty, counters and max indices 0. The
     * capacities, the atlas size in tiles and the atlas's tile function are
     * arguments here. The command list starts empty rather than absent.
     */
    constructor (maxLights: nat, maxSources: nat, atlasTiles: nat, requiredTiles: int -> int)
      requires maxLights > 0 && maxSources > 0
      ensures Valid() && fresh(lights) && fresh(shadowSources) && fresh(atlas)
      ensures lights.Length == maxLights && shadowSources.Length == maxSources
      ensures forall i :: 0 <= i < maxLights ==> lights[i] == null
      ensures forall i :: 0 <= i < maxSources ==> shadowSources[i] == null
      ensures numStoredLights == 0 && maxLightIndex == 0 && maxSourceIndex == 0 && numStoredSources == 0
      ensures commands == []
      ensures atlas.tilesPerSide == atlasTiles && atlas.requiredTiles == requiredTiles && atlas.occupied == {}
    {
      var ls := new RPLight?[maxLights];
      var ss := new ShadowSource?[maxSources];
      var i := 0;
      while i < maxLights
        invariant 0 <= i <= maxLights
        invariant forall k :: 0 <= k < i ==> ls[k] == null
      {
        ls[i] := null;
        i := i + 1;
      }
      i := 0;
      while i < maxSources
        invariant 0 <= i <= maxSources
        invariant forall k :: 0 <= k < i ==> ss[k] == null
        invariant forall k :: 0 <= k < maxLights ==> ls[k] == null
      {
        ss[i] := null;
        i := i + 1;
      }
      lights := ls;
      shadowSources := ss;
      numStoredLights := 0;
      maxLightIndex := 0;
      maxSourceIndex := 0;
      numStoredSources := 0;
      commands := [];
      sourcePool := [];
      atlas := new ShadowAtlas(atlasTiles, requiredTiles);
      new;
      HighestUnique(lights[..], null, 0);
      assert Occupied(lights[..], null) == 0 by {
        EmptyOccupied(lights[..], null);
      }
      HighestUnique(shadowSources[..], null, 0);
    }

    /**
     * `set_command_list`: the storage appends its commands to the given list
     * from now on. The list is its contents; the tables and the atlas are untouched.
     */
    method SetCommandList(list: seq<Command>)
      requires Valid()
      modifies this`commands
      ensures Valid() && commands == list
    {
      commands := list;
    }

    /** `find_light_slot`: the first empty light slot, or -1 when the table is full. */
    method FindLightSlot() returns (slot: int)
      ensures slot == FirstEmpty(lights[..], null)
    {
      slot := 0;
      while slot < lights.Length
        invariant 0 <= slot <= lights.Length
        invariant forall k :: 0 <= k < slot ==> lights[k] != null
      {
        if lights[slot] == null {
          return;
        }
        slot := slot + 1;
      }
      slot := -1;
    }

    /** `find_shadow_slot`: the first empty shadow-source slot, or -1 when the table is full. */
    method FindShadowSlot() returns (slot: int)
      ensures slot == FirstEmpty(shadowSources[..], null)
    {
      slot := 0;
      while slot < shadowSources.Length
        invariant 0 <= slot <= shadowSources.Length
        invariant forall k :: 0 <= k < slot ==> shadowSources[k] != null
      {
        if shadowSources[slot] == null {
          return;
        }
        slot := slot + 1;
      }
      slot := -1;
    }

    /** `update_max_light_index`: a downward rescan from the old maximum. */
    method UpdateMaxLightIndex()
      requires 0 <= maxLightIndex < lights.Length
      requires forall k :: maxLightIndex < k < lights.Length ==> lights[k] == null
      modifies this`maxLightIndex
      ensures maxLightIndex == Highest(lights[..], null)
    {
      while maxLightIndex > 0 && lights[maxLightIndex] == null
        invariant 0 <= maxLightIndex < lights.Length
        invariant forall k :: maxLightIndex < k < lights.Length ==> lights[k] == null
      {
        maxLightIndex := maxLightIndex - 1;
      }
      HighestUnique(lights[..], null, maxLightIndex);
    }

    /**
     * `setup_shadows`: the light creates its shadow sources, then each one in
     * turn takes the first empty shadow slot and records it, raising the max
     * source index; at the first source for which no slot is left, the rest
     * stay without a slot.
     */
    method SetupShadows(light: RPLight) returns (ghost placed: seq<int>)
      requires Valid() && light.SourcesOwned()
      requires light.HasSlot() && light.slot < lights.Length && lights[light.slot] == light
      modifies this`maxSourceIndex, this`sourcePool, shadowSources
      modifies light`shadowSources, light.shadowSources`slot
      ensures Valid() && light.SourcesOwned()
      ensures if light.isPoint && old(light.shadowSources) == []
        then |light.shadowSources| == PointLightSources &&
             forall s :: s in light.shadowSources ==> fresh(s) && !s.HasRegion()
        else light.shadowSources == old(light.shadowSources)
      ensures (shadowSources[..], placed) == Place(old(shadowSources[..]), null, light.shadowSources)
      ensures forall k :: 0 <= k < |placed| ==> light.shadowSources[k].slot == placed[k]
      ensures old(light.shadowSources) == [] ==>
        forall k :: |placed| <= k < |light.shadowSources| ==> light.shadowSources[k].slot == -1
      ensures old(light.shadowSources) != [] ==>
        forall k :: |placed| <= k < |light.shadowSources| ==>
          light.shadowSources[k].slot == old(light.shadowSources[k].slot)
    {
      InitSources(light);
      placed := AssignShadowSlots(light.shadowSources);
    }

    /** `init_shadow_sources` on a light of the table; the pool takes the sources it creates. */
    method InitSources(light: RPLight)
      requires OwnershipValid() && light.SourcesOwned()
      modifies this`sourcePool, light`shadowSources
      ensures OwnershipValid() && light.SourcesOwned()
      ensures if light.isPoint && old(light.shadowSources) == []
        then |light.shadowSources| == PointLightSources && fresh(set s | s in light.shadowSources) &&
             forall s :: s in light.shadowSources ==> s.slot == -1 && !s.HasRegion()
        else light.shadowSources == old(light.shadowSources)
    {
      light.InitShadowSources();
      sourcePool := sourcePool + light.shadowSources;
    }

    /**
     * One iteration of the slot loop of `setup_shadows`: the source takes
     * the first empty shadow slot, if any, and the max source index covers it.
     */
    method PlaceSource(src: ShadowSource) returns (slot: int)
      requires SourceTableValid()
      modifies this`maxSourceIndex, shadowSources, src`slot
      ensures SourceTableValid()
      ensures slot == FirstEmpty(old(shadowSources[..]), null)
      ensures slot < 0 ==> unchanged(this, shadowSources, src)
      ensures slot >= 0 ==> shadowSources[..] == old(shadowSources[..])[slot := src] && src.slot == slot
    {
      slot := FindShadowSlot();
      if slot < 0 {
        return;
      }
      HighestFill(shadowSources[..], null, slot, src);
      shadowSources[slot] := src;
      src.SetSlot(slot);
      if maxSourceIndex < slot {
        maxSourceIndex := slot;
      }
    }

    /** The slot loop of `setup_shadows`, over the sources the light created. */
    method AssignShadowSlots(srcs: seq<ShadowSource>) returns (ghost placed: seq<int>)
      requires SourceTableValid()
      requires forall i, j :: 0 <= i < j < |srcs| ==> srcs[i] != srcs[j]
      modifies this`maxSourceIndex, shadowSources, srcs`slot
      ensures SourceTableValid()
      ensures (shadowSources[..], placed) == Place(old(shadowSources[..]), null, srcs)
      ensures forall k :: 0 <= k < |placed| ==> srcs[k].slot == placed[k]
      ensures forall k :: |placed| <= k < |srcs| ==> srcs[k].slot == old(srcs[k].slot)
    {
      ghost var t0 := shadowSources[..];
      ghost var s0 := SlotsOf(srcs);
      placed := [];
      var i := 0;
      PlaceFrom(t0, srcs, 0);
      assert Placing(t0, shadowSources[..], srcs, 0, placed);
      while i < |srcs|
        invariant 0 <= i <= |srcs| && |placed| == i
        invariant SourceTableValid()
        invariant Placing(t0, shadowSources[..], srcs, i, placed)
        invariant forall k :: 0 <= k < i ==> srcs[k].slot == placed[k]
        invariant forall k :: i <= k < |srcs| ==> srcs[k].slot == s0[k]
      {
        var slot, placed' := AssignStep(srcs, i, t0, s0, placed);
        if slot < 0 {
          return;
        }
        placed := placed';
        i := i + 1;
      }
      PlacingDone(t0, shadowSources[..], srcs, placed);
    }

    /**
     * One pass of the slot loop: source `i` takes the first empty slot and
     * placement goes on, or the table is full and placement stops.
     */
    method AssignStep(srcs: seq<ShadowSource>, i: nat, ghost t0: seq<ShadowSource?>, ghost s0: seq<int>, ghost placed: seq<int>)
      returns (slot: int, ghost placed': seq<int>)
      requires SourceTableValid() && i < |srcs| == |s0|
      requires forall a, b :: 0 <= a < b < |srcs| ==> srcs[a] != srcs[b]
      requires Placing(t0, shadowSources[..], srcs, i, placed)
      requires forall k :: 0 <= k < i ==> srcs[k].slot == placed[k]
      requires forall k :: i <= k < |srcs| ==> srcs[k].slot == s0[k]
      modifies this`maxSourceIndex, shadowSources, {srcs[i]}`slot
      ensures SourceTableValid()
      ensures slot < 0 ==>
        Place(t0, null, srcs) == (shadowSources[..], placed) &&
        (forall k :: 0 <= k < i ==> srcs[k].slot == placed[k]) &&
        (forall k :: i <= k < |srcs| ==> srcs[k].slot == s0[k])
      ensures slot >= 0 ==>
        placed' == placed + [slot] && Placing(t0, shadowSources[..], srcs, i + 1, placed') &&
        (forall k :: 0 <= k < i + 1 ==> srcs[k].slot == placed'[k]) &&
        (forall k :: i + 1 <= k < |srcs| ==> srcs[k].slot == s0[k])
    {
      ghost var t := shadowSources[..];
      slot := PlaceSource(srcs[i]);
      placed' := placed;
      if slot < 0 {
        PlaceStop(t, srcs, i);
        assert shadowSources[..] == t && placed + [] == placed;
        return;
      }
      PlaceAdvance(t0, t, srcs, i, placed);
      placed' := placed + [slot];
    }

    /** The store half of `add_light`: the light takes the given empty slot. */
    method StoreLight(light: RPLight, slot: int)
      requires LightTableValid() && OwnershipValid() && light.SourcesOwned() && !light.HasSlot()
      requires slot == FirstEmpty(lights[..], null) >= 0
      modifies this`numStoredLights, this`maxLightIndex, this`sourcePool, lights, light`slot
      ensures LightTableValid() && OwnershipValid()
      ensures light.slot == slot && lights[..] == old(lights[..])[slot := light]
      ensures numStoredLights == old(numStoredLights) + 1
      ensures maxLightIndex == (if old(maxLightIndex) < slot then slot else old(maxLightIndex))
    {
      ghost var before := lights[..];
      assert light !in before;
      FillLightSlot(light, slot);
      light.AssignSlot(slot);
      sourcePool := sourcePool + light.shadowSources;
      forall i | 0 <= i < lights.Length && lights[i] != null
        ensures lights[i].slot == i && lights[i].SourcesOwned() && forall s :: s in lights[i].shadowSources ==> s in sourcePool
      {
        if i != slot {
          assert lights[i] == before[i] && lights[i] != light;
        }
      }
    }

    /** The table half of storing a light: the entry is filled, count and max index kept right. */
    method FillLightSlot(light: RPLight, slot: int)
      requires slot == FirstEmpty(lights[..], null) >= 0
      requires numStoredLights == Occupied(lights[..], null) && maxLightIndex == Highest(lights[..], null)
      modifies this`numStoredLights, this`maxLightIndex, lights
      ensures lights[..] == old(lights[..])[slot := light]
      ensures numStoredLights == old(numStoredLights) + 1 == Occupied(lights[..], null)
      ensures maxLightIndex == (if old(maxLightIndex) < slot then slot else old(maxLightIndex)) == Highest(lights[..], null)
    {
      OccupiedFill(lights[..], null, slot, light);
      HighestFill(lights[..], null, slot, light);
      numStoredLights := numStoredLights + 1;
      if maxLightIndex < slot {
        maxLightIndex := slot;
      }
      lights[slot] := light;
    }

    /**
     * `add_light`: a light that already holds a slot is refused and nothing
     * changes. Otherwise a reference is taken before the slot search, so a
     * full table keeps that reference and stores nothing. On success the
     * light takes the first empty slot, the count rises by one, the max index
     * covers the slot, the dirty flag is left as it is, and a shadow-casting
     * light gets its shadow sources set up.
     */
    method AddLight(light: RPLight) returns (outcome: AddOutcome)
      requires Valid() && light.SourcesOwned()
      modifies this`numStoredLights, this`maxLightIndex, this`maxSourceIndex, this`sourcePool, lights, shadowSources
      modifies light`slot, light`refs, light`shadowSources, light.shadowSources`slot
      ensures Valid()
      ensures commands == old(commands) && numStoredSources == old(numStoredSources)
      ensures light.dirty == old(light.dirty)
      ensures outcome == AlreadySlotted <==> old(light.HasSlot())
      ensures outcome == NoFreeSlot <==> !old(light.HasSlot()) && FirstEmpty(old(lights[..]), null) < 0
      ensures outcome == AlreadySlotted ==> unchanged(this, lights, light)
      ensures outcome == NoFreeSlot ==>
        unchanged(this, lights) && light.refs == old(light.refs) + 1 && light.slot == old(light.slot)
      ensures outcome.Added? ==>
        outcome.slot == FirstEmpty(old(lights[..]), null) &&
        light.slot == outcome.slot && light.refs == old(light.refs) + 1 &&
        lights[..] == old(lights[..])[outcome.slot := light] &&
        numStoredLights == old(numStoredLights) + 1 &&
        maxLightIndex == (if old(maxLightIndex) < outcome.slot then outcome.slot else old(maxLightIndex))
      ensures outcome.Added? && light.castsShadows ==>
        var p := Place(old(shadowSources[..]), null, light.shadowSources);
        shadowSources[..] == p.0 &&
        forall k :: 0 <= k < |p.1| ==> light.shadowSources[k].slot == p.1[k]
      ensures !(outcome.Added? && light.castsShadows) ==>
        unchanged(shadowSources) && light.shadowSources == old(light.shadowSources) &&
        maxSourceIndex == old(maxSourceIndex) &&
        forall s :: s in light.shadowSources ==> s.slot == old(s.slot)
      ensures outcome.Added? && light.castsShadows && light.isPoint && old(light.shadowSources) == [] ==>
        |light.shadowSources| == PointLightSources &&
        forall s :: s in light.shadowSources ==> fresh(s) && !s.HasRegion()
      ensures !(outcome.Added? && light.castsShadows && light.isPoint && old(light.shadowSources) == []) ==>
        light.shadowSources == old(light.shadowSources)
    {
      if light.HasSlot() {
        return AlreadySlotted;
      }
      outcome := AddUnslotted(light);
    }

    /** `add_light` past the slot check: reference and slot search. */
    method AddUnslotted(light: RPLight) returns (outcome: AddOutcome)
      requires Valid() && light.SourcesOwned() && !light.HasSlot()
      modifies this`numStoredLights, this`maxLightIndex, this`maxSourceIndex, this`sourcePool, lights, shadowSources
      modifies light`slot, light`refs, light`shadowSources, light.shadowSources`slot
      ensures Valid()
      ensures commands == old(commands) && numStoredSources == old(numStoredSources)
      ensures light.dirty == old(light.dirty) && light.refs == old(light.refs) + 1
      ensures outcome != AlreadySlotted
      ensures outcome == NoFreeSlot <==> FirstEmpty(old(lights[..]), null) < 0
      ensures outcome == NoFreeSlot ==> unchanged(this, lights) && light.slot == old(light.slot)
      ensures outcome.Added? ==>
        outcome.slot == FirstEmpty(old(lights[..]), null) &&
        light.slot == outcome.slot && lights[..] == old(lights[..])[outcome.slot := light] &&
        numStoredLights == old(numStoredLights) + 1 &&
        maxLightIndex == (if old(maxLightIndex) < outcome.slot then outcome.slot else old(maxLightIndex))
      ensures outcome.Added? && light.castsShadows ==>
        var p := Place(old(shadowSources[..]), null, light.shadowSources);
        shadowSources[..] == p.0 &&
        forall k :: 0 <= k < |p.1| ==> light.shadowSources[k].slot == p.1[k]
      ensures !(outcome.Added? && light.castsShadows) ==>
        unchanged(shadowSources) && light.shadowSources == old(light.shadowSources) &&
        maxSourceIndex == old(maxSourceIndex) &&
        forall s :: s in light.shadowSources ==> s.slot == old(s.slot)
      ensures outcome.Added? && light.castsShadows && light.isPoint && old(light.shadowSources) == [] ==>
        |light.shadowSources| == PointLightSources &&
        forall s :: s in light.shadowSources ==> fresh(s) && !s.HasRegion()
      ensures !(outcome.Added? && light.castsShadows && light.isPoint && old(light.shadowSources) == []) ==>
        light.shadowSources == old(light.shadowSources)
    {
      light.Ref();
      var slot := FindLightSlot();
      if slot < 0 {
        return NoFreeSlot;
      }
      StoreWithShadows(light, slot);
      outcome := Added(slot);
    }

    /** `add_light` once a slot is found: store the light, then set up its shadows if it casts them. */
    method StoreWithShadows(light: RPLight, slot: int)
      requires Valid() && light.SourcesOwned() && !light.HasSlot()
      requires slot == FirstEmpty(lights[..], null) >= 0
      modifies this`numStoredLights, this`maxLightIndex, this`maxSourceIndex, this`sourcePool, lights, shadowSources
      modifies light`slot, light`shadowSources, light.shadowSources`slot
      ensures Valid()
      ensures light.slot == slot && lights[..] == old(lights[..])[slot := light]
      ensures numStoredLights == old(numStoredLights) + 1
      ensures maxLightIndex == (if old(maxLightIndex) < slot then slot else old(maxLightIndex))
      ensures light.castsShadows ==>
        var p := Place(old(shadowSources[..]), null, light.shadowSources);
        shadowSources[..] == p.0 &&
        forall k :: 0 <= k < |p.1| ==> light.shadowSources[k].slot == p.1[k]
      ensures !light.castsShadows ==>
        unchanged(shadowSources) && light.shadowSources == old(light.shadowSources) &&
        maxSourceIndex == old(maxSourceIndex) &&
        forall s :: s in light.shadowSources ==> s.slot == old(s.slot)
      ensures light.castsShadows && light.isPoint && old(light.shadowSources) == [] ==>
        |light.shadowSources| == PointLightSources &&
        forall s :: s in light.shadowSources ==> fresh(s) && !s.HasRegion()
      ensures !(light.castsShadows && light.isPoint && old(light.shadowSources) == []) ==>
        light.shadowSources == old(light.shadowSources)
    {
      StoreLight(light, slot);
      if light.castsShadows {
        ghost var placed := SetupShadows(light);
      }
    }

    /**
     * `remove_light`: a light without a slot is refused and nothing changes.
     * Otherwise its entry is emptied, one remove command carrying the slot is
     * appended at once, the count drops by one, the max index is rescanned
     * only when the removed slot was the max, the light loses its slot and
     * the storage's reference. Its shadow sources keep their slots and regions.
     */
    method RemoveLight(light: RPLight) returns (removed: bool)
      requires Valid()
      requires light.HasSlot() ==> light.slot < lights.Length && lights[light.slot] == light
      modifies this`numStoredLights, this`maxLightIndex, this`commands, lights, light`slot, light`refs
      ensures Valid()
      ensures removed == old(light.HasSlot())
      ensures unchanged(shadowSources) && maxSourceIndex == old(maxSourceIndex)
      ensures !removed ==> unchanged(this, lights, light)
      ensures removed ==>
        var slot := old(light.slot);
        lights[..] == old(lights[..])[slot := null] &&
        commands == old(commands) + [RemoveCommand(slot)] &&
        numStoredLights == old(numStoredLights) - 1 &&
        (slot == old(maxLightIndex) ==> maxLightIndex == Highest(lights[..], null)) &&
        (slot != old(maxLightIndex) ==> maxLightIndex == old(maxLightIndex)) &&
        light.slot == -1 && light.refs == old(light.refs) - 1
    {
      if !light.HasSlot() {
        return false;
      }
      var slot := light.slot;
      ghost var before := lights[..];
      ClearLightSlot(slot);
      light.RemoveSlot();
      light.Unref();
      removed := true;
      forall i | 0 <= i < lights.Length && lights[i] != null
        ensures lights[i].slot == i && lights[i].SourcesOwned() && forall s :: s in lights[i].shadowSources ==> s in sourcePool
      {
        assert lights[i] == before[i] && lights[i] != light;
      }
    }

    /** The table half of `remove_light`: the entry is emptied, the command emitted, count and max index kept right. */
    method ClearLightSlot(slot: int)
      requires lights.Length > 0 && 0 <= slot < lights.Length && lights[slot] != null
      requires numStoredLights == Occupied(lights[..], null) && maxLightIndex == Highest(lights[..], null)
      modifies this`numStoredLights, this`maxLightIndex, this`commands, lights
      ensures lights[..] == old(lights[..])[slot := null]
      ensures commands == old(commands) + [RemoveCommand(slot)]
      ensures numStoredLights == old(numStoredLights) - 1 == Occupied(lights[..], null)
      ensures maxLightIndex == Highest(lights[..], null)
      ensures slot != old(maxLightIndex) ==> maxLightIndex == old(maxLightIndex)
    {
      OccupiedClear(lights[..], null, slot);
      if slot != maxLightIndex {
        HighestClearBelow(lights[..], null, slot);
      }
      lights[slot] := null;
      commands := commands + [RemoveCommand(slot)];
      numStoredLights := numStoredLights - 1;
      if slot == maxLightIndex {
        UpdateMaxLightIndex();
      }
    }

    /**
     * The first pass of `update`: every taken light slot up to the max index
     * whose light is dirty has its shadow sources updated, a store command
     * with its payload appended, and its dirty flag cleared, in slot order.
     */
    method StoreDirtyLights()
      requires Valid()
      modifies this`commands, lights[..]`dirty
      modifies (set s | s in sourcePool)`resolution, (set s | s in sourcePool)`lens, (set s | s in sourcePool)`needsUpdate
      ensures Valid()
      ensures commands == old(commands) + old(StoreCommands(lights[..]))
      ensures forall i :: 0 <= i < lights.Length && lights[i] != null ==> !lights[i].dirty
      ensures forall i :: 0 <= i < lights.Length && lights[i] != null && old(lights[i].dirty) ==>
        lights[i].SourcesUpdated()
      ensures forall i, s :: 0 <= i < lights.Length && lights[i] != null && !old(lights[i].dirty) &&
                             s in lights[i].shadowSources ==>
        s.resolution == old(s.resolution) && s.lens == old(s.lens) && s.needsUpdate == old(s.needsUpdate)
      ensures forall s :: s in sourcePool && (forall i :: 0 <= i < lights.Length && lights[i] != null && old(lights[i].dirty) ==> lights[i] != s.owner) ==>
        s.resolution == old(s.resolution) && s.lens == old(s.lens) && s.needsUpdate == old(s.needsUpdate)
    {
      forall j, k | 0 <= j < k < lights.Length && lights[j] != null
        ensures lights[j] != lights[k]
      {
        assert lights[j].slot == j;
      }
      ghost var pool := set s | s in sourcePool;
      assert TableOwned(lights[..], pool);
      EmitDirtyLights(maxLightIndex + 1, pool);
      assert LightTableValid() && SourceTableValid();
      assert OwnershipValid();
    }

    /**
     * The second pass of `update`: the taken source slots up to the max
     * index whose source needs an update are collected in slot order, every
     * old region among them is freed, and only then is each collected source,
     * in order, given a square region of its required tiles per side.
     */
    method PlaceDirtySources() returns (ghost pending: seq<ShadowSource>, ghost results: seq<Region>)
      requires SourceTableValid()
      modifies atlas`occupied, atlas`events, shadowSources[..]`region
      ensures pending == old(DirtySources(shadowSources[..maxSourceIndex + 1]))
      ensures |results| == |pending|
      ensures atlas.events ==
        old(atlas.events) + FreeEvents(old(OldRegions(pending))) +
        ReserveEvents(RequestedTiles(atlas.requiredTiles, pending), results)
      ensures forall k :: 0 <= k < |pending| && LastOccurrence(pending, k) ==> pending[k].region == results[k]
      ensures forall j, k :: 0 <= j < k < |results| && results[j] != NoRegion && results[k] != NoRegion ==>
        Tiles(results[j]) !! Tiles(results[k])
      ensures forall i :: 0 <= i < shadowSources.Length && shadowSources[i] != null && shadowSources[i] !in pending ==>
        shadowSources[i].region == old(shadowSources[i].region)
    {
      DirtySourcesInTable(shadowSources[..maxSourceIndex + 1]);
      assert forall s :: s in shadowSources[..maxSourceIndex + 1] ==> s in shadowSources[..];
      pending, results := PlacePending(atlas, shadowSources, maxSourceIndex + 1);
    }

    /** `RefreshDirtyLights` over the light table, its commands appended to the command list. */
    method EmitDirtyLights(n: nat, ghost pool: set<ShadowSource>)
      requires n <= lights.Length && forall k :: n <= k < lights.Length ==> lights[k] == null
      requires TableOwned(lights[..], pool)
      modifies this`commands, lights[..]`dirty, pool`resolution, pool`lens, pool`needsUpdate
      ensures commands == old(commands) + old(StoreCommands(lights[..]))
      ensures forall k :: 0 <= k < lights.Length && lights[k] != null ==> !lights[k].dirty
      ensures forall k :: 0 <= k < lights.Length && lights[k] != null && old(lights[k].dirty) ==> lights[k].SourcesUpdated()
      ensures forall k, s :: 0 <= k < lights.Length && lights[k] != null && !old(lights[k].dirty) && s in lights[k].shadowSources ==>
        s.resolution == old(s.resolution) && s.lens == old(s.lens) && s.needsUpdate == old(s.needsUpdate)
      ensures forall s :: s in pool && (forall k :: 0 <= k < lights.Length && lights[k] != null && old(lights[k].dirty) ==> lights[k] != s.owner) ==>
        s.resolution == old(s.resolution) && s.lens == old(s.lens) && s.needsUpdate == old(s.needsUpdate)
    {
      var emitted := RefreshDirtyLights(lights, n, pool);
      commands := commands + emitted;
    }
  }

  /**
   * `update`'s second pass over the first `n` entries of a source table:
   * only the collected sources' regions may change.
   */
  method PlacePending(atlas: ShadowAtlas, table: array<ShadowSource?>, n: nat)
    returns (ghost pending: seq<ShadowSource>, ghost results: seq<Region>)
    requires n <= table.Length
    modifies atlas`occupied, atlas`events, (set s | s in DirtySources(table[..n]))`region
    ensures pending == old(DirtySources(table[..n]))
    ensures |results| == |pending|
    ensures atlas.events ==
      old(atlas.events) + FreeEvents(old(OldRegions(pending))) +
      ReserveEvents(RequestedTiles(atlas.requiredTiles, pending), results)
    ensures forall k :: 0 <= k < |pending| && LastOccurrence(pending, k) ==> pending[k].region == results[k]
    ensures forall j, k :: 0 <= j < k < |results| && results[j] != NoRegion && results[k] != NoRegion ==>
      Tiles(results[j]) !! Tiles(results[k])
  {
    var collected := CollectPending(atlas, table, n);
    assert A: collected == old(DirtySources(table[..n]));
    assert B: atlas.events == old(atlas.events) + FreeEvents(old(OldRegions(collected)));
    results := ReserveRegions(atlas, collected);
    pending := collected;
  }

  /** The collection loop of `update`'s second pass: each collected source's old region is freed as it is found. */
  method CollectPending(atlas: ShadowAtlas, table: array<ShadowSource?>, n: nat) returns (pending: seq<ShadowSource>)
    requires n <= table.Length
    modifies atlas`occupied, atlas`events
    ensures pending == DirtySources(table[..n])
    ensures atlas.events == old(atlas.events) + FreeEvents(OldRegions(pending))
  {
    ghost var e0 := atlas.events;
    pending := [];
    var i := 0;
    while i < n
      invariant 0 <= i <= n
      invariant pending == DirtySources(table[..i])
      invariant atlas.events == e0 + FreeEvents(OldRegions(pending))
    {
      pending := CollectEntry(atlas, table, i, pending, e0);
      i := i + 1;
    }
  }

  /** One slot of the collection loop: a taken slot whose source needs an update is collected and its region freed. */
  method CollectEntry(atlas: ShadowAtlas, table: array<ShadowSource?>, i: nat, pending: seq<ShadowSource>,
                      ghost e0: seq<AtlasEvent>) returns (pending': seq<ShadowSource>)
    requires i < table.Length
    requires pending == DirtySources(table[..i])
    requires atlas.events == e0 + FreeEvents(OldRegions(pending))
    modifies atlas`occupied, atlas`events
    ensures pending' == DirtySources(table[..i + 1])
    ensures atlas.events == e0 + FreeEvents(OldRegions(pending'))
  {
    var src := table[i];
    DirtySourcesSnoc(table[..], i);
    assert table[..][..i] == table[..i] && table[..][..i + 1] == table[..i + 1];
    pending' := pending;
    if src != null && src.needsUpdate {
      OldRegionsSnoc(pending, src);
      FreeEventsSnoc(e0, OldRegions(pending), src.region);
      pending' := pending + [src];
      if src.HasRegion() {
        atlas.FreeRegion(src.region);
      }
    }
  }

  /** The regions of the first `i` reservations are recorded, held by their last recipients, claimed and disjoint. */
  ghost predicate ReservedUpTo(atlas: ShadowAtlas, pending: seq<ShadowSource>, n: seq<int>, i: nat,
                               results: seq<Region>, e0: seq<AtlasEvent>)
    reads atlas`events, atlas`occupied, (set s | s in pending)`region
  {
    i <= |pending| && |n| == |pending| && |results| == i &&
    atlas.events == e0 + ReserveEvents(n[..i], results) &&
    (forall k :: 0 <= k < i && (forall j :: k < j < i ==> pending[j] != pending[k]) ==>
      pending[k].region == results[k]) &&
    (forall k :: 0 <= k < i && results[k] != NoRegion ==> Tiles(results[k]) <= atlas.occupied) &&
    (forall j, k :: 0 <= j < k < i && results[j] != NoRegion && results[k] != NoRegion ==>
      Tiles(results[j]) !! Tiles(results[k]))
  }

  /**
   * The reservation loop of `update`'s second pass: each source, in order,
   * is given the region the atlas returns for a square of its required
   * tiles, even when that is the failure value.
   */
  method ReserveRegions(atlas: ShadowAtlas, pending: seq<ShadowSource>) returns (ghost results: seq<Region>)
    modifies atlas`occupied, atlas`events, (set s | s in pending)`region
    ensures |results| == |pending|
    ensures atlas.events == old(atlas.events) + ReserveEvents(RequestedTiles(atlas.requiredTiles, pending), results)
    ensures forall k :: 0 <= k < |pending| && LastOccurrence(pending, k) ==> pending[k].region == results[k]
    ensures forall k :: 0 <= k < |results| && results[k] != NoRegion ==> Tiles(results[k]) <= atlas.occupied
    ensures forall j, k :: 0 <= j < k < |results| && results[j] != NoRegion && results[k] != NoRegion ==>
      Tiles(results[j]) !! Tiles(results[k])
  {
    ghost var e0 := atlas.events;
    ghost var n := RequestedTiles(atlas.requiredTiles, pending);
    results := [];
    var i := 0;
    while i < |pending|
      invariant 0 <= i <= |pending|
      invariant n == RequestedTiles(atlas.requiredTiles, pending)
      invariant ReservedUpTo(atlas, pending, n, i, results, e0)
    {
      results := ReserveEntry(atlas, pending, n, i, results, e0);
      i := i + 1;
    }
    assert n[..i] == n;
  }

  /** One step of the reservation loop: the i-th source is given the region the atlas returns for its request. */
  method ReserveEntry(atlas: ShadowAtlas, pending: seq<ShadowSource>, ghost n: seq<int>, i: nat,
                      ghost results: seq<Region>, ghost e0: seq<AtlasEvent>) returns (ghost results': seq<Region>)
    requires i < |pending| && n == RequestedTiles(atlas.requiredTiles, pending)
    requires ReservedUpTo(atlas, pending, n, i, results, e0)
    modifies atlas`occupied, atlas`events, {pending[i]}`region
    ensures ReservedUpTo(atlas, pending, n, i + 1, results', e0)
  {
    var source := pending[i];
    var numTiles := atlas.requiredTiles(source.resolution);
    ghost var occ := atlas.occupied;
    var region := atlas.FindAndReserveRegion(numTiles, numTiles);
    source.SetRegion(region);
    results' := results + [region];
    assert n[..i + 1] == n[..i] + [n[i]];
    assert ReserveEvents(n[..i + 1], results') == ReserveEvents(n[..i], results) + [Reserved(n[i], n[i], region)];
    forall k | 0 <= k < i + 1 && (forall j :: k < j < i + 1 ==> pending[j] != pending[k])
      ensures pending[k].region == results'[k]
    {
      if k < i {
        assert pending[i] != pending[k];
      }
    }
    forall k | 0 <= k < i + 1 && results'[k] != NoRegion ensures Tiles(results'[k]) <= atlas.occupied {
      if k < i {
        assert Tiles(results[k]) <= occ;
      }
    }
    forall j, k | 0 <= j < k < i + 1 && results'[j] != NoRegion && results'[k] != NoRegion
      ensures Tiles(results'[j]) !! Tiles(results'[k])
    {
      if k == i {
        assert Tiles(results[j]) <= occ && Tiles(region) !! occ;
      }
    }
  }

  /** One dirty light in `update`: its sources are updated, its store command made, its flag cleared. */
  method RefreshLight(light: RPLight) returns (cmd: Command)
    requires light.SourcesOwned()
    modifies light`dirty, light.shadowSources`resolution, light.shadowSources`lens, light.shadowSources`needsUpdate
    ensures cmd == old(StoreCommand(light.Payload())) && !light.dirty && light.SourcesUpdated()
    ensures forall s :: s in light.shadowSources ==> s.Updated()
  {
    light.UpdateShadowSources();
    cmd := light.WriteToCommand(StoreCommand([]));
    assert cmd == StoreCommand(light.Payload());
    light.UnsetDirtyFlag();
  }

  /**
   * `update`'s pass over a light table whose entries from `n` on are empty:
   * each dirty light's shadow sources are updated, its store command emitted
   * and its flag cleared.
   */
  method RefreshDirtyLights(a: array<RPLight?>, n: nat, ghost pool: set<ShadowSource>) returns (emitted: seq<Command>)
    requires n <= a.Length && forall k :: n <= k < a.Length ==> a[k] == null
    requires TableOwned(a[..], pool)
    modifies a[..]`dirty, pool`resolution, pool`lens, pool`needsUpdate
    ensures emitted == old(StoreCommands(a[..]))
    ensures forall k :: 0 <= k < a.Length && a[k] != null ==> !a[k].dirty
    ensures forall k :: 0 <= k < a.Length && a[k] != null && old(a[k].dirty) ==> a[k].SourcesUpdated()
    ensures forall k, s :: 0 <= k < a.Length && a[k] != null && !old(a[k].dirty) && s in a[k].shadowSources ==>
      s.resolution == old(s.resolution) && s.lens == old(s.lens) && s.needsUpdate == old(s.needsUpdate)
    ensures forall s :: s in pool && (forall k :: 0 <= k < a.Length && a[k] != null && old(a[k].dirty) ==> a[k] != s.owner) ==>
      s.resolution == old(s.resolution) && s.lens == old(s.lens) && s.needsUpdate == old(s.needsUpdate)
  {
    var t := a[..];
    ghost var v := Views(t);
    StoreCommandsPrefix(v, n);
    assert forall k :: 0 <= k < a.Length && a[k] != null ==> (WasDirty(v, k) <==> a[k].dirty);
    emitted := RefreshPrefix(t, n, v, pool);
    assert forall k :: 0 <= k < a.Length ==> a[k] == t[k];
  }

  /** The fields of a shadow source that `update_shadow_sources` sets. */
  datatype SourceView = SourceView(resolution: int, lens: Option<Lens>, needsUpdate: bool)

  ghost function ViewOf(s: ShadowSource): SourceView
    reads s
  {
    SourceView(s.resolution, s.lens, s.needsUpdate)
  }

  /** Entry `k` of a viewed table held a dirty light. */
  predicate WasDirty(v: seq<Option<LightView>>, k: int)
  {
    0 <= k < |v| && v[k].Some? && v[k].value.dirty
  }

  /** The table's lights are distinct, each owns its sources, and the pool holds them all. */
  ghost predicate TableOwned(t: seq<RPLight?>, pool: set<ShadowSource>)
    reads t`shadowSources
  {
    (forall j, k :: 0 <= j < k < |t| && t[j] != null ==> t[j] != t[k]) &&
    forall k :: 0 <= k < |t| && t[k] != null ==>
      t[k].SourcesOwned() && forall s :: s in t[k].shadowSources ==> s in pool
  }

  /**
   * The state of `update`'s pass before entry `i`, against the view `v` the
   * table had when the pass began and the source fields `st` the pool had:
   * the lights before `i` are clean, those from `i` on are as viewed, the
   * refreshed lights are the dirty ones before `i`, all of them from the
   * table, their sources are updated and every other source is as it was.
   */
  ghost predicate Refreshed(t: seq<RPLight?>, i: nat, v: seq<Option<LightView>>, pool: set<ShadowSource>,
                            st: map<ShadowSource, SourceView>, refreshed: set<RPLight>)
    reads t, pool, set s | s in pool :: s.owner
  {
    i <= |t| && |v| == |t| &&
    (forall k :: 0 <= k < i && t[k] != null ==> !t[k].dirty) &&
    (forall k :: i <= k < |t| ==> v[k] == if t[k] == null then None else Some(LightView(t[k].dirty, t[k].Payload()))) &&
    (forall k :: 0 <= k < |t| && t[k] != null ==> (t[k] in refreshed <==> k < i && WasDirty(v, k))) &&
    (forall l :: l in refreshed ==> l in t[..i]) &&
    (forall s :: s in pool && s.owner in refreshed && s in s.owner.shadowSources ==> s.Updated()) &&
    (forall s :: s in pool && s.owner !in refreshed ==> s in st && ViewOf(s) == st[s])
  }

  /** The loop of `RefreshDirtyLights`, over the table's entries as a sequence. */
  method RefreshPrefix(t: seq<RPLight?>, n: nat, ghost v: seq<Option<LightView>>, ghost pool: set<ShadowSource>)
    returns (emitted: seq<Command>)
    requires n <= |t| && v == Views(t)
    requires forall k :: n <= k < |t| ==> t[k] == null
    requires TableOwned(t, pool)
    modifies t`dirty, pool`resolution, pool`lens, pool`needsUpdate
    ensures emitted == StoreCommandsOf(v[..n])
    ensures forall k :: 0 <= k < |t| && t[k] != null ==> !t[k].dirty
    ensures forall k :: 0 <= k < |t| && t[k] != null && WasDirty(v, k) ==> t[k].SourcesUpdated()
    ensures forall k, s :: 0 <= k < |t| && t[k] != null && !WasDirty(v, k) && s in t[k].shadowSources ==>
      s.resolution == old(s.resolution) && s.lens == old(s.lens) && s.needsUpdate == old(s.needsUpdate)
    ensures forall s :: s in pool && (forall k :: 0 <= k < |t| && WasDirty(v, k) ==> t[k] != s.owner) ==>
      s.resolution == old(s.resolution) && s.lens == old(s.lens) && s.needsUpdate == old(s.needsUpdate)
  {
    ghost var st := map s | s in pool :: ViewOf(s);
    ghost var refreshed: set<RPLight> := {};
    RefreshedStart(t, v, pool, st);
    emitted := [];
    var i := 0;
    while i < n
      invariant 0 <= i <= n
      invariant emitted == StoreCommandsOf(v[..i])
      invariant TableOwned(t, pool)
      invariant Refreshed(t, i, v, pool, st, refreshed)
    {
      var cmds;
      cmds, refreshed := RefreshEntry(t, i, v, pool, st, refreshed);
      StoreCommandsStep(v, i);
      emitted := emitted + cmds;
      i := i + 1;
    }
    RefreshedDone(t, n, v, pool, st, refreshed);
    forall s | s in pool && s in st && ViewOf(s) == st[s]
      ensures s.resolution == old(s.resolution) && s.lens == old(s.lens) && s.needsUpdate == old(s.needsUpdate)
    {
      assert st[s] == old(ViewOf(s));
    }
  }

  /** Before the pass, nothing is refreshed and the table and sources are as viewed. */
  lemma RefreshedStart(t: seq<RPLight?>, v: seq<Option<LightView>>, pool: set<ShadowSource>, st: map<ShadowSource, SourceView>)
    requires v == Views(t) && st == map s | s in pool :: ViewOf(s)
    ensures Refreshed(t, 0, v, pool, st, {})
  {
  }

  /** After the pass over every taken entry, all lights are clean, the dirty ones' sources updated, the rest as they were. */
  lemma RefreshedDone(t: seq<RPLight?>, n: nat, v: seq<Option<LightView>>, pool: set<ShadowSource>,
                      st: map<ShadowSource, SourceView>, refreshed: set<RPLight>)
    requires n <= |t| && forall k :: n <= k < |t| ==> t[k] == null
    requires TableOwned(t, pool) && Refreshed(t, n, v, pool, st, refreshed)
    ensures forall k :: 0 <= k < |t| && t[k] != null ==> !t[k].dirty
    ensures forall k :: 0 <= k < |t| && t[k] != null && WasDirty(v, k) ==> t[k].SourcesUpdated()
    ensures forall k, s :: 0 <= k < |t| && t[k] != null && !WasDirty(v, k) && s in t[k].shadowSources ==>
      s in st && ViewOf(s) == st[s]
    ensures forall s :: s in pool && (forall k :: 0 <= k < |t| && WasDirty(v, k) ==> t[k] != s.owner) ==>
      s in st && ViewOf(s) == st[s]
  {
    forall l | l in refreshed
      ensures exists k :: 0 <= k < |t| && WasDirty(v, k) && t[k] == l
    {
      var k :| 0 <= k < n && t[..n][k] == l;
      assert t[k] == l && t[k] in refreshed;
    }
    forall j | 0 <= j < |t| && t[j] != null && WasDirty(v, j)
      ensures t[j].SourcesUpdated()
    {
      assert t[j] in refreshed;
      forall i | 0 <= i < |t[j].shadowSources|
        ensures t[j].shadowSources[i].Updated() && t[j].shadowSources[i].face == i
      {
        var s := t[j].shadowSources[i];
        assert s in pool && s.owner == t[j];
      }
    }
  }

  /** One entry of `update`'s pass: a dirty light is refreshed and its command emitted. */
  method RefreshEntry(t: seq<RPLight?>, i: nat, ghost v: seq<Option<LightView>>, ghost pool: set<ShadowSource>,
                      ghost st: map<ShadowSource, SourceView>, ghost refreshed: set<RPLight>)
    returns (cmds: seq<Command>, ghost refreshed': set<RPLight>)
    requires i < |t| && TableOwned(t, pool) && Refreshed(t, i, v, pool, st, refreshed)
    modifies t`dirty, pool`resolution, pool`lens, pool`needsUpdate
    ensures Refreshed(t, i + 1, v, pool, st, refreshed')
    ensures cmds == if WasDirty(v, i) then [StoreCommand(v[i].value.payload)] else []
  {
    var light := t[i];
    if light != null && light.dirty {
      assert v[i] == Some(LightView(true, light.Payload()));
      ghost var mine := light.shadowSources;
      assert forall s :: s in mine ==> s.owner == light;
      var cmd := RefreshLight(light);
      cmds, refreshed' := [cmd], refreshed + {light};
      forall k | 0 <= k < i + 1 && t[k] != null ensures !t[k].dirty {
        if k < i {
          assert t[k] != light;
        }
      }
      forall k | i + 1 <= k < |t| ensures v[k] == if t[k] == null then None else Some(LightView(t[k].dirty, t[k].Payload())) {
        assert t[k] != light;
      }
      forall l | l in refreshed' ensures l in t[..i + 1] {
        assert t[..i + 1][i] == light;
        if l != light {
          assert l in t[..i];
          var k :| 0 <= k < i && t[..i][k] == l;
          assert t[..i + 1][k] == l;
        }
      }
      forall s | s in pool && s.owner in refreshed' && s in s.owner.shadowSources ensures s.Updated() {
        if s.owner != light {
          assert s !in mine;
        }
      }
      forall s | s in pool && s.owner !in refreshed' ensures s in st && ViewOf(s) == st[s] {
        assert s !in mine;
      }
    } else {
      cmds, refreshed' := [], refreshed;
    }
  }

  /** Scanning one more slot collects its source if the slot is taken and the source needs an update. */
  lemma DirtySourcesSnoc(t: seq<ShadowSource?>, i: nat)
    requires i < |t|
    ensures DirtySources(t[..i + 1]) ==
      DirtySources(t[..i]) + (if t[i] != null && t[i].needsUpdate then [t[i]] else [])
  {
    assert t[..i + 1][..i] == t[..i];
  }

  /** Collecting one more source adds its region to the ones to free, if it holds one. */
  lemma OldRegionsSnoc(pending: seq<ShadowSource>, s: ShadowSource)
    ensures s.region != NoRegion ==> OldRegions(pending + [s]) == OldRegions(pending) + [s.region]
    ensures s.region == NoRegion ==> OldRegions(pending + [s]) == OldRegions(pending)
  {
    assert (pending + [s])[..|pending|] == pending;
    assert OldRegions(pending) + [] == OldRegions(pending);
  }

  /** Freeing one more region records one more event. */
  lemma FreeEventsSnoc(e: seq<AtlasEvent>, rs: seq<Region>, r: Region)
    ensures e + FreeEvents(rs + [r]) == (e + FreeEvents(rs)) + [Freed(r)]
  {
    assert (rs + [r])[..|rs|] == rs;
  }

  /** Every source `update` collects is in the scanned table. */
  lemma {:induction false} DirtySourcesInTable(t: seq<ShadowSource?>)
    ensures forall s :: s in DirtySources(t) ==> s in t
    decreases |t|
  {
    if t != [] {
      DirtySourcesInTable(t[..|t| - 1]);
      assert forall s :: s in t[..|t| - 1] ==> s in t;
    }
  }

  /** Viewing one more entry emits that entry's command, if it is taken and dirty. */
  lemma StoreCommandsStep(v: seq<Option<LightView>>, i: nat)
    requires i < |v|
    ensures StoreCommandsOf(v[..i + 1]) ==
      StoreCommandsOf(v[..i]) + (if v[i].Some? && v[i].value.dirty then [StoreCommand(v[i].value.payload)] else [])
  {
    assert v[..i + 1][..i] == v[..i];
  }

  /** Placing the whole sequence is placing it from index 0. */
  lemma PlaceFrom(t: seq<ShadowSource?>, srcs: seq<ShadowSource>, i: nat)
    requires i == 0
    ensures srcs[i..] == srcs
    ensures Place(t, null, srcs).1 == [] + Place(t, null, srcs[i..]).1
  {
    assert srcs[i..] == srcs;
  }

  /** The slots the sources hold, in order. */
  ghost function SlotsOf(srcs: seq<ShadowSource>): (r: seq<int>)
    reads srcs
    ensures |r| == |srcs| && forall k :: 0 <= k < |srcs| ==> r[k] == srcs[k].slot
  {
    if srcs == [] then [] else SlotsOf(srcs[..|srcs| - 1]) + [srcs[|srcs| - 1].slot]
  }

  /**
   * Placing `srcs` on `t0` gave the slots `placed` to the first `i` sources and
   * left the table `t`, on which the rest are still to be placed.
   */
  ghost predicate Placing(t0: seq<ShadowSource?>, t: seq<ShadowSource?>, srcs: seq<ShadowSource>, i: nat, placed: seq<int>)
  {
    i <= |srcs| && |placed| == i &&
    Place(t0, null, srcs).0 == Place(t, null, srcs[i..]).0 &&
    Place(t0, null, srcs).1 == placed + Place(t, null, srcs[i..]).1
  }

  /** Once every source is placed, the placement is the table left and the slots given. */
  lemma PlacingDone(t0: seq<ShadowSource?>, t: seq<ShadowSource?>, srcs: seq<ShadowSource>, placed: seq<int>)
    requires Placing(t0, t, srcs, |srcs|, placed)
    ensures Place(t0, null, srcs) == (t, placed)
  {
    PlaceStop(t, srcs, |srcs|);
    assert placed + [] == placed;
  }

  /** One step of the placement: source i takes the first empty slot, and the rest is placed after it. */
  lemma PlaceAdvance(t0: seq<ShadowSource?>, t: seq<ShadowSource?>, srcs: seq<ShadowSource>, i: nat, placed: seq<int>)
    requires i < |srcs| && FirstEmpty(t, null) >= 0
    requires Place(t0, null, srcs).0 == Place(t, null, srcs[i..]).0
    requires Place(t0, null, srcs).1 == placed + Place(t, null, srcs[i..]).1
    ensures var s := FirstEmpty(t, null);
      Place(t0, null, srcs).0 == Place(t[s := srcs[i]], null, srcs[i + 1..]).0 &&
      Place(t0, null, srcs).1 == (placed + [s]) + Place(t[s := srcs[i]], null, srcs[i + 1..]).1
  {
    assert srcs[i..][0] == srcs[i] && srcs[i..][1..] == srcs[i + 1..];
    var s := FirstEmpty(t, null);
    var rest := Place(t[s := srcs[i]], null, srcs[i + 1..]).1;
    assert placed + ([s] + rest) == (placed + [s]) + rest;
  }

  /** Placement ends at the end of the sequence or when the table is full. */
  lemma PlaceStop(t: seq<ShadowSource?>, srcs: seq<ShadowSource>, i: nat)
    requires i <= |srcs|
    requires i < |srcs| ==> FirstEmpty(t, null) < 0
    ensures Place(t, null, srcs[i..]) == (t, [])
  {
    if i == |srcs| {
      assert srcs[i..] == [];
    } else {
      assert srcs[i..] != [];
    }
  }

  /** Entries past n are empty, so they add no store commands. */
  lemma {:induction false} StoreCommandsPrefix(v: seq<Option<LightView>>, n: nat)
    requires n <= |v| && forall k :: n <= k < |v| ==> v[k] == None
    ensures StoreCommandsOf(v) == StoreCommandsOf(v[..n])
    decreases |v|
  {
    if |v| > n {
      StoreCommandsPrefix(v[..|v| - 1], n);
      assert v[..|v| - 1][..n] == v[..n];
    } else {
      assert v[..n] == v;
    }
  }
}
