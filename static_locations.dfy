/**
 * Static (pre-locked) map keys: the sets of keys each randomizer mode locks,
 * the lookups over them, the record that restores a locked key, and the merge
 * that locks the keys of a game's `locations` dictionary.
 */
module StaticLocations {
  import opened Wrappers
  import Seqs
  import Strings
  import opened TrackerTypes
  import LocationTypes
  import LocationResolver

  /** An entry of a static set: the map key, the location id it is locked to, and an optional chest count. */
  datatype StaticMapping = StaticMapping(mapLocationId: string, locationTypeId: int, chestCount: Option<int>)

  /** The two keys every mode locks: key "1" to 3014 and key "18" to 4004. */
  function AlwaysSet(): seq<StaticMapping> {
    [StaticMapping("1", 3014, None), StaticMapping("18", 4004, None)]
  }

  /** `staticLocationSets`: ALWAYS and one (empty) set per randomizer mode, keyed by the upper-cased mode name. */
  function StaticLocationSets(): map<string, seq<StaticMapping>> {
    map[
      "ALWAYS" := AlwaysSet(),
      "VANILLA" := [],
      "DUNGEONS_SIMPLE" := [],
      "DUNGEONS_FULL" := [],
      "DUNGEONS_CROSSED" := [],
      "SIMPLE" := [],
      "RESTRICTED" := [],
      "FULL" := [],
      "CROSSED" := []
    ]
  }

  /** The key a mode name is looked up under: upper-cased, with only its first space made an underscore. */
  function SetKey(randomizerType: string): string {
    Strings.ReplaceFirst(Strings.ToUpperAscii(randomizerType), ' ', '_')
  }

  /**
   * `staticLocationSets[key] || []`. Every upper-cased key misses the inherited
   * members of a plain object (their names all hold lower-case letters), so an
   * unknown key is undefined and falls back to the empty list.
   */
  function SetFor(key: string): seq<StaticMapping> {
    if key in StaticLocationSets() then StaticLocationSets()[key] else []
  }

  /** `getStaticLocationsForRandomizer`: the ALWAYS entries, then the mode's own set. */
  function StaticLocationsForRandomizer(randomizerType: string): (r: seq<StaticMapping>)
    ensures |r| == |AlwaysSet()| + |SetFor(SetKey(randomizerType))|
    ensures r[..|AlwaysSet()|] == AlwaysSet()
    ensures r[|AlwaysSet()|..] == SetFor(SetKey(randomizerType))
  {
    AlwaysSet() + SetFor(SetKey(randomizerType))
  }

  /** Every mode name whose key is not ALWAYS locks exactly the ALWAYS entries; a mode named "always" locks them twice. */
  lemma StaticSetsOfEveryMode(randomizerType: string)
    ensures SetKey(randomizerType) != "ALWAYS" ==> StaticLocationsForRandomizer(randomizerType) == AlwaysSet()
    ensures SetKey(randomizerType) == "ALWAYS" ==> StaticLocationsForRandomizer(randomizerType) == AlwaysSet() + AlwaysSet()
  {
  }

  /** Does the mapping lock key `key`? */
  function LocksKey(key: string): StaticMapping -> bool {
    (m: StaticMapping) => m.mapLocationId == key
  }

  /** `getStaticLocationData`: the first mapping of the mode's list for key `key`, or null. */
  function GetStaticLocationData(key: string, randomizerType: string): (r: Option<StaticMapping>)
    ensures r.Some? ==> r.value.mapLocationId == key
    ensures r.None? <==> forall i :: 0 <= i < |StaticLocationsForRandomizer(randomizerType)| ==>
      StaticLocationsForRandomizer(randomizerType)[i].mapLocationId != key
    ensures forall i ::
      (0 <= i < |StaticLocationsForRandomizer(randomizerType)| &&
       StaticLocationsForRandomizer(randomizerType)[i].mapLocationId == key &&
       (forall j :: 0 <= j < i ==> StaticLocationsForRandomizer(randomizerType)[j].mapLocationId != key)) ==>
      r == Some(StaticLocationsForRandomizer(randomizerType)[i])
  {
    var list := StaticLocationsForRandomizer(randomizerType);
    forall i | 0 <= i < |list| && list[i].mapLocationId == key && (forall j :: 0 <= j < i ==> list[j].mapLocationId != key)
      ensures Seqs.Find(list, LocksKey(key)) == Some(list[i])
    {
      Seqs.FindIsFirst(list, LocksKey(key), i);
    }
    Seqs.Find(list, LocksKey(key))
  }

  /** `isLocationStatic`: the lookup finds a mapping. */
  function IsLocationStatic(key: string, randomizerType: string): (r: bool)
    ensures r <==> exists i ::
      0 <= i < |StaticLocationsForRandomizer(randomizerType)| && StaticLocationsForRandomizer(randomizerType)[i].mapLocationId == key
  {
    GetStaticLocationData(key, randomizerType).Some?
  }

  /** With the current sets, exactly the keys "1" and "18" are static, in every mode. */
  lemma StaticKeys(key: string, randomizerType: string)
    ensures IsLocationStatic(key, randomizerType) <==> key == "1" || key == "18"
    ensures key == "1" ==> GetStaticLocationData(key, randomizerType) == Some(StaticMapping("1", 3014, None))
    ensures key == "18" ==> GetStaticLocationData(key, randomizerType) == Some(StaticMapping("18", 4004, None))
  {
    StaticSetsOfEveryMode(randomizerType);
    var list := StaticLocationsForRandomizer(randomizerType);
    if key == "1" {
      assert list[0].mapLocationId == key;
    } else if key == "18" {
      assert list[1].mapLocationId == key;
      assert list[0].mapLocationId != key;
    }
  }

  /** `isStaticMarkedUseless`: the key holds data, the data's id is 5001, and the key is static. */
  function IsStaticMarkedUseless(key: string, locationData: Option<Assignment>, randomizerType: string): (r: bool)
    ensures r <==> locationData.Some? && locationData.value.locationId == Some(5001) && IsLocationStatic(key, randomizerType)
  {
    if locationData.None? || locationData.value.locationId != Some(5001) then false
    else IsLocationStatic(key, randomizerType)
  }

  /** The locked record written for a fresh static key; only the merge sets `markedUseless`. */
  function LockedRecord(m: StaticMapping, withUselessFlag: bool): (a: Assignment)
    ensures a.locationId == Some(m.locationTypeId) && a.completed == Some(false)
    ensures a.isEditable == Some(false) && a.isStatic == Some(true)
    ensures a.chestCount == Some(ChestCountOrOne(m.chestCount))
    ensures a.markedUseless == (if withUselessFlag then Some(false) else None)
    ensures a.legacyType.None? && a.value.None? && a.number.None? && a.name.None?
  {
    NoFields.(locationId := Some(m.locationTypeId), completed := Some(false), isEditable := Some(false),
      isStatic := Some(true), chestCount := Some(ChestCountOrOne(m.chestCount)),
      markedUseless := if withUselessFlag then Some(false) else None)
  }

  /** `restoreStaticLocation`: null for a key that is not static, else a locked, uncompleted record. */
  function RestoreStaticLocation(key: string, randomizerType: string): (r: Option<Assignment>)
    ensures r.None? <==> !IsLocationStatic(key, randomizerType)
    ensures r.Some? ==> r.value == LockedRecord(GetStaticLocationData(key, randomizerType).value, false)
  {
    var staticData := GetStaticLocationData(key, randomizerType);
    if staticData.None? then None else Some(LockedRecord(staticData.value, false))
  }

  /** Key "18" restores to 4004, an id the resolver has no entry for, so the locked button shows '?'. */
  lemma AlwaysLockedKeyIsUnresolvable(randomizerType: string, completed: bool, chestCount: int)
    ensures RestoreStaticLocation("18", randomizerType).Some?
    ensures RestoreStaticLocation("18", randomizerType).value.locationId == Some(4004)
    ensures LocationResolver.Resolve(LocationTypes.Tables(), 4004, completed, chestCount).None?
  {
    StaticKeys("18", randomizerType);
    LocationTypes.RegistryFacts();
    LocationResolver.UnregisteredIdsResolveToNull(LocationTypes.Tables(), 4004, completed, chestCount);
  }

  // ---- locking the keys of a game ----

  /** One step of `applyStaticLocations`: lock an absent key with a fresh record, or flag an existing one static. */
  function LockOne(locations: map<string, Assignment>, m: StaticMapping): map<string, Assignment> {
    if m.mapLocationId !in locations then locations[m.mapLocationId := LockedRecord(m, true)]
    else locations[m.mapLocationId := locations[m.mapLocationId].(isStatic := Some(true))]
  }

  /** The mappings of `list` applied in order, left to right. */
  function LockAll(locations: map<string, Assignment>, list: seq<StaticMapping>): map<string, Assignment>
    decreases |list|
  {
    if list == [] then locations
    else LockOne(LockAll(locations, list[..|list| - 1]), list[|list| - 1])
  }

  /** The keys some mapping of `list` locks. */
  function LockedKeys(list: seq<StaticMapping>): set<string> {
    set i | 0 <= i < |list| :: list[i].mapLocationId
  }

  /** Does `i` index the first mapping of `list` for key `k`? */
  predicate FirstFor(list: seq<StaticMapping>, k: string, i: int) {
    0 <= i < |list| && list[i].mapLocationId == k && forall j :: 0 <= j < i ==> list[j].mapLocationId != k
  }

  /**
   * What locking does to each key: other keys keep their entries, an existing
   * locked key keeps every field and gains `isStatic`, and an absent locked key
   * gets the fresh record of the first mapping for it.
   */
  lemma {:induction false} LockAllSpec(locations: map<string, Assignment>, list: seq<StaticMapping>)
    ensures LockAll(locations, list).Keys == locations.Keys + LockedKeys(list)
    ensures forall k :: k in locations && k !in LockedKeys(list) ==> LockAll(locations, list)[k] == locations[k]
    ensures forall k :: k in locations && k in LockedKeys(list) ==>
      LockAll(locations, list)[k] == locations[k].(isStatic := Some(true))
    ensures forall k, i :: k !in locations && FirstFor(list, k, i) ==> LockAll(locations, list)[k] == LockedRecord(list[i], true)
    decreases |list|
  {
    if list != [] {
      var init := list[..|list| - 1];
      var last := list[|list| - 1];
      LockAllSpec(locations, init);
      LockedKeysSnoc(init, last);
      assert list == init + [last];
      forall k, i | k !in locations && FirstFor(list, k, i)
        ensures LockAll(locations, list)[k] == LockedRecord(list[i], true)
      {
        FirstForSnoc(init, last, k, i);
      }
    }
  }

  lemma LockedKeysSnoc(init: seq<StaticMapping>, last: StaticMapping)
    ensures LockedKeys(init + [last]) == LockedKeys(init) + {last.mapLocationId}
  {
    var list := init + [last];
    assert list[|init|] == last;
    forall k | k in LockedKeys(list) ensures k in LockedKeys(init) + {last.mapLocationId} {
      var i :| 0 <= i < |list| && list[i].mapLocationId == k;
      if i < |init| {
        assert init[i] == list[i];
      }
    }
    forall k | k in LockedKeys(init) ensures k in LockedKeys(list) {
      var i :| 0 <= i < |init| && init[i].mapLocationId == k;
      assert list[i] == init[i];
    }
  }

  lemma FirstForSnoc(init: seq<StaticMapping>, last: StaticMapping, k: string, i: int)
    requires FirstFor(init + [last], k, i)
    ensures i < |init| ==> FirstFor(init, k, i)
    ensures i == |init| ==> k == last.mapLocationId && k !in LockedKeys(init)
  {
    var list := init + [last];
    if i < |init| {
      assert init[i] == list[i];
      forall j | 0 <= j < i ensures init[j].mapLocationId != k {
        assert init[j] == list[j];
      }
    } else {
      forall j | 0 <= j < |init| ensures init[j].mapLocationId != k {
        assert init[j] == list[j];
      }
    }
  }

  /** A locked key's entry always carries `isStatic`. */
  lemma LockedKeysAreStatic(locations: map<string, Assignment>, list: seq<StaticMapping>, k: string)
    requires k in LockedKeys(list)
    ensures k in LockAll(locations, list) && LockAll(locations, list)[k].isStatic == Some(true)
  {
    LockAllSpec(locations, list);
    if k !in locations {
      var i := FirstIndexFor(list, k);
    }
  }

  /** The first index of `list` whose mapping locks `k`. */
  lemma FirstIndexFor(list: seq<StaticMapping>, k: string) returns (i: int)
    requires k in LockedKeys(list)
    ensures FirstFor(list, k, i)
  {
    var j :| 0 <= j < |list| && list[j].mapLocationId == k;
    assert LocksKey(k)(list[j]);
    i := Seqs.FindIndex(list, LocksKey(k));
  }

  /** Locking twice with the same list is locking once. */
  lemma LockAllIdempotent(locations: map<string, Assignment>, list: seq<StaticMapping>)
    ensures LockAll(LockAll(locations, list), list) == LockAll(locations, list)
  {
    var once := LockAll(locations, list);
    var twice := LockAll(once, list);
    LockAllSpec(locations, list);
    LockAllSpec(once, list);
    forall k | k in twice ensures twice[k] == once[k] {
      if k in LockedKeys(list) {
        LockedKeysAreStatic(locations, list, k);
      }
    }
  }

  /**
   * `applyStaticLocations(game)`: a copy of `game.locations` with the mode's
   * static mappings applied in list order. The game itself is a value, so the
   * input dictionary is left as it was.
   */
  method ApplyStaticLocations(game: Game) returns (locations: map<string, Assignment>)
    ensures locations == LockAll(game.locations, StaticLocationsForRandomizer(game.randomizerType))
  {
    var staticLocations := StaticLocationsForRandomizer(game.randomizerType);
    locations := game.locations;
    var n := 0;
    while n < |staticLocations|
      invariant 0 <= n <= |staticLocations|
      invariant locations == LockAll(game.locations, staticLocations[..n])
    {
      var staticLoc := staticLocations[n];
      if staticLoc.mapLocationId !in locations {
        locations := locations[staticLoc.mapLocationId := LockedRecord(staticLoc, true)];
      } else {
        locations := locations[staticLoc.mapLocationId := locations[staticLoc.mapLocationId].(isStatic := Some(true))];
      }
      assert staticLocations[..n + 1][..n] == staticLocations[..n];
      n := n + 1;
    }
    assert staticLocations[..n] == staticLocations;
  }

  /** With the current sets, a fresh game's keys "1" and "18" are locked to 3014 and 4004 with one chest, and nothing else is added. */
  lemma FreshGameLocks(game: Game)
    requires game.locations == map[]
    ensures LockAll(game.locations, StaticLocationsForRandomizer(game.randomizerType)).Keys == {"1", "18"}
    ensures LockAll(game.locations, StaticLocationsForRandomizer(game.randomizerType))["1"] == LockedRecord(StaticMapping("1", 3014, None), true)
    ensures LockAll(game.locations, StaticLocationsForRandomizer(game.randomizerType))["18"] == LockedRecord(StaticMapping("18", 4004, None), true)
  {
    var list := StaticLocationsForRandomizer(game.randomizerType);
    StaticSetsOfEveryMode(game.randomizerType);
    AlwaysKeys(list);
    LockAllSpec(game.locations, list);
  }

  /** The keys and first indices of the ALWAYS list, alone or doubled. */
  lemma AlwaysKeys(list: seq<StaticMapping>)
    requires list == AlwaysSet() || list == AlwaysSet() + AlwaysSet()
    ensures LockedKeys(list) == {"1", "18"}
    ensures FirstFor(list, "1", 0) && FirstFor(list, "18", 1)
  {
    assert list[0].mapLocationId == "1" && list[1].mapLocationId == "18";
    forall k | k in LockedKeys(list) ensures k == "1" || k == "18" {
      var i :| 0 <= i < |list| && list[i].mapLocationId == k;
      assert list[i] == AlwaysSet()[i % 2];
    }
  }
}
