/**
 * The location resolver: classifies a location id by range into the descriptor
 * the map button and the editor show, collects the ids a session already uses,
 * and lists the dungeons, connectors and special locations still free.
 */
module LocationResolver {
  import opened Wrappers
  import Seqs
  import Strings
  import opened LocationTypes
  import opened TrackerTypes

  // ---- resolving an id ----

  /** The descriptor `resolveLocationById` returns; its `type` is `Kind`. */
  datatype Resolved =
    | UsefulResolved(displayValue: string, description: string)
    | UselessResolved(displayValue: string, description: string)
    | DungeonResolved(acronym: string, fullName: string, completed: bool)
    | ConnectorResolved(name: string, number: int)

  /** The descriptor's `type` field. */
  function Kind(r: Resolved): TypeKey {
    match r
    case UsefulResolved(_, _) => UsefulType
    case UselessResolved(_, _) => UselessType
    case DungeonResolved(_, _, completed) => if completed then DungeonCompletedType else DungeonType
    case ConnectorResolved(_, _) => ConnectorType
  }

  /** "n Chest" or "n Chests". */
  function ChestDescription(n: int): string {
    Strings.IntToString(n) + " Chest" + (if n > 1 then "s" else "")
  }

  /**
   * `resolveLocationById(locationId, completed, chestCount)` over the registry
   * `reg` (the source's tables are `Tables()`): 0 (falsy) and ids with no table
   * entry resolve to `None`. Every descriptor's type agrees with the range its
   * id lies in, whatever the tables hold.
   */
  function Resolve(reg: Registry, locationId: int, completed: bool, chestCount: int): (r: Option<Resolved>)
    ensures locationId == 0 ==> r.None?
    ensures r.Some? ==> ((Kind(r.value) == DungeonType || Kind(r.value) == DungeonCompletedType) <==> 1001 <= locationId <= 1099)
    ensures r.Some? ==> (Kind(r.value) == ConnectorType <==> 2001 <= locationId <= 2999)
    ensures r.Some? ==> (Kind(r.value) == UsefulType <==> locationId == 4001 || 3001 <= locationId <= 3999)
    ensures r.Some? ==> (Kind(r.value) == UselessType <==> locationId == 5001)
    ensures locationId == 5001 ==> r == Some(UselessResolved("", "Useless Location"))
  {
    if locationId == 0 then None
    else if locationId == 4001 then
      Some(UsefulResolved("C" + Strings.IntToString(chestCount), ChestDescription(chestCount)))
    else if locationId == 5001 then
      Some(UselessResolved("", "Useless Location"))
    else if 1001 <= locationId <= 1099 && DungeonById(reg.dungeons, locationId).Some? then
      var d := DungeonById(reg.dungeons, locationId).value;
      Some(DungeonResolved(d.acronym, d.fullName, completed))
    else if 2001 <= locationId <= 2999 && ConnectorById(reg.connectors, locationId).Some? then
      var c := ConnectorById(reg.connectors, locationId).value;
      Some(ConnectorResolved(c.name, c.number))
    else if 3001 <= locationId <= 3999 && UsefulById(reg.useful, locationId).Some? then
      var u := UsefulById(reg.useful, locationId).value;
      Some(UsefulResolved(u.display, u.name))
    else None
  }

  /** An id resolves exactly when it is 4001, 5001, a registered dungeon, one of the connectors 2001-2026, or a registered id in 3001-3999. */
  lemma ResolveDefinedIff(reg: Registry, locationId: int, completed: bool, chestCount: int)
    requires RegistryShape(reg)
    ensures Resolve(reg, locationId, completed, chestCount).Some? <==>
      locationId == 4001 || locationId == 5001 || DungeonById(reg.dungeons, locationId).Some?
      || (2001 <= locationId <= 2026)
      || (3001 <= locationId <= 3999 && UsefulById(reg.useful, locationId).Some?)
  {
    DungeonByIdSpec(reg.dungeons, locationId);
    ConnectorByIdSpec(reg.connectors, locationId);
    if DungeonById(reg.dungeons, locationId).Some? {
      var i :| 0 <= i < |reg.dungeons| && reg.dungeons[i].id == locationId;
    }
  }

  /** Ids without a table entry resolve to `None`: 1004, 1099, 4004 and the static range 6001-6999. */
  lemma UnregisteredIdsResolveToNull(reg: Registry, locationId: int, completed: bool, chestCount: int)
    requires RegistryShape(reg)
    requires locationId == 1004 || locationId == 1099 || locationId == 4004 || 6001 <= locationId <= 6999
    ensures Resolve(reg, locationId, completed, chestCount).None?
  {
    ResolveDefinedIff(reg, locationId, completed, chestCount);
    DungeonByIdSpec(reg.dungeons, locationId);
  }

  /** 4001 resolves for every chest count, unclamped: "C" and the count, and "Chests" exactly when the count exceeds one. */
  lemma ChestsResolve(reg: Registry, completed: bool, chestCount: int)
    ensures Resolve(reg, 4001, completed, chestCount).Some?
    ensures Kind(Resolve(reg, 4001, completed, chestCount).value) == UsefulType
    ensures Resolve(reg, 4001, completed, chestCount).value.displayValue == "C" + Strings.IntToString(chestCount)
    ensures var d := Resolve(reg, 4001, completed, chestCount).value.description;
      d[|d| - 1] == 's' <==> chestCount > 1
  {
    var d := ChestDescription(chestCount);
    if chestCount > 1 {
      assert d[|d| - 1] == 's';
    } else {
      assert d[|d| - 1] == 't';
    }
  }

  /** For a registered dungeon, `completed` decides only the type and the `completed` field. */
  lemma DungeonResolveIgnoresCompletion(reg: Registry, locationId: int, chestCount: int)
    requires RegistryShape(reg)
    requires DungeonById(reg.dungeons, locationId).Some?
    ensures Resolve(reg, locationId, false, chestCount).Some? && Resolve(reg, locationId, true, chestCount).Some?
    ensures Kind(Resolve(reg, locationId, false, chestCount).value) == DungeonType
    ensures Kind(Resolve(reg, locationId, true, chestCount).value) == DungeonCompletedType
    ensures Resolve(reg, locationId, true, chestCount).value == Resolve(reg, locationId, false, chestCount).value.(completed := true)
    ensures Resolve(reg, locationId, false, chestCount).value.acronym == DungeonById(reg.dungeons, locationId).value.acronym
    ensures Resolve(reg, locationId, false, chestCount).value.fullName == DungeonById(reg.dungeons, locationId).value.fullName
  {
    DungeonByIdSpec(reg.dungeons, locationId);
    var i :| 0 <= i < |reg.dungeons| && reg.dungeons[i].id == locationId;
  }

  /** A registered connector resolves to its table name and pair number. */
  lemma ConnectorResolves(reg: Registry, locationId: int, completed: bool, chestCount: int)
    requires RegistryShape(reg)
    requires 2001 <= locationId <= 2026
    ensures Resolve(reg, locationId, completed, chestCount) ==
      Some(ConnectorResolved(reg.connectors[locationId - 2001].name, reg.connectors[locationId - 2001].number))
  {
    ConnectorByIdSpec(reg.connectors, locationId);
  }

  /** A registered id in 3001-3999 resolves to a useful descriptor carrying its table entry's display text and name. */
  lemma SpecialResolves(reg: Registry, i: int, completed: bool, chestCount: int)
    requires RegistryShape(reg)
    requires 0 <= i < |reg.useful| && 3001 <= reg.useful[i].id <= 3999
    ensures Resolve(reg, reg.useful[i].id, completed, chestCount) == Some(UsefulResolved(reg.useful[i].display, reg.useful[i].name))
  {
    UsefulByIdSpec(reg.useful, reg.useful[i].id);
  }

  // ---- ids in use ----

  /** `getUsedLocationIds`: the ids held in each range. The source's arrays are only ever searched with `includes`. */
  datatype UsedIds = UsedIds(dungeons: set<int>, connectors: set<int>, specialUseful: set<int>)

  /** Does the entry at `key` count: not the excluded key, and holding a truthy `locationId`? */
  predicate Counts(locations: map<string, Assignment>, exclude: Option<string>, key: string)
    requires key in locations
  {
    Some(key) != exclude && TruthyInt(locations[key].locationId)
  }

  /** The ids in `lo..hi` held by the counted entries among `keys`. */
  function HeldIn(locations: map<string, Assignment>, exclude: Option<string>, keys: set<string>, lo: int, hi: int): set<int> {
    set k | k in keys && k in locations && Counts(locations, exclude, k)
      && lo <= locations[k].locationId.value <= hi :: locations[k].locationId.value
  }

  /** The specification of `getUsedLocationIds`: no game means nothing is used. */
  function UsedLocationIds(game: Option<Game>, exclude: Option<string>): UsedIds {
    if game.None? then UsedIds({}, {}, {})
    else
      var locs := game.value.locations;
      UsedIds(HeldIn(locs, exclude, locs.Keys, 1001, 1099),
              HeldIn(locs, exclude, locs.Keys, 2001, 2999),
              HeldIn(locs, exclude, locs.Keys, 3001, 3999))
  }

  /** Visiting a key whose id does not count in `lo..hi` leaves that bucket as it was. */
  lemma HeldInSkip(locations: map<string, Assignment>, exclude: Option<string>, keys: set<string>, k: string, lo: int, hi: int)
    requires k in locations
    requires !(Counts(locations, exclude, k) && lo <= locations[k].locationId.value <= hi)
    ensures HeldIn(locations, exclude, keys + {k}, lo, hi) == HeldIn(locations, exclude, keys, lo, hi)
  {
  }

  /** Visiting a key whose id counts in `lo..hi` adds that id to the bucket. */
  lemma HeldInAdd(locations: map<string, Assignment>, exclude: Option<string>, keys: set<string>, k: string, lo: int, hi: int)
    requires k in locations
    requires Counts(locations, exclude, k) && lo <= locations[k].locationId.value <= hi
    ensures HeldIn(locations, exclude, keys + {k}, lo, hi) == HeldIn(locations, exclude, keys, lo, hi) + {locations[k].locationId.value}
  {
  }

  /** Moving one key from the keys still to visit to the visited ones keeps the split of `all`. */
  lemma MoveKey<K>(all: set<K>, remaining: set<K>, visited: set<K>, key: K)
    requires remaining + visited == all && remaining !! visited && key in remaining
    ensures (remaining - {key}) + (visited + {key}) == all && (remaining - {key}) !! (visited + {key})
  {
  }

  /**
   * `getUsedLocationIds(game, exclude)`: walks the entries, skips the excluded
   * key and entries without a truthy `locationId`, and buckets each id by range;
   * 4001, 5001 and the static range land in no bucket.
   */
  method GetUsedLocationIds(game: Option<Game>, exclude: Option<string>) returns (used: UsedIds)
    ensures used == UsedLocationIds(game, exclude)
  {
    if game.None? {
      return UsedIds({}, {}, {});
    }
    var locs := game.value.locations;
    var dungeons: set<int> := {};
    var connectors: set<int> := {};
    var special: set<int> := {};
    var visited: set<string> := {};
    var remaining := locs.Keys;
    while remaining != {}
      invariant remaining + visited == locs.Keys && remaining !! visited
      invariant dungeons == HeldIn(locs, exclude, visited, 1001, 1099)
      invariant connectors == HeldIn(locs, exclude, visited, 2001, 2999)
      invariant special == HeldIn(locs, exclude, visited, 3001, 3999)
      decreases |remaining|
    {
      var key :| key in remaining;
      if Some(key) != exclude && TruthyInt(locs[key].locationId) {
        var id := locs[key].locationId.value;
        if 1001 <= id <= 1099 {
          HeldInAdd(locs, exclude, visited, key, 1001, 1099);
          HeldInSkip(locs, exclude, visited, key, 2001, 2999);
          HeldInSkip(locs, exclude, visited, key, 3001, 3999);
          dungeons := dungeons + {id};
        } else if 2001 <= id <= 2999 {
          HeldInSkip(locs, exclude, visited, key, 1001, 1099);
          HeldInAdd(locs, exclude, visited, key, 2001, 2999);
          HeldInSkip(locs, exclude, visited, key, 3001, 3999);
          connectors := connectors + {id};
        } else if 3001 <= id <= 3999 {
          HeldInSkip(locs, exclude, visited, key, 1001, 1099);
          HeldInSkip(locs, exclude, visited, key, 2001, 2999);
          HeldInAdd(locs, exclude, visited, key, 3001, 3999);
          special := special + {id};
        } else {
          HeldInSkip(locs, exclude, visited, key, 1001, 1099);
          HeldInSkip(locs, exclude, visited, key, 2001, 2999);
          HeldInSkip(locs, exclude, visited, key, 3001, 3999);
        }
      } else {
        HeldInSkip(locs, exclude, visited, key, 1001, 1099);
        HeldInSkip(locs, exclude, visited, key, 2001, 2999);
        HeldInSkip(locs, exclude, visited, key, 3001, 3999);
      }
      MoveKey(locs.Keys, remaining, visited, key);
      visited := visited + {key};
      remaining := remaining - {key};
    }
    assert visited == locs.Keys;
    used := UsedIds(dungeons, connectors, special);
  }

  /** An id is used exactly when a counted entry holds it; the three buckets are the three ranges. */
  lemma UsedIdsSpec(game: Game, exclude: Option<string>, x: int)
    ensures var u := UsedLocationIds(Some(game), exclude);
      (x in u.dungeons <==> 1001 <= x <= 1099 && exists k :: k in game.locations && Some(k) != exclude && game.locations[k].locationId == Some(x))
      && (x in u.connectors <==> 2001 <= x <= 2999 && exists k :: k in game.locations && Some(k) != exclude && game.locations[k].locationId == Some(x))
      && (x in u.specialUseful <==> 3001 <= x <= 3999 && exists k :: k in game.locations && Some(k) != exclude && game.locations[k].locationId == Some(x))
  {
  }

  // ---- free entries ----

  /** `lightWorldDungeonIds`, as written in both branches of the world filter. */
  const LightWorldDungeonIds: seq<int> := [1001, 1002, 1003, 1004, 1005, 1006, 1007, 1008, 1009, 1010]

  function DungeonNotIn(used: set<int>): DungeonEntry -> bool {
    (d: DungeonEntry) => d.id !in used
  }

  function InLightWorld(): DungeonEntry -> bool {
    (d: DungeonEntry) => d.id in LightWorldDungeonIds
  }

  function NotInLightWorld(): DungeonEntry -> bool {
    (d: DungeonEntry) => d.id !in LightWorldDungeonIds
  }

  /** Is the world filter on: a Dungeons Simple game and a truthy world? */
  predicate WorldFiltered(game: Option<Game>, world: Option<string>) {
    game.Some? && game.value.randomizerType == "Dungeons Simple" && TruthyString(world)
  }

  /** Does the world filter let dungeon `id` through? */
  predicate WorldAllows(game: Option<Game>, world: Option<string>, id: int) {
    WorldFiltered(game, world) ==> (id in LightWorldDungeonIds <==> world == Some("light"))
  }

  /** `getAvailableDungeons(game, exclude, world)` over the dungeon table of `reg`. */
  function AvailableDungeons(reg: Registry, game: Option<Game>, exclude: Option<string>, world: Option<string>): seq<DungeonEntry> {
    var avail := Seqs.Filter(reg.dungeons, DungeonNotIn(UsedLocationIds(game, exclude).dungeons));
    if WorldFiltered(game, world) then
      if world.value == "light" then Seqs.Filter(avail, InLightWorld()) else Seqs.Filter(avail, NotInLightWorld())
    else avail
  }

  /** The free dungeons are the table entries not in use that the world filter admits, in table order. */
  lemma AvailableDungeonsSpec(reg: Registry, game: Option<Game>, exclude: Option<string>, world: Option<string>)
    ensures forall d :: d in AvailableDungeons(reg, game, exclude, world) <==>
      d in reg.dungeons && d.id !in UsedLocationIds(game, exclude).dungeons && WorldAllows(game, world, d.id)
    ensures Seqs.IsSubsequence(AvailableDungeons(reg, game, exclude, world), reg.dungeons)
  {
    var used := UsedLocationIds(game, exclude).dungeons;
    var avail := Seqs.Filter(reg.dungeons, DungeonNotIn(used));
    Seqs.FilterSpec(reg.dungeons, DungeonNotIn(used));
    Seqs.FilterIsSubsequence(reg.dungeons, DungeonNotIn(used));
    if WorldFiltered(game, world) {
      var p := if world.value == "light" then InLightWorld() else NotInLightWorld();
      Seqs.FilterSpec(avail, p);
      Seqs.FilterIsSubsequence(avail, p);
      SubsequenceTransitive(Seqs.Filter(avail, p), avail, reg.dungeons);
    }
  }

  lemma {:induction false} SubsequenceTransitive<T>(a: seq<T>, b: seq<T>, c: seq<T>)
    requires Seqs.IsSubsequence(a, b) && Seqs.IsSubsequence(b, c)
    ensures Seqs.IsSubsequence(a, c)
    decreases |c|
  {
    if a != [] && c != [] {
      if b != [] && b[0] == c[0] && Seqs.IsSubsequence(b[1..], c[1..]) {
        if a[0] == b[0] && Seqs.IsSubsequence(a[1..], b[1..]) {
          SubsequenceTransitive(a[1..], b[1..], c[1..]);
        } else {
          SubsequenceTransitive(a, b[1..], c[1..]);
        }
      } else {
        SubsequenceTransitive(a, b, c[1..]);
      }
    }
  }

  /** A dungeon held at some key other than the excluded one is not offered. */
  lemma HeldDungeonNotOffered(reg: Registry, game: Game, key: string, exclude: Option<string>, world: Option<string>)
    requires key in game.locations && Some(key) != exclude
    requires game.locations[key].locationId.Some? && 1001 <= game.locations[key].locationId.value <= 1099
    ensures forall d :: d in AvailableDungeons(reg, Some(game), exclude, world) ==> d.id != game.locations[key].locationId.value
  {
    AvailableDungeonsSpec(reg, Some(game), exclude, world);
    UsedIdsSpec(game, exclude, game.locations[key].locationId.value);
  }

  /** A dungeon held only at the key being edited is offered again when that key is excluded (outside the world filter). */
  lemma ExcludedKeyFreesDungeon(reg: Registry, game: Game, key: string, i: int, world: Option<string>)
    requires 0 <= i < |reg.dungeons| && 1001 <= reg.dungeons[i].id <= 1099
    requires key in game.locations && game.locations[key].locationId == Some(reg.dungeons[i].id)
    requires forall k :: k in game.locations && k != key ==> game.locations[k].locationId != Some(reg.dungeons[i].id)
    requires WorldAllows(Some(game), world, reg.dungeons[i].id)
    ensures reg.dungeons[i] in AvailableDungeons(reg, Some(game), Some(key), world)
    ensures reg.dungeons[i] !in AvailableDungeons(reg, Some(game), None, world)
  {
    AvailableDungeonsSpec(reg, Some(game), Some(key), world);
    AvailableDungeonsSpec(reg, Some(game), None, world);
    UsedIdsSpec(game, Some(key), reg.dungeons[i].id);
    UsedIdsSpec(game, None, reg.dungeons[i].id);
  }

  /** In Dungeons Simple the light-world and dark-world offers are disjoint and together are exactly the free dungeons. */
  lemma DungeonsSimpleWorldsPartition(reg: Registry, game: Game, exclude: Option<string>)
    requires game.randomizerType == "Dungeons Simple"
    ensures forall d :: d in AvailableDungeons(reg, Some(game), exclude, Some("light")) ==> d !in AvailableDungeons(reg, Some(game), exclude, Some("dark"))
    ensures multiset(AvailableDungeons(reg, Some(game), exclude, Some("light"))) + multiset(AvailableDungeons(reg, Some(game), exclude, Some("dark")))
      == multiset(AvailableDungeons(reg, Some(game), exclude, None))
  {
    AvailableDungeonsSpec(reg, Some(game), exclude, Some("light"));
    AvailableDungeonsSpec(reg, Some(game), exclude, Some("dark"));
    var avail := Seqs.Filter(reg.dungeons, DungeonNotIn(UsedLocationIds(Some(game), exclude).dungeons));
    assert AvailableDungeons(reg, Some(game), exclude, None) == avail;
    assert AvailableDungeons(reg, Some(game), exclude, Some("light")) == Seqs.Filter(avail, InLightWorld());
    assert AvailableDungeons(reg, Some(game), exclude, Some("dark")) == Seqs.Filter(avail, NotInLightWorld());
    Seqs.FilterSplit(avail, InLightWorld(), NotInLightWorld());
  }

  /** The light-world list names 1004, which no dungeon has, and leaves out Eastern Palace (1045), which is therefore offered only in the dark world. */
  lemma LightWorldListQuirks(reg: Registry, game: Game, exclude: Option<string>)
    requires RegistryShape(reg)
    requires game.randomizerType == "Dungeons Simple"
    ensures 1004 in LightWorldDungeonIds && DungeonById(reg.dungeons, 1004).None?
    ensures 1045 !in LightWorldDungeonIds
    ensures forall d :: d in AvailableDungeons(reg, Some(game), exclude, Some("light")) ==> d.id != 1045
  {
    DungeonByIdSpec(reg.dungeons, 1004);
    AvailableDungeonsSpec(reg, Some(game), exclude, Some("light"));
  }

  function ConnectorNotIn(used: set<int>): ConnectorEntry -> bool {
    (c: ConnectorEntry) => c.id !in used
  }

  /** `getAvailableConnectors(game, exclude)` over the connector table of `reg`. */
  function AvailableConnectors(reg: Registry, game: Option<Game>, exclude: Option<string>): seq<ConnectorEntry> {
    Seqs.Filter(reg.connectors, ConnectorNotIn(UsedLocationIds(game, exclude).connectors))
  }

  /** The free connectors are the table entries not in use, in table order. */
  lemma AvailableConnectorsSpec(reg: Registry, game: Option<Game>, exclude: Option<string>)
    ensures forall c :: c in AvailableConnectors(reg, game, exclude) <==> c in reg.connectors && c.id !in UsedLocationIds(game, exclude).connectors
    ensures Seqs.IsSubsequence(AvailableConnectors(reg, game, exclude), reg.connectors)
  {
    var used := UsedLocationIds(game, exclude).connectors;
    Seqs.FilterSpec(reg.connectors, ConnectorNotIn(used));
    Seqs.FilterIsSubsequence(reg.connectors, ConnectorNotIn(used));
  }

  function IsSpecial(): UsefulEntry -> bool {
    (u: UsefulEntry) => u.kind == Special
  }

  function SpecialFree(used: set<int>): UsefulEntry -> bool {
    (u: UsefulEntry) => u.id !in used || u.id == 3098 || u.id == 3099
  }

  /** `getAvailableSpecialLocations(game, exclude)` over the useful table of `reg`: 3098 and 3099 stay on offer even when used. */
  function AvailableSpecialLocations(reg: Registry, game: Option<Game>, exclude: Option<string>): seq<UsefulEntry> {
    Seqs.Filter(Seqs.Filter(reg.useful, IsSpecial()), SpecialFree(UsedLocationIds(game, exclude).specialUseful))
  }

  /** The offered specials are the `special` entries that are free or are 3098/3099, in table order. */
  lemma AvailableSpecialLocationsSpec(reg: Registry, game: Option<Game>, exclude: Option<string>)
    ensures forall u :: u in AvailableSpecialLocations(reg, game, exclude) <==>
      u in reg.useful && u.kind == Special
      && (u.id !in UsedLocationIds(game, exclude).specialUseful || u.id == 3098 || u.id == 3099)
    ensures Seqs.IsSubsequence(AvailableSpecialLocations(reg, game, exclude), reg.useful)
  {
    var used := UsedLocationIds(game, exclude).specialUseful;
    var specials := Seqs.Filter(reg.useful, IsSpecial());
    Seqs.FilterSpec(reg.useful, IsSpecial());
    Seqs.FilterSpec(specials, SpecialFree(used));
    Seqs.FilterIsSubsequence(reg.useful, IsSpecial());
    Seqs.FilterIsSubsequence(specials, SpecialFree(used));
    SubsequenceTransitive(AvailableSpecialLocations(reg, game, exclude), specials, reg.useful);
  }

  /** Hence 4001 and 5001 are never offered, and 3098 and 3099 always are. */
  lemma SpecialOfferBounds(reg: Registry, game: Option<Game>, exclude: Option<string>)
    requires RegistryShape(reg)
    ensures forall u :: u in AvailableSpecialLocations(reg, game, exclude) ==> 3001 <= u.id <= 3999
    ensures reg.useful[15] in AvailableSpecialLocations(reg, game, exclude) && reg.useful[15].id == 3098
    ensures reg.useful[16] in AvailableSpecialLocations(reg, game, exclude) && reg.useful[16].id == 3099
  {
    AvailableSpecialLocationsSpec(reg, game, exclude);
    forall u | u in AvailableSpecialLocations(reg, game, exclude) ensures 3001 <= u.id <= 3999 {
      var i :| 0 <= i < |reg.useful| && reg.useful[i] == u;
    }
  }

  // ---- check lists and group keys ----

  /** `getLocationChecks(locationId)`: the `checks` list of a special location, `[]` otherwise. */
  function GetLocationChecks(reg: Registry, locationId: int): seq<string> {
    if locationId == 0 then []
    else if 3001 <= locationId <= 3999 then
      match UsefulById(reg.useful, locationId)
      case Some(u) => u.checks.GetOr([])
      case None => []
    else []
  }

  /** No entry of the tables carries a `checks` list, so every id has no checks. */
  lemma NoLocationHasChecks(reg: Registry, locationId: int)
    requires RegistryShape(reg)
    ensures GetLocationChecks(reg, locationId) == []
  {
    UsefulByIdSpec(reg.useful, locationId);
    if UsefulById(reg.useful, locationId).Some? {
      var i :| 0 <= i < |reg.useful| && reg.useful[i].id == locationId;
    }
  }

  /** `getLocationGroupKey(locationId)`: the key check status would be grouped under. */
  function GetLocationGroupKey(reg: Registry, locationId: int): Option<string> {
    if locationId == 0 then None
    else if 1001 <= locationId <= 1099 then
      match DungeonById(reg.dungeons, locationId)
      case Some(d) => if TruthyInt(d.groupId) then Some("dungeon_" + Strings.IntToString(d.groupId.value)) else None
      case None => None
    else if 2001 <= locationId <= 2999 then
      match ConnectorById(reg.connectors, locationId)
      case Some(c) => if TruthyInt(c.groupId) then Some("connector_" + Strings.IntToString(c.groupId.value)) else None
      case None => None
    else if 3001 <= locationId <= 3999 then Some("location_" + Strings.IntToString(locationId))
    else None
  }

  /** With no `groupId` in the tables, only 3001-3999 have a group key, and it is "location_" and the id. */
  lemma GroupKeyOnlyForSpecials(reg: Registry, locationId: int)
    requires RegistryShape(reg)
    ensures GetLocationGroupKey(reg, locationId) ==
      if 3001 <= locationId <= 3999 then Some("location_" + Strings.IntToString(locationId)) else None
  {
    DungeonByIdSpec(reg.dungeons, locationId);
    ConnectorByIdSpec(reg.connectors, locationId);
    if DungeonById(reg.dungeons, locationId).Some? {
      var i :| 0 <= i < |reg.dungeons| && reg.dungeons[i].id == locationId;
    }
  }
}
