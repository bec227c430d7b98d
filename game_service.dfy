/**
 * The game service: creating a session with the locations its mode starts
 * with, the finish/reactivate and last-saved updates, the progress figures,
 * the ordering of the session list, and the migration applied to stored
 * sessions when they are loaded. The clock and new ids are parameters.
 */
module GameService {
  import opened Wrappers
  import Seqs
  import opened TrackerTypes
  import Json

  // ---- default locations ----

  /** `location.defaultValue || 'X'`. */
  function ValueOrX(v: Option<string>): (r: string)
    ensures r != ""
    ensures TruthyString(v) ==> r == v.value
  {
    if TruthyString(v) then v.value else "X"
  }

  /** The record the default builders write for a map location; `editable` is the builder's `isEditable`. */
  function DefaultEntry(loc: MapLocation, editable: bool): (a: Assignment)
    ensures a.legacyType == loc.defaultType && a.value == Some(ValueOrX(loc.defaultValue))
    ensures a.isEditable == Some(editable)
    ensures loc.defaultType == Some("connector") ==> a.number == loc.defaultNumber && a.name == loc.defaultName
    ensures loc.defaultType != Some("connector") ==> a.number.None? && a.name.None?
    ensures a.locationId.None? && a.completed.None? && a.markedUseless.None? && a.chestCount.None? && a.isStatic.None?
  {
    var base := NoFields.(legacyType := loc.defaultType, value := Some(ValueOrX(loc.defaultValue)), isEditable := Some(editable));
    if loc.defaultType == Some("connector") then base.(number := loc.defaultNumber, name := loc.defaultName) else base
  }

  /** Does the builder write an entry for `loc`? Both need a default type; the Dungeons Simple one skips dungeons. */
  predicate Contributes(loc: MapLocation, dungeonsSimple: bool) {
    TruthyString(loc.defaultType) && !(dungeonsSimple && loc.defaultType == Some("dungeon"))
  }

  /** The builder's `isEditable`: false for Vanilla, "is a dungeon" for Dungeons Simple. */
  function EditableDefault(loc: MapLocation, dungeonsSimple: bool): bool {
    dungeonsSimple && loc.defaultType == Some("dungeon")
  }

  /** The dictionary a builder has written after visiting `entries` in order; a later entry overwrites an earlier one. */
  function DefaultsOf(entries: seq<MapLocation>, dungeonsSimple: bool): map<string, Assignment>
    decreases |entries|
  {
    if entries == [] then map[]
    else
      var rest := DefaultsOf(entries[..|entries| - 1], dungeonsSimple);
      var loc := entries[|entries| - 1];
      if Contributes(loc, dungeonsSimple) then rest[loc.id := DefaultEntry(loc, EditableDefault(loc, dungeonsSimple))] else rest
  }

  /** Does `i` index the last contributing entry for key `k`? */
  predicate LastFor(entries: seq<MapLocation>, dungeonsSimple: bool, k: string, i: int) {
    0 <= i < |entries| && entries[i].id == k && Contributes(entries[i], dungeonsSimple)
    && forall j :: i < j < |entries| ==> !(entries[j].id == k && Contributes(entries[j], dungeonsSimple))
  }

  /**
   * The keys are exactly the ids of contributing entries, and each key holds
   * the record of the last contributing entry with that id.
   */
  lemma {:induction false} DefaultsOfSpec(entries: seq<MapLocation>, dungeonsSimple: bool)
    ensures forall k :: k in DefaultsOf(entries, dungeonsSimple) <==>
      exists i :: 0 <= i < |entries| && entries[i].id == k && Contributes(entries[i], dungeonsSimple)
    ensures forall k, i :: LastFor(entries, dungeonsSimple, k, i) ==>
      DefaultsOf(entries, dungeonsSimple)[k] == DefaultEntry(entries[i], EditableDefault(entries[i], dungeonsSimple))
    decreases |entries|
  {
    if entries != [] {
      var init := entries[..|entries| - 1];
      var loc := entries[|entries| - 1];
      DefaultsOfSpec(init, dungeonsSimple);
      forall k ensures k in DefaultsOf(entries, dungeonsSimple) <==>
        exists i :: 0 <= i < |entries| && entries[i].id == k && Contributes(entries[i], dungeonsSimple)
      {
        if k in DefaultsOf(init, dungeonsSimple) {
          var i :| 0 <= i < |init| && init[i].id == k && Contributes(init[i], dungeonsSimple);
          assert entries[i] == init[i];
        }
        if exists i :: 0 <= i < |entries| && entries[i].id == k && Contributes(entries[i], dungeonsSimple) {
          var i :| 0 <= i < |entries| && entries[i].id == k && Contributes(entries[i], dungeonsSimple);
          if i < |init| {
            assert init[i] == entries[i];
          }
        }
      }
      forall k, i | LastFor(entries, dungeonsSimple, k, i)
        ensures DefaultsOf(entries, dungeonsSimple)[k] == DefaultEntry(entries[i], EditableDefault(entries[i], dungeonsSimple))
      {
        if i < |init| {
          assert init[i] == entries[i];
          assert LastFor(init, dungeonsSimple, k, i);
        }
      }
    }
  }

  /** Every default entry is locked and has a display value; Dungeons Simple writes no dungeon entry. */
  lemma DefaultEntriesLocked(entries: seq<MapLocation>, dungeonsSimple: bool, k: string)
    requires k in DefaultsOf(entries, dungeonsSimple)
    ensures DefaultsOf(entries, dungeonsSimple)[k].isEditable == Some(false)
    ensures DefaultsOf(entries, dungeonsSimple)[k].value.Some?
    ensures TruthyString(DefaultsOf(entries, dungeonsSimple)[k].legacyType)
    ensures dungeonsSimple ==> DefaultsOf(entries, dungeonsSimple)[k].legacyType != Some("dungeon")
  {
    DefaultsOfSpec(entries, dungeonsSimple);
    var i := LastIndexFor(entries, dungeonsSimple, k);
  }

  /** The last contributing entry for a key the builder wrote. */
  lemma LastIndexFor(entries: seq<MapLocation>, dungeonsSimple: bool, k: string) returns (i: int)
    requires exists i :: 0 <= i < |entries| && entries[i].id == k && Contributes(entries[i], dungeonsSimple)
    ensures LastFor(entries, dungeonsSimple, k, i)
  {
    var j :| 0 <= j < |entries| && entries[j].id == k && Contributes(entries[j], dungeonsSimple);
    i := j;
    var n := j + 1;
    while n < |entries|
      invariant j <= i < n <= |entries|
      invariant entries[i].id == k && Contributes(entries[i], dungeonsSimple)
      invariant forall m :: i < m < n ==> !(entries[m].id == k && Contributes(entries[m], dungeonsSimple))
    {
      if entries[n].id == k && Contributes(entries[n], dungeonsSimple) {
        i := n;
      }
      n := n + 1;
    }
  }

  /** `getDefaultLocations`: a locked entry for every map location with a default type, light world first. */
  method GetDefaultLocations(mapData: MapData) returns (locations: map<string, Assignment>)
    ensures locations == DefaultsOf(mapData.light + mapData.dark, false)
  {
    var all := mapData.light + mapData.dark;
    locations := map[];
    var n := 0;
    while n < |all|
      invariant 0 <= n <= |all|
      invariant locations == DefaultsOf(all[..n], false)
    {
      var location := all[n];
      if TruthyString(location.defaultType) {
        var locationData := NoFields.(legacyType := location.defaultType, value := Some(ValueOrX(location.defaultValue)), isEditable := Some(false));
        if location.defaultType == Some("connector") {
          locationData := locationData.(number := location.defaultNumber, name := location.defaultName);
        }
        locations := locations[location.id := locationData];
      }
      assert all[..n + 1][..n] == all[..n];
      n := n + 1;
    }
    assert all[..n] == all;
  }

  /** `getDungeonsSimpleLocations`: as the Vanilla builder, but dungeon entries are left for the player to assign. */
  method GetDungeonsSimpleLocations(mapData: MapData) returns (locations: map<string, Assignment>)
    ensures locations == DefaultsOf(mapData.light + mapData.dark, true)
  {
    var all := mapData.light + mapData.dark;
    locations := map[];
    var n := 0;
    while n < |all|
      invariant 0 <= n <= |all|
      invariant locations == DefaultsOf(all[..n], true)
    {
      var location := all[n];
      if TruthyString(location.defaultType) {
        var locationData := NoFields.(legacyType := location.defaultType, value := Some(ValueOrX(location.defaultValue)),
          isEditable := Some(location.defaultType == Some("dungeon")));
        if location.defaultType == Some("connector") {
          locationData := locationData.(number := location.defaultNumber, name := location.defaultName);
        }
        if location.defaultType != Some("dungeon") {
          locations := locations[location.id := locationData];
        }
      }
      assert all[..n + 1][..n] == all[..n];
      n := n + 1;
    }
    assert all[..n] == all;
  }

  // ---- creating a game ----

  /** The starting locations of a mode: the Vanilla defaults, the Dungeons Simple defaults, or none. */
  function StartingLocations(randomizerType: string, mapData: MapData): map<string, Assignment> {
    if randomizerType == "Vanilla" then DefaultsOf(mapData.light + mapData.dark, false)
    else if randomizerType == "Dungeons Simple" then DefaultsOf(mapData.light + mapData.dark, true)
    else map[]
  }

  /**
   * `createGame`: a new, unfinished session with no notes, holding the form's
   * fields; `id` is the clock reading used as its id, `created` and `lastSaved`
   * the two timestamps taken.
   */
  method CreateGame(gameData: GameData, mapData: MapData, id: int, created: int, lastSaved: int) returns (newGame: Game)
    ensures newGame.id == id && newGame.created == created && newGame.lastSaved == lastSaved
    ensures newGame.name == gameData.name && newGame.randomizerType == gameData.randomizerType
    ensures newGame.isInverted == gameData.isInverted
    ensures !newGame.isFinished && newGame.finishedDate.None?
    ensures newGame.globalNotes == Some([]) && newGame.checkStatus.None?
    ensures newGame.locations == StartingLocations(gameData.randomizerType, mapData)
  {
    newGame := Game(id, gameData.name, gameData.randomizerType, gameData.isInverted, created, lastSaved,
      false, None, map[], None, Some([]));
    if gameData.randomizerType == "Vanilla" {
      var locations := GetDefaultLocations(mapData);
      newGame := newGame.(locations := locations);
    } else if gameData.randomizerType == "Dungeons Simple" {
      var locations := GetDungeonsSimpleLocations(mapData);
      newGame := newGame.(locations := locations);
    }
  }

  /** Only Vanilla and Dungeons Simple start with entries, and every starting entry is locked. */
  lemma StartingLocationsLocked(randomizerType: string, mapData: MapData, k: string)
    ensures randomizerType != "Vanilla" && randomizerType != "Dungeons Simple" ==> StartingLocations(randomizerType, mapData) == map[]
    ensures k in StartingLocations(randomizerType, mapData) ==> StartingLocations(randomizerType, mapData)[k].isEditable == Some(false)
    ensures randomizerType == "Dungeons Simple" && k in StartingLocations(randomizerType, mapData) ==>
      StartingLocations(randomizerType, mapData)[k].legacyType != Some("dungeon")
  {
    if k in StartingLocations(randomizerType, mapData) {
      DefaultEntriesLocked(mapData.light + mapData.dark, randomizerType == "Dungeons Simple", k);
    }
  }

  // ---- finishing and saving ----

  /** `updateGameLastSaved`: only `lastSaved` changes. */
  function UpdateGameLastSaved(game: Game, now: int): (r: Game)
    ensures r.lastSaved == now
    ensures r.(lastSaved := game.lastSaved) == game
  {
    game.(lastSaved := now)
  }

  /** `markGameFinished`: finished, with the finishing time; nothing else changes. */
  function MarkGameFinished(game: Game, now: int): (r: Game)
    ensures r.isFinished && r.finishedDate == Some(now)
    ensures r.(isFinished := game.isFinished, finishedDate := game.finishedDate) == game
  {
    game.(isFinished := true, finishedDate := Some(now))
  }

  /** `markGameActive`: active again, with no finishing time; nothing else changes. */
  function MarkGameActive(game: Game): (r: Game)
    ensures !r.isFinished && r.finishedDate.None?
    ensures r.(isFinished := game.isFinished, finishedDate := game.finishedDate) == game
  {
    game.(isFinished := false, finishedDate := None)
  }

  /** Reactivating a game just finished gives back an active game; finishing undoes a reactivation. */
  lemma FinishActivateRoundTrip(game: Game, now: int)
    ensures !game.isFinished && game.finishedDate.None? ==> MarkGameActive(MarkGameFinished(game, now)) == game
    ensures game.isFinished && game.finishedDate == Some(now) ==> MarkGameFinished(MarkGameActive(game), now) == game
    ensures MarkGameActive(MarkGameActive(game)) == MarkGameActive(game)
  {
  }

  // ---- progress ----

  /** What `getProgressStats` returns; `percentageComplete` is None when the total is 0 (the source divides by it). */
  datatype Stats = Stats(total: int, marked: int, unmarked: int, useful: int, connector: int, dungeon: int, useless: int,
    percentageComplete: Option<int>)

  /** The keys whose entry has legacy type `t` (`loc.type === t`). */
  function KeysOfType(locations: map<string, Assignment>, t: string): set<string> {
    set k | k in locations && locations[k].legacyType == Some(t)
  }

  /** The integer floor of `a / b`, for a nonzero `b`. */
  function FloorDiv(a: int, b: int): (q: int)
    requires b != 0
    ensures b > 0 ==> b * q <= a < b * (q + 1)
    ensures b < 0 ==> b * q >= a > b * (q + 1)
  {
    if b > 0 then a / b else (-a) / (-b)
  }

  /** `Math.round(marked / total * 100)` on exact rationals: the nearest integer, halves rounded up. */
  function RoundedPercentage(marked: int, total: int): (p: Option<int>)
    ensures p.None? <==> total == 0
    ensures total > 0 ==> 2 * total * p.value <= 200 * marked + total < 2 * total * (p.value + 1)
  {
    if total == 0 then None else Some(FloorDiv(200 * marked + total, 2 * total))
  }

  /** `getProgressStats(game, totalLocations)`; the source's default total is 147. */
  function GetProgressStats(game: Game, totalLocations: int): (s: Stats)
    ensures s.total == totalLocations && s.marked == |game.locations.Keys| && s.marked + s.unmarked == s.total
    ensures s.useful == |KeysOfType(game.locations, "useful")| && s.connector == |KeysOfType(game.locations, "connector")|
    ensures s.dungeon == |KeysOfType(game.locations, "dungeon")| && s.useless == |KeysOfType(game.locations, "useless")|
    ensures s.percentageComplete == RoundedPercentage(s.marked, totalLocations)
  {
    var marked := |game.locations.Keys|;
    Stats(totalLocations, marked, totalLocations - marked,
      |KeysOfType(game.locations, "useful")|, |KeysOfType(game.locations, "connector")|,
      |KeysOfType(game.locations, "dungeon")|, |KeysOfType(game.locations, "useless")|,
      RoundedPercentage(marked, totalLocations))
  }

  /** The four category counts never exceed the number of marked keys, since no entry has two types. */
  lemma CategoriesWithinMarked(game: Game, totalLocations: int)
    ensures var s := GetProgressStats(game, totalLocations);
      s.useful + s.connector + s.dungeon + s.useless <= s.marked
  {
    var l := game.locations;
    var a, b, c, d := KeysOfType(l, "useful"), KeysOfType(l, "connector"), KeysOfType(l, "dungeon"), KeysOfType(l, "useless");
    DisjointUnionSize(a, b);
    DisjointUnionSize(a + b, c);
    DisjointUnionSize(a + b + c, d);
    SubsetSize(a + b + c + d, l.Keys);
  }

  lemma DisjointUnionSize<T>(a: set<T>, b: set<T>)
    requires a * b == {}
    ensures |a + b| == |a| + |b|
  {
  }

  lemma {:induction false} SubsetSize<T>(a: set<T>, b: set<T>)
    requires a <= b
    ensures |a| <= |b|
    decreases |b|
  {
    if a != {} {
      var x :| x in a;
      SubsetSize(a - {x}, b - {x});
    }
  }

  /** Entries written by the editor carry no legacy type, so they are marked but fall in no category. */
  lemma EditorEntriesCountInNoCategory(game: Game, totalLocations: int)
    requires forall k :: k in game.locations ==> game.locations[k].legacyType.None?
    ensures var s := GetProgressStats(game, totalLocations);
      s.useful == 0 && s.connector == 0 && s.dungeon == 0 && s.useless == 0
  {
    assert KeysOfType(game.locations, "useful") == {};
    assert KeysOfType(game.locations, "connector") == {};
    assert KeysOfType(game.locations, "dungeon") == {};
    assert KeysOfType(game.locations, "useless") == {};
  }

  /** With 0 <= marked <= total the percentage lies in 0..100, and it is 100 exactly when every location is marked, at most 147 of 147. */
  lemma PercentageBounds(marked: int, total: int)
    requires 0 <= marked <= total && total > 0
    ensures 0 <= RoundedPercentage(marked, total).value <= 100
    ensures marked == total ==> RoundedPercentage(marked, total).value == 100
    ensures marked == 0 ==> RoundedPercentage(marked, total).value == 0
  {
    var p := RoundedPercentage(marked, total).value;
    var twice := 2 * total;
    if p < 0 {
      MulLe(twice, p + 1, 0);
    }
    if p > 100 {
      MulLe(twice, 101, p);
    }
    if marked == total && p < 100 {
      MulLe(twice, p + 1, 100);
    }
    if marked == 0 && p > 0 {
      MulLe(twice, 1, p);
    }
  }

  lemma MulLe(x: int, y: int, z: int)
    requires x >= 0 && y <= z
    ensures x * y <= x * z
  {
    assert x * z - x * y == x * (z - y);
  }

  // ---- ordering the session list ----

  /** The date a list is ordered by: `finishedDate || 0` for finished games, `lastSaved` for active ones. */
  function SortKey(game: Game, showFinished: bool): int {
    if showFinished then game.finishedDate.GetOr(0) else game.lastSaved
  }

  /** The games of the list being shown. */
  function ShownAs(showFinished: bool): Game -> bool {
    (g: Game) => g.isFinished == showFinished
  }

  predicate SortedByDateDescending(s: seq<Game>, showFinished: bool) {
    forall i, j :: 0 <= i < j < |s| ==> SortKey(s[i], showFinished) >= SortKey(s[j], showFinished)
  }

  /**
   * `sortGames(games, showFinished)`: the games whose `isFinished` equals
   * `showFinished`, most recent first.
   */
  method SortGames(games: seq<Game>, showFinished: bool) returns (sorted: seq<Game>)
    ensures multiset(sorted) == multiset(Seqs.Filter(games, ShownAs(showFinished)))
    ensures SortedByDateDescending(sorted, showFinished)
  {
    var filteredGames := Seqs.Filter(games, ShownAs(showFinished));
    var a := new Game[|filteredGames|](i requires 0 <= i < |filteredGames| => filteredGames[i]);
    assert a[..] == filteredGames;
    SortByDate(a, showFinished);
    sorted := a[..];
  }

  /** The kept games are exactly the shown ones of the input. */
  lemma SortGamesKeeps(games: seq<Game>, showFinished: bool, sorted: seq<Game>)
    requires multiset(sorted) == multiset(Seqs.Filter(games, ShownAs(showFinished)))
    ensures forall g :: g in sorted <==> g in games && g.isFinished == showFinished
  {
    Seqs.FilterSpec(games, ShownAs(showFinished));
    forall g ensures g in sorted <==> g in Seqs.Filter(games, ShownAs(showFinished)) {
      assert g in sorted <==> g in multiset(sorted);
      assert g in Seqs.Filter(games, ShownAs(showFinished)) <==> g in multiset(Seqs.Filter(games, ShownAs(showFinished)));
    }
  }

  /** The first `n` games of `a` are ordered most recent first. */
  predicate SortedPrefix(a: array<Game>, n: int, showFinished: bool)
    requires 0 <= n <= a.Length
    reads a
  {
    forall m, k :: 0 <= m < k < n ==> SortKey(a[m], showFinished) >= SortKey(a[k], showFinished)
  }

  /** Insertion sort of `a`, most recent first; equal dates keep their order. */
  method SortByDate(a: array<Game>, showFinished: bool)
    modifies a
    ensures SortedByDateDescending(a[..], showFinished)
    ensures multiset(a[..]) == old(multiset(a[..]))
  {
    if a.Length == 0 {
      return;
    }
    var i := 1;
    while i < a.Length
      invariant 1 <= i <= a.Length
      invariant SortedPrefix(a, i, showFinished)
      invariant multiset(a[..]) == old(multiset(a[..]))
    {
      InsertOne(a, i, showFinished);
      i := i + 1;
    }
  }

  /** Moves `a[i]` left past the games dated before it, extending the ordered prefix by one. */
  method InsertOne(a: array<Game>, i: int, showFinished: bool)
    requires 0 < i < a.Length && SortedPrefix(a, i, showFinished)
    modifies a
    ensures SortedPrefix(a, i + 1, showFinished)
    ensures multiset(a[..]) == old(multiset(a[..]))
  {
    var j := i;
    while j > 0 && SortKey(a[j - 1], showFinished) < SortKey(a[j], showFinished)
      invariant 0 <= j <= i
      invariant forall m, k :: 0 <= m < k <= i && m != j && k != j ==> SortKey(a[m], showFinished) >= SortKey(a[k], showFinished)
      invariant forall k :: j < k <= i ==> SortKey(a[k], showFinished) < SortKey(a[j], showFinished)
      invariant multiset(a[..]) == old(multiset(a[..]))
    {
      Swap(a, j - 1, j);
      j := j - 1;
    }
  }

  method Swap(a: array<Game>, i: int, j: int)
    requires 0 <= i < j < a.Length
    modifies a
    ensures a[..] == old(a[..])[i := old(a[j])][j := old(a[i])]
    ensures multiset(a[..]) == old(multiset(a[..]))
  {
    a[i], a[j] := a[j], a[i];
  }

  // ---- load migration ----

  /** The fields a stored game gains when it lacks them. */
  function GameDefaults(): map<string, Json.Json> {
    map["isFinished" := Json.JBool(false), "finishedDate" := Json.JNull, "notes" := Json.JStr(""),
      "locationNotes" := Json.JObj(map[]), "globalNotes" := Json.JArr([])]
  }

  /** `{isEditable: true, ...locationData}`. */
  function MigrateLocation(locationData: Json.Json): (r: Json.Json)
    ensures r.JObj? && "isEditable" in r.fields
    ensures forall k :: k in Json.OwnEntries(locationData) ==> k in r.fields && r.fields[k] == Json.OwnEntries(locationData)[k]
    ensures "isEditable" !in Json.OwnEntries(locationData) ==> r.fields["isEditable"] == Json.JBool(true)
    ensures r.fields.Keys == Json.OwnEntries(locationData).Keys + {"isEditable"}
  {
    Json.JObj(map["isEditable" := Json.JBool(true)] + Json.OwnEntries(locationData))
  }

  /** The migrated `locations`: every entry of a truthy stored value migrated, or `{}`. */
  function MigrateLocations(stored: Option<Json.Json>): (r: Json.Json)
    ensures r.JObj?
    ensures !Json.Truthy(stored) ==> r.fields == map[]
    ensures Json.Truthy(stored) ==> r.fields.Keys == Json.OwnEntries(stored.value).Keys
    ensures Json.Truthy(stored) ==> forall k :: k in r.fields ==> r.fields[k] == MigrateLocation(Json.OwnEntries(stored.value)[k])
  {
    if Json.Truthy(stored) then
      var entries := Json.OwnEntries(stored.value);
      Json.JObj(map k | k in entries :: MigrateLocation(entries[k]))
    else Json.JObj(map[])
  }

  /**
   * The mapping `loadGames` applies to one stored game: the defaults, then the
   * stored fields, then the migrated `locations`. Reading `locations` off a
   * stored `null` throws.
   */
  function MigrateGame(game: Json.Json): (r: Json.Outcome<Json.Json>)
    ensures r.Throws? <==> game.JNull?
    ensures r.Value? ==> r.value.JObj?
  {
    if game.JNull? then Json.Throws
    else
      var fields := GameDefaults() + Json.OwnEntries(game);
      Json.Value(Json.JObj(fields["locations" := MigrateLocations(Json.Get(game, "locations"))]))
  }

  /** Stored fields win over the defaults; the defaults fill only absent fields; `locations` is always an object. */
  lemma MigrateGameFields(game: Json.Json, k: string)
    requires game.JObj?
    ensures MigrateGame(game).Value?
    ensures k != "locations" && k in game.fields ==> k in MigrateGame(game).value.fields && MigrateGame(game).value.fields[k] == game.fields[k]
    ensures k != "locations" && k !in game.fields && k in GameDefaults() ==> MigrateGame(game).value.fields[k] == GameDefaults()[k]
    ensures k != "locations" && k !in game.fields && k !in GameDefaults() ==> k !in MigrateGame(game).value.fields
    ensures "locations" in MigrateGame(game).value.fields && MigrateGame(game).value.fields["locations"].JObj?
  {
  }

  /** Each stored location gains `isEditable: true` only when it lacks that field, and keeps all its other fields. */
  lemma MigrateKeepsLocationFlags(game: Json.Json, key: string)
    requires game.JObj? && "locations" in game.fields && game.fields["locations"].JObj?
    requires key in game.fields["locations"].fields && game.fields["locations"].fields[key].JObj?
    ensures var loc := game.fields["locations"].fields[key].fields;
      var migrated := MigrateGame(game).value.fields["locations"].fields[key];
      migrated.JObj? && migrated.fields.Keys == loc.Keys + {"isEditable"}
      && (forall f :: f in loc ==> migrated.fields[f] == loc[f])
      && ("isEditable" !in loc ==> migrated.fields["isEditable"] == Json.JBool(true))
  {
  }

  /** Migrating a migrated game changes nothing: loading what was saved after a load is the same load. */
  lemma MigrateGameIdempotent(game: Json.Json)
    requires !game.JNull?
    ensures MigrateGame(MigrateGame(game).value) == MigrateGame(game)
  {
    var once := MigrateGame(game).value;
    var locs := once.fields["locations"];
    assert Json.Get(once, "locations") == Some(locs);
    MigratedLocationsStable(locs);
    assert GameDefaults() + once.fields == once.fields by {
      assert GameDefaults().Keys <= once.fields.Keys;
    }
    assert once.fields["locations" := locs] == once.fields;
  }

  /** A location that already has `isEditable` is left as it is. */
  lemma MigratedLocationStable(v: Json.Json)
    requires v.JObj? && "isEditable" in v.fields
    ensures MigrateLocation(v) == v
  {
    assert map["isEditable" := Json.JBool(true)] + v.fields == v.fields;
  }

  /** Migrated locations migrate to themselves. */
  lemma MigratedLocationsStable(locs: Json.Json)
    requires locs.JObj? && forall k :: k in locs.fields ==> locs.fields[k].JObj? && "isEditable" in locs.fields[k].fields
    ensures MigrateLocations(Some(locs)) == locs
  {
    forall k | k in locs.fields ensures MigrateLocation(locs.fields[k]) == locs.fields[k] {
      MigratedLocationStable(locs.fields[k]);
    }
    assert (map k | k in locs.fields :: MigrateLocation(locs.fields[k])) == locs.fields;
  }

  /** What the store holds under the games key: nothing, text `JSON.parse` rejects, or a parsed value. */
  datatype Stored = NothingStored | Unparsable | Parsed(value: Json.Json)

  /** The migrated games, in order, or None as soon as one migration throws. */
  function MigrateAll(items: seq<Json.Json>): (r: Option<seq<Json.Json>>)
    ensures r.Some? <==> forall i :: 0 <= i < |items| ==> !items[i].JNull?
    ensures r.Some? ==> |r.value| == |items| && forall i :: 0 <= i < |items| ==> MigrateGame(items[i]) == Json.Value(r.value[i])
  {
    if items == [] then Some([])
    else
      match (MigrateGame(items[0]), MigrateAll(items[1..]))
      case (Value(g), Some(rest)) => Some([g] + rest)
      case _ => None
  }

  /**
   * `loadGames`: nothing stored gives `[]`; a stored array is migrated game by
   * game; an unparsable text, a stored value that is not an array (it has no
   * `map`), or a `null` game throws, and the catch gives `[]`.
   */
  function LoadGames(stored: Stored): (r: seq<Json.Json>)
    ensures stored.Parsed? && stored.value.JArr? && (forall i :: 0 <= i < |stored.value.items| ==> !stored.value.items[i].JNull?) ==>
      |r| == |stored.value.items| && forall i :: 0 <= i < |r| ==> MigrateGame(stored.value.items[i]) == Json.Value(r[i])
    ensures stored.Parsed? && stored.value.JArr? && (exists i :: 0 <= i < |stored.value.items| && stored.value.items[i].JNull?) ==> r == []
    ensures !(stored.Parsed? && stored.value.JArr?) ==> r == []
  {
    match stored
    case Parsed(JArr(items)) => MigrateAll(items).GetOr([])
    case _ => []
  }
}
