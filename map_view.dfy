/**
 * The map screen: the state updaters it hands to `setCurrentGame` (check
 * toggles, assigning or resetting a key, the right-click mark, the global
 * notes), the guard that opens the editor, the choice of world per side, and
 * the screen's own state (`selectedLocation`, `showLocationModal`).
 * The resolver runs over a registry parameter; the source's is `Tables()`.
 */
module MapView {
  import opened Wrappers
  import opened TrackerTypes
  import opened LocationTypes
  import opened LocationResolver

  // ---- check toggles ----

  /** `(prevGame.checkStatus || {})[checkId] || false`. */
  predicate CheckStatusOf(game: Game, checkId: int) {
    game.checkStatus.Some? && checkId in game.checkStatus.value && game.checkStatus.value[checkId]
  }

  /** The status map a toggle extends: the stored one, or `{}`. */
  function StatusMap(game: Game): map<int, bool> {
    game.checkStatus.GetOr(map[])
  }

  /**
   * The updater of `handleToggleCheck`: a left click sets the check, a right
   * click clears it, and a click that would not change the status returns the
   * game itself.
   */
  function ToggleCheck(game: Game, checkId: int, isRightClick: bool): (r: Game)
    ensures CheckStatusOf(r, checkId) == !isRightClick
    ensures CheckStatusOf(game, checkId) == !isRightClick ==> r == game
    ensures CheckStatusOf(game, checkId) != !isRightClick ==> r.checkStatus == Some(StatusMap(game)[checkId := !isRightClick])
    ensures r.(checkStatus := game.checkStatus) == game
  {
    var currentStatus := CheckStatusOf(game, checkId);
    var newStatus := !isRightClick;
    if currentStatus == newStatus then game
    else game.(checkStatus := Some(StatusMap(game)[checkId := newStatus]))
  }

  /** A toggle changes no other check, and repeating it changes nothing more. */
  lemma ToggleCheckLocal(game: Game, checkId: int, isRightClick: bool, other: int)
    requires other != checkId
    ensures CheckStatusOf(ToggleCheck(game, checkId, isRightClick), other) == CheckStatusOf(game, other)
    ensures ToggleCheck(ToggleCheck(game, checkId, isRightClick), checkId, isRightClick) == ToggleCheck(game, checkId, isRightClick)
  {
  }

  /** A right click undoes a left click on a check that was clear: the status reads false again. */
  lemma RightClickClearsCheck(game: Game, checkId: int)
    ensures !CheckStatusOf(ToggleCheck(ToggleCheck(game, checkId, false), checkId, true), checkId)
    ensures !CheckStatusOf(game, checkId) && game.checkStatus.Some? && checkId !in game.checkStatus.value ==>
      StatusMap(ToggleCheck(ToggleCheck(game, checkId, false), checkId, true)) == game.checkStatus.value[checkId := false]
  {
  }

  // ---- assigning and resetting a key ----

  /** What the editor hands to `handleLocationUpdate`: the word 'reset', or a location id and the `completed` argument. */
  datatype LocationUpdate = ResetLocation | AssignLocation(locationId: int, completed: Option<bool>)

  /** Is the key open to the editor? An absent entry is (`undefined?.isEditable !== false`). */
  predicate EditableAt(game: Game, key: string) {
    key !in game.locations || EditableFlag(game.locations[key])
  }

  /** The record a save writes: exactly `locationId`, `completed || false` and `isEditable: true`. */
  function AssignedRecord(locationId: int, completed: Option<bool>): (a: Assignment)
    ensures a.locationId == Some(locationId) && a.completed == Some(TruthyBool(completed)) && a.isEditable == Some(true)
    ensures a.markedUseless.None? && a.chestCount.None? && a.isStatic.None?
    ensures a.legacyType.None? && a.value.None? && a.number.None? && a.name.None?
  {
    NoFields.(locationId := Some(locationId), completed := Some(TruthyBool(completed)), isEditable := Some(true))
  }

  /**
   * The updater of `handleLocationUpdate` for the selected key: a locked entry
   * is left alone; 'reset' deletes the key from a copy of the locations; an
   * assignment replaces the entry with a fresh record.
   */
  function UpdateLocation(game: Game, key: string, update: LocationUpdate): (r: Game)
    ensures !EditableAt(game, key) ==> r == game
    ensures r.(locations := game.locations) == game
    ensures EditableAt(game, key) && update.ResetLocation? ==> r.locations == game.locations - {key}
    ensures EditableAt(game, key) && update.AssignLocation? ==>
      r.locations == game.locations[key := AssignedRecord(update.locationId, update.completed)]
  {
    if !EditableAt(game, key) then game
    else
      match update
      case ResetLocation => game.(locations := game.locations - {key})
      case AssignLocation(locationId, completed) => game.(locations := game.locations[key := AssignedRecord(locationId, completed)])
  }

  /** Only the selected key changes; after the update it is absent or holds the fresh record, and stays open to the editor. */
  lemma UpdateLocationLocal(game: Game, key: string, update: LocationUpdate, other: string)
    requires EditableAt(game, key) && other != key
    ensures var r := UpdateLocation(game, key, update);
      (other in r.locations <==> other in game.locations)
      && (other in game.locations ==> r.locations[other] == game.locations[other])
      && EditableAt(r, key)
      && (update.ResetLocation? ==> key !in r.locations)
  {
  }

  /** A save drops whatever the entry held before, the useless mark and chest count included. */
  lemma AssignDropsPriorFields(game: Game, key: string, locationId: int, completed: Option<bool>)
    requires EditableAt(game, key)
    ensures var a := UpdateLocation(game, key, AssignLocation(locationId, completed)).locations[key];
      a.markedUseless.None? && a.chestCount.None? && a.locationId == Some(locationId)
    ensures UpdateLocation(UpdateLocation(game, key, AssignLocation(locationId, completed)), key, ResetLocation).locations
      == game.locations - {key}
  {
  }

  // ---- the right-click mark ----

  /**
   * Does the entry's `locationId` resolve (with the default `completed` of
   * false) to a descriptor of type 'dungeon'?
   */
  predicate ResolvesToDungeon(reg: Registry, a: Assignment) {
    TruthyInt(a.locationId)
    && var resolved := Resolve(reg, a.locationId.value, false, 1);
    resolved.Some? && Kind(resolved.value) == DungeonType
  }

  /** The entry a right click leaves: an unassigned key becomes a useless mark, a dungeon flips `completed`, anything else flips `markedUseless`. */
  function RightClickEntry(reg: Registry, entry: Option<Assignment>): (a: Assignment)
    ensures entry.None? ==> a == NoFields.(markedUseless := Some(true), isEditable := Some(true))
    ensures entry.Some? && ResolvesToDungeon(reg, entry.value) ==>
      a == entry.value.(completed := Some(!TruthyBool(entry.value.completed)))
    ensures entry.Some? && !ResolvesToDungeon(reg, entry.value) ==>
      a == entry.value.(markedUseless := Some(!TruthyBool(entry.value.markedUseless)))
  {
    match entry
    case None => NoFields.(markedUseless := Some(true), isEditable := Some(true))
    case Some(locationData) =>
      if ResolvesToDungeon(reg, locationData) then locationData.(completed := Some(!TruthyBool(locationData.completed)))
      else locationData.(markedUseless := Some(!TruthyBool(locationData.markedUseless)))
  }

  function Lookup(locations: map<string, Assignment>, key: string): Option<Assignment> {
    if key in locations then Some(locations[key]) else None
  }

  /** The updater of `handleRightClick`; it does not look at `isEditable`. */
  function RightClick(reg: Registry, game: Game, key: string): (r: Game)
    ensures r.(locations := game.locations) == game
    ensures r.locations.Keys == game.locations.Keys + {key}
    ensures forall k :: k in game.locations && k != key ==> r.locations[k] == game.locations[k]
  {
    game.(locations := game.locations[key := RightClickEntry(reg, Lookup(game.locations, key))])
  }

  /** With the registry's shape, the dungeon branch is taken exactly for the ids of the dungeon table. */
  lemma ResolvesToDungeonIff(reg: Registry, a: Assignment)
    requires RegistryShape(reg)
    ensures ResolvesToDungeon(reg, a) <==> TruthyInt(a.locationId) && DungeonById(reg.dungeons, a.locationId.value).Some?
  {
    if TruthyInt(a.locationId) && DungeonById(reg.dungeons, a.locationId.value).Some? {
      DungeonResolveIgnoresCompletion(reg, a.locationId.value, 1);
    }
  }

  /** A right click never changes an entry's `locationId`, so the branch it takes is the same on every click. */
  lemma RightClickKeepsBranch(reg: Registry, entry: Option<Assignment>)
    ensures ResolvesToDungeon(reg, RightClickEntry(reg, entry)) <==> entry.Some? && ResolvesToDungeon(reg, entry.value)
  {
  }

  /** Does the entry already store the field a right click flips? */
  predicate FlippedFieldStored(reg: Registry, a: Assignment) {
    if ResolvesToDungeon(reg, a) then a.completed.Some? else a.markedUseless.Some?
  }

  /**
   * Three right clicks act as one, for every key and game; on an entry whose
   * flipped field is already stored, two clicks restore the game.
   */
  lemma RightClickInvolution(reg: Registry, game: Game, key: string)
    ensures RightClick(reg, RightClick(reg, RightClick(reg, game, key), key), key) == RightClick(reg, game, key)
    ensures key in game.locations && FlippedFieldStored(reg, game.locations[key]) ==>
      RightClick(reg, RightClick(reg, game, key), key) == game
  {
    var once := RightClick(reg, game, key);
    var twice := RightClick(reg, once, key);
    var e := Lookup(game.locations, key);
    RightClickEntryThrice(reg, e);
    assert Lookup(once.locations, key) == Some(RightClickEntry(reg, e));
    assert Lookup(twice.locations, key) == Some(RightClickEntry(reg, Some(RightClickEntry(reg, e))));
    assert RightClick(reg, twice, key).locations == once.locations;
    if key in game.locations && FlippedFieldStored(reg, game.locations[key]) {
      RightClickEntryTwice(reg, game.locations[key]);
      assert twice.locations == game.locations;
    }
  }

  lemma RightClickEntryThrice(reg: Registry, e: Option<Assignment>)
    ensures var once := RightClickEntry(reg, e);
      RightClickEntry(reg, Some(RightClickEntry(reg, Some(once)))) == once
  {
    var once := RightClickEntry(reg, e);
    RightClickKeepsBranch(reg, e);
    RightClickKeepsBranch(reg, Some(once));
  }

  lemma RightClickEntryTwice(reg: Registry, a: Assignment)
    requires FlippedFieldStored(reg, a)
    ensures RightClickEntry(reg, Some(RightClickEntry(reg, Some(a)))) == a
  {
    RightClickKeepsBranch(reg, Some(a));
    var once := RightClickEntry(reg, Some(a));
    if ResolvesToDungeon(reg, a) {
      assert once.completed == Some(!a.completed.value);
    } else {
      assert once.markedUseless == Some(!a.markedUseless.value);
    }
  }

  /** The updater itself ignores the lock: a locked useless-capable entry has its mark flipped too. */
  lemma RightClickIgnoresLock(reg: Registry, game: Game, key: string)
    requires key in game.locations && game.locations[key].isEditable == Some(false)
    requires !ResolvesToDungeon(reg, game.locations[key])
    ensures RightClick(reg, game, key).locations[key].markedUseless == Some(!TruthyBool(game.locations[key].markedUseless))
    ensures RightClick(reg, game, key).locations[key].isEditable == Some(false)
  {
  }

  // ---- opening the editor and the two worlds ----

  /** `handleLocationClick`'s guard: the game is not finished and the key is open to the editor. */
  predicate OpensEditor(game: Game, key: string) {
    !game.isFinished && EditableAt(game, key)
  }

  datatype World = Light | Dark

  /** The world drawn on the left: dark when the game is inverted. */
  function LeftWorld(isInverted: bool): (w: World)
    ensures w == Dark <==> isInverted
  {
    if isInverted then Dark else Light
  }

  /** The world drawn on the right, always the other one. */
  function RightWorld(isInverted: bool): (w: World)
    ensures w != LeftWorld(isInverted)
  {
    if isInverted then Light else Dark
  }

  /** `mapData[world]`. */
  function WorldLocations(mapData: MapData, w: World): seq<MapLocation> {
    if w == Light then mapData.light else mapData.dark
  }

  /** Together the two sides show every map location once, inverted or not. */
  lemma BothWorldsShown(mapData: MapData, isInverted: bool)
    ensures multiset(WorldLocations(mapData, LeftWorld(isInverted)) + WorldLocations(mapData, RightWorld(isInverted)))
      == multiset(mapData.light + mapData.dark)
  {
  }

  // ---- the screen's state ----

  /** The map screen: the game it edits and the editor's selection. */
  class MapScreen {
    var currentGame: Game
    var selectedLocation: Option<MapLocation>
    var showLocationModal: bool

    constructor(game: Game)
      ensures currentGame == game && selectedLocation.None? && !showLocationModal
    {
      currentGame := game;
      selectedLocation := None;
      showLocationModal := false;
    }

    /** `handleLocationClick`: select the location and open the editor when the guard allows it. */
    method HandleLocationClick(location: MapLocation)
      modifies this
      ensures currentGame == old(currentGame)
      ensures OpensEditor(old(currentGame), location.id) ==> selectedLocation == Some(location) && showLocationModal
      ensures !OpensEditor(old(currentGame), location.id) ==>
        selectedLocation == old(selectedLocation) && showLocationModal == old(showLocationModal)
    {
      if currentGame.isFinished {
        return;
      }
      var isLocationEditable := EditableAt(currentGame, location.id);
      if !isLocationEditable {
        return;
      }
      selectedLocation := Some(location);
      showLocationModal := true;
    }

    /** `handleToggleCheck`: nothing on a finished game, else the toggle updater. */
    method HandleToggleCheck(checkId: int, isRightClick: bool)
      modifies this
      ensures currentGame == (if old(currentGame).isFinished then old(currentGame) else ToggleCheck(old(currentGame), checkId, isRightClick))
      ensures selectedLocation == old(selectedLocation) && showLocationModal == old(showLocationModal)
    {
      if currentGame.isFinished {
        return;
      }
      currentGame := ToggleCheck(currentGame, checkId, isRightClick);
    }

    /**
     * `handleLocationUpdate`: on a game that is not finished, apply the update
     * to the selected key, then close the editor and clear the selection; on a
     * finished game nothing happens and the editor stays as it is.
     */
    method HandleLocationUpdate(update: LocationUpdate)
      requires selectedLocation.Some?
      modifies this
      ensures old(currentGame).isFinished ==> (currentGame == old(currentGame)
        && selectedLocation == old(selectedLocation) && showLocationModal == old(showLocationModal))
      ensures !old(currentGame).isFinished ==> (currentGame == UpdateLocation(old(currentGame), old(selectedLocation).value.id, update)
        && selectedLocation.None? && !showLocationModal)
    {
      if currentGame.isFinished {
        return;
      }
      currentGame := UpdateLocation(currentGame, selectedLocation.value.id, update);
      showLocationModal := false;
      selectedLocation := None;
    }

    /** `handleUpdateGlobalNotes`: the new note list replaces the old one unless the game is finished. */
    method HandleUpdateGlobalNotes(updatedNotes: seq<Note>)
      modifies this
      ensures currentGame == (if old(currentGame).isFinished then old(currentGame) else old(currentGame).(globalNotes := Some(updatedNotes)))
      ensures selectedLocation == old(selectedLocation) && showLocationModal == old(showLocationModal)
    {
      if currentGame.isFinished {
        return;
      }
      currentGame := currentGame.(globalNotes := Some(updatedNotes));
    }

    /** `handleRightClick`: nothing on a finished game, else the right-click updater. */
    method HandleRightClick(reg: Registry, location: MapLocation)
      modifies this
      ensures currentGame == (if old(currentGame).isFinished then old(currentGame) else RightClick(reg, old(currentGame), location.id))
      ensures selectedLocation == old(selectedLocation) && showLocationModal == old(showLocationModal)
    {
      if currentGame.isFinished {
        return;
      }
      currentGame := RightClick(reg, currentGame, location.id);
    }
  }
}
