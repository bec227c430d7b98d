/**
 * The records a tracking session is made of: the assignment stored under a map
 * key, a global note, a game, and the map locations the game's keys come from.
 * Every field of an assignment may be absent (JavaScript `undefined`), which is
 * what the source's `||` defaults and `!== false` guards react to.
 */
module TrackerTypes {
  import opened Wrappers

  /**
   * The value stored at `game.locations[key]`. `legacyType`, `value`, `number`
   * and `name` are the fields written by the default-location builders (the
   * source's `type`, `value`, `number`, `name`); the others are written by the
   * editor and by the static-location rules.
   */
  datatype Assignment = Assignment(
    locationId: Option<int>,
    completed: Option<bool>,
    isEditable: Option<bool>,
    markedUseless: Option<bool>,
    chestCount: Option<int>,
    isStatic: Option<bool>,
    legacyType: Option<string>,
    value: Option<string>,
    number: Option<int>,
    name: Option<string>)

  /** An assignment with every field absent (`{}`). */
  const NoFields := Assignment(None, None, None, None, None, None, None, None, None, None)

  /** A global note; timestamps are abstract clock readings. */
  datatype Note = Note(id: int, title: string, content: string, created: int, lastModified: int)

  /** A tracking session. `checkStatus` and `globalNotes` may be absent in stored games. */
  datatype Game = Game(
    id: int,
    name: string,
    randomizerType: string,
    isInverted: bool,
    created: int,
    lastSaved: int,
    isFinished: bool,
    finishedDate: Option<int>,
    locations: map<string, Assignment>,
    checkStatus: Option<map<int, bool>>,
    globalNotes: Option<seq<Note>>)

  /** What the creation form hands to `createGame`. */
  datatype GameData = GameData(name: string, randomizerType: string, isInverted: bool)

  /** An entry of the map layout; its `id` is the key used in `game.locations`. */
  datatype MapLocation = MapLocation(
    id: string,
    defaultType: Option<string>,
    defaultValue: Option<string>,
    defaultNumber: Option<int>,
    defaultName: Option<string>,
    defaultLocationId: Option<int>)

  /** The map layout: the light-world and dark-world locations. */
  datatype MapData = MapData(light: seq<MapLocation>, dark: seq<MapLocation>)

  /** JavaScript truthiness of an optional number: absent and 0 are falsy. */
  predicate TruthyInt(v: Option<int>) {
    v.Some? && v.value != 0
  }

  /** JavaScript truthiness of an optional boolean. */
  predicate TruthyBool(v: Option<bool>) {
    v == Some(true)
  }

  /** JavaScript truthiness of an optional string: absent and "" are falsy. */
  predicate TruthyString(v: Option<string>) {
    v.Some? && v.value != ""
  }

  /** `data.isEditable !== false`: only an explicit `false` locks an entry. */
  predicate EditableFlag(a: Assignment) {
    a.isEditable != Some(false)
  }

  /** `data.chestCount || 1`. */
  function ChestCountOrOne(v: Option<int>): (n: int)
    ensures n != 0
    ensures TruthyInt(v) ==> n == v.value
  {
    if TruthyInt(v) then v.value else 1
  }
}
