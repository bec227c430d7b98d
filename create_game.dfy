/**
 * The creation form: its defaults, the eight randomizer modes it offers, the
 * inverted toggle, and the trim guard on submitting. Every offered mode is
 * looked up under its own key of the static-location table.
 */
module CreateGame {
  import opened Wrappers
  import Strings
  import opened TrackerTypes
  import StaticLocations

  /** `randomizerOptions`, in the order the selector lists them. */
  function RandomizerOptions(): seq<string> {
    ["Vanilla", "Dungeons Simple", "Dungeons Full", "Dungeons Crossed", "Simple", "Restricted", "Full", "Crossed"]
  }

  /**
   * `handleSubmit`: `onCreateGame` with the trimmed name and the chosen mode and
   * flag when the trimmed name is non-empty, else nothing.
   */
  function SubmitRequest(gameName: string, randomizerType: string, isInverted: bool): (r: Option<GameData>)
    ensures r.Some? <==> !Strings.AllWhitespace(gameName)
    ensures r.Some? ==> (r.value == GameData(Strings.Trim(gameName), randomizerType, isInverted)
      && r.value.name != "" && Strings.Trim(r.value.name) == r.value.name)
  {
    Strings.TrimEmptyIff(gameName);
    Strings.TrimIdempotent(gameName);
    if Strings.Trim(gameName) != "" then Some(GameData(Strings.Trim(gameName), randomizerType, isInverted)) else None
  }

  /** The form's state. */
  class CreateForm {
    var gameName: string
    var randomizerType: string
    var isInverted: bool

    /** A blank name, Vanilla, not inverted. */
    constructor()
      ensures gameName == "" && randomizerType == "Vanilla" && !isInverted
    {
      gameName := "";
      randomizerType := "Vanilla";
      isInverted := false;
    }

    /** Typing in the name field. */
    method SetGameName(value: string)
      modifies this
      ensures gameName == value && randomizerType == old(randomizerType) && isInverted == old(isInverted)
    {
      gameName := value;
    }

    /** Choosing a mode; the selector only offers the listed ones. */
    method SetRandomizerType(value: string)
      requires value in RandomizerOptions()
      modifies this
      ensures randomizerType == value && gameName == old(gameName) && isInverted == old(isInverted)
    {
      randomizerType := value;
    }

    /** `toggleInverted`. */
    method ToggleInverted()
      modifies this
      ensures isInverted == !old(isInverted) && gameName == old(gameName) && randomizerType == old(randomizerType)
    {
      isInverted := !isInverted;
    }

    /** Submitting the form; its fields are left as they are. */
    method HandleSubmit() returns (request: Option<GameData>)
      ensures request == SubmitRequest(gameName, randomizerType, isInverted)
    {
      request := SubmitRequest(gameName, randomizerType, isInverted);
    }
  }

  // ---- the modes and the static-location keys ----

  /** A mode name without a space is looked up under its upper-cased form. */
  lemma NoSpaceKey(mode: string, upper: string)
    requires |upper| == |mode|
    requires forall i :: 0 <= i < |mode| ==> upper[i] == (if 'a' <= mode[i] <= 'z' then (mode[i] as int - 32) as char else mode[i])
    requires ' ' !in upper
    ensures StaticLocations.SetKey(mode) == upper
  {
  }

  /** A mode name whose first space is at `i` is looked up with that space made an underscore. */
  lemma OneSpaceKey(mode: string, upper: string, i: nat, key: string)
    requires |upper| == |mode|
    requires forall j :: 0 <= j < |mode| ==> upper[j] == (if 'a' <= mode[j] <= 'z' then (mode[j] as int - 32) as char else mode[j])
    requires i < |upper| && upper[i] == ' ' && ' ' !in upper[..i]
    requires key == upper[..i] + "_" + upper[i + 1..]
    ensures StaticLocations.SetKey(mode) == key
  {
    var u := Strings.ToUpperAscii(mode);
    assert u == upper;
    var k := Strings.ReplaceFirstShape(u, ' ', '_');
  }

  lemma KeyOfVanilla(mode: string)
    requires mode == "Vanilla"
    ensures StaticLocations.SetKey(mode) == "VANILLA"
  {
    NoSpaceKey(mode, "VANILLA");
  }

  lemma KeyOfDungeonsSimple(mode: string)
    requires mode == "Dungeons Simple"
    ensures StaticLocations.SetKey(mode) == "DUNGEONS_SIMPLE"
  {
    OneSpaceKey(mode, "DUNGEONS SIMPLE", 8, "DUNGEONS_SIMPLE");
  }

  lemma KeyOfDungeonsFull(mode: string)
    requires mode == "Dungeons Full"
    ensures StaticLocations.SetKey(mode) == "DUNGEONS_FULL"
  {
    OneSpaceKey(mode, "DUNGEONS FULL", 8, "DUNGEONS_FULL");
  }

  lemma KeyOfDungeonsCrossed(mode: string)
    requires mode == "Dungeons Crossed"
    ensures StaticLocations.SetKey(mode) == "DUNGEONS_CROSSED"
  {
    OneSpaceKey(mode, "DUNGEONS CROSSED", 8, "DUNGEONS_CROSSED");
  }

  lemma KeyOfSimple(mode: string)
    requires mode == "Simple"
    ensures StaticLocations.SetKey(mode) == "SIMPLE"
  {
    NoSpaceKey(mode, "SIMPLE");
  }

  lemma KeyOfRestricted(mode: string)
    requires mode == "Restricted"
    ensures StaticLocations.SetKey(mode) == "RESTRICTED"
  {
    NoSpaceKey(mode, "RESTRICTED");
  }

  lemma KeyOfFull(mode: string)
    requires mode == "Full"
    ensures StaticLocations.SetKey(mode) == "FULL"
  {
    NoSpaceKey(mode, "FULL");
  }

  lemma KeyOfCrossed(mode: string)
    requires mode == "Crossed"
    ensures StaticLocations.SetKey(mode) == "CROSSED"
  {
    NoSpaceKey(mode, "CROSSED");
  }

  /** Is `mode` one of the eight offered modes? */
  predicate Offered(mode: string) {
    mode == "Vanilla" || mode == "Dungeons Simple" || mode == "Dungeons Full" || mode == "Dungeons Crossed"
    || mode == "Simple" || mode == "Restricted" || mode == "Full" || mode == "Crossed"
  }

  /** The selector's list is exactly the eight offered modes. */
  lemma OptionsAreOffered(mode: string)
    ensures mode in RandomizerOptions() <==> Offered(mode)
    ensures |RandomizerOptions()| == 8
  {
  }

  /** Every offered mode is looked up under a key of the table of sets, and not under ALWAYS, so it locks just the ALWAYS entries. */
  lemma OfferedModeHasSet(mode: string)
    requires Offered(mode)
    ensures StaticLocations.SetKey(mode) in StaticLocations.StaticLocationSets()
    ensures StaticLocations.SetKey(mode) != "ALWAYS"
    ensures StaticLocations.StaticLocationsForRandomizer(mode) == StaticLocations.AlwaysSet()
  {
    if mode == "Vanilla" {
      KeyOfVanilla(mode);
    } else if mode == "Dungeons Simple" {
      KeyOfDungeonsSimple(mode);
    } else if mode == "Dungeons Full" {
      KeyOfDungeonsFull(mode);
    } else if mode == "Dungeons Crossed" {
      KeyOfDungeonsCrossed(mode);
    } else if mode == "Simple" {
      KeyOfSimple(mode);
    } else if mode == "Restricted" {
      KeyOfRestricted(mode);
    } else if mode == "Full" {
      KeyOfFull(mode);
    } else {
      KeyOfCrossed(mode);
    }
    StaticLocations.StaticSetsOfEveryMode(mode);
  }
}
