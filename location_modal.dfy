/**
 * The location editor: which types it offers at a map location, the state
 * its form holds (type, selected id, chests-or-special, chest count), the
 * effect that fills the form when it opens, the handlers that change it, and
 * what Save and Reset hand back to the map view.
 */
module LocationModal {
  import opened Wrappers
  import Strings
  import Seqs
  import opened TrackerTypes
  import opened LocationTypes
  import opened LocationResolver
  import MapView

  // ---- where the location is and what may be placed there ----

  function HasId(key: string): MapLocation -> bool {
    (loc: MapLocation) => loc.id == key
  }

  /** `getLocationWorld`: "light" when the light-world layout lists the key, "dark" otherwise. */
  function LocationWorld(mapData: MapData, key: string): (w: string)
    ensures w == "light" || w == "dark"
    ensures w == "light" <==> exists i :: 0 <= i < |mapData.light| && mapData.light[i].id == key
  {
    if Seqs.Find(mapData.light, HasId(key)).Some? then "light" else "dark"
  }

  /** Is the key a dungeon entrance by default: does its first layout entry carry a `defaultLocationId` in 1..99? */
  predicate DungeonByDefault(mapData: MapData, key: string) {
    var loc := Seqs.Find(mapData.light + mapData.dark, HasId(key));
    loc.Some? && TruthyInt(loc.value.defaultLocationId) && 1 <= loc.value.defaultLocationId.value <= 99
  }

  predicate DungeonsSimple(game: Option<Game>) {
    game.Some? && game.value.randomizerType == "Dungeons Simple"
  }

  /**
   * `getAvailableLocationTypes`, as the keys of the object it returns, in
   * order: every type but dungeonCompleted; in Dungeons Simple a default
   * dungeon entrance offers only the dungeon type and every other location
   * offers everything but it.
   */
  function AvailableLocationTypes(game: Option<Game>, mapData: MapData, key: string): (r: seq<TypeKey>)
    ensures r != [] && DungeonCompletedType !in r
    ensures forall i, j :: 0 <= i < j < |r| ==> r[i] != r[j]
    ensures DungeonType in r <==> !DungeonsSimple(game) || DungeonByDefault(mapData, key)
    ensures |r| == 1 <==> DungeonsSimple(game) && DungeonByDefault(mapData, key)
    ensures |r| == 1 ==> r == [DungeonType]
    ensures |r| != 1 ==> UsefulType in r && ConnectorType in r && StaticType in r && UselessType in r
  {
    if DungeonsSimple(game) then
      if DungeonByDefault(mapData, key) then [DungeonType]
      else [UsefulType, ConnectorType, StaticType, UselessType]
    else [UsefulType, ConnectorType, DungeonType, StaticType, UselessType]
  }

  /** What the editor offers at one key: the three free lists (computed once per render) and the type buttons. */
  datatype Offers = Offers(dungeons: seq<DungeonEntry>, connectors: seq<ConnectorEntry>, specials: seq<UsefulEntry>,
                           types: seq<TypeKey>)

  /** The offers at `key`: dungeons also filtered by the key's world, the key's own entry not counted as used. */
  function OffersFor(reg: Registry, game: Option<Game>, mapData: MapData, key: string): Offers {
    Offers(AvailableDungeons(reg, game, Some(key), Some(LocationWorld(mapData, key))),
           AvailableConnectors(reg, game, Some(key)),
           AvailableSpecialLocations(reg, game, Some(key)),
           AvailableLocationTypes(game, mapData, key))
  }

  // ---- the form ----

  /** The chests-or-special switch of the useful type. */
  datatype UsefulChoice = ChestsChoice | SpecialChoice

  /** The form's four state variables; `selectedLocationId` is `null` as `None`. */
  datatype Form = Form(selectedType: TypeKey, selectedLocationId: Option<int>, selectedUsefulType: UsefulChoice,
                       selectedChestCount: string)

  /** `useState('useful')`, `useState(null)`, `useState('chests')`, `useState('1')`. */
  const InitialForm: Form := Form(UsefulType, None, ChestsChoice, "1")

  /**
   * The chain that picks an id for the types when the key has no entry: the
   * first free dungeon or connector, the first free special, or 4001 for
   * chests; otherwise the id stays.
   */
  function DefaultId(t: TypeKey, u: UsefulChoice, o: Offers, current: Option<int>): Option<int> {
    if t == DungeonType && |o.dungeons| > 0 then Some(o.dungeons[0].id)
    else if t == ConnectorType && |o.connectors| > 0 then Some(o.connectors[0].id)
    else if t == UsefulType && u == SpecialChoice && |o.specials| > 0 then Some(o.specials[0].id)
    else if t == UsefulType && u == ChestsChoice then Some(4001)
    else current
  }

  /**
   * The effect that runs once when the editor opens. A chest entry reopens as
   * chests with its count; another id that resolves reopens as its type (a
   * completed dungeon as 'dungeon', a special location as useful/special);
   * an entry without a truthy id, or one that does not resolve, leaves the
   * initial form. With no entry, a single offered type is selected, and the
   * id is picked by `DefaultId` reading the first render's 'useful' and
   * 'chests': the closure does not see the type it has just set.
   */
  function Opened(reg: Registry, o: Offers, locationData: Option<Assignment>): (f: Form)
    ensures locationData.None? ==> f.selectedLocationId == Some(4001) && f.selectedUsefulType == ChestsChoice
    ensures locationData.None? ==> f.selectedType == (if |o.types| == 1 then o.types[0] else UsefulType)
    ensures locationData.Some? && !TruthyInt(locationData.value.locationId) ==> f == InitialForm
    ensures locationData.Some? && locationData.value.locationId == Some(4001) ==>
      f.selectedType == UsefulType && f.selectedUsefulType == ChestsChoice && f.selectedLocationId == Some(4001)
      && Strings.ParseInt(f.selectedChestCount) == Some(ChestCountOrOne(locationData.value.chestCount))
  {
    match locationData
    case Some(data) =>
      if !TruthyInt(data.locationId) then InitialForm
      else if data.locationId.value == 4001 then
        Strings.ParseIntOfIntToString(ChestCountOrOne(data.chestCount));
        Form(UsefulType, Some(4001), ChestsChoice, Strings.IntToString(ChestCountOrOne(data.chestCount)))
      else
        var resolved := Resolve(reg, data.locationId.value, TruthyBool(data.completed), 1);
        if resolved.None? then InitialForm
        else
          var k := Kind(resolved.value);
          InitialForm.(selectedType := if k == DungeonCompletedType then DungeonType else k,
                       selectedLocationId := data.locationId,
                       selectedUsefulType := if k == UsefulType then SpecialChoice else InitialForm.selectedUsefulType)
    case None =>
      InitialForm.(selectedType := if |o.types| == 1 then o.types[0] else InitialForm.selectedType,
                   selectedLocationId := DefaultId(InitialForm.selectedType, InitialForm.selectedUsefulType, o,
                                                   InitialForm.selectedLocationId))
  }

  /** An existing entry whose id resolves reopens as the type its id range stands for, with that id selected. */
  lemma OpenedOnExistingEntry(reg: Registry, o: Offers, a: Assignment)
    requires TruthyInt(a.locationId) && a.locationId != Some(4001)
    requires Resolve(reg, a.locationId.value, TruthyBool(a.completed), 1).Some?
    ensures var f := Opened(reg, o, Some(a)); var id := a.locationId.value;
      f.selectedLocationId == a.locationId && f.selectedType != DungeonCompletedType
      && (f.selectedType == DungeonType <==> 1001 <= id <= 1099)
      && (f.selectedType == ConnectorType <==> 2001 <= id <= 2999)
      && (f.selectedType == UsefulType <==> 3001 <= id <= 3999)
      && (f.selectedType == UselessType <==> id == 5001)
      && (f.selectedType == UsefulType ==> f.selectedUsefulType == SpecialChoice)
  {
  }

  /**
   * `handleTypeChange`: dungeon and connector select the first free entry;
   * useful with special selected picks the first free special, and otherwise
   * keeps the id; every other case (static, useless, or an exhausted
   * dungeon or connector list) clears the id.
   */
  function TypeChanged(f: Form, o: Offers, newType: TypeKey): (g: Form)
    ensures g.selectedType == newType
    ensures g.selectedUsefulType == f.selectedUsefulType && g.selectedChestCount == f.selectedChestCount
    ensures newType == DungeonType ==> (g.selectedLocationId.Some? <==> o.dungeons != [])
    ensures newType == ConnectorType ==> (g.selectedLocationId.Some? <==> o.connectors != [])
    ensures newType == UsefulType && (f.selectedUsefulType == ChestsChoice || o.specials == []) ==>
      g.selectedLocationId == f.selectedLocationId
    ensures newType == StaticType || newType == UselessType ==> g.selectedLocationId.None?
  {
    var id :=
      if newType == DungeonType && |o.dungeons| > 0 then Some(o.dungeons[0].id)
      else if newType == ConnectorType && |o.connectors| > 0 then Some(o.connectors[0].id)
      else if newType == UsefulType then
        if f.selectedUsefulType == SpecialChoice && |o.specials| > 0 then Some(o.specials[0].id) else f.selectedLocationId
      else None;
    f.(selectedType := newType, selectedLocationId := id)
  }

  /** `handleUsefulTypeChange`: special picks the first free special (none when all are used), chests picks 4001. */
  function UsefulTypeChanged(f: Form, o: Offers, choice: UsefulChoice): (g: Form)
    ensures g.selectedType == f.selectedType && g.selectedChestCount == f.selectedChestCount
    ensures g.selectedUsefulType == choice
    ensures choice == ChestsChoice ==> g.selectedLocationId == Some(4001)
    ensures choice == SpecialChoice ==> (g.selectedLocationId.Some? <==> o.specials != [])
  {
    var id :=
      if choice == SpecialChoice && |o.specials| > 0 then Some(o.specials[0].id)
      else if choice == ChestsChoice then Some(4001)
      else None;
    f.(selectedUsefulType := choice, selectedLocationId := id)
  }

  /** One of the chest-count buttons 1–5: the count is kept as its decimal text. */
  function ChestCountChosen(f: Form, n: int): (g: Form)
    requires 1 <= n <= 5
    ensures g.(selectedChestCount := f.selectedChestCount) == f
    ensures Strings.ParseInt(g.selectedChestCount) == Some(n)
  {
    Strings.ParseIntOfIntToString(n);
    f.(selectedChestCount := Strings.IntToString(n))
  }

  /** Is `id` an option of the dropdown the form shows for its current type? */
  predicate IsOption(f: Form, o: Offers, id: int) {
    (f.selectedType == DungeonType && exists i :: 0 <= i < |o.dungeons| && o.dungeons[i].id == id)
    || (f.selectedType == ConnectorType && exists i :: 0 <= i < |o.connectors| && o.connectors[i].id == id)
    || (f.selectedType == UsefulType && f.selectedUsefulType == SpecialChoice
        && exists i :: 0 <= i < |o.specials| && o.specials[i].id == id)
  }

  /** A dropdown change: the option's value comes back as text and is read with `parseInt(id, 10)`. */
  function OptionSelected(f: Form, id: int): (g: Form)
    ensures g.selectedLocationId == Some(id)
    ensures g.(selectedLocationId := f.selectedLocationId) == f
  {
    Strings.ParseIntOfIntToString(id);
    f.(selectedLocationId := Strings.ParseInt(Strings.IntToString(id)))
  }

  // ---- saving ----

  /** What the editor calls back with: `onSave(id, completed[, chestCount])`, or `onSave('reset')`. */
  datatype SaveCall = OnSave(locationId: int, completed: bool, chestCount: Option<int>) | OnReset

  /**
   * `handleSave`: chests save 4001 with the parsed count, useless saves 5001,
   * any other type saves its selected id when that is truthy, and without one
   * nothing is called. The editor never saves `completed`.
   */
  function SaveCallOf(f: Form): (r: Option<SaveCall>)
    ensures r.Some? ==> r.value.OnSave? && !r.value.completed
    ensures r.Some? && r.value.chestCount.Some? ==> f.selectedType == UsefulType && f.selectedUsefulType == ChestsChoice
    ensures f.selectedType == UselessType ==> r == Some(OnSave(5001, false, None))
    ensures r.None? <==>
      !(f.selectedType == UsefulType && f.selectedUsefulType == ChestsChoice) && f.selectedType != UselessType
      && !TruthyInt(f.selectedLocationId)
  {
    if f.selectedType == UsefulType && f.selectedUsefulType == ChestsChoice then
      Some(OnSave(4001, false, Strings.ParseInt(f.selectedChestCount)))
    else if f.selectedType == UselessType then Some(OnSave(5001, false, None))
    else if TruthyInt(f.selectedLocationId) then Some(OnSave(f.selectedLocationId.value, false, None))
    else None
  }

  /**
   * `isSaveDisabled`: an exhausted dungeon, connector or special list
   * disables Save; chests and useless never do; otherwise a falsy id does.
   */
  function SaveDisabled(f: Form, o: Offers): (r: bool)
    ensures f.selectedType == UsefulType && f.selectedUsefulType == ChestsChoice ==> !r
    ensures f.selectedType == UselessType ==> !r
    ensures f.selectedType == StaticType ==> (r <==> !TruthyInt(f.selectedLocationId))
    ensures f.selectedType == DungeonType ==> (r <==> o.dungeons == [] || !TruthyInt(f.selectedLocationId))
    ensures f.selectedType == ConnectorType ==> (r <==> o.connectors == [] || !TruthyInt(f.selectedLocationId))
    ensures f.selectedType == UsefulType && f.selectedUsefulType == SpecialChoice ==>
      (r <==> o.specials == [] || !TruthyInt(f.selectedLocationId))
  {
    if f.selectedType == DungeonType && |o.dungeons| == 0 then true
    else if f.selectedType == ConnectorType && |o.connectors| == 0 then true
    else if f.selectedType == UsefulType && f.selectedUsefulType == SpecialChoice && |o.specials| == 0 then true
    else if f.selectedType == UsefulType && f.selectedUsefulType == ChestsChoice then false
    else if f.selectedType == UselessType then false
    else !TruthyInt(f.selectedLocationId)
  }

  /** An enabled Save always calls back: a form that would call nothing has Save disabled. */
  lemma EnabledSaveCalls(f: Form, o: Offers)
    ensures !SaveDisabled(f, o) ==> SaveCallOf(f).Some?
    ensures SaveCallOf(f).None? ==> SaveDisabled(f, o)
  {
  }

  /** How the map view receives the call: 'reset', or the id and `completed`; the third argument is not read. */
  function ToUpdate(c: SaveCall): (u: MapView.LocationUpdate)
    ensures c.OnReset? <==> u.ResetLocation?
    ensures c.OnSave? ==> u == MapView.AssignLocation(c.locationId, Some(c.completed))
  {
    match c
    case OnReset => MapView.ResetLocation
    case OnSave(id, completed, _) => MapView.AssignLocation(id, Some(completed))
  }

  /** Is what Save would call with something the editor offers for the selected type? */
  predicate CallIsOffered(f: Form, o: Offers) {
    match SaveCallOf(f)
    case None => true
    case Some(call) =>
      (f.selectedType == UsefulType && f.selectedUsefulType == ChestsChoice && call.locationId == 4001)
      || (f.selectedType == UselessType && call.locationId == 5001)
      || (f.selectedType != UsefulType && IsOption(f, o, call.locationId))
      || (f.selectedUsefulType == SpecialChoice && IsOption(f, o, call.locationId))
  }

  /** The form's invariant: whenever Save is enabled, it calls back with an offered choice. */
  predicate SaveTargetsOffer(f: Form, o: Offers) {
    !SaveDisabled(f, o) ==> SaveCallOf(f).Some? && CallIsOffered(f, o)
  }

  /**
   * Opening establishes the invariant when the key has no entry and more
   * than one type is offered, for a chest entry, and for an entry whose id is
   * falsy.
   */
  lemma OpenedTargetsOffer(reg: Registry, o: Offers, locationData: Option<Assignment>)
    requires locationData.None? ==> |o.types| != 1
    requires locationData.Some? ==> !TruthyInt(locationData.value.locationId) || locationData.value.locationId == Some(4001)
    ensures SaveTargetsOffer(Opened(reg, o, locationData), o)
  {
  }

  /** Every type button keeps the invariant. */
  lemma TypeChangedTargetsOffer(f: Form, o: Offers, newType: TypeKey)
    requires SaveTargetsOffer(f, o) && newType != DungeonCompletedType
    ensures SaveTargetsOffer(TypeChanged(f, o, newType), o)
  {
    var g := TypeChanged(f, o, newType);
    if newType == DungeonType && |o.dungeons| > 0 {
      assert IsOption(g, o, o.dungeons[0].id);
    } else if newType == ConnectorType && |o.connectors| > 0 {
      assert IsOption(g, o, o.connectors[0].id);
    } else if newType == UsefulType && f.selectedUsefulType == SpecialChoice && |o.specials| > 0 {
      assert IsOption(g, o, o.specials[0].id);
    }
  }

  /** The chests/special buttons, shown only for the useful type, keep the invariant. */
  lemma UsefulTypeChangedTargetsOffer(f: Form, o: Offers, choice: UsefulChoice)
    requires f.selectedType == UsefulType
    ensures SaveTargetsOffer(UsefulTypeChanged(f, o, choice), o)
  {
    var g := UsefulTypeChanged(f, o, choice);
    if choice == SpecialChoice && |o.specials| > 0 {
      assert IsOption(g, o, o.specials[0].id);
    }
  }

  /** Picking a dropdown option keeps the invariant. */
  lemma OptionSelectedTargetsOffer(f: Form, o: Offers, id: int)
    requires IsOption(f, o, id)
    ensures SaveTargetsOffer(OptionSelected(f, id), o)
  {
    var g := OptionSelected(f, id);
    assert g.selectedType == f.selectedType && g.selectedUsefulType == f.selectedUsefulType;
    assert IsOption(g, o, id);
  }

  /** The invariant does not depend on the chest count. */
  lemma TargetsOfferIgnoresCount(f: Form, g: Form, o: Offers)
    requires g.(selectedChestCount := f.selectedChestCount) == f
    ensures SaveTargetsOffer(f, o) <==> SaveTargetsOffer(g, o)
  {
    assert SaveDisabled(f, o) == SaveDisabled(g, o);
    assert SaveCallOf(f).Some? == SaveCallOf(g).Some?;
    if SaveCallOf(f).Some? {
      assert SaveCallOf(f).value.locationId == SaveCallOf(g).value.locationId;
    }
  }

  /** Picking a chest count keeps the invariant. */
  lemma ChestCountChosenTargetsOffer(f: Form, o: Offers, n: int)
    requires SaveTargetsOffer(f, o) && 1 <= n <= 5
    ensures SaveTargetsOffer(ChestCountChosen(f, n), o)
  {
    TargetsOfferIgnoresCount(f, ChestCountChosen(f, n), o);
  }

  /** The static type is offered, but the form never saves it: choosing it disables Save and Save calls nothing. */
  lemma StaticNeverSaves(f: Form, o: Offers)
    ensures var g := TypeChanged(f, o, StaticType); SaveDisabled(g, o) && SaveCallOf(g).None?
  {
  }

  /**
   * At a default dungeon entrance of a Dungeons Simple game with no entry
   * yet, the editor opens on the dungeon type with 4001 selected (the stale
   * closure's chest id), Save is enabled while a dungeon is free, and an
   * untouched Save stores a chest there: the invariant fails.
   */
  lemma StaleSelectionAtDungeonEntrance(reg: Registry, game: Game, mapData: MapData, key: string)
    requires RegistryShape(reg)
    requires game.randomizerType == "Dungeons Simple" && DungeonByDefault(mapData, key)
    requires OffersFor(reg, Some(game), mapData, key).dungeons != []
    ensures var o := OffersFor(reg, Some(game), mapData, key); var f := Opened(reg, o, None);
      f.selectedType == DungeonType && f.selectedLocationId == Some(4001)
      && !SaveDisabled(f, o) && SaveCallOf(f) == Some(OnSave(4001, false, None))
      && !SaveTargetsOffer(f, o)
  {
    var o := OffersFor(reg, Some(game), mapData, key);
    var f := Opened(reg, o, None);
    AvailableDungeonsSpec(reg, Some(game), Some(key), Some(LocationWorld(mapData, key)));
    forall i | 0 <= i < |o.dungeons| ensures o.dungeons[i].id != 4001 {
      assert o.dungeons[i] in reg.dungeons;
    }
  }

  /**
   * The chest count chosen in the editor does not reach the game: the map
   * view stores the chest id without a count, so the entry shows as one chest.
   */
  lemma ChosenChestCountNotStored(f: Form, n: int, game: Game, key: string)
    requires f.selectedType == UsefulType && f.selectedUsefulType == ChestsChoice && 1 <= n <= 5
    requires MapView.EditableAt(game, key)
    ensures SaveCallOf(ChestCountChosen(f, n)) == Some(OnSave(4001, false, Some(n)))
    ensures var stored := MapView.UpdateLocation(game, key, ToUpdate(SaveCallOf(ChestCountChosen(f, n)).value)).locations[key];
      stored.locationId == Some(4001) && stored.chestCount.None? && ChestCountOrOne(stored.chestCount) == 1
  {
  }

  /** Reset always hands back 'reset', which the map view turns into removing the key's entry. */
  lemma ResetRemovesEntry(game: Game, key: string)
    requires MapView.EditableAt(game, key)
    ensures MapView.UpdateLocation(game, key, ToUpdate(OnReset)).locations == game.locations - {key}
  {
  }

  /** The editor component: the offers fixed when it opens, and the four state variables of the form. */
  class LocationEditor {
    const offers: Offers
    var selectedType: TypeKey
    var selectedLocationId: Option<int>
    var selectedUsefulType: UsefulChoice
    var selectedChestCount: string

    function FormOf(): Form
      reads this
    {
      Form(selectedType, selectedLocationId, selectedUsefulType, selectedChestCount)
    }

    /** Opening the editor on `key`: the offers are computed and the opening effect fills the form. */
    constructor (reg: Registry, game: Option<Game>, mapData: MapData, key: string, locationData: Option<Assignment>)
      ensures offers == OffersFor(reg, game, mapData, key)
      ensures FormOf() == Opened(reg, offers, locationData)
    {
      var o := OffersFor(reg, game, mapData, key);
      offers := o;
      var f := Opened(reg, o, locationData);
      selectedType := f.selectedType;
      selectedLocationId := f.selectedLocationId;
      selectedUsefulType := f.selectedUsefulType;
      selectedChestCount := f.selectedChestCount;
    }

    /** A type button; only offered types have one. */
    method HandleTypeChange(newType: TypeKey)
      requires newType in offers.types
      modifies this
      ensures FormOf() == TypeChanged(old(FormOf()), offers, newType)
    {
      selectedType := newType;
      if newType == DungeonType && |offers.dungeons| > 0 {
        selectedLocationId := Some(offers.dungeons[0].id);
      } else if newType == ConnectorType && |offers.connectors| > 0 {
        selectedLocationId := Some(offers.connectors[0].id);
      } else if newType == UsefulType {
        if selectedUsefulType == SpecialChoice && |offers.specials| > 0 {
          selectedLocationId := Some(offers.specials[0].id);
        }
      } else {
        selectedLocationId := None;
      }
    }

    /** The chests/special buttons, rendered for the useful type. */
    method HandleUsefulTypeChange(choice: UsefulChoice)
      requires selectedType == UsefulType
      modifies this
      ensures FormOf() == UsefulTypeChanged(old(FormOf()), offers, choice)
    {
      selectedUsefulType := choice;
      if choice == SpecialChoice && |offers.specials| > 0 {
        selectedLocationId := Some(offers.specials[0].id);
      } else if choice == ChestsChoice {
        selectedLocationId := Some(4001);
      } else {
        selectedLocationId := None;
      }
    }

    /** A chest-count button, rendered for useful/chests. */
    method HandleChestCount(n: int)
      requires 1 <= n <= 5 && selectedType == UsefulType && selectedUsefulType == ChestsChoice
      modifies this
      ensures FormOf() == ChestCountChosen(old(FormOf()), n)
    {
      selectedChestCount := Strings.IntToString(n);
    }

    /** A dropdown change to one of its options. */
    method HandleSelect(id: int)
      requires IsOption(FormOf(), offers, id)
      modifies this
      ensures FormOf() == OptionSelected(old(FormOf()), id)
    {
      selectedLocationId := Strings.ParseInt(Strings.IntToString(id));
    }

    /** The Save button's `disabled` attribute. */
    function IsSaveDisabled(): bool
      reads this
    {
      SaveDisabled(FormOf(), offers)
    }

    /** The Save button: what it calls back with, if anything; the form is left as it is. */
    method HandleSave() returns (call: Option<SaveCall>)
      ensures call == SaveCallOf(FormOf())
      ensures !IsSaveDisabled() ==> call.Some?
    {
      EnabledSaveCalls(FormOf(), offers);
      if selectedType == UsefulType && selectedUsefulType == ChestsChoice {
        call := Some(OnSave(4001, false, Strings.ParseInt(selectedChestCount)));
      } else if selectedType == UselessType {
        call := Some(OnSave(5001, false, None));
      } else if TruthyInt(selectedLocationId) {
        call := Some(OnSave(selectedLocationId.value, false, None));
      } else {
        call := None;
      }
    }

    /** The Reset button. */
    method HandleReset() returns (call: SaveCall)
      ensures call == OnReset
    {
      call := OnReset;
    }
  }
}
