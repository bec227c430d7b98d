/**
 * A map button: what it shows for the entry stored under its key (text,
 * badge colour and size, or '?' for nothing), whether it may be edited, and
 * which handler a mouse-up dispatches to. The resolver runs over a registry
 * parameter; the source's is `Tables()`.
 */
module LocationButton {
  import opened Wrappers
  import Strings
  import opened TrackerTypes
  import opened LocationTypes
  import opened LocationResolver

  /** What `getLocationDisplay` returns when the entry resolves. */
  datatype Display = Display(text: string, color: string, size: string)

  const SmallSize := "w-4 h-4 text-xs"
  const NormalSize := "w-8 h-8 text-sm"

  /** The descriptor the button resolves: only an entry with a truthy `locationId`, with `completed` and `chestCount || 1`. */
  function ResolvedFor(reg: Registry, locationData: Option<Assignment>): Option<Resolved> {
    if locationData.Some? && TruthyInt(locationData.value.locationId) then
      var a := locationData.value;
      Resolve(reg, a.locationId.value, TruthyBool(a.completed), ChestCountOrOne(a.chestCount))
    else None
  }

  /**
   * `getLocationDisplay`: nothing when the entry does not resolve; else the
   * type's colour, with text chosen by the descriptor's type. A completed
   * dungeon has type `dungeonCompleted` and takes the `default` branch.
   */
  function GetLocationDisplay(reg: Registry, locationData: Option<Assignment>): (d: Option<Display>)
    ensures d.None? <==> ResolvedFor(reg, locationData).None?
  {
    match ResolvedFor(reg, locationData)
    case None => None
    case Some(resolvedData) =>
      var kind := Kind(resolvedData);
      var info := Info(kind);
      var size := if kind == UselessType then SmallSize else NormalSize;
      match resolvedData
      case UsefulResolved(displayValue, _) => Some(Display(displayValue, info.color, size))
      case ConnectorResolved(_, number) => Some(Display(info.prefix + Strings.IntToString(number), info.color, size))
      case DungeonResolved(acronym, _, isCompleted) =>
        if kind == DungeonType then Some(Display(acronym, if isCompleted then "bg-red-900" else info.color, size))
        else Some(Display(acronym, info.color, size))
      case UselessResolved(_, _) => Some(Display("", info.color, size))
  }

  /** `display ? display.text : '?'`. */
  function ButtonText(display: Option<Display>): string {
    if display.Some? then display.value.text else "?"
  }

  /**
   * The button has no display, and shows '?', exactly when there is no entry,
   * no truthy `locationId`, or an id with no descriptor; whether an id
   * resolves does not depend on `completed` or the chest count.
   */
  lemma NoDisplayIff(reg: Registry, locationData: Option<Assignment>)
    requires RegistryShape(reg)
    ensures GetLocationDisplay(reg, locationData).None? <==>
      locationData.None? || !TruthyInt(locationData.value.locationId)
      || Resolve(reg, locationData.value.locationId.value, false, 1).None?
    ensures GetLocationDisplay(reg, locationData).None? ==> ButtonText(GetLocationDisplay(reg, locationData)) == "?"
  {
    if locationData.Some? && TruthyInt(locationData.value.locationId) {
      var a := locationData.value;
      ResolveDefinedIff(reg, a.locationId.value, TruthyBool(a.completed), ChestCountOrOne(a.chestCount));
      ResolveDefinedIff(reg, a.locationId.value, false, 1);
    }
  }

  /** Chests show "C" and the stored count, 1 when the entry has none (or 0). */
  lemma ChestsDisplay(reg: Registry, a: Assignment)
    requires a.locationId == Some(4001)
    ensures GetLocationDisplay(reg, Some(a)) == Some(Display("C" + Strings.IntToString(ChestCountOrOne(a.chestCount)), "bg-green-600", NormalSize))
    ensures !TruthyInt(a.chestCount) ==> GetLocationDisplay(reg, Some(a)).value.text == "C1"
  {
  }

  /** A registered connector shows '#' and its pair number, in the connector colour. */
  lemma ConnectorDisplay(reg: Registry, a: Assignment)
    requires RegistryShape(reg) && a.locationId.Some? && 2001 <= a.locationId.value <= 2026
    ensures var c := reg.connectors[a.locationId.value - 2001];
      GetLocationDisplay(reg, Some(a)) == Some(Display("#" + Strings.IntToString(c.number), "bg-yellow-600", NormalSize))
  {
    ConnectorResolves(reg, a.locationId.value, TruthyBool(a.completed), ChestCountOrOne(a.chestCount));
  }

  /** A registered special location shows its table entry's display text, in the useful colour. */
  lemma SpecialDisplay(reg: Registry, a: Assignment, i: int)
    requires RegistryShape(reg)
    requires 0 <= i < |reg.useful| && 3001 <= reg.useful[i].id <= 3999 && a.locationId == Some(reg.useful[i].id)
    ensures GetLocationDisplay(reg, Some(a)) == Some(Display(reg.useful[i].display, "bg-green-600", NormalSize))
  {
    SpecialResolves(reg, i, TruthyBool(a.completed), ChestCountOrOne(a.chestCount));
  }

  /**
   * A registered dungeon shows its acronym: in purple while not completed, and
   * in bg-red-900 once completed, through the `default` branch of the switch.
   */
  lemma DungeonDisplay(reg: Registry, a: Assignment)
    requires RegistryShape(reg) && a.locationId.Some? && DungeonById(reg.dungeons, a.locationId.value).Some?
    ensures var d := DungeonById(reg.dungeons, a.locationId.value).value;
      GetLocationDisplay(reg, Some(a)) ==
        Some(Display(d.acronym, if TruthyBool(a.completed) then "bg-red-900" else "bg-purple-600", NormalSize))
  {
    DungeonByIdSpec(reg.dungeons, a.locationId.value);
    DungeonResolveIgnoresCompletion(reg, a.locationId.value, ChestCountOrOne(a.chestCount));
    var i :| 0 <= i < |reg.dungeons| && reg.dungeons[i].id == a.locationId.value;
  }

  /** The useless mark shows no text at the small size; every other display has the normal size. */
  lemma SizeByType(reg: Registry, locationData: Option<Assignment>)
    requires GetLocationDisplay(reg, locationData).Some?
    ensures var d := GetLocationDisplay(reg, locationData).value;
      (d.size == SmallSize <==> locationData.value.locationId == Some(5001))
      && (locationData.value.locationId == Some(5001) ==> d.text == "" && d.color == "bg-red-900")
      && (d.size == SmallSize || d.size == NormalSize)
  {
    var r := ResolvedFor(reg, locationData).value;
    assert Kind(r) == UselessType <==> locationData.value.locationId == Some(5001);
  }

  /** The display never reads `markedUseless` (nor `isEditable`). */
  lemma DisplayIgnoresMarks(reg: Registry, a: Assignment, markedUseless: Option<bool>, isEditable: Option<bool>)
    ensures GetLocationDisplay(reg, Some(a.(markedUseless := markedUseless, isEditable := isEditable)))
      == GetLocationDisplay(reg, Some(a))
  {
  }

  // ---- editing and clicks ----

  /** `canEdit`: not read-only, and no entry or one that is not locked. */
  predicate CanEdit(isReadOnly: bool, locationData: Option<Assignment>) {
    !isReadOnly && (locationData.None? || EditableFlag(locationData.value))
  }

  /** Which handler a mouse-up calls. */
  datatype Dispatch = CallOnClick | CallOnRightClick | NoCall

  /** The mouse-up handler: button 0 calls `onClick`, button 2 `onRightClick`, each only when the button can be edited. */
  function MouseUp(button: int, isReadOnly: bool, locationData: Option<Assignment>): (r: Dispatch)
    ensures r != NoCall ==> CanEdit(isReadOnly, locationData)
    ensures r == CallOnClick <==> button == 0 && CanEdit(isReadOnly, locationData)
    ensures r == CallOnRightClick <==> button == 2 && CanEdit(isReadOnly, locationData)
  {
    if button == 0 then (if CanEdit(isReadOnly, locationData) then CallOnClick else NoCall)
    else if button == 2 then (if CanEdit(isReadOnly, locationData) then CallOnRightClick else NoCall)
    else NoCall
  }

  /** Locked entries and read-only games dispatch nothing; an empty key of an editable game accepts both clicks. */
  lemma LockedDispatchesNothing(button: int, isReadOnly: bool, a: Assignment)
    ensures a.isEditable == Some(false) ==> MouseUp(button, isReadOnly, Some(a)) == NoCall
    ensures isReadOnly ==> MouseUp(button, isReadOnly, Some(a)) == NoCall && MouseUp(button, isReadOnly, None) == NoCall
    ensures !isReadOnly ==> MouseUp(0, isReadOnly, None) == CallOnClick && MouseUp(2, isReadOnly, None) == CallOnRightClick
  {
  }
}
