/**
 * The backup file format: the payload written on export, and the checks an
 * imported file goes through before its games are accepted. File reading,
 * the download link and the JSON text codec are outside the model; the
 * import starts from the result of `JSON.parse`.
 */
module ExportImport {
  import opened Wrappers
  import Seqs
  import opened Json

  /** The payload `exportGamesToFile` serialises: format version "1.0", the export time, the games as given. */
  function ExportPayload(games: seq<Json>, exportDate: string): (payload: Json)
    ensures payload.JObj? && payload.fields.Keys == {"version", "exportDate", "games"}
    ensures payload.fields["version"] == JStr("1.0") && payload.fields["exportDate"] == JStr(exportDate)
    ensures payload.fields["games"] == JArr(games)
  {
    JObj(map["version" := JStr("1.0"), "exportDate" := JStr(exportDate), "games" := JArr(games)])
  }

  /** What `JSON.parse` made of the file's text. */
  datatype ParsedFile = ParseError | ParsedValue(value: Json)

  /** The three ways an import is rejected. */
  datatype ImportError = MissingGamesArray | NoValidGames | InvalidJsonFile

  /** The message each rejection carries. */
  function ErrorMessage(e: ImportError): string {
    match e
    case MissingGamesArray => "Invalid file format: missing games array"
    case NoValidGames => "No valid games found in file"
    case InvalidJsonFile => "Invalid JSON file"
  }

  /** The settled promise of `importGamesFromFile`. */
  datatype ImportResult =
    | Imported(games: seq<Json>, version: Json, exportDate: Option<Json>)
    | Rejected(error: ImportError)

  /** The filter's test on one game that is not `null`: truthy `id`, `name`, `created`, and an object-typed `locations`. */
  predicate IsImportable(game: Json) {
    !game.JNull? && Truthy(Get(game, "id")) && Truthy(Get(game, "name")) && Truthy(Get(game, "created"))
    && TypeofObject(Get(game, "locations"))
  }

  /** `games.filter(...)`: reading `id` off a `null` game throws; otherwise the importable games in order. */
  function FilterImportable(games: seq<Json>): (r: Outcome<seq<Json>>)
    ensures r.Throws? <==> exists i :: 0 <= i < |games| && games[i].JNull?
    ensures r.Value? ==> r.value == Seqs.Filter(games, IsImportable)
  {
    if games == [] then Value([])
    else if games[0].JNull? then Throws
    else
      match FilterImportable(games[1..])
      case Throws =>
        assert exists i :: 0 <= i < |games| && games[i].JNull? by {
          var i :| 0 <= i < |games[1..]| && games[1..][i].JNull?;
          assert games[i + 1] == games[1..][i];
        }
        Throws
      case Value(rest) =>
        assert forall i :: 0 <= i < |games| ==> !games[i].JNull? by {
          forall i | 0 <= i < |games| ensures !games[i].JNull? {
            if i > 0 {
              assert games[i] == games[1..][i - 1];
            }
          }
        }
        Value(if IsImportable(games[0]) then [games[0]] + rest else rest)
  }

  /** `importedData.version || 'unknown'`. */
  function VersionOrUnknown(v: Option<Json>): (r: Json)
    ensures Truthy(v) ==> r == v.value
    ensures !Truthy(v) ==> r == JStr("unknown")
  {
    if Truthy(v) then v.value else JStr("unknown")
  }

  /**
   * The `onload` handler: a parse failure, or a property read on a `null`
   * document or game, is caught as "Invalid JSON file"; a missing or
   * non-array `games` and an empty filter result are rejected with their own
   * messages.
   */
  function ImportGames(file: ParsedFile): (r: ImportResult)
    ensures file.ParseError? ==> r == Rejected(InvalidJsonFile)
    ensures file.ParsedValue? && file.value.JNull? ==> r == Rejected(InvalidJsonFile)
    ensures file.ParsedValue? && !file.value.JNull? && !(Get(file.value, "games").Some? && Get(file.value, "games").value.JArr?) ==>
      r == Rejected(MissingGamesArray)
    ensures (file.ParsedValue? && Get(file.value, "games").Some? && Get(file.value, "games").value.JArr?
      && exists i :: 0 <= i < |Get(file.value, "games").value.items| && Get(file.value, "games").value.items[i].JNull?) ==>
      r == Rejected(InvalidJsonFile)
    ensures r.Imported? ==> (file.ParsedValue? && file.value.JObj? && "games" in file.value.fields && file.value.fields["games"].JArr?
      && r.games == Seqs.Filter(file.value.fields["games"].items, IsImportable) && r.games != []
      && r.version == VersionOrUnknown(Get(file.value, "version")) && r.exportDate == Get(file.value, "exportDate"))
  {
    match file
    case ParseError => Rejected(InvalidJsonFile)
    case ParsedValue(importedData) =>
      if importedData.JNull? then Rejected(InvalidJsonFile)
      else
        var games := Get(importedData, "games");
        if !Truthy(games) || !games.value.JArr? then Rejected(MissingGamesArray)
        else
          match FilterImportable(games.value.items)
          case Throws => Rejected(InvalidJsonFile)
          case Value(validGames) =>
            if |validGames| == 0 then Rejected(NoValidGames)
            else Imported(validGames, VersionOrUnknown(Get(importedData, "version")), Get(importedData, "exportDate"))
  }

  /** The imported games are exactly the importable games of the file, in the file's order. */
  lemma ImportKeepsExactlyValid(file: ParsedFile)
    requires ImportGames(file).Imported?
    ensures var items := file.value.fields["games"].items;
      (forall g :: g in ImportGames(file).games <==> g in items && IsImportable(g))
      && Seqs.IsSubsequence(ImportGames(file).games, items)
  {
    var items := file.value.fields["games"].items;
    Seqs.FilterSpec(items, IsImportable);
    Seqs.FilterIsSubsequence(items, IsImportable);
  }

  /** An array game list without `null`s is rejected for having no valid game exactly when none passes the filter. */
  lemma NoValidGamesIff(file: ParsedFile)
    requires file.ParsedValue? && file.value.JObj? && "games" in file.value.fields && file.value.fields["games"].JArr?
    requires forall i :: 0 <= i < |file.value.fields["games"].items| ==> !file.value.fields["games"].items[i].JNull?
    ensures ImportGames(file) == Rejected(NoValidGames) <==>
      forall g :: g in file.value.fields["games"].items ==> !IsImportable(g)
    ensures ImportGames(file).Rejected? ==> ImportGames(file).error == NoValidGames
  {
    var items := file.value.fields["games"].items;
    FilterKeepsAny(items);
  }

  /** The filter comes out empty exactly when no game passes it. */
  lemma FilterKeepsAny(items: seq<Json>)
    ensures Seqs.Filter(items, IsImportable) == [] <==> forall g :: g in items ==> !IsImportable(g)
  {
    if forall g :: g in items ==> !IsImportable(g) {
      Seqs.FilterNone(items, IsImportable);
    } else {
      var g :| g in items && IsImportable(g);
      Seqs.FilterSpec(items, IsImportable);
      assert g in Seqs.Filter(items, IsImportable);
    }
  }

  /** When every game of the file is importable, the filter keeps the whole list. */
  lemma FilterKeepsAllValid(games: seq<Json>)
    requires forall i :: 0 <= i < |games| ==> IsImportable(games[i])
    ensures FilterImportable(games) == Value(games)
  {
    Seqs.FilterAll(games, IsImportable);
  }

  /** Importing an exported backup of importable games gives back the same games, version "1.0" and the export time. */
  lemma ExportImportRoundTrip(games: seq<Json>, exportDate: string)
    requires games != [] && forall i :: 0 <= i < |games| ==> IsImportable(games[i])
    ensures ImportGames(ParsedValue(ExportPayload(games, exportDate))) == Imported(games, JStr("1.0"), Some(JStr(exportDate)))
  {
    FilterKeepsAllValid(games);
  }

  /**
   * `validateGameData`: `hasOwnProperty` for `id`, `name` and `created` in turn
   * (stopping at the first absent one), then an object-typed `locations`.
   * The call throws on `null` or when an own `hasOwnProperty` field shadows the method.
   */
  function ValidateGameData(game: Json): (r: Outcome<bool>)
    ensures r.Throws? <==> game.JNull? || (game.JObj? && "hasOwnProperty" in game.fields)
    ensures r.Value? ==> (r.value <==> (game.JObj? && "id" in game.fields && "name" in game.fields && "created" in game.fields
      && TypeofObject(Get(game, "locations"))))
  {
    match HasOwnProperty(game, "id")
    case Throws => Throws
    case Value(hasId) =>
      if !hasId then Value(false)
      else
        match (HasOwnProperty(game, "name"), HasOwnProperty(game, "created"))
        case (Value(hasName), Value(hasCreated)) => Value(hasName && hasCreated && TypeofObject(Get(game, "locations")))
        case _ => Throws
  }

  /**
   * Presence is weaker than truthiness: every game the import filter keeps
   * passes `validateGameData` (unless it shadows `hasOwnProperty`), while a game
   * whose `id` is 0 passes `validateGameData` and is dropped by the filter.
   */
  lemma ValidateIsWeakerThanImportFilter(game: Json)
    ensures IsImportable(game) && !(game.JObj? && "hasOwnProperty" in game.fields) ==> ValidateGameData(game) == Value(true)
    ensures var zeroId := JObj(map["id" := JNum(0), "name" := JStr("Run"), "created" := JNum(1), "locations" := JObj(map[])]);
      ValidateGameData(zeroId) == Value(true) && !IsImportable(zeroId)
  {
    var zeroId := JObj(map["id" := JNum(0), "name" := JStr("Run"), "created" := JNum(1), "locations" := JObj(map[])]);
    assert Get(zeroId, "id") == Some(JNum(0));
    assert Get(zeroId, "locations") == Some(JObj(map[]));
  }
}
