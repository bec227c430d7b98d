# Link to the Past entrance tracker — a Dafny model

The tracker records, for one play-through of a randomizer, what the player
found behind each entrance of the light-world and dark-world maps. That is
a dungeon, a connector cave, a special location, a chest count, or
"useless". Each map key of a game's `locations` dictionary holds an
assignment whose `locationId` comes from one integer id space:

| ids | what they name |
|---|---|
| 1001–1099 | dungeons |
| 2001–2999 | connectors |
| 3001–3999 | special locations |
| 4001 | chests |
| 5001 | useless |
| 6001–6999 | static |

This project models three layers of the tracker:

- **The identifier registry and the resolver.** These are the tables of
  dungeons, connectors, useful and static locations and checks. The resolver
  classifies an id by range, collects the ids a session already uses, and
  lists the dungeons, connectors and special locations still free.
- **The session rules.** Some map keys are locked. The model covers creating
  a game, finishing and reactivating it, the progress statistics, sorting the
  game list, migrating stored games when they are loaded, and checking the
  backup file on import.
- **The state transitions of the user interface.** These are the updaters of
  the map screen (check toggles, assignment and reset, right click), the
  session-list store, the note list, and the guards and form rules of the
  location button, the location editor, the note dialog and the creation form.

Each module follows one source file.

- **Pure code** (the tables, the resolver's filters, the updaters) is modelled
  as functions on values, with lemmas about them.
- **Code that loops or updates state step by step** is modelled imperatively:
  - `getUsedLocationIds`, the two default-location builders,
    `applyStaticLocations` and the sort are methods with loops. Each is proved
    equal to a specification function.
  - The session-list store, the map screen, the location editor, the note
    dialog and the creation form are classes. Their handlers are methods that
    change the class's fields.

### How the source is represented

- **The registry is a parameter.** The resolver and the components take the
  registry as a parameter `reg`. Lemmas that need the tables' contents require
  `RegistryShape(reg)`, and `LocationTypes.RegistryFacts` proves that the
  source's own tables (`LocationTypes.Tables()`) have that shape.
- **The map layout is a parameter.** The `mapData` module is not part of this
  model. Its light and dark lists are a parameter `mapData`.
- **Timestamps are integers**, passed in as parameters, and so are new ids.
- **Absent fields are `Option`.** Every field of a stored assignment may be
  absent, as in the source. The source's `||` defaults and `!== false` guards
  are written out. The load migration and the import work on an abstract JSON
  value (`Json.Json`), because their input has not been typed yet.

### Quirks proved as written

Several behaviours of the source are modelled exactly as written and proved
as lemmas:

- Static key "18" is locked to 4004, an id the resolver cannot resolve.
- The light-world dungeon list names the nonexistent 1004 and leaves out
  Eastern Palace (1045).
- The chest count chosen in the editor is never stored, because the map view
  keeps only the id and `completed`.
- The static type is offered but can never be saved.
- When the editor opens on an empty Dungeons Simple dungeon entrance, its
  opening effect reads the type state from before the render. So 4001 (chests)
  stays selected under the dungeon type, and Save stores chests.

## Model

| member | source | states |
|---|---|---|
| LocationTypes.TypeKeysComplete | src/data/locationTypes.js:4-11 | the catalogue lists each of the six location types once, and a type's key name identifies it |
| LocationTypes.DungeonAcronyms | src/data/locationTypes.js:158 | `dungeonAcronyms` has one acronym per dungeon entry, in table order |
| LocationTypes.DungeonTableDistinct | src/data/locationTypes.js:14-52 | dungeon ids are pairwise distinct |
| LocationTypes.DungeonTableFacts | src/data/locationTypes.js:14-52 | the dungeon table has 22 entries with distinct ids in 1001–1045, none of them 1004, and no group ids |
| LocationTypes.DungeonAcronymsDistinct | src/data/locationTypes.js:14-52 | no two dungeons share an acronym |
| LocationTypes.EasternPalaceIs1045 | src/data/locationTypes.js:22 | Eastern Palace is registered under 1045 |
| LocationTypes.DungeonByIdSpec | src/data/locationTypes.js:152 | in a table with distinct ids, the lookup succeeds exactly on a registered id and returns that id's one entry |
| LocationTypes.GetDungeonByIdSpec | src/data/locationTypes.js:152 | `getDungeonById` finds exactly the registered dungeon ids, each at its own entry, and gives undefined otherwise |
| LocationTypes.ConnectorTableFacts | src/data/locationTypes.js:55-102 | the connector ids are exactly 2001–2026, in order, with no group ids |
| LocationTypes.PairNumbersOfTable | src/data/locationTypes.js:55-102 | the pair-number list is the connector table's `number` column |
| LocationTypes.ConnectorNumbersShared | src/data/locationTypes.js:55-102 | pair numbers run without gaps from 1 to 12; every connector shares its number with a neighbour; no number is used more than three times |
| LocationTypes.ConnectorByIdSpec | src/data/locationTypes.js:153 | in a table numbered from 2001, the lookup succeeds exactly on 2001–2026 and returns the entry at `id - 2001` |
| LocationTypes.GetConnectorByIdSpec | src/data/locationTypes.js:153 | `getConnectorById` succeeds exactly on 2001–2026 |
| LocationTypes.UsefulTableDistinct | src/data/locationTypes.js:105-130 | useful-location ids are pairwise distinct |
| LocationTypes.UsefulTableFacts | src/data/locationTypes.js:105-130 | special entries lie in 3001–3999, 4001 is the only chests entry, 5001 is the only useless entry, and 3098/3099 sit at positions 15 and 16 |
| LocationTypes.UsefulByIdSpec | src/data/locationTypes.js:154 | with distinct ids, the lookup succeeds exactly on a registered id and returns its one entry |
| LocationTypes.GetUsefulLocationByIdSpec | src/data/locationTypes.js:154 | `getUsefulLocationById` finds exactly the registered ids |
| LocationTypes.StaticTableFacts | src/data/locationTypes.js:133-150 | static ids are distinct and lie in 6001–6999 |
| LocationTypes.StaticByIdSpec | src/data/locationTypes.js:155 | with distinct ids, the lookup succeeds exactly on a registered id and returns its one entry |
| LocationTypes.GetStaticLocationByIdSpec | src/data/locationTypes.js:155 | `getStaticLocationById` finds exactly the registered static ids |
| LocationTypes.RegistryFacts | src/data/locationTypes.js:14-130 | the source's tables have the registry shape every resolver lemma assumes |
| LocationTypes.ShapesDisjoint | src/data/locationTypes.js:14-150 | tables of these shapes never share an id: all six pairs of the dungeon, connector, useful and static tables are disjoint |
| LocationTypes.TablesDisjoint | src/data/locationTypes.js:14-150 | the four tables use pairwise disjoint ids (all six pairs), so each registered id belongs to one table |
| CheckData.RowFacts | src/data/checkData.js:2-245 | every row of the check table has its id, a used sprite type (1, 2, 3, 4, 13, 14 or 18), and the dungeon owners 1001–1008 its block says |
| CheckData.RowAt | src/data/checkData.js:2-245 | the facts of one given row |
| CheckData.LayoutDistinct | src/data/checkData.js:2-245 | in the table's id layout (1–142, then 216, then 143–215), ids are distinct |
| CheckData.ChecksDataIds | src/data/checkData.js:2-245 | the check table has that id layout |
| CheckData.ChecksDataSprites | src/data/checkData.js:2-245 | every check's `type` is one of the sprite types the table uses |
| CheckData.ChecksOwnedBy | src/data/checkData.js:393-395 | the filtered rows are rows of the table owned by `x`, every such row is kept, and the result is a subsequence of the table (table order) |
| CheckData.ChecksOwnedBySpec | src/data/checkData.js:393-395 | filtering by owner keeps exactly the rows whose `locationIds` include `x`, in table order (a subsequence of the table) |
| CheckData.GetChecksByLocationIdSpec | src/data/checkData.js:393-395 | `getChecksByLocationId(x)` keeps exactly the checks owned by `x`, in the order of the check table |
| CheckData.CheckByIdSpec | src/data/checkData.js:397-399 | in the table's id layout, the lookup succeeds exactly on 1–216 and returns the one row with that id |
| CheckData.GetCheckByIdSpec | src/data/checkData.js:397-399 | `getCheckById` returns the unique check with the id for 1–216, and null otherwise |
| CheckData.DungeonOwnsExactly | src/data/checkData.js:39-58 | dungeon ids 1001–1008 own exactly the Hyrule Castle rows (1001–1003) or the Desert Palace rows (1005–1008) |
| CheckData.HyruleCastleRows | src/data/checkData.js:39-42 | rows 36–38 of the table are the Hyrule Castle block |
| CheckData.DesertPalaceRows | src/data/checkData.js:52-58 | rows 46–51 of the table are the Desert Palace block |
| CheckData.HyruleCastleSectionsAgree | src/data/checkData.js:40-42 | 1001, 1002 and 1003 yield the same check list, the Hyrule Castle block |
| CheckData.HyruleCastleSectionIds | src/data/checkData.js:40-42 | a Hyrule Castle section's checks are ids 36, 37, 38, in order |
| CheckData.DesertPalaceSectionsAgree | src/data/checkData.js:53-58 | 1005–1008 yield the same check list, the Desert Palace block |
| CheckData.DesertPalaceSectionIds | src/data/checkData.js:53-58 | a Desert Palace section's checks are ids 46 to 51, in order |
| CheckData.NoChecksBetweenCastleAndDesert | src/data/checkData.js:39-58 | 1004 owns no check |
| CheckData.PlaceholderOwnsUnassigned | src/data/checkData.js:3-7 | the first five checks are owned by the placeholder id 0 alone and are all listed under 0 |
| CheckData.CheckSpriteIds | src/data/checkData.js:249-383 | the sprite catalogue has 19 sprites whose ids are their positions plus one |
| CheckData.CheckSpriteKinds | src/data/checkData.js:249-383 | every sprite has one of the six sprite kinds |
| CheckData.FirstOfKind | src/data/checkData.js:249-383 | each sprite kind has a first position in the catalogue |
| CheckData.FirstOfKindIsFirst | src/data/checkData.js:249-383 | the sprite at that position has the kind, and no earlier sprite has it |
| CheckData.SpriteByIdSpec | src/data/checkData.js:385-387 | in a catalogue numbered from 1, the lookup succeeds exactly on 1..size and returns sprite `id - 1` |
| CheckData.GetCheckSpriteByIdSpec | src/data/checkData.js:385-387 | `getCheckSpriteById` returns sprite `id` for 1–19, and null otherwise |
| CheckData.GetCheckSpriteByTypeSpec | src/data/checkData.js:389-391 | `getCheckSpriteByType` returns the first sprite of a kind that occurs (for 'Boss', sprite 4), and null for any other kind |
| CheckData.SpritesResolve | src/data/checkData.js:385-387 | when every type a table uses is within the catalogue, every row resolves to a sprite |
| CheckData.EveryCheckHasASprite | src/data/checkData.js:2-245 | every check's type is an existing sprite id |
| LocationResolver.Resolve | src/services/locationResolverService.js:19-78 | a falsy id resolves to null; the kind of a resolved descriptor matches the id's range (dungeon or completed dungeon, connector, useful for 4001 and 3001–3999, useless for 5001); 5001 resolves to the useless descriptor with empty text and 'Useless Location' |
| LocationResolver.ResolveDefinedIff | src/services/locationResolverService.js:19-78 | an id resolves exactly when it is 4001, 5001, a registered dungeon, a connector 2001–2026, or a registered id in 3001–3999 |
| LocationResolver.UnregisteredIdsResolveToNull | src/services/locationResolverService.js:40-77 | 1004, 1099, 4004 and every id in 6001–6999 resolve to null |
| LocationResolver.ChestsResolve | src/services/locationResolverService.js:23-29 | 4001 resolves as useful with "C" and the chest count, unclamped; the description says "Chests" exactly when the count exceeds 1 |
| LocationResolver.DungeonResolveIgnoresCompletion | src/services/locationResolverService.js:41-51 | for a registered dungeon, `completed` decides only the type and the `completed` field; acronym and full name come from the table |
| LocationResolver.ConnectorResolves | src/services/locationResolverService.js:54-63 | a registered connector resolves to its table name and pair number |
| LocationResolver.SpecialResolves | src/services/locationResolverService.js:65-75 | a registered id in 3001–3999 resolves to a useful descriptor with its table entry's display text and name |
| LocationResolver.GetUsedLocationIds | src/services/locationResolverService.js:146-182 | the loop's buckets equal the specification `UsedLocationIds` |
| LocationResolver.UsedIdsSpec | src/services/locationResolverService.js:146-182 | an id is in a bucket exactly when an entry other than the excluded key, with a truthy `locationId`, holds it and it lies in that bucket's range, so 4001, 5001 and 6xxx land in no bucket |
| LocationResolver.HeldInSkip | src/services/locationResolverService.js:155-175 | visiting an entry that does not count leaves the bucket unchanged |
| LocationResolver.HeldInAdd | src/services/locationResolverService.js:155-175 | visiting an entry that counts adds its id to the bucket |
| LocationResolver.AvailableDungeonsSpec | src/services/locationResolverService.js:87-112 | the free dungeons are the table entries that are not used and that the world filter admits, in table order |
| LocationResolver.HeldDungeonNotOffered | src/services/locationResolverService.js:87-92 | a dungeon held at any other key than the excluded one is not offered |
| LocationResolver.ExcludedKeyFreesDungeon | src/services/locationResolverService.js:87-92 | a dungeon held only at key A is offered when A is excluded and withheld when nothing is |
| LocationResolver.DungeonsSimpleWorldsPartition | src/services/locationResolverService.js:95-109 | in Dungeons Simple the light and dark offers are disjoint and together are exactly the free dungeons |
| LocationResolver.LightWorldListQuirks | src/services/locationResolverService.js:98 | the light-world list names 1004, which has no entry, and omits 1045, so Eastern Palace is never offered at a light-world key |
| LocationResolver.AvailableConnectorsSpec | src/services/locationResolverService.js:120-125 | the free connectors are the table entries not in use, in table order |
| LocationResolver.AvailableSpecialLocationsSpec | src/services/locationResolverService.js:133-138 | the offered specials are the `special` entries that are free, or are 3098/3099, in table order |
| LocationResolver.SpecialOfferBounds | src/services/locationResolverService.js:133-138 | only ids 3001–3999 are offered, never 4001 or 5001, and 3098 and 3099 are always offered |
| LocationResolver.NoLocationHasChecks | src/services/locationResolverService.js:189-201 | `getLocationChecks` returns [] for every id with the current tables |
| LocationResolver.GroupKeyOnlyForSpecials | src/services/locationResolverService.js:208-229 | the group key is "location_" and the id for 3001–3999, and null for every other id |
| StaticLocations.StaticLocationsForRandomizer | src/data/staticLocationData.js:23-27 | the result is the ALWAYS entries followed by the set under the mode's key (upper-cased, first space replaced), with nothing for an unknown key |
| StaticLocations.StaticSetsOfEveryMode | src/data/staticLocationData.js:3-27 | any mode whose key is not ALWAYS locks exactly the ALWAYS entries |
| StaticLocations.GetStaticLocationData | src/data/staticLocationData.js:35-38 | the result is the first mapping of the mode's list for the key, or null when no mapping names it |
| StaticLocations.IsLocationStatic | src/data/staticLocationData.js:46-48 | a key is static exactly when some mapping of the mode's list names it |
| StaticLocations.StaticKeys | src/data/staticLocationData.js:3-16 | with the current sets, exactly keys "1" (to 3014) and "18" (to 4004) are static, in every mode |
| StaticLocations.IsStaticMarkedUseless | src/data/staticLocationData.js:57-60 | holds exactly when data is present, its id is 5001, and the key is static |
| StaticLocations.LockedRecord | src/data/staticLocationData.js:73-79 | the locked record has the mapped id, `completed` false, `isEditable` false, `isStatic` true, and the chest count defaulting to 1 |
| StaticLocations.RestoreStaticLocation | src/data/staticLocationData.js:68-80 | null exactly for a key that is not static, and otherwise the locked record of its first mapping |
| StaticLocations.AlwaysLockedKeyIsUnresolvable | src/data/staticLocationData.js:6 | key "18" restores to 4004, which the resolver maps to null |
| StaticLocations.LockAllSpec | src/data/staticLocationData.js:88-115 | the keys are the old keys plus the locked ones; other keys are unchanged; an existing locked key keeps every field and gains `isStatic`; an absent one gets the fresh locked record of its first mapping |
| StaticLocations.LockedKeysAreStatic | src/data/staticLocationData.js:92-112 | every locked key ends with `isStatic` true |
| StaticLocations.LockAllIdempotent | src/data/staticLocationData.js:88-115 | applying the static locations twice is applying them once |
| StaticLocations.ApplyStaticLocations | src/data/staticLocationData.js:88-115 | the loop over a copy of the input returns the specification `LockAll`, and the input game is not changed |
| StaticLocations.FreshGameLocks | src/data/staticLocationData.js:88-115 | on an empty game, keys "1" and "18" are locked to 3014 and 4004 with one chest, and nothing else is added |
| GameService.ValueOrX | src/services/gameService.js:37 | the display value is the default value when it is truthy, else "X", and never empty |
| GameService.DefaultEntry | src/services/gameService.js:35-45 | the default record has the default type, the value or 'X', and the builder's `isEditable`; only connectors carry `number` and `name` |
| GameService.DefaultsOfSpec | src/services/gameService.js:29-84 | a key is written exactly when some map location with that id contributes, and it holds the record of the last such location |
| GameService.DefaultEntriesLocked | src/services/gameService.js:29-84 | every default entry has `isEditable` false and a value; the Dungeons Simple builder writes no dungeon entry |
| GameService.GetDefaultLocations | src/services/gameService.js:29-52 | the loop over light then dark locations builds the Vanilla defaults |
| GameService.GetDungeonsSimpleLocations | src/services/gameService.js:54-84 | the loop builds the Dungeons Simple defaults, skipping dungeon entries |
| GameService.CreateGame | src/services/gameService.js:5-27 | a new game keeps the form's name, mode and inversion; it is not finished, has no finish date and empty notes, and starts with the starting locations of its mode |
| GameService.StartingLocationsLocked | src/services/gameService.js:19-24 | only Vanilla and Dungeons Simple start with entries, every starting entry is locked, and Dungeons Simple starts with no dungeon entry |
| GameService.UpdateGameLastSaved | src/services/gameService.js:86-89 | only `lastSaved` changes |
| GameService.MarkGameFinished | src/services/gameService.js:91-95 | the game is finished with the given date, and nothing else changes |
| GameService.MarkGameActive | src/services/gameService.js:97-101 | the game is active with a null finish date, and nothing else changes |
| GameService.FinishActivateRoundTrip | src/services/gameService.js:91-101 | reactivating a just-finished active game restores it; finishing undoes a reactivation; reactivating is idempotent |
| GameService.RoundedPercentage | src/services/gameService.js:118 | `Math.round` of the percentage, on exact rationals: the nearest integer with halves rounded up; undefined for a zero total |
| GameService.GetProgressStats | src/services/gameService.js:103-120 | `marked` is the number of keys and `marked + unmarked == total`; the category counts count keys by the legacy `type` field |
| GameService.CategoriesWithinMarked | src/services/gameService.js:104-108 | the four category counts add up to at most `marked` |
| GameService.EditorEntriesCountInNoCategory | src/services/gameService.js:105-108 | entries written by the editor have no legacy type, so they are marked but counted in no category |
| GameService.PercentageBounds | src/services/gameService.js:118 | for 0 <= marked <= total the percentage is in 0..100; it is 100 when all are marked and 0 when none are |
| GameService.SortGames | src/services/gameService.js:122-136 | the result is a permutation of the games with `isFinished == showFinished`, ordered by descending date (`finishedDate` or 0, or `lastSaved`) |
| GameService.SortGamesKeeps | src/services/gameService.js:123 | the sorted games are exactly the input games of the shown status |
| GameService.SortByDate | src/services/gameService.js:127-134 | the in-place sort leaves the array ordered by descending date, and the array is a permutation of what it held |
| GameService.InsertOne | src/services/gameService.js:127-134 | one insertion step extends the ordered prefix by one and keeps the array's contents |
| GameService.MigrateLocation | src/services/gameService.js:153-158 | a migrated location keeps every own field and gains `isEditable: true` only when it lacks one |
| GameService.MigrateLocations | src/services/gameService.js:152-160 | a truthy `locations` keeps its keys, each entry migrated; a falsy one becomes `{}` |
| GameService.MigrateGame | src/services/gameService.js:144-161 | migration throws exactly on a null game, and otherwise gives an object |
| GameService.MigrateGameFields | src/services/gameService.js:144-161 | stored fields win over the defaults, the defaults fill only absent fields, and `locations` is always an object |
| GameService.MigrateKeepsLocationFlags | src/services/gameService.js:152-160 | each stored location gains `isEditable: true` only when it lacks that field |
| GameService.MigrateGameIdempotent | src/services/gameService.js:144-161 | migrating a migrated game changes nothing |
| GameService.MigratedLocationStable | src/services/gameService.js:155-157 | a location that has `isEditable` is left as it is |
| GameService.MigratedLocationsStable | src/services/gameService.js:152-160 | a dictionary of already-migrated locations migrates to itself |
| GameService.MigrateAll | src/services/gameService.js:144-161 | the mapping succeeds exactly when no stored game is null, and then migrates each game in order |
| GameService.LoadGames | src/services/gameService.js:138-166 | a stored array without nulls loads as its migrated games; a stored array holding a `null` game loads as [] (its migration throws inside the try); anything that is not a parsed array (nothing stored, bad text, a non-array) loads as [] |
| ExportImport.ExportPayload | src/services/exportImportService.js:7-11 | the payload has exactly `version` "1.0", the export date, and the games unchanged |
| ExportImport.FilterImportable | src/services/exportImportService.js:56-61 | the filter throws exactly when some game is null, and otherwise keeps the importable games in order |
| ExportImport.VersionOrUnknown | src/services/exportImportService.js:69 | the version is the stored one when truthy, else "unknown" |
| ExportImport.ImportGames | src/services/exportImportService.js:45-77 | a parse failure, a null document, or a `games` array holding a `null` game (the filter throws inside the try) gives 'Invalid JSON file'; a missing or non-array `games` is rejected; an import holds the filtered, non-empty game list with its version and export date |
| ExportImport.ImportKeepsExactlyValid | src/services/exportImportService.js:56-61 | the imported games are exactly the file's importable games, in the file's order |
| ExportImport.NoValidGamesIff | src/services/exportImportService.js:63-65 | with an array of non-null games, the import rejects for no valid games exactly when no game passes the filter |
| ExportImport.FilterKeepsAny | src/services/exportImportService.js:56-61 | the filter is empty exactly when no game passes it |
| ExportImport.FilterKeepsAllValid | src/services/exportImportService.js:56-61 | the filter is the identity on a list in which every game is importable |
| ExportImport.ExportImportRoundTrip | src/services/exportImportService.js:5-72 | importing an exported backup of importable games gives back the same games, version "1.0" and the export date |
| ExportImport.ValidateGameData | src/services/exportImportService.js:89-93 | `validateGameData` checks the presence (not the truthiness) of `id`, `name` and `created` and an object-typed `locations`; it throws on null |
| ExportImport.ValidateIsWeakerThanImportFilter | src/services/exportImportService.js:56-61 | every game the import keeps passes validation, but a game with id 0 passes validation and is dropped by the import |
| MapView.ToggleCheck | src/components/MapView.jsx:179-192 | afterwards the check reads `!isRightClick`, a missing status counting as false; the game is returned unchanged when the status already matched; otherwise only `checkStatus[checkId]` changes |
| MapView.ToggleCheckLocal | src/components/MapView.jsx:179-192 | a toggle changes no other check, and repeating it changes nothing more |
| MapView.RightClickClearsCheck | src/components/MapView.jsx:179-192 | a right click after a left click leaves the check cleared |
| MapView.AssignedRecord | src/components/MapView.jsx:214-218 | the saved record has exactly `locationId`, `completed` (or false) and `isEditable` true |
| MapView.UpdateLocation | src/components/MapView.jsx:198-227 | nothing happens at a locked key; 'reset' removes only that key; a save replaces the entry with the fresh record; nothing else of the game changes |
| MapView.UpdateLocationLocal | src/components/MapView.jsx:198-227 | only the selected key changes, and it stays open to the editor |
| MapView.AssignDropsPriorFields | src/components/MapView.jsx:214-226 | a save drops prior fields such as `markedUseless` and `chestCount`; a reset after the save removes the key |
| MapView.RightClickEntry | src/components/MapView.jsx:248-287 | an absent key becomes `{markedUseless: true, isEditable: true}`; a resolved dungeon flips only `completed`; any other entry flips only `markedUseless` |
| MapView.RightClick | src/components/MapView.jsx:245-288 | only the clicked key changes, and it is always present afterwards |
| MapView.ResolvesToDungeonIff | src/components/MapView.jsx:261-264 | the dungeon branch is taken exactly for an id of the dungeon table |
| MapView.RightClickKeepsBranch | src/components/MapView.jsx:261-287 | a right click never changes which branch the next one takes |
| MapView.RightClickInvolution | src/components/MapView.jsx:245-288 | three right clicks equal one; two clicks restore an entry that already stored the flipped field |
| MapView.RightClickEntryTwice | src/components/MapView.jsx:261-287 | flipping twice restores an entry that stores the flipped field |
| MapView.RightClickEntryThrice | src/components/MapView.jsx:248-287 | flipping three times equals flipping once |
| MapView.RightClickIgnoresLock | src/components/MapView.jsx:242-288 | the updater flips the mark of a locked entry too; the lock is enforced only by the button |
| MapView.LeftWorld | src/components/MapView.jsx:327-328 | the left map is dark exactly when the game is inverted |
| MapView.RightWorld | src/components/MapView.jsx:329 | the right map is always the other world |
| MapView.BothWorldsShown | src/components/MapView.jsx:327-333 | the two sides together show every map location once |
| MapView.MapScreen.constructor | src/components/MapView.jsx:164-174 | the screen starts with no selected location and the editor closed |
| MapView.MapScreen.HandleLocationClick | src/components/MapView.jsx:164-174 | the editor opens on the location exactly when the game is not finished and the key is editable |
| MapView.MapScreen.HandleToggleCheck | src/components/MapView.jsx:176-193 | the toggle updater runs unless the game is finished |
| MapView.MapScreen.HandleLocationUpdate | src/components/MapView.jsx:195-231 | the update updater runs unless the game is finished; after it the editor is closed and the selection cleared |
| MapView.MapScreen.HandleUpdateGlobalNotes | src/components/MapView.jsx:233-240 | the notes are replaced unless the game is finished |
| MapView.MapScreen.HandleRightClick | src/components/MapView.jsx:242-289 | the right-click updater runs unless the game is finished |
| GameTracker.ReplaceById | src/components/GameTracker.jsx:25-27 | each game with the id is replaced, and every other game is kept in place |
| GameTracker.ReplaceByIdFacts | src/components/GameTracker.jsx:25-27 | an unknown id leaves the list unchanged; a replacement with the same id keeps every id in place |
| GameTracker.WithoutGame | src/components/GameTracker.jsx:68 | the games without that id, in their order |
| GameTracker.ToggleFinishedList | src/components/GameTracker.jsx:74-87 | an unknown id leaves the list unchanged; games with other ids keep their places |
| GameTracker.ToggleFinishedFlips | src/components/GameTracker.jsx:74-87 | with distinct ids, the game flips its finished status and nothing else about it changes; a second toggle restores an active game |
| GameTracker.MaxId | src/components/GameTracker.jsx:97 | the largest id of a non-empty list |
| GameTracker.MaxExistingId | src/components/GameTracker.jsx:97 | the import base is at least every existing id (0 for an empty list) |
| GameTracker.Rekey | src/components/GameTracker.jsx:98-101 | game i of the import gets id base + i + 1, and nothing else changes |
| GameTracker.ImportedIdsFresh | src/components/GameTracker.jsx:95-105 | imported ids are distinct, greater than every prior id, and ascend in import order |
| GameTracker.AutoSavedList | src/components/GameTracker.jsx:22-27 | only the saved game's entry changes, to its re-stamped copy |
| GameTracker.AutoSaveIdempotent | src/components/GameTracker.jsx:19-34 | saving again with the same clock reading changes nothing |
| GameTracker.AutoSaveRuns | src/components/GameTracker.jsx:40-51 | at most two saves run, and only for an open, unfinished game in the tracker view |
| GameTracker.AutoSaveTriggers | src/components/GameTracker.jsx:40-51 | a change to `checkStatus` alone, or to `lastSaved` alone, triggers no save; a change to `locations` or `globalNotes` does |
| GameTracker.EnteringTrackerSavesTwice | src/components/GameTracker.jsx:40-51 | opening an active game in the tracker runs both effects |
| GameTracker.Tracker.constructor | src/components/GameTracker.jsx:10-16 | the store starts with the loaded games, the games view and no open game |
| GameTracker.Tracker.AutoSaveGame | src/components/GameTracker.jsx:19-34 | nothing for a missing or finished game; otherwise the list and the current game get the re-stamped copy, and the list is saved |
| GameTracker.Tracker.HandleCreateGame | src/components/GameTracker.jsx:53-59 | exactly one new game is appended at the end, the list is saved, and the view returns to the games list |
| GameTracker.Tracker.HandleLoadGame | src/components/GameTracker.jsx:61-64 | the game becomes current in the tracker view |
| GameTracker.Tracker.HandleDeleteGame | src/components/GameTracker.jsx:66-72 | the games with that id are removed, the rest keep their order, and the list is saved |
| GameTracker.Tracker.HandleToggleFinished | src/components/GameTracker.jsx:74-93 | an unknown id changes nothing; otherwise only the game is flipped and saved; the current game is refreshed only when it was just finished |
| GameTracker.Tracker.HandleImportGames | src/components/GameTracker.jsx:95-105 | the list is replaced by the re-keyed imported games and saved |
| GameTracker.Tracker.HandleBackToGames | src/components/GameTracker.jsx:107-110 | no current game and the games view; the list is untouched |
| GameTracker.Tracker.HandleShowCreateGame | src/components/GameTracker.jsx:112-114 | the creation view; nothing else changes |
| NotesPanel.NotesOf | src/components/NotesPanel.jsx:11 | a missing game or missing `globalNotes` reads as the empty list |
| NotesPanel.DeleteNote | src/components/NotesPanel.jsx:25-30 | the notes without that id, in their order |
| NotesPanel.EditNote | src/components/NotesPanel.jsx:35-41 | the length and order are kept; only the edited note takes the new title, content and modification time |
| NotesPanel.EditKeepsIdentity | src/components/NotesPanel.jsx:37-41 | an edit never changes a note's id or creation time |
| NotesPanel.AddNote | src/components/NotesPanel.jsx:43-51 | one new note is appended at the end, and the earlier notes are unchanged |
| NotesPanel.SaveNote | src/components/NotesPanel.jsx:32-57 | editing when a note is being edited, adding otherwise |
| NotesPanel.AddThenDelete | src/components/NotesPanel.jsx:25-51 | deleting a note just added restores the list; with one clock reading, `created == lastModified` |
| NotesModal.SaveRequest | src/components/NotesModal.jsx:20-27 | `onSave` is called exactly when both trimmed fields are non-empty, which is exactly when submit is enabled (line 99), with the trimmed values |
| NotesModal.NoteForm.constructor | src/components/NotesModal.jsx:10-18 | the fields start from the edited note, or empty when adding |
| NotesModal.NoteForm.SetTitle | src/components/NotesModal.jsx:6 | typing changes only the title |
| NotesModal.NoteForm.SetContent | src/components/NotesModal.jsx:7 | typing changes only the content |
| NotesModal.NoteForm.HandleSave | src/components/NotesModal.jsx:20-27 | submitting produces the guarded save request |
| NotesModal.NoteForm.HandleClose | src/components/NotesModal.jsx:29-33 | closing calls `onClose` and never `onSave` |
| NotesModal.PaddingIgnored | src/components/NotesModal.jsx:24-25 | whitespace padding before and after the title or the content does not change what is saved, and whitespace-only input is never saved |
| CreateGame.SubmitRequest | src/components/CreateGame.jsx:20-29 | `onCreateGame` is called exactly when the trimmed name is non-empty, with the trimmed name, mode and inversion |
| CreateGame.CreateForm.constructor | src/components/CreateGame.jsx:5-7 | the form starts with a blank name, Vanilla, not inverted |
| CreateGame.CreateForm.SetGameName | src/components/CreateGame.jsx:5 | typing changes only the name |
| CreateGame.CreateForm.SetRandomizerType | src/components/CreateGame.jsx:6-18 | choosing one of the listed modes changes only the mode |
| CreateGame.CreateForm.ToggleInverted | src/components/CreateGame.jsx:31-33 | `toggleInverted` flips `isInverted`, and nothing else |
| CreateGame.CreateForm.HandleSubmit | src/components/CreateGame.jsx:20-29 | submitting produces the guarded request |
| CreateGame.OptionsAreOffered | src/components/CreateGame.jsx:9-18 | the selectable modes are exactly the eight listed |
| CreateGame.OfferedModeHasSet | src/components/CreateGame.jsx:9-18 | every offered mode is looked up under its own key of the static sets, so it locks just the ALWAYS entries |
| CreateGame.NoSpaceKey | src/data/staticLocationData.js:25 | a mode name without a space is looked up under its upper-cased form |
| CreateGame.OneSpaceKey | src/data/staticLocationData.js:25 | a mode name is looked up with only its first space made an underscore |
| CreateGame.KeyOfDungeonsSimple | src/data/staticLocationData.js:25 | "Dungeons Simple" is looked up under DUNGEONS_SIMPLE |
| LocationButton.GetLocationDisplay | src/components/LocationButton.jsx:8-68 | there is a display exactly when the entry resolves |
| LocationButton.NoDisplayIff | src/components/LocationButton.jsx:13-25 | no display, and the text '?', exactly when there is no data, no truthy `locationId`, or the id does not resolve |
| LocationButton.ChestsDisplay | src/components/LocationButton.jsx:16 | chests show "C" and the stored count, which defaults to 1 |
| LocationButton.ConnectorDisplay | src/components/LocationButton.jsx:47-49 | a connector shows '#' and its pair number |
| LocationButton.SpecialDisplay | src/components/LocationButton.jsx:43-46 | a registered special location shows its table entry's display text, in the useful colour at the normal size |
| LocationButton.DungeonDisplay | src/components/LocationButton.jsx:50-58 | a dungeon shows its acronym, in purple when not completed and, by the default branch, in bg-red-900 when completed |
| LocationButton.SizeByType | src/components/LocationButton.jsx:37-65 | useless shows empty text at the small size; every other display has the normal size |
| LocationButton.DisplayIgnoresMarks | src/components/LocationButton.jsx:8-68 | the display never depends on `markedUseless` or `isEditable` |
| LocationButton.MouseUp | src/components/LocationButton.jsx:82-104 | a left or right mouse-up dispatches exactly when `canEdit` holds |
| LocationButton.LockedDispatchesNothing | src/components/LocationButton.jsx:82-104 | locked entries and read-only games dispatch nothing; an empty key of an editable game accepts both clicks |
| LocationModal.LocationWorld | src/components/LocationModal.jsx:16-19 | "light" exactly when the light-world layout lists the key, else "dark" |
| LocationModal.AvailableLocationTypes | src/components/LocationModal.jsx:29-47 | `dungeonCompleted` is never offered; in Dungeons Simple a default dungeon key offers only 'dungeon' and every other key everything but 'dungeon'; other modes offer all five |
| LocationModal.Opened | src/components/LocationModal.jsx:52-93 | an existing 4001 entry opens as chests with its count (default 1); with no data the single offered type is selected but the id is chosen from the initial useful/chests state, so it is 4001 |
| LocationModal.OpenedOnExistingEntry | src/components/LocationModal.jsx:62-72 | a resolving entry reopens as its range's type (a completed dungeon as 'dungeon'), with its id selected |
| LocationModal.TypeChanged | src/components/LocationModal.jsx:96-112 | dungeon/connector select the first free one (none when none is free); useful keeps the id, or takes the first special under 'special'; static and useless clear it |
| LocationModal.UsefulTypeChanged | src/components/LocationModal.jsx:115-125 | chests select 4001; special selects the first free special, or nothing |
| LocationModal.ChestCountChosen | src/components/LocationModal.jsx:178-181 | a chest-count button stores the count as text that parses back to it, and changes nothing else |
| LocationModal.OptionSelected | src/components/LocationModal.jsx:201 | a dropdown choice selects exactly the option's id, after the text round trip |
| LocationModal.SaveCallOf | src/components/LocationModal.jsx:127-138 | chests call with 4001 and the count; useless with 5001; otherwise with the selected id when it is truthy, else no call; never with `completed` true |
| LocationModal.SaveDisabled | src/components/LocationModal.jsx:246-253 | chests and useless are never disabled; for every other type Save is disabled exactly when the chosen category's offer list is empty or no truthy id is selected |
| LocationModal.EnabledSaveCalls | src/components/LocationModal.jsx:127-138 | an enabled Save always calls back |
| LocationModal.ToUpdate | src/components/MapView.jsx:195 | the map view receives 'reset' or the id and `completed`; the chest count is not passed on |
| LocationModal.OpenedTargetsOffer | src/components/LocationModal.jsx:52-93 | outside the single-type case, the opened form saves only offered choices |
| LocationModal.TypeChangedTargetsOffer | src/components/LocationModal.jsx:96-112 | every type button keeps the form saving only offered choices |
| LocationModal.UsefulTypeChangedTargetsOffer | src/components/LocationModal.jsx:115-125 | the chests/special buttons keep the form saving only offered choices |
| LocationModal.OptionSelectedTargetsOffer | src/components/LocationModal.jsx:201 | choosing a dropdown option keeps the form saving only offered choices |
| LocationModal.ChestCountChosenTargetsOffer | src/components/LocationModal.jsx:178-181 | a chest-count button keeps the form saving only offered choices |
| LocationModal.StaticNeverSaves | src/components/LocationModal.jsx:104-111 | choosing the static type disables Save, and Save calls nothing |
| LocationModal.StaleSelectionAtDungeonEntrance | src/components/LocationModal.jsx:77-91 | at an empty default dungeon key in Dungeons Simple, the form opens as 'dungeon' with 4001 selected, Save is enabled and stores chests, which are not offered |
| LocationModal.ChosenChestCountNotStored | src/components/LocationModal.jsx:130 | the count chosen is passed to `onSave`, but the stored entry has no chest count |
| LocationModal.ResetRemovesEntry | src/components/LocationModal.jsx:140-142 | reset removes the key's entry |
| LocationModal.LocationEditor.constructor | src/components/LocationModal.jsx:9-93 | the editor's offers are those of the key, and the form is the opened form |
| LocationModal.LocationEditor.HandleTypeChange | src/components/LocationModal.jsx:96-112 | the form becomes `TypeChanged` of the old form |
| LocationModal.LocationEditor.HandleUsefulTypeChange | src/components/LocationModal.jsx:115-125 | the form becomes `UsefulTypeChanged` of the old form |
| LocationModal.LocationEditor.HandleChestCount | src/components/LocationModal.jsx:178-181 | the form becomes `ChestCountChosen` of the old form |
| LocationModal.LocationEditor.HandleSelect | src/components/LocationModal.jsx:201 | the form becomes `OptionSelected` of the old form |
| LocationModal.LocationEditor.HandleSave | src/components/LocationModal.jsx:127-138 | the call is the form's save call, and an enabled Save always calls back |
| LocationModal.LocationEditor.HandleReset | src/components/LocationModal.jsx:140-142 | Reset calls back with 'reset' |
| TrackerTypes.ChestCountOrOne | src/components/LocationButton.jsx:16 | `chestCount \|\| 1` is the stored count when truthy, and never 0 |
| Strings.TrimEmptyIff | src/components/NotesModal.jsx:24 | a trimmed string is empty exactly when the string is all JavaScript whitespace |
| Strings.ParseIntOfIntToString | src/components/LocationModal.jsx:60 | `parseInt` of an integer's decimal text gives the integer back |

## Left out

- Browser storage is not modelled. That covers `localStorage` in `loadGames`, `saveGames`, `getLastExported` and `setLastExported`. The store class keeps a `stored` field holding the list last saved, and `LoadGames` starts from what the store held.
- `JSON.stringify` and `JSON.parse` are foreign code. The import and the load start from the parsed value, modelled as a `ParsedFile` or `Stored` datatype with a parse-error case. The text codec, and any round trip through text, is not modelled.
- The file download, `FileReader` and the Blob/URL handling of the export and the import are not modelled. The export is reduced to its payload.
- Clock readings (`Date.now()`, `new Date().toISOString()`) are not modelled. They are integer parameters, and dates are compared as those integers.
- ExportImport.ExportPayload: the export date stays an abstract string, not ISO text.
- GameService.SortGames: the order of games with equal dates is not stated. The source sorts once per call, with a comparator that does not depend on position. Invalid-date (NaN) comparisons cannot arise, because dates are integers.
- GameService.RoundedPercentage: it rounds the exact rational value. Float rounding error in `marked / total * 100` is not modelled.
- NotesPanel.AddNote: `id`, `created` and `lastModified` are separate parameters, because the source takes three clock readings. When all three are equal, `created == lastModified` holds, as `AddThenDelete` shows.
- The conversion from the loaded JSON games to typed `Game` records is not modelled. The tracker store takes typed games, and loading and import are stated on JSON values.
- React scheduling is reduced to value comparisons. Auto-save triggers are compared by value, where React compares references, so a new but equal `locations` object would save in the source and not in the model. Memo comparators and effect ordering are not modelled, beyond the opening effect's stale reads.
- Layout is not modelled: image scaling, the resize debounce, context-menu suppression, button placement in pixels, icons, `document.title`, and all class strings besides the display colours and sizes.
- MapView.MapScreen.HandleUpdateGlobalNotes: the screen always holds a game. A null `currentGame` in the map screen is not modelled.
- LocationButton.GetLocationDisplay: the "Unknown location type" branch (text 'X') is not modelled. The resolver only produces catalogued types, so that branch cannot be reached.
- The 50-character `maxLength` of the name and note fields is a browser input limit, so it is not modelled.
- The note panel's UI flags (expanded, dialog open) and the handlers that only set them are not modelled.
- `window.confirm` dialogs are taken as confirmed, for delete-game and delete-note.
- The `mapData` module is not part of this model. It is the parameter `mapData`, with `light` and `dark` lists of map locations, and its `defaultType`, `defaultValue`, `defaultNumber`, `defaultName` and `defaultLocationId` fields.
- Strings.ToUpperAscii: upper-casing of mode names covers ASCII letters only. The eight mode names are ASCII.
- JSON numbers are modelled as integers (`JNum(n: int)`). A fractional number from `JSON.parse`, such as an `id` of 1.5, is not representable. `NaN` and the infinities are not representable either, but `JSON.parse` never produces them. Truthiness and the import filter only ask whether a number is 0, so integers are enough for them.
- Map location ids are modelled as strings everywhere: as the keys of `locations`, as the `excludeLocationId` argument, and as the `mapLocationId` of static entries. The `mapData` module that defines `location.id` is not part of this model. Strings are what the documented parameter types say (src/services/locationResolverService.js:83, :143; src/data/staticLocationData.js:31), and what the static entries hold (src/data/staticLocationData.js:5-6). The strict comparison `locId === excludeLocationId` (src/services/locationResolverService.js:157) therefore matches a key with its own id. If `mapData` held numeric ids, that comparison would never match, and the exclusion lemmas (LocationResolver.UsedIdsSpec, LocationResolver.ExcludedKeyFreesDungeon) would not describe the program.
- LocationResolver.GetUsedLocationIds: each bucket is a set, where the source uses an array. The source only searches the buckets with `includes`, so duplicates and order do not matter.
- The browser's display of a dropdown value that matches no option is not modelled. Neither is the markup of `SelectDropdown`, or the editor's location name and header labels.
- The presentation-only components are not modelled: `Header.jsx`, `GameCard.jsx`, `GameList.jsx` (it only calls `sortGames` and counts), `LocationHoverTooltip.jsx` and `WorldSwitcher.jsx`.
