/**
 * The top-level store of the tracker: the list of sessions, the session being
 * played and the current view, with the handlers that replace them, the
 * auto-save rule, and the list transformations those handlers compute.
 * `stored` is the list last handed to `saveGames`; clock readings and new ids
 * are parameters.
 */
module GameTracker {
  import opened Wrappers
  import Seqs
  import opened TrackerTypes
  import GameService

  datatype View = GamesView | CreateView | TrackerView

  // ---- list transformations ----

  /** `games.map(g => g.id === id ? updated : g)`. */
  function ReplaceById(games: seq<Game>, id: int, updated: Game): (r: seq<Game>)
    ensures |r| == |games|
    ensures forall i :: 0 <= i < |games| ==> r[i] == (if games[i].id == id then updated else games[i])
  {
    seq(|games|, i requires 0 <= i < |games| => if games[i].id == id then updated else games[i])
  }

  /** Replacing by an id no game has leaves the list as it is; replacing with a game of the same id keeps every id in place. */
  lemma ReplaceByIdFacts(games: seq<Game>, id: int, updated: Game)
    ensures (forall i :: 0 <= i < |games| ==> games[i].id != id) ==> ReplaceById(games, id, updated) == games
    ensures updated.id == id ==> forall i :: 0 <= i < |games| ==> ReplaceById(games, id, updated)[i].id == games[i].id
  {
  }

  /** `games.filter(g => g.id !== gameId)`. */
  function WithoutGame(games: seq<Game>, gameId: int): (r: seq<Game>)
    ensures forall g :: g in r <==> g in games && g.id != gameId
    ensures Seqs.IsSubsequence(r, games)
  {
    Seqs.FilterSpec(games, (g: Game) => g.id != gameId);
    Seqs.FilterIsSubsequence(games, (g: Game) => g.id != gameId);
    Seqs.Filter(games, (g: Game) => g.id != gameId)
  }

  /** The list after toggling `gameId`: unchanged for an unknown id, else every game with that id replaced by the flipped first one. */
  function ToggleFinishedList(games: seq<Game>, gameId: int, now: int): (r: seq<Game>)
    ensures (forall i :: 0 <= i < |games| ==> games[i].id != gameId) ==> r == games
    ensures |r| == |games|
    ensures forall i :: 0 <= i < |games| && games[i].id != gameId ==> r[i] == games[i]
  {
    match Seqs.Find(games, (g: Game) => g.id == gameId)
    case None => games
    case Some(game) => ReplaceById(games, gameId, if game.isFinished then GameService.MarkGameActive(game) else GameService.MarkGameFinished(game, now))
  }

  /** With distinct ids, the toggled game flips its status and nothing else about it changes, and a second toggle restores an active game. */
  lemma ToggleFinishedFlips(games: seq<Game>, k: int, now: int)
    requires 0 <= k < |games| && forall i :: 0 <= i < |games| && i != k ==> games[i].id != games[k].id
    ensures var r := ToggleFinishedList(games, games[k].id, now);
      r[k].isFinished == !games[k].isFinished
      && r[k].(isFinished := games[k].isFinished, finishedDate := games[k].finishedDate) == games[k]
    ensures !games[k].isFinished && games[k].finishedDate.None? ==>
      ToggleFinishedList(ToggleFinishedList(games, games[k].id, now), games[k].id, now) == games
  {
    var id := games[k].id;
    Seqs.FindIsFirst(games, (g: Game) => g.id == id, k);
    var r := ToggleFinishedList(games, id, now);
    assert r[k] == GameService.MarkGameFinished(games[k], now) || r[k] == GameService.MarkGameActive(games[k]);
    if !games[k].isFinished && games[k].finishedDate.None? {
      assert forall i :: 0 <= i < |r| && i != k ==> r[i] == games[i];
      Seqs.FindIsFirst(r, (g: Game) => g.id == id, k);
      GameService.FinishActivateRoundTrip(games[k], now);
      var back := ToggleFinishedList(r, id, now);
      assert forall i :: 0 <= i < |games| ==> back[i] == games[i];
    }
  }

  /** `Math.max(...ids)` of a non-empty list. */
  function MaxId(games: seq<Game>): (m: int)
    requires games != []
    ensures forall i :: 0 <= i < |games| ==> games[i].id <= m
    ensures exists i :: 0 <= i < |games| && games[i].id == m
  {
    if |games| == 1 then games[0].id
    else
      var rest := MaxId(games[1..]);
      assert forall i :: 1 <= i < |games| ==> games[i] == games[1..][i - 1];
      if games[0].id >= rest then games[0].id else rest
  }

  /** The id base of an import: the largest existing id, or 0 for an empty list. */
  function MaxExistingId(games: seq<Game>): (m: int)
    ensures forall i :: 0 <= i < |games| ==> games[i].id <= m
  {
    if |games| > 0 then MaxId(games) else 0
  }

  /** `importedGames.map((game, index) => ({...game, id: base + index + 1}))`. */
  function Rekey(imported: seq<Game>, base: int): (r: seq<Game>)
    ensures |r| == |imported|
    ensures forall i :: 0 <= i < |r| ==> r[i] == imported[i].(id := base + i + 1)
  {
    seq(|imported|, i requires 0 <= i < |imported| => imported[i].(id := base + i + 1))
  }

  /** Imported games get distinct ids, each above every id of the list they replace, in import order. */
  lemma ImportedIdsFresh(games: seq<Game>, imported: seq<Game>)
    ensures var r := Rekey(imported, MaxExistingId(games));
      (forall i, j :: 0 <= i < j < |r| ==> r[i].id < r[j].id)
      && (forall i, j :: 0 <= i < |r| && 0 <= j < |games| ==> r[i].id > games[j].id)
  {
  }

  // ---- auto-save ----

  /** The list `autoSaveGame` writes: the game with the saved game's id replaced by its re-stamped copy. */
  function AutoSavedList(games: seq<Game>, gameToSave: Game, now: int): (r: seq<Game>)
    ensures |r| == |games|
    ensures forall i :: 0 <= i < |games| && games[i].id != gameToSave.id ==> r[i] == games[i]
    ensures forall i :: 0 <= i < |games| && games[i].id == gameToSave.id ==> r[i] == gameToSave.(lastSaved := now)
  {
    ReplaceById(games, gameToSave.id, GameService.UpdateGameLastSaved(gameToSave, now))
  }

  /** Saving the same game again with the same clock reading changes nothing. */
  lemma AutoSaveIdempotent(games: seq<Game>, gameToSave: Game, now: int)
    ensures AutoSavedList(AutoSavedList(games, gameToSave, now), GameService.UpdateGameLastSaved(gameToSave, now), now)
      == AutoSavedList(games, gameToSave, now)
  {
  }

  /** What the auto-save effects watch: the current game's `locations` and `globalNotes`, and the view. */
  datatype Watched = Watched(locations: Option<map<string, Assignment>>, globalNotes: Option<Option<seq<Note>>>, view: View)

  function WatchedOf(currentGame: Option<Game>, view: View): Watched {
    Watched(if currentGame.Some? then Some(currentGame.value.locations) else None,
      if currentGame.Some? then Some(currentGame.value.globalNotes) else None, view)
  }

  /** The two auto-save effects' shared condition: a game is open in the tracker and it is not finished. */
  predicate SaveAllowed(currentGame: Option<Game>, view: View) {
    currentGame.Some? && view == TrackerView && !currentGame.value.isFinished
  }

  /**
   * How many times auto-save runs after a render: each effect runs when one of
   * its dependencies changed (compared by value here) and the condition holds.
   */
  function AutoSaveRuns(before: Watched, currentGame: Option<Game>, view: View): (n: nat)
    ensures n <= 2
    ensures n > 0 ==> SaveAllowed(currentGame, view)
  {
    var after := WatchedOf(currentGame, view);
    if !SaveAllowed(currentGame, view) then 0
    else
      (if before.locations != after.locations || before.view != after.view then 1 else 0)
      + (if before.globalNotes != after.globalNotes || before.view != after.view then 1 else 0)
  }

  /**
   * A change to `checkStatus` alone, or to `lastSaved` (as auto-save itself
   * makes), starts no auto-save; a change to `locations` or `globalNotes` of an
   * active game in the tracker does.
   */
  lemma AutoSaveTriggers(game: Game, view: View, checkStatus: Option<map<int, bool>>, now: int, locations: map<string, Assignment>)
    ensures AutoSaveRuns(WatchedOf(Some(game), view), Some(game.(checkStatus := checkStatus)), view) == 0
    ensures AutoSaveRuns(WatchedOf(Some(game), view), Some(GameService.UpdateGameLastSaved(game, now)), view) == 0
    ensures locations != game.locations && SaveAllowed(Some(game), view) ==>
      AutoSaveRuns(WatchedOf(Some(game), view), Some(game.(locations := locations)), view) == 1
  {
  }

  /** Opening an active game in the tracker runs both effects, that is two saves. */
  lemma EnteringTrackerSavesTwice(game: Game, fromView: View)
    requires !game.isFinished && fromView != TrackerView
    ensures AutoSaveRuns(WatchedOf(Some(game), fromView), Some(game), TrackerView) == 2
  {
  }

  // ---- the store ----

  /** Does `g` hold exactly what `createGame` builds from these inputs? */
  predicate IsNewGame(g: Game, gameData: GameData, mapData: MapData, id: int, created: int, lastSaved: int) {
    g == Game(id, gameData.name, gameData.randomizerType, gameData.isInverted, created, lastSaved, false, None,
      GameService.StartingLocations(gameData.randomizerType, mapData), None, Some([]))
  }

  class Tracker {
    var games: seq<Game>
    var currentGame: Option<Game>
    var currentView: View
    var stored: seq<Game>

    /** The first render: the list `loadGames` produced, the games view, no open game. */
    constructor(loaded: seq<Game>)
      ensures games == loaded && stored == loaded && currentGame.None? && currentView == GamesView
    {
      games := loaded;
      stored := loaded;
      currentGame := None;
      currentView := GamesView;
    }

    /** `autoSaveGame`: nothing for no game or a finished one; else re-stamp it, replace it in the list, save, and make it current. */
    method AutoSaveGame(gameToSave: Option<Game>, now: int)
      modifies this
      ensures gameToSave.None? || gameToSave.value.isFinished ==>
        games == old(games) && stored == old(stored) && currentGame == old(currentGame)
      ensures gameToSave.Some? && !gameToSave.value.isFinished ==>
        games == AutoSavedList(old(games), gameToSave.value, now) && stored == games
        && currentGame == Some(GameService.UpdateGameLastSaved(gameToSave.value, now))
      ensures currentView == old(currentView)
    {
      if gameToSave.None? || gameToSave.value.isFinished {
        return;
      }
      var updatedGame := GameService.UpdateGameLastSaved(gameToSave.value, now);
      games := ReplaceById(games, gameToSave.value.id, updatedGame);
      stored := games;
      currentGame := Some(updatedGame);
    }

    /** `handleCreateGame`: append the new game, save, and go back to the list. */
    method HandleCreateGame(gameData: GameData, mapData: MapData, id: int, created: int, lastSaved: int)
      modifies this
      ensures |games| == |old(games)| + 1 && games[..|old(games)|] == old(games)
      ensures IsNewGame(games[|games| - 1], gameData, mapData, id, created, lastSaved)
      ensures stored == games && currentView == GamesView && currentGame == old(currentGame)
    {
      var newGame := GameService.CreateGame(gameData, mapData, id, created, lastSaved);
      var updatedGames := games + [newGame];
      games := updatedGames;
      stored := updatedGames;
      currentView := GamesView;
    }

    /** `handleLoadGame`: open the game in the tracker. */
    method HandleLoadGame(game: Game)
      modifies this
      ensures currentGame == Some(game) && currentView == TrackerView
      ensures games == old(games) && stored == old(stored)
    {
      currentGame := Some(game);
      currentView := TrackerView;
    }

    /** `handleDeleteGame`, confirmed: drop the games with that id and save. */
    method HandleDeleteGame(gameId: int)
      modifies this
      ensures games == WithoutGame(old(games), gameId) && stored == games
      ensures currentGame == old(currentGame) && currentView == old(currentView)
    {
      var updatedGames := Seqs.Filter(games, (g: Game) => g.id != gameId);
      games := updatedGames;
      stored := updatedGames;
    }

    /**
     * `handleToggleFinished`: nothing for an unknown id; else flip the game,
     * save, and refresh the open game only when it was just finished.
     */
    method HandleToggleFinished(gameId: int, now: int)
      modifies this
      ensures games == ToggleFinishedList(old(games), gameId, now)
      ensures (forall i :: 0 <= i < |old(games)| ==> old(games)[i].id != gameId) ==>
        stored == old(stored) && currentGame == old(currentGame)
      ensures (exists i :: 0 <= i < |old(games)| && old(games)[i].id == gameId) ==> stored == games
      ensures currentView == old(currentView)
      ensures var game := Seqs.Find(old(games), (g: Game) => g.id == gameId);
        currentGame == (if game.Some? && !game.value.isFinished && old(currentGame).Some? && old(currentGame).value.id == gameId
          then Some(GameService.MarkGameFinished(game.value, now)) else old(currentGame))
    {
      var game := Seqs.Find(games, (g: Game) => g.id == gameId);
      if game.None? {
        return;
      }
      var updatedGame := if game.value.isFinished then GameService.MarkGameActive(game.value) else GameService.MarkGameFinished(game.value, now);
      var wasFinished := game.value.isFinished;
      var updatedGames := ReplaceById(games, gameId, updatedGame);
      games := updatedGames;
      stored := updatedGames;
      if currentGame.Some? && currentGame.value.id == gameId && !wasFinished {
        currentGame := Some(updatedGame);
      }
    }

    /** `handleImportGames`: the imported games, re-keyed above every existing id, replace the whole list. */
    method HandleImportGames(importedGames: seq<Game>)
      modifies this
      ensures games == Rekey(importedGames, MaxExistingId(old(games))) && stored == games
      ensures currentGame == old(currentGame) && currentView == old(currentView)
    {
      var maxExistingId := if |games| > 0 then MaxId(games) else 0;
      var gamesWithNewIds := Rekey(importedGames, maxExistingId);
      games := gamesWithNewIds;
      stored := gamesWithNewIds;
    }

    /** `handleBackToGames`: the list view, with no open game. */
    method HandleBackToGames()
      modifies this
      ensures currentView == GamesView && currentGame.None?
      ensures games == old(games) && stored == old(stored)
    {
      currentView := GamesView;
      currentGame := None;
    }

    /** `handleShowCreateGame`: the creation form. */
    method HandleShowCreateGame()
      modifies this
      ensures currentView == CreateView
      ensures games == old(games) && stored == old(stored) && currentGame == old(currentGame)
    {
      currentView := CreateView;
    }
  }
}
