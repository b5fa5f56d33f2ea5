/** The set of game ids the game creator believes are running
    (aimmo-game-creator/game_data_manager.py). The eventlet semaphore that
    serialises the operations is not modelled: each method runs to completion. */
module GameTracking {
  import opened Collections

  type GameId = string

  class GameDataManager {
    var games: set<GameId>

    constructor ()
      ensures games == {}
    {
      games := {};
    }

    /** `_add_game`. */
    method AddGame(id: GameId)
      modifies this
      ensures games == old(games) + {id}
    {
      games := games + {id};
    }

    /** `_remove_game`: Python's `set.remove` raises KeyError for an id that is
        not tracked, so callers may only pass a tracked id. */
    method RemoveGame(id: GameId)
      requires id in games
      modifies this
      ensures games == old(games) - {id}
    {
      games := games - {id};
    }

    /** `add_new_games`: starts tracking every incoming id and returns the ones
        that were not tracked before. */
    method AddNewGames(allGames: set<GameId>) returns (newGames: set<GameId>)
      modifies this
      ensures newGames == allGames - old(games)
      ensures games == old(games) + allGames
    {
      newGames := allGames - games;
      var rest := newGames;
      while rest != {}
        invariant rest <= newGames
        invariant games == old(games) + (newGames - rest)
        decreases rest
      {
        var n :| n in rest;
        AddGame(n);
        rest := rest - {n};
      }
    }

    /** `remove_unknown_games`: stops tracking every id outside `knownGames` and
        returns those ids. Each id handed to RemoveGame is still tracked at that
        point, so the KeyError of `set.remove` cannot occur. */
    method RemoveUnknownGames(knownGames: set<GameId>) returns (unknownGames: set<GameId>)
      modifies this
      ensures unknownGames == old(games) - knownGames
      ensures games == old(games) * knownGames
    {
      unknownGames := games - knownGames;
      var rest := unknownGames;
      while rest != {}
        invariant rest <= unknownGames
        invariant rest <= games
        invariant games == old(games) - (unknownGames - rest)
        decreases rest
      {
        var u :| u in rest;
        RemoveGame(u);
        rest := rest - {u};
      }
    }

    /** `get_games`: yields every tracked id once and changes nothing. */
    method GetGames() returns (ids: seq<GameId>)
      ensures Enumerates(ids, games)
      ensures |ids| == |games|
    {
      ids := Enumerate(games);
      EnumerationSize(ids, games);
    }
  }

  /** Calling `add_new_games` twice with the same ids: the second call finds
      nothing new and leaves the tracked set as the first call left it. */
  method AddNewGamesTwice(tracker: GameDataManager, incoming: set<GameId>)
    returns (first: set<GameId>, second: set<GameId>)
    modifies tracker
    ensures first == incoming - old(tracker.games)
    ensures second == {}
    ensures tracker.games == old(tracker.games) + incoming
  {
    first := tracker.AddNewGames(incoming);
    second := tracker.AddNewGames(incoming);
  }
}
