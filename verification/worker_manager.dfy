/** The game's registry of player workers
    (aimmo-game/simulation/worker_manager.py). The worker class is the input
    `createWorker`: the endpoint its `create_worker` gives for a player and the
    port. Telling a worker to go away (`remove_worker`) is recorded in
    `removalNotices`. The eventlet pool is a sequential loop. */
module WorkerManagement {
  import opened JsonValues
  import opened Collections
  import opened Workers

  /** An entry of the players list `update_worker_codes` receives. */
  datatype Player = Player(id: PlayerId, code: Json)

  /** The code a worker holds after the players list is applied in order: that
      of the last entry for the player, or `current` when it has none. */
  function LastCode(players: seq<Player>, p: PlayerId, current: Json): Json {
    if players == [] then current
    else if players[|players| - 1].id == p then players[|players| - 1].code
    else LastCode(players[..|players| - 1], p, current)
  }

  lemma {:induction false} LastCodeAbsent(players: seq<Player>, p: PlayerId, current: Json)
    requires forall i | 0 <= i < |players| :: players[i].id != p
    ensures LastCode(players, p, current) == current
  {
    if players != [] {
      LastCodeAbsent(players[..|players| - 1], p, current);
    }
  }

  lemma {:induction false} LastCodeIsLast(players: seq<Player>, p: PlayerId, current: Json, k: nat)
    requires k < |players| && players[k].id == p
    requires forall i | k < i < |players| :: players[i].id != p
    ensures LastCode(players, p, current) == players[k].code
  {
    if k < |players| - 1 {
      LastCodeIsLast(players[..|players| - 1], p, current, k);
    }
  }

  class WorkerManager {
    const port: int
    const createWorker: (PlayerId, int) -> string
    var workers: map<PlayerId, Worker>
    var removalNotices: seq<PlayerId>

    /** No two players share a worker object. */
    ghost predicate Valid()
      reads this
    {
      forall p, q | p in workers && q in workers && p != q :: workers[p] != workers[q]
    }

    constructor (createWorker: (PlayerId, int) -> string, port: int)
      ensures Valid() && this.createWorker == createWorker && this.port == port
      ensures workers == map[] && removalNotices == []
    {
      this.createWorker := createWorker;
      this.port := port;
      workers := map[];
      removalNotices := [];
    }

    /** `get_code`. */
    function GetCode(p: PlayerId): Json
      requires p in workers
      reads this, workers[p]
    {
      workers[p].code
    }

    /** `get_player_id_to_serialised_actions`: every registered player's last
        action. */
    function SerialisedActions(): (actions: map<PlayerId, Json>)
      reads this, workers.Values
      ensures actions.Keys == workers.Keys
      ensures forall p | p in workers :: actions[p] == workers[p].CurrentTurn().action
    {
      map p | p in workers :: workers[p].serialisedAction
    }

    /** `add_new_worker`: the player gets a new worker in its initial state
        (replacing any worker it had); no other entry changes. */
    method AddNewWorker(p: PlayerId)
      requires Valid()
      modifies this`workers
      ensures Valid()
      ensures workers.Keys == old(workers.Keys) + {p}
      ensures fresh(workers[p]) && workers[p].url == createWorker(p, port) + "/turn/"
      ensures workers[p].CurrentTurn() == DefaultTurn && workers[p].code == JNull
      ensures forall q | q in old(workers) && q != p :: workers[q] == old(workers[q])
    {
      var worker := new Worker(createWorker(p, port));
      workers := workers[p := worker];
    }

    /** `add_workers`. */
    method AddWorkers(usersToAdd: seq<PlayerId>)
      requires Valid()
      modifies this`workers
      ensures Valid()
      ensures workers.Keys == old(workers.Keys) + set u | u in usersToAdd
      ensures forall u | u in usersToAdd ::
        && fresh(workers[u]) && workers[u].url == createWorker(u, port) + "/turn/"
        && workers[u].CurrentTurn() == DefaultTurn && workers[u].code == JNull
      ensures forall q | q in old(workers) && q !in usersToAdd :: workers[q] == old(workers[q])
    {
      for i := 0 to |usersToAdd|
        invariant Valid()
        invariant workers.Keys == old(workers.Keys) + set u | u in usersToAdd[..i]
        invariant forall u | u in usersToAdd[..i] ::
          && fresh(workers[u]) && workers[u].url == createWorker(u, port) + "/turn/"
          && workers[u].CurrentTurn() == DefaultTurn && workers[u].code == JNull
        invariant forall q | q in old(workers) && q !in usersToAdd[..i] :: workers[q] == old(workers[q])
      {
        assert usersToAdd[..i + 1] == usersToAdd[..i] + [usersToAdd[i]];
        AddNewWorker(usersToAdd[i]);
      }
      assert usersToAdd[..|usersToAdd|] == usersToAdd;
    }

    /** `delete_worker`: the player's worker is told to go away and the entry is
        dropped. An unregistered player raises KeyError. */
    method DeleteWorker(p: PlayerId)
      requires Valid() && p in workers
      modifies this`workers, this`removalNotices
      ensures Valid()
      ensures workers == old(workers) - {p}
      ensures removalNotices == old(removalNotices) + [p]
    {
      removalNotices := removalNotices + [p];
      workers := workers - {p};
    }

    /** `delete_workers`: each player must be registered and listed once, or
        the second delete raises KeyError. */
    method DeleteWorkers(playersToDelete: seq<PlayerId>)
      requires Valid()
      requires forall i | 0 <= i < |playersToDelete| :: playersToDelete[i] in workers
      requires forall i, j | 0 <= i < j < |playersToDelete| :: playersToDelete[i] != playersToDelete[j]
      modifies this`workers, this`removalNotices
      ensures Valid()
      ensures workers == old(workers) - set p | p in playersToDelete
      ensures removalNotices == old(removalNotices) + playersToDelete
    {
      for i := 0 to |playersToDelete|
        invariant Valid()
        invariant workers == old(workers) - set p | p in playersToDelete[..i]
        invariant removalNotices == old(removalNotices) + playersToDelete[..i]
      {
        assert playersToDelete[..i + 1] == playersToDelete[..i] + [playersToDelete[i]];
        DeleteWorker(playersToDelete[i]);
      }
      assert playersToDelete[..|playersToDelete|] == playersToDelete;
    }

    /** `update_code`: only the code of the player's own worker changes, and
        `get_code` then gives it. An unregistered player raises KeyError. */
    method UpdateCode(player: Player)
      requires Valid() && player.id in workers
      modifies workers.Values`code
      ensures GetCode(player.id) == player.code
      ensures forall q | q in workers && q != player.id :: workers[q].code == old(workers[q].code)
    {
      workers[player.id].code := player.code;
    }

    /** `update_worker_codes`: the players list applied in order, so each worker
        ends with the code of its player's last entry. */
    method UpdateWorkerCodes(players: seq<Player>)
      requires Valid()
      requires forall i | 0 <= i < |players| :: players[i].id in workers
      modifies workers.Values`code
      ensures forall q | q in workers :: workers[q].code == LastCode(players, q, old(workers[q].code))
    {
      for i := 0 to |players|
        invariant forall q | q in workers :: workers[q].code == LastCode(players[..i], q, old(workers[q].code))
      {
        assert players[..i + 1][..i] == players[..i];
        UpdateCode(players[i]);
      }
      assert players[..|players|] == players;
    }

    /** `fetch_all_worker_data`: every registered worker fetches with its own
        player's state view. A player without a state view raises KeyError. */
    method FetchAllWorkerData(playerIdToGameState: map<PlayerId, Json>, post: (string, Json) -> Reply)
      requires Valid()
      requires workers.Keys <= playerIdToGameState.Keys
      modifies workers.Values`log, workers.Values`serialisedAction, workers.Values`hasCodeUpdated
      ensures forall q | q in workers :: workers[q].CurrentTurn() == TurnFor(post(workers[q].url, playerIdToGameState[q]))
      ensures SerialisedActions() == map q | q in workers :: TurnFor(post(workers[q].url, playerIdToGameState[q])).action
    {
      var order := Enumerate(workers.Keys);
      for i := 0 to |order|
        invariant forall k | 0 <= k < i :: 
          workers[order[k]].CurrentTurn() == TurnFor(post(workers[order[k]].url, playerIdToGameState[order[k]]))
      {
        var worker := workers[order[i]];
        forall k | 0 <= k < i ensures workers[order[k]] != worker {
          assert order[k] in order && order[k] != order[i];
        }
        worker.FetchData(playerIdToGameState[order[i]], post);
      }
    }

    /** `clear_logs`: every worker's log is emptied; nothing else changes. */
    method ClearLogs()
      requires Valid()
      modifies workers.Values`log
      ensures forall q | q in workers :: workers[q].log == JNull
    {
      var order := Enumerate(workers.Keys);
      for i := 0 to |order|
        invariant forall k | 0 <= k < i :: workers[order[k]].log == JNull
      {
        workers[order[i]].log := JNull;
      }
    }
  }
}
