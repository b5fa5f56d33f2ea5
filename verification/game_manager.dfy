/** One reconciliation pass of the game creator
    (aimmo-game-creator/game_manager.py).

    The backend's `create_game` and `delete_game` are abstract in the source.
    Here a backend call is a value, whether it raises is the input `raises`, and
    the controller records every call it makes, with its outcome, in `attempts`:
    the sequence the backend sees and the log shows. The eventlet pool that runs
    a batch three at a time is a sequential loop. */
module GameManagement {
  import opened Wrappers
  import opened Collections
  import opened GameTracking

  /** A game's settings as fetched from the games API, with values as strings. */
  type Config = map<string, string>

  const NameKey := "name"
  const ApiUrlKey := "GAME_API_URL"

  datatype BackendCall = DeleteGame(id: GameId) | CreateGame(id: GameId, config: Config)

  /** One backend call and whether it raised. */
  datatype Attempt = Attempt(call: BackendCall, raised: bool)

  /** How a pass ends. `NameMissing` and `DeleteRaised` are exceptions that
      escape `update()`. */
  datatype PassResult =
    | Reconciled
    | FetchFailed
    | NameMissing(id: GameId)
    | DeleteRaised(id: GameId)

  /** The calls of a batch, and the id whose exception ended it early, if any. */
  datatype Batch = Batch(calls: seq<BackendCall>, escaped: Option<GameId>)

  /** Each call paired with its outcome. */
  function Attempts(calls: seq<BackendCall>, raises: BackendCall -> bool): seq<Attempt> {
    if calls == [] then []
    else [Attempt(calls[0], raises(calls[0]))] + Attempts(calls[1..], raises)
  }

  lemma {:induction false} AttemptsAppend(a: seq<BackendCall>, b: seq<BackendCall>, raises: BackendCall -> bool)
    ensures Attempts(a + b, raises) == Attempts(a, raises) + Attempts(b, raises)
  {
    if a == [] {
      assert a + b == b;
    } else {
      assert (a + b)[0] == a[0];
      assert (a + b)[1..] == a[1..] + b;
      AttemptsAppend(a[1..], b, raises);
    }
  }

  /** The config `recreate_game` hands to `create_game`: the desired one with
      `GAME_API_URL` set to the games URL followed by the id and a slash. */
  function WithApiUrl(config: Config, gamesUrl: string, id: GameId): Config {
    config[ApiUrlKey := gamesUrl + id + "/"]
  }

  /** The injected config keeps every desired setting except `GAME_API_URL`,
      which points at this game's entry under the games URL. */
  lemma WithApiUrlOverlay(config: Config, gamesUrl: string, id: GameId)
    ensures var r := WithApiUrl(config, gamesUrl, id);
      && r.Keys == config.Keys + {ApiUrlKey}
      && r[ApiUrlKey] == gamesUrl + id + "/"
      && forall k | k in config && k != ApiUrlKey :: r[k] == config[k]
  {
  }

  /** The two calls of one `recreate_game`. */
  function RecreateCalls(gamesUrl: string, id: GameId, config: Config): seq<BackendCall> {
    [DeleteGame(id), CreateGame(id, WithApiUrl(config, gamesUrl, id))]
  }

  lemma AttemptsSnoc(calls: seq<BackendCall>, call: BackendCall, raises: BackendCall -> bool)
    ensures Attempts(calls + [call], raises) == Attempts(calls, raises) + [Attempt(call, raises(call))]
  {
    AttemptsAppend(calls, [call], raises);
    assert [call][1..] == [];
  }

  lemma AttemptsOfTwo(first: BackendCall, second: BackendCall, raises: BackendCall -> bool)
    ensures Attempts([first, second], raises) == [Attempt(first, raises(first)), Attempt(second, raises(second))]
  {
    assert [first, second][1..] == [second];
    assert [second][1..] == [];
    assert Attempts([second], raises) == [Attempt(second, raises(second))] + Attempts([], raises);
  }

  /** The addition batch over `order`: a recreate per id, until an id whose config
      has no "name" raises KeyError before its first backend call. */
  function AdditionBatch(gamesUrl: string, desired: map<GameId, Config>, order: seq<GameId>): Batch
    requires forall id | id in order :: id in desired
  {
    if order == [] then Batch([], None)
    else if NameKey !in desired[order[0]] then Batch([], Some(order[0]))
    else
      var rest := AdditionBatch(gamesUrl, desired, order[1..]);
      Batch(RecreateCalls(gamesUrl, order[0], desired[order[0]]) + rest.calls, rest.escaped)
  }

  /** The removal batch as written: `delete_game` is mapped over the ids with no
      try block around it, so the first delete that raises escapes the pass. */
  function RemovalBatch(order: seq<GameId>, raises: BackendCall -> bool): Batch {
    if order == [] then Batch([], None)
    else if raises(DeleteGame(order[0])) then Batch([DeleteGame(order[0])], Some(order[0]))
    else
      var rest := RemovalBatch(order[1..], raises);
      Batch([DeleteGame(order[0])] + rest.calls, rest.escaped)
  }

  /** The removal batch as intended: every id's delete is attempted, a failure
      only logged. */
  function DeletionCalls(order: seq<GameId>): seq<BackendCall> {
    if order == [] then [] else [DeleteGame(order[0])] + DeletionCalls(order[1..])
  }

  lemma AdditionStep(gamesUrl: string, desired: map<GameId, Config>, order: seq<GameId>, i: nat)
    requires i < |order| && forall id | id in order :: id in desired
    ensures var id, step := order[i], AdditionBatch(gamesUrl, desired, order[i..]);
      if NameKey !in desired[id] then step == Batch([], Some(id))
      else
        var rest := AdditionBatch(gamesUrl, desired, order[i + 1..]);
        step == Batch(RecreateCalls(gamesUrl, id, desired[id]) + rest.calls, rest.escaped)
  {
    assert order[i..][0] == order[i] && order[i..][1..] == order[i + 1..];
  }

  lemma RemovalStep(order: seq<GameId>, j: nat, raises: BackendCall -> bool)
    requires j < |order|
    ensures var call, step := DeleteGame(order[j]), RemovalBatch(order[j..], raises);
      if raises(call) then step == Batch([call], Some(order[j]))
      else
        var rest := RemovalBatch(order[j + 1..], raises);
        step == Batch([call] + rest.calls, rest.escaped)
  {
    assert order[j..][0] == order[j] && order[j..][1..] == order[j + 1..];
  }

  /** `whole` is `done` followed by what `pending` still has to do. */
  ghost predicate BatchResumes(whole: Batch, done: seq<BackendCall>, pending: Batch) {
    whole.calls == done + pending.calls && whole.escaped == pending.escaped
  }

  lemma AdditionAdvance(gamesUrl: string, desired: map<GameId, Config>, order: seq<GameId>, i: nat,
                        done: seq<BackendCall>)
    requires i < |order| && forall id | id in order :: id in desired
    requires BatchResumes(AdditionBatch(gamesUrl, desired, order), done,
                          AdditionBatch(gamesUrl, desired, order[i..]))
    ensures NameKey !in desired[order[i]] ==>
      AdditionBatch(gamesUrl, desired, order) == Batch(done, Some(order[i]))
    ensures NameKey in desired[order[i]] ==>
      BatchResumes(AdditionBatch(gamesUrl, desired, order),
                   done + RecreateCalls(gamesUrl, order[i], desired[order[i]]),
                   AdditionBatch(gamesUrl, desired, order[i + 1..]))
  {
    AdditionStep(gamesUrl, desired, order, i);
    var step := RecreateCalls(gamesUrl, order[i], desired[order[i]]);
    var rest := AdditionBatch(gamesUrl, desired, order[i + 1..]).calls;
    assert done + [] == done;
    assert done + (step + rest) == (done + step) + rest;
  }

  lemma AdditionFinished(gamesUrl: string, desired: map<GameId, Config>, order: seq<GameId>,
                         done: seq<BackendCall>)
    requires forall id | id in order :: id in desired
    requires BatchResumes(AdditionBatch(gamesUrl, desired, order), done,
                          AdditionBatch(gamesUrl, desired, order[|order|..]))
    ensures AdditionBatch(gamesUrl, desired, order) == Batch(done, None)
  {
    assert order[|order|..] == [];
    assert done + [] == done;
  }

  lemma RemovalAdvance(order: seq<GameId>, j: nat, done: seq<BackendCall>, raises: BackendCall -> bool)
    requires j < |order|
    requires BatchResumes(RemovalBatch(order, raises), done, RemovalBatch(order[j..], raises))
    ensures raises(DeleteGame(order[j])) ==>
      RemovalBatch(order, raises) == Batch(done + [DeleteGame(order[j])], Some(order[j]))
    ensures !raises(DeleteGame(order[j])) ==>
      BatchResumes(RemovalBatch(order, raises), done + [DeleteGame(order[j])], RemovalBatch(order[j + 1..], raises))
  {
    var call := DeleteGame(order[j]);
    RemovalStep(order, j, raises);
    if !raises(call) {
      var rest := RemovalBatch(order[j + 1..], raises).calls;
      assert done + ([call] + rest) == (done + [call]) + rest;
    }
  }

  lemma RemovalFinished(order: seq<GameId>, done: seq<BackendCall>, raises: BackendCall -> bool)
    requires BatchResumes(RemovalBatch(order, raises), done, RemovalBatch(order[|order|..], raises))
    ensures RemovalBatch(order, raises) == Batch(done, None)
  {
    assert order[|order|..] == [];
    assert done + [] == done;
  }

  lemma AttemptsAfterRecreate(done: seq<BackendCall>, gamesUrl: string, id: GameId, config: Config,
                              raises: BackendCall -> bool)
    ensures var delete, create := DeleteGame(id), CreateGame(id, WithApiUrl(config, gamesUrl, id));
      Attempts(done + RecreateCalls(gamesUrl, id, config), raises)
        == Attempts(done, raises) + [Attempt(delete, raises(delete)), Attempt(create, raises(create))]
  {
    var delete, create := DeleteGame(id), CreateGame(id, WithApiUrl(config, gamesUrl, id));
    AttemptsAppend(done, [delete, create], raises);
    AttemptsOfTwo(delete, create, raises);
  }

  /** Every recreate in a batch that ran to the end is a delete of that id
      immediately followed by a create of it with the injected config. */
  lemma {:induction false} AdditionPairs(gamesUrl: string, desired: map<GameId, Config>, order: seq<GameId>)
    requires forall id | id in order :: id in desired
    requires AdditionBatch(gamesUrl, desired, order).escaped.None?
    ensures var calls := AdditionBatch(gamesUrl, desired, order).calls;
      && |calls| == 2 * |order|
      && forall k | 0 <= k < |order| ::
           && calls[2 * k] == DeleteGame(order[k])
           && calls[2 * k + 1] == CreateGame(order[k], WithApiUrl(desired[order[k]], gamesUrl, order[k]))
  {
    if order != [] {
      var rest := AdditionBatch(gamesUrl, desired, order[1..]);
      AdditionPairs(gamesUrl, desired, order[1..]);
      var calls := AdditionBatch(gamesUrl, desired, order).calls;
      assert calls == RecreateCalls(gamesUrl, order[0], desired[order[0]]) + rest.calls;
      forall k | 1 <= k < |order|
        ensures calls[2 * k] == DeleteGame(order[k])
        ensures calls[2 * k + 1] == CreateGame(order[k], WithApiUrl(desired[order[k]], gamesUrl, order[k]))
      {
        assert calls[2 * k] == rest.calls[2 * (k - 1)];
        assert calls[2 * k + 1] == rest.calls[2 * (k - 1) + 1];
      }
    }
  }

  /** The addition batch escapes exactly when some visited config lacks "name",
      and then at the first such id: it is the k-th id, where k is the number of
      recreates made, the ids before it all have "name", and the calls made are
      those of a complete batch over the ids before it. */
  lemma {:induction false} AdditionEscapes(gamesUrl: string, desired: map<GameId, Config>, order: seq<GameId>)
    requires forall id | id in order :: id in desired
    ensures var b := AdditionBatch(gamesUrl, desired, order);
      && (b.escaped.None? <==> forall id | id in order :: NameKey in desired[id])
      && (b.escaped.Some? ==>
            var k := |b.calls| / 2;
            && |b.calls| == 2 * k && k < |order|
            && b.escaped == Some(order[k]) && NameKey !in desired[order[k]]
            && (forall j | 0 <= j < k :: NameKey in desired[order[j]])
            && AdditionBatch(gamesUrl, desired, order[..k]) == Batch(b.calls, None))
  {
    if order == [] {
    } else if NameKey !in desired[order[0]] {
      assert order[..0] == [];
    } else {
      AdditionEscapes(gamesUrl, desired, order[1..]);
      assert order == [order[0]] + order[1..];
      var b := AdditionBatch(gamesUrl, desired, order);
      var rest := AdditionBatch(gamesUrl, desired, order[1..]);
      if rest.escaped.Some? {
        var k := |b.calls| / 2;
        assert k == |rest.calls| / 2 + 1;
        assert order[k] == order[1..][k - 1];
        forall j | 0 <= j < k ensures NameKey in desired[order[j]] {
          if j > 0 { assert order[j] == order[1..][j - 1]; }
        }
        var prefix := order[..k];
        assert prefix[0] == order[0] && prefix[1..] == order[1..][..k - 1];
      }
    }
  }

  /** The addition batch only makes calls about the ids it visits. */
  lemma {:induction false} AdditionTouchesOnly(gamesUrl: string, desired: map<GameId, Config>, order: seq<GameId>)
    requires forall id | id in order :: id in desired
    ensures forall c | c in AdditionBatch(gamesUrl, desired, order).calls :: c.id in order
  {
    if order != [] && NameKey in desired[order[0]] {
      AdditionTouchesOnly(gamesUrl, desired, order[1..]);
    }
  }

  /** The removal batch only deletes, and only ids it visits. */
  lemma {:induction false} RemovalTouchesOnly(order: seq<GameId>, raises: BackendCall -> bool)
    ensures forall c | c in RemovalBatch(order, raises).calls :: c.DeleteGame? && c.id in order
  {
    if order != [] && !raises(DeleteGame(order[0])) {
      RemovalTouchesOnly(order[1..], raises);
    }
  }

  /** A game that is both tracked and in the games document gets no backend call
      in the pass: it is neither in the addition batch nor in the removal batch. */
  lemma TrackedAndDesiredUntouched(tracked: set<GameId>, gamesUrl: string, desired: map<GameId, Config>,
                                   added: seq<GameId>, removed: seq<GameId>,
                                   raises: BackendCall -> bool, id: GameId)
    requires Enumerates(added, desired.Keys - tracked)
    requires Enumerates(removed, tracked - desired.Keys)
    requires id in tracked && id in desired
    ensures forall c | c in AdditionBatch(gamesUrl, desired, added).calls + RemovalBatch(removed, raises).calls ::
      c.id != id
  {
    AdditionTouchesOnly(gamesUrl, desired, added);
    RemovalTouchesOnly(removed, raises);
  }

  /** As written, the removal batch stops at the first delete that raises: the
      calls made are the deletes of a prefix of the ids, ending with the one that
      raised after none before it did; when no delete raises, every id is
      deleted, in order. */
  lemma {:induction false} RemovalStopsAtFirstFailure(order: seq<GameId>, raises: BackendCall -> bool)
    ensures var b := RemovalBatch(order, raises);
      && |b.calls| <= |order|
      && b.calls == DeletionCalls(order[..|b.calls|])
      && (b.escaped.None? <==> forall k | 0 <= k < |order| :: !raises(DeleteGame(order[k])))
      && (b.escaped.None? ==> b.calls == DeletionCalls(order))
      && (b.escaped.Some? ==>
            && |b.calls| > 0 && b.escaped == Some(order[|b.calls| - 1])
            && raises(DeleteGame(b.escaped.value))
            && forall k | 0 <= k < |b.calls| - 1 :: !raises(DeleteGame(order[k])))
  {
    if order != [] {
      RemovalStopsAtFirstFailure(order[1..], raises);
      var b := RemovalBatch(order, raises);
      if raises(DeleteGame(order[0])) {
        assert order[..1] == [order[0]];
        assert DeletionCalls([order[0]]) == [DeleteGame(order[0])] + DeletionCalls([]);
      } else {
        var rest := RemovalBatch(order[1..], raises);
        assert order[..|b.calls|][1..] == order[1..][..|rest.calls|];
        if rest.escaped.None? {
          forall k | 0 <= k < |order| ensures !raises(DeleteGame(order[k])) {
            if k > 0 { assert order[k] == order[1..][k - 1]; }
          }
        } else {
          forall k | 0 <= k < |b.calls| - 1 ensures !raises(DeleteGame(order[k])) {
            if k > 0 { assert order[k] == order[1..][k - 1]; }
          }
        }
      }
    } else {
      assert order[..0] == [];
    }
  }

  /** The input that shows the removal batch's fault: two removed games, the
      first delete raises, and the second game is never deleted in the pass. */
  lemma OneFailedDeleteSkipsTheRest()
    ensures var raises := (c: BackendCall) => c == DeleteGame("1");
      && RemovalBatch(["1", "2"], raises) == Batch([DeleteGame("1")], Some("1"))
      && DeleteGame("2") !in RemovalBatch(["1", "2"], raises).calls
  {
    var raises := (c: BackendCall) => c == DeleteGame("1");
    assert ["1", "2"][0] == "1";
    assert raises(DeleteGame("1"));
  }

  /** The removal batch as intended attempts the delete of every id, in order,
      whatever any of them raises. */
  lemma {:induction false} DeletionCallsCover(order: seq<GameId>, raises: BackendCall -> bool)
    ensures var attempted := Attempts(DeletionCalls(order), raises);
      && |attempted| == |order|
      && forall k | 0 <= k < |order| ::
           attempted[k] == Attempt(DeleteGame(order[k]), raises(DeleteGame(order[k])))
  {
    if order != [] {
      DeletionCallsCover(order[1..], raises);
      var calls := DeletionCalls(order);
      assert calls[1..] == DeletionCalls(order[1..]);
      var attempted := Attempts(calls, raises);
      assert attempted == [Attempt(calls[0], raises(calls[0]))] + Attempts(calls[1..], raises);
    }
  }

  class GameManager {
    const gamesUrl: string
    const data: GameDataManager
    var attempts: seq<Attempt>

    constructor (gamesUrl: string)
      ensures this.gamesUrl == gamesUrl
      ensures fresh(data) && data.games == {}
      ensures attempts == []
    {
      this.gamesUrl := gamesUrl;
      data := new GameDataManager();
      attempts := [];
    }

    /** `recreate_game`: a delete, then a create with `GAME_API_URL` injected,
        whatever either raises. Reading the config's "name" for the first log
        line happens outside any try block: without it, KeyError escapes before
        any backend call. */
    method RecreateGame(id: GameId, config: Config, raises: BackendCall -> bool) returns (ok: bool)
      modifies this`attempts
      ensures ok <==> NameKey in config
      ensures !ok ==> attempts == old(attempts)
      ensures ok ==>
        var delete, create := DeleteGame(id), CreateGame(id, WithApiUrl(config, gamesUrl, id));
        attempts == old(attempts) + [Attempt(delete, raises(delete)), Attempt(create, raises(create))]
    {
      if NameKey !in config {
        return false;
      }
      var delete := DeleteGame(id);
      attempts := attempts + [Attempt(delete, raises(delete))];
      var augmented := WithApiUrl(config, gamesUrl, id);
      var create := CreateGame(id, augmented);
      attempts := attempts + [Attempt(create, raises(create))];
      ok := true;
    }

    /** `_parallel_map(self.recreate_game, ...)` over the ids in `order`. */
    method RecreateAll(desired: map<GameId, Config>, order: seq<GameId>, raises: BackendCall -> bool)
      returns (escaped: Option<GameId>)
      requires forall id | id in order :: id in desired
      modifies this`attempts
      ensures escaped == AdditionBatch(gamesUrl, desired, order).escaped
      ensures attempts == old(attempts) + Attempts(AdditionBatch(gamesUrl, desired, order).calls, raises)
    {
      ghost var done: seq<BackendCall> := [];
      var i := 0;
      while i < |order|
        invariant 0 <= i <= |order|
        invariant BatchResumes(AdditionBatch(gamesUrl, desired, order), done,
                               AdditionBatch(gamesUrl, desired, order[i..]))
        invariant attempts == old(attempts) + Attempts(done, raises)
      {
        var id := order[i];
        AdditionAdvance(gamesUrl, desired, order, i, done);
        var ok := RecreateGame(id, desired[id], raises);
        if !ok {
          return Some(id);
        }
        AttemptsAfterRecreate(done, gamesUrl, id, desired[id], raises);
        done := done + RecreateCalls(gamesUrl, id, desired[id]);
        i := i + 1;
      }
      AdditionFinished(gamesUrl, desired, order, done);
      escaped := None;
    }

    /** `_parallel_map(self.delete_game, ...)` over the ids in `order`: nothing
        catches what `delete_game` raises. */
    method DeleteAll(order: seq<GameId>, raises: BackendCall -> bool) returns (escaped: Option<GameId>)
      modifies this`attempts
      ensures escaped == RemovalBatch(order, raises).escaped
      ensures attempts == old(attempts) + Attempts(RemovalBatch(order, raises).calls, raises)
    {
      ghost var done: seq<BackendCall> := [];
      var j := 0;
      while j < |order|
        invariant 0 <= j <= |order|
        invariant BatchResumes(RemovalBatch(order, raises), done, RemovalBatch(order[j..], raises))
        invariant attempts == old(attempts) + Attempts(done, raises)
      {
        var call := DeleteGame(order[j]);
        RemovalAdvance(order, j, done, raises);
        AttemptsSnoc(done, call, raises);
        attempts := attempts + [Attempt(call, raises(call))];
        done := done + [call];
        if raises(call) {
          return Some(order[j]);
        }
        j := j + 1;
      }
      RemovalFinished(order, done, raises);
      escaped := None;
    }

    /** The removal batch as evidently intended: every delete in a try block of
        its own, so a delete that raises is logged and the next id is still
        deleted. */
    method DeleteEach(order: seq<GameId>, raises: BackendCall -> bool)
      modifies this`attempts
      ensures attempts == old(attempts) + Attempts(DeletionCalls(order), raises)
    {
      ghost var done: seq<BackendCall> := [];
      var j := 0;
      while j < |order|
        invariant 0 <= j <= |order|
        invariant DeletionCalls(order) == done + DeletionCalls(order[j..])
        invariant attempts == old(attempts) + Attempts(done, raises)
      {
        var call := DeleteGame(order[j]);
        assert order[j..][0] == order[j] && order[j..][1..] == order[j + 1..];
        assert done + ([call] + DeletionCalls(order[j + 1..])) == (done + [call]) + DeletionCalls(order[j + 1..]);
        AttemptsSnoc(done, call, raises);
        attempts := attempts + [Attempt(call, raises(call))];
        done := done + [call];
        j := j + 1;
      }
      assert order[|order|..] == [];
      assert done + [] == done;
    }

    /** `update`: one pass. `fetched` is the decoded games document, `None` when
        the request failed or the body was not JSON. `added` and `removed` are
        the orders in which the two batches visit their ids. */
    method Update(fetched: Option<map<GameId, Config>>, raises: BackendCall -> bool)
      returns (result: PassResult, ghost added: seq<GameId>, ghost removed: seq<GameId>)
      modifies this`attempts, data
      ensures fetched.None? ==>
        result == FetchFailed && data.games == old(data.games) && attempts == old(attempts)
      ensures fetched.Some? ==> Enumerates(added, fetched.value.Keys - old(data.games))
      ensures fetched.Some? ==>
        var desired := fetched.value;
        var adds := AdditionBatch(gamesUrl, desired, added);
        if adds.escaped.Some? then
          && result == NameMissing(adds.escaped.value)
          && data.games == old(data.games) + desired.Keys
          && attempts == old(attempts) + Attempts(adds.calls, raises)
        else
          var dels := RemovalBatch(removed, raises);
          && Enumerates(removed, old(data.games) - desired.Keys)
          && data.games == desired.Keys
          && attempts == old(attempts) + Attempts(adds.calls + dels.calls, raises)
          && result == if dels.escaped.Some? then DeleteRaised(dels.escaped.value) else Reconciled
    {
      if fetched.None? {
        return FetchFailed, [], [];
      }
      var desired := fetched.value;
      var newGames := data.AddNewGames(desired.Keys);
      var order := Enumerate(newGames);
      added, removed := order, [];
      var escaped := RecreateAll(desired, order, raises);
      if escaped.Some? {
        return NameMissing(escaped.value), added, removed;
      }
      var unknownGames := data.RemoveUnknownGames(desired.Keys);
      var doomed := Enumerate(unknownGames);
      removed := doomed;
      escaped := DeleteAll(doomed, raises);
      AttemptsAppend(AdditionBatch(gamesUrl, desired, order).calls, RemovalBatch(doomed, raises).calls, raises);
      result := if escaped.Some? then DeleteRaised(escaped.value) else Reconciled;
    }
  }

  /** An added game stays tracked whether or not its create raised, and a
      removed one stays forgotten whether or not its delete raised: a second pass
      over the same games document makes no backend call, so nothing is retried. */
  method UpdateTwice(manager: GameManager, desired: map<GameId, Config>,
                     firstRaises: BackendCall -> bool, secondRaises: BackendCall -> bool)
    returns (first: PassResult, second: PassResult, ghost afterFirst: seq<Attempt>)
    modifies manager`attempts, manager.data
    ensures first.Reconciled? || first.DeleteRaised? ==>
      second == Reconciled && manager.attempts == afterFirst && manager.data.games == desired.Keys
  {
    ghost var added: seq<GameId>;
    ghost var removed: seq<GameId>;
    first, added, removed := manager.Update(Some(desired), firstRaises);
    afterFirst := manager.attempts;
    second, added, removed := manager.Update(Some(desired), secondRaises);
    if first.Reconciled? || first.DeleteRaised? {
      NothingToEnumerate(added);
      NothingToEnumerate(removed);
      assert Attempts([] + [], secondRaises) == [];
    }
  }
}
