# aimmo game creator and game loop core, in Dafny

This project models the parts of aimmo (an AI coding game) that keep running
games in line with the list of games, and that drive player workers and avatar
rules inside a game.

- **Game creator.** `GameDataManager` tracks which game ids are running.
  `GameManager.update` is one reconciliation pass:
  - it fetches the games document;
  - it deletes and then recreates every new game, injecting `GAME_API_URL`;
  - it deletes every game that has gone from the document.

  `LocalGameManager` is the backend that runs each game as a local
  `python service.py <host> <port>` child process, on port
  6001 + 1000 × id.
- **Game side.**
  - `Worker.fetch_data` posts a state view to a player's worker. It stores the
    reply's action, log and `avatar_updated` flag, or the safe defaults when
    anything goes wrong.
  - `WorkerManager` is the registry of workers per player.
  - `ScoreRule` and `PickupRule` update the avatars that stand on score cells
    and pickup cells.

How the code base maps onto modules:

- Python's `set`/`dict` iteration order is unspecified. A loop over a set walks
  an arbitrary enumeration of it (`Collections.Enumerate`, whose result
  satisfies `Enumerates(xs, s)`: every element of `s` exactly once).
- The eventlet `GreenPool` fan-out becomes a sequential loop, and the semaphore
  is dropped.
- The abstract `create_game`/`delete_game` become `BackendCall` values. Whether
  a call raises is the input `raises`. The controller records each call with
  its outcome in `attempts`, which is the sequence the backend sees.
- HTTP exchanges, `os.environ` and whether `subprocess.Popen` succeeds are
  inputs too.

| module | file | source |
|---|---|---|
| `GameTracking` | game_data_manager.dfy | aimmo-game-creator/game_data_manager.py |
| `GameManagement` | game_manager.dfy | aimmo-game-creator/game_manager.py |
| `LocalGames` | local_game_manager.dfy | aimmo-game-creator/local_game_manager.py |
| `Workers` | worker.dfy | aimmo-game/simulation/workers/worker.py |
| `WorkerManagement` | worker_manager.dfy | aimmo-game/simulation/worker_manager.py |
| `AvatarRules` | avatar_updating_rules.dfy | aimmo-game/simulation/game_logic/avatar_updating_rules.py |
| `Decimal` | decimal.dfy | Python's `int(text)` and `str(int)` |
| `Collections`, `Wrappers`, `JsonValues` | collections.dfy, wrappers.dfy, json_values.dfy | set enumeration, `Option`, JSON values |

Points where the model resolves behaviour that the surrounding documentation
leaves open:

- `recreate_game` reads `game_data["name"]` for its log lines outside both of
  its try blocks. A game whose settings lack "name" therefore raises `KeyError`
  out of `update()` before any backend call for it. The model ends the pass
  there (`NameMissing`). The games added so far stay tracked, and the removal
  batch does not run.
- A game is tracked as soon as `add_new_games` returns it, whether or not its
  create later fails. Likewise, a game is forgotten once `remove_unknown_games`
  returns it, whether or not its delete fails. Nothing is retried on the next
  pass (`UpdateTwice`).
- `fetch_data` stores the three reply values one at a time, but every failure
  path calls `_set_defaults`, so no partial reply survives.
  - A body that is not a JSON object also resets, because indexing it raises
    `TypeError`.
  - `avatar_updated` is stored as whatever JSON value it is. The code does not
    check that it is a boolean.
- `worker_manager.py` is read as Python 2 code (`iteritems`), so
  `map(self.update_code, players)` in `update_worker_codes` runs eagerly. Each
  worker ends with the code of its player's last entry.

## Model

| member | source | states |
|---|---|---|
| GameTracking.GameDataManager.constructor | aimmo-game-creator/game_data_manager.py:9-11 | a new manager tracks no games |
| GameTracking.GameDataManager.AddGame | aimmo-game-creator/game_data_manager.py:13-15 | the id becomes tracked and nothing else changes |
| GameTracking.GameDataManager.RemoveGame | aimmo-game-creator/game_data_manager.py:17-19 | a tracked id stops being tracked; set.remove of an untracked id raises, so the id must be tracked |
| GameTracking.GameDataManager.AddNewGames | aimmo-game-creator/game_data_manager.py:21-26 | returns exactly the ids not tracked before; afterwards the tracked set is the old one united with all the given ids |
| GameTracking.GameDataManager.RemoveUnknownGames | aimmo-game-creator/game_data_manager.py:28-33 | returns exactly the tracked ids missing from the known ones; afterwards only the tracked ids that are also known remain |
| GameTracking.GameDataManager.GetGames | aimmo-game-creator/game_data_manager.py:35-38 | yields every tracked id exactly once, in some order |
| GameTracking.AddNewGamesTwice | aimmo-game-creator/game_data_manager.py:21-26 | add_new_games is idempotent: a second call with the same ids returns nothing new and leaves the tracked set unchanged |
| GameManagement.WithApiUrlOverlay | aimmo-game-creator/game_manager.py:46 | the config passed to create_game keeps every desired setting and sets GAME_API_URL to the games URL, then the id, then "/" |
| GameManagement.GameManager.constructor | aimmo-game-creator/game_manager.py:17-21 | a new controller has the given games URL, a fresh empty tracker and has made no backend call |
| GameManagement.GameManager.RecreateGame | aimmo-game-creator/game_manager.py:35-50 | with "name" present: one delete, then one create with GAME_API_URL injected, whichever of them raises; without "name": KeyError before any backend call |
| GameManagement.GameManager.RecreateAll | aimmo-game-creator/game_manager.py:66-67 | the calls made and the id that escaped are those of the addition batch over the visited order |
| GameManagement.AdditionPairs | aimmo-game-creator/game_manager.py:35-50 | in an addition batch that runs to the end, the calls come in pairs: call 2k deletes the k-th id and call 2k+1 creates it with its injected config |
| GameManagement.AdditionEscapes | aimmo-game-creator/game_manager.py:35-67 | the addition batch escapes exactly when some new game's config lacks "name", and then at the first such id, after complete recreates of the ids before it |
| GameManagement.AdditionTouchesOnly | aimmo-game-creator/game_manager.py:60-67 | the addition batch makes calls only about the new ids |
| GameManagement.AdditionBatch | aimmo-game-creator/game_manager.py:60-67 | the recreate calls of the new games in visiting order, cut short at a config without "name"; its properties are stated by AdditionPairs, AdditionEscapes and AdditionTouchesOnly |
| GameManagement.RemovalBatch | aimmo-game-creator/game_manager.py:69-73 | the delete calls of the removed games as written, cut short after the first that raises; its properties are stated by RemovalStopsAtFirstFailure and RemovalTouchesOnly |
| GameManagement.DeletionCalls | aimmo-game-creator/game_manager.py:70-73 | the delete calls of every removed game, in order, as intended; its property is stated by DeletionCallsCover |
| GameManagement.GameManager.DeleteAll | aimmo-game-creator/game_manager.py:69-73 | the calls made and the id that escaped are those of the removal batch as written |
| GameManagement.RemovalTouchesOnly | aimmo-game-creator/game_manager.py:69-73 | the removal batch only deletes, and only removed ids |
| GameManagement.RemovalStopsAtFirstFailure | aimmo-game-creator/game_manager.py:73 | as written, the removal batch deletes a prefix of the ids and stops at the delete that raised, none before it having raised; when no delete raises it deletes every id, in order, and only then |
| GameManagement.OneFailedDeleteSkipsTheRest | aimmo-game-creator/game_manager.py:70-73 | with removed games "1" and "2" and the delete of "1" raising, the sequential batch escapes with "1" and never deletes game "2" |
| GameManagement.DeletionCallsCover | aimmo-game-creator/game_manager.py:70-73 | the intended removal batch attempts the delete of every removed id, in order, whatever any of them raises |
| GameManagement.GameManager.DeleteEach | aimmo-game-creator/game_manager.py:70-73 | the corrected removal loop makes exactly the intended removal batch's calls |
| GameManagement.TrackedAndDesiredUntouched | aimmo-game-creator/game_manager.py:60-73 | a game that is both tracked and in the games document gets no backend call in a pass |
| GameManagement.GameManager.Update | aimmo-game-creator/game_manager.py:52-73 | a failed fetch changes nothing; otherwise the added ids are exactly the new ones, and a missing "name" stops the pass with the tracker holding the old ids plus all desired ones; otherwise the tracker equals the desired ids, the removed ids are exactly the vanished ones, and the calls are the addition batch followed by the removal batch |
| GameManagement.UpdateTwice | aimmo-game-creator/game_manager.py:52-73 | after a pass that got through the addition batch, a second pass over the same document makes no backend call, even if creates or deletes failed: nothing is retried |
| Decimal.ParseInt | aimmo-game-creator/local_game_manager.py:26 | int() of a text: an optional sign followed by decimal digits, otherwise ValueError (None); IntToStringRoundTrip states its property |
| Decimal.IntToString | aimmo-game-creator/local_game_manager.py:26 | str() of an integer: non-empty decimal text, with "-" for negatives |
| Decimal.NatToStringValue | aimmo-game-creator/local_game_manager.py:26 | the decimal text of a natural number reads back as that number |
| Decimal.IntToStringRoundTrip | aimmo-game-creator/local_game_manager.py:26 | int(str(i)) == i for every integer, including negative ones |
| LocalGames.ServicePort | aimmo-game-creator/local_game_manager.py:26 | the port text handed to the game service reads back as 6001 + 1000 × id |
| LocalGames.PathJoin | aimmo-game-creator/local_game_manager.py:13-17 | POSIX os.path.join of two parts: an absolute second part wins, otherwise the parts are joined with one "/"; the constructor's ensures uses it |
| LocalGames.ChildEnvironment | aimmo-game-creator/local_game_manager.py:33-35 | the child's environment is os.environ overlaid by the game's settings: the settings win, and other variables are kept |
| LocalGames.LocalGameManager.constructor | aimmo-game-creator/local_game_manager.py:12-22 | the game directory is ../aimmo-game/ joined to the module's directory, the service path is service.py inside it, and no game runs |
| LocalGames.LocalGameManager.CreateGame | aimmo-game-creator/local_game_manager.py:24-38 | a running id fails the assertion, a non-decimal id fails in int(), a failed spawn changes nothing; otherwise exactly this id gets a process started as python, the service path, 127.0.0.1 and the port, in the game directory with the overlaid environment |
| LocalGames.LocalGameManager.DeleteGame | aimmo-game-creator/local_game_manager.py:40-43 | a running game's process is killed and forgotten; an unknown id changes nothing |
| LocalGames.RecreateLocally | aimmo-game-creator/local_game_manager.py:24-43 | on this backend the delete then create of recreate_game never hits the freshness assertion; the game runs afterwards exactly when its id is decimal and the spawn succeeds; every other game keeps its process, and only the game's own old process is killed |
| Workers.Worker.constructor | aimmo-game/simulation/workers/worker.py:12-17 | the turn URL is the created worker's endpoint followed by "/turn/"; the log, action and flag start at their defaults and there is no code |
| Workers.Worker.SetDefaults | aimmo-game/simulation/workers/worker.py:23-26 | log and action become None and the code-updated flag becomes False |
| Workers.Worker.FetchData | aimmo-game/simulation/workers/worker.py:28-45 | the stored turn is the reply's action, log and avatar_updated when the reply is an object with all three keys, and the defaults after any failure; the URL and code are untouched |
| Workers.TurnFor | aimmo-game/simulation/workers/worker.py:28-45 | the turn a reply leaves: its action, log and avatar_updated when it is an object with all three keys, the defaults otherwise; FetchData's ensures ties the method to it |
| Workers.FailedFetchGivesDefaults | aimmo-game/simulation/workers/worker.py:33-45 | a connection error, any other error or a reply missing any key leaves the defaults, even when "action" was present |
| WorkerManagement.WorkerManager.constructor | aimmo-game/simulation/worker_manager.py:9-13 | a new registry has the given worker class and port and no workers |
| WorkerManagement.WorkerManager.GetCode | aimmo-game/simulation/worker_manager.py:15-16 | the code held by the player's worker; UpdateCode's ensures reads the new code back through it |
| WorkerManagement.WorkerManager.SerialisedActions | aimmo-game/simulation/worker_manager.py:25-27 | one entry per registered player, holding that worker's last action |
| WorkerManagement.WorkerManager.AddNewWorker | aimmo-game/simulation/worker_manager.py:33-34 | the player gets a fresh worker at its endpoint's turn URL, in its initial state; no other entry changes and no two players share a worker |
| WorkerManagement.WorkerManager.AddWorkers | aimmo-game/simulation/worker_manager.py:39-40 | every listed player gets a fresh initial worker; unlisted players keep theirs |
| WorkerManagement.WorkerManager.DeleteWorker | aimmo-game/simulation/worker_manager.py:45-47 | the worker is told to remove itself and the player's entry is dropped |
| WorkerManagement.WorkerManager.DeleteWorkers | aimmo-game/simulation/worker_manager.py:42-43 | every listed player is dropped, and each is told to remove itself, in list order |
| WorkerManagement.WorkerManager.UpdateCode | aimmo-game/simulation/worker_manager.py:15-19 | get_code of the player then gives the new code; no other worker's code changes |
| WorkerManagement.WorkerManager.UpdateWorkerCodes | aimmo-game/simulation/worker_manager.py:49-50 | each worker ends with the code of its player's last entry in the list, or keeps its own when it has none |
| WorkerManagement.LastCodeAbsent | aimmo-game/simulation/worker_manager.py:49-50 | a player with no entry in the list keeps its code |
| WorkerManagement.LastCodeIsLast | aimmo-game/simulation/worker_manager.py:49-50 | a player whose last entry is the k-th gets the k-th code, whatever earlier entries said |
| WorkerManagement.WorkerManager.FetchAllWorkerData | aimmo-game/simulation/worker_manager.py:21-23 | every worker's turn is what its own player's state view fetched, whatever the visiting order, and the serialised actions are those replies' actions |
| WorkerManagement.WorkerManager.ClearLogs | aimmo-game/simulation/worker_manager.py:29-31 | every worker's log becomes None and nothing else changes |
| AvatarRules.ScoreRule | aimmo-game/simulation/game_logic/avatar_updating_rules.py:15-20 | every avatar on the score cells gains one point per score cell it stands on; empty cells are skipped, and no other avatar changes |
| AvatarRules.OccurrencesPositive | aimmo-game/simulation/game_logic/avatar_updating_rules.py:12-20 | an avatar's score rises exactly when it stands on a score cell |
| AvatarRules.OccurrencesOnce | aimmo-game/simulation/game_logic/avatar_updating_rules.py:12-13 | when no avatar occupies two cells, each avatar on a score cell gains exactly 1 |
| AvatarRules.PickupRule | aimmo-game/simulation/game_logic/avatar_updating_rules.py:25-28 | the pickups are applied in cell order, one per pickup cell that has an avatar, each to the avatar on its cell |
| AvatarRules.ApplicationsExactly | aimmo-game/simulation/game_logic/avatar_updating_rules.py:22-28 | a pickup is applied to an avatar exactly when some pickup cell holds both |

## Left out

- Logging, the `run()` loop and its 10-second sleep, and `get_persistent_state`, which always returns None. These have no effect on state.
- The HTTP request for the games document is the input `fetched`. A request error or a non-JSON body is `None`.
  - A JSON document that is not an object (`.keys()` raises AttributeError) is not modelled.
  - Game ids are strings.
- Each setting value is a string. `str(v)` of non-string values (local_game_manager.py:34) is not modelled.
- `int()` accepts an optional sign followed by ASCII digits. Surrounding whitespace, underscores and non-ASCII digits, which Python also accepts, are not modelled.
- Concurrency:
  - The eventlet `GreenPool` runs batches three at a time. Here they run in order, one call at a time.
  - When one call raises, `imap` may already have started other calls. The model counts only the calls before it.
  - The semaphore is dropped.
- The Kubernetes backend (kubernetes_game_manager.py) is not part of this model. The controller talks to an abstract backend whose calls raise according to `raises`. `LocalGameManager` is modelled on its own and not plugged into `GameManager`.
- The worker process behind `create_worker` and `remove_worker` is outside this model:
  - its endpoint is the input `createWorker`;
  - the removal request is a notice appended to `removalNotices`.
- Exchanges with a worker are deterministic: `post` gives the same reply for the same URL and state view. Timeouts and retries are outside this model.
- JSON numbers are integers; floating point is not modelled.
- `Process` records only the arguments the child is started with. The child's behaviour, and `Popen`'s start-up errors other than a failure flag, are not modelled.
- `KeyError` escapes on absent players in `get_code`, `update_code`, `delete_worker` and `fetch_all_worker_data` are preconditions rather than error results. The source does not handle them.
- What a pickup does to an avatar belongs to the pickup classes, which are not part of this model. `PickupRule` returns the applications it makes, in order. A pickup cell is assumed to hold a pickup.
- The world map is given as the list of cells it yields.
- WorkerManagement.WorkerManager.UpdateWorkerCodes: follows Python 2, where `map` is eager, because worker_manager.py iterates with `iteritems`. avatar_updating_rules.py imports `abc.ABC`, which exists only in Python 3. Under Python 3, `map` at worker_manager.py:50 is lazy, so `update_worker_codes` would change no code, and `iteritems` at line 22 would raise AttributeError in `fetch_all_worker_data`. The model does not capture that Python 3 behaviour.

## Findings

| source | as written | input that shows it | evidently intended | confidence | as-written member | corrected member |
|---|---|---|---|---|---|---|
| aimmo-game-creator/game_manager.py:70-73 | `delete_game` is mapped over the removed ids with no try block. The first delete that raises escapes `update()` and ends `run()`, so removed games whose delete had not started are not deleted. They have already been dropped from the tracker, so no later pass retries them. | Two tracked games "1" and "2" vanish from the games document, and the delete of "1" raises. The exception leaves `update()` at line 73 and ends `run()` (lines 80-84). Both ids have already been dropped from the tracker, so whether or not the pool had started the delete of "2", a delete of "2" that did not happen or failed is never retried. In the sequential model the delete of "2" is not attempted at all. | Like `recreate_game`, every delete is attempted and a failure is only logged. | not executed | GameManagement.OneFailedDeleteSkipsTheRest | GameManagement.DeletionCallsCover |
