/** The backend that runs each game as a local child process
    (aimmo-game-creator/local_game_manager.py). Starting a process is recorded
    as the arguments, working directory and environment it is started with;
    whether `subprocess.Popen` succeeds is an input. */
module LocalGames {
  import opened Wrappers
  import opened Decimal
  import opened GameTracking

  const Host := "127.0.0.1"

  /** A child process, as the arguments it was started with. */
  datatype Process = Process(args: seq<string>, cwd: string, env: map<string, string>)

  /** How `create_game` ends: normally, or with the exception it raises. */
  datatype CreateOutcome =
    | Started
    | AlreadyRunning  // the `assert` on a fresh id fails
    | InvalidId       // `int(game_id)` raises ValueError
    | SpawnFailed     // `subprocess.Popen` raises

  /** `os.path.join(a, b)` on POSIX for two parts. */
  function PathJoin(a: string, b: string): string {
    if |b| > 0 && b[0] == '/' then b
    else if a == [] || a[|a| - 1] == '/' then a + b
    else a + "/" + b
  }

  /** The port a game with numeric id `n` listens on, as the text passed to the
      game service. It reads back as 6001 + 1000 * n. */
  function ServicePort(n: int): (port: string)
    ensures ParseInt(port) == Some(6001 + n * 1000)
  {
    IntToStringRoundTrip(6001 + n * 1000);
    IntToString(6001 + n * 1000)
  }

  /** `os.environ` overlaid with the game's settings. */
  function ChildEnvironment(environ: map<string, string>, config: map<string, string>): (env: map<string, string>)
    ensures env.Keys == environ.Keys + config.Keys
    ensures forall k | k in config :: env[k] == config[k]
    ensures forall k | k in environ && k !in config :: env[k] == environ[k]
  {
    environ + config
  }

  class LocalGameManager {
    const gameDirectory: string
    const gameServicePath: string
    var games: map<GameId, Process>
    /** The processes `kill()` has been sent to, oldest first. */
    var killed: seq<Process>

    /** `moduleDirectory` is the directory the game creator's code lives in. */
    constructor (moduleDirectory: string)
      ensures gameDirectory == PathJoin(moduleDirectory, "../aimmo-game/")
      ensures gameServicePath == PathJoin(gameDirectory, "service.py")
      ensures games == map[] && killed == []
    {
      gameDirectory := PathJoin(moduleDirectory, "../aimmo-game/");
      gameServicePath := PathJoin(PathJoin(moduleDirectory, "../aimmo-game/"), "service.py");
      games := map[];
      killed := [];
    }

    /** `create_game`: the id must not be running yet and must be decimal text;
        the game service is started on port 6001 + 1000 * id with the current
        environment overlaid by the game's settings. */
    method CreateGame(id: GameId, config: map<string, string>, environ: map<string, string>, spawnSucceeds: bool)
      returns (outcome: CreateOutcome)
      modifies this`games
      ensures id in old(games) ==> outcome == AlreadyRunning
      ensures id !in old(games) && ParseInt(id).None? ==> outcome == InvalidId
      ensures id !in old(games) && ParseInt(id).Some? ==> outcome == if spawnSucceeds then Started else SpawnFailed
      ensures outcome != Started ==> games == old(games)
      ensures outcome == Started ==>
        games == old(games)[id := Process(["python", gameServicePath, Host, ServicePort(ParseInt(id).value)],
                                          gameDirectory, ChildEnvironment(environ, config))]
    {
      if id in games {
        return AlreadyRunning;
      }
      var number := ParseInt(id);
      if number.None? {
        return InvalidId;
      }
      var port := ServicePort(number.value);
      var processArgs := ["python", gameServicePath, Host, port];
      var env := ChildEnvironment(environ, config);
      if !spawnSucceeds {
        return SpawnFailed;
      }
      games := games[id := Process(processArgs, gameDirectory, env)];
      outcome := Started;
    }

    /** `delete_game`: kills and forgets the game's process; an id that is not
        running is ignored. */
    method DeleteGame(id: GameId)
      modifies this`games, this`killed
      ensures id in old(games) ==> games == old(games) - {id} && killed == old(killed) + [old(games)[id]]
      ensures id !in old(games) ==> games == old(games) && killed == old(killed)
    {
      if id in games {
        killed := killed + [games[id]];
        games := games - {id};
      }
    }
  }

  /** What `recreate_game` does on this backend: the delete frees the id, so the
      create's freshness assertion cannot fail, and the game runs afterwards
      exactly when its id is decimal text and the process starts. */
  method RecreateLocally(backend: LocalGameManager, id: GameId, config: map<string, string>,
                         environ: map<string, string>, spawnSucceeds: bool)
    returns (outcome: CreateOutcome)
    modifies backend`games, backend`killed
    ensures outcome != AlreadyRunning
    ensures outcome == Started <==> ParseInt(id).Some? && spawnSucceeds
    ensures id in backend.games <==> outcome == Started
    ensures forall other | other != id :: other in backend.games <==> other in old(backend.games)
    ensures forall other | other != id && other in old(backend.games) :: backend.games[other] == old(backend.games)[other]
    ensures id in old(backend.games) ==> backend.killed == old(backend.killed) + [old(backend.games)[id]]
    ensures id !in old(backend.games) ==> backend.killed == old(backend.killed)
  {
    backend.DeleteGame(id);
    outcome := backend.CreateGame(id, config, environ, spawnSucceeds);
  }
}
