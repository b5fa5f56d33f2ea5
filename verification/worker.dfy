/** A handle on one player's remote worker and its turn protocol
    (aimmo-game/simulation/workers/worker.py). The HTTP exchange is the input
    `post`: what posting a state view to a URL gives back. */
module Workers {
  import opened JsonValues

  type PlayerId = int

  /** What `requests.post(...)` followed by `raise_for_status()` and `json()`
      gives: a refused connection, any other failure (an error status, a
      timeout, a body that is not JSON), or the decoded body. */
  datatype Reply = ConnectionError | OtherError | Body(data: Json)

  /** The three fields a fetch overwrites. */
  datatype Turn = Turn(action: Json, log: Json, codeUpdated: Json)

  /** The safe defaults: no action, no log, code not updated. */
  const DefaultTurn := Turn(JNull, JNull, JBool(false))

  predicate HasTurnKeys(data: Json) {
    data.JObject? && "action" in data.fields && "log" in data.fields && "avatar_updated" in data.fields
  }

  /** All or nothing: the reply's three values when it is an object holding all
      three keys, the defaults otherwise. */
  function TurnFor(reply: Reply): Turn {
    if reply.Body? && HasTurnKeys(reply.data) then
      Turn(reply.data.fields["action"], reply.data.fields["log"], reply.data.fields["avatar_updated"])
    else DefaultTurn
  }

  /** A failed exchange, or a reply missing any of the three keys, leaves the
      defaults and nothing of the reply, even when "action" was present. */
  lemma FailedFetchGivesDefaults(reply: Reply)
    requires reply.ConnectionError? || reply.OtherError? || !HasTurnKeys(reply.data)
    ensures TurnFor(reply) == DefaultTurn
  {
  }

  class Worker {
    const url: string
    var log: Json
    var serialisedAction: Json
    var hasCodeUpdated: Json
    var code: Json

    /** `endpoint` is what the worker class's `create_worker` gives for the player. */
    constructor (endpoint: string)
      ensures url == endpoint + "/turn/"
      ensures CurrentTurn() == DefaultTurn && code == JNull
    {
      url := endpoint + "/turn/";
      log := JNull;
      serialisedAction := JNull;
      hasCodeUpdated := JBool(false);
      code := JNull;
    }

    function CurrentTurn(): Turn
      reads this
    {
      Turn(serialisedAction, log, hasCodeUpdated)
    }

    /** `_set_defaults`. */
    method SetDefaults()
      modifies this`log, this`serialisedAction, this`hasCodeUpdated
      ensures CurrentTurn() == DefaultTurn
    {
      log := JNull;
      serialisedAction := JNull;
      hasCodeUpdated := JBool(false);
    }

    /** `fetch_data`: posts the state view to the worker's turn URL and stores
        the reply's three values one by one; whatever goes wrong on the way
        resets all three, so no partial reply survives and nothing is raised.
        The stored code and the URL stay as they were. */
    method FetchData(stateView: Json, post: (string, Json) -> Reply)
      modifies this`log, this`serialisedAction, this`hasCodeUpdated
      ensures CurrentTurn() == TurnFor(post(url, stateView))
    {
      var reply := post(url, stateView);
      match reply {
        case ConnectionError =>
          SetDefaults();
        case OtherError =>
          SetDefaults();
        case Body(data) =>
          if !data.JObject? {
            // indexing anything but an object raises TypeError
            SetDefaults();
          } else if "action" !in data.fields {
            SetDefaults();
          } else {
            serialisedAction := data.fields["action"];
            if "log" !in data.fields {
              SetDefaults();
            } else {
              log := data.fields["log"];
              if "avatar_updated" !in data.fields {
                SetDefaults();
              } else {
                hasCodeUpdated := data.fields["avatar_updated"];
              }
            }
          }
      }
    }
  }
}
