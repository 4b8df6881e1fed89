/** The records the controller exchanges with the game server, over the
    WebSocket channel and over the HTTP fallback. Decoding JSON is not
    modelled: a field the code reads with `|| []` is already a sequence here,
    a field it tests with `!= null` is an Option, and `!!st.run_over` is a bool. */
module Protocol {
  import opened JsValues

  /** An enemy on the field; only its `id` takes part in the modelled logic. */
  datatype Enemy = Enemy(id: int)

  /** A state snapshot as `applyState` reads it. */
  datatype Snapshot = Snapshot(
    ver: Option<int>,
    turnPlayer: Id,
    runOver: bool,
    wave: Option<int>,
    deckCount: Option<int>,
    discardCount: Option<int>,
    enemies: seq<Enemy>,
    yourHand: seq<string>)

  /** What the server sends back to `POST /claim` and in a `claim_ok` message. */
  datatype ClaimReply = ClaimReply(playerId: Id, token: Option<string>, hand: seq<string>)

  /** The outcome of one `api(...)` call: its decoded payload, or the message
      of the error it throws. */
  datatype ApiResult<+T> = Ok(value: T) | Fail(message: string)

  /** An inbound WebSocket message, by its `type` field. */
  datatype Inbound =
    | Welcome
    | ClaimOk(reply: ClaimReply)
    | State(snapshot: Snapshot)
    | Error(code: string)
    | Other(kind: string)

  /** An outbound WebSocket message. */
  datatype WsMessage =
    | ClaimMsg(name: string)
    | StartMsg
    | PlayCardMsg(playerId: int, token: string, card: string, target: string)

  /** An HTTP request of the fallback path. */
  datatype Request =
    | PostClaim(name: string)
    | PostStart(playerId: int)
    | PostPlayCard(playerId: int, token: string, card: string, target: string)
    | GetState(playerId: int)

  /** One unit of outbound traffic, on whichever transport carried it. */
  datatype Outbound = Ws(msg: WsMessage) | Http(request: Request)

  /** A command is any outbound traffic except a state fetch. */
  predicate IsCommand(o: Outbound) {
    !(o.Http? && o.request.GetState?)
  }

  /** The commands among the outbound traffic, in order. */
  function CommandsIn(os: seq<Outbound>): (r: seq<Outbound>) {
    if os == [] then []
    else CommandsIn(os[..|os| - 1]) + (if IsCommand(os[|os| - 1]) then [os[|os| - 1]] else [])
  }

  lemma CommandsInAppend(os: seq<Outbound>, o: Outbound)
    ensures CommandsIn(os + [o]) == CommandsIn(os) + (if IsCommand(o) then [o] else [])
  {
    assert (os + [o])[..|os + [o]| - 1] == os;
  }
}
