/** The controller's module-level state and every event handler as a function
    from the state before to the state after. Each handler runs to completion
    without interleaving, and each `api(...)` it awaits is an input: the
    payload it returns or the error it throws. The class in client.dfy is
    proved to follow these functions. */
module ClientSpec {
  import opened JsValues
  import opened Protocol
  import opened View
  import opened Dispatch
  import Polling

  const StartLabel: string := "Start Run"
  const RestartLabel: string := "Restart Run"

  /** The module-level variables of controller/client.js:11-17, the timer
      table that `setTimeout`/`clearTimeout` act on (`pending`, with fresh
      handles counted from `nextHandle`), the values written to the page,
      and the traffic sent so far. */
  datatype ClientState = ClientState(
    playerId: Id,
    token: Option<string>,
    turnPlayer: Id,
    runOver: bool,
    lastVer: int,
    pollDelay: int,
    pollTimer: Option<nat>,
    pending: set<nat>,
    nextHandle: nat,
    status: string,
    startLabel: string,
    targetOptions: seq<string>,
    target: string,
    hand: seq<string>,
    handDisabled: bool,
    outbox: seq<Outbound>)

  /** The state when the script starts, before the boot call. */
  function Initial(): ClientState {
    ClientState(Null, None, Null, false, Polling.InitialVer, Polling.InitialDelay,
                None, {}, 1, "", "", [], "", [], false, [])
  }

  /** At most one poll timer is pending, and it is the one `pollTimer` holds. */
  predicate TimersValid(s: ClientState) {
    && s.nextHandle >= 1
    && (s.pollTimer.None? ==> s.pending == {})
    && (s.pollTimer.Some? ==> 0 < s.pollTimer.value < s.nextHandle && s.pending <= {s.pollTimer.value})
  }

  predicate Inv(s: ClientState) {
    TimersValid(s) && Polling.InRange(s.pollDelay)
  }

  /** `schedulePoll(ms)`. */
  function SchedulePoll(s: ClientState, ms: int): (s': ClientState) {
    var kept := if s.pollTimer.Some? && s.pollTimer.value != 0 then s.pending - {s.pollTimer.value} else s.pending;
    s.(pollDelay := ms, pollTimer := Some(s.nextHandle), pending := kept + {s.nextHandle},
       nextHandle := s.nextHandle + 1)
  }

  /** The boot call `schedulePoll(250)`. */
  function Boot(s: ClientState): (s': ClientState) {
    SchedulePoll(s, Polling.BootDelay)
  }

  /** The values `renderHand` writes: the cards and whether they are disabled. */
  function RenderHand(s: ClientState, cards: seq<string>): (s': ClientState) {
    s.(hand := cards, handDisabled := HandDisabled(s.turnPlayer, s.playerId, s.runOver))
  }

  /** The values `renderTargets` writes: the options and the kept selection. */
  function RenderTargets(s: ClientState, enemies: seq<Enemy>): (s': ClientState) {
    s.(targetOptions := TargetOptions(enemies), target := KeptSelection(s.target, enemies))
  }

  /** What `applyState(st)` does before the polling step: turn and run-over
      first, then the values derived from them. */
  function ShowSnapshot(s: ClientState, st: Snapshot): (s': ClientState) {
    var s1 := s.(turnPlayer := st.turnPlayer, runOver := st.runOver);
    var s2 := RenderHand(RenderTargets(s1, st.enemies), st.yourHand);
    s2.(startLabel := if st.runOver then RestartLabel else StartLabel,
        status := StatusLine(s.playerId, st.turnPlayer, st.wave, st.runOver,
                             st.deckCount, st.discardCount))
  }

  /** `applyState(st)`: the displayed values, then the version bookkeeping
      and the next poll. */
  function ApplyState(s: ClientState, st: Snapshot): (s': ClientState) {
    var p := Polling.Next(Polling.PollState(s.lastVer, s.pollDelay), st.ver, YourTurn(st.turnPlayer, s.playerId));
    SchedulePoll(ShowSnapshot(s, st).(lastVer := p.lastVer), p.delay)
  }

  /** `refreshState()`: fetch `/state?player_id=<playerId || 0>` and apply
      the result; a failed fetch throws and nothing else happens. */
  function RefreshState(s: ClientState, fetched: ApiResult<Snapshot>): (s': ClientState) {
    var s1 := s.(outbox := s.outbox + [Http(GetState(OrZero(s.playerId)))]);
    match fetched
    case Ok(st) => ApplyState(s1, st)
    case Fail(_) => s1
  }

  /** The pending poll timer fires and runs `refreshState`. */
  function PollTimerFires(s: ClientState, fetched: ApiResult<Snapshot>): (s': ClientState)
    requires s.pollTimer.Some? && s.pollTimer.value in s.pending
  {
    RefreshState(s.(pending := s.pending - {s.pollTimer.value}), fetched)
  }

  /** `handleWS(msg)`. */
  function HandleWs(s: ClientState, msg: Inbound): (s': ClientState) {
    match msg
    case Welcome => s
    case ClaimOk(r) => RenderHand(s.(playerId := r.playerId, token := r.token), r.hand)
    case State(st) => ApplyState(s, st)
    case Error(_) => s
    case Other(_) => s
  }

  /** `wssend(obj)` when the channel is usable, else the HTTP request. */
  function Route(wsUsable: bool, msg: WsMessage, req: Request): (o: Outbound) {
    if wsUsable then Ws(msg) else Http(req)
  }

  /** `claim()` with the name field's text `input`. */
  function Claim(s: ClientState, input: string, wsUsable: bool,
                 reply: ApiResult<ClaimReply>, fetched: ApiResult<Snapshot>): (s': ClientState) {
    var name := ClaimName(input);
    if wsUsable then s.(outbox := s.outbox + [Ws(ClaimMsg(name))])
    else
      var s1 := s.(outbox := s.outbox + [Http(PostClaim(name))]);
      match reply
      case Fail(_) => s1
      case Ok(r) => RefreshState(RenderHand(s1.(playerId := r.playerId, token := r.token), r.hand), fetched)
  }

  /** `startRun()`: the optimistic label and the reset selection come first.
      The body of the `/start` reply is not used, only whether it succeeded. */
  function StartRun(s: ClientState, wsUsable: bool,
                    started: ApiResult<Snapshot>, fetched: ApiResult<Snapshot>): (s': ClientState) {
    var s1 := s.(startLabel := RestartLabel, target := "none");
    if wsUsable then s1.(outbox := s1.outbox + [Ws(StartMsg)])
    else
      var s2 := s1.(outbox := s1.outbox + [Http(PostStart(OrZero(s.playerId)))]);
      match started
      case Fail(_) => s2
      case Ok(_) => RefreshState(s2, fetched)
  }

  /** How a `play(card)` ended. */
  datatype PlayOutcome = Refused | NoTarget | Sent(target: string, overWs: bool)

  /** The local guard of `play`: joined, holding a token, run not over. */
  predicate Ready(s: ClientState) {
    Truthy(s.playerId) && TokenTruthy(s.token) && !s.runOver
  }

  /** The state `play` has reached when it is about to send: the lookup
      request, if any, is out and the selection updated. */
  function PlayBeforeSend(s: ClientState, card: string, lookup: ApiResult<Snapshot>): (s': ClientState)
    requires Ready(s)
  {
    var needs := NeedsLookup(card, s.target);
    var s1 := if needs then s.(outbox := s.outbox + [Http(GetState(s.playerId.n))]) else s;
    if needs && lookup.Ok? && ResolveTarget(card, s.target, lookup).Some?
    then s1.(target := ResolveTarget(card, s.target, lookup).value) else s1
  }

  /** The second half of `play(card)`: the card goes out with target `t`
      as player `pid` holding `tok`, and a `/play_card` reply is applied or,
      when it fails, the state is fetched again. */
  function SendPlay(s: ClientState, pid: int, tok: string, card: string, t: string, wsUsable: bool,
                    reply: ApiResult<Snapshot>, fetched: ApiResult<Snapshot>): (result: (ClientState, PlayOutcome)) {
    if wsUsable then
      (s.(outbox := s.outbox + [Ws(PlayCardMsg(pid, tok, card, t))]), Sent(t, true))
    else
      var s1 := s.(outbox := s.outbox + [Http(PostPlayCard(pid, tok, card, t))]);
      match reply
      case Ok(st) => (ApplyState(s1, st), Sent(t, false))
      case Fail(_) => (RefreshState(s1, fetched), Sent(t, false))
  }

  /** `play(card)`: `lookup` is the target-lookup fetch, `reply` the
      `/play_card` response and `fetched` the resync after a failed play. */
  function Play(s: ClientState, card: string, wsUsable: bool, lookup: ApiResult<Snapshot>,
                reply: ApiResult<Snapshot>, fetched: ApiResult<Snapshot>): (result: (ClientState, PlayOutcome)) {
    if !Ready(s) then (s, Refused)
    else
      var resolved := ResolveTarget(card, s.target, lookup);
      var s2 := PlayBeforeSend(s, card, lookup);
      if resolved.None? then (s2, NoTarget)
      else SendPlay(s2, s.playerId.n, s.token.value, card, resolved.value, wsUsable, reply, fetched)
  }

  // ---------------------------------------------------------------------
  // Polling and reconciliation

  /** Scheduling replaces any pending timer: afterwards exactly one is
      pending, the new one, and the delay is the one asked for. */
  lemma SchedulePollLeavesOneTimer(s: ClientState, ms: int)
    requires TimersValid(s)
    ensures var t := SchedulePoll(s, ms);
      && TimersValid(t)
      && t.pollDelay == ms
      && t.pollTimer.Some? && t.pending == {t.pollTimer.value}
      && t.pollTimer.value !in s.pending
  {
  }

  /** After boot one timer is pending, due in 250 ms. */
  lemma BootStartsPolling()
    ensures var t := Boot(Initial());
      Inv(t) && t.pollDelay == Polling.BootDelay && |t.pending| == 1
  {
    var t := Boot(Initial());
    assert t.pending == {1};
  }

  /** The poll fields after a snapshot are those Polling.Next computes, one
      timer is pending, and the traffic and session are untouched. */
  lemma ApplyStatePolls(s: ClientState, st: Snapshot)
    requires Inv(s)
    ensures var t := ApplyState(s, st);
      var p := Polling.Next(Polling.PollState(s.lastVer, s.pollDelay), st.ver, YourTurn(st.turnPlayer, s.playerId));
      && Inv(t)
      && t.lastVer == p.lastVer && t.pollDelay == p.delay
      && t.pollTimer.Some? && t.pending == {t.pollTimer.value}
      && t.outbox == s.outbox && t.playerId == s.playerId && t.token == s.token
  {
    var p := Polling.Next(Polling.PollState(s.lastVer, s.pollDelay), st.ver, YourTurn(st.turnPlayer, s.playerId));
    Polling.NextInRange(Polling.PollState(s.lastVer, s.pollDelay), st.ver, YourTurn(st.turnPlayer, s.playerId));
  }

  /** A snapshot repeating the held version still overwrites the turn, the
      run-over flag and everything derived from them; only the version is
      kept, and the delay does not shrink. */
  lemma RepeatedSnapshotStillApplied(s: ClientState, st: Snapshot)
    requires Inv(s) && st.ver == Some(s.lastVer)
    ensures var t := ApplyState(s, st);
      && t.turnPlayer == st.turnPlayer && t.runOver == st.runOver
      && t.status == StatusLine(s.playerId, st.turnPlayer, st.wave, st.runOver, st.deckCount, st.discardCount)
      && t.targetOptions == TargetOptions(st.enemies)
      && t.hand == st.yourHand
      && t.lastVer == s.lastVer && t.pollDelay >= s.pollDelay
  {
    Polling.RepeatBacksOff(Polling.PollState(s.lastVer, s.pollDelay), YourTurn(st.turnPlayer, s.playerId));
  }

  /** Snapshot A (version 5) and then a late snapshot B (version 4), neither
      on your turn: B is taken, the held version drops to 4 and the delay
      stays at the slow value instead of growing. */
  lemma OutOfOrderSnapshotTaken(s: ClientState, a: Snapshot, b: Snapshot)
    requires Inv(s) && s.lastVer != 5
    requires a.ver == Some(5) && b.ver == Some(4)
    requires !YourTurn(a.turnPlayer, s.playerId) && !YourTurn(b.turnPlayer, s.playerId)
    ensures ApplyState(s, a).lastVer == 5 && ApplyState(s, a).pollDelay == Polling.SlowDelay
    ensures ApplyState(ApplyState(s, a), b).lastVer == 4
    ensures ApplyState(ApplyState(s, a), b).pollDelay == Polling.SlowDelay
    ensures ApplyState(ApplyState(s, a), b).turnPlayer == b.turnPlayer
  {
  }

  /** The start button's label follows the snapshot, whatever label an
      earlier optimistic update left behind. */
  lemma SnapshotOverridesOptimisticLabel(s: ClientState, st: Snapshot)
    ensures ApplyState(s, st).startLabel == if st.runOver then RestartLabel else StartLabel
    ensures ApplyState(s.(startLabel := RestartLabel), st) == ApplyState(s, st)
  {
  }

  /** For a joined player the hand is enabled exactly when the status line
      announces their turn and the run is not over. */
  lemma HandAgreesWithStatus(s: ClientState, st: Snapshot)
    requires Truthy(s.playerId)
    ensures var t := ApplyState(s, st);
      !t.handDisabled <==> (StartsWith(t.status, "Your turn (P") && !st.runOver)
  {
    StatusOpening(s.playerId, st.turnPlayer, st.wave, st.runOver, st.deckCount, st.discardCount);
  }

  /** A poll whose fetch fails leaves no timer pending: polling stops until
      some other snapshot arrives. */
  lemma FailedPollStopsPolling(s: ClientState, m: string)
    requires Inv(s) && s.pollTimer.Some? && s.pollTimer.value in s.pending
    ensures PollTimerFires(s, Fail(m)).pending == {}
    ensures PollTimerFires(s, Fail(m)).outbox == s.outbox + [Http(GetState(OrZero(s.playerId)))]
  {
  }

  /** A poll whose fetch succeeds applies the snapshot and leaves one timer pending. */
  lemma SuccessfulPollReschedules(s: ClientState, st: Snapshot)
    requires Inv(s) && s.pollTimer.Some? && s.pollTimer.value in s.pending
    ensures var t := PollTimerFires(s, Ok(st));
      Inv(t) && t.pollTimer.Some? && t.pending == {t.pollTimer.value}
  {
    var s1 := s.(pending := s.pending - {s.pollTimer.value},
                 outbox := s.outbox + [Http(GetState(OrZero(s.playerId)))]);
    ApplyStatePolls(s1, st);
  }

  /** Only a `state` message touches the version, the delay or the timer;
      `welcome`, `error` and unknown types change nothing at all; `claim_ok`
      sets the identity and renders the hand for it, and nothing else. */
  lemma HandleWsRouting(s: ClientState, msg: Inbound)
    ensures !msg.State? ==>
      var t := HandleWs(s, msg);
      t.lastVer == s.lastVer && t.pollDelay == s.pollDelay && t.pollTimer == s.pollTimer
      && t.pending == s.pending && t.outbox == s.outbox
    ensures (msg.Welcome? || msg.Error? || msg.Other?) ==> HandleWs(s, msg) == s
    ensures msg.ClaimOk? ==>
      var t := HandleWs(s, msg);
      && t.playerId == msg.reply.playerId && t.token == msg.reply.token
      && t.hand == msg.reply.hand
      && t.handDisabled == HandDisabled(s.turnPlayer, msg.reply.playerId, s.runOver)
      && t.(playerId := s.playerId, token := s.token, hand := s.hand, handDisabled := s.handDisabled) == s
  {
  }

  // ---------------------------------------------------------------------
  // Commands

  /** A refresh only asks for the state; it sends no command. */
  lemma RefreshSendsNoCommand(s: ClientState, fetched: ApiResult<Snapshot>)
    ensures CommandsIn(RefreshState(s, fetched).outbox) == CommandsIn(s.outbox)
  {
    CommandsInAppend(s.outbox, Http(GetState(OrZero(s.playerId))));
  }

  /** `claim` sends exactly one command, the normalised name, over the
      WebSocket when it is usable and otherwise as one HTTP request. */
  lemma ClaimSendsOnce(s: ClientState, input: string, wsUsable: bool,
                       reply: ApiResult<ClaimReply>, fetched: ApiResult<Snapshot>)
    ensures CommandsIn(Claim(s, input, wsUsable, reply, fetched).outbox)
         == CommandsIn(s.outbox) + [Route(wsUsable, ClaimMsg(ClaimName(input)), PostClaim(ClaimName(input)))]
    ensures wsUsable || reply.Fail? ==>
      Claim(s, input, wsUsable, reply, fetched).playerId == s.playerId
      && Claim(s, input, wsUsable, reply, fetched).token == s.token
    ensures !wsUsable && reply.Ok? ==>
      Claim(s, input, wsUsable, reply, fetched).playerId == reply.value.playerId
      && Claim(s, input, wsUsable, reply, fetched).token == reply.value.token
  {
    var name := ClaimName(input);
    var o := Route(wsUsable, ClaimMsg(name), PostClaim(name));
    CommandsInAppend(s.outbox, o);
    if !wsUsable && reply.Ok? {
      var r := reply.value;
      var s1 := s.(outbox := s.outbox + [o]);
      RefreshSendsNoCommand(RenderHand(s1.(playerId := r.playerId, token := r.token), r.hand), fetched);
    }
  }

  /** `startRun` sends exactly one command and leaves the selection at
      'none', which a following refresh keeps since 'none' is always an
      option; "Restart Run" stays unless a refresh shows a fresh snapshot. */
  lemma StartSendsOnce(s: ClientState, wsUsable: bool,
                       started: ApiResult<Snapshot>, fetched: ApiResult<Snapshot>)
    ensures CommandsIn(StartRun(s, wsUsable, started, fetched).outbox)
         == CommandsIn(s.outbox) + [Route(wsUsable, StartMsg, PostStart(OrZero(s.playerId)))]
    ensures StartRun(s, wsUsable, started, fetched).target == "none"
    ensures wsUsable || started.Fail? || fetched.Fail? ==>
      StartRun(s, wsUsable, started, fetched).startLabel == RestartLabel
  {
    if fetched.Ok? {
      TargetOptionsFirst(fetched.value.enemies);
    }
    var s1 := s.(startLabel := RestartLabel, target := "none");
    var o := Route(wsUsable, StartMsg, PostStart(OrZero(s.playerId)));
    CommandsInAppend(s.outbox, o);
    if !wsUsable && started.Ok? {
      RefreshSendsNoCommand(s1.(outbox := s1.outbox + [o]), fetched);
    }
  }

  /** `play` does nothing at all when the player has not joined, holds no
      token or the run is over, and goes ahead otherwise. */
  lemma PlayRefusal(s: ClientState, card: string, wsUsable: bool, lookup: ApiResult<Snapshot>,
                    reply: ApiResult<Snapshot>, fetched: ApiResult<Snapshot>)
    ensures Play(s, card, wsUsable, lookup, reply, fetched).1.Refused? <==> !Ready(s)
    ensures !Ready(s) ==> Play(s, card, wsUsable, lookup, reply, fetched).0 == s
  {
  }

  /** Applying a snapshot sends nothing. */
  lemma ApplyStateKeepsOutbox(s: ClientState, st: Snapshot)
    ensures ApplyState(s, st).outbox == s.outbox
  {
  }

  /** The target lookup sends one state request and no command. */
  lemma PlayBeforeSendSendsNoCommand(s: ClientState, card: string, lookup: ApiResult<Snapshot>)
    requires Ready(s)
    ensures CommandsIn(PlayBeforeSend(s, card, lookup).outbox) == CommandsIn(s.outbox)
    ensures NeedsLookup(card, s.target) ==>
      PlayBeforeSend(s, card, lookup).outbox == s.outbox + [Http(GetState(s.playerId.n))]
  {
    if NeedsLookup(card, s.target) {
      CommandsInAppend(s.outbox, Http(GetState(s.playerId.n)));
    }
  }

  /** Sending a card adds exactly one command to the traffic. */
  lemma SendPlaySendsOnce(s: ClientState, pid: int, tok: string, card: string, t: string, wsUsable: bool,
                          reply: ApiResult<Snapshot>, fetched: ApiResult<Snapshot>)
    ensures var (u, o) := SendPlay(s, pid, tok, card, t, wsUsable, reply, fetched);
      && o == Sent(t, wsUsable)
      && CommandsIn(u.outbox) == CommandsIn(s.outbox) + [Route(wsUsable, PlayCardMsg(pid, tok, card, t),
                                                                         PostPlayCard(pid, tok, card, t))]
  {
    var o := Route(wsUsable, PlayCardMsg(pid, tok, card, t), PostPlayCard(pid, tok, card, t));
    CommandsInAppend(s.outbox, o);
    if !wsUsable {
      var s1 := s.(outbox := s.outbox + [o]);
      if reply.Ok? {
        ApplyStateKeepsOutbox(s1, reply.value);
      } else {
        RefreshSendsNoCommand(s1, fetched);
      }
    }
  }

  /** Sending a card keeps what was sent before as a prefix of the traffic. */
  lemma SendPlayKeepsPrefix(s: ClientState, pid: int, tok: string, card: string, t: string, wsUsable: bool,
                            reply: ApiResult<Snapshot>, fetched: ApiResult<Snapshot>)
    ensures var u := SendPlay(s, pid, tok, card, t, wsUsable, reply, fetched).0;
      |u.outbox| > |s.outbox| && u.outbox[..|s.outbox|] == s.outbox
  {
    var o := Route(wsUsable, PlayCardMsg(pid, tok, card, t), PostPlayCard(pid, tok, card, t));
    var s1 := s.(outbox := s.outbox + [o]);
    assert (s.outbox + [o])[..|s.outbox|] == s.outbox;
    if !wsUsable {
      if reply.Ok? {
        ApplyStateKeepsOutbox(s1, reply.value);
      } else {
        var g := Http(GetState(OrZero(s.playerId)));
        assert RefreshState(s1, fetched).outbox == s.outbox + [o] + [g];
        assert (s.outbox + [o] + [g])[..|s.outbox|] == s.outbox;
      }
    }
  }

  /** Sending a card and handling its reply keeps the invariant. */
  lemma SendPlayKeepsInv(s: ClientState, pid: int, tok: string, card: string, t: string, wsUsable: bool,
                         reply: ApiResult<Snapshot>, fetched: ApiResult<Snapshot>)
    requires Inv(s)
    ensures Inv(SendPlay(s, pid, tok, card, t, wsUsable, reply, fetched).0)
  {
    if !wsUsable {
      var s1 := s.(outbox := s.outbox + [Http(PostPlayCard(pid, tok, card, t))]);
      if reply.Ok? {
        ApplyStatePolls(s1, reply.value);
      } else {
        RefreshKeepsInv(s1, fetched);
      }
    }
  }

  /** When `play` sends, it sends exactly one command: over the WebSocket
      when it is usable, otherwise as one HTTP request. */
  lemma PlaySendsOnce(s: ClientState, card: string, wsUsable: bool, lookup: ApiResult<Snapshot>,
                      reply: ApiResult<Snapshot>, fetched: ApiResult<Snapshot>)
    requires Play(s, card, wsUsable, lookup, reply, fetched).1.Sent?
    ensures var (t, o) := Play(s, card, wsUsable, lookup, reply, fetched);
      && o.overWs == wsUsable
      && CommandsIn(t.outbox) == CommandsIn(s.outbox) +
           [Route(wsUsable, PlayCardMsg(s.playerId.n, s.token.value, card, o.target),
                            PostPlayCard(s.playerId.n, s.token.value, card, o.target))]
  {
    var tg := ResolveTarget(card, s.target, lookup).value;
    PlayBeforeSendSendsNoCommand(s, card, lookup);
    SendPlaySendsOnce(PlayBeforeSend(s, card, lookup), s.playerId.n, s.token.value, card, tg, wsUsable, reply, fetched);
  }

  /** When `play` is refused or finds no target, no command goes out. */
  lemma PlayUnsentSendsNothing(s: ClientState, card: string, wsUsable: bool, lookup: ApiResult<Snapshot>,
                               reply: ApiResult<Snapshot>, fetched: ApiResult<Snapshot>)
    requires !Play(s, card, wsUsable, lookup, reply, fetched).1.Sent?
    ensures CommandsIn(Play(s, card, wsUsable, lookup, reply, fetched).0.outbox) == CommandsIn(s.outbox)
  {
    if Ready(s) {
      PlayBeforeSendSendsNoCommand(s, card, lookup);
    }
  }

  /** A target lookup, when `play` makes one, is the first request it sends. */
  lemma PlayLooksUpFirst(s: ClientState, card: string, wsUsable: bool, lookup: ApiResult<Snapshot>,
                         reply: ApiResult<Snapshot>, fetched: ApiResult<Snapshot>)
    requires Ready(s) && NeedsLookup(card, s.target)
    ensures var t := Play(s, card, wsUsable, lookup, reply, fetched).0;
      |t.outbox| > |s.outbox| && t.outbox[|s.outbox|] == Http(GetState(s.playerId.n))
  {
    PlayBeforeSendSendsNoCommand(s, card, lookup);
    var s2 := PlayBeforeSend(s, card, lookup);
    var r := ResolveTarget(card, s.target, lookup);
    if r.Some? {
      SendPlayKeepsPrefix(s2, s.playerId.n, s.token.value, card, r.value, wsUsable, reply, fetched);
      var t := SendPlay(s2, s.playerId.n, s.token.value, card, r.value, wsUsable, reply, fetched).0;
      assert t.outbox[|s.outbox|] == t.outbox[..|s2.outbox|][|s.outbox|];
    }
  }

  /** The card goes out with the target resolved from the selection and the
      lookup: with no usable selection and enemies on the fetched field, the
      first enemy, also shown as the selection; with an empty field, nothing
      is sent and only the lookup went out. */
  lemma PlayTarget(s: ClientState, card: string, wsUsable: bool, lookup: ApiResult<Snapshot>,
                   reply: ApiResult<Snapshot>, fetched: ApiResult<Snapshot>)
    requires Ready(s)
    ensures var (t, o) := Play(s, card, wsUsable, lookup, reply, fetched);
      && (o.NoTarget? <==> NeedsLookup(card, s.target) && lookup.Ok? && lookup.value.enemies == [])
      && (o.NoTarget? ==> t == s.(outbox := s.outbox + [Http(GetState(s.playerId.n))]))
      && (o.Sent? ==> Some(o.target) == ResolveTarget(card, s.target, lookup))
      && (NeedsLookup(card, s.target) && lookup.Ok? && lookup.value.enemies != [] ==>
            o == Sent(EnemyTag(lookup.value.enemies[0].id), wsUsable)
            && (wsUsable ==> t.target == o.target))
  {
    AbortsOnlyOnEmptyField(card, s.target, lookup);
  }

  // ---------------------------------------------------------------------
  // Any sequence of events

  /** One thing that can happen to the page. */
  datatype Event =
    | Message(msg: Inbound)
    | TimerFired(fetched: ApiResult<Snapshot>)
    | ClaimClicked(input: string, claimWs: bool, claimReply: ApiResult<ClaimReply>, claimFetch: ApiResult<Snapshot>)
    | StartClicked(startWs: bool, started: ApiResult<Snapshot>, startFetch: ApiResult<Snapshot>)
    | CardClicked(card: string, playWs: bool, lookup: ApiResult<Snapshot>, reply: ApiResult<Snapshot>,
                  playFetch: ApiResult<Snapshot>)

  /** The state after one event; a timer can fire only while it is pending. */
  function Step(s: ClientState, e: Event): (s': ClientState) {
    match e
    case Message(msg) => HandleWs(s, msg)
    case TimerFired(f) =>
      if s.pollTimer.Some? && s.pollTimer.value in s.pending then PollTimerFires(s, f) else s
    case ClaimClicked(input, ws, r, f) => Claim(s, input, ws, r, f)
    case StartClicked(ws, r, f) => StartRun(s, ws, r, f)
    case CardClicked(card, ws, l, r, f) => Play(s, card, ws, l, r, f).0
  }

  function Run(s: ClientState, events: seq<Event>): (s': ClientState) {
    if events == [] then s else Step(Run(s, events[..|events| - 1]), events[|events| - 1])
  }

  lemma RefreshKeepsInv(s: ClientState, fetched: ApiResult<Snapshot>)
    requires Inv(s)
    ensures Inv(RefreshState(s, fetched))
  {
    if fetched.Ok? {
      ApplyStatePolls(s.(outbox := s.outbox + [Http(GetState(OrZero(s.playerId)))]), fetched.value);
    }
  }

  lemma ClaimKeepsInv(s: ClientState, input: string, wsUsable: bool,
                      reply: ApiResult<ClaimReply>, fetched: ApiResult<Snapshot>)
    requires Inv(s)
    ensures Inv(Claim(s, input, wsUsable, reply, fetched))
  {
    if !wsUsable && reply.Ok? {
      var s1 := s.(outbox := s.outbox + [Http(PostClaim(ClaimName(input)))]);
      RefreshKeepsInv(RenderHand(s1.(playerId := reply.value.playerId, token := reply.value.token), reply.value.hand), fetched);
    }
  }

  lemma StartKeepsInv(s: ClientState, wsUsable: bool, started: ApiResult<Snapshot>, fetched: ApiResult<Snapshot>)
    requires Inv(s)
    ensures Inv(StartRun(s, wsUsable, started, fetched))
  {
    if !wsUsable && started.Ok? {
      var s2 := s.(startLabel := RestartLabel, target := "none",
                   outbox := s.outbox + [Http(PostStart(OrZero(s.playerId)))]);
      RefreshKeepsInv(s2, fetched);
    }
  }

  lemma StepKeepsInv(s: ClientState, e: Event)
    requires Inv(s)
    ensures Inv(Step(s, e))
  {
    match e
    case Message(msg) =>
      if msg.State? {
        ApplyStatePolls(s, msg.snapshot);
      }
    case TimerFired(f) =>
      if s.pollTimer.Some? && s.pollTimer.value in s.pending {
        RefreshKeepsInv(s.(pending := s.pending - {s.pollTimer.value}), f);
      }
    case ClaimClicked(input, ws, r, f) => ClaimKeepsInv(s, input, ws, r, f);
    case StartClicked(ws, r, f) => StartKeepsInv(s, ws, r, f);
    case CardClicked(card, ws, l, r, f) => PlayKeepsInv(s, card, ws, l, r, f);
  }

  lemma PlayKeepsInv(s: ClientState, card: string, wsUsable: bool, lookup: ApiResult<Snapshot>,
                     reply: ApiResult<Snapshot>, fetched: ApiResult<Snapshot>)
    requires Inv(s)
    ensures Inv(Play(s, card, wsUsable, lookup, reply, fetched).0)
  {
    if Ready(s) {
      var resolved := ResolveTarget(card, s.target, lookup);
      if resolved.Some? {
        SendPlayKeepsInv(PlayBeforeSend(s, card, lookup), s.playerId.n, s.token.value, card, resolved.value,
                         wsUsable, reply, fetched);
      }
    }
  }

  /** Whatever happens after boot, the delay stays within [250, 3000] ms and
      at most one poll timer is pending. */
  lemma {:induction false} RunKeepsInv(s: ClientState, events: seq<Event>)
    requires Inv(s)
    ensures Inv(Run(s, events))
    ensures |Run(s, events).pending| <= 1
  {
    if events != [] {
      RunKeepsInv(s, events[..|events| - 1]);
      StepKeepsInv(Run(s, events[..|events| - 1]), events[|events| - 1]);
    }
    var t := Run(s, events);
    if t.pollTimer.Some? {
      assert t.pending <= {t.pollTimer.value};
      SubsetOfSingleton(t.pending, t.pollTimer.value);
    }
  }

  lemma SubsetOfSingleton(a: set<nat>, x: nat)
    requires a <= {x}
    ensures |a| <= 1
  {
    if x in a {
      assert a == {x};
    } else {
      assert a == {};
    }
  }
}
