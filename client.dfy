/** The controller script itself: its module-level variables become the
    fields of one object and its functions become methods that update them in
    place, each proved to follow the matching function of ClientSpec. The
    channel's state is the `wsUsable` input; every awaited `api(...)` call is
    an ApiResult input; `pending` and `nextHandle` stand for the runtime's
    timer table. */
module ClientJs {
  import opened JsValues
  import opened Protocol
  import opened View
  import opened Dispatch
  import opened Polling
  import ClientSpec

  class Client {
    var playerId: Id
    var token: Option<string>
    var turnPlayer: Id
    var runOver: bool
    var lastVer: int
    var pollDelay: int
    var pollTimer: Option<nat>
    var pending: set<nat>
    var nextHandle: nat
    // What the script writes to the page.
    var status: string
    var startLabel: string
    var targetOptions: seq<string>
    var target: string
    var hand: seq<string>
    var handDisabled: bool
    // Every message and request sent, in order.
    var outbox: seq<Outbound>

    ghost function Model(): ClientSpec.ClientState
      reads this
    {
      ClientSpec.ClientState(playerId, token, turnPlayer, runOver, lastVer, pollDelay, pollTimer,
                             pending, nextHandle, status, startLabel, targetOptions, target,
                             hand, handDisabled, outbox)
    }

    ghost predicate Valid()
      reads this
    {
      ClientSpec.Inv(Model())
    }

    /** The declarations of controller/client.js:11-17. */
    constructor ()
      ensures Model() == ClientSpec.Initial() && Valid()
    {
      playerId, token := Null, None;
      turnPlayer, runOver := Null, false;
      lastVer, pollDelay, pollTimer := InitialVer, InitialDelay, None;
      pending, nextHandle := {}, 1;
      status, startLabel := "", "";
      targetOptions, target := [], "";
      hand, handDisabled := [], false;
      outbox := [];
    }

    /** `schedulePoll(ms)`: clear the held timer if any, then set a new one. */
    method SchedulePoll(ms: int)
      modifies this
      ensures Model() == ClientSpec.SchedulePoll(old(Model()), ms)
    {
      if pollTimer.Some? && pollTimer.value != 0 {
        pending := pending - {pollTimer.value};
      }
      pollDelay := ms;
      pollTimer := Some(nextHandle);
      pending := pending + {nextHandle};
      nextHandle := nextHandle + 1;
    }

    /** The boot call `schedulePoll(250)`. */
    method Boot()
      requires Valid()
      modifies this
      ensures Valid()
      ensures Model() == ClientSpec.Boot(old(Model()))
      ensures pending == {pollTimer.value} && pollDelay == BootDelay
    {
      SchedulePoll(BootDelay);
    }

    /** `wssend(obj)`: sends and reports true only when the channel is usable. */
    method WsSend(msg: WsMessage, wsUsable: bool) returns (sent: bool)
      modifies this
      ensures sent == wsUsable
      ensures Model() == old(Model()).(outbox := old(outbox) + if wsUsable then [Ws(msg)] else [])
    {
      if wsUsable {
        outbox := outbox + [Ws(msg)];
        return true;
      }
      return false;
    }

    /** The option list and selection of `renderTargets(enemies)`. */
    method RenderTargets(enemies: seq<Enemy>)
      modifies this
      ensures Model() == ClientSpec.RenderTargets(old(Model()), enemies)
    {
      var current := target;
      var options := ["none"];
      var i := 0;
      while i < |enemies|
        invariant 0 <= i <= |enemies|
        invariant options == TargetOptions(enemies[..i])
        invariant unchanged(this)
      {
        assert enemies[..i + 1] == enemies[..i] + [enemies[i]];
        TargetOptionsSnoc(enemies[..i], enemies[i]);
        options := options + [EnemyTag(enemies[i].id)];
        i := i + 1;
      }
      assert enemies[..i] == enemies;
      targetOptions := options;
      // Rebuilt options leave the first one, 'none', selected.
      if current in options {
        target := current;
      } else {
        target := "none";
      }
      assert target == KeptSelection(old(target), enemies);
    }

    /** The values of `renderHand(cards)`. */
    method RenderHand(cards: seq<string>)
      modifies this
      ensures Model() == ClientSpec.RenderHand(old(Model()), cards)
    {
      var yourTurn := turnPlayer == playerId;
      hand := cards;
      handDisabled := !yourTurn || runOver;
    }

    /** The display half of `applyState(st)`. */
    method ShowSnapshot(st: Snapshot)
      modifies this
      ensures Model() == ClientSpec.ShowSnapshot(old(Model()), st)
    {
      ghost var s0 := Model();
      turnPlayer := st.turnPlayer;
      runOver := st.runOver;
      ghost var s1 := Model();
      assert s1 == s0.(turnPlayer := st.turnPlayer, runOver := st.runOver);
      RenderTargets(st.enemies);
      RenderHand(st.yourHand);
      ghost var s2 := Model();
      assert s2 == ClientSpec.RenderHand(ClientSpec.RenderTargets(s1, st.enemies), st.yourHand);
      startLabel := if runOver then ClientSpec.RestartLabel else ClientSpec.StartLabel;
      RenderStatus(st);
    }

    /** The status line `applyState` writes. */
    method RenderStatus(st: Snapshot)
      modifies this
      ensures Model() == old(Model()).(status := StatusLine(playerId, turnPlayer, st.wave, runOver,
                                                            st.deckCount, st.discardCount))
    {
      status := StatusLine(playerId, turnPlayer, st.wave, runOver, st.deckCount, st.discardCount);
    }

    /** `applyState(st)`. */
    method ApplyState(st: Snapshot)
      requires Valid()
      modifies this
      ensures Valid()
      ensures Model() == ClientSpec.ApplyState(old(Model()), st)
    {
      ghost var s0 := Model();
      ShowSnapshot(st);
      var yourTurn := turnPlayer == playerId;
      var delay;
      if st.ver.Some? {
        if st.ver.value != lastVer {
          lastVer := st.ver.value;
          delay := if yourTurn then FastDelay else SlowDelay;
        } else {
          delay := Min(MaxDelay, pollDelay + BackoffStep);
        }
      } else {
        delay := if yourTurn then UnversionedFast else UnversionedSlow;
      }
      assert PollState(lastVer, delay) == Next(PollState(s0.lastVer, s0.pollDelay), st.ver, yourTurn);
      SchedulePoll(delay);
      ClientSpec.ApplyStatePolls(s0, st);
    }

    /** `refreshState()`. */
    method RefreshState(fetched: ApiResult<Snapshot>)
      requires Valid()
      modifies this
      ensures Valid()
      ensures Model() == ClientSpec.RefreshState(old(Model()), fetched)
    {
      outbox := outbox + [Http(GetState(OrZero(playerId)))];
      match fetched {
        case Ok(st) => ApplyState(st);
        case Fail(_) =>
      }
    }

    /** The pending poll timer fires: the runtime drops it and calls `refreshState`. */
    method OnPollTimer(fetched: ApiResult<Snapshot>)
      requires Valid() && pollTimer.Some? && pollTimer.value in pending
      modifies this
      ensures Valid()
      ensures Model() == ClientSpec.PollTimerFires(old(Model()), fetched)
    {
      pending := pending - {pollTimer.value};
      RefreshState(fetched);
    }

    /** `handleWS(msg)`. */
    method HandleWs(msg: Inbound)
      requires Valid()
      modifies this
      ensures Valid()
      ensures Model() == ClientSpec.HandleWs(old(Model()), msg)
    {
      match msg {
        case Welcome =>
        case ClaimOk(r) => AdoptClaim(r);
        case State(st) => ApplyState(st);
        case Error(_) =>
        case Other(_) =>
      }
    }

    /** `claim()`, with `input` the text of the name field. */
    method Claim(input: string, wsUsable: bool, reply: ApiResult<ClaimReply>, fetched: ApiResult<Snapshot>)
      requires Valid()
      modifies this
      ensures Valid()
      ensures Model() == ClientSpec.Claim(old(Model()), input, wsUsable, reply, fetched)
    {
      ghost var s0 := Model();
      var name := ClaimName(input);
      var sent := WsSend(ClaimMsg(name), wsUsable);
      if sent {
        return;
      }
      outbox := outbox + [Http(PostClaim(name))];
      ghost var s1 := Model();
      assert s1 == s0.(outbox := s0.outbox + [Http(PostClaim(name))]);
      if reply.Ok? {
        AdoptClaim(reply.value);
        RefreshState(fetched);
      }
    }

    /** The session fields and hand a successful claim reply sets, in
        `claim` and in `handleWS`. */
    method AdoptClaim(r: ClaimReply)
      requires Valid()
      modifies this
      ensures Valid()
      ensures Model() == ClientSpec.RenderHand(old(Model()).(playerId := r.playerId, token := r.token), r.hand)
    {
      playerId := r.playerId;
      token := r.token;
      RenderHand(r.hand);
    }

    /** `startRun()`. */
    method StartRun(wsUsable: bool, started: ApiResult<Snapshot>, fetched: ApiResult<Snapshot>)
      requires Valid()
      modifies this
      ensures Valid()
      ensures Model() == ClientSpec.StartRun(old(Model()), wsUsable, started, fetched)
    {
      ghost var s0 := Model();
      startLabel := ClientSpec.RestartLabel;
      target := "none";
      ghost var s1 := Model();
      assert s1 == s0.(startLabel := ClientSpec.RestartLabel, target := "none");
      var sent := WsSend(StartMsg, wsUsable);
      if sent {
        return;
      }
      outbox := outbox + [Http(PostStart(OrZero(playerId)))];
      ghost var s2 := Model();
      assert s2 == s1.(outbox := s1.outbox + [Http(PostStart(OrZero(s0.playerId)))]);
      if started.Ok? {
        RefreshState(fetched);
      }
    }

    /** The first half of `play(card)`: the target lookup when the card
        needs one and the selection is empty or 'none'. Returns the target to
        send, or None when the fetched field has no enemy. */
    method ResolvePlayTarget(card: string, lookup: ApiResult<Snapshot>) returns (resolved: Option<string>)
      requires ClientSpec.Ready(Model())
      modifies this
      ensures Model() == ClientSpec.PlayBeforeSend(old(Model()), card, lookup)
      ensures resolved == ResolveTarget(card, old(target), lookup)
    {
      var t := target;
      if RequiresEnemyTarget(card) && (t == "" || t == "none") {
        outbox := outbox + [Http(GetState(playerId.n))];
        match lookup {
          case Ok(st) =>
            if |st.enemies| > 0 {
              t := EnemyTag(st.enemies[0].id);
              target := t;
            } else {
              return None;
            }
          case Fail(_) =>
        }
      }
      return Some(t);
    }

    /** The second half of `play(card)`: send the card with target `t`. */
    method SendPlay(card: string, t: string, wsUsable: bool, reply: ApiResult<Snapshot>,
                    fetched: ApiResult<Snapshot>) returns (outcome: ClientSpec.PlayOutcome)
      requires Valid() && ClientSpec.Ready(Model())
      modifies this
      ensures Valid()
      ensures (Model(), outcome)
           == ClientSpec.SendPlay(old(Model()), old(playerId.n), old(token.value), card, t, wsUsable, reply, fetched)
    {
      ghost var s0 := Model();
      var sent := WsSend(PlayCardMsg(playerId.n, token.value, card, t), wsUsable);
      if sent {
        return ClientSpec.Sent(t, true);
      }
      outbox := outbox + [Http(PostPlayCard(playerId.n, token.value, card, t))];
      ghost var s1 := Model();
      assert s1 == s0.(outbox := s0.outbox + [Http(PostPlayCard(s0.playerId.n, s0.token.value, card, t))]);
      match reply {
        case Ok(st) => ApplyState(st);
        case Fail(_) => RefreshState(fetched);
      }
      outcome := ClientSpec.Sent(t, false);
    }

    /** `play(card)`. */
    method Play(card: string, wsUsable: bool, lookup: ApiResult<Snapshot>,
                reply: ApiResult<Snapshot>, fetched: ApiResult<Snapshot>) returns (outcome: ClientSpec.PlayOutcome)
      requires Valid()
      modifies this
      ensures Valid()
      ensures (Model(), outcome) == ClientSpec.Play(old(Model()), card, wsUsable, lookup, reply, fetched)
    {
      if !Truthy(playerId) || !TokenTruthy(token) || runOver {
        return ClientSpec.Refused;
      }
      var resolved := ResolvePlayTarget(card, lookup);
      if resolved.None? {
        return ClientSpec.NoTarget;
      }
      outcome := SendPlay(card, resolved.value, wsUsable, reply, fetched);
    }
  }
}
