/** The adaptive poll delay that `applyState` picks from a snapshot's version
    (controller/client.js:115-127), with the constants of the module header
    and of the boot call. */
module Polling {
  import opened JsValues

  const InitialVer: int := -1
  const InitialDelay: int := 1500
  const BootDelay: int := 250
  /** New version, your turn. */
  const FastDelay: int := 350
  /** New version, someone else's turn. */
  const SlowDelay: int := 1200
  /** Growth per repeated version, up to MaxDelay. */
  const BackoffStep: int := 400
  const MaxDelay: int := 3000
  /** Snapshot without a version, your turn / someone else's turn. */
  const UnversionedFast: int := 500
  const UnversionedSlow: int := 2000

  /** `lastVer` and `pollDelay`. */
  datatype PollState = PollState(lastVer: int, delay: int)

  /** Every delay the code ever schedules lies in this range. */
  predicate InRange(d: int) {
    BootDelay <= d <= MaxDelay
  }

  /** The version bookkeeping and next delay for a snapshot whose `ver` is
      `ver` (None when `st.ver == null`), where `yourTurn` is
      `turnPlayer === playerId`. The test is `!==`, not `>`. */
  function Next(p: PollState, ver: Option<int>, yourTurn: bool): (r: PollState) {
    if ver.Some? then
      if ver.value != p.lastVer then PollState(ver.value, if yourTurn then FastDelay else SlowDelay)
      else PollState(p.lastVer, Min(MaxDelay, p.delay + BackoffStep))
    else
      PollState(p.lastVer, if yourTurn then UnversionedFast else UnversionedSlow)
  }

  /** A version different from the held one is taken, lower ones included,
      and the delay resets to the fast or slow value. */
  lemma ChangedVersionAccepted(p: PollState, v: int, yourTurn: bool)
    requires v != p.lastVer
    ensures Next(p, Some(v), yourTurn).lastVer == v
    ensures Next(p, Some(v), yourTurn).delay == if yourTurn then FastDelay else SlowDelay
  {
  }

  /** A repeated version keeps the held version and never shortens the delay;
      below the cap it strictly lengthens it. */
  lemma RepeatBacksOff(p: PollState, yourTurn: bool)
    requires p.delay <= MaxDelay
    ensures Next(p, Some(p.lastVer), yourTurn).lastVer == p.lastVer
    ensures p.delay <= Next(p, Some(p.lastVer), yourTurn).delay <= MaxDelay
    ensures p.delay < MaxDelay ==> Next(p, Some(p.lastVer), yourTurn).delay > p.delay
  {
  }

  /** A snapshot without a version keeps the held version. */
  lemma UnversionedKeepsVersion(p: PollState, yourTurn: bool)
    ensures Next(p, None, yourTurn).lastVer == p.lastVer
    ensures Next(p, None, yourTurn).delay == if yourTurn then UnversionedFast else UnversionedSlow
  {
  }

  /** One step keeps the delay in range. */
  lemma NextInRange(p: PollState, ver: Option<int>, yourTurn: bool)
    requires InRange(p.delay)
    ensures InRange(Next(p, ver, yourTurn).delay)
  {
  }

  /** What one snapshot contributes to the poll logic. */
  datatype Observation = Observation(ver: Option<int>, yourTurn: bool)

  /** The poll state after a sequence of snapshots, in arrival order. */
  function After(p: PollState, obs: seq<Observation>): (r: PollState) {
    if obs == [] then p
    else
      var last := obs[|obs| - 1];
      Next(After(p, obs[..|obs| - 1]), last.ver, last.yourTurn)
  }

  /** The version of the last snapshot that carried one, or `v0`. */
  function LatestVersion(v0: int, obs: seq<Observation>): (r: int) {
    if obs == [] then v0
    else if obs[|obs| - 1].ver.Some? then obs[|obs| - 1].ver.value
    else LatestVersion(v0, obs[..|obs| - 1])
  }

  /** The delay stays within [250, 3000] across any sequence of snapshots. */
  lemma {:induction false} AfterInRange(p: PollState, obs: seq<Observation>)
    requires InRange(p.delay)
    ensures InRange(After(p, obs).delay)
  {
    if obs != [] {
      AfterInRange(p, obs[..|obs| - 1]);
    }
  }

  /** The held version is that of the most recently arrived versioned
      snapshot, whatever the order of versions: it is not monotone. */
  lemma {:induction false} AfterHoldsLatestVersion(p: PollState, obs: seq<Observation>)
    ensures After(p, obs).lastVer == LatestVersion(p.lastVer, obs)
  {
    if obs != [] {
      AfterHoldsLatestVersion(p, obs[..|obs| - 1]);
    }
  }

  /** `n` snapshots that all repeat the held version. */
  function Repeated(p: PollState, n: nat, yourTurn: bool): seq<Observation> {
    seq(n, _ => Observation(Some(p.lastVer), yourTurn))
  }

  /** Repeats grow the delay linearly until the cap. */
  lemma {:induction false} RepeatsSaturate(p: PollState, n: nat, yourTurn: bool)
    requires InRange(p.delay)
    ensures After(p, Repeated(p, n, yourTurn)).lastVer == p.lastVer
    ensures After(p, Repeated(p, n, yourTurn)).delay == Min(MaxDelay, p.delay + BackoffStep * n)
  {
    if n > 0 {
      var obs := Repeated(p, n, yourTurn);
      assert obs[..n - 1] == Repeated(p, n - 1, yourTurn);
      RepeatsSaturate(p, n - 1, yourTurn);
    }
  }

  /** From any delay in range, seven repeats reach the 3000 ms cap. */
  lemma SevenRepeatsReachCap(p: PollState, yourTurn: bool)
    requires InRange(p.delay)
    ensures After(p, Repeated(p, 7, yourTurn)).delay == MaxDelay
  {
    RepeatsSaturate(p, 7, yourTurn);
  }
}
