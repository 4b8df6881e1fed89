/** The values the controller derives from a snapshot for display: the status
    line (controller/client.js:108-113), whether the hand's card buttons are
    disabled (controller/client.js:158-159), and the target selector's
    options and selection (controller/client.js:142-154). */
module View {
  import opened JsValues
  import opened Protocol

  const EmDash: string := "\U{2014}"
  const Ellipsis: string := "\U{2026}"
  const Apostrophe: string := "\U{2019}"

  predicate StartsWith(s: string, t: string) {
    |t| <= |s| && s[..|t|] == t
  }

  predicate EndsWith(s: string, t: string) {
    |t| <= |s| && s[|s| - |t|..] == t
  }

  /** `turnPlayer === playerId`. */
  predicate YourTurn(turnPlayer: Id, playerId: Id) {
    turnPlayer == playerId
  }

  /** The opening of the status line: who is to move, or that you have not joined. */
  function StatusPrefix(playerId: Id, turnPlayer: Id): (r: string) {
    if Truthy(playerId) then
      if YourTurn(turnPlayer, playerId) then "Your turn (P" + SeatText(playerId)
      else "Waiting" + WaitingText(turnPlayer)
    else "Not joined"
  }

  /** What follows "Your turn (P": the seat number and the closing parenthesis. */
  function SeatText(playerId: Id): string {
    IdText(playerId) + ")"
  }

  /** What follows "Waiting": whose turn it is. */
  function WaitingText(turnPlayer: Id): string {
    Ellipsis + " It" + Apostrophe + "s Player " + IdText(turnPlayer) + Apostrophe + "s turn"
  }

  /** `st.wave ? ' — Wave ' + wave : ''`: a missing wave and wave 0 are falsy. */
  function WaveText(wave: Option<int>): string {
    if wave.Some? && wave.value != 0 then " " + EmDash + " Wave " + IntText(wave.value) else ""
  }

  function RunOverText(runOver: bool): string {
    if runOver then " (Run Over)" else ""
  }

  /** The pile counts, shown only when neither is null. */
  function PilesText(deckCount: Option<int>, discardCount: Option<int>): string {
    if deckCount.Some? && discardCount.Some? then
      " " + EmDash + " Deck " + IntText(deckCount.value) + " / Discard " + IntText(discardCount.value)
    else ""
  }

  /** The status line `applyState` shows. */
  function StatusLine(playerId: Id, turnPlayer: Id, wave: Option<int>, runOver: bool,
                      deckCount: Option<int>, discardCount: Option<int>): (r: string) {
    StatusPrefix(playerId, turnPlayer) + WaveText(wave) + RunOverText(runOver) + PilesText(deckCount, discardCount)
  }

  lemma PrefixOfConcat(a: string, b: string)
    ensures StartsWith(a + b, a)
  {
    assert (a + b)[..|a|] == a;
  }

  /** A string is not a prefix of one that starts with a different character. */
  lemma HeadsDiffer(a: string, s: string)
    requires |a| > 0 && |s| > 0 && a[0] != s[0]
    ensures !StartsWith(s, a)
  {
    if |a| <= |s| {
      assert s[..|a|][0] != a[0];
    }
  }

  /** Which of the three openings a string has. */
  predicate Openings(s: string, notJoined: bool, yours: bool, waiting: bool) {
    && (StartsWith(s, "Not joined") <==> notJoined)
    && (StartsWith(s, "Your turn (P") <==> yours)
    && (StartsWith(s, "Waiting") <==> waiting)
  }

  /** The opening of a string made of one of the three fixed openings and anything after it. */
  lemma LiteralOpening(head: string, tail: string)
    requires head == "Not joined" || head == "Your turn (P" || head == "Waiting"
    ensures Openings(head + tail, head == "Not joined", head == "Your turn (P", head == "Waiting")
  {
    var s := head + tail;
    PrefixOfConcat(head, tail);
    assert s[0] == head[0];
    if head != "Not joined" {
      HeadsDiffer("Not joined", s);
    }
    if head != "Your turn (P" {
      HeadsDiffer("Your turn (P", s);
    }
    if head != "Waiting" {
      HeadsDiffer("Waiting", s);
    }
  }

  lemma StatusLineSplit(playerId: Id, turnPlayer: Id, wave: Option<int>, runOver: bool,
                        deckCount: Option<int>, discardCount: Option<int>)
    ensures StatusLine(playerId, turnPlayer, wave, runOver, deckCount, discardCount)
         == StatusPrefix(playerId, turnPlayer) + (WaveText(wave) + RunOverText(runOver) + PilesText(deckCount, discardCount))
  {
    var p, w, r, q := StatusPrefix(playerId, turnPlayer), WaveText(wave), RunOverText(runOver), PilesText(deckCount, discardCount);
    SeqAssoc(p, w, r);
    SeqAssoc(p, w + r, q);
  }

  lemma SeqAssoc(a: string, b: string, c: string)
    ensures a + b + c == a + (b + c)
  {
  }

  lemma PrefixOpening(playerId: Id, turnPlayer: Id, rest: string)
    ensures Openings(StatusPrefix(playerId, turnPlayer) + rest,
                     !Truthy(playerId),
                     Truthy(playerId) && YourTurn(turnPlayer, playerId),
                     Truthy(playerId) && !YourTurn(turnPlayer, playerId))
  {
    if !Truthy(playerId) {
      LiteralOpening("Not joined", rest);
    } else if YourTurn(turnPlayer, playerId) {
      SeqAssoc("Your turn (P", SeatText(playerId), rest);
      LiteralOpening("Your turn (P", SeatText(playerId) + rest);
    } else {
      SeqAssoc("Waiting", WaitingText(turnPlayer), rest);
      LiteralOpening("Waiting", WaitingText(turnPlayer) + rest);
    }
  }

  /** The three openings of the status line and exactly when each appears. */
  lemma StatusOpening(playerId: Id, turnPlayer: Id, wave: Option<int>, runOver: bool,
                      deckCount: Option<int>, discardCount: Option<int>)
    ensures Openings(StatusLine(playerId, turnPlayer, wave, runOver, deckCount, discardCount),
                     !Truthy(playerId),
                     Truthy(playerId) && YourTurn(turnPlayer, playerId),
                     Truthy(playerId) && !YourTurn(turnPlayer, playerId))
  {
    StatusLineSplit(playerId, turnPlayer, wave, runOver, deckCount, discardCount);
    PrefixOpening(playerId, turnPlayer, WaveText(wave) + RunOverText(runOver) + PilesText(deckCount, discardCount));
  }

  lemma LastOfConcat(a: string, b: string)
    requires |b| >= 1
    ensures (a + b)[|a + b| - 1] == b[|b| - 1]
  {
  }

  /** A string whose last character is a digit or a letter does not end in "r)". */
  predicate NoParenTail(u: string) {
    |u| >= 2 && !(u[|u| - 2] == 'r' && u[|u| - 1] == ')')
  }

  lemma ShownWaveTail(p: string, wave: int)
    requires |p| >= 1
    ensures NoParenTail(p + " " + EmDash + " Wave " + IntText(wave))
  {
    var t := IntText(wave);
    IntTextEndsInDigit(wave);
    assert p + " " + EmDash + " Wave " + t == (p + " " + EmDash + " Wave ") + t;
    LastOfConcat(p + " " + EmDash + " Wave ", t);
  }

  lemma YourTurnTail(playerId: Id)
    requires Truthy(playerId)
    ensures NoParenTail("Your turn (P" + SeatText(playerId))
  {
    var t := IdText(playerId);
    IntTextEndsInDigit(playerId.n);
    var u := "Your turn (P" + SeatText(playerId);
    assert u == ("Your turn (P" + t) + ")";
    LastOfConcat("Your turn (P", t);
    assert u[|u| - 2] == ("Your turn (P" + t)[|"Your turn (P" + t| - 1];
  }

  lemma WaitingTail(turnPlayer: Id)
    ensures NoParenTail("Waiting" + WaitingText(turnPlayer))
  {
    var w := WaitingText(turnPlayer);
    var head := Ellipsis + " It" + Apostrophe + "s Player " + IdText(turnPlayer) + Apostrophe;
    assert w == head + "s turn";
    LastOfConcat(head, "s turn");
    LastOfConcat("Waiting", w);
  }

  /** Without " (Run Over)" the text before the pile counts never ends in "r)". */
  lemma NoRunOverTail(playerId: Id, turnPlayer: Id, wave: Option<int>)
    ensures NoParenTail(StatusPrefix(playerId, turnPlayer) + WaveText(wave))
  {
    var p := StatusPrefix(playerId, turnPlayer);
    if !Truthy(playerId) {
      assert p == "Not joined";
    } else if YourTurn(turnPlayer, playerId) {
      YourTurnTail(playerId);
    } else {
      WaitingTail(turnPlayer);
    }
    if wave.Some? && wave.value != 0 {
      ShownWaveTail(p, wave.value);
    } else {
      assert p + WaveText(wave) == p;
    }
  }

  /** The pile text comes last, after the line as it reads without counts. */
  lemma PilesAppended(playerId: Id, turnPlayer: Id, wave: Option<int>, runOver: bool,
                      deckCount: Option<int>, discardCount: Option<int>)
    ensures StatusLine(playerId, turnPlayer, wave, runOver, deckCount, discardCount)
         == StatusLine(playerId, turnPlayer, wave, runOver, None, None) + PilesText(deckCount, discardCount)
  {
    var x := StatusPrefix(playerId, turnPlayer) + WaveText(wave) + RunOverText(runOver);
    assert PilesText(None, None) == "";
    assert x + "" == x;
  }

  /** The line is its part before the pile counts followed by the pile text,
      and that part ends in " (Run Over)" exactly when the run is over. */
  lemma RunOverMarker(playerId: Id, turnPlayer: Id, wave: Option<int>, runOver: bool,
                      deckCount: Option<int>, discardCount: Option<int>)
    ensures var u := StatusLine(playerId, turnPlayer, wave, runOver, None, None);
      && StatusLine(playerId, turnPlayer, wave, runOver, deckCount, discardCount)
           == u + PilesText(deckCount, discardCount)
      && (EndsWith(u, " (Run Over)") <==> runOver)
  {
    PilesAppended(playerId, turnPlayer, wave, runOver, deckCount, discardCount);
    MarkerBeforePiles(playerId, turnPlayer, wave, runOver);
  }

  lemma MarkerBeforePiles(playerId: Id, turnPlayer: Id, wave: Option<int>, runOver: bool)
    ensures EndsWith(StatusLine(playerId, turnPlayer, wave, runOver, None, None), " (Run Over)") <==> runOver
  {
    var s := StatusLine(playerId, turnPlayer, wave, runOver, None, None);
    var u := StatusPrefix(playerId, turnPlayer) + WaveText(wave);
    if runOver {
      assert s == u + " (Run Over)";
      assert s[|s| - 11..] == " (Run Over)";
    } else {
      assert s == u;
      NoRunOverTail(playerId, turnPlayer, wave);
      if |s| >= 11 {
        assert s[|s| - 11..][9] == s[|s| - 2];
        assert s[|s| - 11..][10] == s[|s| - 1];
      }
    }
  }

  lemma StartsWithFirstTwo(a: string, b: string, c: string, d: string)
    ensures StartsWith(a + b + c + d, a + b)
  {
    assert (a + b + c + d)[..|a + b|] == a + b;
  }

  /** A truthy wave appears right after the opening. */
  lemma WaveShownWhenTruthy(playerId: Id, turnPlayer: Id, wave: Option<int>, runOver: bool,
                            deckCount: Option<int>, discardCount: Option<int>)
    requires wave.Some? && wave.value != 0
    ensures WaveText(wave) == " " + EmDash + " Wave " + IntText(wave.value)
    ensures StartsWith(StatusLine(playerId, turnPlayer, wave, runOver, deckCount, discardCount),
                       StatusPrefix(playerId, turnPlayer) + WaveText(wave))
  {
    StartsWithFirstTwo(StatusPrefix(playerId, turnPlayer), WaveText(wave),
                       RunOverText(runOver), PilesText(deckCount, discardCount));
  }

  /** A missing or zero wave leaves the line as if there were no wave. */
  lemma WaveHiddenWhenFalsy(playerId: Id, turnPlayer: Id, wave: Option<int>, runOver: bool,
                            deckCount: Option<int>, discardCount: Option<int>)
    requires !(wave.Some? && wave.value != 0)
    ensures StatusLine(playerId, turnPlayer, wave, runOver, deckCount, discardCount)
         == StatusLine(playerId, turnPlayer, None, runOver, deckCount, discardCount)
  {
  }

  /** The pile text is appended to the line as it would read without counts;
      it ends the line when both counts are present, and otherwise the line
      reads as if neither were. */
  lemma PilesShownOnlyWithBothCounts(playerId: Id, turnPlayer: Id, wave: Option<int>, runOver: bool,
                                     deckCount: Option<int>, discardCount: Option<int>)
    ensures StatusLine(playerId, turnPlayer, wave, runOver, deckCount, discardCount)
         == StatusLine(playerId, turnPlayer, wave, runOver, None, None) + PilesText(deckCount, discardCount)
    ensures deckCount.Some? && discardCount.Some? ==>
      EndsWith(StatusLine(playerId, turnPlayer, wave, runOver, deckCount, discardCount),
               PilesText(deckCount, discardCount))
    ensures !(deckCount.Some? && discardCount.Some?) ==>
      StatusLine(playerId, turnPlayer, wave, runOver, deckCount, discardCount)
        == StatusLine(playerId, turnPlayer, wave, runOver, None, None)
  {
    PilesAppended(playerId, turnPlayer, wave, runOver, deckCount, discardCount);
    var s := StatusLine(playerId, turnPlayer, wave, runOver, deckCount, discardCount);
    var t := PilesText(deckCount, discardCount);
    var u := StatusPrefix(playerId, turnPlayer) + WaveText(wave) + RunOverText(runOver);
    assert s == u + t;
    assert s[|s| - |t|..] == t;
  }

  /** A status line as computed for player 2 on their own turn in wave 3. */
  lemma StatusExample()
    ensures StatusLine(Num(2), Num(2), Some(3), false, None, None) == "Your turn (P2) " + EmDash + " Wave 3"
  {
    assert IntText(2) == "2";
    assert IntText(3) == "3";
  }

  /** `!yourTurn || runOver`, with yourTurn computed as `turnPlayer === playerId`. */
  predicate HandDisabled(turnPlayer: Id, playerId: Id, runOver: bool) {
    !YourTurn(turnPlayer, playerId) || runOver
  }

  /** For a joined player the cards are enabled exactly when the status line
      announces their turn and no " (Run Over)" is shown. */
  lemma HandMatchesStatus(playerId: Id, turnPlayer: Id, wave: Option<int>, runOver: bool)
    requires Truthy(playerId)
    ensures !HandDisabled(turnPlayer, playerId, runOver)
      <==> (StartsWith(StatusLine(playerId, turnPlayer, wave, runOver, None, None), "Your turn (P")
            && !EndsWith(StatusLine(playerId, turnPlayer, wave, runOver, None, None), " (Run Over)"))
  {
    StatusOpening(playerId, turnPlayer, wave, runOver, None, None);
    RunOverMarker(playerId, turnPlayer, wave, runOver, None, None);
  }

  /** The option value that designates an enemy, `enemy_<id>`. */
  function EnemyTag(id: int): (r: string) {
    "enemy_" + IntText(id)
  }

  lemma EnemyTagInjective(a: int, b: int)
    requires EnemyTag(a) == EnemyTag(b)
    ensures a == b
  {
    assert IntText(a) == EnemyTag(a)[6..];
    assert IntText(b) == EnemyTag(b)[6..];
    IntTextInjective(a, b);
  }

  /** The option values `renderTargets` builds: 'none', then one per enemy in order. */
  function TargetOptions(enemies: seq<Enemy>): (r: seq<string>) {
    if enemies == [] then ["none"]
    else TargetOptions(enemies[..|enemies| - 1]) + [EnemyTag(enemies[|enemies| - 1].id)]
  }

  /** The options for one more enemy are the options so far and that enemy's tag. */
  lemma TargetOptionsSnoc(enemies: seq<Enemy>, e: Enemy)
    ensures TargetOptions(enemies + [e]) == TargetOptions(enemies) + [EnemyTag(e.id)]
  {
    assert (enemies + [e])[..|enemies|] == enemies;
  }

  lemma {:induction false} TargetOptionsFirst(enemies: seq<Enemy>)
    ensures |TargetOptions(enemies)| == |enemies| + 1 && TargetOptions(enemies)[0] == "none"
  {
    if enemies != [] {
      TargetOptionsFirst(enemies[..|enemies| - 1]);
    }
  }

  lemma {:induction false} TargetOptionsAt(enemies: seq<Enemy>, j: int)
    requires 1 <= j <= |enemies|
    ensures |TargetOptions(enemies)| == |enemies| + 1
    ensures TargetOptions(enemies)[j] == EnemyTag(enemies[j - 1].id)
  {
    var init := enemies[..|enemies| - 1];
    TargetOptionsFirst(init);
    if j < |enemies| {
      TargetOptionsAt(init, j);
      assert init[j - 1] == enemies[j - 1];
    }
  }

  /** 'none' comes first and enemy j - 1's option sits at position j. */
  lemma TargetOptionsShape(enemies: seq<Enemy>)
    ensures var r := TargetOptions(enemies);
      && |r| == |enemies| + 1 && r[0] == "none"
      && forall j :: 1 <= j < |r| ==> r[j] == EnemyTag(enemies[j - 1].id)
  {
    TargetOptionsFirst(enemies);
    forall j | 1 <= j < |TargetOptions(enemies)|
      ensures TargetOptions(enemies)[j] == EnemyTag(enemies[j - 1].id)
    {
      TargetOptionsAt(enemies, j);
    }
  }

  /** Every option is 'none' or names an enemy present in the snapshot, and
      every enemy has its option. */
  lemma TargetOptionsExact(enemies: seq<Enemy>, o: string)
    ensures o in TargetOptions(enemies) <==>
      (o == "none" || exists k :: 0 <= k < |enemies| && o == EnemyTag(enemies[k].id))
  {
    var r := TargetOptions(enemies);
    TargetOptionsShape(enemies);
    if o in r {
      var j :| 0 <= j < |r| && r[j] == o;
      if j > 0 {
        assert o == EnemyTag(enemies[j - 1].id);
      }
    }
    if exists k :: 0 <= k < |enemies| && o == EnemyTag(enemies[k].id) {
      var k :| 0 <= k < |enemies| && o == EnemyTag(enemies[k].id);
      assert r[k + 1] == EnemyTag(enemies[k + 1 - 1].id);
    }
  }

  /** The selection after the options are rebuilt: the previous value when it
      is still an option, else the first option, 'none', which an HTML select
      shows when nothing is selected. */
  function KeptSelection(current: string, enemies: seq<Enemy>): (r: string) {
    if current in TargetOptions(enemies) then current else "none"
  }

  /** The selection is always one of the options, and it is unchanged
      exactly when the previous value is still an option. */
  lemma KeptSelectionIsOption(current: string, enemies: seq<Enemy>)
    ensures KeptSelection(current, enemies) in TargetOptions(enemies)
    ensures KeptSelection(current, enemies) == current <==> current in TargetOptions(enemies)
  {
    TargetOptionsShape(enemies);
  }

  /** A selection naming an enemy that is no longer on the field falls back to 'none'. */
  lemma StaleTargetDropped(id: int, enemies: seq<Enemy>)
    requires forall k :: 0 <= k < |enemies| ==> enemies[k].id != id
    ensures KeptSelection(EnemyTag(id), enemies) == "none"
  {
    TargetOptionsExact(enemies, EnemyTag(id));
    if EnemyTag(id) in TargetOptions(enemies) {
      assert EnemyTag(id) != "none";
      var k :| 0 <= k < |enemies| && EnemyTag(id) == EnemyTag(enemies[k].id);
      EnemyTagInjective(id, enemies[k].id);
    }
  }
}
