/** The decision rules of the command handlers: the name `claim` sends
    (controller/client.js:177), which cards need an enemy target
    (controller/client.js:97), and how `play` fills in a missing target from a
    freshly fetched snapshot (controller/client.js:197-206). */
module Dispatch {
  import opened JsValues
  import opened Protocol
  import opened View

  const MaxNameLength: nat := 20
  const DefaultName: string := "Player"

  /** `(nameEl.value || 'Player').slice(0, 20)`: only the empty string is
      replaced by the default; anything else, blanks included, is cut to at
      most 20 characters. */
  function ClaimName(input: string): (r: string)
    ensures |r| <= MaxNameLength
    ensures input == [] ==> r == DefaultName
    ensures input != [] ==> r <= input && |r| == Min(MaxNameLength, |input|)
  {
    var name := if input == [] then DefaultName else input;
    if |name| <= MaxNameLength then name else name[..MaxNameLength]
  }

  /** Claiming with the name just sent claims with the same name again. */
  lemma ClaimNameIdempotent(input: string)
    ensures ClaimName(ClaimName(input)) == ClaimName(input)
  {
  }

  /** A blank but non-empty name is sent as it is, not replaced by "Player". */
  lemma ClaimNameKeepsBlank()
    ensures ClaimName("  ") == "  "
  {
  }

  /** A 30-character name goes out as its first 20 characters. */
  lemma ClaimNameTruncates(input: string)
    requires |input| == 30
    ensures ClaimName(input) == input[..20]
  {
  }

  /** The cards that act on an enemy. */
  predicate RequiresEnemyTarget(card: string) {
    card == "Strike" || card == "Zap"
  }

  /** `play` looks a target up when the card needs one and the selection is
      empty or 'none'. */
  predicate NeedsLookup(card: string, selected: string) {
    RequiresEnemyTarget(card) && (selected == "" || selected == "none")
  }

  /** The target `play` sends, or None when it gives up because the fetched
      snapshot has no enemy. A failed fetch is ignored and the selection
      stays as it was. */
  function ResolveTarget(card: string, selected: string, lookup: ApiResult<Snapshot>): (r: Option<string>) {
    if !NeedsLookup(card, selected) then Some(selected)
    else
      match lookup
      case Fail(_) => Some(selected)
      case Ok(st) => if |st.enemies| > 0 then Some(EnemyTag(st.enemies[0].id)) else None
  }

  /** `play` gives up exactly when it looked a target up, the fetch succeeded
      and the field was empty. */
  lemma AbortsOnlyOnEmptyField(card: string, selected: string, lookup: ApiResult<Snapshot>)
    ensures ResolveTarget(card, selected, lookup).None?
      <==> NeedsLookup(card, selected) && lookup.Ok? && lookup.value.enemies == []
  {
  }

  /** A looked-up target is the first enemy of the fetched snapshot and one of
      that snapshot's target options, never 'none'. */
  lemma LookedUpTargetIsFirstEnemy(card: string, selected: string, lookup: ApiResult<Snapshot>)
    requires NeedsLookup(card, selected) && lookup.Ok? && lookup.value.enemies != []
    ensures ResolveTarget(card, selected, lookup) == Some(EnemyTag(lookup.value.enemies[0].id))
    ensures ResolveTarget(card, selected, lookup).value in TargetOptions(lookup.value.enemies)
    ensures ResolveTarget(card, selected, lookup).value != "none"
  {
    var tag := EnemyTag(lookup.value.enemies[0].id);
    TargetOptionsShape(lookup.value.enemies);
    assert TargetOptions(lookup.value.enemies)[1] == tag;
    assert tag[..6] == "enemy_";
  }

  /** A card that needs a target goes out with a real target whenever the
      lookup did not fail; only a failed lookup lets 'none' or '' through. */
  lemma TargetedCardNeverSentWithoutTarget(card: string, selected: string, lookup: ApiResult<Snapshot>)
    requires RequiresEnemyTarget(card)
    requires ResolveTarget(card, selected, lookup).Some?
    ensures var t := ResolveTarget(card, selected, lookup).value;
      (t == "none" || t == "") <==> (NeedsLookup(card, selected) && lookup.Fail?)
  {
    if NeedsLookup(card, selected) && lookup.Ok? {
      LookedUpTargetIsFirstEnemy(card, selected, lookup);
      assert |EnemyTag(lookup.value.enemies[0].id)| > 0;
    }
  }

  /** A card without a target, or with a live selection, keeps the selection. */
  lemma SelectionKeptWithoutLookup(card: string, selected: string, lookup: ApiResult<Snapshot>)
    requires !NeedsLookup(card, selected)
    ensures ResolveTarget(card, selected, lookup) == Some(selected)
  {
  }

  /** Enemies 7 and 9 on the field: a Strike with no selection targets
      enemy 7; with no enemies it is abandoned; if the fetch fails it is sent
      with 'none'. */
  lemma ResolveTargetExamples(m: string)
    ensures ResolveTarget("Strike", "none",
      Ok(Snapshot(Some(1), Num(1), false, None, None, None, [Enemy(7), Enemy(9)], []))) == Some("enemy_7")
    ensures ResolveTarget("Strike", "none",
      Ok(Snapshot(Some(1), Num(1), false, None, None, None, [], []))).None?
    ensures ResolveTarget("Zap", "none", Fail(m)) == Some("none")
  {
    assert IntText(7) == "7";
    assert EnemyTag(7) == "enemy_" + "7" == "enemy_7";
  }
}
