# Card-game controller client: synchronisation and command logic

This project models the browser controller of a turn-based card game,
`controller/client.js`. The script keeps a local view of the server's
versioned game state up to date. Snapshots come in over a WebSocket push
channel or from HTTP polling. The script also sends the player's commands
(claim a seat, start a run, play a card) over the WebSocket when it is usable
and over HTTP otherwise.

The model has two layers.

- Pure modules hold the decisions as functions, with lemmas about them.
  - `JsValues`: the JavaScript values the decisions depend on. Identifiers are
    `undefined`, `null` or a number. Only a non-zero number is truthy. `x || 0`
    is modelled, and so is decimal rendering with its read-back.
  - `Protocol`: snapshots, claim replies, inbound message kinds, and the
    outbound WebSocket messages and HTTP requests.
  - `Polling`: the version bookkeeping and the adaptive poll delay of
    `applyState`.
  - `View`: the status line, whether the hand is disabled, and the target
    selector's options and retained selection.
  - `Dispatch`: the claim name, which cards need a target, and how `play`
    fills in a missing target.
  - `ClientSpec`: the module-level state as one value, each handler as a
    function from the state before to the state after, and the lemmas that
    relate them.
- `ClientJs.Client` is the script itself. It is a class whose fields are the
  script's `let` variables and the values it writes to the page. Its methods
  update those fields in place. Each method is proved to produce exactly the
  state the matching `ClientSpec` function describes. Each event handler
  (boot, `applyState`, `refreshState`, the poll timer, `handleWS`, `claim`,
  `startRun` and `play`) is also proved to keep the invariant: at most one
  poll timer pending, and the delay within [250, 3000] ms.

Time, the network and the page are inputs to this model:

- Each awaited `api(...)` call is an input. It is either the payload returned
  (`Ok`) or the error thrown (`Fail`).
- Whether the WebSocket is open is a boolean input.
- The timer table that `setTimeout`/`clearTimeout` act on is a set of pending
  handles. New handles are counted from 1.
- Everything sent is appended to an `outbox` log, in order.
- A handler runs to completion before the next event.
- `ClientSpec.Run` folds any sequence of events (messages, timer firings,
  clicks) over the state.

## Behaviour worth noting

The model follows the code as written, including the following behaviour.

- **Snapshot versions.** The code tests `st.ver !== lastVer` (line 117), so
  a version lower than the held one is taken too. Take version 5 and then a
  late version 4, with neither snapshot on the player's own turn. The held
  version ends at 4, and the delay stays at 1200 ms instead of growing
  (`ClientSpec.OutOfOrderSnapshotTaken`). If either snapshot is on the
  player's turn, the delay follows `Polling.ChangedVersionAccepted` instead:
  350 ms for a snapshot on that turn and 1200 ms otherwise.
- **Repeated snapshots.** `applyState` writes `turnPlayer`, `runOver`, the
  target options, the hand, the label and the status (lines 101-113) before
  it looks at the version (line 116). A snapshot repeating the held version
  therefore still replaces all of them (`ClientSpec.RepeatedSnapshotStillApplied`).
- **Blank names.** `nameEl.value || 'Player'` (line 177) replaces only the
  empty string. A blank name such as `"  "` is sent as it is
  (`Dispatch.ClaimNameKeepsBlank`).
- **Failed target lookup.** The lookup fetch in `play` sits in a `try` whose
  `catch` is empty (lines 199-205). When the fetch fails, the card goes out
  with the selection as it was, 'none' or ''
  (`Dispatch.TargetedCardNeverSentWithoutTarget`).
- **Failed poll fetch.** `refreshState` (lines 219-222) calls `applyState`
  only after `api` returns. A failed fetch throws before any new timer is
  set, so polling stops until another snapshot arrives
  (`ClientSpec.FailedPollStopsPolling`).
- **Hand versus status.** `yourTurn` is `turnPlayer === playerId` (line 108).
  When both are `null`, the hand is enabled while the status reads "Not
  joined". `View.HandMatchesStatus` and `ClientSpec.HandAgreesWithStatus`
  therefore cover joined players only.

## Model

| member | source | states |
|---|---|---|
| JsValues.IntTextRoundTrip | controller/client.js:149 | the decimal text of any integer, as a template literal renders it, reads back as that integer |
| JsValues.IntTextInjective | controller/client.js:149 | distinct integers render to distinct texts |
| JsValues.NatTextDigits | controller/client.js:113 | the text of a natural number is a non-empty run of digits, with a leading '0' exactly for zero |
| Polling.ChangedVersionAccepted | controller/client.js:116-120 | a version different from the held one, lower included, is taken, and the delay resets to 350 ms on your turn or 1200 ms otherwise |
| Polling.RepeatBacksOff | controller/client.js:121-123 | a repeated version keeps the held version and never shortens the delay; below 3000 ms it strictly lengthens it, and never past 3000 ms |
| Polling.UnversionedKeepsVersion | controller/client.js:124-127 | a snapshot without `ver` keeps the held version and sets 500 ms on your turn or 2000 ms otherwise |
| Polling.NextInRange | controller/client.js:116-127 | one snapshot keeps the delay within [250, 3000] ms |
| Polling.AfterInRange | controller/client.js:116-127 | any sequence of snapshots keeps the delay within [250, 3000] ms |
| Polling.AfterHoldsLatestVersion | controller/client.js:116-118 | the held version is that of the most recently arrived versioned snapshot, whatever the order of versions |
| Polling.RepeatsSaturate | controller/client.js:122 | n repeats of the held version give delay min(3000, d + 400·n) |
| Polling.SevenRepeatsReachCap | controller/client.js:122 | from any delay in range, seven repeats reach the 3000 ms cap |
| View.StatusOpening | controller/client.js:108-113 | the status line starts with "Not joined" exactly when playerId is falsy, with "Your turn (P" exactly when joined and it is your turn, and with "Waiting" exactly when joined and it is not |
| View.RunOverMarker | controller/client.js:110-113 | the status line is its part before the pile counts followed by the pile text, and that part ends in " (Run Over)" if and only if the run is over, with or without counts |
| View.WaveShownWhenTruthy | controller/client.js:109-113 | a truthy wave appears as " — Wave n" right after the opening |
| View.WaveHiddenWhenFalsy | controller/client.js:109 | a missing or zero wave leaves the line as if there were no wave |
| View.PilesShownOnlyWithBothCounts | controller/client.js:110-113 | the pile text is appended to the line as it reads without counts, so nothing before it changes; it ends the line when both counts are present, and otherwise the line is as if neither were |
| View.StatusExample | controller/client.js:108-113 | player 2 on their own turn in wave 3 sees "Your turn (P2) — Wave 3" |
| View.HandMatchesStatus | controller/client.js:156-159 | for a joined player, with no pile counts shown, the cards are enabled if and only if the status announces their turn and does not end in " (Run Over)" |
| View.EnemyTagInjective | controller/client.js:149 | distinct enemy ids give distinct option values |
| View.TargetOptionsShape | controller/client.js:144-152 | the options are 'none' first, then `enemy_<id>` for each enemy in order |
| View.TargetOptionsExact | controller/client.js:144-152 | a value is an option if and only if it is 'none' or names an enemy of the snapshot |
| View.KeptSelectionIsOption | controller/client.js:143-153 | the selection after rebuilding is always an option, and it is unchanged if and only if the old value is still an option |
| View.StaleTargetDropped | controller/client.js:153 | a selection naming an enemy no longer on the field falls back to 'none' |
| Dispatch.ClaimName | controller/client.js:177 | the name sent is at most 20 characters; "Player" for an empty field; otherwise a prefix of the field of length min(20, length) |
| Dispatch.ClaimNameIdempotent | controller/client.js:177 | normalising a normalised name changes nothing |
| Dispatch.ClaimNameKeepsBlank | controller/client.js:177 | a blank name "  " is sent as is |
| Dispatch.ClaimNameTruncates | controller/client.js:177 | a 30-character name goes out as its first 20 characters |
| Dispatch.AbortsOnlyOnEmptyField | controller/client.js:198-205 | `play` gives up if and only if it needed a lookup, the fetch succeeded and the snapshot had no enemy |
| Dispatch.LookedUpTargetIsFirstEnemy | controller/client.js:201-203 | a looked-up target is the first enemy's option, one of that snapshot's options, and never 'none' |
| Dispatch.TargetedCardNeverSentWithoutTarget | controller/client.js:198-207 | a targeted card goes out with 'none' or '' if and only if it needed a lookup and the lookup fetch failed |
| Dispatch.SelectionKeptWithoutLookup | controller/client.js:197-198 | an untargeted card, or a live selection, is sent with the selection unchanged |
| Dispatch.ResolveTargetExamples | controller/client.js:198-205 | enemies 7 and 9 give "enemy_7"; no enemies abandons the card; a failed fetch sends 'none' |
| ClientSpec.SchedulePollLeavesOneTimer | controller/client.js:19-23 | after scheduling, exactly one timer is pending: the new one, which was not pending before, with the delay asked for |
| ClientSpec.BootStartsPolling | controller/client.js:228-230 | after boot one timer is pending, due in 250 ms |
| ClientSpec.ApplyStatePolls | controller/client.js:100-128 | after a snapshot, the version and delay are those `Polling.Next` computes, exactly one timer is pending, the invariant holds, and session and traffic are untouched |
| ClientSpec.ApplyStateKeepsOutbox | controller/client.js:100-128 | applying a snapshot sends nothing |
| ClientSpec.RepeatedSnapshotStillApplied | controller/client.js:100-123 | a snapshot repeating the held version still overwrites turn, run-over flag, status, options and hand; the version is kept and the delay does not shrink |
| ClientSpec.OutOfOrderSnapshotTaken | controller/client.js:116-123 | version 5 and then a late version 4 leave version 4 held, the delay at 1200 ms, and B's turn shown |
| ClientSpec.SnapshotOverridesOptimisticLabel | controller/client.js:112 | the start label follows the snapshot, whatever optimistic label was shown before |
| ClientSpec.HandAgreesWithStatus | controller/client.js:106-113 | for a joined player, after a snapshot the hand is enabled if and only if the status starts "Your turn (P" and the run is not over |
| ClientSpec.FailedPollStopsPolling | controller/client.js:219-222 | a poll whose fetch fails sends one state request and leaves no timer pending |
| ClientSpec.SuccessfulPollReschedules | controller/client.js:219-222 | a poll whose fetch succeeds leaves exactly one timer pending and keeps the invariant |
| ClientSpec.HandleWsRouting | controller/client.js:78-94 | welcome, error and unknown messages change nothing; claim_ok sets player id and token from the reply, shows the reply's hand with its disabled flag computed for the new id, and changes nothing else; only state messages touch version, delay or timers |
| ClientSpec.RefreshSendsNoCommand | controller/client.js:219-222 | a refresh adds no command to the traffic |
| ClientSpec.ClaimSendsOnce | controller/client.js:176-183 | claim sends exactly one command carrying the normalised name, over the WebSocket if usable, else over HTTP; player id and token change only on an HTTP success, and then to the reply's |
| ClientSpec.StartSendsOnce | controller/client.js:185-193 | start sends exactly one command, over the WebSocket if usable, else over HTTP; the selection ends at 'none' in every case, since a following refresh keeps it; the label stays "Restart Run" unless a refresh after a successful HTTP start shows a fresh snapshot |
| ClientSpec.PlayRefusal | controller/client.js:196 | play is refused if and only if the player is not joined, holds no token or the run is over, and a refusal changes nothing |
| ClientSpec.PlayBeforeSendSendsNoCommand | controller/client.js:198-206 | the target lookup adds no command; when a lookup is needed it adds exactly one state request and nothing else |
| ClientSpec.SendPlaySendsOnce | controller/client.js:207-215 | sending a card adds exactly one command, on the transport `wssend` chose |
| ClientSpec.SendPlayKeepsPrefix | controller/client.js:207-215 | sending a card only appends to the traffic |
| ClientSpec.SendPlayKeepsInv | controller/client.js:207-215 | sending a card and handling its reply keeps the timer and delay invariant |
| ClientSpec.PlaySendsOnce | controller/client.js:195-216 | a play that sends, sends exactly one command with the resolved target, over the WebSocket if usable, else over HTTP |
| ClientSpec.PlayUnsentSendsNothing | controller/client.js:195-206 | a refused or abandoned play sends no command |
| ClientSpec.PlayLooksUpFirst | controller/client.js:198-207 | when a lookup is needed, the state request is the first thing play sends |
| ClientSpec.PlayTarget | controller/client.js:197-207 | the outcome is NoTarget if and only if the lookup found an empty field, after which only the lookup went out; a sent card carries the resolved target, the first enemy when one was looked up |
| ClientSpec.RefreshKeepsInv | controller/client.js:219-222 | a refresh keeps the invariant |
| ClientSpec.ClaimKeepsInv | controller/client.js:176-183 | a claim keeps the invariant |
| ClientSpec.StartKeepsInv | controller/client.js:185-193 | a start keeps the invariant |
| ClientSpec.PlayKeepsInv | controller/client.js:195-216 | a play keeps the invariant |
| ClientSpec.StepKeepsInv | controller/client.js:19-23 | every event keeps the invariant |
| ClientSpec.RunKeepsInv | controller/client.js:17-23 | after any sequence of events, at most one poll timer is pending and the delay is within [250, 3000] ms |
| ClientJs.Client.constructor | controller/client.js:11-17 | the initial values of the module variables, with no timer pending |
| ClientJs.Client.SchedulePoll | controller/client.js:19-23 | clears the held timer, sets a new one with the given delay, and changes nothing else |
| ClientJs.Client.Boot | controller/client.js:230 | exactly one timer pending, 250 ms |
| ClientJs.Client.WsSend | controller/client.js:70-76 | returns true and sends the message exactly when the channel is usable; nothing else changes |
| ClientJs.Client.RenderTargets | controller/client.js:142-154 | the loop builds the option list of `View.TargetOptions` and keeps the selection as `View.KeptSelection` |
| ClientJs.Client.RenderHand | controller/client.js:156-159 | the hand and its disabled flag, `!yourTurn || runOver` |
| ClientJs.Client.ShowSnapshot | controller/client.js:101-113 | turn, run-over flag, options, hand, label and status as `ClientSpec.ShowSnapshot` gives them |
| ClientJs.Client.RenderStatus | controller/client.js:108-113 | the status becomes `View.StatusLine` of the current identity and turn, and nothing else changes |
| ClientJs.Client.ApplyState | controller/client.js:100-128 | the state `ClientSpec.ApplyState` gives, keeping the invariant |
| ClientJs.Client.RefreshState | controller/client.js:219-222 | the state `ClientSpec.RefreshState` gives, keeping the invariant |
| ClientJs.Client.OnPollTimer | controller/client.js:22 | the pending timer fires and is dropped, then a refresh runs |
| ClientJs.Client.HandleWs | controller/client.js:78-94 | the state `ClientSpec.HandleWs` gives, keeping the invariant |
| ClientJs.Client.Claim | controller/client.js:176-183 | the state `ClientSpec.Claim` gives, keeping the invariant |
| ClientJs.Client.AdoptClaim | controller/client.js:181-182 | identity and token from the reply, then the hand rendered with them |
| ClientJs.Client.StartRun | controller/client.js:185-193 | the state `ClientSpec.StartRun` gives, keeping the invariant |
| ClientJs.Client.ResolvePlayTarget | controller/client.js:197-206 | returns `Dispatch.ResolveTarget` of the old selection; the lookup request and the new selection are as in `ClientSpec.PlayBeforeSend` |
| ClientJs.Client.SendPlay | controller/client.js:207-215 | the state and outcome `ClientSpec.SendPlay` gives, keeping the invariant |
| ClientJs.Client.Play | controller/client.js:195-216 | the state and outcome `ClientSpec.Play` gives, keeping the invariant |

## Left out

- The connection lifecycle of `connectWS` (lines 37-68) is not modelled: the open, close and error listeners and the 2-second reconnect timer. The model takes only whether the channel is usable, as an input to each command.
- JSON decoding of inbound messages (line 52) is not modelled. A malformed message is dropped before `handleWS`, so it never reaches the model.
- `api` (lines 25-30) is represented only by its outcome: a decoded payload or a thrown error. Request headers, status codes and the error text are not modelled.
- `renderEnemies` (lines 131-140) is left out. It writes only display text that no other code reads. Option labels, the "(No cards left in hand)" note and the click handlers of `renderHand` are left out for the same reason.
- `alert` and `console.log` are left out, because they affect only the display.
- Real time is not modelled. Timers are pending handles, and a timer fires only when the event sequence says so. Interleaving inside an `async` handler between its awaits is not modelled: each handler runs to completion.
- The text the page shows before the first snapshot comes from the HTML, which is not part of this model. The initial status, label, options and selection are modelled as empty.
- ClientJs.Client.RenderTargets: when the old value is no longer an option, the model selects 'none'. This is the first option, which an HTML select shows when nothing is selected. The browser's own selection rules are not modelled further.
- ClientJs.Client.StartRun and ClientJs.Client.ResolvePlayTarget: the model stores the value assigned to `targetEl.value` as it is. The browser's rule that an assignment naming no existing option leaves nothing selected is not modelled.
- Dispatch.ClaimName counts Unicode characters. `String.prototype.slice` counts UTF-16 code units, so the two differ for characters outside the Basic Multilingual Plane.
- JsValues.IntText renders integers in plain decimal. JavaScript renders numbers of 1e21 and above in exponent form, and non-integer numbers are not modelled.
- A missing snapshot field and a `null` one are both `None`. The code treats them alike (`!= null`, truthiness), except that a missing `turn_player` is `undefined`, which the model keeps as `Undefined`.
- Enemies carry only their `id`. Names, HP and boss phase feed only the display.
- A missing `hand` or `your_hand` is modelled as the empty list, as `|| []` makes it.
