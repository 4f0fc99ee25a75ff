# QR race: a verified model of the clue-progression server

The race server runs a scavenger hunt. A team starts a race with a name and an
email. It then scans QR codes in a fixed order. Each code unlocks a clue. The
last code finishes the race and records the team's time on a leaderboard.

This project models, in Dafny:

- the event catalog (`Catalog`): per event, the ordered codes and the clue
  text of each code, together with the one event the server ships with;
- the server state (`Records`, `Progress`): the `sessions` record, keyed by
  session id, and the `leaderboard` array of finished entries;
- starting a race and the scan handler (`Progress`), as functions from
  the old state to the new state and the page shown (`StartStep`,
  `ScanStep`), and as the methods of the class `RaceServer`, which update the
  two fields in place and are proved to agree with those functions;
- the leaderboard upsert on finishing (`Records.Upserted`,
  `RaceServer.Upsert`, `RaceServer.FindIndex`);
- the leaderboard projection (`BoardView`): finished entries sorted by time,
  and the sessions shown as in progress;
- `formatTime` (`TimeFormat`), with a reader for its output so that the
  format can be stated as a round trip.

The clock (`Date.now()`) and the fresh session id (`Math.random()`) are
parameters. The session cookie is an `Option<string>` parameter; an absent or
empty cookie counts as no session, as `!sessionId` does.

The catalog is a constructor parameter and is not assumed well formed, so the
scan handler is modelled with every branch as written:

- a code whose clue text is empty is invalid, because the source tests `!clue`;
- a code that has a clue but no position gets index −1; it then reads as an
  already completed clue numbered 0 (`StrayClueReadsAsCompleted`).

The well-formedness of the shipped catalog is proved separately
(`SourceEventsWellFormed`).

Behaviour of the handlers worth noting:

- there is no "already finished" page. Finishing deletes the session, so a
  rescan redirects to the start page (`RescanAfterFinishRedirects`);
- starting never resumes an earlier race. It always creates a session at
  clue 0 with the current time, and overwrites a session with the same id;
- the email is trimmed but not lower-cased, and the leaderboard keeps the
  best time per email, not per team name;
- sessions are not tied to an event. The clue index of a session is checked
  against whichever event the scanned URL names. So the range invariant says
  that a session's clue is 0 or lies below the length of some event's code
  list. With the shipped one-event catalog this gives
  0 ≤ `currentClue` ≤ |orderedCodes| − 1 (`SourceClueBound`).

## Model

| member | source | states |
|---|---|---|
| `Seqs.IndexOf` | src/index.tsx:119 | `indexOf`: −1 exactly when the code is absent, otherwise a position holding it with no earlier occurrence |
| `Catalog.ToUpper` | src/index.tsx:115 | upper-casing keeps the length and maps each character through ASCII upper-casing |
| `Catalog.UpperIsNormal` | src/index.tsx:115 | upper-casing yields upper case, leaves upper case alone, and is idempotent |
| `Catalog.CodeAtIndex` | src/index.tsx:119 | in a well-formed event the code printed at position k is found at position k |
| `Catalog.ClueHasPosition` | src/index.tsx:116-119 | in a well-formed event every code with a clue has a position, so index −1 cannot arise |
| `Catalog.SourceEventsWellFormed` | src/index.tsx:20-33 | the shipped catalog has one event, four distinct upper-case codes, a non-empty clue for each, and no clue outside the list |
| `Records.Finalize` | src/index.tsx:126 | the finished entry carries the session's name, email, start time and clue unchanged, plus the time taken |
| `Records.Upserted` | src/index.tsx:128-135 | after the upsert the email is on the board, and every entry is an old entry or the new one |
| `Records.EntryOf` | src/index.tsx:128 | the entry found for an email is on the board and has that email; there is none exactly when the email is absent |
| `Records.UpsertKeepsBestEntry` | src/index.tsx:128-135 | for that email the board holds the new entry if the email was new or its time strictly better, else the old entry (a tie keeps the earlier run); a new email is appended at the end |
| `Records.UpsertKeepsEmailsDistinct` | src/index.tsx:128-135 | the upsert keeps at most one entry per email; the board grows by one exactly for a new email |
| `Records.UpsertKeepsBestTime` | src/index.tsx:128-135 | after the upsert the time for that email is the new time if the email was new, otherwise min(old, new) |
| `Records.UpsertLeavesOthers` | src/index.tsx:128-135 | every entry with another email stays unchanged at its position |
| `Records.UpsertKeepsOtherTimes` | src/index.tsx:128-135 | the time recorded for any other email does not change |
| `BoardView.Ranked` | src/index.tsx:39 | the ranked copy has as many entries as the board |
| `BoardView.InProgress` | src/index.tsx:41-43 | the teams in progress are exactly the sessions with non-empty name and email, each shown with that name and email |
| `BoardView.RankedIsSortedPermutation` | src/index.tsx:39 | the displayed board is sorted ascending by time taken and is a permutation of the leaderboard |
| `BoardView.RankedIsStable` | src/index.tsx:39 | entries with equal times keep their leaderboard order (the sort is stable) |
| `Progress.Classify` | src/index.tsx:115-173 | invalid exactly when the code has no clue or an empty one; otherwise the index is the code's first position (`indexOf`), and the verdict is finish exactly when that index is the current clue and the last one, advance exactly when it is the current clue but not the last, behind exactly when it is below the current clue (−1 included), ahead exactly when it is above |
| `Progress.Live` | src/index.tsx:104 | a cookie is live exactly when it is present, non-empty and a key of `sessions` |
| `Progress.LiveAsWritten` | src/index.tsx:104 | the session check as written on a plain object accepts every live cookie and every name inherited from `Object.prototype`, and nothing else |
| `Progress.InheritedNamePassesSessionCheck` | src/index.tsx:104 | the cookie `constructor` passes the session check as written while naming no session |
| `Progress.FirstCode` | src/index.tsx:98 | the redirect target sits at position 0 of the ordered codes; with no codes it is "undefined" |
| `Progress.StartStep` | src/index.tsx:77-98 | starting leaves the leaderboard alone and adds the new session id only when the event exists |
| `Progress.ScanStep` | src/index.tsx:101-182 | a scan creates no session; only a finish changes the leaderboard; every page other than finish and advance leaves the state unchanged |
| `Progress.StartCreatesSession` | src/index.tsx:84-98 | the new session has the given name and email, start time `now` and clue 0; other sessions and the board are kept; the redirect names the first code |
| `Progress.StartUnknownEvent` | src/index.tsx:77-80 | starting an unknown event shows "event not found" and changes nothing |
| `Progress.StartPreservesInv` | src/index.tsx:84-89 | starting keeps one entry per email and every clue in range |
| `Progress.StartThenScanFirstCode` | src/index.tsx:98-124 | in a well-formed event, scanning the code the start redirects to unlocks clue 1 (or finishes a one-code race) |
| `Progress.ScanWithoutSession` | src/index.tsx:102-105 | with no cookie, an empty one or an unknown session, the scan redirects to the start page and changes nothing |
| `Progress.ScanWithSessionIsAnswered` | src/index.tsx:104-182 | a cookie naming a live session is never redirected to the start page |
| `Progress.ScanInvalidCode` | src/index.tsx:115-117 | a code whose upper-cased form has no clue yields "invalid" and changes nothing |
| `Progress.ScanBehindIsIdempotent` | src/index.tsx:153-165 | a code below the current clue shows its clue as completed, changes nothing, and scanning it again gives the same page |
| `Progress.ScanAheadIsRefused` | src/index.tsx:167-169 | a code above the current clue yields "out of order", reveals no clue text and changes nothing |
| `Progress.ScanCurrentAdvances` | src/index.tsx:171-181 | the current code, when not the last, sets that session's clue to index + 1 ≤ last index and touches nothing else |
| `Progress.ScanLastFinishes` | src/index.tsx:124-137 | the last code on the last clue finishes: time = now − start, session removed, board upserted with the finished entry |
| `Progress.RescanAfterFinishRedirects` | src/index.tsx:104-137 | after a finish, any scan with the same cookie redirects to the start page and changes nothing |
| `Progress.ScanIgnoresCase` | src/index.tsx:115 | a scan of a code and of its upper-cased form have the same effect |
| `Progress.ScanNeverMovesBack` | src/index.tsx:171-173 | a session surviving a scan existed before, its clue did not decrease, and every other session is unchanged |
| `Progress.ScanPreservesInv` | src/index.tsx:124-173 | a scan keeps one entry per email and every clue in range |
| `Progress.SourceClueBound` | src/index.tsx:25 | with the shipped catalog, every live session's clue lies in 0..3 |
| `Progress.StrayClueReadsAsCompleted` | src/index.tsx:119-165 | a code that has a clue but no position reads as completed clue 0 and changes nothing |
| `Progress.ThreeCodeRace` | src/index.tsx:84-182 | a full race over codes A, B, C: skip refused, advances, replay, finish with the elapsed time, then only a redirect |
| `Progress.FinishMovesTeamToBoard` | src/index.tsx:124-137 | after a finish the session is not in progress any more and the board's time for that email is the best one |
| `Progress.StartListsTeam` | src/index.tsx:41-43 | a session started with non-empty name and email is listed as in progress |
| `Progress.RaceServer.constructor` | src/index.tsx:9-10 | the server starts with no sessions and an empty leaderboard |
| `Progress.RaceServer.Start` | src/index.tsx:71-99 | the in-place start agrees with `StartStep` and keeps the invariant |
| `Progress.RaceServer.Scan` | src/index.tsx:101-182 | the in-place scan agrees with `ScanStep` and keeps the invariant |
| `Progress.RaceServer.Upsert` | src/index.tsx:128-135 | the in-place upsert leaves the leaderboard equal to `Upserted` of the old one |
| `Progress.RaceServer.FindIndex` | src/index.tsx:128 | `findIndex` by email returns the first entry with that email, or −1 |
| `Progress.RaceServer.View` | src/index.tsx:39-43 | the finished list is `Ranked` of the leaderboard, hence sorted, a permutation and stable; the in-progress list is exactly the sessions with non-empty name and email, each with its name and email |
| `TimeFormat.Show` | src/db.ts:151-155 | number rendering gives a non-empty string of digits with no leading zero; 0 is rendered as "0" |
| `TimeFormat.ValueOfShow` | src/db.ts:151-155 | the digits rendered for n denote n |
| `TimeFormat.Split` | src/db.ts:145-148 | hours·3600 + minutes·60 + seconds equals the whole seconds, with minutes and seconds below 60 |
| `TimeFormat.TotalSeconds` | src/db.ts:141-145 | non-positive durations count as 0 seconds; otherwise the result is the whole seconds, rounded down |
| `TimeFormat.FormatTime` | src/db.ts:140-157 | zero, negative and sub-second inputs format as "0s" |
| `TimeFormat.FormatShape` | src/db.ts:150-156 | with hours the output has h, m and s fields; else with minutes m and s; else s alone; the reader refuses zero-padded digits, so these fields fix the output |
| `TimeFormat.PaddedIsRefused` | src/db.ts:151-155 | zero-padded fields such as "1h 05m 03s" and "03s" are not read as durations, since `${n}` never pads |
| `TimeFormat.FormatRoundTrip` | src/db.ts:140-157 | reading the output back gives exactly the whole seconds of the input (0 for non-positive input) |

## Findings

| source | as written | input that shows it | evidently intended | confidence | as-written member | corrected member |
|---|---|---|---|---|---|---|
| src/index.tsx:104 | `sessions` is a plain object, so `sessions[sessionId]` also finds names inherited from `Object.prototype` | the cookie `sessionId=constructor` with no sessions: the check passes; on the first such scan `expectedIndex` is `undefined`, so both order tests fail and the clue of whichever valid code is scanned is shown | only ids of started sessions pass the check | medium, not executed | `Progress.LiveAsWritten` (`Progress.InheritedNamePassesSessionCheck`) | `Progress.Live` (`Progress.ScanWithoutSession`) |

## Left out

- Rendering: the JSX pages, the clue tag text, and the `toFixed(1)` display of seconds. The model returns the data each page shows.
- Cookies and routing: setting, reading and deleting the cookie, with its options, and hono's routing and form parsing. The session id is a parameter. The name and email are taken as already trimmed; a missing form field, which makes the source throw, is not modelled.
- `Math.random()` and `Date.now()`: both are parameters of `Start` and `Scan`.
- The `GET /:event` page and its list of team-name hints, built with JSON and URI encoding.
- Display order of the in-progress list: the source lists `Object.values(sessions)` in the object's key order; the model gives a map keyed by session id.
- `ToUpper`: upper-cases ASCII letters only; JavaScript's full Unicode case mapping, which can change a string's length, is not modelled.
- `FormatTime`: takes whole milliseconds as `int`. NaN, infinities and fractional inputs are not modelled, and `Show` renders decimal digits, without JavaScript's exponent notation for numbers of 10^21 and above.
- The database and key-value functions in src/db.ts: they are wrappers whose behaviour lives in the external stores, and the modelled handlers do not call them.
- Inherited object keys: `sessions` and `eventData` are plain objects, and the model treats a name inherited from `Object.prototype` as absent in both (see Findings). `Progress.LiveAsWritten` records the session check as written, but `ScanStep` uses the intended `Live`, and a start with an event named like `constructor`, which creates a session and then throws at src/index.tsx:98, is modelled as "event not found".
- Concurrency between simultaneous requests: each request is one sequential transition.
- src/styles.tsx and src/renderer.tsx: styling and the HTML shell, with no logic.
