/**
 * The clue-progression state machine of the race server: starting a race,
 * and what one scan of a QR code does to the sessions and the leaderboard.
 *
 * Each operation is given twice: as a function from the old state to the new
 * state and the response (`StartStep`, `ScanStep`), about which the lemmas
 * below are stated, and as a method of `RaceServer`, which updates the
 * server's fields in place and is proved to agree with the function.
 */
module Progress {
  import opened Optional
  import opened Seqs
  import opened Catalog
  import opened Records
  import opened BoardView

  /** The server's mutable state: live sessions by session id, and the finished entries. */
  datatype State = State(sessions: map<string, Session>, leaderboard: seq<Entry>)

  datatype StartOutcome =
    | StartEventNotFound
    | RedirectToClue(eventName: string, code: string)

  /** The page a scan produces. Only the clue pages carry the clue text. */
  datatype ScanOutcome =
    | RedirectToStart(eventName: string)
    | EventNotFound
    | InvalidCode
    | Finished(clue: string, clueNumber: int, totalClues: nat, timeTaken: int)
    | AlreadyCompleted(clue: string, clueNumber: int, totalClues: nat)
    | OutOfOrder
    | Advanced(clue: string, clueNumber: int, totalClues: nat)
  {
    predicate RevealsClue() {
      Finished? || AlreadyCompleted? || Advanced?
    }
  }

  /** How a scanned (already upper-cased) code relates to the clue the team is on. */
  datatype Verdict =
    | Invalid
    | Finish(index: int)
    | Behind(index: int)
    | Ahead(index: int)
    | Advance(index: int)

  /**
   * The decision of the scan handler. A code with no clue, or with an empty
   * clue, is invalid. The finishing check comes first; a code with a clue but
   * no position gets index -1 and so reads as already completed.
   */
  function Classify(info: EventInfo, expected: nat, code: string): (v: Verdict)
    ensures v.Invalid? <==> code !in info.clues || info.clues[code] == ""
    ensures !v.Invalid? ==> v.index == IndexOf(info.orderedCodes, code)
    ensures v.Finish? <==> !v.Invalid? && v.index == expected == |info.orderedCodes| - 1
    ensures v.Advance? <==> !v.Invalid? && v.index == expected && v.index + 1 < |info.orderedCodes|
    ensures v.Behind? <==> !v.Invalid? && v.index < expected
    ensures v.Ahead? <==> !v.Invalid? && expected < v.index
    ensures v.Behind? ==> -1 <= v.index
    ensures v.Ahead? ==> v.index < |info.orderedCodes|
    ensures !v.Invalid? && !v.Behind? ==> info.orderedCodes[v.index] == code
  {
    if code !in info.clues || info.clues[code] == "" then Invalid
    else
      var idx := IndexOf(info.orderedCodes, code);
      if idx == |info.orderedCodes| - 1 && idx == expected then Finish(idx)
      else if idx < expected then Behind(idx)
      else if idx > expected then Ahead(idx)
      else Advance(idx)
  }

  /**
   * A cookie naming a live session: a non-empty id that is a key of `sessions`.
   * This is the evident intent of the session check; a lookup on the plain
   * object also finds inherited names, which `LiveAsWritten` models.
   */
  function Live(st: State, sessionId: Option<string>): (b: bool)
    ensures b ==> sessionId.Some? && sessionId.value in st.sessions
    ensures sessionId == None || sessionId == Some("") ==> !b
    ensures sessionId.Some? && sessionId.value != "" && sessionId.value in st.sessions ==> b
  {
    sessionId.Some? && sessionId.value != "" && sessionId.value in st.sessions
  }

  /** The names every plain object inherits from `Object.prototype`. */
  const INHERITED_KEYS: set<string> :=
    {"constructor", "toString", "valueOf", "hasOwnProperty", "isPrototypeOf",
     "propertyIsEnumerable", "toLocaleString", "__proto__",
     "__defineGetter__", "__defineSetter__", "__lookupGetter__", "__lookupSetter__"}

  /**
   * `!sessionId || !sessions[sessionId]`, negated, as the plain object
   * `sessions` evaluates it: an inherited name yields a truthy function or
   * object, so it passes the check like a live session.
   */
  function LiveAsWritten(st: State, sessionId: Option<string>): (b: bool)
    ensures Live(st, sessionId) ==> b
    ensures b ==> sessionId.Some? && (Live(st, sessionId) || sessionId.value in INHERITED_KEYS)
    ensures sessionId.Some? && sessionId.value in INHERITED_KEYS ==> b
  {
    sessionId.Some? && sessionId.value != "" &&
    (sessionId.value in st.sessions || sessionId.value in INHERITED_KEYS)
  }

  /** The cookie `sessionId=constructor` gets past the session check with no session behind it. */
  lemma InheritedNamePassesSessionCheck(st: State)
    requires "constructor" !in st.sessions
    ensures LiveAsWritten(st, Some("constructor"))
    ensures !Live(st, Some("constructor"))
  {
  }

  /** The code a redirect names: the first code, or `undefined` rendered into the URL. */
  function FirstCode(info: EventInfo): (c: string)
    ensures |info.orderedCodes| > 0 ==> IndexOf(info.orderedCodes, c) == 0
    ensures |info.orderedCodes| == 0 ==> c == "undefined"
  {
    if |info.orderedCodes| > 0 then
      IndexOfIsFirst(info.orderedCodes, info.orderedCodes[0], 0);
      info.orderedCodes[0]
    else "undefined"
  }

  /** `POST /:event/start`, with the fresh session id and the clock passed in. */
  function StartStep(events: map<string, EventInfo>, st: State, eventName: string,
                     name: string, email: string, sessionId: string, now: int): (r: (State, StartOutcome))
    ensures r.0.leaderboard == st.leaderboard
    ensures r.0.sessions.Keys == st.sessions.Keys + (if r.1.RedirectToClue? then {sessionId} else {})
  {
    if eventName !in events then (st, StartEventNotFound)
    else
      (State(st.sessions[sessionId := Session(name, email, now, 0)], st.leaderboard),
       RedirectToClue(eventName, FirstCode(events[eventName])))
  }

  /** `GET /:event/qr/:code`, with the session id from the cookie and the clock passed in. */
  function ScanStep(events: map<string, EventInfo>, st: State, sessionId: Option<string>,
                    eventName: string, rawCode: string, now: int): (r: (State, ScanOutcome))
    ensures r.0.sessions.Keys <= st.sessions.Keys
    ensures !r.1.Finished? ==> r.0.leaderboard == st.leaderboard
    ensures !r.1.Finished? && !r.1.Advanced? ==> r.0 == st
  {
    if !Live(st, sessionId) then (st, RedirectToStart(eventName))
    else if eventName !in events then (st, EventNotFound)
    else
      var info := events[eventName];
      var id := sessionId.value;
      var s := st.sessions[id];
      var code := ToUpper(rawCode);
      var total := |info.orderedCodes|;
      match Classify(info, s.currentClue, code)
      case Invalid => (st, InvalidCode)
      case Finish(k) =>
        var timeTaken := now - s.startTime;
        (State(st.sessions - {id}, Upserted(st.leaderboard, Finalize(s, timeTaken))),
         Finished(info.clues[code], k + 1, total, timeTaken))
      case Behind(k) => (st, AlreadyCompleted(info.clues[code], k + 1, total))
      case Ahead(_) => (st, OutOfOrder)
      case Advance(k) =>
        (State(st.sessions[id := s.(currentClue := k + 1)], st.leaderboard),
         Advanced(info.clues[code], k + 1, total))
  }

  /** A clue index some event of the catalog can hold: the start, or a position before some event's last code. */
  ghost predicate ClueInRange(events: map<string, EventInfo>, k: nat) {
    k == 0 || exists e :: e in events && k < |events[e].orderedCodes|
  }

  /** What every transition keeps: one leaderboard entry per email, every session's clue in range. */
  ghost predicate Inv(events: map<string, EventInfo>, st: State) {
    && DistinctEmails(st.leaderboard)
    && forall id :: id in st.sessions ==> ClueInRange(events, st.sessions[id].currentClue)
  }

  // ---------------------------------------------------------------------------
  // Starting a race

  /** A started race begins at clue 0 at time `now`, and the team is sent to the first code. */
  lemma StartCreatesSession(events: map<string, EventInfo>, st: State, eventName: string,
                            name: string, email: string, sessionId: string, now: int)
    requires eventName in events
    ensures var (next, out) := StartStep(events, st, eventName, name, email, sessionId, now);
      && sessionId in next.sessions
      && next.sessions[sessionId] == Session(name, email, now, 0)
      && (forall id :: id in st.sessions && id != sessionId ==> id in next.sessions && next.sessions[id] == st.sessions[id])
      && next.leaderboard == st.leaderboard
      && out == RedirectToClue(eventName, FirstCode(events[eventName]))
  {
  }

  /** Starting an unknown event changes nothing. */
  lemma StartUnknownEvent(events: map<string, EventInfo>, st: State, eventName: string,
                          name: string, email: string, sessionId: string, now: int)
    requires eventName !in events
    ensures StartStep(events, st, eventName, name, email, sessionId, now) == (st, StartEventNotFound)
  {
  }

  lemma StartPreservesInv(events: map<string, EventInfo>, st: State, eventName: string,
                          name: string, email: string, sessionId: string, now: int)
    requires Inv(events, st)
    ensures Inv(events, StartStep(events, st, eventName, name, email, sessionId, now).0)
  {
  }

  /**
   * In a well-formed event, scanning the code the start page redirects to
   * unlocks the first clue: it advances to clue 1, or finishes a one-code race.
   */
  lemma StartThenScanFirstCode(events: map<string, EventInfo>, st: State, eventName: string,
                               name: string, email: string, sessionId: string, now: int, later: int)
    requires eventName in events && WellFormed(events[eventName]) && sessionId != ""
    ensures var (next, out) := StartStep(events, st, eventName, name, email, sessionId, now);
      var info := events[eventName];
      && out == RedirectToClue(eventName, info.orderedCodes[0])
      && ScanStep(events, next, Some(sessionId), eventName, out.code, later).1 ==
         if |info.orderedCodes| == 1
         then Finished(info.clues[info.orderedCodes[0]], 1, 1, later - now)
         else Advanced(info.clues[info.orderedCodes[0]], 1, |info.orderedCodes|)
  {
    var info := events[eventName];
    var code := info.orderedCodes[0];
    CodeAtIndex(info, 0);
    UpperIsNormal(code);
  }

  // ---------------------------------------------------------------------------
  // Scanning a code

  /** Without a live session, a scan redirects to the event's start page and changes nothing. */
  lemma ScanWithoutSession(events: map<string, EventInfo>, st: State, sessionId: Option<string>,
                           eventName: string, rawCode: string, now: int)
    requires !Live(st, sessionId)
    ensures ScanStep(events, st, sessionId, eventName, rawCode, now) == (st, RedirectToStart(eventName))
  {
  }

  /** A cookie naming a live session is never sent back to the start page. */
  lemma ScanWithSessionIsAnswered(events: map<string, EventInfo>, st: State, sessionId: Option<string>,
                                  eventName: string, rawCode: string, now: int)
    requires Live(st, sessionId)
    ensures !ScanStep(events, st, sessionId, eventName, rawCode, now).1.RedirectToStart?
  {
  }

  /** A code whose upper-cased form has no clue is reported invalid and changes nothing. */
  lemma ScanInvalidCode(events: map<string, EventInfo>, st: State, sessionId: Option<string>,
                        eventName: string, rawCode: string, now: int)
    requires Live(st, sessionId) && eventName in events
    requires ToUpper(rawCode) !in events[eventName].clues
    ensures ScanStep(events, st, sessionId, eventName, rawCode, now) == (st, InvalidCode)
  {
  }

  /**
   * A code before the team's current clue shows that clue again and changes
   * nothing, so scanning it again gives the same page.
   */
  lemma ScanBehindIsIdempotent(events: map<string, EventInfo>, st: State, sessionId: Option<string>,
                               eventName: string, rawCode: string, now: int, later: int)
    requires Live(st, sessionId) && eventName in events
    requires var info := events[eventName]; var code := ToUpper(rawCode);
      code in info.clues && info.clues[code] != "" &&
      IndexOf(info.orderedCodes, code) < st.sessions[sessionId.value].currentClue
    ensures var (next, out) := ScanStep(events, st, sessionId, eventName, rawCode, now);
      var info := events[eventName]; var code := ToUpper(rawCode);
      && next == st
      && out == AlreadyCompleted(info.clues[code], IndexOf(info.orderedCodes, code) + 1, |info.orderedCodes|)
      && ScanStep(events, next, sessionId, eventName, rawCode, later) == (next, out)
  {
  }

  /** A code after the team's current clue is refused without its clue text and changes nothing. */
  lemma ScanAheadIsRefused(events: map<string, EventInfo>, st: State, sessionId: Option<string>,
                           eventName: string, rawCode: string, now: int)
    requires Live(st, sessionId) && eventName in events
    requires var info := events[eventName]; var code := ToUpper(rawCode);
      code in info.clues && info.clues[code] != "" &&
      IndexOf(info.orderedCodes, code) > st.sessions[sessionId.value].currentClue
    ensures ScanStep(events, st, sessionId, eventName, rawCode, now) == (st, OutOfOrder)
    ensures !ScanStep(events, st, sessionId, eventName, rawCode, now).1.RevealsClue()
  {
  }

  /**
   * The code of the current clue, when it is not the last code, moves that
   * session to the next clue and touches no other session and no entry.
   */
  lemma ScanCurrentAdvances(events: map<string, EventInfo>, st: State, sessionId: Option<string>,
                            eventName: string, rawCode: string, now: int)
    requires Live(st, sessionId) && eventName in events
    requires var info := events[eventName]; var code := ToUpper(rawCode);
      code in info.clues && info.clues[code] != "" &&
      IndexOf(info.orderedCodes, code) == st.sessions[sessionId.value].currentClue &&
      IndexOf(info.orderedCodes, code) != |info.orderedCodes| - 1
    ensures var (next, out) := ScanStep(events, st, sessionId, eventName, rawCode, now);
      var info := events[eventName]; var id := sessionId.value; var k := st.sessions[id].currentClue;
      && next.sessions == st.sessions[id := st.sessions[id].(currentClue := k + 1)]
      && next.leaderboard == st.leaderboard
      && out == Advanced(info.clues[ToUpper(rawCode)], k + 1, |info.orderedCodes|)
      && k + 1 <= |info.orderedCodes| - 1
  {
  }

  /**
   * The last code scanned on the last clue finishes the race: the time taken
   * is `now` minus the start time, the session is removed, and the board is
   * upserted with the finished entry.
   */
  lemma ScanLastFinishes(events: map<string, EventInfo>, st: State, sessionId: Option<string>,
                         eventName: string, rawCode: string, now: int)
    requires Live(st, sessionId) && eventName in events
    requires var info := events[eventName]; var code := ToUpper(rawCode);
      code in info.clues && info.clues[code] != "" &&
      IndexOf(info.orderedCodes, code) == st.sessions[sessionId.value].currentClue == |info.orderedCodes| - 1
    ensures var (next, out) := ScanStep(events, st, sessionId, eventName, rawCode, now);
      var info := events[eventName]; var id := sessionId.value; var s := st.sessions[id];
      && next.sessions == st.sessions - {id}
      && next.leaderboard == Upserted(st.leaderboard, Finalize(s, now - s.startTime))
      && out == Finished(info.clues[ToUpper(rawCode)], |info.orderedCodes|, |info.orderedCodes|, now - s.startTime)
  {
  }

  /**
   * There is no "already finished" page: finishing deletes the session, so
   * any later scan with the same cookie redirects to the start page.
   */
  lemma RescanAfterFinishRedirects(events: map<string, EventInfo>, st: State, sessionId: Option<string>,
                                   eventName: string, rawCode: string, now: int,
                                   eventName': string, rawCode': string, later: int)
    requires ScanStep(events, st, sessionId, eventName, rawCode, now).1.Finished?
    ensures var next := ScanStep(events, st, sessionId, eventName, rawCode, now).0;
      ScanStep(events, next, sessionId, eventName', rawCode', later) == (next, RedirectToStart(eventName'))
  {
  }

  /** Scanned codes are upper-cased first, so the case a code is typed in does not matter. */
  lemma ScanIgnoresCase(events: map<string, EventInfo>, st: State, sessionId: Option<string>,
                        eventName: string, rawCode: string, now: int)
    ensures ScanStep(events, st, sessionId, eventName, rawCode, now) ==
            ScanStep(events, st, sessionId, eventName, ToUpper(rawCode), now)
  {
    UpperIsNormal(rawCode);
  }

  /**
   * No scan creates a session or moves one back: every session that survives
   * a scan has a clue at least as large as before, and every session but the
   * scanning one is untouched.
   */
  lemma ScanNeverMovesBack(events: map<string, EventInfo>, st: State, sessionId: Option<string>,
                           eventName: string, rawCode: string, now: int, id: string)
    requires id in ScanStep(events, st, sessionId, eventName, rawCode, now).0.sessions
    ensures var next := ScanStep(events, st, sessionId, eventName, rawCode, now).0;
      && id in st.sessions
      && next.sessions[id].currentClue >= st.sessions[id].currentClue
      && (sessionId != Some(id) ==> next.sessions[id] == st.sessions[id])
  {
  }

  /** Scanning keeps one entry per email and every session's clue in range. */
  lemma ScanPreservesInv(events: map<string, EventInfo>, st: State, sessionId: Option<string>,
                         eventName: string, rawCode: string, now: int)
    requires Inv(events, st)
    ensures Inv(events, ScanStep(events, st, sessionId, eventName, rawCode, now).0)
  {
    var (next, out) := ScanStep(events, st, sessionId, eventName, rawCode, now);
    if out.Finished? {
      var s := st.sessions[sessionId.value];
      UpsertKeepsEmailsDistinct(st.leaderboard, Finalize(s, now - s.startTime));
    } else if out.Advanced? {
      var id := sessionId.value;
      var k := next.sessions[id].currentClue;
      assert k < |events[eventName].orderedCodes|;
      assert ClueInRange(events, k);
    }
  }

  /** With the one-event catalog the server ships, the invariant bounds every clue by the last index. */
  lemma SourceClueBound(st: State, id: string)
    requires Inv(SourceEvents(), st) && id in st.sessions
    ensures 0 <= st.sessions[id].currentClue <= |SOURCE_CODES| - 1
  {
    var k := st.sessions[id].currentClue;
    SourceEventsWellFormed();
    if k != 0 {
      var e :| e in SourceEvents() && k < |SourceEvents()[e].orderedCodes|;
      assert e == GLOBAL_LEADERS;
    }
  }

  /**
   * A catalog whose clue map has a code the ordered list lacks: scanning that
   * code reads as an already completed clue number 0 and changes nothing.
   */
  lemma StrayClueReadsAsCompleted(events: map<string, EventInfo>, st: State, sessionId: Option<string>,
                                  eventName: string, code: string, now: int)
    requires Live(st, sessionId) && eventName in events && IsUpper(code)
    requires code in events[eventName].clues && events[eventName].clues[code] != ""
    requires code !in events[eventName].orderedCodes
    ensures ScanStep(events, st, sessionId, eventName, code, now) ==
      (st, AlreadyCompleted(events[eventName].clues[code], 0, |events[eventName].orderedCodes|))
  {
    UpperIsNormal(code);
  }

  // A three-code race, played through below.
  const RACE_EVENTS := map["e" := EventInfo("", "", "", ["A", "B", "C"], map["A" := "a", "B" := "b", "C" := "c"])]
  const AT_CLUE_0 := State(map["id" := Session("Team", "t@x", 100, 0)], [])
  const AT_CLUE_1 := State(map["id" := Session("Team", "t@x", 100, 1)], [])
  const AT_CLUE_2 := State(map["id" := Session("Team", "t@x", 100, 2)], [])
  const DONE := State(map[], [Entry("Team", "t@x", 100, 2, 50)])

  lemma RaceCodePositions()
    ensures var codes := RACE_EVENTS["e"].orderedCodes;
      IndexOf(codes, "A") == 0 && IndexOf(codes, "B") == 1 && IndexOf(codes, "C") == 2
    ensures ToUpper("a") == "A" && ToUpper("b") == "B" && ToUpper("c") == "C"
    ensures ToUpper("A") == "A" && ToUpper("B") == "B" && ToUpper("C") == "C"
  {
    var codes := RACE_EVENTS["e"].orderedCodes;
    assert IndexOf(codes, "A") == 0;
    assert IndexOf(codes, "B") == 1;
    assert IndexOf(codes, "C") == 2;
    UpperIsNormal("A");
    UpperIsNormal("B");
    UpperIsNormal("C");
  }

  /**
   * The three-code race played through: a skipped code is refused, each
   * current code advances, an earlier code is shown again, the last code
   * finishes with the elapsed time, and scanning it again only redirects
   * to the start page.
   */
  lemma ThreeCodeRace()
    ensures StartStep(RACE_EVENTS, State(map[], []), "e", "Team", "t@x", "id", 100) == (AT_CLUE_0, RedirectToClue("e", "A"))
    ensures ScanStep(RACE_EVENTS, AT_CLUE_0, Some("id"), "e", "b", 110) == (AT_CLUE_0, OutOfOrder)
    ensures ScanStep(RACE_EVENTS, AT_CLUE_0, Some("id"), "e", "a", 120) == (AT_CLUE_1, Advanced("a", 1, 3))
    ensures ScanStep(RACE_EVENTS, AT_CLUE_1, Some("id"), "e", "A", 130) == (AT_CLUE_1, AlreadyCompleted("a", 1, 3))
    ensures ScanStep(RACE_EVENTS, AT_CLUE_1, Some("id"), "e", "B", 140) == (AT_CLUE_2, Advanced("b", 2, 3))
    ensures ScanStep(RACE_EVENTS, AT_CLUE_2, Some("id"), "e", "c", 150) == (DONE, Finished("c", 3, 3, 50))
    ensures ScanStep(RACE_EVENTS, DONE, Some("id"), "e", "C", 160) == (DONE, RedirectToStart("e"))
  {
    RaceCodePositions();
    assert AT_CLUE_0.sessions["id" := Session("Team", "t@x", 100, 1)] == AT_CLUE_1.sessions;
    assert AT_CLUE_1.sessions["id" := Session("Team", "t@x", 100, 2)] == AT_CLUE_2.sessions;
    assert Upserted([], Entry("Team", "t@x", 100, 2, 50)) == [Entry("Team", "t@x", 100, 2, 50)];
  }

  // ---------------------------------------------------------------------------
  // The leaderboard view

  /** A finished team leaves the in-progress list and its best time is on the board. */
  lemma FinishMovesTeamToBoard(events: map<string, EventInfo>, st: State, sessionId: Option<string>,
                               eventName: string, rawCode: string, now: int)
    requires Inv(events, st)
    requires ScanStep(events, st, sessionId, eventName, rawCode, now).1.Finished?
    ensures var next := ScanStep(events, st, sessionId, eventName, rawCode, now).0;
      var s := st.sessions[sessionId.value];
      && sessionId.value !in InProgress(next.sessions)
      && TimeOf(next.leaderboard, s.email) ==
         match TimeOf(st.leaderboard, s.email)
         case None => Some(now - s.startTime)
         case Some(was) => Some(Min(was, now - s.startTime))
  {
    var s := st.sessions[sessionId.value];
    UpsertKeepsBestTime(st.leaderboard, Finalize(s, now - s.startTime));
  }

  /** A team that starts with a non-empty name and email is listed as in progress. */
  lemma StartListsTeam(events: map<string, EventInfo>, st: State, eventName: string,
                       name: string, email: string, sessionId: string, now: int)
    requires eventName in events && name != "" && email != ""
    ensures InProgress(StartStep(events, st, eventName, name, email, sessionId, now).0.sessions)[sessionId]
            == Team(name, email)
  {
  }

  datatype Board = Board(finished: seq<Entry>, inProgress: map<string, Team>)

  // ---------------------------------------------------------------------------
  // The server

  /** The module-level `sessions` record and `leaderboard` array, with the event catalog. */
  class RaceServer {
    const events: map<string, EventInfo>
    var sessions: map<string, Session>
    var leaderboard: seq<Entry>

    ghost predicate Valid()
      reads this
    {
      Inv(events, State(sessions, leaderboard))
    }

    function Snapshot(): State
      reads this
    {
      State(sessions, leaderboard)
    }

    constructor (events: map<string, EventInfo>)
      ensures Valid()
      ensures this.events == events && sessions == map[] && leaderboard == []
    {
      this.events := events;
      sessions := map[];
      leaderboard := [];
    }

    /** Starts a race under the fresh id `sessionId` at time `now`. */
    method Start(eventName: string, name: string, email: string, sessionId: string, now: int)
      returns (out: StartOutcome)
      requires Valid()
      modifies this
      ensures Valid()
      ensures (Snapshot(), out) == StartStep(events, old(Snapshot()), eventName, name, email, sessionId, now)
    {
      StartPreservesInv(events, Snapshot(), eventName, name, email, sessionId, now);
      if eventName !in events {
        return StartEventNotFound;
      }
      sessions := sessions[sessionId := Session(name, email, now, 0)];
      out := RedirectToClue(eventName, FirstCode(events[eventName]));
    }

    /** Handles one scan of `rawCode` by the session the cookie names, at time `now`. */
    method Scan(sessionId: Option<string>, eventName: string, rawCode: string, now: int)
      returns (out: ScanOutcome)
      requires Valid()
      modifies this
      ensures Valid()
      ensures (Snapshot(), out) == ScanStep(events, old(Snapshot()), sessionId, eventName, rawCode, now)
    {
      ScanPreservesInv(events, Snapshot(), sessionId, eventName, rawCode, now);
      if sessionId.None? || sessionId.value == "" || sessionId.value !in sessions {
        return RedirectToStart(eventName);
      }
      var id := sessionId.value;
      if eventName !in events {
        return EventNotFound;
      }
      var info := events[eventName];
      var code := ToUpper(rawCode);
      if code !in info.clues || info.clues[code] == "" {
        return InvalidCode;
      }
      var clue := info.clues[code];
      var currentCodeIndex := IndexOf(info.orderedCodes, code);
      var expectedIndex := sessions[id].currentClue;
      var totalClues := |info.orderedCodes|;
      var clueNumber := currentCodeIndex + 1;

      if currentCodeIndex == totalClues - 1 && currentCodeIndex == expectedIndex {
        var timeTaken := now - sessions[id].startTime;
        var user := Finalize(sessions[id], timeTaken);
        Upsert(user);
        sessions := sessions - {id};
        return Finished(clue, clueNumber, totalClues, timeTaken);
      }
      if currentCodeIndex < expectedIndex {
        return AlreadyCompleted(clue, clueNumber, totalClues);
      }
      if currentCodeIndex > expectedIndex {
        return OutOfOrder;
      }
      if currentCodeIndex >= 0 {
        sessions := sessions[id := sessions[id].(currentClue := currentCodeIndex + 1)];
      }
      return Advanced(clue, clueNumber, totalClues);
    }

    /** Replaces the entry with the user's email only on a strictly better time; appends a new email. */
    method Upsert(user: Entry)
      modifies this`leaderboard
      ensures leaderboard == Upserted(old(leaderboard), user)
    {
      var existingIdx := FindIndex(user.email);
      if existingIdx != -1 {
        if user.timeTaken < leaderboard[existingIdx].timeTaken {
          leaderboard := leaderboard[existingIdx := user];
        }
      } else {
        leaderboard := leaderboard + [user];
      }
    }

    /** `leaderboard.findIndex(u => u.email === email)` */
    method FindIndex(email: string) returns (i: int)
      ensures i == IndexOf(Emails(leaderboard), email)
    {
      i := 0;
      while i < |leaderboard|
        invariant 0 <= i <= |leaderboard|
        invariant email !in Emails(leaderboard)[..i]
      {
        if leaderboard[i].email == email {
          IndexOfIsFirst(Emails(leaderboard), email, i);
          return;
        }
        assert Emails(leaderboard)[..i + 1] == Emails(leaderboard)[..i] + [leaderboard[i].email];
        i := i + 1;
      }
      assert Emails(leaderboard)[..i] == Emails(leaderboard);
      i := -1;
    }

    /** The leaderboard page: finished entries fastest first, then the teams still racing. */
    function View(): (b: Board)
      reads this
      ensures b.finished == Ranked(leaderboard)
      ensures SortedByTime(b.finished) && multiset(b.finished) == multiset(leaderboard)
      ensures forall id :: id in b.inProgress <==>
        id in sessions && sessions[id].name != "" && sessions[id].email != ""
      ensures forall id :: id in b.inProgress ==> b.inProgress[id] == Team(sessions[id].name, sessions[id].email)
    {
      RankedIsSortedPermutation(leaderboard);
      Board(Ranked(leaderboard), InProgress(sessions))
    }
  }
}
