/**
 The console follower: a cursor-keeping loop that reads events in one snapshot
 and the terminal state in a later one, with bounded backoff on transient errors.
 */
module EventFollow {
  import opened Common
  import opened EventPaging

  const PAGE: nat := 50
  const INITIAL_BACKOFF: nat := 50
  const MAX_BACKOFF: nat := 2000

  datatype ReadClass = Transient | Missing | Permanent

  function Classify(e: PageError): ReadClass {
    match e
    case QueryDeadline | ReaderSaturated => Transient
    case InvalidRequest => Missing
    case _ => Permanent
  }

  function NextBackoff(current: nat): nat {
    Min(current * 2, MAX_BACKOFF)
  }

  /**
   The task's state at the second read (`None` when it is not among the summaries listed), and how much
   was committed by then.
   */
  datatype TerminalRead = TerminalRead(terminal: Option<bool>, committed: nat)

  /**
   What one turn of the loop meets: the snapshot its event page is read from, and
   the later read of the terminal state.
   */
  datatype Turn = Turn(events: Result<Snapshot, PageError>, terminal: Result<TerminalRead, PageError>)

  datatype Outcome = Finished | NotFound | StorageFailed | StillWatching

  datatype Watched = Watched(outcome: Outcome, output: seq<Row>, after: int, turns: nat)

  function PageAt(t: Turn, after: int, budget: int): Result<Page, PageError> {
    match t.events
    case Err(e) => Err(e)
    case Ok(s) => PageOf(s, after, PAGE, budget)
  }

  /** How a turn that read `events` ends, or `None` to go on. */
  function Ends(t: Turn, page: Result<Page, PageError>): Option<Outcome> {
    match page
    case Ok(p) =>
      (match t.terminal
       case Ok(read) => if read.terminal == Some(true) && p.events == [] then Some(Finished) else None
       case Err(e) => Stops(e))
    case Err(e) => Stops(e)
  }

  function Stops(e: PageError): Option<Outcome> {
    match Classify(e)
    case Transient => None
    case Missing => Some(NotFound)
    case Permanent => Some(StorageFailed)
  }

  /** What a page adds to the output, and the cursor after it. */
  function Shown(page: Result<Page, PageError>): seq<Row> {
    if page.Ok? then page.value.events else []
  }

  function Onward(page: Result<Page, PageError>, after: int): int {
    if page.Ok? then page.value.next else after
  }

  /** A run seen from its start, when `output` and `turns` precede the rest of it. */
  function Prepended(output: seq<Row>, turns: nat, rest: Watched): Watched {
    Watched(rest.outcome, output + rest.output, rest.after, turns + rest.turns)
  }

  /** The whole run of the loop from a cursor, given what each turn meets. */
  function Watch(script: seq<Turn>, after: int, budget: int): Watched {
    if script == [] then Watched(StillWatching, [], after, 0)
    else
      var page := PageAt(script[0], after, budget);
      match Ends(script[0], page)
      case Some(outcome) => Watched(outcome, Shown(page), Onward(page, after), 1)
      case None => Prepended(Shown(page), 1, Watch(script[1..], Onward(page, after), budget))
  }

  // ---------- the loop ----------

  lemma WatchTurn(script: seq<Turn>, i: nat, after: int, budget: int, output: seq<Row>)
    requires i < |script|
    ensures var page := PageAt(script[i], after, budget);
            Prepended(output, i, Watch(script[i..], after, budget)) ==
            match Ends(script[i], page)
            case Some(outcome) => Watched(outcome, output + Shown(page), Onward(page, after), i + 1)
            case None => Prepended(output + Shown(page), i + 1, Watch(script[i + 1..], Onward(page, after), budget))
  {
    assert script[i..][0] == script[i] && script[i..][1..] == script[i + 1..];
    var page := PageAt(script[i], after, budget);
    var rest := Watch(script[i + 1..], Onward(page, after), budget);
    assert output + (Shown(page) + rest.output) == output + Shown(page) + rest.output;
  }

  /** Pauses stay within bounds, and each is the initial one or twice the one before, capped. */
  predicate BackoffOk(sleeps: seq<nat>, backoff: nat) {
    && INITIAL_BACKOFF <= backoff <= MAX_BACKOFF
    && (forall k :: 0 <= k < |sleeps| ==> INITIAL_BACKOFF <= sleeps[k] <= MAX_BACKOFF)
    && (forall k :: 0 < k < |sleeps| ==> sleeps[k] == INITIAL_BACKOFF || sleeps[k] == NextBackoff(sleeps[k - 1]))
    && (sleeps != [] ==> backoff == INITIAL_BACKOFF || backoff == NextBackoff(sleeps[|sleeps| - 1]))
  }

  /** Pauses on a transient error and gives up on any other. */
  method Retry(e: PageError, sleeps: seq<nat>, backoff: nat)
    returns (outcome: Option<Outcome>, slept: seq<nat>, next: nat)
    requires BackoffOk(sleeps, backoff)
    ensures outcome == Stops(e) && BackoffOk(slept, next)
    ensures slept == if outcome.None? then sleeps + [backoff] else sleeps
  {
    match Classify(e)
    case Transient => return None, sleeps + [backoff], NextBackoff(backoff);
    case Missing => return Some(NotFound), sleeps, backoff;
    case Permanent => return Some(StorageFailed), sleeps, backoff;
  }

  /** One turn of the loop: how it ends, if it does, and where output, cursor and pauses then are. */
  method FollowTurn(turn: Turn, after: int, budget: int, output: seq<Row>, sleeps: seq<nat>, backoff: nat)
    returns (outcome: Option<Outcome>, shown: seq<Row>, next: int, slept: seq<nat>, pause: nat)
    requires BackoffOk(sleeps, backoff)
    ensures var page := PageAt(turn, after, budget);
            outcome == Ends(turn, page) && shown == output + Shown(page) && next == Onward(page, after)
    ensures BackoffOk(slept, pause)
  {
    var page := PageAt(turn, after, budget);
    match page
    case Ok(p) =>
      shown, next := output + p.events, p.next;
      slept, pause := sleeps, INITIAL_BACKOFF;
      match turn.terminal {
        case Ok(read) => outcome := if read.terminal == Some(true) && p.events == [] then Some(Finished) else None;
        case Err(e) => outcome, slept, pause := Retry(e, slept, pause);
      }
    case Err(e) =>
      shown, next := output, after;
      outcome, slept, pause := Retry(e, sleeps, backoff);
  }

  /** The loop against its specification; `sleeps` are the backoff pauses it takes. */
  method FollowLoop(script: seq<Turn>, budget: int) returns (r: Watched, sleeps: seq<nat>)
    ensures r == Watch(script, 0, budget)
    ensures exists backoff :: BackoffOk(sleeps, backoff)
  {
    var after := 0;
    var output: seq<Row> := [];
    var backoff := INITIAL_BACKOFF;
    sleeps := [];
    var i := 0;
    ghost var whole := Watch(script, 0, budget);
    assert script[0..] == script;
    while i < |script|
      invariant 0 <= i <= |script|
      invariant whole == Prepended(output, i, Watch(script[i..], after, budget))
      invariant BackoffOk(sleeps, backoff)
    {
      WatchTurn(script, i, after, budget, output);
      var outcome;
      outcome, output, after, sleeps, backoff := FollowTurn(script[i], after, budget, output, sleeps, backoff);
      i := i + 1;
      if outcome.Some? {
        return Watched(outcome.value, output, after, i), sleeps;
      }
    }
    return Watched(StillWatching, output, after, i), sleeps;
  }

  // ---------- what the follower has shown ----------

  /**
   Both reads of a turn see prefixes of one append-only log, the second no shorter, and nothing follows
   a terminal state.
   */
  predicate TurnShows(t: Turn, log: seq<Event>) {
    && (t.events.Ok? ==> Shows(t.events.value, log))
    && (t.terminal.Ok? ==>
          && t.terminal.value.committed <= |log|
          && (t.events.Ok? ==> t.events.value.last <= t.terminal.value.committed)
          && (t.terminal.value.terminal == Some(true) ==> t.terminal.value.committed == |log|))
  }

  predicate TurnsShow(script: seq<Turn>, log: seq<Event>) {
    forall i :: 0 <= i < |script| ==> TurnShows(script[i], log)
  }

  lemma TurnsShowRest(script: seq<Turn>, log: seq<Event>)
    requires TurnsShow(script, log) && script != []
    ensures TurnsShow(script[1..], log) && TurnShows(script[0], log)
  {
  }

  lemma TurnIsASlice(t: Turn, log: seq<Event>, after: nat, budget: int)
    requires TurnShows(t, log) && after <= |log| && PageAt(t, after, budget).Ok?
    ensures var page := PageAt(t, after, budget).value;
            && after <= page.next <= |log| && Bodies(page.events) == log[after..page.next]
            && (page.events == [] ==> t.events.value.last == after == page.next)
  {
    PageIsASlice(t.events.value, log, after, PAGE, budget);
    PageAdvances(t.events.value, after, PAGE, budget);
  }

  lemma BodiesJoin(a: seq<Row>, b: seq<Row>)
    ensures Bodies(a + b) == Bodies(a) + Bodies(b)
  {
  }

  /**
   However the log grows and whatever fails, the output is the log from the starting cursor on, without
   gap or repeat.
   */
  lemma {:induction false} OutputIsASlice(script: seq<Turn>, log: seq<Event>, after: nat, budget: int)
    requires TurnsShow(script, log) && after <= |log|
    ensures var w := Watch(script, after, budget);
            after <= w.after <= |log| && Bodies(w.output) == log[after..w.after]
  {
    if script != [] {
      TurnsShowRest(script, log);
      var page := PageAt(script[0], after, budget);
      if page.Ok? {
        TurnIsASlice(script[0], log, after, budget);
      }
      var events, next := Shown(page), Onward(page, after);
      assert Bodies(events) == log[after..next];
      OutputIsASlice(script[1..], log, next, budget);
      var rest := Watch(script[1..], next, budget);
      SlicesJoin(log, after, next, rest.after, Bodies(events), Bodies(rest.output));
      BodiesJoin(events, rest.output);
    }
  }

  /** The turn reads the terminal state. */
  predicate SeesTheEnd(t: Turn) {
    t.terminal.Ok? && t.terminal.value.terminal == Some(true)
  }

  /** A run that finishes does so on a turn whose event snapshot ended exactly at the cursor. */
  lemma {:induction false} FinishesAtItsSnapshot(script: seq<Turn>, log: seq<Event>, after: nat, budget: int)
    requires TurnsShow(script, log) && after <= |log| && Watch(script, after, budget).outcome == Finished
    ensures var w := Watch(script, after, budget);
            && 1 <= w.turns <= |script|
            && script[w.turns - 1].events.Ok? && script[w.turns - 1].events.value.last == w.after
            && SeesTheEnd(script[w.turns - 1])
  {
    TurnsShowRest(script, log);
    var page := PageAt(script[0], after, budget);
    if page.Ok? {
      TurnIsASlice(script[0], log, after, budget);
    }
    if Ends(script[0], page).None? {
      FinishesAtItsSnapshot(script[1..], log, Onward(page, after), budget);
    }
  }

  /** Nothing was committed between the two reads of the turn. */
  predicate Quiet(t: Turn) {
    t.events.Ok? && t.terminal.Ok? ==> t.events.value.last == t.terminal.value.committed
  }

  lemma WholeIffQuiet(t: Turn, log: seq<Event>, output: seq<Event>, after: int)
    requires TurnShows(t, log) && SeesTheEnd(t) && t.events.Ok? && t.events.value.last == after
    requires 0 <= after <= |log| && output == log[0..after]
    ensures output == log <==> Quiet(t)
  {
  }

  /**
   A follower that finishes has shown the whole log exactly when nothing was
   committed between the two reads of its last turn.
   */
  lemma FinishedIsCompleteIff(script: seq<Turn>, log: seq<Event>, budget: int)
    requires TurnsShow(script, log) && Watch(script, 0, budget).outcome == Finished
    ensures var w := Watch(script, 0, budget);
            && 1 <= w.turns <= |script| && SeesTheEnd(script[w.turns - 1])
            && (Bodies(w.output) == log <==> Quiet(script[w.turns - 1]))
  {
    var w := Watch(script, 0, budget);
    OutputIsASlice(script, log, 0, budget);
    FinishesAtItsSnapshot(script, log, 0, budget);
    WholeIffQuiet(script[w.turns - 1], log, Bodies(w.output), w.after);
  }

  /** If every turn that sees the terminal state is quiet, a follower that finishes has shown the whole log. */
  lemma QuietScriptsAreComplete(script: seq<Turn>, log: seq<Event>, budget: int)
    requires TurnsShow(script, log)
    requires forall i :: 0 <= i < |script| ==> SeesTheEnd(script[i]) ==> Quiet(script[i])
    ensures Watch(script, 0, budget).outcome == Finished ==> Bodies(Watch(script, 0, budget).output) == log
  {
    if Watch(script, 0, budget).outcome == Finished {
      FinishedIsCompleteIff(script, log, budget);
    }
  }

  /** A final event committed between the two reads of one turn is never shown. */
  lemma FollowerMissesTheLastEvent(e: Event, budget: int)
    ensures var script := [Turn(Ok(Snapshot(0, 0, [], Some(false))), Ok(TerminalRead(Some(true), 1)))];
            && TurnsShow(script, [e])
            && Watch(script, 0, budget).outcome == Finished
            && Bodies(Watch(script, 0, budget).output) != [e]
  {
    var s := Snapshot(0, 0, [], Some(false));
    assert RowsOf([e], 0, 0) == [];
    assert Query(s.rows, 0, PAGE) == [];
  }
}
