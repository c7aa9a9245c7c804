/**
 The budgeted event page reader over one database snapshot, and what a cursor
 that follows its pages has seen of a log that grows and is evicted meanwhile.
 */
module EventPaging {
  import opened Common

  const MAX_SAFE_INTEGER: int := 9007199254740991
  const MAX_EVENT_PAYLOAD_BYTES: int := 6 * 262144 + 1024
  const MAX_PAGE: int := 200

  /** `intact` says the stored payload has its declared length and forms a valid public event. */
  datatype Event = Event(body: string, payloadLength: int, encoded: nat, intact: bool)

  datatype Row = Row(number: int, event: Event)

  /** One task as a snapshot shows it; `rows` are its stored events in ascending order. */
  datatype Snapshot = Snapshot(evictedThrough: int, last: int, rows: seq<Row>, terminal: Option<bool>)

  datatype Cursor = Cursor(oldestAvailable: int, lastCommitted: int)

  datatype Page = Page(requestedAfter: int, events: seq<Row>, next: int, cursor: Cursor)

  datatype PageError =
    | CursorExpired(oldestAvailable: int, lastCommitted: int)
    | InvalidRequest
    | Quarantined
    | OutputLimitExceeded
    | TaskMissing
    | ReaderSaturated
    | QueryDeadline

  datatype Poll = Poll(page: Page, terminal: bool)

  // ---------- requests and cursors ----------

  predicate ValidRequest(after: int, limit: int, budget: int, frameLimit: int) {
    0 <= after <= MAX_SAFE_INTEGER && 1 <= limit <= MAX_PAGE && 0 < budget <= frameLimit
  }

  function LoadCursor(s: Snapshot): Result<Cursor, PageError> {
    if !(0 <= s.evictedThrough <= MAX_SAFE_INTEGER) || !(0 <= s.last <= MAX_SAFE_INTEGER) || s.last < s.evictedThrough
    then Err(Quarantined)
    else if s.evictedThrough + 1 > MAX_SAFE_INTEGER then Err(Quarantined)
    else Ok(Cursor(s.evictedThrough + 1, s.last))
  }

  // ---------- the rows a query returns ----------

  function Beyond(rows: seq<Row>, after: int): (r: seq<Row>)
    ensures forall x :: x in r ==> x in rows && x.number > after
  {
    if rows == [] then [] else (if rows[0].number > after then [rows[0]] else []) + Beyond(rows[1..], after)
  }

  function Query(rows: seq<Row>, after: int, limit: nat): seq<Row> {
    var found := Beyond(rows, after);
    if |found| <= limit then found else found[..limit]
  }

  // ---------- the page as a function of the rows ----------

  /** The bytes of a JSON array of these events without its brackets. */
  function EncodedSize(rows: seq<Row>): nat {
    if rows == [] then 0
    else EncodedSize(rows[..|rows| - 1]) + rows[|rows| - 1].event.encoded + if |rows| > 1 then 1 else 0
  }

  lemma EncodedSizeMore(rows: seq<Row>, row: Row)
    ensures EncodedSize(rows + [row]) == EncodedSize(rows) + row.event.encoded + if rows != [] then 1 else 0
  {
    assert (rows + [row])[..|rows|] == rows;
  }

  datatype Verdict = Accept | Stop | Corrupt

  /** What row `k` of the query result does to the page. */
  function Judge(q: seq<Row>, k: nat, after: int, last: int, budget: int): Verdict
    requires k < |q|
  {
    var row := q[k];
    if row.number != after + k + 1 || row.number > last then Corrupt
    else if !(0 <= row.event.payloadLength <= MAX_EVENT_PAYLOAD_BYTES) then Corrupt
    else if row.event.payloadLength > budget then Stop
    else if !row.event.intact then Corrupt
    else if EncodedSize(q[..k + 1]) > budget then Stop
    else Accept
  }

  /** How many rows are taken before the first that is not acceptable. */
  function Taken(q: seq<Row>, from: nat, after: int, last: int, budget: int): (n: nat)
    requires from <= |q|
    ensures from <= n <= |q|
    ensures forall k :: from <= k < n ==> Judge(q, k, after, last, budget) == Accept
    ensures n < |q| ==> Judge(q, n, after, last, budget) != Accept
    decreases |q| - from
  {
    if from < |q| && Judge(q, from, after, last, budget) == Accept then Taken(q, from + 1, after, last, budget)
    else from
  }

  function PageOf(s: Snapshot, after: int, limit: nat, budget: int): Result<Page, PageError> {
    match LoadCursor(s)
    case Err(e) => Err(e)
    case Ok(cursor) =>
      if after < cursor.oldestAvailable - 1 then Err(CursorExpired(cursor.oldestAvailable, cursor.lastCommitted))
      else if after > cursor.lastCommitted then Err(InvalidRequest)
      else PageFrom(Query(s.rows, after, limit), after, cursor, limit, budget)
  }

  function PageFrom(q: seq<Row>, after: int, cursor: Cursor, limit: nat, budget: int): Result<Page, PageError> {
    var n := Taken(q, 0, after, cursor.lastCommitted, budget);
    if n < |q| && Judge(q, n, after, cursor.lastCommitted, budget) == Corrupt then Err(Quarantined)
    else if n < |q| && n == 0 then Err(OutputLimitExceeded)
    else if n == |q| && n != Min(cursor.lastCommitted - after, limit) then Err(Quarantined)
    else Ok(Page(after, q[..n], if n == 0 then after else q[n - 1].number, cursor))
  }

  // ---------- the reader ----------

  /** The row loop of the page reader; the flag says it stopped for the budget. */
  method TakeRows(rows: seq<Row>, after: int, last: int, budget: int) returns (r: Result<(seq<Row>, bool), PageError>)
    ensures var n := Taken(rows, 0, after, last, budget);
            r == if n == |rows| then Ok((rows[..n], false))
                 else if Judge(rows, n, after, last, budget) == Corrupt then Err(Quarantined)
                 else if n == 0 then Err(OutputLimitExceeded)
                 else Ok((rows[..n], true))
  {
    ghost var n := Taken(rows, 0, after, last, budget);
    var events: seq<Row> := [];
    var encodedBytes := 0;
    while |events| < |rows|
      invariant |events| <= n && events == rows[..|events|]
      invariant encodedBytes == EncodedSize(events)
      decreases |rows| - |events|
    {
      var row := rows[|events|];
      ghost var k := |events|;
      EncodedSizeMore(events, row);
      assert rows[..k + 1] == events + [row];
      assert Judge(rows, k, after, last, budget) == Accept <==> k < n;
      if row.number != after + |events| + 1 || row.number > last {
        return Err(Quarantined);
      }
      if !(0 <= row.event.payloadLength <= MAX_EVENT_PAYLOAD_BYTES) {
        return Err(Quarantined);
      }
      if row.event.payloadLength > budget {
        return if events == [] then Err(OutputLimitExceeded) else Ok((events, true));
      }
      if !row.event.intact {
        return Err(Quarantined);
      }
      var additional := row.event.encoded + if events != [] then 1 else 0;
      if encodedBytes + additional > budget {
        return if events == [] then Err(OutputLimitExceeded) else Ok((events, true));
      }
      encodedBytes := encodedBytes + additional;
      events := events + [row];
    }
    assert events == rows;
    return Ok((events, false));
  }

  /** One page of one snapshot. */
  method LoadEventPage(s: Snapshot, after: int, limit: nat, budget: int) returns (r: Result<Page, PageError>)
    ensures r == PageOf(s, after, limit, budget)
  {
    var loaded := LoadCursor(s);
    if loaded.Err? {
      return Err(loaded.error);
    }
    var cursor := loaded.value;
    if after < cursor.oldestAvailable - 1 {
      return Err(CursorExpired(cursor.oldestAvailable, cursor.lastCommitted));
    }
    if after > cursor.lastCommitted {
      return Err(InvalidRequest);
    }
    var rows := Query(s.rows, after, limit);
    var taken := TakeRows(rows, after, cursor.lastCommitted, budget);
    if taken.Err? {
      return Err(taken.error);
    }
    var (events, budgetStopped) := taken.value;
    if !budgetStopped && |events| != Min(cursor.lastCommitted - after, limit) {
      return Err(Quarantined);
    }
    return Ok(Page(after, events, if events == [] then after else events[|events| - 1].number, cursor));
  }

  /** One replayable poll: the page and the terminal state come from the same snapshot. */
  method PublicEventPoll(s: Snapshot, after: int, limit: int, budget: int, frameLimit: int)
    returns (r: Result<Poll, PageError>)
    ensures !ValidRequest(after, limit, budget, frameLimit) ==> r == Err(InvalidRequest)
    ensures ValidRequest(after, limit, budget, frameLimit) ==> r == PollOf(s, after, limit, budget)
  {
    if !ValidRequest(after, limit, budget, frameLimit) {
      return Err(InvalidRequest);
    }
    var page := LoadEventPage(s, after, limit, budget);
    if page.Err? {
      return Err(page.error);
    }
    if s.terminal.None? {
      return Err(TaskMissing);
    }
    return Ok(Poll(page.value, s.terminal.value));
  }

  function PollOf(s: Snapshot, after: int, limit: nat, budget: int): Result<Poll, PageError> {
    match PageOf(s, after, limit, budget)
    case Err(e) => Err(e)
    case Ok(page) => if s.terminal.None? then Err(TaskMissing) else Ok(Poll(page, s.terminal.value))
  }

  // ---------- what a page promises, for every snapshot ----------

  /** The events are exactly the ones numbered right after the cursor, in order. */
  predicate Contiguous(events: seq<Row>, after: int) {
    forall i :: 0 <= i < |events| ==> events[i].number == after + 1 + i
  }

  /** Whatever the tables hold, a page skips nothing, repeats nothing and keeps its budget. */
  lemma PageIsSound(s: Snapshot, after: int, limit: nat, budget: int)
    requires PageOf(s, after, limit, budget).Ok?
    ensures var page := PageOf(s, after, limit, budget).value;
            && Contiguous(page.events, after)
            && |page.events| <= limit
            && page.next == after + |page.events| <= s.last
            && s.evictedThrough <= after
            && (page.events != [] ==> EncodedSize(page.events) <= budget)
            && (forall e :: e in page.events ==> e in s.rows && e.event.intact)
  {
    var q := Query(s.rows, after, limit);
    var n := Taken(q, 0, after, s.last, budget);
    var events := q[..n];
    if n > 0 {
      assert Judge(q, n - 1, after, s.last, budget) == Accept;
    }
    forall i | 0 <= i < n ensures events[i].number == after + 1 + i && events[i] in s.rows && events[i].event.intact {
      assert Judge(q, i, after, s.last, budget) == Accept;
      assert events[i] in Beyond(s.rows, after);
    }
  }

  /** A page below the end advances, so an empty page means the cursor is at the end. */
  lemma PageAdvances(s: Snapshot, after: int, limit: nat, budget: int)
    requires PageOf(s, after, limit, budget).Ok? && limit >= 1
    ensures PageOf(s, after, limit, budget).value.events == [] <==> after == s.last
    ensures after < s.last ==> PageOf(s, after, limit, budget).value.next > after
  {
    PageIsSound(s, after, limit, budget);
  }

  /** A number missing from the tables stops every page before it. */
  lemma HolesAreNeverSkipped(s: Snapshot, after: int, limit: nat, budget: int, hole: int)
    requires PageOf(s, after, limit, budget).Ok? && after < hole
    requires forall r :: r in s.rows ==> r.number != hole
    ensures PageOf(s, after, limit, budget).value.next < hole
  {
    PageIsSound(s, after, limit, budget);
    var page := PageOf(s, after, limit, budget).value;
    if page.next >= hole {
      var i := Numbered(page.events, after, hole);
      assert false;
    }
  }

  lemma Numbered(events: seq<Row>, after: int, number: int) returns (i: nat)
    requires Contiguous(events, after) && after < number <= after + |events|
    ensures i < |events| && events[i] in events && events[i].number == number
  {
    i := number - after - 1;
  }

  // ---------- a log that grows and is evicted ----------

  /** The stored rows of log positions `from` to `to`; position i carries number i + 1. */
  function RowsOf(log: seq<Event>, from: nat, to: nat): (rows: seq<Row>)
    requires from <= to <= |log|
    ensures |rows| == to - from
    ensures forall i :: 0 <= i < |rows| ==> rows[i] == Row(from + i + 1, log[from + i])
  {
    seq(to - from, i requires 0 <= i < to - from => Row(from + i + 1, log[from + i]))
  }

  /** The snapshot shows some committed prefix of the log, from some point on. */
  predicate Shows(s: Snapshot, log: seq<Event>) {
    && 0 <= s.evictedThrough <= s.last <= |log| <= MAX_SAFE_INTEGER
    && s.evictedThrough < MAX_SAFE_INTEGER
    && s.rows == RowsOf(log, s.evictedThrough, s.last)
  }

  lemma FirstRow(log: seq<Event>, from: nat, to: nat)
    requires from < to <= |log|
    ensures RowsOf(log, from, to)[1..] == RowsOf(log, from + 1, to)
    ensures RowsOf(log, from, to) == [RowsOf(log, from, to)[0]] + RowsOf(log, from + 1, to)
  {
  }

  lemma {:induction false} BeyondOfRange(log: seq<Event>, from: nat, to: nat, after: nat)
    requires from <= after <= to <= |log|
    ensures Beyond(RowsOf(log, from, to), after) == RowsOf(log, after, to)
    decreases |log| - from
  {
    if from < to {
      assert RowsOf(log, from, to)[1..] == RowsOf(log, from + 1, to);
      if from < after {
        BeyondOfRange(log, from + 1, to, after);
      } else {
        BeyondAll(log, from, to, after);
      }
    }
  }

  lemma {:induction false} BeyondAll(log: seq<Event>, from: nat, to: nat, after: nat)
    requires after <= from <= to <= |log|
    ensures Beyond(RowsOf(log, from, to), after) == RowsOf(log, from, to)
    decreases |log| - from
  {
    if from < to {
      FirstRow(log, from, to);
      BeyondAll(log, from + 1, to, after);
    }
  }

  predicate Storable(e: Event) {
    0 <= e.payloadLength <= MAX_EVENT_PAYLOAD_BYTES && e.intact
  }

  /** The first event alone fits the budget. */
  predicate FitsAlone(e: Event, budget: int) {
    e.payloadLength <= budget && e.encoded <= budget
  }

  function Bodies(rows: seq<Row>): (events: seq<Event>)
    ensures |events| == |rows|
    ensures forall i :: 0 <= i < |rows| ==> events[i] == rows[i].event
  {
    seq(|rows|, i requires 0 <= i < |rows| => rows[i].event)
  }

  /** Rows of the snapshot numbered on from the cursor are the log's events there. */
  lemma RowsAreEvents(s: Snapshot, log: seq<Event>, rows: seq<Row>, after: nat)
    requires Shows(s, log) && Contiguous(rows, after) && after + |rows| <= |log|
    requires forall i :: 0 <= i < |rows| ==> rows[i] in s.rows
    ensures forall i :: 0 <= i < |rows| ==> rows[i].event == log[after + i]
  {
    forall i | 0 <= i < |rows| ensures rows[i].event == log[after + i] {
      assert rows[i] in s.rows;
      RowInRange(log, s.evictedThrough, s.last, rows[i]);
    }
  }

  /** Of a real log a page is a slice starting at the cursor. */
  lemma PageIsASlice(s: Snapshot, log: seq<Event>, after: nat, limit: nat, budget: int)
    requires Shows(s, log) && PageOf(s, after, limit, budget).Ok?
    ensures var page := PageOf(s, after, limit, budget).value;
            after <= page.next <= s.last && Bodies(page.events) == log[after..page.next]
  {
    PageIsSound(s, after, limit, budget);
    var page := PageOf(s, after, limit, budget).value;
    RowsAreEvents(s, log, page.events, after);
    SliceOf(page.events, log, after);
  }

  lemma RowInRange(log: seq<Event>, from: nat, to: nat, row: Row)
    requires from <= to <= |log| && row in RowsOf(log, from, to)
    ensures from < row.number <= to && row.event == log[row.number - 1]
  {
  }

  lemma SliceOf(rows: seq<Row>, log: seq<Event>, after: nat)
    requires after + |rows| <= |log|
    requires forall i :: 0 <= i < |rows| ==> rows[i].event == log[after + i]
    ensures Bodies(rows) == log[after..after + |rows|]
  {
  }

  lemma HealthyQuery(s: Snapshot, log: seq<Event>, after: nat, limit: nat)
    requires Shows(s, log) && s.evictedThrough <= after <= s.last
    ensures Query(s.rows, after, limit) == RowsOf(log, after, Min(after + limit, s.last))
  {
    BeyondOfRange(log, s.evictedThrough, s.last, after);
  }

  lemma HealthyVerdict(log: seq<Event>, after: nat, to: nat, last: int, budget: int, k: nat)
    requires after + k < to <= last && to <= |log| && Storable(log[after + k])
    ensures Judge(RowsOf(log, after, to), k, after, last, budget) ==
            if log[after + k].payloadLength > budget || EncodedSize(RowsOf(log, after, after + k + 1)) > budget
            then Stop else Accept
  {
    assert RowsOf(log, after, to)[..k + 1] == RowsOf(log, after, after + k + 1);
  }

  /** The page stopped short of its limit and of the end only because the next event does not fit. */
  predicate Maximal(log: seq<Event>, after: nat, next: nat, to: nat, budget: int)
    requires after <= next && to <= |log|
  {
    next < to ==> log[next].payloadLength > budget || EncodedSize(RowsOf(log, after, next + 1)) > budget
  }

  lemma HealthyTaken(log: seq<Event>, after: nat, to: nat, last: int, budget: int)
    requires after <= to <= last && to <= |log| && (forall e :: e in log ==> Storable(e))
    ensures var q := RowsOf(log, after, to);
            var n := Taken(q, 0, after, last, budget);
            && (n < |q| ==> Judge(q, n, after, last, budget) == Stop)
            && Maximal(log, after, after + n, to, budget)
            && (after < to ==> (n == 0 <==> !FitsAlone(log[after], budget)))
  {
    var q := RowsOf(log, after, to);
    var n := Taken(q, 0, after, last, budget);
    if n < |q| {
      HealthyVerdict(log, after, to, last, budget, n);
    }
    if after < to {
      HealthyVerdict(log, after, to, last, budget, 0);
      assert RowsOf(log, after, after + 1) == [Row(after + 1, log[after])];
    }
  }

  /**
   Of a healthy log the reader answers exactly by these conditions: nothing is
   ever quarantined, and only an evicted cursor, a cursor past the end or a
   first event too large for the budget is refused.
   */
  lemma HealthyPageIsExact(s: Snapshot, log: seq<Event>, after: nat, limit: nat, budget: int)
    requires Shows(s, log) && (forall e :: e in log ==> Storable(e)) && limit >= 1
    ensures match PageOf(s, after, limit, budget)
            case Ok(page) =>
              && s.evictedThrough <= after <= s.last
              && (after < s.last ==> FitsAlone(log[after], budget))
              && after <= page.next && Maximal(log, after, page.next, Min(after + limit, s.last), budget)
            case Err(e) =>
              if after < s.evictedThrough then e == CursorExpired(s.evictedThrough + 1, s.last)
              else if after > s.last then e == InvalidRequest
              else after < s.last && !FitsAlone(log[after], budget) && e == OutputLimitExceeded
  {
    if s.evictedThrough <= after <= s.last {
      HealthyQuery(s, log, after, limit);
      HealthyPageFrom(log, after, Cursor(s.evictedThrough + 1, s.last), limit, budget);
    }
  }

  lemma HealthyPageFrom(log: seq<Event>, after: nat, cursor: Cursor, limit: nat, budget: int)
    requires after <= cursor.lastCommitted <= |log| && (forall e :: e in log ==> Storable(e)) && limit >= 1
    ensures var to := Min(after + limit, cursor.lastCommitted);
            match PageFrom(RowsOf(log, after, to), after, cursor, limit, budget)
            case Ok(page) =>
              && (after < cursor.lastCommitted ==> FitsAlone(log[after], budget))
              && after <= page.next && Maximal(log, after, page.next, to, budget)
            case Err(e) => after < cursor.lastCommitted && !FitsAlone(log[after], budget) && e == OutputLimitExceeded
  {
    HealthyTaken(log, after, Min(after + limit, cursor.lastCommitted), cursor.lastCommitted, budget);
  }

  // ---------- a client that polls ----------

  datatype Request = Request(snapshot: Snapshot, limit: nat, budget: int)

  /** Where one poll leaves the cursor, and what it delivers; a failed poll moves and delivers nothing. */
  function Advanced(after: int, p: Request): int {
    match PollOf(p.snapshot, after, p.limit, p.budget)
    case Ok(poll) => poll.page.next
    case Err(_) => after
  }

  function Gained(after: int, p: Request): seq<Event> {
    match PollOf(p.snapshot, after, p.limit, p.budget)
    case Ok(poll) => Bodies(poll.page.events)
    case Err(_) => []
  }

  lemma GainIsASlice(after: nat, p: Request, log: seq<Event>)
    requires Shows(p.snapshot, log) && after <= |log|
    ensures after <= Advanced(after, p) <= |log| && Gained(after, p) == log[after..Advanced(after, p)]
  {
    if PageOf(p.snapshot, after, p.limit, p.budget).Ok? {
      PageIsASlice(p.snapshot, log, after, p.limit, p.budget);
    }
  }

  /** The cursor after a run of polls. */
  function Cursors(start: nat, polls: seq<Request>): int {
    if polls == [] then start else Advanced(Cursors(start, polls[..|polls| - 1]), polls[|polls| - 1])
  }

  /** Everything a run of polls delivered, in order. */
  function Delivered(start: nat, polls: seq<Request>): seq<Event> {
    if polls == [] then []
    else
      var front := polls[..|polls| - 1];
      Delivered(start, front) + Gained(Cursors(start, front), polls[|polls| - 1])
  }

  /** Every snapshot shows a prefix of one append-only log. */
  predicate AllShow(polls: seq<Request>, log: seq<Event>) {
    forall i :: 0 <= i < |polls| ==> Shows(polls[i].snapshot, log)
  }

  lemma ShowFront(polls: seq<Request>, log: seq<Event>)
    requires AllShow(polls, log) && polls != []
    ensures AllShow(polls[..|polls| - 1], log) && Shows(polls[|polls| - 1].snapshot, log)
  {
  }

  lemma SlicesJoin<T>(log: seq<T>, a: nat, b: nat, c: nat, front: seq<T>, back: seq<T>)
    requires a <= b <= c <= |log| && front == log[a..b] && back == log[b..c]
    ensures front + back == log[a..c]
  {
  }

  /**
   Over any run of polls, with any limits, budgets, growth, eviction and
   failures, what was delivered is exactly the log between the first cursor and
   the current one.
   */
  lemma {:induction false} DeliveredIsASlice(start: nat, polls: seq<Request>, log: seq<Event>)
    requires AllShow(polls, log) && start <= |log|
    ensures start <= Cursors(start, polls) <= |log|
    ensures Delivered(start, polls) == log[start..Cursors(start, polls)]
  {
    if polls != [] {
      var front, p := polls[..|polls| - 1], polls[|polls| - 1];
      ShowFront(polls, log);
      DeliveredIsASlice(start, front, log);
      var after := Cursors(start, front);
      GainIsASlice(after, p, log);
      SlicesJoin(log, start, after, Advanced(after, p), Delivered(start, front), Gained(after, p));
    }
  }

  /** An empty page means that everything committed at its snapshot was delivered. */
  lemma EmptyPollMeansCaughtUp(polls: seq<Request>, last: Request, log: seq<Event>)
    requires AllShow(polls + [last], log) && last.limit >= 1
    requires var r := PollOf(last.snapshot, Cursors(0, polls), last.limit, last.budget);
             r.Ok? && r.value.page.events == []
    ensures 0 <= last.snapshot.last <= |log| && Delivered(0, polls) == log[..last.snapshot.last]
  {
    assert (polls + [last])[|polls|] == last;
    forall i | 0 <= i < |polls| ensures Shows(polls[i].snapshot, log) {
      assert (polls + [last])[i] == polls[i];
    }
    DeliveredIsASlice(0, polls, log);
    PageAdvances(last.snapshot, Cursors(0, polls), last.limit, last.budget);
  }

  /**
   Page and terminal flag come from one snapshot, so an empty terminal poll has
   delivered the whole log exactly when nothing was committed after that snapshot,
   in particular when nothing follows a terminal state.
   */
  lemma EmptyTerminalPollMeansComplete(polls: seq<Request>, last: Request, log: seq<Event>)
    requires AllShow(polls + [last], log) && last.limit >= 1
    requires var r := PollOf(last.snapshot, Cursors(0, polls), last.limit, last.budget);
             r.Ok? && r.value.terminal && r.value.page.events == []
    ensures last.snapshot.terminal == Some(true)
    ensures Delivered(0, polls) == log <==> last.snapshot.last == |log|
  {
    EmptyPollMeansCaughtUp(polls, last, log);
  }
}
