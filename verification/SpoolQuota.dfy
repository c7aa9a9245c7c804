/**
 The shared spool quota: any number of threads, each call an atomic add followed
 when it overshoots by a flag store and an atomic subtract, in any interleaving.
 */
module SpoolQuota {
  import opened Common

  /** How far one call has got; `previous` is what its add returned. */
  datatype Call =
    | Ready(incoming: nat)
    | Added(incoming: nat, previous: nat)
    | Flagged(incoming: nat, previous: nat)
    | Done(incoming: nat, accepted: nat)

  datatype Quota = Quota(limit: nat, written: nat, exceeded: bool, calls: seq<Call>)

  datatype Step = Begin(incoming: nat) | Add(call: nat) | Flag(call: nat) | Subtract(call: nat)

  /** Both stream drains of a process read at most this many bytes at a time. */
  const SPOOL_READ_BUFFER_BYTES: nat := 8192
  const DRAIN_THREADS: nat := 2

  /** The value of a 64-bit atomic after arithmetic that gave `x`. */
  function Wrap(x: int): (w: nat)
    ensures w <= U64_MAX
    decreases if x < 0 then U64_MAX + 1 - x else x
  {
    if x < 0 then Wrap(x + (U64_MAX + 1)) else if x > U64_MAX then Wrap(x - (U64_MAX + 1)) else x
  }

  /** The bytes a call may write, given what its add returned. */
  function Share(limit: nat, incoming: nat, previous: nat): nat {
    if previous >= limit then 0 else Min(incoming, limit - previous)
  }

  function AfterAdd(q: Quota, i: nat): Quota
    requires i < |q.calls| && q.calls[i].Ready?
  {
    var n := q.calls[i].incoming;
    if n == 0 then q.(calls := q.calls[i := Done(0, 0)])
    else
      var share := Share(q.limit, n, q.written);
      q.(written := Wrap(q.written + n),
         calls := q.calls[i := if share == n then Done(n, n) else Added(n, q.written)])
  }

  /** One atomic step; a step that is not due changes nothing. */
  function Next(q: Quota, s: Step): Quota {
    match s
    case Begin(n) => q.(calls := q.calls + [Ready(n)])
    case Add(i) => if i < |q.calls| && q.calls[i].Ready? then AfterAdd(q, i) else q
    case Flag(i) =>
      if i < |q.calls| && q.calls[i].Added?
      then q.(exceeded := true, calls := q.calls[i := Flagged(q.calls[i].incoming, q.calls[i].previous)]) else q
    case Subtract(i) =>
      if i < |q.calls| && q.calls[i].Flagged?
      then
        var c := q.calls[i];
        var share := Share(q.limit, c.incoming, c.previous);
        q.(written := Wrap(q.written - (c.incoming - share)),
           calls := q.calls[i := Done(c.incoming, share)])
      else q
  }

  function Run(limit: nat, steps: seq<Step>): Quota {
    if steps == [] then Quota(limit, 0, false, [])
    else Next(Run(limit, steps[..|steps| - 1]), steps[|steps| - 1])
  }

  // ---------- totals ----------

  /** Bytes announced, offered to the counter, accepted, and added but not yet taken back. */
  datatype Totals = Totals(begun: int, offered: int, accepted: int, pending: int)

  function Weight(limit: nat, c: Call): Totals {
    match c
    case Ready(n) => Totals(n, 0, 0, 0)
    case Added(n, previous) => Totals(n, n, Share(limit, n, previous), n - Share(limit, n, previous))
    case Flagged(n, previous) => Totals(n, n, Share(limit, n, previous), n - Share(limit, n, previous))
    case Done(n, accepted) => Totals(n, n, accepted, 0)
  }

  function Plus(a: Totals, b: Totals): Totals {
    Totals(a.begun + b.begun, a.offered + b.offered, a.accepted + b.accepted, a.pending + b.pending)
  }

  function Total(limit: nat, calls: seq<Call>): Totals {
    if calls == [] then Totals(0, 0, 0, 0)
    else Plus(Total(limit, calls[..|calls| - 1]), Weight(limit, calls[|calls| - 1]))
  }

  lemma {:induction false} TotalUpdate(limit: nat, calls: seq<Call>, i: nat, c: Call)
    requires i < |calls|
    ensures Plus(Total(limit, calls[i := c]), Weight(limit, calls[i])) == Plus(Total(limit, calls), Weight(limit, c))
  {
    var front := calls[..|calls| - 1];
    if i < |front| {
      TotalUpdate(limit, front, i, c);
      assert calls[i := c][..|front|] == front[i := c];
    } else {
      assert calls[i := c][..|front|] == front;
    }
  }

  lemma {:induction false} TotalBounds(limit: nat, calls: seq<Call>)
    requires forall i :: 0 <= i < |calls| && calls[i].Done? ==> calls[i].accepted <= calls[i].incoming
    ensures var t := Total(limit, calls);
            0 <= t.accepted && 0 <= t.pending && t.accepted + t.pending <= t.offered <= t.begun
  {
    if calls != [] {
      TotalBounds(limit, calls[..|calls| - 1]);
    }
  }

  lemma {:induction false} PendingAtLeast(limit: nat, calls: seq<Call>, i: nat)
    requires forall k :: 0 <= k < |calls| && calls[k].Done? ==> calls[k].accepted <= calls[k].incoming
    requires i < |calls|
    ensures Weight(limit, calls[i]).pending <= Total(limit, calls).pending
  {
    TotalBounds(limit, calls[..|calls| - 1]);
    if i < |calls| - 1 {
      PendingAtLeast(limit, calls[..|calls| - 1], i);
    }
  }

  // ---------- the books ----------

  predicate CallOk(limit: nat, exceeded: bool, c: Call) {
    match c
    case Ready(_) => true
    case Added(n, previous) => Share(limit, n, previous) < n
    case Flagged(n, previous) => Share(limit, n, previous) < n && exceeded
    case Done(n, accepted) => accepted <= n && (accepted < n ==> exceeded)
  }

  predicate CallsOk(limit: nat, exceeded: bool, calls: seq<Call>) {
    forall i :: 0 <= i < |calls| ==> CallOk(limit, exceeded, calls[i])
  }

  /**
   The calls were granted exactly the offered bytes up to the limit, and the
   counter is, modulo 2^64, what was granted plus the overshoot still to be taken
   back.
   */
  predicate Books(q: Quota) {
    CallsOk(q.limit, q.exceeded, q.calls) && Balanced(q.limit, q.written, q.exceeded, Total(q.limit, q.calls))
  }

  predicate Balanced(limit: nat, written: nat, exceeded: bool, t: Totals) {
    && written == Wrap(t.accepted + t.pending)
    && t.accepted == Min(limit, t.offered)
    && (exceeded ==> t.offered > limit)
  }

  /** The counter reads as the true sum. */
  predicate Unwrapped(q: Quota) {
    var t := Total(q.limit, q.calls);
    t.accepted + t.pending <= U64_MAX
  }

  /** Adding to and subtracting from the wrapped counter is adding to and subtracting from the true sum. */
  lemma {:induction false} WrapMoves(x: int, d: int)
    ensures Wrap(Wrap(x) + d) == Wrap(x + d)
    decreases if x < 0 then U64_MAX + 1 - x else x
  {
    if x < 0 {
      WrapMoves(x + (U64_MAX + 1), d);
      WrapTurn(x + d);
    } else if x > U64_MAX {
      WrapMoves(x - (U64_MAX + 1), d);
      WrapTurn(x + d - (U64_MAX + 1));
    }
  }

  lemma WrapTurn(x: int)
    ensures Wrap(x + (U64_MAX + 1)) == Wrap(x)
  {
  }

  lemma ModuloTurn(x: int)
    ensures (x + (U64_MAX + 1)) % (U64_MAX + 1) == x % (U64_MAX + 1)
  {
  }

  /** Wrapping is reduction modulo 2^64. */
  lemma {:induction false} WrapIsModulo(x: int)
    ensures Wrap(x) == x % (U64_MAX + 1)
    decreases if x < 0 then U64_MAX + 1 - x else x
  {
    if x < 0 {
      WrapIsModulo(x + (U64_MAX + 1));
      ModuloTurn(x);
    } else if x > U64_MAX {
      WrapIsModulo(x - (U64_MAX + 1));
      ModuloTurn(x - (U64_MAX + 1));
    }
  }

  // ---------- each step keeps the books ----------

  /** The call an add of `n` bytes leaves behind when it returned `previous`. */
  function CallAfterAdd(limit: nat, n: nat, previous: nat): Call {
    if n == 0 then Done(0, 0) else if Share(limit, n, previous) == n then Done(n, n) else Added(n, previous)
  }

  predicate Sane(t: Totals) {
    0 <= t.accepted && 0 <= t.pending && t.accepted + t.pending <= t.offered
  }

  /** The totals after an add that read the true sum, or any add at limit zero: the rest of the limit is granted. */
  lemma AddGrantsTheRest(limit: nat, t: Totals, n: nat, previous: nat)
    requires Sane(t) && t.accepted == Min(limit, t.offered) && (previous == t.accepted + t.pending || limit == 0)
    ensures var w := Weight(limit, CallAfterAdd(limit, n, previous));
            && w.offered == n && w.accepted + w.pending == n
            && t.accepted + w.accepted == Min(limit, t.offered + n)
  {
  }

  lemma DoneOk(limit: nat, exceeded: bool, calls: seq<Call>, i: nat, c: Call)
    requires CallsOk(limit, exceeded, calls) && i < |calls| && CallOk(limit, exceeded, c)
    ensures CallsOk(limit, exceeded, calls[i := c])
  {
  }

  /** Putting any call in the place of one that has not added changes the totals by that call alone. */
  lemma ReadyTotals(limit: nat, calls: seq<Call>, i: nat, c: Call)
    requires i < |calls| && calls[i].Ready?
    ensures var t, u, w := Total(limit, calls), Total(limit, calls[i := c]), Weight(limit, c);
            u.offered == t.offered + w.offered && u.accepted == t.accepted + w.accepted
            && u.pending == t.pending + w.pending
  {
    TotalUpdate(limit, calls, i, c);
  }

  lemma CallsSane(limit: nat, exceeded: bool, calls: seq<Call>)
    requires CallsOk(limit, exceeded, calls)
    ensures Sane(Total(limit, calls))
  {
    TotalBounds(limit, calls);
  }

  /**
   An add that reads the true sum, or any add at limit zero, grants what is left of the limit and
   leaves the rest pending.
   */
  lemma AddTotals(q: Quota, i: nat)
    requires Books(q) && i < |q.calls| && q.calls[i].Ready? && (Unwrapped(q) || q.limit == 0)
    ensures var n := q.calls[i].incoming;
            var t, u := Total(q.limit, q.calls), Total(q.limit, q.calls[i := CallAfterAdd(q.limit, n, q.written)]);
            && u.offered == t.offered + n
            && u.accepted == Min(q.limit, u.offered) && u.accepted + u.pending == t.accepted + t.pending + n
  {
    var n := q.calls[i].incoming;
    ReadyTotals(q.limit, q.calls, i, CallAfterAdd(q.limit, n, q.written));
    CallsSane(q.limit, q.exceeded, q.calls);
    AddGrantsTheRest(q.limit, Total(q.limit, q.calls), n, q.written);
  }

  lemma AddIsPlain(q: Quota, i: nat)
    requires i < |q.calls| && q.calls[i].Ready? && q.written <= U64_MAX
    ensures var n := q.calls[i].incoming;
            AfterAdd(q, i) == q.(written := Wrap(q.written + n),
                                 calls := q.calls[i := CallAfterAdd(q.limit, n, q.written)])
  {
  }

  /** An add that reads the true sum keeps the books. */
  lemma AddKeepsBooks(q: Quota, i: nat)
    requires Books(q) && i < |q.calls| && q.calls[i].Ready? && (Unwrapped(q) || q.limit == 0)
    ensures Books(AfterAdd(q, i))
  {
    var n, t := q.calls[i].incoming, Total(q.limit, q.calls);
    AddTotals(q, i);
    AddIsPlain(q, i);
    WrapMoves(t.accepted + t.pending, n);
    DoneOk(q.limit, q.exceeded, q.calls, i, CallAfterAdd(q.limit, n, q.written));
  }

  /** An add leaves the counter reading as the true sum exactly when it does not wrap. */
  lemma AddStaysUnwrappedIff(q: Quota, i: nat)
    requires Books(q) && i < |q.calls| && q.calls[i].Ready? && Unwrapped(q)
    ensures Unwrapped(AfterAdd(q, i)) <==> q.written + q.calls[i].incoming <= U64_MAX
  {
    CallsSane(q.limit, q.exceeded, q.calls);
    AddTotals(q, i);
    AddIsPlain(q, i);
  }

  lemma FlagKeepsBooks(q: Quota, i: nat)
    requires Books(q) && i < |q.calls| && q.calls[i].Added?
    ensures Books(Next(q, Flag(i))) && Total(q.limit, Next(q, Flag(i)).calls) == Total(q.limit, q.calls)
  {
    var after := Next(q, Flag(i));
    TotalUpdate(q.limit, q.calls, i, after.calls[i]);
    TotalBounds(q.limit, q.calls);
    PendingAtLeast(q.limit, q.calls, i);
  }

  lemma SubtractKeepsBooks(q: Quota, i: nat)
    requires Books(q) && i < |q.calls| && q.calls[i].Flagged?
    ensures Books(Next(q, Subtract(i)))
  {
    var c, t := q.calls[i], Total(q.limit, q.calls);
    var share := Share(q.limit, c.incoming, c.previous);
    TotalUpdate(q.limit, q.calls, i, Done(c.incoming, share));
    WrapMoves(t.accepted + t.pending, -(c.incoming - share));
    DoneOk(q.limit, q.exceeded, q.calls, i, Done(c.incoming, share));
  }

  // ---------- bounded concurrency ----------

  /** Calls that have begun and not returned. */
  function Unfinished(calls: seq<Call>): nat {
    if calls == [] then 0 else Unfinished(calls[..|calls| - 1]) + if calls[|calls| - 1].Done? then 0 else 1
  }

  /** Every call offers at most `chunk` bytes, and at most `threads` calls are under way at any time. */
  predicate Bounded(limit: nat, chunk: nat, threads: nat, steps: seq<Step>) {
    && Unfinished(Run(limit, steps).calls) <= threads
    && (steps != [] ==>
          && Bounded(limit, chunk, threads, steps[..|steps| - 1])
          && (steps[|steps| - 1].Begin? ==> steps[|steps| - 1].incoming <= chunk))
  }

  /** All but one of the threads can be caught with a whole chunk pending without wrapping the counter. */
  predicate Roomy(limit: nat, chunk: nat, threads: nat) {
    limit == 0 || limit + (threads - 1) * chunk <= U64_MAX
  }

  /** `n` chunks as a sum. */
  function Chunks(n: nat, chunk: nat): nat {
    if n == 0 then 0 else Chunks(n - 1, chunk) + chunk
  }

  lemma {:induction false} ChunksMultiply(n: nat, chunk: nat)
    ensures Chunks(n, chunk) == n * chunk
  {
    if n > 0 {
      ChunksMultiply(n - 1, chunk);
      MulSuccessor(chunk, n - 1);
    }
  }

  lemma {:induction false} ChunksGrow(a: nat, b: nat, chunk: nat)
    requires a <= b
    ensures Chunks(a, chunk) <= Chunks(b, chunk)
  {
    if a < b {
      ChunksGrow(a, b - 1, chunk);
    }
  }

  predicate Chunked(chunk: nat, calls: seq<Call>) {
    forall i :: 0 <= i < |calls| ==> calls[i].incoming <= chunk
  }

  lemma {:induction false} BoundedIsChunked(limit: nat, chunk: nat, threads: nat, steps: seq<Step>)
    requires Bounded(limit, chunk, threads, steps)
    ensures Chunked(chunk, Run(limit, steps).calls)
  {
    if steps != [] {
      BoundedIsChunked(limit, chunk, threads, steps[..|steps| - 1]);
    }
  }

  lemma {:induction false} PendingFits(limit: nat, chunk: nat, calls: seq<Call>)
    requires Chunked(chunk, calls)
    ensures Total(limit, calls).pending <= Chunks(Unfinished(calls), chunk)
  {
    if calls != [] {
      PendingFits(limit, chunk, calls[..|calls| - 1]);
    }
  }

  /** A call that has not added yet has nothing pending. */
  lemma {:induction false} PendingOfOthers(limit: nat, chunk: nat, calls: seq<Call>, i: nat)
    requires Chunked(chunk, calls) && i < |calls| && calls[i].Ready?
    ensures Unfinished(calls) >= 1 && Total(limit, calls).pending <= Chunks(Unfinished(calls) - 1, chunk)
  {
    var front := calls[..|calls| - 1];
    if i < |front| {
      PendingOfOthers(limit, chunk, front, i);
    } else {
      PendingFits(limit, chunk, front);
    }
  }

  /** Whoever adds reads the true sum, because everything else under way fits below 2^64. */
  lemma AdderReadsTheSum(q: Quota, chunk: nat, threads: nat, i: nat)
    requires Books(q) && Chunked(chunk, q.calls) && Unfinished(q.calls) <= threads && Roomy(q.limit, chunk, threads)
    requires i < |q.calls| && q.calls[i].Ready?
    ensures Unwrapped(q) || q.limit == 0
  {
    PendingOfOthers(q.limit, chunk, q.calls, i);
    ChunksGrow(Unfinished(q.calls) - 1, threads - 1, chunk);
    ChunksMultiply(threads - 1, chunk);
  }

  lemma {:induction false} LimitIsFixed(limit: nat, steps: seq<Step>)
    ensures Run(limit, steps).limit == limit
  {
    if steps != [] {
      LimitIsFixed(limit, steps[..|steps| - 1]);
    }
  }

  lemma NextKeepsBooks(q: Quota, s: Step)
    requires Books(q) && (s.Add? && s.call < |q.calls| && q.calls[s.call].Ready? ==> Unwrapped(q) || q.limit == 0)
    ensures Books(Next(q, s))
  {
    match s
    case Begin(n) => assert Next(q, s).calls[..|q.calls|] == q.calls;
    case Add(i) => if i < |q.calls| && q.calls[i].Ready? { AddKeepsBooks(q, i); }
    case Flag(i) => if i < |q.calls| && q.calls[i].Added? { FlagKeepsBooks(q, i); }
    case Subtract(i) => if i < |q.calls| && q.calls[i].Flagged? { SubtractKeepsBooks(q, i); }
  }

  lemma {:induction false} RunKeepsBooks(limit: nat, chunk: nat, threads: nat, steps: seq<Step>)
    requires Bounded(limit, chunk, threads, steps) && Roomy(limit, chunk, threads)
    ensures Books(Run(limit, steps))
  {
    if steps != [] {
      var front, s := steps[..|steps| - 1], steps[|steps| - 1];
      var q := Run(limit, front);
      RunKeepsBooks(limit, chunk, threads, front);
      BoundedIsChunked(limit, chunk, threads, front);
      LimitIsFixed(limit, front);
      if s.Add? && s.call < |q.calls| && q.calls[s.call].Ready? {
        AdderReadsTheSum(q, chunk, threads, s.call);
      }
      NextKeepsBooks(q, s);
    }
  }

  // ---------- when every call has returned ----------

  predicate Settled(calls: seq<Call>) {
    forall i :: 0 <= i < |calls| ==> calls[i].Done?
  }

  lemma {:induction false} SettledTotals(limit: nat, calls: seq<Call>)
    requires Settled(calls)
    ensures Total(limit, calls).pending == 0
    ensures (forall i :: 0 <= i < |calls| ==> calls[i].accepted == calls[i].incoming) ==>
              Total(limit, calls).accepted == Total(limit, calls).offered
  {
    if calls != [] {
      SettledTotals(limit, calls[..|calls| - 1]);
    }
  }

  /**
   Whatever the interleaving of however many threads, the calls together accepted
   exactly the offered bytes up to the limit, the counter says so, and the flag
   tells whether more was offered.
   */
  lemma QuotaIsExact(limit: nat, chunk: nat, threads: nat, steps: seq<Step>)
    requires Bounded(limit, chunk, threads, steps) && Roomy(limit, chunk, threads) && limit <= U64_MAX
    requires Settled(Run(limit, steps).calls)
    ensures var q := Run(limit, steps);
            var t := Total(limit, q.calls);
            && t.accepted == Min(limit, t.offered)
            && q.written == t.accepted
            && (q.exceeded <==> t.offered > limit)
  {
    var q := Run(limit, steps);
    RunKeepsBooks(limit, chunk, threads, steps);
    LimitIsFixed(limit, steps);
    SettledTotals(limit, q.calls);
    TotalBounds(limit, q.calls);
  }

  /** The bytes granted so far. */
  function Granted(limit: nat, steps: seq<Step>): int {
    Total(limit, Run(limit, steps).calls).accepted
  }

  /** In the middle of any run the bytes already granted never exceed the limit. */
  lemma NeverOverLimit(limit: nat, chunk: nat, threads: nat, steps: seq<Step>)
    requires Bounded(limit, chunk, threads, steps) && Roomy(limit, chunk, threads)
    ensures Granted(limit, steps) <= limit
  {
    RunKeepsBooks(limit, chunk, threads, steps);
    LimitIsFixed(limit, steps);
  }

  /** The two drains of a process keep the quota exactly for every limit that leaves room for one buffer. */
  lemma DrainsAreExact(limit: nat, steps: seq<Step>)
    requires Bounded(limit, SPOOL_READ_BUFFER_BYTES, DRAIN_THREADS, steps) && limit + SPOOL_READ_BUFFER_BYTES <= U64_MAX
    requires Settled(Run(limit, steps).calls)
    ensures var q := Run(limit, steps);
            var t := Total(limit, q.calls);
            && t.accepted == Min(limit, t.offered) && q.written == t.accepted && (q.exceeded <==> t.offered > limit)
  {
    QuotaIsExact(limit, SPOOL_READ_BUFFER_BYTES, DRAIN_THREADS, steps);
  }

  // ---------- without that room the quota over-grants ----------

  lemma Then(limit: nat, chunk: nat, threads: nat, steps: seq<Step>, s: Step) returns (more: seq<Step>)
    requires Bounded(limit, chunk, threads, steps) && (s.Begin? ==> s.incoming <= chunk)
    requires Unfinished(Next(Run(limit, steps), s).calls) <= threads
    ensures Run(limit, more) == Next(Run(limit, steps), s) && Bounded(limit, chunk, threads, more)
  {
    more := steps + [s];
    assert more[..|steps|] == steps;
  }

  lemma UnfinishedMore(calls: seq<Call>, c: Call)
    ensures Unfinished(calls + [c]) == Unfinished(calls) + if c.Done? then 0 else 1
  {
    assert (calls + [c])[..|calls|] == calls;
  }

  lemma TotalMore(limit: nat, calls: seq<Call>, c: Call)
    ensures Total(limit, calls + [c]) == Plus(Total(limit, calls), Weight(limit, c))
  {
    assert (calls + [c])[..|calls|] == calls;
  }

  /** The state after one more call has begun and added on top of the calls so far. */
  function Topped(q: Quota, n: nat): Quota {
    q.(written := Wrap(q.written + n), calls := q.calls + [CallAfterAdd(q.limit, n, q.written)])
  }

  lemma AddOnTop(q: Quota, begun: Quota, n: nat)
    requires n > 0 && begun == q.(calls := q.calls + [Ready(n)])
    ensures Next(begun, Add(|q.calls|)) == Topped(q, n)
  {
    assert begun.calls[|q.calls|] == Ready(n);
    var c := CallAfterAdd(q.limit, n, q.written);
    assert begun.calls[|q.calls| := c] == q.calls + [c];
  }

  lemma BeginOne(limit: nat, chunk: nat, threads: nat, steps: seq<Step>, n: nat) returns (begun: seq<Step>)
    requires Bounded(limit, chunk, threads, steps) && n <= chunk
    requires Unfinished(Run(limit, steps).calls) + 1 <= threads
    ensures var q := Run(limit, steps);
            Bounded(limit, chunk, threads, begun) && Run(limit, begun) == q.(calls := q.calls + [Ready(n)])
  {
    UnfinishedMore(Run(limit, steps).calls, Ready(n));
    begun := Then(limit, chunk, threads, steps, Begin(n));
  }

  lemma AddOne(limit: nat, chunk: nat, threads: nat, begun: seq<Step>, q: Quota, n: nat) returns (more: seq<Step>)
    requires Bounded(limit, chunk, threads, begun) && n > 0 && Unfinished(q.calls) + 1 <= threads
    requires Run(limit, begun) == q.(calls := q.calls + [Ready(n)])
    ensures Bounded(limit, chunk, threads, more) && Run(limit, more) == Topped(q, n)
  {
    AddOnTop(q, Run(limit, begun), n);
    UnfinishedMore(q.calls, CallAfterAdd(q.limit, n, q.written));
    more := Then(limit, chunk, threads, begun, Add(|q.calls|));
  }

  lemma BeginAndAdd(limit: nat, chunk: nat, threads: nat, steps: seq<Step>, n: nat) returns (more: seq<Step>)
    requires Bounded(limit, chunk, threads, steps) && 1 <= n <= chunk
    requires Unfinished(Run(limit, steps).calls) + 1 <= threads
    ensures Bounded(limit, chunk, threads, more) && Run(limit, more) == Topped(Run(limit, steps), n)
  {
    var begun := BeginOne(limit, chunk, threads, steps, n);
    more := AddOne(limit, chunk, threads, begun, Run(limit, steps), n);
  }

  /** `full` bytes granted one by one, then `piled` whole chunks added on top and not yet taken back. */
  predicate Piled(q: Quota, limit: nat, chunk: nat, full: nat, piled: nat) {
    && q.limit == limit && q.written == full + Chunks(piled, chunk)
    && Unfinished(q.calls) == piled && Total(limit, q.calls).accepted == full
  }

  lemma GrantOne(q: Quota, after: Quota, limit: nat, chunk: nat, full: nat)
    requires Piled(q, limit, chunk, full, 0) && full < limit <= U64_MAX
    requires after == Topped(q, 1)
    ensures Piled(after, limit, chunk, full + 1, 0)
  {
    assert CallAfterAdd(q.limit, 1, q.written) == Done(1, 1);
    UnfinishedMore(q.calls, Done(1, 1));
    TotalMore(limit, q.calls, Done(1, 1));
  }

  lemma PileOne(q: Quota, after: Quota, limit: nat, chunk: nat, piled: nat)
    requires Piled(q, limit, chunk, limit, piled) && 1 <= chunk && limit + Chunks(piled + 1, chunk) <= U64_MAX
    requires after == Topped(q, chunk)
    ensures Piled(after, limit, chunk, limit, piled + 1)
  {
    assert CallAfterAdd(q.limit, chunk, q.written) == Added(chunk, q.written);
    UnfinishedMore(q.calls, Added(chunk, q.written));
    TotalMore(limit, q.calls, Added(chunk, q.written));
  }

  lemma {:induction false} FillUp(limit: nat, chunk: nat, threads: nat, full: nat) returns (steps: seq<Step>)
    requires full <= limit <= U64_MAX && 1 <= chunk && 1 <= threads
    ensures Bounded(limit, chunk, threads, steps) && Piled(Run(limit, steps), limit, chunk, full, 0)
  {
    if full == 0 {
      steps := [];
    } else {
      var fewer := FillUp(limit, chunk, threads, full - 1);
      steps := BeginAndAdd(limit, chunk, threads, fewer, 1);
      GrantOne(Run(limit, fewer), Run(limit, steps), limit, chunk, full - 1);
    }
  }

  lemma {:induction false} PileUp(limit: nat, chunk: nat, threads: nat, piled: nat) returns (steps: seq<Step>)
    requires 1 <= limit && 1 <= chunk && piled < threads && limit + Chunks(piled, chunk) <= U64_MAX
    ensures Bounded(limit, chunk, threads, steps) && Piled(Run(limit, steps), limit, chunk, limit, piled)
  {
    if piled == 0 {
      steps := FillUp(limit, chunk, threads, limit);
    } else {
      var fewer := PileUp(limit, chunk, threads, piled - 1);
      steps := BeginAndAdd(limit, chunk, threads, fewer, chunk);
      PileOne(Run(limit, fewer), Run(limit, steps), limit, chunk, piled - 1);
    }
  }

  /** The last pile that still fits below 2^64. */
  lemma {:induction false} LastFit(limit: nat, chunk: nat, m: nat) returns (j: nat)
    requires limit <= U64_MAX < limit + Chunks(m, chunk)
    ensures j < m && limit + Chunks(j, chunk) <= U64_MAX < limit + Chunks(j, chunk) + chunk
  {
    if limit + Chunks(m - 1, chunk) <= U64_MAX {
      j := m - 1;
    } else {
      j := LastFit(limit, chunk, m - 1);
    }
  }

  /** An add that wraps the counter to zero lets the next byte through although the limit is used up. */
  lemma GrantPastTheLimit(q: Quota, w: Quota, after: Quota, limit: nat, chunk: nat, piled: nat, gap: nat)
    requires Piled(q, limit, chunk, limit, piled) && 1 <= limit && gap > 0 && q.written + gap == U64_MAX + 1
    requires w == Topped(q, gap) && after == Topped(w, 1)
    ensures Unfinished(w.calls) == piled + 1 && Total(limit, after.calls).accepted == limit + 1
  {
    WrapTurn(0);
    assert w.written == 0;
    assert CallAfterAdd(q.limit, gap, q.written) == Added(gap, q.written);
    assert CallAfterAdd(w.limit, 1, 0) == Done(1, 1);
    UnfinishedMore(q.calls, Added(gap, q.written));
    TotalMore(limit, q.calls, Added(gap, q.written));
    TotalMore(limit, w.calls, Done(1, 1));
  }

  /** Piled chunks can wrap the counter to zero, and then one more byte is granted beyond the limit. */
  lemma OverGrants(limit: nat, chunk: nat, threads: nat) returns (steps: seq<Step>)
    requires limit <= U64_MAX && 1 <= threads && !Roomy(limit, chunk, threads)
    ensures Bounded(limit, chunk, threads, steps) && Granted(limit, steps) == limit + 1
  {
    ChunksMultiply(threads - 1, chunk);
    var j := LastFit(limit, chunk, threads - 1);
    var piled := PileUp(limit, chunk, threads, j);
    var q := Run(limit, piled);
    var gap := U64_MAX + 1 - q.written;
    var wrapped := BeginAndAdd(limit, chunk, threads, piled, gap);
    UnfinishedMore(q.calls, CallAfterAdd(q.limit, gap, q.written));
    steps := BeginAndAdd(limit, chunk, threads, wrapped, 1);
    GrantPastTheLimit(q, Run(limit, wrapped), Run(limit, steps), limit, chunk, j, gap);
  }

  /** The quota holds in every bounded run exactly when it has that room. */
  lemma QuotaHoldsIffRoomy(limit: nat, chunk: nat, threads: nat)
    requires limit <= U64_MAX && 1 <= threads
    ensures (forall steps :: Bounded(limit, chunk, threads, steps) ==> Granted(limit, steps) <= limit) <==>
            Roomy(limit, chunk, threads)
  {
    if Roomy(limit, chunk, threads) {
      forall steps | Bounded(limit, chunk, threads, steps) ensures Granted(limit, steps) <= limit {
        NeverOverLimit(limit, chunk, threads, steps);
      }
    } else {
      var steps := OverGrants(limit, chunk, threads);
    }
  }
}
