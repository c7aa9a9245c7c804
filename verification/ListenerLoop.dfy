/**
 The accept loop of the daemon: listener succession, bounded connection workers,
 reaping by swap-removal, and the report it returns. What the outside world does
 in each round is part of the input, so the loop runs over every script of rounds.
 */
module ListenerLoop {
  import opened Common

  const MAX_CONNECTION_WORKERS: nat := 31
  const PIPE_INSTANCES: nat := 32

  datatype JoinResult = Returned(requests: nat, failed: bool) | Unwound

  /** A connection thread together with what joining it will yield. */
  datatype Worker = Worker(id: nat, outcome: JoinResult)

  datatype Report = Report(accepted: nat, rejected: nat, completed: nat, failed: nat, requests: nat, detached: nat)

  const NO_REPORT := Report(0, 0, 0, 0, 0, 0)

  datatype Accepted = Connected(worker: Worker, spawned: bool) | Timeout | Rejected | Fatal

  /** One turn of the loop as the outside world plays it. */
  datatype Round = Round(shutdown: bool, finished: set<nat>, bound: bool, clockOk: bool, accepted: Accepted)

  datatype ServeError = ListenerUnavailable | InvalidConfiguration

  function SatU64(n: nat): nat {
    if n > U64_MAX then U64_MAX else n
  }

  // ---------- tallies over joined workers ----------

  function Completed(joined: seq<Worker>): nat {
    if joined == [] then 0
    else Completed(joined[..|joined| - 1]) + if joined[|joined| - 1].outcome.Returned? then 1 else 0
  }

  function Panicked(joined: seq<Worker>): nat {
    if joined == [] then 0
    else Panicked(joined[..|joined| - 1]) + if joined[|joined| - 1].outcome.Unwound? then 1 else 0
  }

  function Failed(joined: seq<Worker>): nat {
    if joined == [] then 0
    else Failed(joined[..|joined| - 1]) + Failures(joined[|joined| - 1].outcome)
  }

  function Failures(outcome: JoinResult): nat {
    if outcome == Unwound || outcome.failed then 1 else 0
  }

  function Requests(joined: seq<Worker>): nat {
    if joined == [] then 0
    else
      var outcome := joined[|joined| - 1].outcome;
      Requests(joined[..|joined| - 1]) + if outcome.Returned? then outcome.requests else 0
  }

  lemma {:induction false} JoinedSplit(joined: seq<Worker>)
    ensures |joined| == Completed(joined) + Panicked(joined)
  {
    if joined != [] {
      JoinedSplit(joined[..|joined| - 1]);
    }
  }

  /** The report counters are the saturated tallies of the joined workers. */
  predicate Tallied(r: Report, joined: seq<Worker>) {
    && r.completed == SatU64(Completed(joined))
    && r.failed == SatU64(Failed(joined))
    && r.requests == SatU64(Requests(joined))
  }

  // ---------- swap-removal ----------

  function SwapRemoved<T>(s: seq<T>, i: nat): seq<T>
    requires i < |s|
  {
    s[i := s[|s| - 1]][..|s| - 1]
  }

  lemma SwapRemovedKeeps<T>(s: seq<T>, i: nat)
    requires i < |s|
    ensures multiset(SwapRemoved(s, i)) + multiset{s[i]} == multiset(s)
  {
    var last := s[|s| - 1];
    assert s == s[..|s| - 1] + [last];
    var swapped := s[i := last];
    assert swapped == swapped[..|s| - 1] + [swapped[|s| - 1]];
    if i < |s| - 1 {
      assert multiset(swapped) == multiset(s) - multiset{s[i]} + multiset{last};
    }
  }

  /** The workers joined since `before` had all finished. */
  predicate JoinedFinished(before: seq<Worker>, after: seq<Worker>, finished: set<nat>) {
    before <= after && forall k :: |before| <= k < |after| ==> after[k].id in finished
  }

  /** What a pass of reaping from `index` on leaves of the workers. */
  function Reaped(workers: seq<Worker>, index: nat, finished: set<nat>): (left: seq<Worker>)
    requires index <= |workers|
    ensures |left| <= |workers|
    decreases |workers| - index
  {
    if index == |workers| then workers
    else if workers[index].id in finished then Reaped(SwapRemoved(workers, index), index, finished)
    else Reaped(workers, index + 1, finished)
  }

  /** Exactly unfinished workers are left, all of them from before. */
  lemma {:induction false} ReapedAreUnfinished(workers: seq<Worker>, index: nat, finished: set<nat>)
    requires index <= |workers| && forall k :: 0 <= k < index ==> workers[k].id !in finished
    ensures var left := Reaped(workers, index, finished);
            forall w :: w in left ==> w in workers && w.id !in finished
    decreases |workers| - index
  {
    if index < |workers| {
      if workers[index].id in finished {
        var rest := SwapRemoved(workers, index);
        ReapedAreUnfinished(rest, index, finished);
        assert forall w :: w in rest ==> w in workers;
      } else {
        ReapedAreUnfinished(workers, index + 1, finished);
      }
    }
  }

  // ---------- the pipe instances a script goes through ----------

  /** Live listeners, and connections being served or about to be. */
  datatype Instances = Instances(listeners: nat, connected: nat)

  predicate Sound(i: Instances) {
    i.listeners >= 1 && i.listeners + i.connected <= PIPE_INSTANCES
  }

  /** Joining workers one by one. */
  function ReapTrace(listeners: nat, from: nat, to: nat): seq<Instances>
    requires to <= from
    decreases from
  {
    if to == from then [] else [Instances(listeners, from - 1)] + ReapTrace(listeners, from - 1, to)
  }

  /** One bind-then-accept turn with `n` workers: the successor exists before the listener is consumed. */
  function TurnTrace(n: nat, round: Round): seq<Instances> {
    if !round.bound then []
    else [Instances(2, n)] + if round.clockOk then AcceptTrace(n, round.accepted) else []
  }

  function AcceptTrace(n: nat, accepted: Accepted): seq<Instances> {
    match accepted
    case Connected(_, spawned) => [Instances(1, n + 1), Instances(1, if spawned then n + 1 else n)]
    case _ => [Instances(1, n)]
  }

  function AcceptError(accepted: Accepted): Option<ServeError> {
    if accepted.Fatal? || (accepted.Connected? && !accepted.spawned) then Some(ListenerUnavailable) else None
  }

  /** The connections one accept hands to a worker. */
  function Taken(accepted: Accepted): seq<Worker> {
    if accepted.Connected? && accepted.spawned then [accepted.worker] else []
  }

  /** The accept, if it counts as a rejected connection. */
  function Turned(accepted: Accepted): seq<Accepted> {
    if accepted.Rejected? then [accepted] else []
  }

  predicate Accepts(round: Round) {
    round.bound && round.clockOk
  }

  function TurnError(round: Round): Option<ServeError> {
    if !round.bound then Some(ListenerUnavailable)
    else if !round.clockOk then Some(InvalidConfiguration)
    else AcceptError(round.accepted)
  }

  function TurnTaken(round: Round): seq<Worker> {
    if Accepts(round) then Taken(round.accepted) else []
  }

  function TurnRejected(round: Round): seq<Accepted> {
    if Accepts(round) then Turned(round.accepted) else []
  }

  /**
   What serving comes to: every change of the pipe instances, the connections
   taken over and the accepts that were rejected, in order, and the error that ends
   it, if any.
   */
  datatype Progress =
    Progress(trace: seq<Instances>, taken: seq<Worker>, rejected: seq<Accepted>, error: Option<ServeError>)

  const NO_PROGRESS := Progress([], [], [], None)

  function Then(a: Progress, b: Progress): Progress {
    Progress(a.trace + b.trace, a.taken + b.taken, a.rejected + b.rejected, b.error)
  }

  /** Goes on with `b` unless `a` ended in an error. */
  function Unless(a: Progress, b: Progress): Progress {
    if a.error.Some? then a else Then(a, b)
  }

  lemma FromNothing(p: Progress)
    ensures Unless(NO_PROGRESS, p) == p
  {
  }

  lemma ThenAssociates(a: Progress, b: Progress, c: Progress)
    ensures Then(Then(a, b), c) == Then(a, Then(b, c))
  {
    assert a.trace + b.trace + c.trace == a.trace + (b.trace + c.trace);
    assert a.taken + b.taken + c.taken == a.taken + (b.taken + c.taken);
    assert a.rejected + b.rejected + c.rejected == a.rejected + (b.rejected + c.rejected);
  }

  function TurnProgress(n: nat, round: Round): Progress {
    Progress(TurnTrace(n, round), TurnTaken(round), TurnRejected(round), TurnError(round))
  }

  /** One round: reaping, and a turn unless every place is taken. */
  function RoundProgress(maximum: nat, workers: seq<Worker>, round: Round): Progress {
    var left := |Reaped(workers, 0, round.finished)|;
    Then(Progress(ReapTrace(1, |workers|, left), [], [], None),
         if left >= maximum then NO_PROGRESS else TurnProgress(left, round))
  }

  function RoundWorkers(maximum: nat, workers: seq<Worker>, round: Round): seq<Worker> {
    Reaped(workers, 0, round.finished) + RoundProgress(maximum, workers, round).taken
  }

  /** The whole script until a shutdown request, an error or its end. */
  function ScriptProgress(maximum: nat, workers: seq<Worker>, script: seq<Round>): Progress
    decreases script
  {
    if script == [] || script[0].shutdown then NO_PROGRESS
    else
      Unless(RoundProgress(maximum, workers, script[0]),
             ScriptProgress(maximum, RoundWorkers(maximum, workers, script[0]), script[1..]))
  }

  predicate AllSound(trace: seq<Instances>) {
    forall i :: 0 <= i < |trace| ==> Sound(trace[i])
  }

  lemma {:induction false} ReapTraceSound(from: nat, to: nat)
    requires to <= from <= MAX_CONNECTION_WORKERS
    ensures AllSound(ReapTrace(1, from, to))
    decreases from
  {
    if to < from {
      ReapTraceSound(from - 1, to);
    }
  }

  lemma SoundUnless(a: Progress, b: Progress)
    requires AllSound(a.trace) && AllSound(b.trace)
    ensures AllSound(Unless(a, b).trace)
  {
  }

  lemma RoundTraceSound(maximum: nat, workers: seq<Worker>, round: Round)
    requires |workers| <= maximum <= MAX_CONNECTION_WORKERS
    ensures AllSound(RoundProgress(maximum, workers, round).trace)
    ensures |RoundWorkers(maximum, workers, round)| <= maximum
  {
    var left := |Reaped(workers, 0, round.finished)|;
    ReapTraceSound(|workers|, left);
    if left < maximum {
      assert AllSound(TurnTrace(left, round));
    }
  }

  /** Nothing is left of a script at its end, after an error, or at a shutdown request. */
  lemma ScriptEnd(maximum: nat, workers: seq<Worker>, script: seq<Round>, i: nat, done: Progress)
    requires i <= |script| && (done.error.Some? || i == |script| || script[i].shutdown)
    ensures Unless(done, ScriptProgress(maximum, workers, script[i..])) == done
  {
    assert ScriptProgress(maximum, workers, script[i..]) == NO_PROGRESS || done.error.Some?;
  }

  /** What is left of a script at `i` is its round and what is left after it. */
  lemma ScriptStep(maximum: nat, workers: seq<Worker>, script: seq<Round>, i: nat, done: Progress)
    requires i < |script| && !script[i].shutdown
    ensures var round := RoundProgress(maximum, workers, script[i]);
            var rest := ScriptProgress(maximum, RoundWorkers(maximum, workers, script[i]), script[i + 1..]);
            Then(done, ScriptProgress(maximum, workers, script[i..])) == Unless(Then(done, round), rest)
  {
    var rest, round := script[i..], RoundProgress(maximum, workers, script[i]);
    assert rest[0] == script[i] && rest[1..] == script[i + 1..];
    ThenAssociates(done, round, ScriptProgress(maximum, RoundWorkers(maximum, workers, script[i]), script[i + 1..]));
  }

  /** A live listener at every moment of serving, and never more than the pipe's instances. */
  lemma {:induction false} ScriptTraceSound(maximum: nat, workers: seq<Worker>, script: seq<Round>)
    requires |workers| <= maximum <= MAX_CONNECTION_WORKERS
    ensures AllSound(ScriptProgress(maximum, workers, script).trace)
    decreases script
  {
    if script != [] && !script[0].shutdown {
      var round, after := RoundProgress(maximum, workers, script[0]), RoundWorkers(maximum, workers, script[0]);
      RoundTraceSound(maximum, workers, script[0]);
      ScriptTraceSound(maximum, after, script[1..]);
      SoundUnless(round, ScriptProgress(maximum, after, script[1..]));
    }
  }

  // ---------- the server ----------

  function Times(w: Worker, s: seq<Worker>): nat {
    multiset(s)[w]
  }

  /** Every accepted connection is still served, joined or detached, exactly once. */
  ghost predicate Accounted(accepted: seq<Worker>, workers: seq<Worker>, joined: seq<Worker>, detached: seq<Worker>) {
    forall w :: Times(w, accepted) == Times(w, workers) + Times(w, joined) + Times(w, detached)
  }

  lemma TimesMore(x: Worker, s: seq<Worker>, w: Worker)
    ensures Times(x, s + [w]) == Times(x, s) + if x == w then 1 else 0
  {
  }

  lemma AccountedAccept(accepted: seq<Worker>, workers: seq<Worker>, joined: seq<Worker>, detached: seq<Worker>,
                        w: Worker)
    requires Accounted(accepted, workers, joined, detached)
    ensures Accounted(accepted + [w], workers + [w], joined, detached)
  {
    forall x ensures Times(x, accepted + [w]) == Times(x, workers + [w]) + Times(x, joined) + Times(x, detached) {
      TimesMore(x, accepted, w);
      TimesMore(x, workers, w);
    }
  }

  lemma TimesRemoved(x: Worker, s: seq<Worker>, i: nat)
    requires i < |s|
    ensures Times(x, s) == Times(x, SwapRemoved(s, i)) + if x == s[i] then 1 else 0
  {
    SwapRemovedKeeps(s, i);
  }

  lemma AccountedJoin(accepted: seq<Worker>, workers: seq<Worker>, joined: seq<Worker>, detached: seq<Worker>, i: nat)
    requires Accounted(accepted, workers, joined, detached) && i < |workers|
    ensures Accounted(accepted, SwapRemoved(workers, i), joined + [workers[i]], detached)
  {
    var left, more := SwapRemoved(workers, i), joined + [workers[i]];
    forall x ensures Times(x, accepted) == Times(x, left) + Times(x, more) + Times(x, detached) {
      TimesRemoved(x, workers, i);
      TimesMore(x, joined, workers[i]);
    }
  }

  lemma AccountedSize(accepted: seq<Worker>, workers: seq<Worker>, joined: seq<Worker>, detached: seq<Worker>)
    requires Accounted(accepted, workers, joined, detached)
    ensures |accepted| == |workers| + |joined| + |detached|
  {
    var all := multiset(workers) + multiset(joined) + multiset(detached);
    forall w ensures multiset(accepted)[w] == all[w] {
      assert Times(w, accepted) == Times(w, workers) + Times(w, joined) + Times(w, detached);
    }
    assert multiset(accepted) == all;
  }

  class Server {
    const maximum: nat
    var listeners: nat
    /** An accepted connection that is not a worker yet. */
    var incoming: Option<Worker>
    var workers: seq<Worker>
    var report: Report
    ghost var accepted: seq<Worker>
    ghost var joined: seq<Worker>
    ghost var detached: seq<Worker>
    /** The accepts that turned a connection away. */
    ghost var turned: seq<Accepted>
    /** The pipe instances after every change of listeners, incoming connection or workers. */
    ghost var trace: seq<Instances>

    ghost predicate Kept()
      reads this
    {
      Accounted(accepted, workers, joined, detached) && Tallied(report, joined)
    }

    ghost predicate Valid()
      reads this
    {
      && 1 <= maximum <= MAX_CONNECTION_WORKERS
      && |workers| <= maximum
      && Kept()
      && report.accepted == SatU64(|accepted|)
      && report.rejected == SatU64(|turned|)
    }

    ghost predicate Serving()
      reads this
    {
      Valid() && listeners == 1 && incoming.None? && detached == [] && report.detached == 0
    }

    ghost function Here(): Instances
      reads this
    {
      Instances(listeners, |workers| + if incoming.Some? then 1 else 0)
    }

    constructor (maximum: nat)
      requires 1 <= maximum <= MAX_CONNECTION_WORKERS
      ensures Serving() && this.maximum == maximum && workers == accepted == joined == [] && report == NO_REPORT
      ensures trace == [Instances(1, 0)] && turned == []
    {
      this.maximum := maximum;
      listeners, incoming, workers, report := 1, None, [], NO_REPORT;
      accepted, joined, detached, turned := [], [], [], [];
      trace := [Instances(1, 0)];
    }

    method FoldWorker(w: Worker)
      requires Tallied(report, joined)
      modifies this`report, this`joined
      ensures joined == old(joined) + [w] && Tallied(report, joined)
      ensures report.accepted == old(report).accepted && report.rejected == old(report).rejected
      ensures report.detached == old(report).detached
    {
      assert (joined + [w])[..|joined|] == joined;
      match w.outcome {
        case Returned(requests, failed) =>
          report := report.(completed := SatU64(report.completed + 1), requests := SatU64(report.requests + requests));
          if failed {
            report := report.(failed := SatU64(report.failed + 1));
          }
        case Unwound =>
          report := report.(failed := SatU64(report.failed + 1));
      }
      joined := joined + [w];
    }

    /** Takes one worker out by swap-removal and joins it. */
    method JoinAt(index: nat)
      requires Kept() && index < |workers|
      modifies this`workers, this`report, this`joined, this`trace
      ensures Kept()
      ensures workers == SwapRemoved(old(workers), index) && joined == old(joined) + [old(workers)[index]]
      ensures report.accepted == old(report).accepted && report.rejected == old(report).rejected
      ensures report.detached == old(report).detached
      ensures trace == old(trace) + [Here()]
    {
      var w := workers[index];
      AccountedJoin(accepted, workers, joined, detached, index);
      workers := SwapRemoved(workers, index);
      trace := trace + [Here()];
      FoldWorker(w);
    }

    /** Joins exactly the workers that have finished, although removal reorders the rest. */
    method ReapFinishedWorkers(finished: set<nat>)
      requires Kept() && incoming.None?
      modifies this`workers, this`report, this`joined, this`trace
      ensures Kept()
      ensures workers == Reaped(old(workers), 0, finished)
      ensures forall w :: w in workers ==> w in old(workers) && w.id !in finished
      ensures JoinedFinished(old(joined), joined, finished)
      ensures report.accepted == old(report).accepted && report.rejected == old(report).rejected
      ensures report.detached == old(report).detached
      ensures trace == old(trace) + ReapTrace(listeners, |old(workers)|, |workers|)
    {
      ReapedAreUnfinished(workers, 0, finished);
      var index := 0;
      while index < |workers|
        invariant 0 <= index <= |workers| <= |old(workers)|
        invariant Kept()
        invariant Reaped(workers, index, finished) == Reaped(old(workers), 0, finished)
        invariant JoinedFinished(old(joined), joined, finished)
        invariant report.accepted == old(report).accepted && report.rejected == old(report).rejected
        invariant report.detached == old(report).detached
        invariant trace == old(trace) + ReapTrace(listeners, |old(workers)|, |workers|)
        decreases |workers| - index
      {
        ReapTraceMore(listeners, |old(workers)|, |workers|);
        TraceStep(old(trace), ReapTrace(listeners, |old(workers)|, |workers|), [Instances(listeners, |workers| - 1)]);
        if workers[index].id in finished {
          ReapAt(index, finished);
        } else {
          index := index + 1;
        }
      }
    }

    /** Joins the finished worker at `index`; whoever takes its place is looked at next. */
    method ReapAt(index: nat, finished: set<nat>)
      requires Kept() && incoming.None?
      requires index < |workers| && workers[index].id in finished
      modifies this`workers, this`report, this`joined, this`trace
      ensures Kept()
      ensures |workers| == |old(workers)| - 1 && index <= |workers|
      ensures Reaped(workers, index, finished) == Reaped(old(workers), index, finished)
      ensures forall before :: JoinedFinished(before, old(joined), finished)
                     ==> JoinedFinished(before, joined, finished)
      ensures report.accepted == old(report).accepted && report.rejected == old(report).rejected
      ensures report.detached == old(report).detached
      ensures trace == old(trace) + [Instances(listeners, |workers|)]
    {
      JoinAt(index);
    }

    /**
     Waits for the remaining workers; `rounds` is what has finished at each poll
     before the grace deadline, after which the rest are detached and counted.
     */
    method FinishWorkers(rounds: seq<set<nat>>)
      requires Valid() && detached == [] && report.detached == 0 && listeners == 0 && incoming.None?
      modifies this`workers, this`report, this`joined, this`detached, this`trace
      ensures Valid() && workers == []
      ensures report.detached == |detached| <= maximum
      ensures report.rejected == old(report).rejected
      ensures old(trace) <= trace && forall i :: |old(trace)| <= i < |trace| ==> trace[i].listeners == 0
    {
      var i := 0;
      while true
        invariant Valid() && detached == [] && report.detached == 0 && i <= |rounds|
        invariant report.rejected == old(report).rejected
        invariant old(trace) <= trace && forall i :: |old(trace)| <= i < |trace| ==> trace[i].listeners == 0
        decreases |rounds| - i
      {
        ghost var before := |workers|;
        ReapFinishedWorkers(if i < |rounds| then rounds[i] else {});
        ReapTraceListeners(0, before, |workers|);
        if workers == [] {
          return;
        }
        if i == |rounds| {
          report := report.(detached := |workers|);
          detached := workers;
          workers := [];
          return;
        }
        i := i + 1;
      }
    }

    /** Drops every listener and any connection not handed to a worker, and finishes. */
    method Close(rounds: seq<set<nat>>)
      requires Valid() && detached == [] && report.detached == 0
      modifies this
      ensures Valid() && workers == [] && listeners == 0
      ensures report.detached == |detached| <= maximum
      ensures turned == old(turned) && accepted == old(accepted)
      ensures old(trace) <= trace && forall i :: |old(trace)| <= i < |trace| ==> trace[i].listeners == 0
    {
      listeners, incoming := 0, None;
      FinishWorkers(rounds);
    }

    /** Binds one more listener. */
    method Bind()
      modifies this`listeners, this`trace
      ensures old(Valid()) ==> Valid()
      ensures listeners == old(listeners) + 1 && trace == old(trace) + [Here()]
    {
      listeners := listeners + 1;
      trace := trace + [Here()];
    }

    /** `accept` consumes one listener and may turn it into a connection. */
    method Consume(outcome: Accepted)
      requires listeners >= 1
      modifies this`listeners, this`incoming, this`trace
      ensures old(Valid()) ==> Valid()
      ensures listeners == old(listeners) - 1
      ensures incoming == if outcome.Connected? then Some(outcome.worker) else None
      ensures trace == old(trace) + [Here()]
    {
      listeners := listeners - 1;
      incoming := if outcome.Connected? then Some(outcome.worker) else None;
      trace := trace + [Here()];
    }

    /** Hands the incoming connection to a worker; a failed spawn drops it. */
    method Start(spawned: bool)
      requires Valid() && listeners == 1 && incoming.Some? && detached == []
      requires report.detached == 0 && |workers| < maximum
      modifies this`incoming, this`report, this`workers, this`accepted, this`trace
      ensures Serving() && trace == old(trace) + [Instances(1, |workers|)]
      ensures workers == old(workers) + Taken(Connected(old(incoming).value, spawned))
      ensures accepted == old(accepted) + Taken(Connected(old(incoming).value, spawned))
    {
      if spawned {
        Enlist(incoming.value);
      }
      incoming := None;
      trace := trace + [Here()];
    }

    method Enlist(w: Worker)
      requires Valid() && |workers| < maximum
      modifies this`report, this`workers, this`accepted
      ensures Valid() && workers == old(workers) + [w] && accepted == old(accepted) + [w]
      ensures report == old(report).(accepted := report.accepted)
    {
      AccountedAccept(accepted, workers, joined, detached, w);
      report := report.(accepted := SatU64(report.accepted + 1));
      workers := workers + [w];
      accepted := accepted + [w];
    }

    /**
     One bind-then-accept turn. An error means the loop has to give up, and its
     report is discarded.
     */
    method AcceptOnce(round: Round) returns (e: Option<ServeError>)
      requires Serving() && |workers| < maximum
      modifies this
      ensures Valid() && detached == [] && report.detached == 0
      ensures e == TurnError(round) && (e.None? ==> Serving())
      ensures workers == old(workers) + TurnTaken(round) && accepted == old(accepted) + TurnTaken(round)
      ensures turned == old(turned) + TurnRejected(round)
      ensures trace == old(trace) + TurnTrace(|old(workers)|, round)
    {
      if !round.bound {
        return Some(ListenerUnavailable);
      }
      Bind();
      if !round.clockOk {
        return Some(InvalidConfiguration);
      }
      e := TakeOver(round.accepted);
    }

    /** The accept itself, once the successor is bound. */
    method TakeOver(outcome: Accepted) returns (e: Option<ServeError>)
      requires Valid() && listeners == 2 && incoming.None? && detached == []
      requires report.detached == 0 && |workers| < maximum
      modifies this
      ensures Serving()
      ensures e == AcceptError(outcome)
      ensures workers == old(workers) + Taken(outcome) && accepted == old(accepted) + Taken(outcome)
      ensures turned == old(turned) + Turned(outcome)
      ensures trace == old(trace) + AcceptTrace(|old(workers)|, outcome)
    {
      Consume(outcome);
      e := Handle(outcome);
    }

    /** What becomes of the outcome of an accept. */
    method Handle(outcome: Accepted) returns (e: Option<ServeError>)
      requires Valid() && listeners == 1 && detached == [] && report.detached == 0 && |workers| < maximum
      requires incoming == if outcome.Connected? then Some(outcome.worker) else None
      modifies this
      ensures Serving()
      ensures e == AcceptError(outcome)
      ensures workers == old(workers) + Taken(outcome) && accepted == old(accepted) + Taken(outcome)
      ensures turned == old(turned) + Turned(outcome)
      ensures trace == old(trace) + if outcome.Connected? then [Instances(1, |workers|)] else []
    {
      match outcome
      case Connected(_, spawned) =>
        Start(spawned);
        return if spawned then None else Some(ListenerUnavailable);
      case Timeout => return None;
      case Rejected =>
        Reject();
        return None;
      case Fatal => return Some(ListenerUnavailable);
    }

    method Reject()
      requires Serving()
      modifies this`report, this`turned
      ensures Serving() && report == old(report).(rejected := report.rejected) && turned == old(turned) + [Rejected]
    {
      report := report.(rejected := SatU64(report.rejected + 1));
      turned := turned + [Rejected];
    }

    /** One round of the loop. */
    method ServeRound(round: Round) returns (e: Option<ServeError>)
      requires Serving()
      modifies this
      ensures Valid() && detached == [] && report.detached == 0 && (e.None? ==> Serving())
      ensures workers == RoundWorkers(maximum, old(workers), round)
      ensures var p := RoundProgress(maximum, old(workers), round);
              Advanced(old(trace), old(accepted), old(turned), p) && e == p.error
    {
      ReapFinishedWorkers(round.finished);
      if |workers| >= maximum {
        return None;
      }
      ghost var reaped := trace;
      e := AcceptOnce(round);
      TraceStep(old(trace), reaped[|old(trace)|..], TurnTrace(|Reaped(old(workers), 0, round.finished)|, round));
    }

    /** The server has come this far from the given trace, accepted connections and rejections. */
    ghost predicate Advanced(before: seq<Instances>, taken: seq<Worker>, rejected: seq<Accepted>, p: Progress)
      reads this
    {
      && trace == before + p.trace
      && accepted == taken + p.taken
      && turned == rejected + p.rejected
    }

    /**
     The accept loop. It goes through exactly the changes of the script, all of
     them with a live listener and within the pipe's instances, takes over and
     rejects exactly the script's connections, and fails exactly when the script
     does; the report accounts for every accepted connection.
     */
    method ServeListener(script: seq<Round>, grace: seq<set<nat>>) returns (r: Result<Report, ServeError>)
      requires Serving()
      modifies this
      ensures Valid() && workers == [] && listeners == 0
      ensures var served := ScriptProgress(maximum, old(workers), script);
              && AllSound(served.trace) && old(trace) + served.trace <= trace
              && (forall i :: |old(trace)| + |served.trace| <= i < |trace| ==> trace[i].listeners == 0)
              && accepted == old(accepted) + served.taken
              && turned == old(turned) + served.rejected && report.rejected == SatU64(|turned|)
              && r == match served.error case None => Ok(report) case Some(e) => Err(e)
      ensures |accepted| == Completed(joined) + Panicked(joined) + |detached|
      ensures |accepted| <= U64_MAX ==> report.accepted == report.completed + Panicked(joined) + report.detached
    {
      ScriptTraceSound(maximum, workers, script);
      var e := ServeScript(script);
      Close(grace);
      JoinedSplit(joined);
      AccountedSize(accepted, workers, joined, detached);
      r := if e.None? then Ok(report) else Err(e.value);
    }

    /** One round on top of the progress so far. */
    method ServeNext(round: Round, ghost before: seq<Instances>, ghost taken: seq<Worker>,
                     ghost rejected: seq<Accepted>, ghost done: Progress)
      returns (e: Option<ServeError>, ghost more: Progress)
      requires Serving() && Advanced(before, taken, rejected, done)
      modifies this
      ensures Valid() && detached == [] && report.detached == 0 && (e.None? ==> Serving())
      ensures workers == RoundWorkers(maximum, old(workers), round)
      ensures more == Then(done, RoundProgress(maximum, old(workers), round)) && e == more.error
      ensures Advanced(before, taken, rejected, more)
    {
      more := Then(done, RoundProgress(maximum, workers, round));
      AdvanceStep(before, taken, rejected, done, RoundProgress(maximum, workers, round));
      e := ServeRound(round);
    }

    /** The loop itself, before the listener is dropped. */
    method ServeScript(script: seq<Round>) returns (e: Option<ServeError>)
      requires Serving()
      modifies this
      ensures Valid() && detached == [] && report.detached == 0
      ensures var served := ScriptProgress(maximum, old(workers), script);
              Advanced(old(trace), old(accepted), old(turned), served) && e == served.error
    {
      ghost var served, done := ScriptProgress(maximum, workers, script), NO_PROGRESS;
      var i := 0;
      e := None;
      assert script[0..] == script;
      FromNothing(served);
      while e.None? && i < |script| && !script[i].shutdown
        invariant 0 <= i <= |script|
        invariant Valid() && detached == [] && report.detached == 0
        invariant e.None? ==> Serving()
        invariant Advanced(old(trace), old(accepted), old(turned), done) && e == done.error
        invariant served == Unless(done, ScriptProgress(maximum, workers, script[i..]))
        decreases |script| - i
      {
        ScriptStep(maximum, workers, script, i, done);
        e, done := ServeNext(script[i], old(trace), old(accepted), old(turned), done);
        i := i + 1;
      }
      ScriptEnd(maximum, workers, script, i, done);
    }
  }

  lemma AdvanceStep(before: seq<Instances>, taken: seq<Worker>, turned: seq<Accepted>, done: Progress, round: Progress)
    ensures before + done.trace + round.trace == before + Then(done, round).trace
    ensures taken + done.taken + round.taken == taken + Then(done, round).taken
    ensures turned + done.rejected + round.rejected == turned + Then(done, round).rejected
  {
  }

  lemma {:induction false} ReapTraceMore(listeners: nat, from: nat, to: nat)
    requires 0 < to <= from
    ensures ReapTrace(listeners, from, to - 1) == ReapTrace(listeners, from, to) + [Instances(listeners, to - 1)]
    decreases from
  {
    if to < from {
      ReapTraceMore(listeners, from - 1, to);
    }
  }

  lemma {:induction false} ReapTraceListeners(listeners: nat, from: nat, to: nat)
    requires to <= from
    ensures forall i :: 0 <= i < |ReapTrace(listeners, from, to)| ==>
              ReapTrace(listeners, from, to)[i].listeners == listeners
    decreases from
  {
    if to < from {
      ReapTraceListeners(listeners, from - 1, to);
    }
  }

  lemma TraceStep(before: seq<Instances>, round: seq<Instances>, rest: seq<Instances>)
    ensures before + (round + rest) == before + round + rest
  {
  }
}
