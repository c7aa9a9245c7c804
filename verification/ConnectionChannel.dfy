/**
 When a send can block: never in a run whose routing and health results are all
 responses, and for every in-flight maximum in some run with one failed result.
 */
module ConnectionChannel {
  import opened Common
  import opened ConnectionProtocol
  import opened ConnectionInvariant
  import opened ConnectionRuns

  // ---------- runs without failed results ----------

  /** The action produces an error instead of a response. */
  predicate FailsToAnswer(a: Action) {
    (a.RouteReturns? && !a.ok) || (a.AnswerHealth? && !a.ok)
  }

  /** Every routing and health result of the connection is a response. */
  predicate AlwaysAnswers(events: seq<Event>, id: ConnId) {
    forall i :: 0 <= i < |events| ==> events[i].Act? && events[i].conn == id ==> !FailsToAnswer(events[i].action)
  }

  /** What is being sent or queued is a response. */
  predicate CarriesResponse(p: Place) {
    match p
    case HealthSending(ok) => ok
    case Sending(ok) => ok
    case Queued(_, ok) => ok
    case _ => true
  }

  predicate AllResponses(place: map<Token, Place>) {
    forall t :: t in place ==> CarriesResponse(place[t])
  }

  lemma ReaderCarries(sh: Shared, me: ConnId, c: Conn, a: Action)
    requires PcTokensKnown(c) && ReaderAction(a) && AllResponses(c.place) && !FailsToAnswer(a)
    ensures AllResponses(AfterReader(sh, c, a).place)
  {
    ReaderPlaces(sh, c, a);
    var move := ReaderMove(sh, c, a);
    assert move.Some? ==> CarriesResponse(move.value.1);
  }

  lemma WorkerCarries(sh: Shared, me: ConnId, c: Conn, a: Action)
    requires WorkerAction(a) && Enabled(sh, me, c, a) && AllResponses(c.place) && !FailsToAnswer(a)
    ensures AllResponses(AfterWorker(c, a).place)
  {
    WorkerMoves(sh, me, c, a);
    assert CarriesResponse(WorkerMove(c, a).value.1);
  }

  lemma WriterCarries(sh: Shared, me: ConnId, c: Conn, a: Action)
    requires PcTokensKnown(c) && ChannelKnown(c) && WriterOk(c.writer, c.place)
    requires ChannelOk(c.sent, c.received, c.place)
    requires WriterAction(a) && Enabled(sh, me, c, a) && AllResponses(c.place)
    ensures AllResponses(AfterWriter(c, a).place)
  {
    WriterMoves(sh, me, c, a);
    assert WriterMove(c, a).Some? ==> CarriesResponse(WriterMove(c, a).value.1);
  }

  lemma ActCarries(sh: Shared, me: ConnId, c: Conn, a: Action)
    requires Inv(c) && Enabled(sh, me, c, a) && AllResponses(c.place) && !FailsToAnswer(a)
    ensures PcTokensKnown(c) && ChannelKnown(c) && AllResponses(After(sh, c, a).place)
  {
    InvKnowsTokens(c);
    if ReaderAction(a) {
      ReaderCarries(sh, me, c, a);
    } else if WorkerAction(a) {
      WorkerCarries(sh, me, c, a);
    } else {
      WriterCarries(sh, me, c, a);
    }
  }

  lemma NextCarries(s: System, e: Event, id: ConnId)
    requires (id in s.conns ==> Inv(s.conns[id]) && AllResponses(s.conns[id].place)) && Possible(s, e)
    requires e.Act? && e.conn == id ==> !FailsToAnswer(e.action)
    ensures id in Next(s, e).conns ==> AllResponses(Next(s, e).conns[id].place)
  {
    if e.Act? && e.conn == id {
      ActCarries(s.shared, id, s.conns[id], e.action);
    }
  }

  lemma {:induction false} RunCarries(events: seq<Event>, id: ConnId)
    requires Feasible(events) && AlwaysAnswers(events, id)
    ensures id in StateAfter(events).conns ==> AllResponses(StateAfter(events).conns[id].place)
  {
    if events != [] {
      var front := events[..|events| - 1];
      RunCarries(front, id);
      if id in StateAfter(front).conns {
        ConnInv(front, id);
      }
      NextCarries(StateAfter(front), events[|events| - 1], id);
    }
  }

  lemma QueueIsResponses(c: Conn)
    requires ChannelOk(c.sent, c.received, c.place) && AllResponses(c.place)
    ensures forall k :: c.received <= k < |c.sent| ==> c.sent[k].ok
  {
  }

  /** While every routing and health result of a connection is a response, none of its sends ever blocks. */
  lemma AnswersNeverBlock(events: seq<Event>, id: ConnId, t: Token)
    requires Feasible(events) && AlwaysAnswers(events, id) && id in StateAfter(events).conns
    requires var c := StateAfter(events).conns[id];
             t in c.place && ReceiverAlive(c.writer) && (c.place[t].Sending? || c.place[t].HealthSending?)
    ensures var s := StateAfter(events);
            if s.conns[id].place[t].Sending? then Enabled(s.shared, id, s.conns[id], WorkerSends(t))
            else s.conns[id].reader == SendingHealth(t) && Enabled(s.shared, id, s.conns[id], SendHealth)
  {
    RunCarries(events, id);
    ConnInv(events, id);
    QueueIsResponses(StateAfter(events).conns[id]);
    assert CarriesResponse(StateAfter(events).conns[id].place[t]);
    SendsNeverBlock(events, id, t);
  }

  // ---------- one failed result can fill the channel ----------

  /** How many routing and health results of the connection failed. */
  function Failures(events: seq<Event>, id: ConnId): nat {
    if events == [] then 0
    else
      var e := events[|events| - 1];
      Failures(events[..|events| - 1], id) + if e.Act? && e.conn == id && FailsToAnswer(e.action) then 1 else 0
  }

  lemma {:induction false} NoFailuresAnswers(events: seq<Event>, id: ConnId)
    requires Failures(events, id) == 0
    ensures AlwaysAnswers(events, id)
  {
    if events != [] {
      var front := events[..|events| - 1];
      NoFailuresAnswers(front, id);
      assert forall i :: 0 <= i < |front| ==> events[i] == front[i];
    }
  }

  const OPEN := Shared(false, None)

  /** The only connection is `id`, in state `c`, after so many failed results. */
  predicate Alone(events: seq<Event>, id: ConnId, sh: Shared, c: Conn, failures: nat) {
    Feasible(events) && StateAfter(events) == System(sh, map[id := c]) && Failures(events, id) == failures
  }

  lemma One(events: seq<Event>, id: ConnId, sh: Shared, c: Conn, failures: nat, a: Action, d: Conn)
    returns (more: seq<Event>)
    requires Alone(events, id, sh, c, failures) && Enabled(sh, id, c, a)
    requires PcTokensKnown(c) && ChannelKnown(c) && d == After(sh, c, a)
    ensures Alone(more, id, SharedAfter(sh, id, a), d, failures + if FailsToAnswer(a) then 1 else 0)
  {
    more := events + [Act(id, a)];
    assert more[..|events|] == events;
    assert map[id := c][id := d] == map[id := d];
  }

  /** The request has been read and registered. */
  function Held(c: Conn, request: R.Outstanding): Conn {
    var t := c.reg.nextToken;
    c.(reg := R.Registered(c.reg, request), place := c.place[t := AtReader], reader := Holding(t))
  }

  /** The request has been handed to a route worker. */
  function Served(c: Conn, request: R.Outstanding): Conn {
    var t := c.reg.nextToken;
    c.(reg := R.Registered(c.reg, request), place := c.place[t := Routing], unjoined := c.unjoined + {t})
  }

  predicate Idle(c: Conn) {
    c.reader == Top && c.terminal.None? && PcTokensKnown(c) && ChannelKnown(c)
  }

  lemma ReadOne(events: seq<Event>, id: ConnId, c: Conn, failures: nat, request: R.Outstanding)
    returns (more: seq<Event>)
    requires Alone(events, id, OPEN, c, failures) && Idle(c) && R.Admission(c.reg, c.maximum, request.id).None?
    ensures Alone(more, id, OPEN, Held(c, request), failures)
  {
    var reading := c.(reader := Reading);
    var begun := One(events, id, OPEN, c, failures, BeginRead, reading);
    more := One(begun, id, OPEN, reading, failures, ReadRequest(request), Held(c, request));
  }

  predicate Handing(c: Conn, t: Token) {
    && c.terminal.None? && t in c.place && c.place[t] == AtReader && PcTokensKnown(c) && ChannelKnown(c)
    && t in c.reg.byToken && c.reg.byToken[t].rpc != R.Health
  }

  lemma Clear(events: seq<Event>, id: ConnId, c: Conn, failures: nat, t: Token) returns (more: seq<Event>)
    requires Alone(events, id, OPEN, c, failures) && c.reader == Holding(t) && Handing(c, t)
    ensures Alone(more, id, Shared(false, Some(Reader(id))), c.(reader := Cleared(t)), failures)
  {
    var locked := Shared(false, Some(Reader(id)));
    var admitting, checked := c.(reader := Admitting(t)), c.(reader := Checked(t));
    more := One(events, id, OPEN, c, failures, Lock, admitting);
    more := One(more, id, locked, admitting, failures, CheckShutdown, checked);
    more := One(more, id, locked, checked, failures, CheckTerminal, c.(reader := Cleared(t)));
  }

  lemma Spawn(events: seq<Event>, id: ConnId, c: Conn, failures: nat, t: Token) returns (more: seq<Event>)
    requires Alone(events, id, Shared(false, Some(Reader(id))), c, failures) && c.reader == Cleared(t) && Handing(c, t)
    ensures var d := c.(place := c.place[t := Routing], unjoined := c.unjoined + {t}, reader := Top);
            Alone(more, id, OPEN, d, failures)
  {
    var locked := Shared(false, Some(Reader(id)));
    var spawned := c.(place := c.place[t := Routing], unjoined := c.unjoined + {t}, reader := Unlocking(false));
    more := One(events, id, locked, c, failures, SpawnWorker, spawned);
    more := One(more, id, locked, spawned, failures, Unlock, spawned.(reader := Top));
  }

  lemma Serve(events: seq<Event>, id: ConnId, c: Conn, failures: nat, request: R.Outstanding)
    returns (more: seq<Event>)
    requires Alone(events, id, OPEN, c, failures) && Idle(c)
    requires R.Admission(c.reg, c.maximum, request.id).None? && request.rpc != R.Health
    ensures Alone(more, id, OPEN, Served(c, request), failures)
  {
    var t := c.reg.nextToken;
    more := ReadOne(events, id, c, failures, request);
    more := Clear(more, id, Held(c, request), failures, t);
    more := Spawn(more, id, Held(c, request).(reader := Cleared(t)), failures, t);
    assert c.place[t := AtReader][t := Routing] == c.place[t := Routing];
  }

  /** A registry in which the next request, numbered by its token, is new. */
  predicate Numbered(reg: R.Registry) {
    && 1 <= reg.nextToken
    && (forall t :: t in reg.byToken ==> t < reg.nextToken)
    && (forall i :: i in reg.ids ==> i.NumberId? && i.number < reg.nextToken)
  }

  function Request(reg: R.Registry): R.Outstanding {
    R.Outstanding(R.NumberId(reg.nextToken), R.Task("run"), 10)
  }

  lemma RegisterOne(reg: R.Registry)
    requires Numbered(reg)
    ensures Numbered(R.Registered(reg, Request(reg)))
    ensures |R.Registered(reg, Request(reg)).byToken| == |reg.byToken| + 1
  {
    var after := R.Registered(reg, Request(reg));
    assert after.byToken.Keys == reg.byToken.Keys + {reg.nextToken};
  }

  /**
   An idle connection in whose channel, untouched by the writer, `n` items wait;
   `live` of the requests read so far are registered.
   */
  predicate Stacked(c: Conn, maximum: nat, n: nat, live: nat) {
    && c.maximum == maximum && c.reader == Top && c.writer == Control && c.terminal.None?
    && c.received == 0 && |c.sent| == n && ChannelKnown(c)
    && Numbered(c.reg) && |c.reg.byToken| == live && c.reg.nextToken <= n + 1
  }

  /** The next request has been read, routed and its result is about to be sent. */
  function Answered(c: Conn, ok: bool): Conn {
    var t := c.reg.nextToken;
    var d := Served(c, Request(c.reg));
    d.(place := d.place[t := Sending(ok)], reg := if ok then d.reg else R.Released(d.reg, t))
  }

  lemma AnswerOne(events: seq<Event>, id: ConnId, c: Conn, failures: nat, maximum: nat, n: nat, live: nat, ok: bool)
    returns (more: seq<Event>)
    requires Alone(events, id, OPEN, c, failures) && Stacked(c, maximum, n, live) && live < maximum <= 16 && n <= 16
    ensures Alone(more, id, OPEN, Answered(c, ok), failures + if ok then 0 else 1)
  {
    var t, request := c.reg.nextToken, Request(c.reg);
    more := Serve(events, id, c, failures, request);
    var routing := Served(c, request);
    assert Answered(c, ok) == Move(routing, t, Sending(ok));
    more := One(more, id, OPEN, routing, failures, RouteReturns(t, ok), Answered(c, ok));
  }

  /** The result has been sent. */
  function Sent(c: Conn, ok: bool): Conn {
    var t := c.reg.nextToken;
    var d := Answered(c, ok);
    d.(place := d.place[t := Queued(|c.sent|, ok)], sent := c.sent + [Item(t, ok)])
  }

  lemma ReleaseOne(reg: R.Registry)
    requires Numbered(reg)
    ensures var after := R.Released(R.Registered(reg, Request(reg)), reg.nextToken);
            Numbered(after) && after.byToken == reg.byToken && after.nextToken == reg.nextToken + 1
  {
    assert reg.byToken[reg.nextToken := Request(reg)] - {reg.nextToken} == reg.byToken;
  }

  lemma SentIsStacked(c: Conn, maximum: nat, n: nat, live: nat, ok: bool)
    requires Stacked(c, maximum, n, live)
    ensures Stacked(Sent(c, ok), maximum, n + 1, if ok then live + 1 else live)
  {
    RegisterOne(c.reg);
    ReleaseOne(c.reg);
  }

  lemma SendOne(events: seq<Event>, id: ConnId, c: Conn, failures: nat, maximum: nat, n: nat, live: nat, ok: bool)
    returns (more: seq<Event>)
    requires Alone(events, id, OPEN, c, failures) && Stacked(c, maximum, n, live) && live < maximum <= 16 && n < maximum
    ensures Alone(more, id, OPEN, Sent(c, ok), failures + if ok then 0 else 1)
    ensures Stacked(Sent(c, ok), maximum, n + 1, if ok then live + 1 else live)
  {
    var t, answered := c.reg.nextToken, Answered(c, ok);
    more := AnswerOne(events, id, c, failures, maximum, n, live, ok);
    assert Sent(c, ok) == Push(answered, t, ok);
    more := One(more, id, OPEN, answered, failures + if ok then 0 else 1, WorkerSends(t), Sent(c, ok));
    SentIsStacked(c, maximum, n, live, ok);
  }

  lemma OpenOne(maximum: nat) returns (events: seq<Event>)
    requires 1 <= maximum <= 16
    ensures Alone(events, 0, OPEN, Opened(maximum), 0) && Stacked(Opened(maximum), maximum, 0, 0)
  {
    events := [Open(0, maximum)];
    assert events[..0] == [] && StateAfter([]) == IDLE;
    assert map[][0 := Opened(maximum)] == map[0 := Opened(maximum)];
  }

  /** One failed result and then responses, until `n` items wait. */
  lemma {:induction false} Stack(maximum: nat, n: nat) returns (events: seq<Event>, c: Conn)
    requires 1 <= n <= maximum <= 16
    ensures Alone(events, 0, OPEN, c, 1) && Stacked(c, maximum, n, n - 1)
  {
    if n == 1 {
      var start := OpenOne(maximum);
      events := SendOne(start, 0, Opened(maximum), 0, maximum, 0, 0, false);
      c := Sent(Opened(maximum), false);
    } else {
      var fewer, d := Stack(maximum, n - 1);
      events := SendOne(fewer, 0, d, 1, maximum, n - 1, n - 2, true);
      c := Sent(d, true);
    }
  }

  /** A send that has to wait for the writer. */
  predicate Blocked(c: Conn, t: Token) {
    t in c.place && (c.place[t].Sending? || c.place[t].HealthSending?) && ReceiverAlive(c.writer) && !ChannelHasRoom(c)
  }

  /** The run has a connection with this in-flight maximum, and at most so many of its results failed. */
  predicate Runs(events: seq<Event>, id: ConnId, maximum: nat, failures: nat) {
    && Feasible(events) && id in StateAfter(events).conns
    && StateAfter(events).conns[id].maximum == maximum && Failures(events, id) <= failures
  }

  /**
   For every maximum one failed result suffices: it and responses fill the
   channel, and since its registration is free another response is already waiting.
   */
  lemma FailureCanBlockAResponse(maximum: nat) returns (events: seq<Event>, id: ConnId, t: Token)
    requires 1 <= maximum <= 16
    ensures Runs(events, id, maximum, 1) && Blocked(StateAfter(events).conns[id], t)
    ensures StateAfter(events).conns[id].place[t] == Sending(true)
  {
    var c;
    events, c := Stack(maximum, maximum);
    id, t := 0, c.reg.nextToken;
    events := AnswerOne(events, id, c, 1, maximum, maximum, maximum - 1, true);
  }

  /** No send of a connection with this maximum blocks in any run with at most so many failed results. */
  ghost predicate NeverBlocks(maximum: nat, failures: nat) {
    forall events, id, t :: Runs(events, id, maximum, failures) ==> !Blocked(StateAfter(events).conns[id], t)
  }

  /** Sends never block exactly when no result fails. */
  lemma NeverBlocksIffNoFailures(maximum: nat, failures: nat)
    requires 1 <= maximum <= 16
    ensures NeverBlocks(maximum, failures) <==> failures == 0
  {
    if failures == 0 {
      forall events, id, t | Runs(events, id, maximum, failures) ensures !Blocked(StateAfter(events).conns[id], t) {
        if Blocked(StateAfter(events).conns[id], t) {
          NoFailuresAnswers(events, id);
          AnswersNeverBlock(events, id, t);
        }
      }
    } else {
      var events, id, t := FailureCanBlockAResponse(maximum);
      assert Runs(events, id, maximum, failures);
    }
  }
}
