/**
 Whole runs of the daemon runtime: any number of connections, their threads and
 any number of shutdown calls interleaved step by step.
 */
module ConnectionRuns {
  import opened Common
  import opened ConnectionProtocol
  import opened ConnectionInvariant

  datatype System = System(shared: Shared, conns: map<ConnId, Conn>)

  const IDLE := System(Shared(false, None), map[])

  /** Opening a connection, one step of one thread of one connection, or one step of a shutdown call. */
  datatype Event =
    | Open(conn: ConnId, maximum: nat)
    | Act(conn: ConnId, action: Action)
    | RequesterLocks
    | RequesterSetsFlag
    | RequesterUnlocks

  predicate Possible(s: System, e: Event) {
    match e
    case Open(id, maximum) => id !in s.conns && 1 <= maximum <= 16
    case Act(id, a) => id in s.conns && Enabled(s.shared, id, s.conns[id], a)
    case RequesterLocks => s.shared.fence.None?
    case RequesterSetsFlag => s.shared.fence == Some(Requester)
    case RequesterUnlocks => s.shared.fence == Some(Requester)
  }

  ghost predicate SystemInv(s: System) {
    && (forall id :: id in s.conns ==> Inv(s.conns[id]))
    && FencesOk(s.shared, s.conns)
  }

  /** The next state; events that are not possible change nothing. */
  function Next(s: System, e: Event): System {
    match e
    case Open(id, maximum) => if id in s.conns then s else s.(conns := s.conns[id := Opened(maximum)])
    case Act(id, a) =>
      if id in s.conns && PcTokensKnown(s.conns[id]) && ChannelKnown(s.conns[id])
      then System(SharedAfter(s.shared, id, a), s.conns[id := After(s.shared, s.conns[id], a)]) else s
    case RequesterLocks => s.(shared := s.shared.(fence := Some(Requester)))
    case RequesterSetsFlag => s.(shared := s.shared.(shutdown := true))
    case RequesterUnlocks => s.(shared := s.shared.(fence := None))
  }

  /** The state after a run of events from the idle daemon. */
  function StateAfter(events: seq<Event>): System {
    if events == [] then IDLE else Next(StateAfter(events[..|events| - 1]), events[|events| - 1])
  }

  /** Every event of the run was possible when it happened. */
  predicate Feasible(events: seq<Event>) {
    events != [] ==>
      && Feasible(events[..|events| - 1])
      && Possible(StateAfter(events[..|events| - 1]), events[|events| - 1])
  }

  // ---------- every state of every run is sound ----------

  lemma ReaderKeepsFence(sh: Shared, me: ConnId, c: Conn, a: Action)
    requires PcTokensKnown(c) && FenceOk(sh, me, c.reader) && ReaderAction(a) && Enabled(sh, me, c, a)
    ensures FenceOk(SharedAfter(sh, me, a), me, AfterReader(sh, c, a).reader)
  {
  }

  lemma OthersKeepReader(sh: Shared, me: ConnId, c: Conn, a: Action)
    requires PcTokensKnown(c) && ChannelKnown(c) && !ReaderAction(a)
    ensures After(sh, c, a).reader == c.reader && SharedAfter(sh, me, a) == sh
  {
  }

  lemma ActKeepsFence(sh: Shared, me: ConnId, c: Conn, a: Action)
    requires PcTokensKnown(c) && ChannelKnown(c) && FenceOk(sh, me, c.reader) && Enabled(sh, me, c, a)
    ensures FenceOk(SharedAfter(sh, me, a), me, After(sh, c, a).reader)
  {
    if ReaderAction(a) {
      ReaderKeepsFence(sh, me, c, a);
    } else {
      OthersKeepReader(sh, me, c, a);
    }
  }

  lemma ActKeepsOtherFences(sh: Shared, me: ConnId, c: Conn, a: Action, other: ConnId, reader: ReaderPc)
    requires FenceOk(sh, me, c.reader) && Enabled(sh, me, c, a)
    requires other != me && FenceOk(sh, other, reader)
    ensures FenceOk(SharedAfter(sh, me, a), other, reader)
  {
  }

  predicate FencesOk(sh: Shared, conns: map<ConnId, Conn>) {
    && (forall id :: id in conns ==> FenceOk(sh, id, conns[id].reader))
    && (sh.fence.Some? && sh.fence.value.Reader? ==> sh.fence.value.conn in conns)
  }

  lemma PutKeepsFences(sh: Shared, after: Shared, id: ConnId, conns: map<ConnId, Conn>, c: Conn, a: Action)
    requires id in conns && FencesOk(sh, conns) && Enabled(sh, id, conns[id], a)
    requires after == SharedAfter(sh, id, a) && FenceOk(after, id, c.reader)
    ensures FencesOk(after, conns[id := c])
  {
    forall other | other in conns && other != id ensures FenceOk(after, other, conns[other].reader) {
      ActKeepsOtherFences(sh, id, conns[id], a, other, conns[other].reader);
    }
  }

  lemma ActKeepsFences(s: System, id: ConnId, a: Action)
    requires id in s.conns && Inv(s.conns[id]) && FencesOk(s.shared, s.conns) && Enabled(s.shared, id, s.conns[id], a)
    ensures PcTokensKnown(s.conns[id]) && ChannelKnown(s.conns[id])
    ensures FencesOk(SharedAfter(s.shared, id, a), s.conns[id := After(s.shared, s.conns[id], a)])
  {
    InvKnowsTokens(s.conns[id]);
    ActKeepsFence(s.shared, id, s.conns[id], a);
    PutKeepsFences(s.shared, SharedAfter(s.shared, id, a), id, s.conns, After(s.shared, s.conns[id], a), a);
  }

  lemma NextKeepsFences(s: System, e: Event)
    requires SystemInv(s) && Possible(s, e)
    ensures FencesOk(Next(s, e).shared, Next(s, e).conns)
  {
    if e.Act? {
      ActKeepsFences(s, e.conn, e.action);
    }
  }

  lemma NextKeepsConns(s: System, e: Event, id: ConnId)
    requires (id in s.conns ==> Inv(s.conns[id])) && Possible(s, e) && id in Next(s, e).conns
    ensures Inv(Next(s, e).conns[id])
  {
    if e.Act? && e.conn == id {
      StepInv(s.shared, id, s.conns[id], e.action);
    } else if id !in s.conns {
      OpenedInv(e.maximum);
    }
  }

  lemma NextInv(s: System, e: Event)
    requires SystemInv(s) && Possible(s, e)
    ensures SystemInv(Next(s, e))
  {
    var after := Next(s, e);
    NextKeepsFences(s, e);
    forall id | id in after.conns ensures Inv(after.conns[id]) {
      NextKeepsConns(s, e, id);
    }
  }

  lemma {:induction false} RunInv(events: seq<Event>)
    requires Feasible(events)
    ensures SystemInv(StateAfter(events))
  {
    if events != [] {
      RunInv(events[..|events| - 1]);
      NextInv(StateAfter(events[..|events| - 1]), events[|events| - 1]);
    }
  }

  lemma ConnInv(events: seq<Event>, id: ConnId)
    requires Feasible(events) && id in StateAfter(events).conns
    ensures Inv(StateAfter(events).conns[id])
    ensures FenceOk(StateAfter(events).shared, id, StateAfter(events).conns[id].reader)
  {
    RunInv(events);
  }

  // ---------- the shutdown fence ----------

  /** The requests of a connection that reached a route worker or a health reply. */
  function AdmittedOf(place: map<Token, Place>): set<Token> {
    set t | t in place && Admitted(place[t])
  }

  function AdmittedIn(s: System, id: ConnId): set<Token> {
    if id in s.conns then AdmittedOf(s.conns[id].place) else {}
  }

  /** The step, if it moves a capability at all, moves none across the admission line. */
  predicate StaysPut(place: map<Token, Place>, move: Option<(Token, Place)>) {
    move.Some? ==> Admitted(move.value.1) == (move.value.0 in place && Admitted(place[move.value.0]))
  }

  function Moved(place: map<Token, Place>, move: Option<(Token, Place)>): map<Token, Place> {
    if move.None? then place else place[move.value.0 := move.value.1]
  }

  lemma StayingPut(place: map<Token, Place>, move: Option<(Token, Place)>)
    requires StaysPut(place, move)
    ensures AdmittedOf(Moved(place, move)) == AdmittedOf(place)
  {
  }

  /** What a step does to the places, whichever thread takes it. */
  lemma ActMoves(sh: Shared, me: ConnId, c: Conn, a: Action) returns (move: Option<(Token, Place)>)
    requires Inv(c) && FenceOk(sh, me, c.reader) && Enabled(sh, me, c, a)
    ensures PcTokensKnown(c) && ChannelKnown(c)
    ensures After(sh, c, a).place == Moved(c.place, move)
    ensures sh.shutdown ==> StaysPut(c.place, move)
    ensures move.Some? && move.value.0 in c.place ==> !Settled(c.place[move.value.0])
  {
    InvKnowsTokens(c);
    if ReaderAction(a) {
      move := ReaderMove(sh, c, a);
      ReaderPlaces(sh, c, a);
      ReaderStaysPut(sh, me, c, a);
    } else if WorkerAction(a) {
      move := WorkerMove(c, a);
      WorkerMoves(sh, me, c, a);
    } else {
      move := WriterMove(c, a);
      WriterStaysPut(sh, me, c, a);
    }
  }

  lemma ReaderStaysPut(sh: Shared, me: ConnId, c: Conn, a: Action)
    requires PcTokensKnown(c) && ReaderOk(c.reader, c.place) && c.reg.nextToken !in c.place
    requires FenceOk(sh, me, c.reader) && ReaderAction(a) && Enabled(sh, me, c, a)
    ensures var move := ReaderMove(sh, c, a);
            && (sh.shutdown ==> StaysPut(c.place, move))
            && (move.Some? && move.value.0 in c.place ==> !Settled(c.place[move.value.0]))
  {
  }

  lemma WriterStaysPut(sh: Shared, me: ConnId, c: Conn, a: Action)
    requires PcTokensKnown(c) && ChannelKnown(c) && WriterOk(c.writer, c.place)
    requires ChannelOk(c.sent, c.received, c.place)
    requires WriterAction(a) && Enabled(sh, me, c, a)
    ensures var move := WriterMove(c, a);
            && AfterWriter(c, a).place == Moved(c.place, move)
            && StaysPut(c.place, move)
            && (move.Some? ==> move.value.0 in c.place && !Settled(c.place[move.value.0]))
  {
    WriterMoves(sh, me, c, a);
  }

  /** What an event does to the places of one connection. */
  lemma NextMoves(s: System, e: Event, id: ConnId) returns (move: Option<(Token, Place)>)
    requires id in s.conns && Inv(s.conns[id]) && FenceOk(s.shared, id, s.conns[id].reader) && Possible(s, e)
    ensures id in Next(s, e).conns && Next(s, e).conns[id].place == Moved(s.conns[id].place, move)
    ensures s.shared.shutdown ==> StaysPut(s.conns[id].place, move)
    ensures move.Some? && move.value.0 in s.conns[id].place ==> !Settled(s.conns[id].place[move.value.0])
  {
    move := None;
    if e.Act? && e.conn == id {
      move := ActMoves(s.shared, id, s.conns[id], e.action);
    }
  }

  lemma ShutdownStays(s: System, e: Event)
    requires s.shared.shutdown
    ensures Next(s, e).shared.shutdown
  {
  }

  lemma LastKeepsAdmitted(events: seq<Event>, id: ConnId)
    requires Feasible(events) && events != [] && StateAfter(events[..|events| - 1]).shared.shutdown
    ensures StateAfter(events).shared.shutdown
    ensures AdmittedIn(StateAfter(events), id) == AdmittedIn(StateAfter(events[..|events| - 1]), id)
  {
    var before, e := StateAfter(events[..|events| - 1]), events[|events| - 1];
    ShutdownStays(before, e);
    if id in before.conns {
      ConnInv(events[..|events| - 1], id);
      var move := NextMoves(before, e, id);
      StayingPut(before.conns[id].place, move);
    }
  }

  /** Once the flag is set no connection, old or new, hands over another request. */
  lemma {:induction false} NoHandOffAfterShutdown(events: seq<Event>, i: nat, id: ConnId)
    requires Feasible(events) && i <= |events| && StateAfter(events[..i]).shared.shutdown
    ensures StateAfter(events).shared.shutdown
    ensures AdmittedIn(StateAfter(events), id) == AdmittedIn(StateAfter(events[..i]), id)
  {
    if i == |events| {
      assert events[..i] == events;
    } else {
      var front := events[..|events| - 1];
      assert front[..i] == events[..i];
      NoHandOffAfterShutdown(front, i, id);
      LastKeepsAdmitted(events, id);
    }
  }

  // ---------- a clean report ----------

  /** With no terminal error every request was answered or refused before admission. */
  lemma CleanPlaces(c: Conn, t: Token)
    requires Inv(c) && c.reader == Finished && c.terminal.None? && t in c.place
    ensures c.place[t].Written? || c.place[t].Refused?
  {
  }

  predicate NoRepeats(s: seq<Token>) {
    forall i :: 0 <= i < |s| ==> s[i] !in s[..i]
  }

  lemma DropLast(written: seq<Token>)
    requires NoRepeats(written) && written != []
    ensures NoRepeats(written[..|written| - 1]) && written[|written| - 1] !in written[..|written| - 1]
  {
    var front := written[..|written| - 1];
    forall i | 0 <= i < |front| ensures front[i] !in front[..i] {
      assert front[..i] == written[..i];
    }
  }

  lemma {:induction false} CountedOnce(written: seq<Token>, admitted: set<Token>)
    requires NoRepeats(written) && forall t :: t in written <==> t in admitted
    ensures multiset(written) == multiset(admitted) && |written| == |admitted|
  {
    if written == [] {
      assert admitted == {};
    } else {
      var front, last := written[..|written| - 1], written[|written| - 1];
      DropLast(written);
      assert written == front + [last];
      CountedOnce(front, admitted - {last});
      assert admitted == (admitted - {last}) + {last};
    }
  }

  lemma WrittenOnce(written: seq<Token>, completed: nat, place: map<Token, Place>)
    requires WrittenOk(written, completed, place)
    ensures NoRepeats(written)
  {
    forall i | 0 <= i < |written| ensures written[i] !in written[..i] {
      forall k | 0 <= k < i ensures written[..i][k] != written[i] {
        assert place[written[k]] == Written(k) && place[written[i]] == Written(i);
      }
    }
  }

  lemma CleanFinish(c: Conn)
    requires Inv(c) && c.reader == Finished && c.terminal.None?
    ensures multiset(c.written) == multiset(AdmittedOf(c.place)) && c.completed == |AdmittedOf(c.place)|
  {
    forall t | t in c.place ensures c.place[t].Written? || c.place[t].Refused? {
      CleanPlaces(c, t);
    }
    forall t ensures t in c.written <==> t in AdmittedOf(c.place) {
      if t in c.written {
        var n :| 0 <= n < |c.written| && c.written[n] == t;
        assert c.place[t] == Written(n);
      }
    }
    WrittenOnce(c.written, c.completed, c.place);
    CountedOnce(c.written, AdmittedOf(c.place));
  }

  /** A connection that reports no terminal error wrote exactly one response per admitted request. */
  lemma ReportIsExact(events: seq<Event>, id: ConnId)
    requires Feasible(events) && id in StateAfter(events).conns
    requires StateAfter(events).conns[id].reader == Finished && StateAfter(events).conns[id].terminal.None?
    ensures var c := StateAfter(events).conns[id];
            multiset(c.written) == multiset(AdmittedOf(c.place)) && c.completed == |AdmittedOf(c.place)|
  {
    ConnInv(events, id);
    CleanFinish(StateAfter(events).conns[id]);
  }

  // ---------- the response channel never blocks a response ----------

  function TokensFrom(sent: seq<Item>, from: nat): set<Token>
    decreases |sent| - from
  {
    if from >= |sent| then {} else {sent[from].token} + TokensFrom(sent, from + 1)
  }

  /** Items from `from` on sit at their send numbers. */
  predicate Numbered(sent: seq<Item>, from: nat, place: map<Token, Place>) {
    forall i :: from <= i < |sent| ==> sent[i].token in place && place[sent[i].token] == Queued(i, sent[i].ok)
  }

  lemma {:induction false} TokensAreDistinct(sent: seq<Item>, from: nat, place: map<Token, Place>)
    requires from <= |sent| && Numbered(sent, from, place)
    ensures |TokensFrom(sent, from)| == |sent| - from
    ensures forall t :: t in TokensFrom(sent, from) ==> t in place && place[t].Queued? && from <= place[t].n < |sent|
    decreases |sent| - from
  {
    if from < |sent| {
      TokensAreDistinct(sent, from + 1, place);
      assert sent[from].token !in TokensFrom(sent, from + 1);
    }
  }

  /** While the channel holds responses only, whoever holds another response finds room for it. */
  lemma RoomForResponses(c: Conn, t: Token)
    requires Inv(c) && t in c.place && (c.place[t] == Sending(true) || c.place[t] == HealthSending(true))
    requires forall i :: c.received <= i < |c.sent| ==> c.sent[i].ok
    ensures ChannelHasRoom(c)
  {
    TokensAreDistinct(c.sent, c.received, c.place);
    var queued := TokensFrom(c.sent, c.received);
    forall u | u in queued ensures u in c.reg.byToken && u != t {
      assert c.sent[c.place[u].n] == Item(u, c.place[u].ok);
    }
    assert queued <= c.reg.byToken.Keys - {t};
    SubsetSize(queued, c.reg.byToken.Keys - {t});
  }

  /** In every run no send of a response blocks, even the health reply sent under the fence. */
  lemma SendsNeverBlock(events: seq<Event>, id: ConnId, t: Token)
    requires Feasible(events) && id in StateAfter(events).conns
    requires var c := StateAfter(events).conns[id];
             && t in c.place && ReceiverAlive(c.writer)
             && (c.place[t] == Sending(true) || c.place[t] == HealthSending(true))
             && (forall k :: c.received <= k < |c.sent| ==> c.sent[k].ok)
    ensures var s := StateAfter(events);
            if s.conns[id].place[t] == Sending(true) then Enabled(s.shared, id, s.conns[id], WorkerSends(t))
            else s.conns[id].reader == SendingHealth(t) && Enabled(s.shared, id, s.conns[id], SendHealth)
  {
    ConnInv(events, id);
    RoomForResponses(StateAfter(events).conns[id], t);
  }

  // ---------- one fate per capability ----------

  predicate Settled(p: Place) {
    p.Written? || p.Lost? || p.Refused?
  }

  predicate SettledAs(s: System, id: ConnId, t: Token, p: Place) {
    id in s.conns && t in s.conns[id].place && s.conns[id].place[t] == p && Settled(p)
  }

  lemma LastKeepsFate(events: seq<Event>, id: ConnId, t: Token, p: Place)
    requires Feasible(events) && events != [] && SettledAs(StateAfter(events[..|events| - 1]), id, t, p)
    ensures SettledAs(StateAfter(events), id, t, p)
  {
    var before, e := StateAfter(events[..|events| - 1]), events[|events| - 1];
    ConnInv(events[..|events| - 1], id);
    var move := NextMoves(before, e, id);
  }

  /** A capability that was answered, refused or dropped stays so and its token is never registered again. */
  lemma {:induction false} FatesAreFinal(events: seq<Event>, i: nat, id: ConnId, t: Token, p: Place)
    requires Feasible(events) && i <= |events| && SettledAs(StateAfter(events[..i]), id, t, p)
    ensures SettledAs(StateAfter(events), id, t, p)
  {
    if i == |events| {
      assert events[..i] == events;
    } else {
      var front := events[..|events| - 1];
      assert front[..i] == events[..i];
      FatesAreFinal(front, i, id, t, p);
      LastKeepsFate(events, id, t, p);
    }
  }

  /**
   The registry holds exactly the unsettled capabilities, within the bound, and the writer only writes
   registered ones.
   */
  lemma RegistryIsExact(events: seq<Event>, id: ConnId)
    requires Feasible(events) && id in StateAfter(events).conns
    ensures var c := StateAfter(events).conns[id];
            && R.Inv(c.reg, c.maximum)
            && c.reg.byToken.Keys == (set t | t in c.place && Live(c.place[t]))
            && (c.writer.Writing? ==> c.writer.t in c.reg.byToken)
  {
    ConnInv(events, id);
  }

  /** A finished connection, whatever its outcome, has settled every request and left nothing registered. */
  lemma FinishedSettlesEverything(events: seq<Event>, id: ConnId)
    requires Feasible(events) && id in StateAfter(events).conns && StateAfter(events).conns[id].reader == Finished
    ensures var c := StateAfter(events).conns[id];
            && (forall t :: t in c.place ==> Settled(c.place[t]))
            && c.reg.byToken == map[] && c.reg.ids == {}
  {
    var c := StateAfter(events).conns[id];
    ConnInv(events, id);
    forall t | t in c.place ensures Settled(c.place[t]) {
      FinishedPlaces(c, t);
    }
    NothingRegistered(c);
  }

  lemma FinishedPlaces(c: Conn, t: Token)
    requires Inv(c) && c.reader == Finished && t in c.place
    ensures Settled(c.place[t])
  {
  }

  lemma NothingRegistered(c: Conn)
    requires RegistryOk(c) && forall t :: t in c.place ==> Settled(c.place[t])
    ensures c.reg.byToken == map[] && c.reg.ids == {}
  {
    assert c.reg.byToken == map[];
  }
}
