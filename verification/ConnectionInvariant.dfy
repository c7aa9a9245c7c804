/** What every step of every thread of a connection keeps. */
module ConnectionInvariant {
  import opened Common
  import opened ConnectionProtocol

  // ---------- the invariant, field by field ----------

  /** The registry holds exactly the live capabilities. */
  ghost predicate KeysLive(byToken: map<Token, R.Outstanding>, nextToken: Token, place: map<Token, Place>) {
    && (forall t :: t in byToken ==> t in place && Live(place[t]))
    && (forall t :: t in place && Live(place[t]) ==> t in byToken)
    && (forall t :: t in place ==> t < nextToken)
  }

  predicate ReaderOk(reader: ReaderPc, place: map<Token, Place>) {
    && (ReaderToken(reader).Some? ==> ReaderToken(reader).value in place && place[ReaderToken(reader).value].AtReader?)
    && (reader.SendingHealth? ==> reader.t in place && place[reader.t].HealthSending?)
    && (forall t :: t in place && place[t].AtReader? ==> ReaderToken(reader) == Some(t))
    && (forall t :: t in place && place[t].HealthSending? ==> reader == SendingHealth(t))
  }

  predicate WriterOk(writer: WriterPc, place: map<Token, Place>) {
    && (WriterToken(writer).Some? ==> WriterToken(writer).value in place && place[WriterToken(writer).value].AtWriter?)
    && (forall t :: t in place && place[t].AtWriter? ==> WriterToken(writer) == Some(t))
  }

  /** Items carry their send number, so the channel holds each capability at most once. */
  predicate ChannelOk(sent: seq<Item>, received: nat, place: map<Token, Place>) {
    && received <= |sent|
    && (forall i :: received <= i < |sent| ==> sent[i].token in place && place[sent[i].token] == Queued(i, sent[i].ok))
    && (forall t :: t in place && place[t].Queued? ==>
          received <= place[t].n < |sent| && sent[place[t].n] == Item(t, place[t].ok))
  }

  /** Responses are written once each, in the order recorded, and counted. */
  predicate WrittenOk(written: seq<Token>, completed: nat, place: map<Token, Place>) {
    && completed == |written|
    && (forall n :: 0 <= n < |written| ==> written[n] in place && place[written[n]] == Written(n))
    && (forall t :: t in place && place[t].Written? ==> place[t].n < |written| && written[place[t].n] == t)
  }

  predicate WorkersOk(unjoined: set<Token>, place: map<Token, Place>) {
    && (forall t :: t in place && (WorkerRunning(place[t]) || place[t].Panicked?) ==> t in unjoined)
    && (forall t :: t in unjoined ==> t in place && !place[t].AtReader? && !place[t].HealthSending?)
  }

  predicate NoneRunning(place: map<Token, Place>) {
    forall t :: t in place ==> !WorkerRunning(place[t])
  }

  predicate NoneLost(place: map<Token, Place>) {
    forall t :: t in place ==> place[t] != Lost
  }

  predicate WriterPanicked(w: WriterPc) {
    (w.Stopping? || w.Stopped?) && w.panicked
  }

  /** Without a terminal error and without a writer panic nothing admitted is ever lost. */
  predicate ErrorsOk(c: Conn) {
    && (c.control != [] ==> c.terminal.Some?)
    && (c.writer == Stopping(false) ==> c.terminal.Some?)
    && (c.writer == Stopped(false) && c.terminal.None? ==> ReaderGone(c.reader) && NoneRunning(c.place))
    && (c.terminal.None? && !WriterPanicked(c.writer) ==> NoneLost(c.place))
    && (c.writer.Stopped? ==> c.received == |c.sent|)
    && (c.reader == AwaitingWriter || c.reader == Finished ==> c.unjoined == {})
    && (c.reader == Finished ==> c.writer.Stopped? && (c.writer.panicked ==> c.terminal.Some?))
  }

  predicate HoldsFence(r: ReaderPc) {
    r.Admitting? || r.Checked? || r.Cleared? || r.SendingHealth? || r.Unlocking?
  }

  /** Past the shutdown check the reader owns the fence and the flag is still down. */
  predicate FenceOk(sh: Shared, me: ConnId, reader: ReaderPc) {
    && (HoldsFence(reader) <==> sh.fence == Some(Reader(me)))
    && (reader.Checked? || reader.Cleared? || reader.SendingHealth? ==> !sh.shutdown)
  }

  ghost predicate Inv(c: Conn) {
    && RegistryOk(c)
    && ReaderOk(c.reader, c.place)
    && WriterOk(c.writer, c.place)
    && ChannelOk(c.sent, c.received, c.place)
    && WrittenOk(c.written, c.completed, c.place)
    && WorkersOk(c.unjoined, c.place)
    && ErrorsOk(c)
  }

  lemma OpenedInv(maximum: nat)
    ensures Inv(Opened(maximum))
  {
  }

  // ---------- each part is kept ----------

  /** The registry part after a capability moves or a request is read. */
  ghost predicate RegistryOk(c: Conn) {
    R.Inv(c.reg, c.maximum) && KeysLive(c.reg.byToken, c.reg.nextToken, c.place)
  }

  lemma KeysAfterDrop(byToken: map<Token, R.Outstanding>, nextToken: Token, place: map<Token, Place>, t: Token,
                      p: Place)
    requires KeysLive(byToken, nextToken, place) && t in place && !Live(p)
    ensures KeysLive(byToken - {t}, nextToken, place[t := p])
  {
  }

  lemma KeysAfterRead(byToken: map<Token, R.Outstanding>, nextToken: Token, place: map<Token, Place>,
                      request: R.Outstanding)
    requires KeysLive(byToken, nextToken, place)
    ensures KeysLive(byToken[nextToken := request], nextToken + 1, place[nextToken := AtReader])
  {
  }

  lemma MoveKeepsRegistry(c: Conn, t: Token, p: Place)
    requires RegistryOk(c) && t in c.place
    requires Live(p) ==> Live(c.place[t])
    ensures RegistryOk(Move(c, t, p))
  {
    if Live(c.place[t]) && !Live(p) {
      R.ReleaseKeepsInv(c.reg, c.maximum, t);
      KeysAfterDrop(c.reg.byToken, c.reg.nextToken, c.place, t, p);
    }
  }

  lemma ReadKeepsRegistry(c: Conn, request: R.Outstanding)
    requires RegistryOk(c) && R.Admission(c.reg, c.maximum, request.id).None?
    ensures RegistryOk(c.(reg := R.Registered(c.reg, request), place := c.place[c.reg.nextToken := AtReader]))
  {
    R.RegisterKeepsInv(c.reg, c.maximum, request);
    KeysAfterRead(c.reg.byToken, c.reg.nextToken, c.place, request);
  }

  // Changing one place leaves alone every part that speaks of neither the old nor the new place.

  predicate Unqueued(place: map<Token, Place>, t: Token) {
    t in place ==> !place[t].Queued?
  }

  lemma PlaceChannel(sent: seq<Item>, received: nat, place: map<Token, Place>, t: Token, p: Place)
    requires ChannelOk(sent, received, place) && Unqueued(place, t) && !p.Queued?
    ensures ChannelOk(sent, received, place[t := p])
  {
  }

  lemma PushChannel(sent: seq<Item>, received: nat, place: map<Token, Place>, t: Token, ok: bool)
    requires ChannelOk(sent, received, place) && Unqueued(place, t)
    ensures ChannelOk(sent + [Item(t, ok)], received, place[t := Queued(|sent|, ok)])
  {
  }

  lemma PopChannel(sent: seq<Item>, received: nat, place: map<Token, Place>, p: Place)
    requires ChannelOk(sent, received, place) && received < |sent| && !p.Queued?
    ensures ChannelOk(sent, received + 1, place[sent[received].token := p])
  {
  }

  lemma PlaceWritten(written: seq<Token>, completed: nat, place: map<Token, Place>, t: Token, p: Place)
    requires WrittenOk(written, completed, place) && (t in place ==> !place[t].Written?) && !p.Written?
    ensures WrittenOk(written, completed, place[t := p])
  {
  }

  lemma PlaceReader(reader: ReaderPc, place: map<Token, Place>, t: Token, p: Place)
    requires ReaderOk(reader, place) && (t in place ==> !place[t].AtReader? && !place[t].HealthSending?)
    requires !p.AtReader? && !p.HealthSending?
    ensures ReaderOk(reader, place[t := p])
  {
  }

  lemma PlaceWriter(writer: WriterPc, place: map<Token, Place>, t: Token, p: Place)
    requires WriterOk(writer, place) && (t in place ==> !place[t].AtWriter?) && !p.AtWriter?
    ensures WriterOk(writer, place[t := p])
  {
  }

  lemma PlaceWorkers(unjoined: set<Token>, place: map<Token, Place>, t: Token, p: Place)
    requires WorkersOk(unjoined, place)
    requires WorkerRunning(p) || p.Panicked? ==> t in unjoined
    requires p.AtReader? || p.HealthSending? ==> t !in unjoined
    ensures WorkersOk(unjoined, place[t := p])
  {
  }

  // ---------- the reader ----------

  /** The place a reader action gives to which capability, if it moves one. */
  function ReaderMove(sh: Shared, c: Conn, a: Action): Option<(Token, Place)>
    requires PcTokensKnown(c)
  {
    match a
    case Reap(w, _) => if w in c.place && c.place[w].Panicked? then Some((w, Lost)) else None
    case ReadRequest(_) => Some((c.reg.nextToken, AtReader))
    case CheckShutdown => if c.reader.Admitting? && sh.shutdown then Some((c.reader.t, Refused)) else None
    case CheckTerminal => if c.reader.Checked? && c.terminal.Some? then Some((c.reader.t, Refused)) else None
    case AnswerHealth(ok) => if c.reader.Cleared? then Some((c.reader.t, HealthSending(ok))) else None
    case SendHealth =>
      if c.reader.SendingHealth? && c.place[c.reader.t].HealthSending?
      then Some((c.reader.t, Queued(|c.sent|, c.place[c.reader.t].ok))) else None
    case HealthUndeliverable(_) => if c.reader.SendingHealth? then Some((c.reader.t, Lost)) else None
    case SpawnWorker => if c.reader.Cleared? then Some((c.reader.t, Routing)) else None
    case SpawnFails(_) => if c.reader.Cleared? then Some((c.reader.t, Refused)) else None
    case _ => None
  }

  /** The actions around reading a request; the others admit one or end the connection. */
  predicate IntakeAction(a: Action) {
    || a.Reap? || a.SeeShutdown? || a.SeeTerminal? || a.BeginRead? || a.ClockOverflow? || a.ReadRequest?
    || a.ReadFails?
  }

  function Moved(place: map<Token, Place>, move: Option<(Token, Place)>): map<Token, Place> {
    match move
    case None => place
    case Some((t, p)) => place[t := p]
  }

  lemma ReaderPlacesIntake(sh: Shared, c: Conn, a: Action)
    requires PcTokensKnown(c) && IntakeAction(a)
    ensures AfterReader(sh, c, a).place == Moved(c.place, ReaderMove(sh, c, a))
  {
  }

  lemma ReaderPlacesAdmission(sh: Shared, c: Conn, a: Action)
    requires PcTokensKnown(c) && ReaderAction(a) && !IntakeAction(a)
    ensures AfterReader(sh, c, a).place == Moved(c.place, ReaderMove(sh, c, a))
  {
  }

  lemma ReaderPlaces(sh: Shared, c: Conn, a: Action)
    requires PcTokensKnown(c) && ReaderAction(a)
    ensures AfterReader(sh, c, a).place == Moved(c.place, ReaderMove(sh, c, a))
  {
    if IntakeAction(a) {
      ReaderPlacesIntake(sh, c, a);
    } else {
      ReaderPlacesAdmission(sh, c, a);
    }
  }

  /** The registry follows the move: a request read is registered, and a capability dropped is released. */
  predicate RegistersAs(c: Conn, d: Conn, a: Action, move: Option<(Token, Place)>) {
    && d.maximum == c.maximum
    && if a.ReadRequest? then
         d.reg == R.Registered(c.reg, a.request) && d.place == c.place[c.reg.nextToken := AtReader]
       else if move.Some? then
         && move.value.0 in c.place && (Live(move.value.1) ==> Live(c.place[move.value.0]))
         && d.reg == Move(c, move.value.0, move.value.1).reg && d.place == c.place[move.value.0 := move.value.1]
       else d.reg == c.reg && d.place == c.place
  }

  lemma ReaderRegistersIntake(sh: Shared, me: ConnId, c: Conn, a: Action)
    requires PcTokensKnown(c) && ReaderOk(c.reader, c.place) && IntakeAction(a) && Enabled(sh, me, c, a)
    ensures RegistersAs(c, AfterReader(sh, c, a), a, ReaderMove(sh, c, a))
  {
  }

  lemma ReaderRegistersAdmission(sh: Shared, me: ConnId, c: Conn, a: Action)
    requires PcTokensKnown(c) && ReaderOk(c.reader, c.place)
    requires ReaderAction(a) && !IntakeAction(a) && Enabled(sh, me, c, a)
    ensures RegistersAs(c, AfterReader(sh, c, a), a, ReaderMove(sh, c, a))
  {
  }

  lemma ReaderRegisters(sh: Shared, me: ConnId, c: Conn, a: Action)
    requires PcTokensKnown(c) && ReaderOk(c.reader, c.place) && ReaderAction(a) && Enabled(sh, me, c, a)
    ensures RegistersAs(c, AfterReader(sh, c, a), a, ReaderMove(sh, c, a))
  {
    if IntakeAction(a) {
      ReaderRegistersIntake(sh, me, c, a);
    } else {
      ReaderRegistersAdmission(sh, me, c, a);
    }
  }

  lemma ReaderRegistry(sh: Shared, me: ConnId, c: Conn, a: Action)
    requires RegistryOk(c) && ReaderOk(c.reader, c.place) && PcTokensKnown(c)
    requires ReaderAction(a) && Enabled(sh, me, c, a)
    ensures RegistryOk(AfterReader(sh, c, a))
  {
    ReaderRegisters(sh, me, c, a);
    var move := ReaderMove(sh, c, a);
    if a.ReadRequest? {
      ReadKeepsRegistry(c, a.request);
    } else if move.Some? {
      MoveKeepsRegistry(c, move.value.0, move.value.1);
    }
  }

  lemma ReaderReaderIntake(sh: Shared, me: ConnId, c: Conn, a: Action)
    requires ReaderOk(c.reader, c.place) && PcTokensKnown(c)
    requires IntakeAction(a) && Enabled(sh, me, c, a)
    ensures var d := AfterReader(sh, c, a); ReaderOk(d.reader, d.place)
  {
    ReaderPlacesIntake(sh, c, a);
  }

  lemma ReaderReaderAdmission(sh: Shared, me: ConnId, c: Conn, a: Action)
    requires ReaderOk(c.reader, c.place) && PcTokensKnown(c)
    requires ReaderAction(a) && !IntakeAction(a) && Enabled(sh, me, c, a)
    ensures var d := AfterReader(sh, c, a); ReaderOk(d.reader, d.place)
  {
    ReaderPlacesAdmission(sh, c, a);
  }

  lemma ReaderReader(sh: Shared, me: ConnId, c: Conn, a: Action)
    requires ReaderOk(c.reader, c.place) && PcTokensKnown(c)
    requires ReaderAction(a) && Enabled(sh, me, c, a)
    ensures var d := AfterReader(sh, c, a); ReaderOk(d.reader, d.place)
  {
    if IntakeAction(a) {
      ReaderReaderIntake(sh, me, c, a);
    } else {
      ReaderReaderAdmission(sh, me, c, a);
    }
  }

  lemma ReaderOthers(sh: Shared, me: ConnId, c: Conn, a: Action)
    requires ReaderOk(c.reader, c.place) && PcTokensKnown(c) && c.reg.nextToken !in c.place
    requires WriterOk(c.writer, c.place) && WrittenOk(c.written, c.completed, c.place)
    requires ReaderAction(a) && Enabled(sh, me, c, a)
    ensures var d := AfterReader(sh, c, a); WriterOk(d.writer, d.place) && WrittenOk(d.written, d.completed, d.place)
  {
    ReaderPlaces(sh, c, a);
    var move := ReaderMove(sh, c, a);
    if move.Some? {
      PlaceWriter(c.writer, c.place, move.value.0, move.value.1);
      PlaceWritten(c.written, c.completed, c.place, move.value.0, move.value.1);
    }
  }

  lemma ReaderWorkersIntake(sh: Shared, me: ConnId, c: Conn, a: Action)
    requires ReaderOk(c.reader, c.place) && PcTokensKnown(c) && c.reg.nextToken !in c.place
    requires WorkersOk(c.unjoined, c.place)
    requires IntakeAction(a) && Enabled(sh, me, c, a)
    ensures var d := AfterReader(sh, c, a); WorkersOk(d.unjoined, d.place)
  {
    ReaderPlacesIntake(sh, c, a);
  }

  lemma ReaderWorkersAdmission(sh: Shared, me: ConnId, c: Conn, a: Action)
    requires ReaderOk(c.reader, c.place) && PcTokensKnown(c) && c.reg.nextToken !in c.place
    requires WorkersOk(c.unjoined, c.place)
    requires ReaderAction(a) && !IntakeAction(a) && Enabled(sh, me, c, a)
    ensures var d := AfterReader(sh, c, a); WorkersOk(d.unjoined, d.place)
  {
    ReaderPlacesAdmission(sh, c, a);
  }

  lemma ReaderWorkers(sh: Shared, me: ConnId, c: Conn, a: Action)
    requires ReaderOk(c.reader, c.place) && PcTokensKnown(c) && c.reg.nextToken !in c.place
    requires WorkersOk(c.unjoined, c.place)
    requires ReaderAction(a) && Enabled(sh, me, c, a)
    ensures var d := AfterReader(sh, c, a); WorkersOk(d.unjoined, d.place)
  {
    if IntakeAction(a) {
      ReaderWorkersIntake(sh, me, c, a);
    } else {
      ReaderWorkersAdmission(sh, me, c, a);
    }
  }

  lemma ReaderErrorsIntake(sh: Shared, me: ConnId, c: Conn, a: Action)
    requires ErrorsOk(c) && ReaderOk(c.reader, c.place) && PcTokensKnown(c)
    requires IntakeAction(a) && Enabled(sh, me, c, a)
    ensures ErrorsOk(AfterReader(sh, c, a))
  {
    ReaderPlacesIntake(sh, c, a);
  }

  lemma ReaderErrorsAdmission(sh: Shared, me: ConnId, c: Conn, a: Action)
    requires ErrorsOk(c) && ReaderOk(c.reader, c.place) && PcTokensKnown(c)
    requires ReaderAction(a) && !IntakeAction(a) && Enabled(sh, me, c, a)
    ensures ErrorsOk(AfterReader(sh, c, a))
  {
    ReaderPlacesAdmission(sh, c, a);
  }

  lemma ReaderErrors(sh: Shared, me: ConnId, c: Conn, a: Action)
    requires ErrorsOk(c) && ReaderOk(c.reader, c.place) && PcTokensKnown(c)
    requires ReaderAction(a) && Enabled(sh, me, c, a)
    ensures ErrorsOk(AfterReader(sh, c, a))
  {
    if IntakeAction(a) {
      ReaderErrorsIntake(sh, me, c, a);
    } else {
      ReaderErrorsAdmission(sh, me, c, a);
    }
  }

  lemma ReaderChannel(sh: Shared, me: ConnId, c: Conn, a: Action)
    requires ChannelOk(c.sent, c.received, c.place) && ReaderOk(c.reader, c.place) && PcTokensKnown(c)
    requires c.reg.nextToken !in c.place
    requires ReaderAction(a) && Enabled(sh, me, c, a)
    ensures var d := AfterReader(sh, c, a); ChannelOk(d.sent, d.received, d.place)
  {
    match a
    case Reap(w, _) => if c.place[w].Panicked? { PlaceChannel(c.sent, c.received, c.place, w, Lost); }
    case ReadRequest(_) => PlaceChannel(c.sent, c.received, c.place, c.reg.nextToken, AtReader);
    case CheckShutdown => PlaceChannel(c.sent, c.received, c.place, c.reader.t, Refused);
    case CheckTerminal => PlaceChannel(c.sent, c.received, c.place, c.reader.t, Refused);
    case AnswerHealth(ok) => PlaceChannel(c.sent, c.received, c.place, c.reader.t, HealthSending(ok));
    case SendHealth => PushChannel(c.sent, c.received, c.place, c.reader.t, c.place[c.reader.t].ok);
    case HealthUndeliverable(_) => PlaceChannel(c.sent, c.received, c.place, c.reader.t, Lost);
    case SpawnWorker => PlaceChannel(c.sent, c.received, c.place, c.reader.t, Routing);
    case SpawnFails(_) => PlaceChannel(c.sent, c.received, c.place, c.reader.t, Refused);
    case _ =>
  }

  // ---------- the route workers ----------

  function WorkerMove(c: Conn, a: Action): Option<(Token, Place)> {
    match a
    case RouteReturns(w, ok) => Some((w, Sending(ok)))
    case RoutePanics(w) => Some((w, Panicked))
    case WorkerSends(w) =>
      if w in c.place && c.place[w].Sending? then Some((w, Queued(|c.sent|, c.place[w].ok))) else None
    case WorkerUndeliverable(w) => Some((w, Lost))
    case _ => None
  }

  lemma WorkerMoves(sh: Shared, me: ConnId, c: Conn, a: Action)
    requires WorkerAction(a) && Enabled(sh, me, c, a)
    ensures var d, move := AfterWorker(c, a), WorkerMove(c, a);
            && move.Some? && move.value.0 in c.place && WorkerRunning(c.place[move.value.0])
            && (Live(move.value.1) ==> Live(c.place[move.value.0]))
            && d == Move(c, move.value.0, move.value.1).(sent := d.sent)
            && d.sent == if a.WorkerSends? then c.sent + [Item(move.value.0, move.value.1.ok)] else c.sent
  {
  }

  lemma WorkerStep(sh: Shared, me: ConnId, c: Conn, a: Action)
    requires Inv(c) && WorkerAction(a) && Enabled(sh, me, c, a)
    ensures Inv(AfterWorker(c, a))
  {
    WorkerMoves(sh, me, c, a);
    var d := AfterWorker(c, a);
    var (t, p) := WorkerMove(c, a).value;
    MoveKeepsRegistry(c, t, p);
    assert RegistryOk(d);
    PlaceReader(c.reader, c.place, t, p);
    PlaceWriter(c.writer, c.place, t, p);
    PlaceWritten(c.written, c.completed, c.place, t, p);
    PlaceWorkers(c.unjoined, c.place, t, p);
    if a.WorkerSends? {
      PushChannel(c.sent, c.received, c.place, t, p.ok);
    } else {
      PlaceChannel(c.sent, c.received, c.place, t, p);
    }
    WorkerErrors(sh, me, c, a);
  }

  lemma WorkerErrors(sh: Shared, me: ConnId, c: Conn, a: Action)
    requires ErrorsOk(c) && WorkerAction(a) && Enabled(sh, me, c, a)
    ensures ErrorsOk(AfterWorker(c, a))
  {
    WorkerMoves(sh, me, c, a);
  }

  // ---------- the writer ----------

  function WriterMove(c: Conn, a: Action): Option<(Token, Place)>
    requires c.received <= |c.sent|
  {
    match a
    case Receive(_) =>
      if ChannelEmpty(c) then None
      else Some((c.sent[c.received].token, if c.sent[c.received].ok then AtWriter else Lost))
    case CheckHeld => if c.writer.Held? && c.terminal.Some? then Some((c.writer.t, Lost)) else None
    case WriteSucceeds => if c.writer.Writing? then Some((c.writer.t, Written(|c.written|))) else None
    case WriteFails(_) => if c.writer.Writing? then Some((c.writer.t, Lost)) else None
    case WriterPanics => if WriterToken(c.writer).Some? then Some((WriterToken(c.writer).value, Lost)) else None
    case DiscardItem => if ChannelEmpty(c) then None else Some((c.sent[c.received].token, Lost))
    case _ => None
  }

  predicate WriterAction(a: Action) {
    !ReaderAction(a) && !WorkerAction(a)
  }

  lemma WriterMoves(sh: Shared, me: ConnId, c: Conn, a: Action)
    requires PcTokensKnown(c) && ChannelKnown(c) && c.received <= |c.sent|
    requires WriterOk(c.writer, c.place) && ChannelOk(c.sent, c.received, c.place)
    requires WriterAction(a) && Enabled(sh, me, c, a)
    ensures var d, move := AfterWriter(c, a), WriterMove(c, a);
            && d.maximum == c.maximum && d.unjoined == c.unjoined && d.sent == c.sent && d.reader == c.reader
            && d.received == (if a.Receive? || a.DiscardItem? then c.received + 1 else c.received)
            && if move.Some? then
                 && move.value.0 in c.place && (Live(move.value.1) ==> Live(c.place[move.value.0]))
                 && d.reg == Move(c, move.value.0, move.value.1).reg && d.place == c.place[move.value.0 := move.value.1]
                 && (c.place[move.value.0].Queued? || c.place[move.value.0].AtWriter?)
               else d.reg == c.reg && d.place == c.place
  {
  }

  lemma WriterChannel(sh: Shared, me: ConnId, c: Conn, a: Action)
    requires PcTokensKnown(c) && ChannelKnown(c)
    requires WriterOk(c.writer, c.place) && ChannelOk(c.sent, c.received, c.place)
    requires WriterAction(a) && Enabled(sh, me, c, a)
    ensures var d := AfterWriter(c, a); ChannelOk(d.sent, d.received, d.place)
  {
    WriterMoves(sh, me, c, a);
    var move := WriterMove(c, a);
    if a.Receive? || a.DiscardItem? {
      PopChannel(c.sent, c.received, c.place, move.value.1);
    } else if move.Some? {
      PlaceChannel(c.sent, c.received, c.place, move.value.0, move.value.1);
    }
  }

  lemma WriterWriter(sh: Shared, me: ConnId, c: Conn, a: Action)
    requires PcTokensKnown(c) && ChannelKnown(c)
    requires WriterOk(c.writer, c.place) && ChannelOk(c.sent, c.received, c.place)
    requires WriterAction(a) && Enabled(sh, me, c, a)
    ensures var d := AfterWriter(c, a); WriterOk(d.writer, d.place)
  {
    WriterMoves(sh, me, c, a);
  }

  lemma WriterWritten(sh: Shared, me: ConnId, c: Conn, a: Action)
    requires PcTokensKnown(c) && ChannelKnown(c)
    requires WriterOk(c.writer, c.place) && ChannelOk(c.sent, c.received, c.place)
    requires WrittenOk(c.written, c.completed, c.place)
    requires WriterAction(a) && Enabled(sh, me, c, a)
    ensures var d := AfterWriter(c, a); WrittenOk(d.written, d.completed, d.place)
  {
    WriterMoves(sh, me, c, a);
    var move := WriterMove(c, a);
    if !a.WriteSucceeds? && move.Some? {
      PlaceWritten(c.written, c.completed, c.place, move.value.0, move.value.1);
    }
  }

  lemma WriterRegistry(sh: Shared, me: ConnId, c: Conn, a: Action)
    requires PcTokensKnown(c) && ChannelKnown(c)
    requires WriterOk(c.writer, c.place) && ChannelOk(c.sent, c.received, c.place)
    requires RegistryOk(c)
    requires WriterAction(a) && Enabled(sh, me, c, a)
    ensures RegistryOk(AfterWriter(c, a))
  {
    WriterMoves(sh, me, c, a);
    var move := WriterMove(c, a);
    if move.Some? {
      MoveKeepsRegistry(c, move.value.0, move.value.1);
    }
  }

  lemma WriterOthers(sh: Shared, me: ConnId, c: Conn, a: Action)
    requires PcTokensKnown(c) && ChannelKnown(c)
    requires WriterOk(c.writer, c.place) && ChannelOk(c.sent, c.received, c.place)
    requires ReaderOk(c.reader, c.place) && WorkersOk(c.unjoined, c.place)
    requires WriterAction(a) && Enabled(sh, me, c, a)
    ensures var d := AfterWriter(c, a); ReaderOk(d.reader, d.place) && WorkersOk(d.unjoined, d.place)
  {
    WriterMoves(sh, me, c, a);
    var move := WriterMove(c, a);
    if move.Some? {
      PlaceReader(c.reader, c.place, move.value.0, move.value.1);
      PlaceWorkers(c.unjoined, c.place, move.value.0, move.value.1);
    }
  }

  lemma WriterErrors(sh: Shared, me: ConnId, c: Conn, a: Action)
    requires PcTokensKnown(c) && ChannelKnown(c) && ErrorsOk(c)
    requires WriterOk(c.writer, c.place) && ChannelOk(c.sent, c.received, c.place)
    requires WriterAction(a) && Enabled(sh, me, c, a)
    ensures ErrorsOk(AfterWriter(c, a))
  {
    WriterMoves(sh, me, c, a);
  }

  // ---------- every step ----------

  lemma InvKnowsTokens(c: Conn)
    requires Inv(c)
    ensures PcTokensKnown(c) && ChannelKnown(c) && c.reg.nextToken !in c.place
  {
  }

  lemma StepInv(sh: Shared, me: ConnId, c: Conn, a: Action)
    requires Inv(c) && Enabled(sh, me, c, a)
    ensures PcTokensKnown(c) && ChannelKnown(c) && Inv(After(sh, c, a))
  {
    InvKnowsTokens(c);
    if ReaderAction(a) {
      ReaderRegistry(sh, me, c, a);
      ReaderReader(sh, me, c, a);
      ReaderOthers(sh, me, c, a);
      ReaderWorkers(sh, me, c, a);
      ReaderChannel(sh, me, c, a);
      ReaderErrors(sh, me, c, a);
    } else if WorkerAction(a) {
      WorkerStep(sh, me, c, a);
    } else {
      WriterChannel(sh, me, c, a);
      WriterWriter(sh, me, c, a);
      WriterWritten(sh, me, c, a);
      WriterRegistry(sh, me, c, a);
      WriterOthers(sh, me, c, a);
      WriterErrors(sh, me, c, a);
    }
  }
}
