/**
 One authenticated connection of the daemon as a step machine: a reader, any
 number of route workers, a writer, the bounded response channel, and the
 shutdown fence it shares with every other connection.
 */
module ConnectionProtocol {
  import opened Common
  import R = ConnectionRegistry

  type ConnId = nat
  type Token = nat
  type Code = nat

  /** Shared by all connections: the shutdown flag and the mutex that guards admission. */
  datatype Owner = Reader(conn: ConnId) | Requester

  datatype Shared = Shared(shutdown: bool, fence: Option<Owner>)

  /**
   Where the one-shot capability of a request is. `Sending(ok)` is a route
   worker about to send a response or an error; `Queued(n, ok)` is the n-th item
   ever sent; `Panicked` is a worker that unwound and is not joined yet;
   `Refused` never reached a worker, and `Lost` did but will not be written.
   */
  datatype Place =
    | AtReader
    | Refused
    | HealthSending(ok: bool)
    | Routing
    | Sending(ok: bool)
    | Queued(n: nat, ok: bool)
    | Panicked
    | AtWriter
    | Written(n: nat)
    | Lost

  predicate Live(p: Place) {
    match p
    case AtReader | Routing | AtWriter => true
    case HealthSending(ok) => ok
    case Sending(ok) => ok
    case Queued(_, ok) => ok
    case _ => false
  }

  /** The request crossed the admission section into a worker or a health reply. */
  predicate Admitted(p: Place) {
    !p.AtReader? && !p.Refused?
  }

  datatype Item = Item(token: Token, ok: bool)

  datatype ReaderPc =
    | Top
    | Reading
    | Holding(t: Token)
    | Admitting(t: Token)
    | Checked(t: Token)
    | Cleared(t: Token)
    | SendingHealth(t: Token)
    | Unlocking(leaving: bool)
    | Draining
    | AwaitingWriter
    | Finished

  datatype WriterPc = Control | Receiving | Held(t: Token) | Writing(t: Token)
      | Stopping(panicked: bool) | Stopped(panicked: bool)

  /** `sent` is every item ever sent; those from `received` on are still in the channel. */
  datatype Conn = Conn(
    maximum: nat,
    reg: R.Registry,
    place: map<Token, Place>,
    unjoined: set<Token>,
    sent: seq<Item>,
    received: nat,
    control: seq<Code>,
    terminal: Option<Code>,
    reader: ReaderPc,
    writer: WriterPc,
    written: seq<Token>,
    completed: nat)

  function Opened(maximum: nat): Conn {
    Conn(maximum, R.EMPTY, map[], {}, [], 0, [], None, Top, Control, [], 0)
  }

  // ---------- building blocks of the steps ----------

  /** Moves a capability; dropping it releases its registration. */
  function Move(c: Conn, t: Token, p: Place): Conn
    requires t in c.place
  {
    c.(place := c.place[t := p], reg := if Live(c.place[t]) && !Live(p) then R.Released(c.reg, t) else c.reg)
  }

  /** The first terminal error wins. */
  function Fail(c: Conn, code: Code): Conn {
    c.(terminal := if c.terminal.Some? then c.terminal else Some(code))
  }

  /** Sets the error and tells the writer to abort. */
  function Abort(c: Conn, code: Code): Conn {
    Fail(c, code).(control := c.control + [code])
  }

  /** The receiving half of the response channel still exists. */
  predicate ReceiverAlive(w: WriterPc) {
    !w.Stopping? && !w.Stopped?
  }

  predicate WorkerRunning(p: Place) {
    p.Routing? || p.Sending?
  }

  predicate ReaderGone(r: ReaderPc) {
    r == Draining || r == AwaitingWriter || r == Finished
  }

  /** Some sending half of the response channel still exists. */
  predicate SenderAlive(c: Conn) {
    !ReaderGone(c.reader) || exists t :: t in c.place && WorkerRunning(c.place[t])
  }

  function Push(c: Conn, t: Token, ok: bool): Conn
    requires t in c.place
  {
    Move(c, t, Queued(|c.sent|, ok)).(sent := c.sent + [Item(t, ok)])
  }

  function Pop(c: Conn): Conn {
    c.(received := c.received + 1)
  }

  predicate ChannelEmpty(c: Conn) {
    c.received >= |c.sent|
  }

  predicate ChannelHasRoom(c: Conn) {
    |c.sent| - c.received < c.maximum
  }

  // ---------- the steps ----------

  datatype Action =
    // reader
    | Reap(worker: Token, code: Code)
    | SeeShutdown
    | SeeTerminal
    | BeginRead
    | ClockOverflow(code: Code)
    | ReadRequest(request: R.Outstanding)
    | ReadFails(code: Code)
    | Lock
    | CheckShutdown
    | CheckTerminal
    | AnswerHealth(ok: bool)
    | SendHealth
    | HealthUndeliverable(code: Code)
    | SpawnWorker
    | SpawnFails(code: Code)
    | Unlock
    | AllJoined
    | JoinWriter(code: Code)
    // route workers
    | RouteReturns(worker: Token, ok: bool)
    | RoutePanics(worker: Token)
    | WorkerSends(worker: Token)
    | WorkerUndeliverable(worker: Token)
    // writer
    | TakeControl
    | NoControl
    | Receive(code: Code)
    | ReceiveTimeout
    | Disconnected
    | CheckHeld
    | WriteSucceeds
    | WriteFails(code: Code)
    | WriterPanics
    | DiscardItem
    | StopWriter

  predicate Enabled(sh: Shared, me: ConnId, c: Conn, a: Action) {
    match a
    case Reap(w, _) =>
      (c.reader == Top || c.reader == Draining) && w in c.unjoined && w in c.place && !WorkerRunning(c.place[w])
    case SeeShutdown => c.reader == Top && sh.shutdown
    case SeeTerminal => c.reader == Top && c.terminal.Some?
    case BeginRead => c.reader == Top && !sh.shutdown && c.terminal.None?
    case ClockOverflow(_) => c.reader == Top
    case ReadRequest(request) => c.reader == Reading && R.Admission(c.reg, c.maximum, request.id).None?
    case ReadFails(_) => c.reader == Reading
    case Lock => c.reader.Holding? && sh.fence.None?
    case CheckShutdown => c.reader.Admitting?
    case CheckTerminal => c.reader.Checked?
    case AnswerHealth(_) => c.reader.Cleared? && c.reader.t in c.reg.byToken
      && c.reg.byToken[c.reader.t].rpc == R.Health
    case SendHealth => c.reader.SendingHealth? && ReceiverAlive(c.writer) && ChannelHasRoom(c)
    case HealthUndeliverable(_) => c.reader.SendingHealth? && !ReceiverAlive(c.writer)
    case SpawnWorker => c.reader.Cleared? && c.reader.t in c.reg.byToken && c.reg.byToken[c.reader.t].rpc != R.Health
    case SpawnFails(_) => c.reader.Cleared?
    case Unlock => c.reader.Unlocking?
    case AllJoined => c.reader == Draining && c.unjoined == {}
    case JoinWriter(_) => c.reader == AwaitingWriter && c.writer.Stopped?
    case RouteReturns(w, _) => w in c.place && c.place[w] == Routing
    case RoutePanics(w) => w in c.place && c.place[w] == Routing
    case WorkerSends(w) => w in c.place && c.place[w].Sending? && ReceiverAlive(c.writer) && ChannelHasRoom(c)
    case WorkerUndeliverable(w) => w in c.place && c.place[w].Sending? && !ReceiverAlive(c.writer)
    case TakeControl => c.writer == Control && c.control != []
    case NoControl => c.writer == Control && c.control == []
    case Receive(_) => c.writer == Receiving && !ChannelEmpty(c)
    case ReceiveTimeout => c.writer == Receiving
    case Disconnected => c.writer == Receiving && ChannelEmpty(c) && !SenderAlive(c)
    case CheckHeld => c.writer.Held?
    case WriteSucceeds => c.writer.Writing?
    case WriteFails(_) => c.writer.Writing?
    case WriterPanics => ReceiverAlive(c.writer)
    case DiscardItem => c.writer.Stopping? && !ChannelEmpty(c)
    case StopWriter => c.writer.Stopping? && ChannelEmpty(c)
  }

  /** A joined worker that panicked is a terminal error; while draining the writer is told as well. */
  function Joined(c: Conn, w: Token, code: Code): Conn
    requires w in c.place
  {
    var joined := c.(unjoined := c.unjoined - {w});
    if c.place[w] != Panicked then joined
    else
      var lost := Move(joined, w, Lost);
      if c.reader == Draining then Abort(lost, code) else Fail(lost, code)
  }

  function ReaderRefuses(c: Conn, t: Token): Conn
    requires t in c.place
  {
    Move(c, t, Refused).(reader := Unlocking(true))
  }

  function AfterReader(sh: Shared, c: Conn, a: Action): Conn
    requires PcTokensKnown(c)
  {
    match a
    case Reap(w, code) => if w in c.place then Joined(c, w, code) else c
    case SeeShutdown | SeeTerminal => c.(reader := Draining)
    case BeginRead => c.(reader := Reading)
    case ClockOverflow(code) => Abort(c, code).(reader := Draining)
    case ReadRequest(request) =>
      var t := c.reg.nextToken;
      c.(reg := R.Registered(c.reg, request), place := c.place[t := AtReader], reader := Holding(t))
    case ReadFails(code) =>
      (if !sh.shutdown && c.terminal.None? then Abort(c, code) else c).(reader := Draining)
    case Lock => if c.reader.Holding? then c.(reader := Admitting(c.reader.t)) else c
    case CheckShutdown =>
      if !c.reader.Admitting? then c
      else if sh.shutdown then ReaderRefuses(c, c.reader.t)
      else c.(reader := Checked(c.reader.t))
    case CheckTerminal =>
      if !c.reader.Checked? then c
      else if c.terminal.Some? then ReaderRefuses(c, c.reader.t)
      else c.(reader := Cleared(c.reader.t))
    case AnswerHealth(ok) =>
      if !c.reader.Cleared? then c
      else Move(c, c.reader.t, HealthSending(ok)).(reader := SendingHealth(c.reader.t))
    case SendHealth =>
      if !c.reader.SendingHealth? || !c.place[c.reader.t].HealthSending? then c
      else Push(c, c.reader.t, c.place[c.reader.t].ok).(reader := Unlocking(false))
    case HealthUndeliverable(code) =>
      if !c.reader.SendingHealth? then c
      else Fail(Move(c, c.reader.t, Lost), code).(reader := Unlocking(true))
    case SpawnWorker =>
      if !c.reader.Cleared? then c
      else Move(c, c.reader.t, Routing).(unjoined := c.unjoined + {c.reader.t}, reader := Unlocking(false))
    case SpawnFails(code) => if !c.reader.Cleared? then c else Abort(ReaderRefuses(c, c.reader.t), code)
    case Unlock => if !c.reader.Unlocking? then c else c.(reader := if c.reader.leaving then Draining else Top)
    case AllJoined => c.(reader := AwaitingWriter)
    case JoinWriter(code) => (if c.writer == Stopped(true) then Fail(c, code) else c).(reader := Finished)
    case _ => c
  }

  function AfterWorker(c: Conn, a: Action): Conn {
    match a
    case RouteReturns(w, ok) => if w in c.place then Move(c, w, Sending(ok)) else c
    case RoutePanics(w) => if w in c.place then Move(c, w, Panicked) else c
    case WorkerSends(w) => if w in c.place && c.place[w].Sending? then Push(c, w, c.place[w].ok) else c
    case WorkerUndeliverable(w) => if w in c.place then Move(c, w, Lost) else c
    case _ => c
  }

  function AfterWriter(c: Conn, a: Action): Conn
    requires PcTokensKnown(c) && ChannelKnown(c)
  {
    match a
    case TakeControl => if c.control == [] then c
      else Fail(c, c.control[0]).(control := c.control[1..], writer := Stopping(false))
    case NoControl => c.(writer := Receiving)
    case Receive(code) =>
      if ChannelEmpty(c) then c
      else
        var item := c.sent[c.received];
        if item.ok then Move(Pop(c), item.token, AtWriter).(writer := Held(item.token))
        else Fail(Move(Pop(c), item.token, Lost), code).(writer := Stopping(false))
    case ReceiveTimeout => c.(writer := Control)
    case Disconnected => c.(writer := Stopped(false))
    case CheckHeld =>
      if !c.writer.Held? then c
      else if c.terminal.Some? then Move(c, c.writer.t, Lost).(writer := Stopping(false))
      else c.(writer := Writing(c.writer.t))
    case WriteSucceeds =>
      if !c.writer.Writing? then c
      else
        Move(c, c.writer.t, Written(|c.written|)).(
        written := c.written + [c.writer.t], completed := c.completed + 1, writer := Control)
    case WriteFails(code) =>
      if !c.writer.Writing? then c else Fail(Move(c, c.writer.t, Lost), code).(writer := Stopping(false))
    case WriterPanics =>
      (if c.writer.Held? || c.writer.Writing? then Move(c, c.writer.t, Lost) else c).(writer := Stopping(true))
    case DiscardItem => if ChannelEmpty(c) then c else Move(Pop(c), c.sent[c.received].token, Lost)
    case StopWriter => if c.writer.Stopping? then c.(writer := Stopped(c.writer.panicked)) else c
    case _ => c
  }

  predicate ReaderAction(a: Action) {
    match a
    case RouteReturns(_, _) | RoutePanics(_) | WorkerSends(_) | WorkerUndeliverable(_) => false
    case TakeControl | NoControl | Receive(_) | ReceiveTimeout | Disconnected | CheckHeld => false
    case WriteSucceeds | WriteFails(_) | WriterPanics | DiscardItem | StopWriter => false
    case _ => true
  }

  predicate WorkerAction(a: Action) {
    a.RouteReturns? || a.RoutePanics? || a.WorkerSends? || a.WorkerUndeliverable?
  }

  function After(sh: Shared, c: Conn, a: Action): Conn
    requires PcTokensKnown(c) && ChannelKnown(c)
  {
    if ReaderAction(a) then AfterReader(sh, c, a)
    else if WorkerAction(a) then AfterWorker(c, a)
    else AfterWriter(c, a)
  }

  function SharedAfter(sh: Shared, me: ConnId, a: Action): Shared {
    match a
    case Lock => sh.(fence := Some(Reader(me)))
    case Unlock => sh.(fence := None)
    case _ => sh
  }

  // ---------- well-formedness of the tokens in hand ----------

  function ReaderToken(r: ReaderPc): Option<Token> {
    match r
    case Holding(t) => Some(t)
    case Admitting(t) => Some(t)
    case Checked(t) => Some(t)
    case Cleared(t) => Some(t)
    case _ => None
  }

  function WriterToken(w: WriterPc): Option<Token> {
    match w
    case Held(t) => Some(t)
    case Writing(t) => Some(t)
    case _ => None
  }

  predicate PcTokensKnown(c: Conn) {
    && (ReaderToken(c.reader).Some? ==> ReaderToken(c.reader).value in c.place)
    && (c.reader.SendingHealth? ==> c.reader.t in c.place)
    && (WriterToken(c.writer).Some? ==> WriterToken(c.writer).value in c.place)
  }

  predicate ChannelKnown(c: Conn) {
    forall i :: c.received <= i < |c.sent| ==> c.sent[i].token in c.place
  }
}
