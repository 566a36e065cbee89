/**
The datagram receive pipeline of one endpoint: connect tasks, reader and writer tasks, user
disconnects and ECS frames, interleaved in any order. Establishment and closure travel on one
bounded queue, packets on another lossy one, each drained under its own per-frame budget; the
`published` flag and the cancellation token are all that ties them together.

Client and server run the same logic here and are modelled once.
*/
module Pipeline {
  import opened LossyQueue
  import opened Options
  import opened Udp

  /** A received payload: its length and what the packet codec makes of it (`None` if malformed). */
  datatype Datagram = Datagram(size: nat, packet: Option<nat>)

  /** Why a connection closed: a local disconnect, or an error of the reader, the writer or the setup. */
  datatype Cause =
    | Intentional
    | ReadFailed(error: nat)
    | WriteFailed(error: nat)
    | SplitFailed(error: nat)

  /** Both what the queues carry and what ECS observers see. */
  datatype Event =
    | Established(conn: nat)
    | Packet(conn: nat, packet: nat)
    | Closed(conn: nat, cause: Cause)

  /** The connect task, then the reader task. `Leaving` is out of the receive loop but before the last
      look at the writer's report, `Settled` after it, `Closing` once cancellation is raised. */
  datatype Stage =
    | Announcing
    | Announced
    | Abandoned
    | Reading
    | Leaving(cause: Cause)
    | Settled(cause: Cause)
    | Closing(cause: Cause)
    | Finished(cause: Cause)

  datatype Writer = Writing | Failing(error: nat) | Stopped

  /** The one-shot channel from writer to reader. */
  datatype Report = NoReport | Reported(error: nat) | Taken

  /** Who first cancelled the connection. */
  datatype Raiser = Nobody | ByWriter(error: nat) | ByOther

  /** `socket` tells a connection that owns its socket from one fed by a listener's raw queue. `arrivals` are
      the datagrams counted as received, `drops[reason]` is the drop counter for that reason. `hand` is a
      decoded packet between the read and its hand-over to the ECS queue. `failure` and `late` record what the
      writer reported and whether the reader had already looked for it. */
  datatype Conn = Conn(
    socket: bool, published: bool, cancelled: bool, raiser: Raiser, peerClosed: bool,
    stage: Stage, raw: Queue<Datagram>, hand: Option<nat>,
    writer: Writer, report: Report, failure: Option<nat>, late: bool,
    arrivals: seq<Datagram>, drops: Drops)

  datatype Phase =
    | Resting
    | DrainingLifecycle(left: nat, budget: nat)
    | ApplyingLifecycle
    | DrainingPackets(left: nat)
    | ApplyingPackets

  /** `lifecycle` and `packets` are the two queues into the ECS, `commands` the deferred commands of the
      running frame, `events` everything observers have been shown. */
  datatype State = State(
    conns: seq<Conn>, lifecycle: seq<Event>, packets: Queue<Event>, commands: seq<Event>,
    events: seq<Event>, phase: Phase)

  datatype Settings = Settings(raw: Limits, ecs: Limits, lifecycleCapacity: nat)

  datatype SetupStep = Announce | Abandon | Start | SplitFail(error: nat)

  datatype ReaderStep =
    | ReadQueued(limit: nat) | ReadSocket(datagram: Datagram, limit: nat)
    | Forward
    | LeaveOnReport | LeaveOnCancel | LeaveOnError(error: nat)
    | FinalPoll | RaiseCancel | SendClosed | DropReader

  datatype WriterStep = ReportFailure(error: nat) | CancelConnection | StopQuietly

  datatype FrameStep =
    | BeginFrame(budget: nat) | DrainLifecycle | EndLifecycle
    | BeginPackets(budget: nat) | DrainPacket | EndPackets
    | ApplyCommand | EndFrame

  datatype Step =
    | Connect(first: Option<Datagram>)
    | Setup(c: nat, setup: SetupStep)
    | Reader(c: nat, reader: ReaderStep)
    | Writer(c: nat, writer: WriterStep)
    | Arrive(c: nat, datagram: Datagram)
    | Disconnect(c: nat)
    | Frame(frame: FrameStep)

  // ---------------------------------------------------------------------------------------------
  // Pieces of steps
  // ---------------------------------------------------------------------------------------------

  function Admit(settings: Settings, q: Queue<Datagram>, d: Datagram): (Queue<Datagram>, SendResult<Datagram>) {
    TrySend(settings.raw, q, d, d.size)
  }

  function NewConn(socket: bool, raw: Queue<Datagram>, arrivals: seq<Datagram>): Conn {
    Conn(socket, false, false, Nobody, false, Announcing, raw, None, Stopped, NoReport, None, false, arrivals, multiset{})
  }

  function Cancel(k: Conn, raiser: Raiser): Conn {
    if k.cancelled then k else k.(cancelled := true, raiser := raiser)
  }

  function Charge(k: Conn, reason: DropReason, n: nat): Conn {
    k.(drops := Charged(k.drops, reason, n))
  }

  /** Dropping the tracked receive queue: whatever is still queued is charged as closed before delivery. */
  function DropRaw(k: Conn): Conn {
    Charge(k, ClosedBeforeDelivery, |k.raw.items|).(raw := CloseAndDrain(k.raw).0, peerClosed := true)
  }

  /** `dispatch` to this peer: count the datagram as received, then `Peer::push`. */
  function Deposit(settings: Settings, k: Conn, d: Datagram): Conn {
    var k' := k.(arrivals := k.arrivals + [d]);
    if k.peerClosed then Charge(k', ClosedBeforeDelivery, 1)
    else
      var (q, r) := Admit(settings, k.raw, d);
      match r
      case Sent(evicted) => Charge(k', RawQueueEvicted, |evicted|).(raw := q)
      case Full(_) => Charge(k', RawQueueFull, 1)
      case Closed(_) => Charge(k', ClosedBeforeDelivery, 1)
  }

  /** What `receive_with_timestamp` does with a payload it has taken. */
  function Classify(k: Conn, d: Datagram, limit: nat): Conn {
    if d.size > MAX_DATAGRAM_SIZE || d.size > limit then Charge(k, ReceiveLimit, 1)
    else match d.packet
      case None => Charge(k, MalformedPayload, 1)
      case Some(p) => k.(hand := Some(p))
  }

  /** Charge each evicted packet to its own connection. */
  function ChargeEvicted(conns: seq<Conn>, evicted: seq<Event>): (r: seq<Conn>)
    ensures |r| == |conns|
    decreases |evicted|
  {
    if evicted == [] then conns
    else
      var c := evicted[0].conn;
      ChargeEvicted(if c < |conns| then conns[c := Charge(conns[c], ReceiveQueueEvicted, 1)] else conns, evicted[1..])
  }

  /** `PacketForwarder::forward` for datagrams: admit, or charge the new packet. */
  function ForwardPacket(settings: Settings, s: State, c: nat): State
    requires c < |s.conns| && s.conns[c].hand.Some?
  {
    var k := s.conns[c].(hand := None);
    var (q, r) := TrySend(settings.ecs, s.packets, Packet(c, s.conns[c].hand.value), 1);
    if r.Sent? then s.(conns := ChargeEvicted(s.conns[c := k], r.evicted), packets := q)
    else s.(conns := s.conns[c := Charge(k, ReceiveQueueFull, 1)])
  }

  predicate PastFinalPoll(stage: Stage) { stage.Settled? || stage.Closing? || stage.Finished? }

  predicate ReadyForEcs(s: State, e: Event) {
    e.conn < |s.conns| && (s.conns[e.conn].published || s.conns[e.conn].cancelled)
  }

  predicate FrontReady(s: State) {
    s.packets.items != [] && ReadyForEcs(s, s.packets.items[0].value)
  }

  /** One iteration of `receive_datagram_packets`. */
  function TakePacket(s: State): State
    requires FrontReady(s)
  {
    var e := s.packets.items[0].value;
    var s' := s.(packets := TryRecv(s.packets, x => ReadyForEcs(s, x)).0);
    if s.conns[e.conn].cancelled then s'.(conns := s.conns[e.conn := Charge(s.conns[e.conn], ClosedBeforeDelivery, 1)])
    else s'.(commands := s.commands + [e])
  }

  /** One deferred command: publish, deliver unless cancelled by now, or close. */
  function RunCommand(s: State): State
    requires s.commands != [] && s.commands[0].conn < |s.conns|
  {
    var e := s.commands[0];
    var k := s.conns[e.conn];
    var s' := s.(commands := s.commands[1..]);
    match e
    case Established(c) => s'.(conns := s.conns[c := k.(published := true)], events := s.events + [e])
    case Closed(_, _) => s'.(events := s.events + [e])
    case Packet(c, _) =>
      if k.cancelled then s'.(conns := s.conns[c := Charge(k, ClosedBeforeDelivery, 1)]) else s'.(events := s.events + [e])
  }

  // ---------------------------------------------------------------------------------------------
  // Steps
  // ---------------------------------------------------------------------------------------------

  predicate SetupGuard(k: Conn, step: SetupStep) {
    match step
    case Announce => k.stage.Announcing?
    case Abandon => k.stage.Announcing? || k.stage.Announced?
    case Start => k.stage.Announced?
    case SplitFail(_) => k.stage.Announced?
  }

  function SetupEffect(k: Conn, step: SetupStep): Conn {
    match step
    case Announce => k.(stage := Announced)
    case Abandon => DropRaw(k).(stage := Abandoned)
    case Start => k.(stage := Reading, writer := Writing)
    case SplitFail(error) => DropRaw(Cancel(k, ByOther)).(stage := Closing(SplitFailed(error)))
  }

  predicate ReaderGuard(k: Conn, step: ReaderStep) {
    match step
    case ReadQueued(_) => k.stage.Reading? && k.hand.None? && k.raw.items != []
    case ReadSocket(_, _) => k.socket && k.stage.Reading? && k.hand.None?
    case Forward => k.stage.Reading? && k.hand.Some?
    case LeaveOnReport => k.stage.Reading? && k.hand.None? && k.report.Reported?
    case LeaveOnCancel => k.stage.Reading? && k.hand.None? && k.cancelled
    case LeaveOnError(_) => k.stage.Reading? && k.hand.None?
    case FinalPoll => k.stage.Leaving?
    case RaiseCancel => k.stage.Settled?
    case SendClosed => k.stage.Closing?
    case DropReader => k.stage.Finished? && k.raw.open
  }

  function ReaderEffect(k: Conn, step: ReaderStep): Conn
    requires ReaderGuard(k, step)
  {
    match step
    case ReadQueued(limit) => Classify(k.(raw := TryRecv(k.raw, _ => true).0), k.raw.items[0].value, limit)
    case ReadSocket(d, limit) => Classify(k.(arrivals := k.arrivals + [d]), d, limit)
    case Forward => k.(hand := None)
    case LeaveOnReport => k.(stage := Leaving(WriteFailed(k.report.error)), report := Taken)
    case LeaveOnCancel => k.(stage := Leaving(Intentional))
    case LeaveOnError(error) => k.(stage := Leaving(ReadFailed(error)))
    case FinalPoll =>
      if k.report.Reported? then k.(stage := Settled(WriteFailed(k.report.error)), report := Taken)
      else k.(stage := Settled(k.stage.cause))
    case RaiseCancel => Cancel(k, ByOther).(stage := Closing(k.stage.cause), peerClosed := true)
    case SendClosed => k.(stage := Finished(k.stage.cause))
    case DropReader => DropRaw(k)
  }

  predicate WriterGuard(k: Conn, step: WriterStep) {
    match step
    case ReportFailure(_) => k.writer.Writing?
    case CancelConnection => k.writer.Failing?
    case StopQuietly => k.writer.Writing? && k.cancelled
  }

  function WriterEffect(k: Conn, step: WriterStep): Conn
    requires WriterGuard(k, step)
  {
    match step
    case ReportFailure(error) =>
      var late := PastFinalPoll(k.stage);
      k.(writer := Failing(error), failure := Some(error), late := late,
         report := if late then k.report else Reported(error))
    case CancelConnection => Cancel(k, ByWriter(k.writer.error)).(writer := Stopped)
    case StopQuietly => k.(writer := Stopped)
  }

  predicate FrameGuard(s: State, step: FrameStep) {
    match step
    case BeginFrame(_) => s.phase.Resting?
    case DrainLifecycle => s.phase.DrainingLifecycle? && s.phase.left > 0 && s.lifecycle != []
    case EndLifecycle => s.phase.DrainingLifecycle? && (s.phase.left == 0 || s.lifecycle == [])
    case BeginPackets(_) => s.phase.ApplyingLifecycle? && s.commands == []
    case DrainPacket => s.phase.DrainingPackets? && s.phase.left > 0 && FrontReady(s)
    case EndPackets => s.phase.DrainingPackets? && (s.phase.left == 0 || !FrontReady(s))
    case ApplyCommand =>
      && (s.phase.ApplyingLifecycle? || s.phase.ApplyingPackets?)
      && s.commands != [] && s.commands[0].conn < |s.conns|
    case EndFrame => s.phase.ApplyingPackets? && s.commands == []
  }

  function FrameEffect(s: State, step: FrameStep): State
    requires FrameGuard(s, step)
  {
    match step
    case BeginFrame(budget) => s.(phase := DrainingLifecycle(budget, budget))
    case DrainLifecycle =>
      s.(phase := DrainingLifecycle(s.phase.left - 1, s.phase.budget),
         lifecycle := s.lifecycle[1..], commands := s.commands + [s.lifecycle[0]])
    case EndLifecycle => s.(phase := ApplyingLifecycle)
    case BeginPackets(budget) => s.(phase := DrainingPackets(budget))
    case DrainPacket => TakePacket(s).(phase := DrainingPackets(s.phase.left - 1))
    case EndPackets => s.(phase := ApplyingPackets)
    case ApplyCommand => RunCommand(s)
    case EndFrame => s.(phase := Resting)
  }

  predicate Enabled(settings: Settings, s: State, step: Step) {
    match step
    case Connect(first) => first.Some? ==> Admit(settings, Queue([], 0, 1, true), first.value).1.Sent?
    case Setup(c, setup) =>
      && c < |s.conns| && SetupGuard(s.conns[c], setup)
      && (setup.Announce? ==> |s.lifecycle| < settings.lifecycleCapacity)
    case Reader(c, reader) =>
      && c < |s.conns| && ReaderGuard(s.conns[c], reader)
      && (reader.SendClosed? ==> |s.lifecycle| < settings.lifecycleCapacity)
    case Writer(c, writer) => c < |s.conns| && WriterGuard(s.conns[c], writer)
    case Arrive(c, d) => c < |s.conns| && !s.conns[c].socket && d.size <= MAX_DATAGRAM_SIZE
    case Disconnect(c) => c < |s.conns|
    case Frame(frame) => FrameGuard(s, frame)
  }

  function Do(settings: Settings, s: State, step: Step): State
    requires Enabled(settings, s, step)
  {
    match step
    case Connect(None) => s.(conns := s.conns + [NewConn(true, Queue([], 0, 1, true), [])])
    case Connect(Some(d)) => s.(conns := s.conns + [NewConn(false, Admit(settings, Queue([], 0, 1, true), d).0, [d])])
    case Setup(c, setup) =>
      var s' := s.(conns := s.conns[c := SetupEffect(s.conns[c], setup)]);
      if setup.Announce? then s'.(lifecycle := s.lifecycle + [Established(c)]) else s'
    case Reader(c, reader) =>
      if reader.Forward? then ForwardPacket(settings, s, c)
      else
        var s' := s.(conns := s.conns[c := ReaderEffect(s.conns[c], reader)]);
        if reader.SendClosed? then s'.(lifecycle := s.lifecycle + [Event.Closed(c, s.conns[c].stage.cause)]) else s'
    case Writer(c, writer) => s.(conns := s.conns[c := WriterEffect(s.conns[c], writer)])
    case Arrive(c, d) => s.(conns := s.conns[c := Deposit(settings, s.conns[c], d)])
    case Disconnect(c) => s.(conns := s.conns[c := Cancel(s.conns[c], ByOther)])
    case Frame(frame) => FrameEffect(s, frame)
  }

  function Initial(): State {
    State([], [], Queue([], 0, 1, true), [], [], Resting)
  }

  /** The state a schedule leads to from `s`, if each of its steps is enabled in turn. */
  function ExecFrom(settings: Settings, s: State, schedule: seq<Step>): Option<State> {
    if schedule == [] then Some(s)
    else
      var before := ExecFrom(settings, s, schedule[..|schedule| - 1]);
      var step := schedule[|schedule| - 1];
      if before.Some? && Enabled(settings, before.value, step)
      then Some(Do(settings, before.value, step))
      else None
  }

  /** A run of the whole endpoint. */
  ghost predicate Reached(settings: Settings, schedule: seq<Step>, s: State) {
    ExecFrom(settings, Initial(), schedule) == Some(s)
  }
}
