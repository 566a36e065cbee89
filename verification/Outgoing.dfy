/**
The outgoing path of one UDP connection: the ECS submits packets to a lossy queue, the writer task
takes them one at a time, encodes, paces and sends them, and may be cancelled at any await point.
Every accepted packet has exactly one fate, and the counters tell it.
*/
module Outgoing {
  import opened LossyQueue
  import opened Options

  /** Where an accepted packet is, or how it ended. `EndedWriter` is an error that is reported to the
      reader instead of being counted. */
  datatype Fate = Queued | Held | Delivered | Oversized | SocketError | Evicted | ClosedEarly | EndedWriter

  datatype Progress = Taken | Pacing(size: nat) | Sending(size: nat)

  datatype Writer = Waiting | Holding(id: nat, progress: Progress) | Gone

  datatype ErrorKind = ConnectionAborted | OtherError

  datatype Counters = Counters(sent: nat, oversized: nat, socketErrors: nat, evicted: nat, closed: nat, full: nat)

  /** Packets are identified by their order of acceptance; `fates` lists them. */
  datatype State = State(
    queue: Queue<nat>, writer: Writer, cancelled: bool, peerClosed: bool, fates: seq<Fate>, counters: Counters)

  datatype Step =
    | Submit
    | Take | StopWaiting | StopBeforeSending
    | Encode(size: Option<nat>)
    | PacingDone | PacingAborted
    | TransmitOk | TransmitFailed(kind: ErrorKind)
    | Interrupt
    | DropReceiver
    | Cancel | ClosePeer

  function SetAll(fates: seq<Fate>, ids: seq<nat>, fate: Fate): (r: seq<Fate>)
    ensures |r| == |fates|
    decreases |ids|
  {
    if ids == [] then fates
    else SetAll(if ids[0] < |fates| then fates[ids[0] := fate] else fates, ids[1..], fate)
  }

  predicate Enabled(s: State, step: Step) {
    match step
    case Submit => true
    case Take => s.writer.Waiting? && s.queue.items != []
    case StopWaiting => s.writer.Waiting? && (s.cancelled || (s.queue.items == [] && s.queue.senders == 0))
    case StopBeforeSending => s.writer.Holding? && s.writer.progress.Taken? && s.cancelled
    case Encode(_) => s.writer.Holding? && s.writer.progress.Taken?
    case PacingDone => s.writer.Holding? && s.writer.progress.Pacing?
    case PacingAborted => s.writer.Holding? && s.writer.progress.Pacing? && s.peerClosed
    case TransmitOk => s.writer.Holding? && s.writer.progress.Sending?
    case TransmitFailed(_) => s.writer.Holding? && s.writer.progress.Sending?
    case Interrupt => s.writer.Holding? && !s.writer.progress.Taken? && s.cancelled
    case DropReceiver => s.writer.Gone? && s.queue.open
    case Cancel => true
    case ClosePeer => true
  }

  /** The held packet ends with the given fate and the writer moves on. */
  function Settle(s: State, fate: Fate, writer: Writer): State
    requires s.writer.Holding? && s.writer.id < |s.fates|
  {
    var n := s.counters;
    var n' := match fate
      case Delivered => n.(sent := n.sent + 1)
      case Oversized => n.(oversized := n.oversized + 1)
      case SocketError => n.(socketErrors := n.socketErrors + 1)
      case ClosedEarly => n.(closed := n.closed + 1)
      case _ => n;
    s.(fates := s.fates[s.writer.id := fate], writer := writer, counters := n')
  }

  /** `PendingPacket`: an error of any other kind clears the charge before it is reported. */
  function FateOfError(kind: ErrorKind): Fate {
    if kind == ConnectionAborted then ClosedEarly else EndedWriter
  }

  function SubmitPacket(limits: Limits, s: State): State {
    var id := |s.fates|;
    var (q, r) := TrySend(limits, s.queue, id, 1);
    match r
    case Sent(evicted) =>
      s.(queue := q, fates := SetAll(s.fates + [Queued], evicted, Evicted),
         counters := s.counters.(evicted := s.counters.evicted + |evicted|))
    case Full(_) => s.(counters := s.counters.(full := s.counters.full + 1))
    case Closed(_) => s
  }

  function Drain(s: State): State {
    var (q, drained) := CloseAndDrain(s.queue);
    s.(queue := q, fates := SetAll(s.fates, drained, ClosedEarly),
       counters := s.counters.(closed := s.counters.closed + |drained|))
  }

  function Do(limits: Limits, maxPayload: nat, s: State, step: Step): State
    requires Enabled(s, step) && (s.writer.Holding? ==> s.writer.id < |s.fates|)
    requires s.queue.items != [] ==> s.queue.items[0].value < |s.fates|
  {
    match step
    case Submit => SubmitPacket(limits, s)
    case Take =>
      var id := s.queue.items[0].value;
      s.(queue := TryRecv(s.queue, _ => true).0, writer := Holding(id, Taken), fates := s.fates[id := Held])
    case StopWaiting => s.(writer := Gone)
    case StopBeforeSending => Settle(s, ClosedEarly, Gone)
    case Encode(None) => Settle(s, FateOfError(OtherError), Gone)
    case Encode(Some(size)) =>
      if size > maxPayload then Settle(s, Oversized, Waiting) else s.(writer := s.writer.(progress := Pacing(size)))
    case PacingDone => s.(writer := s.writer.(progress := Sending(s.writer.progress.size)))
    case PacingAborted => Settle(s, FateOfError(ConnectionAborted), Gone)
    case TransmitOk => Settle(s, Delivered, Waiting)
    case TransmitFailed(kind) =>
      if s.peerClosed then Settle(s, FateOfError(kind), Gone) else Settle(s, SocketError, Waiting)
    case Interrupt => Settle(s, ClosedEarly, Gone)
    case DropReceiver => Drain(s)
    case Cancel => s.(cancelled := true)
    case ClosePeer => s.(peerClosed := true)
  }

  function Initial(): State {
    State(Queue([], 0, 1, true), Waiting, false, false, [], Counters(0, 0, 0, 0, 0, 0))
  }

  // ---------------------------------------------------------------------------------------------
  // Tallies
  // ---------------------------------------------------------------------------------------------

  function Tally(fates: seq<Fate>, fate: Fate): nat {
    if fates == [] then 0 else (if fates[0] == fate then 1 else 0) + Tally(fates[1..], fate)
  }

  lemma {:induction false} TallySet(fates: seq<Fate>, i: nat, new': Fate, fate: Fate)
    requires i < |fates|
    ensures Tally(fates[i := new'], fate) + (if fates[i] == fate then 1 else 0)
         == Tally(fates, fate) + (if new' == fate then 1 else 0)
  {
    if i > 0 {
      TallySet(fates[1..], i - 1, new', fate);
      assert fates[i := new'][1..] == fates[1..][i - 1 := new'];
    } else {
      assert fates[i := new'][1..] == fates[1..];
    }
  }

  lemma {:induction false} TallyAppend(fates: seq<Fate>, last: Fate, fate: Fate)
    ensures Tally(fates + [last], fate) == Tally(fates, fate) + (if last == fate then 1 else 0)
  {
    if fates != [] {
      assert (fates + [last])[1..] == fates[1..] + [last];
      TallyAppend(fates[1..], last, fate);
    }
  }

  ghost predicate Ascending(ids: seq<nat>) {
    forall i, j :: 0 <= i < j < |ids| ==> ids[i] < ids[j]
  }

  /** Moving distinct queued packets to one fate moves exactly that many in the tallies. */
  lemma {:induction false} TallySetAll(fates: seq<Fate>, ids: seq<nat>, new': Fate, fate: Fate)
    requires Ascending(ids) && new' != Queued
    requires forall i :: 0 <= i < |ids| ==> ids[i] < |fates| && fates[ids[i]] == Queued
    ensures Tally(SetAll(fates, ids, new'), fate)
         == Tally(fates, fate) + (if fate == new' then |ids| else if fate == Queued then -|ids| else 0)
    decreases |ids|
  {
    if ids != [] {
      TallySet(fates, ids[0], new', fate);
      TallySetAll(fates[ids[0] := new'], ids[1..], new', fate);
    }
  }

  lemma {:induction false} SetAllAt(fates: seq<Fate>, ids: seq<nat>, new': Fate, id: nat)
    requires id < |fates|
    ensures SetAll(fates, ids, new')[id] == if id in ids then new' else fates[id]
    decreases |ids|
  {
    if ids != [] { SetAllAt(if ids[0] < |fates| then fates[ids[0] := new'] else fates, ids[1..], new', id); }
  }

  // ---------------------------------------------------------------------------------------------
  // Exactly one fate
  // ---------------------------------------------------------------------------------------------

  ghost predicate QueueMatches(s: State) { Lists(Values(s.queue.items), s.fates) }

  ghost predicate HeldMatches(s: State) {
    && (s.writer.Holding? ==> s.writer.id < |s.fates|)
    && (forall id :: 0 <= id < |s.fates| ==> (s.fates[id] == Held <==> s.writer.Holding? && s.writer.id == id))
  }

  ghost predicate Counted(s: State) {
    && Tally(s.fates, Queued) == |s.queue.items|
    && Tally(s.fates, Held) == (if s.writer.Holding? then 1 else 0)
    && Tally(s.fates, Delivered) == s.counters.sent
    && Tally(s.fates, Oversized) == s.counters.oversized
    && Tally(s.fates, SocketError) == s.counters.socketErrors
    && Tally(s.fates, Evicted) == s.counters.evicted
    && Tally(s.fates, ClosedEarly) == s.counters.closed
    && Tally(s.fates, EndedWriter) <= (if s.writer.Gone? then 1 else 0)
  }

  ghost predicate Inv(s: State) {
    QueueMatches(s) && HeldMatches(s) && Counted(s) && (!s.queue.open ==> s.queue.items == [])
  }

  lemma FrontIsAccepted(s: State)
    requires QueueMatches(s)
    ensures s.queue.items != [] ==> s.queue.items[0].value < |s.fates|
  {
    if s.queue.items != [] { assert Values(s.queue.items)[0] < |s.fates|; }
  }

  /** A packet that has ended keeps its fate. */
  ghost predicate FatesFinal(s: State, s': State) {
    && |s.fates| <= |s'.fates|
    && forall id :: 0 <= id < |s.fates| && s.fates[id] != Queued && s.fates[id] != Held ==> s'.fates[id] == s.fates[id]
  }

  lemma SettleKeeps(s: State, fate: Fate, writer: Writer)
    requires Inv(s) && s.writer.Holding? && !writer.Holding?
    requires fate in {Delivered, Oversized, SocketError, ClosedEarly, EndedWriter}
    requires fate == EndedWriter ==> writer.Gone?
    ensures Inv(Settle(s, fate, writer)) && FatesFinal(s, Settle(s, fate, writer))
  {
    var i := s.writer.id;
    forall f: Fate { TallySet(s.fates, i, fate, f); }
  }

  lemma TakeKeeps(s: State)
    requires Inv(s) && s.writer.Waiting? && s.queue.items != [] && s.queue.items[0].value < |s.fates|
    ensures var id := s.queue.items[0].value;
      var s' := s.(queue := TryRecv(s.queue, _ => true).0, writer := Holding(id, Taken), fates := s.fates[id := Held]);
      Inv(s') && FatesFinal(s, s')
  {
    var ids := Values(s.queue.items);
    var id := ids[0];
    assert id in ids && s.fates[id] == Queued;
    assert Values(s.queue.items[1..]) == ids[1..];
    assert forall j :: j in ids <==> j == id || j in ids[1..];
    assert id !in ids[1..];
    forall f: Fate { TallySet(s.fates, id, Held, f); }
  }

  /** The queued packets are exactly those in the queue, which is in order of acceptance. */
  ghost predicate Lists(ids: seq<nat>, fates: seq<Fate>) {
    && Ascending(ids)
    && (forall i :: 0 <= i < |ids| ==> ids[i] < |fates|)
    && (forall id :: 0 <= id < |fates| ==> (fates[id] == Queued <==> id in ids))
  }

  /** When a prefix of the queue leaves with one fate, the rest stays queued and nothing else changes. */
  lemma PrefixLeaves(fates: seq<Fate>, leaving: seq<nat>, staying: seq<nat>, fate: Fate)
    requires Lists(leaving + staying, fates) && fate != Queued
    ensures Lists(staying, SetAll(fates, leaving, fate))
    ensures forall id :: 0 <= id < |fates| ==>
      SetAll(fates, leaving, fate)[id] == fates[id] || (fates[id] == Queued && SetAll(fates, leaving, fate)[id] == fate)
    ensures forall f: Fate ::
      Tally(SetAll(fates, leaving, fate), f)
      == Tally(fates, f) + (if f == fate then |leaving| else if f == Queued then -|leaving| else 0)
  {
    var ids := leaving + staying;
    forall i | 0 <= i < |leaving| ensures leaving[i] == ids[i] && fates[leaving[i]] == Queued {
      assert ids[i] in ids;
    }
    forall i | 0 <= i < |staying| ensures staying[i] == ids[|leaving| + i] {}
    forall id | 0 <= id < |fates|
      ensures SetAll(fates, leaving, fate)[id] == Queued <==> id in staying
      ensures SetAll(fates, leaving, fate)[id] == fates[id]
              || (fates[id] == Queued && SetAll(fates, leaving, fate)[id] == fate)
    {
      SetAllAt(fates, leaving, fate, id);
      assert id in ids <==> id in leaving || id in staying;
      assert id in leaving ==> id !in staying;
    }
    forall f: Fate { TallySetAll(fates, leaving, fate, f); }
  }

  lemma Accept(fates: seq<Fate>, ids: seq<nat>)
    requires Lists(ids, fates)
    ensures Lists(ids + [|fates|], fates + [Queued])
    ensures forall f: Fate :: Tally(fates + [Queued], f) == Tally(fates, f) + (if f == Queued then 1 else 0)
  {
    assert forall id :: id in ids + [|fates|] <==> id == |fates| || id in ids;
    forall f: Fate { TallyAppend(fates, Queued, f); }
  }

  /** One packet has joined and `n` queued ones were evicted, leaving `kept` in the queue. */
  ghost predicate Joined(fates: seq<Fate>, after: seq<Fate>, kept: seq<nat>, n: nat) {
    && |after| == |fates| + 1 && Lists(kept, after)
    && (forall id :: 0 <= id < |fates| ==> after[id] == fates[id] || (fates[id] == Queued && after[id] == Evicted))
    && (after[|fates|] == Queued || after[|fates|] == Evicted)
    && (forall f: Fate ::
        Tally(after, f) == Tally(fates, f) + (if f == Evicted then n else if f == Queued then 1 - n else 0))
  }

  lemma AcceptAndEvict(fates: seq<Fate>, ids: seq<nat>, evicted: seq<nat>, kept: seq<nat>)
    requires Lists(ids, fates) && evicted + kept == ids + [|fates|]
    ensures Joined(fates, SetAll(fates + [Queued], evicted, Evicted), kept, |evicted|)
    ensures |evicted| + |kept| == |ids| + 1
  {
    Accept(fates, ids);
    var accepted := fates + [Queued];
    PrefixLeaves(accepted, evicted, kept, Evicted);
    assert accepted[|fates|] == Queued;
    assert forall id :: 0 <= id < |fates| ==> accepted[id] == fates[id];
    assert |evicted + kept| == |ids + [|fates|]|;
  }

  lemma AcceptKeeps(s: State, q: Queue<nat>, after: seq<Fate>, n: nat)
    requires Inv(s) && q.open && Joined(s.fates, after, Values(q.items), n) && n + |q.items| == |s.queue.items| + 1
    ensures var s' := s.(queue := q, fates := after, counters := s.counters.(evicted := s.counters.evicted + n));
      Inv(s') && FatesFinal(s, s')
  {
  }

  lemma SubmitKeeps(limits: Limits, s: State)
    requires Inv(s)
    ensures Inv(SubmitPacket(limits, s)) && FatesFinal(s, SubmitPacket(limits, s))
  {
    var (q, r) := TrySend(limits, s.queue, |s.fates|, 1);
    TrySendOrder(limits, s.queue, |s.fates|, 1);
    if r.Sent? {
      AcceptAndEvict(s.fates, Values(s.queue.items), r.evicted, Values(q.items));
      AcceptKeeps(s, q, SetAll(s.fates + [Queued], r.evicted, Evicted), |r.evicted|);
    }
  }

  lemma DrainKeeps(s: State)
    requires Inv(s)
    ensures Inv(Drain(s)) && FatesFinal(s, Drain(s))
  {
    var ids := Values(s.queue.items);
    assert ids + [] == ids;
    PrefixLeaves(s.fates, ids, [], ClosedEarly);
  }

  /** The writer's own steps once it holds a packet. */
  lemma HoldingStepKeeps(limits: Limits, maxPayload: nat, s: State, step: Step)
    requires Inv(s) && Enabled(s, step) && s.writer.Holding? && s.writer.id < |s.fates|
    requires step.StopBeforeSending? || step.Encode? || step.PacingDone? || step.PacingAborted?
             || step.TransmitOk? || step.TransmitFailed? || step.Interrupt?
    requires s.queue.items != [] ==> s.queue.items[0].value < |s.fates|
    ensures Inv(Do(limits, maxPayload, s, step)) && FatesFinal(s, Do(limits, maxPayload, s, step))
  {
    match step
    case StopBeforeSending => SettleKeeps(s, ClosedEarly, Gone);
    case Encode(None) => SettleKeeps(s, EndedWriter, Gone);
    case Encode(Some(size)) => if size > maxPayload { SettleKeeps(s, Oversized, Waiting); }
    case PacingDone =>
    case PacingAborted => SettleKeeps(s, ClosedEarly, Gone);
    case TransmitOk => SettleKeeps(s, Delivered, Waiting);
    case TransmitFailed(kind) =>
      if s.peerClosed { SettleKeeps(s, FateOfError(kind), Gone); } else { SettleKeeps(s, SocketError, Waiting); }
    case Interrupt => SettleKeeps(s, ClosedEarly, Gone);
  }

  lemma StepKeeps(limits: Limits, maxPayload: nat, s: State, step: Step)
    requires Inv(s) && Enabled(s, step) && (s.queue.items != [] ==> s.queue.items[0].value < |s.fates|)
    ensures Inv(Do(limits, maxPayload, s, step)) && FatesFinal(s, Do(limits, maxPayload, s, step))
  {
    if step.Submit? { SubmitKeeps(limits, s); }
    else if step.Take? { TakeKeeps(s); }
    else if step.DropReceiver? { DrainKeeps(s); }
    else if !step.StopWaiting? && !step.Cancel? && !step.ClosePeer? { HoldingStepKeeps(limits, maxPayload, s, step); }
  }

  /** A run: the states from the start, one per step taken. */
  ghost predicate IsRun(limits: Limits, maxPayload: nat, states: seq<State>, steps: seq<Step>) {
    && |states| == |steps| + 1 && states[0] == Initial()
    && forall n :: 0 <= n < |steps| ==> TakesStep(limits, maxPayload, states[n], steps[n], states[n + 1])
  }

  ghost predicate TakesStep(limits: Limits, maxPayload: nat, s: State, step: Step, s': State) {
    && Enabled(s, step) && (s.writer.Holding? ==> s.writer.id < |s.fates|)
    && (s.queue.items != [] ==> s.queue.items[0].value < |s.fates|)
    && s' == Do(limits, maxPayload, s, step)
  }

  /** The definedness conditions in a run's steps exclude nothing: in every state of a run, every enabled step can
      be taken. */
  lemma EnabledStepsAreTaken(limits: Limits, maxPayload: nat, states: seq<State>, steps: seq<Step>, n: nat, step: Step)
    requires IsRun(limits, maxPayload, states, steps) && n < |states| && Enabled(states[n], step)
    ensures (states[n].writer.Holding? ==> states[n].writer.id < |states[n].fates|)
         && (states[n].queue.items != [] ==> states[n].queue.items[0].value < |states[n].fates|)
    ensures TakesStep(limits, maxPayload, states[n], step, Do(limits, maxPayload, states[n], step))
  {
    InvHolds(limits, maxPayload, states, steps, n);
    FrontIsAccepted(states[n]);
  }

  lemma {:induction false} InvHolds(limits: Limits, maxPayload: nat, states: seq<State>, steps: seq<Step>, n: nat)
    requires IsRun(limits, maxPayload, states, steps) && n < |states|
    ensures Inv(states[n])
    ensures n > 0 ==> FatesFinal(states[n - 1], states[n])
  {
    if n > 0 {
      InvHolds(limits, maxPayload, states, steps, n - 1);
      assert TakesStep(limits, maxPayload, states[n - 1], steps[n - 1], states[n]);
      StepKeeps(limits, maxPayload, states[n - 1], steps[n - 1]);
    }
  }

  lemma {:induction false} TallyTotal(fates: seq<Fate>)
    ensures Tally(fates, Queued) + Tally(fates, Held) + Tally(fates, Delivered) + Tally(fates, Oversized)
          + Tally(fates, SocketError) + Tally(fates, Evicted) + Tally(fates, ClosedEarly) + Tally(fates, EndedWriter)
         == |fates|
  {
    if fates != [] { TallyTotal(fates[1..]); }
  }

  /** At every moment of every run, accepted packets = sent + oversized + socket errors + evicted
      + closed before delivery + queued + in flight + at most one whose error ended the writer. */
  lemma ExactlyOneFate(limits: Limits, maxPayload: nat, states: seq<State>, steps: seq<Step>, n: nat)
    requires IsRun(limits, maxPayload, states, steps) && n < |states|
    ensures var s := states[n]; var c := s.counters;
      && |s.fates| == c.sent + c.oversized + c.socketErrors + c.evicted + c.closed
                      + |s.queue.items| + (if s.writer.Holding? then 1 else 0) + Tally(s.fates, EndedWriter)
      && Tally(s.fates, EndedWriter) <= 1
      && (Tally(s.fates, EndedWriter) == 1 ==> s.writer.Gone?)
  {
    InvHolds(limits, maxPayload, states, steps, n);
    TallyTotal(states[n].fates);
  }

  /** Each counter counts exactly the packets with that fate, and a packet that has ended is never
      counted again. */
  lemma {:induction false} FatesNeverChange(
      limits: Limits, maxPayload: nat, states: seq<State>, steps: seq<Step>, m: nat, n: nat, id: nat)
    requires IsRun(limits, maxPayload, states, steps) && m <= n < |states|
    requires id < |states[m].fates| && states[m].fates[id] != Queued && states[m].fates[id] != Held
    ensures id < |states[n].fates| && states[n].fates[id] == states[m].fates[id]
    ensures Counted(states[n])
  {
    InvHolds(limits, maxPayload, states, steps, n);
    if m < n {
      FatesNeverChange(limits, maxPayload, states, steps, m, n - 1, id);
      assert FatesFinal(states[n - 1], states[n]);
    }
  }

  /** Once the writer is gone and its queue dropped, no packet is left without a final fate. */
  lemma NothingLeftBehind(limits: Limits, maxPayload: nat, states: seq<State>, steps: seq<Step>, n: nat, id: nat)
    requires IsRun(limits, maxPayload, states, steps) && n < |states|
    requires states[n].writer.Gone? && !states[n].queue.open && id < |states[n].fates|
    ensures states[n].fates[id] != Queued && states[n].fates[id] != Held
  {
    InvHolds(limits, maxPayload, states, steps, n);
  }

  // ---------------------------------------------------------------------------------------------
  // What happened to a packet
  // ---------------------------------------------------------------------------------------------

  predicate Holds(s: State, id: nat) { s.writer.Holding? && s.writer.id == id }

  /** The packet is among the oldest that must go for the next one to fit. */
  ghost predicate InTheWay(limits: Limits, items: seq<Item<nat>>, id: nat) {
    exists i :: 0 <= i < |items| && items[i].value == id && forall j :: 0 <= j <= i ==> !Fits(limits, items[j..], 1)
  }

  /** What has to happen for packet `id` to end with the given fate: a step of the schedule, and what the writer
      held, the queue contained and the peer was when it was taken. */
  ghost predicate Happens(limits: Limits, maxPayload: nat, s: State, step: Step, id: nat, fate: Fate) {
    match fate
    case Queued => false
    case Held => false
    case Delivered => Holds(s, id) && step == TransmitOk
    case Oversized => Holds(s, id) && step.Encode? && step.size.Some? && step.size.value > maxPayload
    case SocketError => Holds(s, id) && step.TransmitFailed? && !s.peerClosed
    case EndedWriter =>
      Holds(s, id) && (step == Encode(None) || (step == TransmitFailed(OtherError) && s.peerClosed))
    case ClosedEarly =>
      || (Holds(s, id) && (step == StopBeforeSending || step == Interrupt || step == PacingAborted))
      || (Holds(s, id) && step == TransmitFailed(ConnectionAborted) && s.peerClosed)
      || (step == DropReceiver && id in Values(s.queue.items))
    case Evicted =>
      step == Submit && s.queue.open && limits.policy == DropOldest && Admissible(limits, 1)
      && InTheWay(limits, s.queue.items, id)
  }

  predicate Final(fate: Fate) { fate != Queued && fate != Held }

  ghost predicate HasFate(s: State, id: nat, fate: Fate) { id < |s.fates| && s.fates[id] == fate }

  /** A step gives packet `id` the fate exactly if it is what happens in it. */
  ghost predicate Explained(limits: Limits, maxPayload: nat, s: State, step: Step, s': State, id: nat, fate: Fate) {
    HasFate(s', id, fate) <==> HasFate(s, id, fate) || Happens(limits, maxPayload, s, step, id, fate)
  }

  lemma SettleExplained(s: State, end: Fate, writer: Writer, id: nat, fate: Fate)
    requires Inv(s) && s.writer.Holding? && Final(fate) && Final(end)
    ensures HasFate(Settle(s, end, writer), id, fate) <==> HasFate(s, id, fate) || (Holds(s, id) && fate == end)
  {
  }

  lemma EvictedAreInTheWay(limits: Limits, items: seq<Item<nat>>, n: nat, id: nat)
    requires n <= |items| && Fits(limits, items[n..], 1)
    requires forall j :: 0 <= j < n ==> !Fits(limits, items[j..], 1)
    ensures id in Values(items[..n]) <==> InTheWay(limits, items, id)
  {
    if id in Values(items[..n]) {
      var i :| 0 <= i < n && Values(items[..n])[i] == id;
      assert items[i].value == id;
    }
    if i :| 0 <= i < |items| && items[i].value == id && forall j :: 0 <= j <= i ==> !Fits(limits, items[j..], 1) {
      assert i < n;
      assert Values(items[..n])[i] == id;
    }
  }

  /** A submitted packet is refused if the queue is closed, without a count; otherwise it is accepted exactly if it
      can ever be queued and there is room or the oldest may go, and counted as full if not. */
  lemma SubmitExactly(limits: Limits, s: State)
    ensures var s' := SubmitPacket(limits, s);
      var accepted := s.queue.open && Admissible(limits, 1) && (limits.policy == DropOldest || Fits(limits, s.queue.items, 1));
      && |s'.fates| == |s.fates| + (if accepted then 1 else 0)
      && s'.counters.full == s.counters.full + (if s.queue.open && !accepted then 1 else 0)
      && (!accepted ==> s' == s.(counters := s'.counters))
  {
    TrySendExactly(limits, s.queue, |s.fates|, 1);
  }

  /** Evicted packets were queued ones. */
  lemma EvictedWereQueued(s: State, n: nat, id: nat)
    requires QueueMatches(s) && n <= |s.queue.items|
    ensures id in Values(s.queue.items[..n]) ==> id < |s.fates| && s.fates[id] == Queued
  {
    if id in Values(s.queue.items[..n]) {
      var i :| 0 <= i < n && Values(s.queue.items[..n])[i] == id;
      assert Values(s.queue.items)[i] == id && id in Values(s.queue.items);
    }
  }

  lemma EvictExplained(s: State, evicted: seq<nat>, id: nat, fate: Fate)
    requires Final(fate) && (id in evicted ==> id < |s.fates| && s.fates[id] == Queued)
    ensures var fates := SetAll(s.fates + [Queued], evicted, Evicted);
      id < |fates| && fates[id] == fate <==> HasFate(s, id, fate) || (fate == Evicted && id in evicted)
  {
    if id <= |s.fates| { SetAllAt(s.fates + [Queued], evicted, Evicted, id); }
  }

  lemma EvictionHappens(limits: Limits, maxPayload: nat, s: State, id: nat)
    requires QueueMatches(s)
    ensures var r := TrySend(limits, s.queue, |s.fates|, 1).1;
      && (r.Sent? && id in r.evicted <==> Happens(limits, maxPayload, s, Submit, id, Evicted))
      && (r.Sent? && id in r.evicted ==> id < |s.fates| && s.fates[id] == Queued)
  {
    TrySendExactly(limits, s.queue, |s.fates|, 1);
    var r := TrySend(limits, s.queue, |s.fates|, 1).1;
    if r.Sent? {
      EvictedAreInTheWay(limits, s.queue.items, |r.evicted|, id);
      EvictedWereQueued(s, |r.evicted|, id);
    }
  }

  lemma SubmitExplained(limits: Limits, maxPayload: nat, s: State, id: nat, fate: Fate)
    requires Inv(s) && Final(fate)
    ensures Explained(limits, maxPayload, s, Submit, SubmitPacket(limits, s), id, fate)
  {
    EvictionHappens(limits, maxPayload, s, id);
    var r := TrySend(limits, s.queue, |s.fates|, 1).1;
    if r.Sent? { EvictExplained(s, r.evicted, id, fate); }
  }

  lemma DrainExplained(s: State, id: nat, fate: Fate)
    requires Inv(s) && Final(fate)
    ensures HasFate(Drain(s), id, fate) <==>
      HasFate(s, id, fate) || (fate == ClosedEarly && id in Values(s.queue.items))
  {
    if id < |s.fates| { SetAllAt(s.fates, Values(s.queue.items), ClosedEarly, id); }
  }

  lemma HoldingExplained(limits: Limits, maxPayload: nat, s: State, step: Step, id: nat, fate: Fate)
    requires Inv(s) && Enabled(s, step) && s.writer.Holding? && s.writer.id < |s.fates| && Final(fate)
    requires step.StopBeforeSending? || step.Encode? || step.PacingDone? || step.PacingAborted?
             || step.TransmitOk? || step.TransmitFailed? || step.Interrupt?
    requires s.queue.items != [] ==> s.queue.items[0].value < |s.fates|
    ensures Explained(limits, maxPayload, s, step, Do(limits, maxPayload, s, step), id, fate)
  {
    match step
    case StopBeforeSending => SettleExplained(s, ClosedEarly, Gone, id, fate);
    case Encode(None) => SettleExplained(s, EndedWriter, Gone, id, fate);
    case Encode(Some(size)) => if size > maxPayload { SettleExplained(s, Oversized, Waiting, id, fate); }
    case PacingDone =>
    case PacingAborted => SettleExplained(s, ClosedEarly, Gone, id, fate);
    case TransmitOk => SettleExplained(s, Delivered, Waiting, id, fate);
    case TransmitFailed(kind) =>
      if s.peerClosed { SettleExplained(s, FateOfError(kind), Gone, id, fate); }
      else { SettleExplained(s, SocketError, Waiting, id, fate); }
    case Interrupt => SettleExplained(s, ClosedEarly, Gone, id, fate);
  }

  lemma StepExplained(limits: Limits, maxPayload: nat, s: State, step: Step, id: nat, fate: Fate)
    requires Inv(s) && Enabled(s, step) && (s.queue.items != [] ==> s.queue.items[0].value < |s.fates|) && Final(fate)
    ensures Explained(limits, maxPayload, s, step, Do(limits, maxPayload, s, step), id, fate)
  {
    if step.Submit? { SubmitExplained(limits, maxPayload, s, id, fate); }
    else if step.Take? { assert Values(s.queue.items)[0] in Values(s.queue.items); }
    else if step.DropReceiver? { DrainExplained(s, id, fate); }
    else if !step.StopWaiting? && !step.Cancel? && !step.ClosePeer? {
      HoldingExplained(limits, maxPayload, s, step, id, fate);
    }
  }

  /** Over every run: a packet has a final fate exactly if, at some step of the schedule, that is what happened to
      it. In particular it counts as sent exactly if a transmission succeeded while the writer held it. */
  lemma {:induction false} FateIsWhatHappened(
      limits: Limits, maxPayload: nat, states: seq<State>, steps: seq<Step>, n: nat, id: nat, fate: Fate)
    requires IsRun(limits, maxPayload, states, steps) && n < |states| && Final(fate)
    ensures HasFate(states[n], id, fate) <==>
      exists m :: 0 <= m < n && Happens(limits, maxPayload, states[m], steps[m], id, fate)
  {
    if n > 0 {
      FateIsWhatHappened(limits, maxPayload, states, steps, n - 1, id, fate);
      InvHolds(limits, maxPayload, states, steps, n - 1);
      assert TakesStep(limits, maxPayload, states[n - 1], steps[n - 1], states[n]);
      StepExplained(limits, maxPayload, states[n - 1], steps[n - 1], id, fate);
    }
  }

  /** Occurrences of a step in a schedule. */
  function Times(steps: seq<Step>, step: Step): nat {
    if steps == [] then 0 else Times(steps[..|steps| - 1], step) + (if steps[|steps| - 1] == step then 1 else 0)
  }

  lemma SentMoves(limits: Limits, maxPayload: nat, s: State, step: Step)
    requires Enabled(s, step) && (s.writer.Holding? ==> s.writer.id < |s.fates|)
    requires s.queue.items != [] ==> s.queue.items[0].value < |s.fates|
    ensures Do(limits, maxPayload, s, step).counters.sent == s.counters.sent + (if step == TransmitOk then 1 else 0)
  {
  }

  /** The sent counter is the number of successful transmissions in the schedule. */
  lemma {:induction false} SentIsTransmitted(limits: Limits, maxPayload: nat, states: seq<State>, steps: seq<Step>, n: nat)
    requires IsRun(limits, maxPayload, states, steps) && n < |states|
    ensures states[n].counters.sent == Times(steps[..n], TransmitOk)
  {
    if n > 0 {
      SentIsTransmitted(limits, maxPayload, states, steps, n - 1);
      assert TakesStep(limits, maxPayload, states[n - 1], steps[n - 1], states[n]);
      SentMoves(limits, maxPayload, states[n - 1], steps[n - 1]);
      assert steps[..n][..n - 1] == steps[..n - 1];
    }
  }

  // ---------------------------------------------------------------------------------------------
  // The drop guard of a dequeued packet
  // ---------------------------------------------------------------------------------------------

  /** How one send ended for the writer task. `Interrupted` is a future dropped before it completed. */
  datatype SendEnd = Interrupted | Completed | Failed(kind: ErrorKind)

  class Handle {
    var closed: nat

    constructor ()
      ensures closed == 0
    {
      closed := 0;
    }

    method RecordClosed()
      modifies this
      ensures closed == old(closed) + 1
    {
      closed := closed + 1;
    }
  }

  /** Charges a dequeued packet when it is dropped, unless the send has finished in between. */
  class PendingPacket {
    var transport: Option<Handle>

    constructor (handle: Handle)
      ensures transport == Some(handle)
    {
      transport := Some(handle);
    }

    method Finish(result: SendEnd)
      requires !result.Interrupted?
      modifies this
      ensures transport == if result == Failed(ConnectionAborted) then old(transport) else None
    {
      if result != Failed(ConnectionAborted) { transport := None; }
    }

    method Release()
      modifies this, match transport case Some(handle) => {handle} case None => {}
      ensures transport == None
      ensures match old(transport)
        case Some(handle) => handle.closed == old(handle.closed) + 1
        case None => true
    {
      match transport {
        case Some(handle) => handle.RecordClosed();
        case None =>
      }
      transport := None;
    }
  }

  /** What the guard makes of one packet: charged once if its fate is closed before delivery, else not at all. */
  method SettlePending(handle: Handle, end: SendEnd)
    modifies handle
    ensures handle.closed == old(handle.closed)
      + (if end.Interrupted? || (end.Failed? && FateOfError(end.kind) == ClosedEarly) then 1 else 0)
  {
    var pending := new PendingPacket(handle);
    if !end.Interrupted? { pending.Finish(end); }
    pending.Release();
  }
}
