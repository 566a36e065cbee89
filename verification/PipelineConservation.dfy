/**
Every datagram counted as received for a connection is, at every moment of every run, exactly one of:
shown to observers, charged to one drop counter of that same connection, or still held somewhere.
The ECS receive queue stays open throughout.
*/
module PipelineConservation {
  import opened LossyQueue
  import opened Options
  import opened Pipeline
  import opened Udp
  import PipelineTrace

  /** Packets of connection `c` among the given events. */
  function Count(xs: seq<Event>, c: nat): nat {
    if xs == [] then 0 else (if xs[0].Packet? && xs[0].conn == c then 1 else 0) + Count(xs[1..], c)
  }

  lemma {:induction false} CountConcat(a: seq<Event>, b: seq<Event>, c: nat)
    ensures Count(a + b, c) == Count(a, c) + Count(b, c)
  {
    if a == [] {
      assert a + b == b;
    } else {
      assert (a + b)[1..] == a[1..] + b;
      CountConcat(a[1..], b, c);
    }
  }

  lemma {:induction false} CountNone(xs: seq<Event>, c: nat)
    requires forall e :: e in xs ==> e.conn != c
    ensures Count(xs, c) == 0
  {
    if xs != [] {
      assert xs[0] in xs;
      CountNone(xs[1..], c);
    }
  }

  /** Received datagrams neither charged nor held by the connection's own queue and reader. */
  function PassedOn(k: Conn): int {
    |k.arrivals| - |k.drops| - |k.raw.items| - (if k.hand.Some? then 1 else 0)
  }

  /** Packets of `c` in the ECS queue, in deferred commands, or shown. */
  function Downstream(s: State, c: nat): nat {
    Count(Values(s.packets.items), c) + Count(s.commands, c) + Count(s.events, c)
  }

  ghost predicate Conserved(s: State) {
    forall c :: 0 <= c < |s.conns| ==> PassedOn(s.conns[c]) == Downstream(s, c)
  }

  lemma ChargeCounts(k: Conn, reason: DropReason, n: nat)
    ensures |Charge(k, reason, n).drops| == |k.drops| + n
  {
  }

  /** An arriving datagram is queued, or charged together with whatever it evicts. */
  lemma DepositBalance(settings: Settings, k: Conn, d: Datagram)
    ensures PassedOn(Deposit(settings, k, d)) == PassedOn(k)
  {
    TrySendOrder(settings.raw, k.raw, d, d.size);
    var (q, r) := Admit(settings, k.raw, d);
    var k' := k.(arrivals := k.arrivals + [d]);
    if r.Sent? {
      assert |r.evicted + Values(q.items)| == |Values(k.raw.items) + [d]|;
      ChargeCounts(k', RawQueueEvicted, |r.evicted|);
    }
  }

  /** A taken payload is counted or ends up in the reader's hand. */
  lemma ClassifyBalance(k: Conn, d: Datagram, limit: nat)
    requires k.hand.None?
    ensures PassedOn(Classify(k, d, limit)) == PassedOn(k) - 1
  {
  }

  /** Closing the raw queue charges what it still held. */
  lemma DropRawBalance(k: Conn)
    ensures PassedOn(DropRaw(k)) == PassedOn(k)
  {
    ChargeCounts(k, ClosedBeforeDelivery, |k.raw.items|);
  }

  lemma SetupBalance(k: Conn, step: SetupStep)
    requires SetupGuard(k, step)
    ensures PassedOn(SetupEffect(k, step)) == PassedOn(k)
  {
    DropRawBalance(k);
    DropRawBalance(Cancel(k, ByOther));
  }

  lemma ReadBalance(k: Conn, limit: nat)
    requires ReaderGuard(k, ReadQueued(limit))
    ensures PassedOn(ReaderEffect(k, ReadQueued(limit))) == PassedOn(k)
  {
    var taken := k.(raw := TryRecv(k.raw, _ => true).0);
    assert taken.raw.items == k.raw.items[1..];
    ClassifyBalance(taken, k.raw.items[0].value, limit);
  }

  lemma StageStepBalance(k: Conn, step: ReaderStep)
    requires ReaderGuard(k, step) && !PipelineTrace.Handles(step)
    ensures PassedOn(ReaderEffect(k, step)) == PassedOn(k)
  {
    var k' := ReaderEffect(k, step);
    assert k'.arrivals == k.arrivals && k'.drops == k.drops && k'.raw == k.raw && k'.hand == k.hand;
  }

  /** No step of the reader but the hand-over loses or invents a datagram, cancelled or not. */
  lemma ReaderBalance(k: Conn, step: ReaderStep)
    requires ReaderGuard(k, step) && !step.Forward?
    ensures PassedOn(ReaderEffect(k, step)) == PassedOn(k)
  {
    if step.ReadQueued? {
      ReadBalance(k, step.limit);
    } else if step.ReadSocket? {
      ClassifyBalance(k.(arrivals := k.arrivals + [step.datagram]), step.datagram, step.limit);
    } else if step.DropReader? {
      DropRawBalance(k);
    } else {
      StageStepBalance(k, step);
    }
  }

  /** A task step on `c` that balances and leaves every packet downstream where it is. */
  lemma OneConnBalance(s: State, s': State, c: nat)
    requires Conserved(s) && c < |s.conns| == |s'.conns|
    requires s'.conns == s.conns[c := s'.conns[c]] && PassedOn(s'.conns[c]) == PassedOn(s.conns[c])
    requires s'.packets == s.packets && s'.commands == s.commands && s'.events == s.events
    ensures Conserved(s')
  {
    forall d | 0 <= d < |s.conns| ensures PassedOn(s'.conns[d]) == Downstream(s', d) {
      assert PassedOn(s.conns[d]) == Downstream(s, d);
    }
  }

  lemma TaskBalance(settings: Settings, s: State, step: Step)
    requires Conserved(s) && Enabled(settings, s, step)
    requires !step.Connect? && !step.Frame? && !(step.Reader? && step.reader.Forward?)
    ensures Conserved(Do(settings, s, step))
  {
    var k := s.conns[step.c];
    if step.Setup? { SetupBalance(k, step.setup); }
    else if step.Reader? { ReaderBalance(k, step.reader); }
    else if step.Arrive? { DepositBalance(settings, k, step.datagram); }
    OneConnBalance(s, Do(settings, s, step), step.c);
  }

  /** Each eviction is charged to the evicted packet's own connection. */
  lemma {:induction false} ChargeBalance(conns: seq<Conn>, evicted: seq<Event>, c: nat)
    requires c < |conns| && forall e :: e in evicted ==> e.Packet?
    ensures PassedOn(ChargeEvicted(conns, evicted)[c]) == PassedOn(conns[c]) - Count(evicted, c)
    decreases |evicted|
  {
    if evicted != [] {
      assert evicted[0] in evicted;
      var d := evicted[0].conn;
      ChargeBalance(if d < |conns| then conns[d := Charge(conns[d], ReceiveQueueEvicted, 1)] else conns, evicted[1..], c);
    }
  }

  /** What an admission into the ECS queue evicts leaves the count, the new packet joins it. */
  lemma AdmissionCount(settings: Settings, q: Queue<Event>, e: Event, c: nat)
    ensures var (q', r) := TrySend(settings.ecs, q, e, 1);
      r.Sent? ==> Count(r.evicted, c) + Count(Values(q'.items), c) == Count(Values(q.items), c) + Count([e], c)
  {
    var (q', r) := TrySend(settings.ecs, q, e, 1);
    TrySendOrder(settings.ecs, q, e, 1);
    if r.Sent? {
      CountConcat(r.evicted, Values(q'.items), c);
      CountConcat(Values(q.items), [e], c);
    }
  }

  lemma ForwardBalance(settings: Settings, s: State, c: nat)
    requires PipelineTrace.Inv(s) && Conserved(s) && Enabled(settings, s, Reader(c, Forward))
    ensures Conserved(ForwardPacket(settings, s, c))
  {
    var s' := ForwardPacket(settings, s, c);
    var k := s.conns[c].(hand := None);
    var e := Packet(c, s.conns[c].hand.value);
    var (q, r) := TrySend(settings.ecs, s.packets, e, 1);
    TrySendOrder(settings.ecs, s.packets, e, 1);
    if r.Sent? { AllPackets(s, r.evicted, Values(q.items), e); }
    forall d | 0 <= d < |s.conns| ensures PassedOn(s'.conns[d]) == Downstream(s', d) {
      assert PassedOn(s.conns[d]) == Downstream(s, d);
      if r.Sent? {
        ChargeBalance(s.conns[c := k], r.evicted, d);
        AdmissionCount(settings, s.packets, e, d);
      } else {
        ChargeCounts(k, ReceiveQueueFull, 1);
      }
    }
  }

  lemma AllPackets(s: State, evicted: seq<Event>, kept: seq<Event>, e: Event)
    requires PipelineTrace.Inv(s) && e.Packet? && evicted + kept == Values(s.packets.items) + [e]
    ensures forall x :: x in evicted ==> x.Packet?
  {
    forall i | 0 <= i < |evicted| ensures evicted[i].Packet? {
      assert evicted[i] == (evicted + kept)[i];
      if i < |s.packets.items| {
        assert PipelineTrace.FromReader(s, s.packets.items[i].value);
      }
    }
  }

  lemma TakeBalance(s: State)
    requires PipelineTrace.Inv(s) && Conserved(s) && FrameGuard(s, DrainPacket)
    ensures Conserved(FrameEffect(s, DrainPacket))
  {
    var s', e := FrameEffect(s, DrainPacket), s.packets.items[0].value;
    assert PipelineTrace.FromReader(s, e);
    forall d | 0 <= d < |s.conns| ensures PassedOn(s'.conns[d]) == Downstream(s', d) {
      assert Values(s.packets.items)[1..] == Values(s'.packets.items);
      CountConcat(s.commands, [e], d);
    }
  }

  lemma ApplyBalance(s: State)
    requires Conserved(s) && FrameGuard(s, ApplyCommand)
    ensures Conserved(FrameEffect(s, ApplyCommand))
  {
    var s', e := RunCommand(s), s.commands[0];
    forall d | 0 <= d < |s.conns| ensures PassedOn(s'.conns[d]) == Downstream(s', d) {
      assert PassedOn(s.conns[d]) == Downstream(s, d);
      CountConcat(s.events, [e], d);
      if e.Packet? && d == e.conn { ChargeCounts(s.conns[d], ClosedBeforeDelivery, 1); }
    }
  }

  lemma DrainBalance(s: State)
    requires PipelineTrace.Inv(s) && Conserved(s) && FrameGuard(s, DrainLifecycle)
    ensures Conserved(FrameEffect(s, DrainLifecycle))
  {
    var s', e := FrameEffect(s, DrainLifecycle), s.lifecycle[0];
    assert e in s.lifecycle;
    forall d | 0 <= d < |s.conns| ensures PassedOn(s'.conns[d]) == Downstream(s', d) {
      CountConcat(s.commands, [e], d);
    }
  }

  lemma ConnectBalance(settings: Settings, s: State, step: Step)
    requires PipelineTrace.Inv(s) && Conserved(s) && step.Connect? && Enabled(settings, s, step)
    ensures Conserved(Do(settings, s, step))
  {
    var s', c := Do(settings, s, step), |s.conns|;
    forall i | 0 <= i < |s.packets.items| ensures s.packets.items[i].value.conn != c {
      assert PipelineTrace.FromReader(s, s.packets.items[i].value);
    }
    CountNone(Values(s.packets.items), c);
    CountNone(s.commands, c);
    CountNone(s.events, c);
    if step.first.Some? {
      var empty: Queue<Datagram> := Queue([], 0, 1, true);
      TrySendOrder(settings.raw, empty, step.first.value, step.first.value.size);
      var (q, r) := Admit(settings, empty, step.first.value);
      assert FirstFit(settings.raw, empty.items, step.first.value.size) == 0;
      assert |q.items| == 1;
    }
    forall d | 0 <= d < |s'.conns| ensures PassedOn(s'.conns[d]) == Downstream(s', d) {
      if d < |s.conns| { assert PassedOn(s.conns[d]) == Downstream(s, d); }
    }
  }

  lemma FrameBalance(s: State, step: FrameStep)
    requires PipelineTrace.Inv(s) && Conserved(s) && FrameGuard(s, step)
    ensures Conserved(FrameEffect(s, step))
  {
    if step.DrainLifecycle? { DrainBalance(s); }
    else if step.DrainPacket? { TakeBalance(s); }
    else if step.ApplyCommand? { ApplyBalance(s); }
    else {
      var s' := FrameEffect(s, step);
      forall d | 0 <= d < |s.conns| ensures PassedOn(s'.conns[d]) == Downstream(s', d) {
        assert PassedOn(s.conns[d]) == Downstream(s, d);
      }
    }
  }

  lemma StepBalance(settings: Settings, s: State, step: Step)
    requires PipelineTrace.Inv(s) && Conserved(s) && Enabled(settings, s, step)
    ensures Conserved(Do(settings, s, step))
  {
    if step.Connect? { ConnectBalance(settings, s, step); }
    else if step.Frame? { FrameBalance(s, step.frame); }
    else if step.Reader? && step.reader.Forward? { ForwardBalance(settings, s, step.c); }
    else { TaskBalance(settings, s, step); }
  }

  lemma {:induction false} ConservedHolds(settings: Settings, schedule: seq<Step>, s: State)
    requires Reached(settings, schedule, s)
    ensures Conserved(s)
  {
    if schedule != [] {
      var before := ExecFrom(settings, Initial(), schedule[..|schedule| - 1]).value;
      ConservedHolds(settings, schedule[..|schedule| - 1], before);
      PipelineTrace.InvHolds(settings, schedule[..|schedule| - 1], before);
      StepBalance(settings, before, schedule[|schedule| - 1]);
    }
  }

  /** The size of the drop record is the sum of the counters. */
  lemma DropsAddUp(m: multiset<DropReason>)
    ensures |m| ==
      m[RawQueueFull] + m[RawQueueEvicted] + m[ReceiveLimit] + m[MalformedPayload]
      + m[ReceiveQueueFull] + m[ReceiveQueueEvicted] + m[ClosedBeforeDelivery]
  {
    var a := m[RawQueueFull := 0];
    var b := a[RawQueueEvicted := 0];
    var c := b[ReceiveLimit := 0];
    var d := c[MalformedPayload := 0];
    var e := d[ReceiveQueueFull := 0];
    var f := e[ReceiveQueueEvicted := 0];
    var g := f[ClosedBeforeDelivery := 0];
    assert |a| == |m| - m[RawQueueFull] && |b| == |a| - m[RawQueueEvicted];
    assert |c| == |b| - m[ReceiveLimit] && |d| == |c| - m[MalformedPayload];
    assert |e| == |d| - m[ReceiveQueueFull] && |f| == |e| - m[ReceiveQueueEvicted];
    assert |g| == |f| - m[ClosedBeforeDelivery];
    forall reason: DropReason ensures g[reason] == 0 {
      match reason
      case RawQueueFull | RawQueueEvicted | ReceiveLimit | MalformedPayload =>
      case ReceiveQueueFull | ReceiveQueueEvicted | ClosedBeforeDelivery =>
    }
    assert g == multiset{};
  }

  /** Incoming conservation, per connection and at every moment: received = shown + dropped (by reason)
      + still held in the raw queue, by the reader, in the ECS queue or in a deferred command. */
  lemma IncomingConservation(settings: Settings, schedule: seq<Step>, s: State, c: nat)
    requires Reached(settings, schedule, s) && c < |s.conns|
    ensures var k := s.conns[c];
      |k.arrivals| ==
        Count(s.events, c)
        + k.drops[RawQueueFull] + k.drops[RawQueueEvicted] + k.drops[ReceiveLimit] + k.drops[MalformedPayload]
        + k.drops[ReceiveQueueFull] + k.drops[ReceiveQueueEvicted] + k.drops[ClosedBeforeDelivery]
        + |k.raw.items| + (if k.hand.Some? then 1 else 0) + Count(Values(s.packets.items), c) + Count(s.commands, c)
  {
    ConservedHolds(settings, schedule, s);
    DropsAddUp(s.conns[c].drops);
  }
}
