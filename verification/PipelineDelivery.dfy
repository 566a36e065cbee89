/**
What the pipeline does rather than what it avoids: which packet is handed over, which one is charged and to
whom; and, from every reachable state, that a datagram that finds room is shown and that every announced
connection can be brought to its closure.
*/
module PipelineDelivery {
  import opened LossyQueue
  import opened Options
  import opened Udp
  import opened Pipeline
  import PipelineConservation
  import PipelineTrace
  import PipelineProgress
  import EcsFrame

  // ---------------------------------------------------------------------------------------------
  // The raw queue
  // ---------------------------------------------------------------------------------------------

  lemma ChargedNothing(drops: Drops, reason: DropReason)
    ensures Charged(drops, reason, 0) == drops
  {
  }

  /** An arriving datagram is counted, and then: charged as closed before delivery if the peer or its queue is
      closed; queued behind the others if it fits, with no counter moved; queued after evicting the shortest
      sufficient prefix, which alone is charged; or refused, which alone is charged. */
  lemma DepositExactly(settings: Settings, k: Conn, d: Datagram)
    ensures var k' := Deposit(settings, k, d); var items := k.raw.items; var room := Fits(settings.raw, items, d.size);
      && k' == k.(arrivals := k.arrivals + [d], raw := k'.raw, drops := k'.drops)
      && if k.peerClosed || !k.raw.open then
           k'.raw == k.raw && k'.drops == Charged(k.drops, ClosedBeforeDelivery, 1)
         else if room then
           k'.raw.items == items + [Item(d, d.size)] && k'.drops == k.drops
         else if settings.raw.policy == DropOldest && Admissible(settings.raw, d.size) then
           exists n :: 0 < n <= |items| && Admission(settings.raw, items, Item(d, d.size), k'.raw.items, n)
                       && k'.drops == Charged(k.drops, RawQueueEvicted, n)
         else
           k'.raw == k.raw && k'.drops == Charged(k.drops, RawQueueFull, 1)
  {
    TrySendExactly(settings.raw, k.raw, d, d.size);
    ChargedNothing(k.drops, RawQueueEvicted);
    var (q, r) := Admit(settings, k.raw, d);
    if !k.peerClosed && r.Sent? && !Fits(settings.raw, k.raw.items, d.size) {
      assert k.raw.items[0..] == k.raw.items;
      assert 0 < |r.evicted|;
    }
  }

  // ---------------------------------------------------------------------------------------------
  // The ECS queue
  // ---------------------------------------------------------------------------------------------

  lemma ChargedAgain(drops: Drops, reason: DropReason, m: nat, n: nat)
    ensures Charged(Charged(drops, reason, m), reason, n) == Charged(drops, reason, m + n)
  {
  }

  /** Evictions move one counter of each evicted packet's own connection, by their number, and nothing else. */
  lemma {:induction false} ChargeExactly(conns: seq<Conn>, evicted: seq<Event>, c: nat)
    requires c < |conns| && forall e :: e in evicted ==> e.Packet?
    ensures ChargeEvicted(conns, evicted)[c]
         == Charge(conns[c], ReceiveQueueEvicted, PipelineConservation.Count(evicted, c))
    decreases |evicted|
  {
    if evicted == [] {
      ChargedNothing(conns[c].drops, ReceiveQueueEvicted);
    } else {
      assert evicted[0] in evicted;
      var d := evicted[0].conn;
      var conns' := if d < |conns| then conns[d := Charge(conns[d], ReceiveQueueEvicted, 1)] else conns;
      ChargeExactly(conns', evicted[1..], c);
      ChargedAgain(conns[c].drops, ReceiveQueueEvicted, 1, PipelineConservation.Count(evicted[1..], c));
    }
  }

  lemma {:induction false} QueueStaysOpen(settings: Settings, schedule: seq<Step>, s: State)
    requires Reached(settings, schedule, s)
    ensures s.packets.open
  {
    if schedule != [] {
      var before := ExecFrom(settings, Initial(), schedule[..|schedule| - 1]).value;
      QueueStaysOpen(settings, schedule[..|schedule| - 1], before);
      StepKeepsOpen(settings, before, schedule[|schedule| - 1]);
    }
  }

  lemma StepKeepsOpen(settings: Settings, s: State, step: Step)
    requires s.packets.open && Enabled(settings, s, step)
    ensures Do(settings, s, step).packets.open
  {
    if step != Frame(DrainPacket) && !(step.Reader? && step.reader.Forward?) {
      PipelineProgress.OthersLeaveQueue(settings, s, step);
    }
  }

  lemma EvictedArePackets(settings: Settings, schedule: seq<Step>, s: State, n: nat)
    requires Reached(settings, schedule, s) && n <= |s.packets.items|
    ensures forall e :: e in Values(s.packets.items[..n]) ==> e.Packet?
  {
    PipelineTrace.InvHolds(settings, schedule, s);
    forall i | 0 <= i < n ensures Values(s.packets.items[..n])[i].Packet? {
      assert PipelineTrace.FromReader(s, s.packets.items[i].value);
    }
  }

  /** In every run, a packet handed over by the reader of `c`, as connection `d` sees it: if it fits it joins the
      end of the ECS queue and no counter moves; otherwise the shortest sufficient prefix is evicted and charged,
      each packet to its own connection, and the packet joins; or it is refused, and only its own connection is
      charged. */
  lemma ForwardExactly(settings: Settings, schedule: seq<Step>, s: State, c: nat, d: nat)
    requires Reached(settings, schedule, s) && Enabled(settings, s, Reader(c, Forward)) && d < |s.conns|
    ensures var s' := Do(settings, s, Reader(c, Forward));
      var item, items := Item(Packet(c, s.conns[c].hand.value), 1), s.packets.items;
      var k := if d == c then s.conns[d].(hand := None) else s.conns[d];
      && s' == s.(conns := s'.conns, packets := s'.packets) && |s'.conns| == |s.conns|
      && if Fits(settings.ecs, items, 1) then
           s'.packets.items == items + [item] && s'.conns[d] == k
         else if settings.ecs.policy == DropOldest && Admissible(settings.ecs, 1) then
           exists n :: 0 < n <= |items| && Admission(settings.ecs, items, item, s'.packets.items, n)
             && s'.conns[d] == Charge(k, ReceiveQueueEvicted, PipelineConservation.Count(Values(items[..n]), d))
         else
           s'.packets == s.packets && s'.conns[d] == if d == c then Charge(k, ReceiveQueueFull, 1) else k
  {
    QueueStaysOpen(settings, schedule, s);
    var e, items := Packet(c, s.conns[c].hand.value), s.packets.items;
    var (q, r) := TrySend(settings.ecs, s.packets, e, 1);
    TrySendExactly(settings.ecs, s.packets, e, 1);
    var conns := s.conns[c := s.conns[c].(hand := None)];
    if r.Sent? {
      EvictedArePackets(settings, schedule, s, |r.evicted|);
      ChargeExactly(conns, r.evicted, d);
      ChargedNothing(conns[d].drops, ReceiveQueueEvicted);
      if !Fits(settings.ecs, items, 1) {
        assert items[0..] == items;
        assert 0 < |r.evicted|;
      }
    }
  }

  // ---------------------------------------------------------------------------------------------
  // Frames and endings
  // ---------------------------------------------------------------------------------------------

  /** A packet a frame takes is the front one; it is deferred, or, if its connection is cancelled, charged to it as
      closed before delivery. Nothing else changes. */
  lemma TakenExactly(settings: Settings, s: State)
    requires Enabled(settings, s, Frame(DrainPacket))
    ensures var s' := Do(settings, s, Frame(DrainPacket)); var e := s.packets.items[0].value; var k := s.conns[e.conn];
      && s'.packets.items == s.packets.items[1..] && s'.lifecycle == s.lifecycle && s'.events == s.events
      && if k.cancelled then s'.conns == s.conns[e.conn := Charge(k, ClosedBeforeDelivery, 1)] && s'.commands == s.commands
         else s'.conns == s.conns && s'.commands == s.commands + [e]
  {
    TryRecvExactly(s.packets, x => ReadyForEcs(s, x));
  }

  /** A command shows its event, and publishes with an establishment; a packet whose connection has been cancelled by
      then is not shown but charged to it as closed before delivery. */
  lemma CommandExactly(settings: Settings, s: State)
    requires Enabled(settings, s, Frame(ApplyCommand))
    ensures var s' := Do(settings, s, Frame(ApplyCommand)); var e := s.commands[0]; var k := s.conns[e.conn];
      && s'.commands == s.commands[1..] && s'.lifecycle == s.lifecycle && s'.packets == s.packets
      && if e.Packet? && k.cancelled then s'.events == s.events && s'.conns == s.conns[e.conn := Charge(k, ClosedBeforeDelivery, 1)]
         else s'.events == s.events + [e]
              && s'.conns == if e.Established? then s.conns[e.conn := k.(published := true)] else s.conns
  {
  }

  /** However a connection ends, what is still in its raw queue is charged to it as closed before delivery, and the
      queue is closed. */
  lemma EndedExactly(settings: Settings, s: State, step: Step)
    requires Enabled(settings, s, step)
    requires (step.Setup? && (step.setup.Abandon? || step.setup.SplitFail?)) || (step.Reader? && step.reader.DropReader?)
    ensures var k, k' := s.conns[step.c], Do(settings, s, step).conns[step.c];
      && !k'.raw.open && k'.raw.items == [] && k'.peerClosed && k'.hand == k.hand && k'.arrivals == k.arrivals
      && k'.drops == Charged(k.drops, ClosedBeforeDelivery, |k.raw.items|)
  {
    var k := s.conns[step.c];
    if step.Setup? { assert Cancel(k, ByOther).raw == k.raw && Cancel(k, ByOther).drops == k.drops; }
  }

  // ---------------------------------------------------------------------------------------------
  // Going on from any reachable state
  // ---------------------------------------------------------------------------------------------

  /** A run may go on with any enabled step. */
  lemma GoOn(settings: Settings, past: seq<Step>, s: State, step: Step) returns (now: seq<Step>)
    requires Reached(settings, past, s) && Enabled(settings, s, step)
    ensures Reached(settings, now, Do(settings, s, step))
  {
    now := past + [step];
    assert now[..|now| - 1] == past;
  }

  /** What a frame leaves of a connection: its tasks go on as they were, and publication is never undone. */
  ghost predicate SurvivesFrame(k: Conn, k': Conn) {
    PipelineTrace.SameTasks(k, k') && (k.published ==> k'.published)
  }

  lemma {:induction false} CommandsSurvived(s: State, c: nat)
    requires EcsFrame.Addressed(s) && c < |s.conns|
    ensures var conns := EcsFrame.RunAll(s).conns; |conns| == |s.conns| && SurvivesFrame(s.conns[c], conns[c])
    decreases |s.commands|
  {
    if s.commands != [] {
      EcsFrame.AddressedAfter(s);
      PipelineTrace.RunSameTasks(s, c);
      PublishedAfterCommand(s, c);
      CommandsSurvived(RunCommand(s), c);
    }
  }

  lemma PublishedAfterCommand(s: State, c: nat)
    requires s.commands != [] && s.commands[0].conn < |s.conns| && c < |s.conns|
    ensures s.conns[c].published ==> RunCommand(s).conns[c].published
  {
  }

  lemma {:induction false} TakingSurvived(s: State, budget: nat, c: nat)
    requires c < |s.conns|
    ensures var conns := EcsFrame.DeferPackets(s, budget).conns;
      |conns| == |s.conns| && SurvivesFrame(s.conns[c], conns[c])
    decreases budget
  {
    if budget > 0 && FrontReady(s) {
      PipelineTrace.TakeSameTasks(s, c);
      PublishedAfterTake(s, c);
      TakingSurvived(TakePacket(s), budget - 1, c);
    }
  }

  lemma PublishedAfterTake(s: State, c: nat)
    requires FrontReady(s) && c < |s.conns|
    ensures s.conns[c].published ==> TakePacket(s).conns[c].published
  {
  }

  lemma FrameSurvived(s: State, budget: nat, c: nat)
    requires EcsFrame.Addressed(s) && c < |s.conns|
    ensures var conns := EcsFrame.Updated(s, budget).conns;
      |conns| == |s.conns| && SurvivesFrame(s.conns[c], conns[c])
  {
    var deferred := EcsFrame.DeferLifecycle(s, budget);
    CommandsSurvived(deferred, c);
    EcsFrame.RunAllKeeps(deferred);
    var published := EcsFrame.RunAll(deferred);
    TakingSurvived(published, budget, c);
    EcsFrame.DeferPacketsKeeps(published, budget);
    CommandsSurvived(EcsFrame.DeferPackets(published, budget), c);
  }

  /** A frame that clears the lifecycle queue. */
  lemma ClearingFrame(settings: Settings, past: seq<Step>, s: State, c: nat) returns (now: seq<Step>, s': State)
    requires Reached(settings, past, s) && s.phase.Resting? && c < |s.conns|
    ensures Reached(settings, now, s') && s'.phase.Resting? && s'.lifecycle == []
    ensures |s'.conns| == |s.conns| && SurvivesFrame(s.conns[c], s'.conns[c])
    ensures forall e :: e in s.events || e in s.lifecycle ==> e in s'.events
  {
    var budget := |s.lifecycle|;
    now := EcsFrame.FrameIsRun(settings, past, s, budget);
    var taken := EcsFrame.FrameShows(settings, past, s, budget);
    FrameSurvived(s, budget, c);
    s' := EcsFrame.Updated(s, budget).(phase := Resting);
    assert s.lifecycle[..budget] == s.lifecycle;
  }

  // ---------------------------------------------------------------------------------------------
  // Closure
  // ---------------------------------------------------------------------------------------------

  /** Steps a connection is away from queueing its closure. */
  function Remaining(k: Conn): nat {
    match k.stage
    case Announced => 8
    case Reading => 4 + (if k.hand.Some? then 1 else 0) + (if k.cancelled then 0 else 2)
    case Leaving(_) => 3
    case Settled(_) => 2
    case Closing(_) => 1
    case _ => 0
  }

  function NextStep(k: Conn, c: nat): Step {
    match k.stage
    case Announced => Setup(c, Start)
    case Reading => if k.hand.Some? then Reader(c, Forward) else if k.cancelled then Reader(c, LeaveOnCancel) else Disconnect(c)
    case Leaving(_) => Reader(c, FinalPoll)
    case Settled(_) => Reader(c, RaiseCancel)
    case _ => Reader(c, SendClosed)
  }

  ghost predicate Advances(k: Conn, k': Conn) {
    PipelineTrace.PastAnnouncement(k'.stage) && Remaining(k') < Remaining(k)
  }

  lemma ReaderAdvances(k: Conn, step: ReaderStep)
    requires ReaderGuard(k, step) && k.hand.None?
    requires step.LeaveOnCancel? || step.FinalPoll? || step.RaiseCancel?
    ensures Advances(k, ReaderEffect(k, step))
  {
  }

  lemma NextStepAdvances(settings: Settings, s: State, c: nat)
    requires c < |s.conns| && PipelineTrace.PastAnnouncement(s.conns[c].stage)
    requires !s.conns[c].stage.Closing? && !s.conns[c].stage.Finished?
    requires s.conns[c].hand.Some? ==> s.conns[c].stage.Reading?
    ensures var step := NextStep(s.conns[c], c);
      && Enabled(settings, s, step) && !step.Frame?
      && |Do(settings, s, step).conns| == |s.conns| && Advances(s.conns[c], Do(settings, s, step).conns[c])
  {
    var k := s.conns[c];
    var step := NextStep(k, c);
    if step.Reader? {
      if step.reader.Forward? { PipelineTrace.ForwardConns(settings, s, c, c); }
      else { ReaderAdvances(k, step.reader); }
    }
  }

  lemma HandWhileReading(settings: Settings, past: seq<Step>, s: State, c: nat)
    requires Reached(settings, past, s) && c < |s.conns|
    ensures s.conns[c].hand.Some? ==> s.conns[c].stage.Reading?
  {
    PipelineTrace.InvHolds(settings, past, s);
    assert PipelineTrace.ConnTrace(s.conns[c], c, PipelineTrace.Of(s.events, c), PipelineTrace.Future(s, c));
  }

  /** The closure of a finished reader has been shown or waits in the lifecycle queue. */
  lemma FinishedIsAnnounced(settings: Settings, past: seq<Step>, s: State, c: nat)
    requires Reached(settings, past, s) && s.phase.Resting? && c < |s.conns| && s.conns[c].stage.Finished?
    ensures var e := Event.Closed(c, s.conns[c].stage.cause); e in s.events || e in s.lifecycle
  {
    PipelineTrace.InvHolds(settings, past, s);
    PipelineProgress.RestingIsClean(settings, past, s);
    assert PipelineTrace.ConnTrace(s.conns[c], c, PipelineTrace.Of(s.events, c), PipelineTrace.Future(s, c));
    var e, future := Event.Closed(c, s.conns[c].stage.cause), PipelineTrace.Future(s, c);
    assert future[|future| - 1] == e;
    OfIsPart(s.events, c);
    PipelineProgress.LifeIsUpcoming(PipelineTrace.Upcoming(s), c);
    assert e in PipelineTrace.Of(s.events, c) || e in PipelineTrace.LifeOf(PipelineTrace.Upcoming(s), c);
  }

  lemma {:induction false} OfIsPart(xs: seq<Event>, c: nat)
    ensures forall e :: e in PipelineTrace.Of(xs, c) ==> e in xs
  {
    if xs != [] { OfIsPart(xs[1..], c); }
  }

  /** No deadlock: from every reachable state between frames, every announced connection can be brought to show
      its closure, whatever its reader, its writer and the queues are doing. */
  lemma {:induction false} ClosureIsReachable(settings: Settings, past: seq<Step>, s: State, c: nat)
      returns (now: seq<Step>, s': State, cause: Cause)
    requires Reached(settings, past, s) && s.phase.Resting? && settings.lifecycleCapacity > 0
    requires c < |s.conns| && PipelineTrace.PastAnnouncement(s.conns[c].stage)
    ensures Reached(settings, now, s') && Event.Closed(c, cause) in s'.events
    decreases Remaining(s.conns[c])
  {
    var k := s.conns[c];
    if k.stage.Finished? {
      FinishedIsAnnounced(settings, past, s, c);
      now, s' := ClearingFrame(settings, past, s, c);
      cause := k.stage.cause;
    } else if k.stage.Closing? {
      var cleared;
      now, cleared := ClearingFrame(settings, past, s, c);
      now := GoOn(settings, now, cleared, Reader(c, SendClosed));
      now, s', cause := ClosureIsReachable(settings, now, Do(settings, cleared, Reader(c, SendClosed)), c);
    } else {
      HandWhileReading(settings, past, s, c);
      NextStepAdvances(settings, s, c);
      PipelineProgress.TaskFrame(settings, s, NextStep(k, c));
      now := GoOn(settings, past, s, NextStep(k, c));
      now, s', cause := ClosureIsReachable(settings, now, Do(settings, s, NextStep(k, c)), c);
    }
  }

  /** From every reachable state between frames, a connection that is about to announce itself can be shown. */
  lemma AnnouncementIsReachable(settings: Settings, past: seq<Step>, s: State, c: nat)
      returns (now: seq<Step>, s': State)
    requires Reached(settings, past, s) && s.phase.Resting? && settings.lifecycleCapacity > 0
    requires c < |s.conns| && s.conns[c].stage.Announcing?
    ensures Reached(settings, now, s') && Established(c) in s'.events
  {
    var cleared;
    now, cleared := ClearingFrame(settings, past, s, c);
    now := GoOn(settings, now, cleared, Setup(c, Announce));
    var announced := Do(settings, cleared, Setup(c, Announce));
    assert announced.lifecycle == [Established(c)];
    now, s' := ClearingFrame(settings, now, announced, c);
    assert Established(c) in announced.lifecycle;
  }

  /** And a connection can be made and shown from every reachable state between frames. */
  lemma NewConnectionIsShown(settings: Settings, past: seq<Step>, s: State, first: Option<Datagram>)
      returns (now: seq<Step>, s': State)
    requires Reached(settings, past, s) && s.phase.Resting? && settings.lifecycleCapacity > 0
    requires first.Some? ==> Admissible(settings.raw, first.value.size)
    ensures Reached(settings, now, s') && Established(|s.conns|) in s'.events
  {
    if first.Some? {
      var empty: Queue<Datagram> := Queue([], 0, 1, true);
      TrySendExactly(settings.raw, empty, first.value, first.value.size);
    }
    now := GoOn(settings, past, s, Connect(first));
    now, s' := AnnouncementIsReachable(settings, now, Do(settings, s, Connect(first)), |s.conns|);
  }

  predicate Over(stage: Stage) { stage.Closing? || stage.Finished? || stage.Abandoned? }

  /** Once a connection is over its peer is closed, and stays so. */
  ghost predicate ClosedWhenOver(k: Conn) { Over(k.stage) ==> k.peerClosed }

  lemma ReaderCloses(k: Conn, step: ReaderStep)
    requires ReaderGuard(k, step) && ClosedWhenOver(k)
    ensures ClosedWhenOver(ReaderEffect(k, step))
  {
  }

  lemma SetupCloses(k: Conn, step: SetupStep)
    requires SetupGuard(k, step) && ClosedWhenOver(k)
    ensures ClosedWhenOver(SetupEffect(k, step))
  {
  }

  lemma FrameCloses(s: State, step: FrameStep, c: nat)
    requires FrameGuard(s, step) && c < |s.conns| && ClosedWhenOver(s.conns[c])
    ensures var conns := FrameEffect(s, step).conns; c < |conns| && ClosedWhenOver(conns[c])
  {
    if step.DrainPacket? {} else if step.ApplyCommand? {}
  }

  lemma StepCloses(settings: Settings, s: State, step: Step, c: nat)
    requires Enabled(settings, s, step) && c < |s.conns| && ClosedWhenOver(s.conns[c])
    ensures var conns := Do(settings, s, step).conns; c < |conns| && ClosedWhenOver(conns[c])
  {
    if step.Setup? {
      if c == step.c { SetupCloses(s.conns[c], step.setup); }
    } else if step.Reader? {
      if step.reader.Forward? { PipelineTrace.ForwardConns(settings, s, step.c, c); }
      else if c == step.c { ReaderCloses(s.conns[c], step.reader); }
    } else if step.Arrive? {
      if c == step.c { DepositExactly(settings, s.conns[c], step.datagram); }
    } else if step.Frame? {
      FrameCloses(s, step.frame, c);
    }
  }

  lemma {:induction false} OverIsClosed(settings: Settings, schedule: seq<Step>, s: State, c: nat)
    requires Reached(settings, schedule, s) && c < |s.conns|
    ensures ClosedWhenOver(s.conns[c])
  {
    if schedule != [] {
      var before := ExecFrom(settings, Initial(), schedule[..|schedule| - 1]).value;
      if c < |before.conns| {
        OverIsClosed(settings, schedule[..|schedule| - 1], before, c);
        StepCloses(settings, before, schedule[|schedule| - 1], c);
      } else if !schedule[|schedule| - 1].Connect? {
        PipelineTrace.OnlyConnectAdds(settings, before, schedule[|schedule| - 1]);
      }
    }
  }

  /** In every run, a datagram that arrives once its connection is over is charged as closed before delivery and
      queued nowhere. */
  lemma LateDatagramIsCharged(settings: Settings, schedule: seq<Step>, s: State, c: nat, d: Datagram)
    requires Reached(settings, schedule, s) && Enabled(settings, s, Arrive(c, d)) && Over(s.conns[c].stage)
    ensures var k' := Do(settings, s, Arrive(c, d)).conns[c];
      k' == Charge(s.conns[c], ClosedBeforeDelivery, 1).(arrivals := s.conns[c].arrivals + [d])
  {
    OverIsClosed(settings, schedule, s, c);
    DepositExactly(settings, s.conns[c], d);
  }

  // ---------------------------------------------------------------------------------------------
  // Delivery
  // ---------------------------------------------------------------------------------------------

  /** The reader of `c` waits for its next datagram, and observers know the connection. */
  predicate Idle(k: Conn) {
    && k.stage.Reading? && k.hand.None? && k.raw.items == [] && k.raw.open
    && k.published && !k.cancelled && !k.peerClosed
  }

  /** The arrival and the read of one datagram, for either kind of connection. */
  lemma ReadNext(settings: Settings, past: seq<Step>, s: State, c: nat, d: Datagram, limit: nat)
      returns (now: seq<Step>, s': State)
    requires Reached(settings, past, s) && c < |s.conns| && Idle(s.conns[c])
    requires d.size <= MAX_DATAGRAM_SIZE && d.size <= limit && d.packet.Some? && Admissible(settings.raw, d.size)
    ensures Reached(settings, now, s')
    ensures s' == s.(conns := s'.conns) && |s'.conns| == |s.conns|
    ensures s'.conns[c] == s.conns[c].(arrivals := s.conns[c].arrivals + [d], raw := s'.conns[c].raw, hand := d.packet)
  {
    var k := s.conns[c];
    if k.socket {
      now := GoOn(settings, past, s, Reader(c, ReadSocket(d, limit)));
      s' := Do(settings, s, Reader(c, ReadSocket(d, limit)));
    } else {
      DepositExactly(settings, k, d);
      now := GoOn(settings, past, s, Arrive(c, d));
      var arrived := Do(settings, s, Arrive(c, d));
      assert arrived.conns[c].raw.items == [Item(d, d.size)];
      now := GoOn(settings, now, arrived, Reader(c, ReadQueued(limit)));
      s' := Do(settings, arrived, Reader(c, ReadQueued(limit)));
    }
  }

  /** A datagram that finds an idle reader, an empty ECS queue and a frame with any budget is shown by that frame,
      right behind the lifecycle messages it covers. */
  lemma DatagramIsShown(settings: Settings, past: seq<Step>, s: State, c: nat, d: Datagram, limit: nat, budget: nat)
      returns (now: seq<Step>, s': State)
    requires Reached(settings, past, s) && s.phase.Resting? && c < |s.conns| && Idle(s.conns[c])
    requires d.size <= MAX_DATAGRAM_SIZE && d.size <= limit && d.packet.Some? && Admissible(settings.raw, d.size)
    requires s.packets.items == [] && Admissible(settings.ecs, 1) && budget > 0
    ensures Reached(settings, now, s')
    ensures s'.events == s.events + s.lifecycle[..EcsFrame.Covered(s, budget)] + [Packet(c, d.packet.value)]
  {
    var read, e := s, Packet(c, d.packet.value);
    now, read := ReadNext(settings, past, s, c, d, limit);
    ForwardExactly(settings, now, read, c, c);
    now := GoOn(settings, now, read, Reader(c, Forward));
    var queued := Do(settings, read, Reader(c, Forward));
    assert queued.packets.items == [Item(e, 1)];
    FrameShowsPacket(settings, now, queued, e, budget);
    now := EcsFrame.FrameIsRun(settings, now, queued, budget);
    s' := EcsFrame.Updated(queued, budget).(phase := Resting);
  }

  lemma FrameShowsPacket(settings: Settings, past: seq<Step>, s: State, e: Event, budget: nat)
    requires Reached(settings, past, s) && s.phase.Resting? && budget > 0
    requires s.packets.items == [Item(e, 1)] && e.Packet? && e.conn < |s.conns|
    requires s.conns[e.conn].published && !s.conns[e.conn].cancelled
    ensures EcsFrame.Addressed(s)
    ensures EcsFrame.Updated(s, budget).events == s.events + s.lifecycle[..EcsFrame.Covered(s, budget)] + [e]
  {
    var taken := EcsFrame.FrameShows(settings, past, s, budget);
    FrameSurvived(s, budget, e.conn);
    assert taken == 1;
    assert Values(s.packets.items)[..taken] == [e];
    assert EcsFrame.Live(s.conns, [e]) == [e];
  }
}
