/**
No permanent head-of-line stall: a packet waiting in the ECS queue for its connection to be published
becomes removable within a number of frames fixed by the lifecycle queue and the budget.
Also a concrete run of the one race in which a writer's error is not the reported cause.
*/
module PipelineProgress {
  import opened LossyQueue
  import opened Options
  import opened Pipeline
  import opened PipelineTrace

  lemma {:induction false} LifeIsUpcoming(xs: seq<Event>, c: nat)
    ensures forall e :: e in LifeOf(xs, c) ==> e in xs && e.conn == c
  {
    if xs != [] { LifeIsUpcoming(xs[1..], c); }
  }

  /** Every packet in the ECS queue belongs to a connection that is published, cancelled, or still has
      its establishment on the way. */
  lemma QueuedPacketsAreCovered(settings: Settings, schedule: seq<Step>, s: State, e: Event)
    requires Reached(settings, schedule, s) && e in Values(s.packets.items)
    ensures ReadyForEcs(s, e) || Established(e.conn) in s.commands || Established(e.conn) in s.lifecycle
  {
    InvHolds(settings, schedule, s);
    var i :| 0 <= i < |s.packets.items| && s.packets.items[i].value == e;
    assert FromReader(s, s.packets.items[i].value);
    var c := e.conn;
    assert ConnTrace(s.conns[c], c, Of(s.events, c), Future(s, c));
    if !s.conns[c].published {
      assert Future(s, c)[0] == LifeOf(Upcoming(s), c)[0];
      LifeIsUpcoming(Upcoming(s), c);
      assert LifeOf(Upcoming(s), c)[0] in LifeOf(Upcoming(s), c);
    }
  }

  predicate EndsLifecycle(step: Step) { step.Frame? && step.frame.BeginPackets? }

  /** Lifecycle phases completed in a schedule, one per frame. */
  function Frames(schedule: seq<Step>): nat {
    if schedule == [] then 0
    else Frames(schedule[..|schedule| - 1]) + (if EndsLifecycle(schedule[|schedule| - 1]) then 1 else 0)
  }

  ghost predicate BudgetsAtLeast(schedule: seq<Step>, b: nat) {
    forall i :: 0 <= i < |schedule| && schedule[i].Frame? && schedule[i].frame.BeginFrame? ==> schedule[i].frame.budget >= b
  }

  /** The budget those phases have given at least. */
  function Paid(schedule: seq<Step>, b: nat): nat {
    if schedule == [] then 0
    else Paid(schedule[..|schedule| - 1], b) + (if EndsLifecycle(schedule[|schedule| - 1]) then b else 0)
  }

  lemma {:induction false} PaidByFrames(schedule: seq<Step>, b: nat)
    ensures Paid(schedule, b) == Frames(schedule) * b
  {
    if schedule != [] {
      PaidByFrames(schedule[..|schedule| - 1], b);
      var n := Frames(schedule[..|schedule| - 1]);
      assert (n + 1) * b == n * b + b;
    }
  }

  /** Messages the frames so far are certain to have taken from the lifecycle queue. */
  function Credit(phase: Phase, paid: nat, b: nat): int {
    paid + match phase
                 case DrainingLifecycle(left, budget) => budget - left
                 case ApplyingLifecycle => b
                 case _ => 0
  }

  ghost predicate Published(s: State, c: nat) { c < |s.conns| && s.conns[c].published }

  /** An establishment that started `p` places from the front of the lifecycle queue is published, being
      applied, or at most `p` minus the credit places from the front. */
  ghost predicate OnSchedule(s: State, c: nat, paid: nat, b: nat, p: nat) {
    && (s.phase.DrainingLifecycle? ==> s.phase.left <= s.phase.budget && s.phase.budget >= b)
    && (|| Published(s, c)
        || (Established(c) in s.commands && (s.phase.DrainingLifecycle? || s.phase.ApplyingLifecycle?)
            && paid <= p)
        || exists i :: 0 <= i < |s.lifecycle| && s.lifecycle[i] == Established(c) && i + Credit(s.phase, paid, b) <= p)
  }

  ghost predicate Persists(k: Conn, k': Conn) {
    (k.published ==> k'.published) && (k.cancelled ==> k'.cancelled)
  }

  lemma FramePersists(s: State, step: FrameStep, c: nat)
    requires FrameGuard(s, step) && c < |s.conns|
    ensures var conns := FrameEffect(s, step).conns; c < |conns| && Persists(s.conns[c], conns[c])
  {
    if step.DrainPacket? {} else if step.ApplyCommand? {}
  }

  lemma ReaderPersists(k: Conn, step: ReaderStep)
    requires ReaderGuard(k, step)
    ensures Persists(k, ReaderEffect(k, step))
  {
  }

  lemma SetupPersists(k: Conn, step: SetupStep)
    requires SetupGuard(k, step)
    ensures Persists(k, SetupEffect(k, step))
  {
  }

  lemma DepositPersists(settings: Settings, k: Conn, d: Datagram)
    ensures Persists(k, Deposit(settings, k, d))
  {
  }

  /** Publication and cancellation are never undone. */
  lemma FlagsPersist(settings: Settings, s: State, step: Step, c: nat)
    requires Enabled(settings, s, step) && c < |s.conns|
    ensures var conns := Do(settings, s, step).conns; c < |conns| && Persists(s.conns[c], conns[c])
  {
    if step.Connect? {
    } else if step.Frame? {
      FramePersists(s, step.frame, c);
    } else if step.Reader? && step.reader.Forward? {
      ForwardConns(settings, s, step.c, c);
    } else if c == step.c {
      TaskPersists(settings, s, step);
    }
  }

  lemma TaskPersists(settings: Settings, s: State, step: Step)
    requires Enabled(settings, s, step)
    requires !step.Connect? && !step.Frame? && !(step.Reader? && step.reader.Forward?)
    ensures Persists(s.conns[step.c], Do(settings, s, step).conns[step.c])
  {
    var k := s.conns[step.c];
    if step.Setup? { SetupPersists(k, step.setup); }
    else if step.Reader? { ReaderPersists(k, step.reader); }
    else if step.Arrive? { DepositPersists(settings, k, step.datagram); }
  }

  /** Tasks only append to the lifecycle queue and never touch the frame. */
  lemma TaskFrame(settings: Settings, s: State, step: Step)
    requires Enabled(settings, s, step) && !step.Frame?
    ensures var s' := Do(settings, s, step);
      && s'.phase == s.phase && s'.commands == s.commands
      && |s.lifecycle| <= |s'.lifecycle| && s'.lifecycle[..|s.lifecycle|] == s.lifecycle
  {
  }

  lemma TaskStepOnSchedule(settings: Settings, s: State, step: Step, c: nat, paid: nat, b: nat, p: nat)
    requires Enabled(settings, s, step) && OnSchedule(s, c, paid, b, p)
    requires !step.Frame?
    ensures OnSchedule(Do(settings, s, step), c, paid, b, p)
  {
    var s' := Do(settings, s, step);
    TaskFrame(settings, s, step);
    if c < |s.conns| { FlagsPersist(settings, s, step, c); }
    if i :| 0 <= i < |s.lifecycle| && s.lifecycle[i] == Established(c) && i + Credit(s.phase, paid, b) <= p {
      assert s'.lifecycle[..|s.lifecycle|][i] == Established(c);
      assert s'.lifecycle[i] == Established(c);
    }
  }

  lemma FrameStepOnSchedule(s: State, step: FrameStep, c: nat, paid: nat, b: nat, p: nat)
    requires FrameGuard(s, step) && OnSchedule(s, c, paid, b, p)
    requires step.BeginFrame? ==> step.budget >= b
    ensures OnSchedule(FrameEffect(s, step), c, if step.BeginPackets? then paid + b else paid, b, p)
  {
    var s' := FrameEffect(s, step);
    if Published(s, c) {
      FramePersists(s, step, c);
    } else if i :| 0 <= i < |s.lifecycle| && s.lifecycle[i] == Established(c) && i + Credit(s.phase, paid, b) <= p {
      if step.DrainLifecycle? {
        if i == 0 {
          assert s'.commands[|s.commands|] == Established(c);
        } else {
          assert s'.lifecycle[i - 1] == Established(c);
        }
      } else {
        assert s'.lifecycle == s.lifecycle;
        assert s'.lifecycle[i] == Established(c);
      }
    } else if step.DrainLifecycle? {
      var j :| 0 <= j < |s.commands| && s.commands[j] == Established(c);
      assert s'.commands[j] == Established(c);
    }
  }

  lemma StepOnSchedule(settings: Settings, s: State, step: Step, c: nat, paid: nat, b: nat, p: nat)
    requires Enabled(settings, s, step) && OnSchedule(s, c, paid, b, p)
    requires step.Frame? && step.frame.BeginFrame? ==> step.frame.budget >= b
    ensures OnSchedule(Do(settings, s, step), c, if EndsLifecycle(step) then paid + b else paid, b, p)
  {
    if step.Frame? {
      FrameStepOnSchedule(s, step.frame, c, paid, b, p);
    } else {
      TaskStepOnSchedule(settings, s, step, c, paid, b, p);
    }
  }

  lemma {:induction false} StaysOnSchedule(
      settings: Settings, s: State, schedule: seq<Step>, s': State, c: nat, b: nat, p: nat)
    requires ExecFrom(settings, s, schedule) == Some(s') && BudgetsAtLeast(schedule, b)
    requires OnSchedule(s, c, 0, b, p)
    ensures OnSchedule(s', c, Paid(schedule, b), b, p)
    decreases |schedule|
  {
    if schedule != [] {
      var prefix, step := schedule[..|schedule| - 1], schedule[|schedule| - 1];
      var before := ExecFrom(settings, s, prefix).value;
      StaysOnSchedule(settings, s, prefix, before, c, b, p);
      assert step.Frame? && step.frame.BeginFrame? ==> step.frame.budget >= b;
      StepOnSchedule(settings, before, step, c, Paid(prefix, b), b, p);
    }
  }

  /** A connection whose establishment is `p` places from the front between two frames is published once
      enough frames have run, whatever the tasks do in between. */
  lemma PublishedInTime(settings: Settings, s: State, schedule: seq<Step>, s': State, p: nat, b: nat)
    requires ExecFrom(settings, s, schedule) == Some(s') && BudgetsAtLeast(schedule, b)
    requires s.phase.Resting? && p < |s.lifecycle| && s.lifecycle[p].Established?
    requires Frames(schedule) * b > p
    ensures Published(s', s.lifecycle[p].conn)
  {
    StaysOnSchedule(settings, s, schedule, s', s.lifecycle[p].conn, b, p);
    PaidByFrames(schedule, b);
  }

  lemma {:induction false} RestingIsClean(settings: Settings, schedule: seq<Step>, s: State)
    requires Reached(settings, schedule, s)
    ensures s.phase.Resting? ==> s.commands == []
  {
    if schedule != [] {
      var prefix, step := schedule[..|schedule| - 1], schedule[|schedule| - 1];
      var before := ExecFrom(settings, Initial(), prefix).value;
      RestingIsClean(settings, prefix, before);
      if !step.Frame? { TaskFrame(settings, before, step); }
    }
  }

  lemma {:induction false} ReadyPersists(settings: Settings, s: State, schedule: seq<Step>, s': State, e: Event)
    requires ExecFrom(settings, s, schedule) == Some(s') && ReadyForEcs(s, e)
    ensures ReadyForEcs(s', e)
    decreases |schedule|
  {
    if schedule != [] {
      var prefix := schedule[..|schedule| - 1];
      var before := ExecFrom(settings, s, prefix).value;
      ReadyPersists(settings, s, prefix, before, e);
      FlagsPersist(settings, before, schedule[|schedule| - 1], e.conn);
    }
  }

  /** From any reachable state between frames: once the frames that follow have budget for the lifecycle
      messages queued now, every packet queued now is removable. Nothing else can delay it. */
  lemma NoPermanentStall(
      settings: Settings, past: seq<Step>, s: State, schedule: seq<Step>, s': State, b: nat, e: Event)
    requires Reached(settings, past, s) && s.phase.Resting? && e in Values(s.packets.items)
    requires ExecFrom(settings, s, schedule) == Some(s') && BudgetsAtLeast(schedule, b)
    requires Frames(schedule) * b >= |s.lifecycle|
    ensures ReadyForEcs(s', e)
  {
    QueuedPacketsAreCovered(settings, past, s, e);
    RestingIsClean(settings, past, s);
    if ReadyForEcs(s, e) {
      ReadyPersists(settings, s, schedule, s', e);
    } else {
      var p :| 0 <= p < |s.lifecycle| && s.lifecycle[p] == Established(e.conn);
      PublishedInTime(settings, s, schedule, s', p, b);
    }
  }

  // ---------------------------------------------------------------------------------------------
  // Leaving the ECS queue
  // ---------------------------------------------------------------------------------------------

  /** How many packets a step takes from the front of the ECS queue, be it for a frame or by eviction. */
  function Taken(settings: Settings, s: State, step: Step): nat
    requires Enabled(settings, s, step)
  {
    match step
    case Frame(DrainPacket) => 1
    case Reader(c, Forward) =>
      var r := TrySend(settings.ecs, s.packets, Packet(c, s.conns[c].hand.value), 1).1;
      if r.Sent? then |r.evicted| else 0
    case _ => 0
  }

  /** How many have left it in a schedule from `s`. */
  function Left(settings: Settings, s: State, schedule: seq<Step>): nat
    requires ExecFrom(settings, s, schedule).Some?
    decreases |schedule|
  {
    if schedule == [] then 0
    else
      var prefix := schedule[..|schedule| - 1];
      Left(settings, s, prefix)
      + Taken(settings, ExecFrom(settings, s, prefix).value, schedule[|schedule| - 1])
  }

  /** `now` is what remains of `before` once its first `left` packets are gone, with later packets behind. */
  ghost predicate Remains(before: seq<Event>, left: nat, now: seq<Event>) {
    left < |before| ==> before[left..] <= now
  }

  lemma RemainsLess(before: seq<Event>, left: nat, now: seq<Event>, taken: nat, later: seq<Event>)
    requires Remains(before, left, now) && Remains(now, taken, later)
    ensures Remains(before, left + taken, later)
  {
    if left + taken < |before| {
      var n := |before| - left;
      assert before[left..][taken..] == before[left + taken..];
      assert now[..n] == before[left..];
      assert now[taken..][..n - taken] == now[..n][taken..];
    }
  }

  lemma ForwardRemains(settings: Settings, s: State, c: nat)
    requires Enabled(settings, s, Reader(c, Forward))
    ensures Remains(Values(s.packets.items), Taken(settings, s, Reader(c, Forward)),
                    Values(ForwardPacket(settings, s, c).packets.items))
  {
    var e := Packet(c, s.conns[c].hand.value);
    var (q, r) := TrySend(settings.ecs, s.packets, e, 1);
    TrySendOrder(settings.ecs, s.packets, e, 1);
    if r.Sent? { DropPrefix(r.evicted, Values(q.items), Values(s.packets.items), e); }
  }

  lemma DropPrefix(evicted: seq<Event>, kept: seq<Event>, queued: seq<Event>, e: Event)
    requires evicted + kept == queued + [e]
    ensures Remains(queued, |evicted|, kept)
  {
    if |evicted| < |queued| {
      assert kept == (queued + [e])[|evicted|..];
      assert kept == queued[|evicted|..] + [e];
    }
  }

  lemma TakeRemains(s: State)
    requires FrontReady(s)
    ensures Remains(Values(s.packets.items), 1, Values(TakePacket(s).packets.items))
  {
    assert Values(TakePacket(s).packets.items) == Values(s.packets.items)[1..];
  }

  lemma OthersLeaveQueue(settings: Settings, s: State, step: Step)
    requires Enabled(settings, s, step) && step != Frame(DrainPacket) && !(step.Reader? && step.reader.Forward?)
    ensures Do(settings, s, step).packets == s.packets
  {
  }

  lemma StepRemains(settings: Settings, s: State, step: Step)
    requires Enabled(settings, s, step)
    ensures Remains(Values(s.packets.items), Taken(settings, s, step), Values(Do(settings, s, step).packets.items))
  {
    if step.Reader? && step.reader.Forward? { ForwardRemains(settings, s, step.c); }
    else if step == Frame(DrainPacket) { TakeRemains(s); }
    else { OthersLeaveQueue(settings, s, step); }
  }

  /** The ECS queue is what it was, without the packets that have left and with later ones behind. */
  lemma {:induction false} QueueRemains(settings: Settings, s: State, schedule: seq<Step>, s': State)
    requires ExecFrom(settings, s, schedule) == Some(s')
    ensures Remains(Values(s.packets.items), Left(settings, s, schedule), Values(s'.packets.items))
    decreases |schedule|
  {
    if schedule != [] {
      var prefix, step := schedule[..|schedule| - 1], schedule[|schedule| - 1];
      var before := ExecFrom(settings, s, prefix).value;
      QueueRemains(settings, s, prefix, before);
      StepRemains(settings, before, step);
      RemainsLess(Values(s.packets.items), Left(settings, s, prefix), Values(before.packets.items),
                  Taken(settings, before, step), Values(s'.packets.items));
    }
  }

  ghost predicate PacketBudgetsAtLeast(schedule: seq<Step>, b: nat) {
    forall i :: 0 <= i < |schedule| && EndsLifecycle(schedule[i]) ==> schedule[i].frame.budget >= b
  }

  function Min(a: nat, b: nat): nat { if a <= b then a else b }

  /** With `n` packets ready from the start, `paid` budget given to packet drains and `left` packets gone. */
  ghost predicate DrainsOnTime(phase: Phase, left: nat, paid: nat, b: nat, n: nat) {
    left + (if phase.DrainingPackets? then phase.left else 0) >= Min(n, paid)
  }

  /** One step: the front is ready as long as fewer than `n` packets have left. */
  lemma StepDrainsOnTime(settings: Settings, s: State, step: Step, left: nat, paid: nat, b: nat, n: nat)
    requires Enabled(settings, s, step) && DrainsOnTime(s.phase, left, paid, b, n)
    requires left < n ==> FrontReady(s)
    requires EndsLifecycle(step) ==> step.frame.budget >= b
    ensures DrainsOnTime(Do(settings, s, step).phase, left + Taken(settings, s, step),
                         if EndsLifecycle(step) then paid + b else paid, b, n)
  {
    if !step.Frame? { TaskFrame(settings, s, step); }
  }

  /** The first `n` packets of the ECS queue are removable. */
  ghost predicate FirstReady(s: State, n: nat) {
    n <= |s.packets.items| && forall p :: 0 <= p < n ==> ReadyForEcs(s, s.packets.items[p].value)
  }

  /** Ready packets keep the front ready until they have left. */
  lemma FrontStaysReady(settings: Settings, s: State, schedule: seq<Step>, s': State, n: nat)
    requires ExecFrom(settings, s, schedule) == Some(s') && FirstReady(s, n) && Left(settings, s, schedule) < n
    ensures FrontReady(s')
  {
    var left := Left(settings, s, schedule);
    QueueRemains(settings, s, schedule, s');
    var e := Values(s.packets.items)[left];
    assert ReadyForEcs(s, s.packets.items[left].value);
    ReadyPersists(settings, s, schedule, s', e);
    assert Values(s'.packets.items)[0] == e;
  }

  lemma {:induction false} DrainsInTime(
      settings: Settings, s: State, schedule: seq<Step>, s': State, b: nat, n: nat)
    requires ExecFrom(settings, s, schedule) == Some(s') && PacketBudgetsAtLeast(schedule, b)
    requires !s.phase.DrainingPackets? && FirstReady(s, n)
    ensures DrainsOnTime(s'.phase, Left(settings, s, schedule), Paid(schedule, b), b, n)
    decreases |schedule|
  {
    if schedule != [] {
      var prefix, step := schedule[..|schedule| - 1], schedule[|schedule| - 1];
      var before := ExecFrom(settings, s, prefix).value;
      DrainsInTime(settings, s, prefix, before, b, n);
      var left := Left(settings, s, prefix);
      if left < n { FrontStaysReady(settings, s, prefix, before, n); }
      assert schedule[|schedule| - 1] == step;
      StepDrainsOnTime(settings, before, step, left, Paid(prefix, b), b, n);
    }
  }

  /** Once the lifecycle messages are covered, what remains of the packets queued then is ready. */
  lemma CoveredAreReady(
      settings: Settings, past: seq<Step>, s: State, covering: seq<Step>, s1: State, b: nat, n: nat)
    requires Reached(settings, past, s) && s.phase.Resting?
    requires ExecFrom(settings, s, covering) == Some(s1) && BudgetsAtLeast(covering, b)
    requires Frames(covering) * b >= |s.lifecycle|
    requires Left(settings, s, covering) + n <= |s.packets.items|
    ensures FirstReady(s1, n)
  {
    var left, before := Left(settings, s, covering), Values(s.packets.items);
    if n > 0 {
      QueueRemains(settings, s, covering, s1);
      var now := Values(s1.packets.items);
      forall q | 0 <= q < n ensures ReadyForEcs(s1, s1.packets.items[q].value) {
        assert now[q] == before[left..][q];
        NoPermanentStall(settings, past, s, covering, s1, b, before[left + q]);
      }
    }
  }

  /** Every packet leaves the ECS queue in time. From any reachable state between frames: once a first stretch
      of frames has covered the lifecycle messages queued now, and a second one, ending between frames, has
      budget for the packet's position, that packet and all before it have left, whatever the tasks do. */
  lemma PacketsLeave(
      settings: Settings, past: seq<Step>, s: State, covering: seq<Step>, s1: State, draining: seq<Step>, s2: State,
      b: nat, p: nat)
    requires Reached(settings, past, s) && s.phase.Resting? && p < |s.packets.items|
    requires ExecFrom(settings, s, covering) == Some(s1) && BudgetsAtLeast(covering, b)
    requires Frames(covering) * b >= |s.lifecycle| && s1.phase.Resting?
    requires ExecFrom(settings, s1, draining) == Some(s2) && PacketBudgetsAtLeast(draining, b)
    requires Frames(draining) * b > p && s2.phase.Resting?
    ensures Left(settings, s, covering) + Left(settings, s1, draining) > p
  {
    var left := Left(settings, s, covering);
    if left <= p {
      CoveredAreReady(settings, past, s, covering, s1, b, p + 1 - left);
      DrainsInTime(settings, s1, draining, s2, b, p + 1 - left);
      PaidByFrames(draining, b);
    }
  }

  // ---------------------------------------------------------------------------------------------
  // The late report
  // ---------------------------------------------------------------------------------------------

  /** A list of states linked by the steps of a schedule is a run. */
  lemma {:induction false} LinkedStates(settings: Settings, schedule: seq<Step>, states: seq<State>)
    requires |states| == |schedule| + 1 && states[0] == Initial()
    requires forall n :: 0 <= n < |schedule| ==>
      Enabled(settings, states[n], schedule[n]) && Do(settings, states[n], schedule[n]) == states[n + 1]
    ensures Reached(settings, schedule, states[|schedule|])
    decreases |schedule|
  {
    if schedule != [] {
      LinkedStates(settings, schedule[..|schedule| - 1], states[..|schedule|]);
    }
  }

  const LATE_REPORT: seq<Step> := [
    Connect(None), Setup(0, Announce), Setup(0, Start), Reader(0, LeaveOnError(7)), Reader(0, FinalPoll),
    Step.Writer(0, ReportFailure(5)), Step.Writer(0, CancelConnection), Reader(0, RaiseCancel), Reader(0, SendClosed),
    Frame(BeginFrame(2)), Frame(DrainLifecycle), Frame(DrainLifecycle), Frame(EndLifecycle),
    Frame(ApplyCommand), Frame(ApplyCommand)]

  /** The connection after the first `n` task steps. */
  function LateConn(n: nat): Conn {
    var newborn := NewConn(true, Queue([], 0, 1, true), []);
    if n <= 1 then newborn
    else if n == 2 then newborn.(stage := Announced)
    else
      var started := newborn.(writer := Writing);
      if n == 3 then started.(stage := Reading)
      else if n == 4 then started.(stage := Leaving(ReadFailed(7)))
      else if n == 5 then started.(stage := Settled(ReadFailed(7)))
      else
        var failed := newborn.(writer := Failing(5), failure := Some(5), late := true, stage := Settled(ReadFailed(7)));
        if n == 6 then failed
        else
          var cancelled := failed.(writer := Stopped, cancelled := true, raiser := ByWriter(5));
          if n == 7 then cancelled
          else cancelled.(peerClosed := true, stage := if n == 8 then Closing(ReadFailed(7)) else Finished(ReadFailed(7)))
  }

  const SHOWN: seq<Event> := [Established(0), Event.Closed(0, ReadFailed(7))]

  /** The endpoint after the first `n` steps of the run. */
  function LateState(n: nat): State {
    var queue: Queue<Event> := Queue([], 0, 1, true);
    if n == 0 then Initial()
    else if n <= 9 then State([LateConn(n)], if n < 2 then [] else if n < 9 then SHOWN[..1] else SHOWN, queue, [], [], Resting)
    else
      var done := LateConn(9);
      if n == 10 then State([done], SHOWN, queue, [], [], DrainingLifecycle(2, 2))
      else if n == 11 then State([done], SHOWN[1..], queue, SHOWN[..1], [], DrainingLifecycle(1, 2))
      else if n == 12 then State([done], [], queue, SHOWN, [], DrainingLifecycle(0, 2))
      else if n == 13 then State([done], [], queue, SHOWN, [], ApplyingLifecycle)
      else if n == 14 then State([done.(published := true)], [], queue, SHOWN[1..], SHOWN[..1], ApplyingLifecycle)
      else State([done.(published := true)], [], queue, [], SHOWN, ApplyingLifecycle)
  }

  lemma LateSetupStep(settings: Settings, n: nat)
    requires settings.lifecycleCapacity >= 2 && n < 3
    ensures Enabled(settings, LateState(n), LATE_REPORT[n])
    ensures Do(settings, LateState(n), LATE_REPORT[n]) == LateState(n + 1)
  {
    if n == 0 {} else if n == 1 {} else { assert n == 2; }
  }

  lemma LateReaderStep(settings: Settings, n: nat)
    requires 3 <= n < 5
    ensures Enabled(settings, LateState(n), LATE_REPORT[n])
    ensures Do(settings, LateState(n), LATE_REPORT[n]) == LateState(n + 1)
  {
    if n == 3 {} else { assert n == 4; }
  }

  lemma LateWriterStep(settings: Settings, n: nat)
    requires settings.lifecycleCapacity >= 2 && 5 <= n < 9
    ensures Enabled(settings, LateState(n), LATE_REPORT[n])
    ensures Do(settings, LateState(n), LATE_REPORT[n]) == LateState(n + 1)
  {
    if n == 5 {} else if n == 6 {} else if n == 7 {} else { assert n == 8; }
  }

  lemma LateFrameStep(settings: Settings, n: nat)
    requires 9 <= n < 15
    ensures Enabled(settings, LateState(n), LATE_REPORT[n])
    ensures Do(settings, LateState(n), LATE_REPORT[n]) == LateState(n + 1)
  {
    assert SHOWN[..1] + [SHOWN[1]] == SHOWN && SHOWN[1..][1..] == [] && SHOWN[1..][0] == SHOWN[1];
    if n == 9 {} else if n == 10 {} else if n == 11 {} else if n == 12 {} else if n == 13 {} else { assert n == 14; }
  }

  lemma LateStep(settings: Settings, n: nat)
    requires settings.lifecycleCapacity >= 2 && n < 15
    ensures Enabled(settings, LateState(n), LATE_REPORT[n])
    ensures Do(settings, LateState(n), LATE_REPORT[n]) == LateState(n + 1)
  {
    if n < 3 { LateSetupStep(settings, n); }
    else if n < 5 { LateReaderStep(settings, n); }
    else if n < 9 { LateWriterStep(settings, n); }
    else { LateFrameStep(settings, n); }
  }

  /** The writer's failure is what cancels the connection, yet the closure reports the reader's own
      error: the reader had looked for a report just before the writer sent it. */
  lemma LateReportRun(settings: Settings) returns (s: State)
    requires settings.lifecycleCapacity >= 2
    ensures Reached(settings, LATE_REPORT, s)
    ensures Event.Closed(0, ReadFailed(7)) in s.events
    ensures |s.conns| == 1 && s.conns[0].raiser == ByWriter(5) && s.conns[0].late
  {
    var states := seq(16, n requires 0 <= n < 16 => LateState(n));
    forall n | 0 <= n < 15
      ensures Enabled(settings, states[n], LATE_REPORT[n]) && Do(settings, states[n], LATE_REPORT[n]) == states[n + 1]
    {
      LateStep(settings, n);
    }
    assert states[0] == Initial();
    LinkedStates(settings, LATE_REPORT, states);
    s := LateState(15);
    assert s.events[1] == Event.Closed(0, ReadFailed(7));
  }
}
