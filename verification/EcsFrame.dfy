/**
The ECS systems of one frame, as the loops they are, on the resources they update. Each computes a
function of the state; that function is shown to be a run of the step system, so whatever holds of every
run holds of these loops, and a frame that nothing interrupts gets an exact account of what it shows.
*/
module EcsFrame {
  import opened LossyQueue
  import opened Pipeline
  import opened Udp
  import PipelineTrace
  import PipelineProgress

  // ---------------------------------------------------------------------------------------------
  // What the systems compute
  // ---------------------------------------------------------------------------------------------

  /** Every event on its way to observers names an existing connection. */
  ghost predicate Addressed(s: State) {
    && (forall e :: e in s.commands ==> e.conn < |s.conns|)
    && (forall e :: e in s.lifecycle ==> e.conn < |s.conns|)
  }

  /** Frames publish and count; they cancel nobody. */
  ghost predicate SameCancelled(conns: seq<Conn>, conns': seq<Conn>) {
    |conns'| == |conns| && forall c :: 0 <= c < |conns| ==> conns'[c].cancelled == conns[c].cancelled
  }

  function Covered(s: State, budget: nat): nat {
    if budget < |s.lifecycle| then budget else |s.lifecycle|
  }

  /** The first `budget` lifecycle messages become deferred commands. */
  function DeferLifecycle(s: State, budget: nat): State {
    s.(lifecycle := s.lifecycle[Covered(s, budget)..], commands := s.commands + s.lifecycle[..Covered(s, budget)])
  }

  /** Up to `budget` packets leave the front, until one whose connection is neither published nor cancelled. */
  function DeferPackets(s: State, budget: nat): State
    decreases budget
  {
    if budget == 0 || !FrontReady(s) then s else DeferPackets(TakePacket(s), budget - 1)
  }

  /** All deferred commands, in order. */
  ghost function RunAll(s: State): State
    requires Addressed(s)
    decreases |s.commands|
  {
    if s.commands == [] then s else AddressedAfter(s); RunAll(RunCommand(s))
  }

  lemma AddressedAfter(s: State)
    requires Addressed(s) && s.commands != []
    ensures s.commands[0].conn < |s.conns| && Addressed(RunCommand(s))
  {
    assert s.commands[0] in s.commands;
  }

  lemma {:induction false} RunAllKeeps(s: State)
    requires Addressed(s)
    ensures var s' := RunAll(s);
      && Addressed(s') && s'.commands == [] && s'.lifecycle == s.lifecycle && s'.packets == s.packets
      && SameCancelled(s.conns, s'.conns)
    decreases |s.commands|
  {
    if s.commands != [] {
      AddressedAfter(s);
      RunAllKeeps(RunCommand(s));
    }
  }

  lemma {:induction false} DeferPacketsKeeps(s: State, budget: nat)
    requires Addressed(s)
    ensures var s' := DeferPackets(s, budget);
      && Addressed(s') && s'.lifecycle == s.lifecycle && s'.events == s.events && SameCancelled(s.conns, s'.conns)
    decreases budget
  {
    if budget > 0 && FrontReady(s) { DeferPacketsKeeps(TakePacket(s), budget - 1); }
  }

  /** A frame: lifecycle first, then packets, each within the budget. */
  ghost function Updated(s: State, budget: nat): State
    requires Addressed(s)
  {
    var published := RunAll(DeferLifecycle(s, budget));
    RunAllKeeps(DeferLifecycle(s, budget));
    DeferPacketsKeeps(published, budget);
    RunAll(DeferPackets(published, budget))
  }

  // ---------------------------------------------------------------------------------------------
  // A frame is a run
  // ---------------------------------------------------------------------------------------------

  /** A run may go on with any enabled step. */
  lemma Extend(settings: Settings, past: seq<Step>, s: State, step: FrameStep)
    requires Reached(settings, past, s) && FrameGuard(s, step)
    ensures Reached(settings, past + [Frame(step)], FrameEffect(s, step))
  {
    assert (past + [Frame(step)])[..|past + [Frame(step)]| - 1] == past;
  }

  lemma DeferOneMore(s: State, left: nat)
    requires left > 0 && s.lifecycle != []
    ensures var s' := s.(lifecycle := s.lifecycle[1..], commands := s.commands + [s.lifecycle[0]]);
      DeferLifecycle(s', left - 1) == DeferLifecycle(s, left)
  {
    var n := Covered(s, left);
    assert s.lifecycle[..n] == [s.lifecycle[0]] + s.lifecycle[1..][..n - 1];
    assert s.lifecycle[n..] == s.lifecycle[1..][n - 1..];
  }

  lemma {:induction false} LifecycleRun(settings: Settings, past: seq<Step>, s: State, left: nat, budget: nat)
      returns (now: seq<Step>)
    requires s.phase == DrainingLifecycle(left, budget) && Reached(settings, past, s)
    ensures Reached(settings, now, DeferLifecycle(s, left).(phase := ApplyingLifecycle))
    decreases left
  {
    if left == 0 || s.lifecycle == [] {
      Extend(settings, past, s, EndLifecycle);
      now := past + [Frame(EndLifecycle)];
      assert DeferLifecycle(s, left) == s;
    } else {
      Extend(settings, past, s, DrainLifecycle);
      var s' := FrameEffect(s, DrainLifecycle);
      now := LifecycleRun(settings, past + [Frame(DrainLifecycle)], s', left - 1, budget);
      DeferOneMore(s, left);
    }
  }

  lemma PacketStep(settings: Settings, past: seq<Step>, s: State, left: nat) returns (now: seq<Step>)
    requires left > 0 && FrontReady(s) && Reached(settings, past, s.(phase := DrainingPackets(left)))
    ensures Reached(settings, now, TakePacket(s).(phase := DrainingPackets(left - 1)))
  {
    Extend(settings, past, s.(phase := DrainingPackets(left)), DrainPacket);
    now := past + [Frame(DrainPacket)];
  }

  lemma PacketsDone(settings: Settings, past: seq<Step>, s: State, left: nat) returns (now: seq<Step>)
    requires (left == 0 || !FrontReady(s)) && Reached(settings, past, s.(phase := DrainingPackets(left)))
    ensures Reached(settings, now, s.(phase := ApplyingPackets))
  {
    Extend(settings, past, s.(phase := DrainingPackets(left)), EndPackets);
    now := past + [Frame(EndPackets)];
  }

  lemma {:induction false} PacketRun(settings: Settings, past: seq<Step>, s: State, left: nat)
      returns (now: seq<Step>)
    requires Reached(settings, past, s.(phase := DrainingPackets(left)))
    ensures Reached(settings, now, DeferPackets(s, left).(phase := ApplyingPackets))
    decreases left
  {
    if left == 0 || !FrontReady(s) {
      now := PacketsDone(settings, past, s, left);
    } else {
      now := PacketStep(settings, past, s, left);
      now := PacketRun(settings, now, TakePacket(s), left - 1);
    }
  }

  lemma {:induction false} CommandRun(settings: Settings, past: seq<Step>, s: State) returns (now: seq<Step>)
    requires Addressed(s) && (s.phase.ApplyingLifecycle? || s.phase.ApplyingPackets?) && Reached(settings, past, s)
    ensures Reached(settings, now, RunAll(s))
    decreases |s.commands|
  {
    if s.commands == [] {
      now := past;
    } else {
      AddressedAfter(s);
      Extend(settings, past, s, ApplyCommand);
      now := CommandRun(settings, past + [Frame(ApplyCommand)], RunCommand(s));
    }
  }

  lemma {:induction false} RunAllIgnoresPhase(s: State, phase: Phase)
    requires Addressed(s)
    ensures RunAll(s.(phase := phase)) == RunAll(s).(phase := phase)
    decreases |s.commands|
  {
    if s.commands != [] {
      AddressedAfter(s);
      RunAllIgnoresPhase(RunCommand(s), phase);
      assert RunCommand(s.(phase := phase)) == RunCommand(s).(phase := phase);
    }
  }

  lemma LifecyclePhaseRun(settings: Settings, past: seq<Step>, s: State, budget: nat) returns (now: seq<Step>)
    requires Addressed(s) && s.phase.Resting? && Reached(settings, past, s)
    ensures Reached(settings, now, RunAll(DeferLifecycle(s, budget)).(phase := ApplyingLifecycle))
  {
    Extend(settings, past, s, BeginFrame(budget));
    now := LifecycleRun(settings, past + [Frame(BeginFrame(budget))], FrameEffect(s, BeginFrame(budget)), budget, budget);
    var deferred := DeferLifecycle(s, budget);
    RunAllIgnoresPhase(deferred, ApplyingLifecycle);
    now := CommandRun(settings, now, deferred.(phase := ApplyingLifecycle));
  }

  lemma PacketPhaseRun(settings: Settings, past: seq<Step>, s: State, budget: nat) returns (now: seq<Step>)
    requires Addressed(s) && s.commands == [] && Reached(settings, past, s.(phase := ApplyingLifecycle))
    ensures Addressed(DeferPackets(s, budget))
    ensures Reached(settings, now, RunAll(DeferPackets(s, budget)).(phase := Resting))
  {
    var from := s.(phase := ApplyingLifecycle);
    Extend(settings, past, from, BeginPackets(budget));
    now := PacketRun(settings, past + [Frame(BeginPackets(budget))], s, budget);
    DeferPacketsKeeps(s, budget);
    var deferred := DeferPackets(s, budget);
    RunAllIgnoresPhase(deferred, ApplyingPackets);
    now := CommandRun(settings, now, deferred.(phase := ApplyingPackets));
    RunAllKeeps(deferred);
    Extend(settings, now, RunAll(deferred).(phase := ApplyingPackets), EndFrame);
    now := now + [Frame(EndFrame)];
  }

  /** A frame that nothing interrupts always completes, and is a run of the step system. */
  lemma FrameIsRun(settings: Settings, past: seq<Step>, s: State, budget: nat) returns (now: seq<Step>)
    requires s.phase.Resting? && Reached(settings, past, s)
    ensures Addressed(s) && Reached(settings, now, Updated(s, budget).(phase := Resting))
  {
    QueuesCarry(settings, past, s);
    now := LifecyclePhaseRun(settings, past, s, budget);
    RunAllKeeps(DeferLifecycle(s, budget));
    now := PacketPhaseRun(settings, now, RunAll(DeferLifecycle(s, budget)), budget);
  }

  // ---------------------------------------------------------------------------------------------
  // What a frame shows
  // ---------------------------------------------------------------------------------------------

  /** Of a list of events, all but the packets of cancelled connections. */
  function Live(conns: seq<Conn>, xs: seq<Event>): seq<Event> {
    if xs == [] then []
    else if xs[0].Packet? && xs[0].conn < |conns| && conns[xs[0].conn].cancelled then Live(conns, xs[1..])
    else [xs[0]] + Live(conns, xs[1..])
  }

  lemma {:induction false} LiveSame(conns: seq<Conn>, conns': seq<Conn>, xs: seq<Event>)
    requires SameCancelled(conns, conns')
    ensures Live(conns, xs) == Live(conns', xs)
  {
    if xs != [] { LiveSame(conns, conns', xs[1..]); }
  }

  lemma {:induction false} LiveTwice(conns: seq<Conn>, xs: seq<Event>)
    ensures Live(conns, Live(conns, xs)) == Live(conns, xs)
  {
    if xs != [] { LiveTwice(conns, xs[1..]); }
  }

  lemma {:induction false} LifecycleIsLive(conns: seq<Conn>, xs: seq<Event>)
    requires forall e :: e in xs ==> !e.Packet?
    ensures Live(conns, xs) == xs
  {
    if xs != [] {
      assert xs[0] in xs;
      LifecycleIsLive(conns, xs[1..]);
    }
  }

  lemma {:induction false} RunAllShows(s: State)
    requires Addressed(s)
    ensures RunAll(s).events == s.events + Live(s.conns, s.commands)
    decreases |s.commands|
  {
    if s.commands != [] {
      AddressedAfter(s);
      var s' := RunCommand(s);
      RunAllShows(s');
      assert SameCancelled(s.conns, s'.conns);
      LiveSame(s.conns, s'.conns, s'.commands);
    }
  }

  ghost predicate OnlyPackets(q: Queue<Event>) {
    forall i :: 0 <= i < |q.items| ==> q.items[i].value.Packet?
  }

  lemma LiveCons(conns: seq<Conn>, xs: seq<Event>, n: nat)
    requires n < |xs| && xs[0].Packet? && xs[0].conn < |conns|
    ensures Live(conns, xs[..n + 1]) == (if conns[xs[0].conn].cancelled then [] else [xs[0]]) + Live(conns, xs[1..][..n])
  {
    var ys := xs[..n + 1];
    assert ys[0] == xs[0] && ys[1..] == xs[1..][..n];
    if !conns[xs[0].conn].cancelled { assert Live(conns, ys) == [ys[0]] + Live(conns, ys[1..]); }
  }

  lemma Associative(a: seq<Event>, b: seq<Event>, c: seq<Event>)
    ensures a + b + c == a + (b + c)
  {
  }

  lemma TakeOne(s: State)
    requires FrontReady(s)
    ensures var s' := TakePacket(s); var values := Values(s.packets.items);
      && s'.packets.items == s.packets.items[1..] && Values(s'.packets.items) == values[1..]
      && s'.commands == s.commands + (if s.conns[values[0].conn].cancelled then [] else [values[0]])
      && SameCancelled(s.conns, s'.conns) && (OnlyPackets(s.packets) ==> OnlyPackets(s'.packets) && values[0].Packet?)
  {
  }

  /** The packets taken are a prefix of those waiting, as long as the budget allows or else up to the first
      that is not ready; the live ones among them are deferred in order. */
  lemma {:induction false} DeferPacketsTakes(s: State, budget: nat) returns (taken: nat)
    requires OnlyPackets(s.packets)
    ensures var s' := DeferPackets(s, budget);
      && taken <= budget && taken <= |s.packets.items| && s'.packets.items == s.packets.items[taken..]
      && (taken == budget || !FrontReady(s'))
      && s'.commands == s.commands + Live(s.conns, Values(s.packets.items)[..taken])
    decreases budget
  {
    if budget == 0 || !FrontReady(s) {
      taken := 0;
    } else {
      var s', values := TakePacket(s), Values(s.packets.items);
      TakeOne(s);
      var n := DeferPacketsTakes(s', budget - 1);
      taken := n + 1;
      assert s.packets.items[1..][n..] == s.packets.items[taken..];
      LiveSame(s.conns, s'.conns, values[1..][..n]);
      LiveCons(s.conns, values, n);
      var first := if s.conns[values[0].conn].cancelled then [] else [values[0]];
      Associative(s.commands, first, Live(s.conns, values[1..][..n]));
    }
  }

  lemma {:induction false} LiveIsPart(conns: seq<Conn>, xs: seq<Event>)
    ensures forall e :: e in Live(conns, xs) ==> e in xs
  {
    if xs != [] { LiveIsPart(conns, xs[1..]); }
  }

  /** Delivering packets publishes nobody: what was not ready before is not ready after. */
  lemma {:induction false} DeliveryReadiesNothing(s: State)
    requires Addressed(s) && forall e :: e in s.commands ==> e.Packet?
    ensures FrontReady(RunAll(s)) <==> FrontReady(s)
    decreases |s.commands|
  {
    if s.commands != [] {
      AddressedAfter(s);
      assert s.commands[0] in s.commands;
      DeliveryReadiesNothing(RunCommand(s));
    }
  }

  lemma PacketsShow(s: State, budget: nat) returns (taken: nat)
    requires Addressed(s) && s.commands == [] && OnlyPackets(s.packets)
    ensures Addressed(DeferPackets(s, budget))
    ensures var s' := RunAll(DeferPackets(s, budget));
      && taken <= budget && taken <= |s.packets.items| && s'.packets.items == s.packets.items[taken..]
      && (taken == budget || !FrontReady(s'))
      && s'.commands == [] && s'.lifecycle == s.lifecycle
      && s'.events == s.events + Live(s.conns, Values(s.packets.items)[..taken])
  {
    taken := DeferPacketsTakes(s, budget);
    DeferPacketsKeeps(s, budget);
    var deferred := DeferPackets(s, budget);
    var values := Values(s.packets.items)[..taken];
    assert deferred.commands == Live(s.conns, values);
    LiveIsPart(s.conns, values);
    DeliveryReadiesNothing(deferred);
    RunAllShows(deferred);
    RunAllKeeps(deferred);
    LiveSame(s.conns, deferred.conns, deferred.commands);
    LiveTwice(s.conns, values);
  }

  /** From any reachable state between frames, an uninterrupted frame shows exactly the lifecycle messages
      its budget covers and then exactly the live ones of the packets it takes; it stops taking packets only
      at its budget or at one that is not ready. */
  lemma FrameShows(settings: Settings, past: seq<Step>, s: State, budget: nat) returns (taken: nat)
    requires Reached(settings, past, s) && s.phase.Resting?
    ensures Addressed(s)
    ensures var s' := Updated(s, budget); var n := Covered(s, budget);
      && s'.commands == [] && s'.lifecycle == s.lifecycle[n..]
      && taken <= budget && taken <= |s.packets.items| && s'.packets.items == s.packets.items[taken..]
      && (taken == budget || !FrontReady(s'))
      && s'.events == s.events + s.lifecycle[..n] + Live(s.conns, Values(s.packets.items)[..taken])
  {
    QueuesCarry(settings, past, s);
    PipelineProgress.RestingIsClean(settings, past, s);
    var deferred := DeferLifecycle(s, budget);
    assert deferred.commands == s.lifecycle[..Covered(s, budget)];
    LifecycleIsLive(s.conns, deferred.commands);
    RunAllShows(deferred);
    RunAllKeeps(deferred);
    taken := PacketsShow(RunAll(deferred), budget);
    LiveSame(s.conns, RunAll(deferred).conns, Values(s.packets.items)[..taken]);
  }

  /** What the queues carry, in every run. */
  lemma QueuesCarry(settings: Settings, past: seq<Step>, s: State)
    requires Reached(settings, past, s)
    ensures Addressed(s)
    ensures OnlyPackets(s.packets)
    ensures forall e :: e in s.lifecycle ==> !e.Packet?
  {
    PipelineTrace.InvHolds(settings, past, s);
    forall i | 0 <= i < |s.packets.items| ensures s.packets.items[i].value.Packet? {
      assert PipelineTrace.FromReader(s, s.packets.items[i].value);
    }
  }

  // ---------------------------------------------------------------------------------------------
  // The systems
  // ---------------------------------------------------------------------------------------------

  /** The resources the systems work on. Connections are shared with their tasks. */
  class World {
    var conns: seq<Conn>
    var lifecycle: seq<Event>
    var packets: Queue<Event>
    var commands: seq<Event>
    var events: seq<Event>

    constructor ()
      ensures View() == Initial()
    {
      conns, lifecycle, packets, commands, events := [], [], Queue([], 0, 1, true), [], [];
    }

    function View(): State
      reads this
    {
      State(conns, lifecycle, packets, commands, events, Resting)
    }

    /** `incoming_system`. */
    method IncomingSystem(budget: nat)
      modifies this`lifecycle, this`commands
      ensures View() == DeferLifecycle(old(View()), budget)
    {
      var i := 0;
      while i < budget && lifecycle != []
        invariant i <= budget && i <= |old(lifecycle)|
        invariant lifecycle == old(lifecycle)[i..]
        invariant commands == old(commands) + old(lifecycle)[..i]
      {
        commands := commands + [lifecycle[0]];
        lifecycle := lifecycle[1..];
        i := i + 1;
      }
      assert i == Covered(old(View()), budget);
    }

    /** `receive_datagram_packets`. */
    method ReceiveDatagramPackets(budget: nat)
      modifies this`packets, this`commands, this`conns
      ensures View() == DeferPackets(old(View()), budget)
    {
      var i := 0;
      while i < budget
        invariant i <= budget
        invariant DeferPackets(View(), budget - i) == DeferPackets(old(View()), budget)
      {
        var view := View();
        var (queue, next) := TryRecv(packets, x => ReadyForEcs(view, x));
        if !next.Received? { break; }
        var e := next.value;
        packets := queue;
        if conns[e.conn].cancelled {
          conns := conns[e.conn := Charge(conns[e.conn], ClosedBeforeDelivery, 1)];
        } else {
          commands := commands + [e];
        }
        assert View() == TakePacket(view);
        i := i + 1;
      }
    }

    /** The command queue is applied in order; commands are not added while it is. */
    method ApplyCommands()
      requires Addressed(View())
      modifies this`conns, this`commands, this`events
      ensures View() == RunAll(old(View()))
    {
      while commands != []
        invariant Addressed(View()) && RunAll(View()) == RunAll(old(View()))
        decreases |commands|
      {
        AddressedAfter(View());
        var e := commands[0];
        commands := commands[1..];
        match e {
          case Established(c) =>
            conns := conns[c := conns[c].(published := true)];
            events := events + [e];
          case Closed(_, _) =>
            events := events + [e];
          case Packet(c, _) =>
            if conns[c].cancelled {
              conns := conns[c := Charge(conns[c], ClosedBeforeDelivery, 1)];
            } else {
              events := events + [e];
            }
        }
      }
    }

    /** One frame: packets run after the lifecycle commands have been applied. */
    method Update(budget: nat)
      requires Addressed(View())
      modifies this
      ensures Addressed(old(View())) && View() == Updated(old(View()), budget)
    {
      IncomingSystem(budget);
      RunAllKeeps(View());
      ApplyCommands();
      DeferPacketsKeeps(View(), budget);
      ReceiveDatagramPackets(budget);
      ApplyCommands();
    }
  }
}
