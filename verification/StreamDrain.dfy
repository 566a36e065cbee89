/**
Stream transports share one bounded FIFO for establishment, packets and closure. Each frame drains it
under a budget; how the budgets split the work over frames changes neither the order of events nor
the registry of connections, and the client's current connection always follows the registry.
*/
module StreamDrain {
  import opened Options

  /** `Closed(None)` reports a failed connection attempt. */
  datatype Message =
    | Established(conn: nat)
    | StreamPacket(conn: nat, packet: nat)
    | Closed(conn': Option<nat>)

  /** `current` is the client's current-connection resource. */
  datatype Ecs = Ecs(registry: seq<nat>, current: Option<nat>, events: seq<Message>)

  /** `retain`: drop every occurrence of a connection. */
  function Without(registry: seq<nat>, conn: nat): seq<nat> {
    if registry == [] then []
    else (if registry[0] == conn then [] else [registry[0]]) + Without(registry[1..], conn)
  }

  function Last(registry: seq<nat>): Option<nat> {
    if registry == [] then None else Some(registry[|registry| - 1])
  }

  /** The deferred command of one message. */
  function Apply(e: Ecs, m: Message): Ecs {
    match m
    case Established(c) => Ecs(e.registry + [c], Some(c), e.events + [m])
    case StreamPacket(_, _) => e.(events := e.events + [m])
    case Closed(None) => e.(events := e.events + [m])
    case Closed(Some(c)) =>
      var registry := Without(e.registry, c);
      Ecs(registry, Last(registry), e.events + [m])
  }

  function ApplyAll(e: Ecs, ms: seq<Message>): Ecs {
    if ms == [] then e else Apply(ApplyAll(e, ms[..|ms| - 1]), ms[|ms| - 1])
  }

  function Start(): Ecs { Ecs([], None, []) }

  function Min(a: nat, b: nat): nat { if a <= b then a else b }

  /** Between two frames messages arrive; then one frame drains up to its budget. */
  datatype Frame = Frame(arrivals: seq<Message>, budget: nat)

  datatype State = State(fifo: seq<Message>, ecs: Ecs)

  function RunFrame(s: State, f: Frame): State {
    var fifo := s.fifo + f.arrivals;
    var n := Min(f.budget, |fifo|);
    State(fifo[n..], ApplyAll(s.ecs, fifo[..n]))
  }

  /** The state after the first `n` frames. */
  function RunFrames(frames: seq<Frame>, n: nat): State
    requires n <= |frames|
  {
    if n == 0 then State([], Start()) else RunFrame(RunFrames(frames, n - 1), frames[n - 1])
  }

  /** Everything that has arrived by frame `n`. */
  function Arrivals(frames: seq<Frame>, n: nat): seq<Message>
    requires n <= |frames|
  {
    if n == 0 then [] else Arrivals(frames, n - 1) + frames[n - 1].arrivals
  }

  // ---------------------------------------------------------------------------------------------
  // Budgets only decide when
  // ---------------------------------------------------------------------------------------------

  lemma {:induction false} ApplyAllConcat(e: Ecs, a: seq<Message>, b: seq<Message>)
    ensures ApplyAll(e, a + b) == ApplyAll(ApplyAll(e, a), b)
  {
    if b == [] {
      assert a + b == a;
    } else {
      assert (a + b)[..|a + b| - 1] == a + b[..|b| - 1];
      ApplyAllConcat(e, a, b[..|b| - 1]);
    }
  }

  lemma {:induction false} EventsAreMessages(e: Ecs, ms: seq<Message>)
    ensures ApplyAll(e, ms).events == e.events + ms
  {
    if ms != [] {
      EventsAreMessages(e, ms[..|ms| - 1]);
      assert ms == ms[..|ms| - 1] + [ms[|ms| - 1]];
    }
  }

  /** How many messages the first `n` frames have drained in all. */
  function Drained(frames: seq<Frame>, n: nat): (drained: nat)
    requires n <= |frames|
    ensures drained <= |Arrivals(frames, n)|
  {
    if n == 0 then 0
    else
      var before := Drained(frames, n - 1);
      before + Min(frames[n - 1].budget, |Arrivals(frames, n)| - before)
  }

  /** The state once the first `n` of all messages have been drained in one go. */
  function DrainedTo(all: seq<Message>, n: nat): State
    requires n <= |all|
  {
    State(all[n..], ApplyAll(Start(), all[..n]))
  }

  lemma OneFrame(earlier: seq<Message>, m: nat, f: Frame, all: seq<Message>, n: nat)
    requires m <= |earlier| && all == earlier + f.arrivals && n == m + Min(f.budget, |all| - m)
    ensures RunFrame(DrainedTo(earlier, m), f) == DrainedTo(all, n)
  {
    var fifo := earlier[m..] + f.arrivals;
    assert fifo == all[m..];
    assert all[..m] == earlier[..m];
    assert all[..m] + fifo[..n - m] == all[..n];
    assert fifo[n - m..] == all[n..];
    ApplyAllConcat(Start(), all[..m], fifo[..n - m]);
  }

  lemma {:induction false} FramesAreOneDrain(frames: seq<Frame>, n: nat)
    requires n <= |frames|
    ensures RunFrames(frames, n) == DrainedTo(Arrivals(frames, n), Drained(frames, n))
  {
    if n > 0 {
      FramesAreOneDrain(frames, n - 1);
      OneFrame(Arrivals(frames, n - 1), Drained(frames, n - 1), frames[n - 1], Arrivals(frames, n), Drained(frames, n));
    }
  }

  /** Whatever the arrivals and budgets: after any number of frames the ECS is what one unbounded drain of
      the same number of messages would have made of it, and the rest waits in order. */
  lemma BudgetSplitInvariance(frames: seq<Frame>, n: nat)
    requires n <= |frames|
    ensures var s := RunFrames(frames, n); var all, drained := Arrivals(frames, n), Drained(frames, n);
      && s.fifo == all[drained..]
      && s.ecs == ApplyAll(Start(), all[..drained])
      && s.ecs.events == all[..drained]
  {
    FramesAreOneDrain(frames, n);
    EventsAreMessages(Start(), Arrivals(frames, n)[..Drained(frames, n)]);
  }

  /** All messages arrive before the first of a number of frames of equal budget. */
  function Steady(frames: nat, budget: nat, arrivals: seq<Message>): seq<Frame> {
    seq(frames, i => Frame(if i == 0 then arrivals else [], budget))
  }

  /** Draining once more after `n - 1` drains of `b` out of `all`. */
  lemma OneMoreDrain(n: nat, b: nat, all: nat)
    requires n > 0
    ensures Min((n - 1) * b, all) + Min(b, all - Min((n - 1) * b, all)) == Min(n * b, all)
  {
    assert n * b == (n - 1) * b + b;
  }

  lemma {:induction false} SteadyDrains(k: nat, ms: seq<Message>, b: nat, n: nat)
    requires 0 < n <= k
    ensures var frames := Steady(k, b, ms); Arrivals(frames, n) == ms && Drained(frames, n) == Min(n * b, |ms|)
  {
    var frames := Steady(k, b, ms);
    if n == 1 {
      assert Arrivals(frames, 0) == [] && frames[0] == Frame(ms, b);
    } else {
      SteadyDrains(k, ms, b, n - 1);
      assert frames[n - 1] == Frame([], b);
      OneMoreDrain(n, b, |ms|);
    }
  }

  /** With a constant budget, message number `k` (from 1) is shown in frame ceil(k / b) and not before. */
  lemma MessageLandsInItsFrame(ms: seq<Message>, b: nat, k: nat, frames: nat)
    requires 0 < k <= |ms| && b > 0 && frames > 0
    ensures |RunFrames(Steady(frames, b, ms), frames).ecs.events| >= k <==> frames * b >= k
  {
    SteadyDrains(frames, ms, b, frames);
    BudgetSplitInvariance(Steady(frames, b, ms), frames);
  }

  // ---------------------------------------------------------------------------------------------
  // The current connection
  // ---------------------------------------------------------------------------------------------

  lemma {:induction false} CurrentFollows(ms: seq<Message>)
    ensures ApplyAll(Start(), ms).current == Last(ApplyAll(Start(), ms).registry)
  {
    if ms != [] { CurrentFollows(ms[..|ms| - 1]); }
  }

  lemma {:induction false} WithoutIs(registry: seq<nat>, conn: nat, x: nat)
    ensures x in Without(registry, conn) <==> x in registry && x != conn
  {
    if registry != [] { WithoutIs(registry[1..], conn, x); }
  }

  /** A connection is registered exactly while it has been established and not closed since. */
  ghost predicate OpenAfter(ms: seq<Message>, c: nat) {
    exists i :: 0 <= i < |ms| && ms[i] == Established(c) && forall j :: i < j < |ms| ==> ms[j] != Closed(Some(c))
  }

  lemma OpenAfterOneMore(ms: seq<Message>, m: Message, c: nat)
    ensures OpenAfter(ms + [m], c) <==> m == Established(c) || (OpenAfter(ms, c) && m != Closed(Some(c)))
  {
    var all := ms + [m];
    assert all[|ms|] == m;
    assert forall i :: 0 <= i < |ms| ==> all[i] == ms[i];
  }

  lemma {:induction false} RegistryIsOpenConnections(ms: seq<Message>, c: nat)
    ensures c in ApplyAll(Start(), ms).registry <==> OpenAfter(ms, c)
  {
    if ms != [] {
      var earlier, m := ms[..|ms| - 1], ms[|ms| - 1];
      RegistryIsOpenConnections(earlier, c);
      assert ms == earlier + [m];
      OpenAfterOneMore(earlier, m, c);
      if m.Closed? && m.conn'.Some? { WithoutIs(ApplyAll(Start(), earlier).registry, m.conn'.value, c); }
    }
  }

  /** After any frames the client's current connection is the last registered one, or absent if none is. */
  lemma CurrentConnection(frames: seq<Frame>)
    ensures var e := RunFrames(frames, |frames|).ecs; e.current == Last(e.registry)
  {
    BudgetSplitInvariance(frames, |frames|);
    CurrentFollows(Arrivals(frames, |frames|)[..Drained(frames, |frames|)]);
  }

  /** The message at `i` establishes a connection that is not closed afterwards. */
  ghost predicate Survives(ms: seq<Message>, i: nat)
    requires i < |ms|
  {
    ms[i].Established? && forall j :: i < j < |ms| ==> ms[j] != Closed(Some(ms[i].conn))
  }

  /** The connections still open after `ms`, in order of establishment, from message `i` on. */
  ghost function OpenFrom(ms: seq<Message>, i: nat): seq<nat>
    requires i <= |ms|
    decreases |ms| - i
  {
    if i == |ms| then []
    else if Survives(ms, i) then [ms[i].conn] + OpenFrom(ms, i + 1)
    else OpenFrom(ms, i + 1)
  }

  lemma SurvivesOneMore(ms: seq<Message>, m: Message, i: nat)
    requires i < |ms|
    ensures Survives(ms + [m], i) <==> Survives(ms, i) && m != Closed(Some(ms[i].conn))
  {
    var all := ms + [m];
    assert all[|ms|] == m;
    assert forall j :: 0 <= j < |ms| ==> all[j] == ms[j];
  }

  lemma {:induction false} OpenFromOneMore(ms: seq<Message>, m: Message, i: nat)
    requires i <= |ms|
    ensures OpenFrom(ms + [m], i) ==
      match m
      case Established(c) => OpenFrom(ms, i) + [c]
      case Closed(Some(c)) => Without(OpenFrom(ms, i), c)
      case _ => OpenFrom(ms, i)
    decreases |ms| - i
  {
    var all := ms + [m];
    if i == |ms| {
      assert all[i] == m;
    } else {
      assert all[i] == ms[i];
      SurvivesOneMore(ms, m, i);
      OpenFromOneMore(ms, m, i + 1);
    }
  }

  /** The registry lists exactly the open connections, in order of establishment. */
  lemma {:induction false} RegistryIsInOrder(ms: seq<Message>)
    ensures ApplyAll(Start(), ms).registry == OpenFrom(ms, 0)
  {
    if ms != [] {
      var earlier, m := ms[..|ms| - 1], ms[|ms| - 1];
      RegistryIsInOrder(earlier);
      assert ms == earlier + [m];
      OpenFromOneMore(earlier, m, 0);
    }
  }

  /** A connection that has just been established is the current one. */
  lemma EstablishedIsCurrent(ms: seq<Message>, c: nat)
    ensures ApplyAll(Start(), ms + [Established(c)]).current == Some(c)
  {
    assert (ms + [Established(c)])[..|ms|] == ms;
  }

  // ---------------------------------------------------------------------------------------------
  // In place
  // ---------------------------------------------------------------------------------------------

  /** One turn of `retain`. */
  lemma WithoutNext(registry: seq<nat>, i: nat, conn: nat, kept: seq<nat>)
    requires i < |registry|
    ensures kept + Without(registry[i..], conn)
         == (if registry[i] == conn then kept else kept + [registry[i]]) + Without(registry[i + 1..], conn)
  {
    assert registry[i..][1..] == registry[i + 1..];
  }

  class Endpoint {
    var fifo: seq<Message>
    var registry: seq<nat>
    var current: Option<nat>
    var events: seq<Message>

    ghost function Model(): State
      reads this
    {
      State(fifo, Ecs(registry, current, events))
    }

    constructor ()
      ensures Model() == State([], Start())
    {
      fifo, registry, current, events := [], [], None, [];
    }

    /** `retain` on the registry vector. */
    method RemoveConnection(conn: nat)
      modifies this`registry
      ensures registry == Without(old(registry), conn)
    {
      var kept: seq<nat>, i := [], 0;
      while i < |registry|
        invariant 0 <= i <= |registry|
        invariant kept + Without(registry[i..], conn) == Without(registry, conn)
        invariant registry == old(registry)
      {
        WithoutNext(registry, i, conn, kept);
        if registry[i] != conn { kept := kept + [registry[i]]; }
        i := i + 1;
      }
      registry := kept;
    }

    method RunCommand(m: Message)
      modifies this`registry, this`current, this`events
      ensures Ecs(registry, current, events) == Apply(old(Ecs(registry, current, events)), m)
    {
      match m {
        case Established(c) =>
          current := Some(c);
          registry := registry + [c];
        case StreamPacket(_, _) =>
        case Closed(None) =>
        case Closed(Some(c)) =>
          current := None;
          RemoveConnection(c);
          if registry != [] { current := Some(registry[|registry| - 1]); }
      }
      events := events + [m];
    }

    /** `incoming_system` and the application of the commands it queued. */
    method Update(arrivals: seq<Message>, budget: nat)
      modifies this
      ensures Model() == RunFrame(old(Model()), Frame(arrivals, budget))
    {
      fifo := fifo + arrivals;
      ghost var all := fifo;
      var commands: seq<Message>, taken := [], 0;
      while taken < budget && fifo != []
        invariant 0 <= taken <= Min(budget, |all|)
        invariant commands == all[..taken] && fifo == all[taken..]
        invariant unchanged(`registry) && unchanged(`current) && unchanged(`events)
      {
        commands := commands + [fifo[0]];
        fifo := fifo[1..];
        taken := taken + 1;
      }
      var i := 0;
      while i < |commands|
        invariant 0 <= i <= |commands|
        invariant fifo == all[taken..]
        invariant Ecs(registry, current, events) == ApplyAll(old(Ecs(registry, current, events)), commands[..i])
      {
        assert commands[..i + 1][..i] == commands[..i];
        RunCommand(commands[i]);
        i := i + 1;
      }
      assert commands[..i] == commands;
    }
  }
}
