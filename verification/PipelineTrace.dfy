/**
What ECS observers see of a connection over every run: a prefix of Established, Packet*, Closed,
with the true cause of closure.
*/
module PipelineTrace {
  import opened LossyQueue
  import opened Options
  import opened Pipeline
  import opened Udp

  /** The events of connection `c`, in order. */
  function Of(xs: seq<Event>, c: nat): seq<Event> {
    if xs == [] then []
    else if xs[0].conn == c then [xs[0]] + Of(xs[1..], c)
    else Of(xs[1..], c)
  }

  /** The establishment and closure of connection `c`, in order. */
  function LifeOf(xs: seq<Event>, c: nat): seq<Event> {
    if xs == [] then []
    else if xs[0].conn == c && !xs[0].Packet? then [xs[0]] + LifeOf(xs[1..], c)
    else LifeOf(xs[1..], c)
  }

  lemma {:induction false} OfConcat(a: seq<Event>, b: seq<Event>, c: nat)
    ensures Of(a + b, c) == Of(a, c) + Of(b, c)
  {
    if a == [] {
      assert a + b == b;
    } else {
      assert (a + b)[1..] == a[1..] + b;
      OfConcat(a[1..], b, c);
    }
  }

  lemma {:induction false} LifeOfConcat(a: seq<Event>, b: seq<Event>, c: nat)
    ensures LifeOf(a + b, c) == LifeOf(a, c) + LifeOf(b, c)
  {
    if a == [] {
      assert a + b == b;
    } else {
      assert (a + b)[1..] == a[1..] + b;
      LifeOfConcat(a[1..], b, c);
    }
  }

  /** A prefix of Established, Packet*, Closed. */
  ghost predicate TraceShape(t: seq<Event>) {
    && (forall i :: 0 <= i < |t| ==> (t[i].Established? <==> i == 0))
    && (forall i :: 0 <= i < |t| - 1 ==> !t[i].Closed?)
  }

  /** Lifecycle events on their way to observers: deferred commands first, then the queue. */
  function Upcoming(s: State): seq<Event> { s.commands + s.lifecycle }

  /** What `c` has shown observers, followed by the lifecycle events still on their way. */
  function Future(s: State, c: nat): seq<Event> {
    Of(s.events, c) + LifeOf(Upcoming(s), c)
  }

  predicate PastAnnouncement(stage: Stage) { !stage.Announcing? && !stage.Abandoned? }

  predicate ReaderStarted(stage: Stage) { PastAnnouncement(stage) && !stage.Announced? }

  ghost predicate ConnTrace(k: Conn, c: nat, shown: seq<Event>, future: seq<Event>) {
    && TraceShape(future)
    && (k.stage.Announcing? ==> future == [])
    && (PastAnnouncement(k.stage) ==> future != [])
    && (future != [] && future[|future| - 1].Closed? <==> k.stage.Finished?)
    && (k.stage.Finished? ==> future[|future| - 1] == Event.Closed(c, k.stage.cause))
    && (k.stage.Closing? || k.stage.Finished? ==> k.cancelled)
    && (k.published <==> shown != [])
    && (k.hand.Some? ==> k.stage.Reading?)
  }

  /** A queued packet came from a connection whose reader ran, hence after its announcement. */
  ghost predicate FromReader(s: State, e: Event) {
    e.Packet? && e.conn < |s.conns| && ReaderStarted(s.conns[e.conn].stage)
  }

  ghost predicate Inv(s: State) {
    && (forall c :: 0 <= c < |s.conns| ==> ConnTrace(s.conns[c], c, Of(s.events, c), Future(s, c)))
    && (forall i :: 0 <= i < |s.packets.items| ==> FromReader(s, s.packets.items[i].value))
    && (forall e :: e in s.commands && e.Packet? ==> e.conn < |s.conns| && s.conns[e.conn].published)
    && (forall e :: e in s.lifecycle ==> !e.Packet?)
    && (forall e :: e in s.events || e in s.commands || e in s.lifecycle ==> e.conn < |s.conns|)
  }

  // ---------------------------------------------------------------------------------------------
  // One step
  // ---------------------------------------------------------------------------------------------

  lemma NothingOf(xs: seq<Event>, c: nat)
    requires forall e :: e in xs ==> e.conn != c
    ensures Of(xs, c) == [] && LifeOf(xs, c) == []
  {
    if xs != [] {
      assert xs[0] in xs;
      NothingOf(xs[1..], c);
    }
  }

  /** How a step may change a connection without its events moving. */
  ghost predicate Follows(k: Conn, k': Conn) {
    && k'.published == k.published
    && (k.cancelled ==> k'.cancelled)
    && (k'.stage.Announcing? ==> k.stage.Announcing?)
    && (PastAnnouncement(k'.stage) ==> PastAnnouncement(k.stage))
    && (ReaderStarted(k.stage) ==> ReaderStarted(k'.stage))
    && (k.stage.Finished? || k'.stage.Finished? ==> k'.stage == k.stage)
    && (k'.stage.Closing? ==> k'.cancelled)
    && (k'.hand.Some? ==> k'.stage.Reading?)
  }

  lemma SetupFollows(k: Conn, step: SetupStep)
    requires SetupGuard(k, step) && !step.Announce? && (k.hand.Some? ==> k.stage.Reading?)
    ensures Follows(k, SetupEffect(k, step))
  {
  }

  /** The two connections differ at most in publication, counters and what the reader holds. */
  ghost predicate SameTasks(k: Conn, k': Conn) {
    k' == k.(published := k'.published, peerClosed := k'.peerClosed, raw := k'.raw, hand := k'.hand,
             arrivals := k'.arrivals, drops := k'.drops)
  }

  lemma ClassifyChanges(k: Conn, d: Datagram, limit: nat)
    ensures var k' := Classify(k, d, limit); k' == k.(hand := k'.hand, drops := k'.drops)
  {
  }

  predicate Handles(step: ReaderStep) { step.ReadQueued? || step.ReadSocket? || step.Forward? || step.DropReader? }

  /** Reading and handing over leave the tasks alone. */
  lemma ReadSameTasks(k: Conn, step: ReaderStep)
    requires ReaderGuard(k, step) && Handles(step)
    ensures var k' := ReaderEffect(k, step);
      && SameTasks(k, k') && k'.published == k.published && (k'.hand.Some? ==> k.stage.Reading? || k.hand.Some?)
  {
    match step
    case ReadQueued(limit) => ClassifyChanges(k.(raw := TryRecv(k.raw, _ => true).0), k.raw.items[0].value, limit);
    case ReadSocket(d, limit) => ClassifyChanges(k.(arrivals := k.arrivals + [d]), d, limit);
    case Forward =>
    case DropReader =>
  }

  lemma ReaderFollows(k: Conn, step: ReaderStep)
    requires ReaderGuard(k, step) && !step.SendClosed?
    requires (k.hand.Some? ==> k.stage.Reading?) && (k.stage.Closing? ==> k.cancelled)
    ensures Follows(k, ReaderEffect(k, step))
  {
    if Handles(step) {
      ReadSameTasks(k, step);
    } else {
      assert ReaderEffect(k, step).hand == k.hand;
    }
  }

  lemma WriterFollows(k: Conn, step: WriterStep)
    requires WriterGuard(k, step)
    requires (k.hand.Some? ==> k.stage.Reading?) && (k.stage.Closing? ==> k.cancelled)
    ensures Follows(k, WriterEffect(k, step))
  {
  }

  lemma DepositFollows(settings: Settings, k: Conn, d: Datagram)
    requires (k.hand.Some? ==> k.stage.Reading?) && (k.stage.Closing? ==> k.cancelled)
    ensures Follows(k, Deposit(settings, k, d))
  {
  }

  lemma FollowsKeeps(k: Conn, k': Conn, c: nat, shown: seq<Event>, future: seq<Event>)
    requires ConnTrace(k, c, shown, future) && Follows(k, k')
    ensures ConnTrace(k', c, shown, future)
  {
  }

  /** Connections may change as long as each follows its old state and no event moves. */
  lemma ConnsKeep(s: State, conns: seq<Conn>)
    requires Inv(s) && |conns| == |s.conns|
    requires forall c :: 0 <= c < |conns| ==> Follows(s.conns[c], conns[c])
    ensures Inv(s.(conns := conns))
  {
    var s' := s.(conns := conns);
    forall c | 0 <= c < |conns| ensures ConnTrace(s'.conns[c], c, Of(s'.events, c), Future(s', c)) {
      FollowsKeeps(s.conns[c], conns[c], c, Of(s.events, c), Future(s, c));
    }
    forall i | 0 <= i < |s.packets.items| ensures FromReader(s', s'.packets.items[i].value) {
      assert FromReader(s, s.packets.items[i].value);
    }
  }

  lemma FollowsItself(s: State)
    requires Inv(s)
    ensures forall c :: 0 <= c < |s.conns| ==> Follows(s.conns[c], s.conns[c])
  {
    forall c | 0 <= c < |s.conns| ensures Follows(s.conns[c], s.conns[c]) {
      assert ConnTrace(s.conns[c], c, Of(s.events, c), Future(s, c));
    }
  }

  lemma OneConnKeeps(s: State, c: nat, k: Conn)
    requires Inv(s) && c < |s.conns| && Follows(s.conns[c], k)
    ensures Inv(s.(conns := s.conns[c := k]))
  {
    FollowsItself(s);
    ConnsKeep(s, s.conns[c := k]);
  }

  /** Appending an event of `c` to the lifecycle queue appends it to the future of `c` alone. */
  lemma FutureAppend(s: State, s': State, e: Event, c: nat)
    requires !e.Packet?
    requires s'.events == s.events && s'.commands == s.commands && s'.lifecycle == s.lifecycle + [e]
    ensures Future(s', c) == if c == e.conn then Future(s, c) + [e] else Future(s, c)
  {
    assert Upcoming(s') == Upcoming(s) + [e];
    LifeOfConcat(Upcoming(s), [e], c);
    assert LifeOf([e], c) == if c == e.conn then [e] else [];
  }

  lemma AnnounceConn(k: Conn, c: nat, shown: seq<Event>, future: seq<Event>)
    requires ConnTrace(k, c, shown, future) && k.stage.Announcing?
    ensures ConnTrace(k.(stage := Announced), c, shown, future + [Established(c)])
  {
  }

  lemma CloseConn(k: Conn, c: nat, shown: seq<Event>, future: seq<Event>)
    requires ConnTrace(k, c, shown, future) && k.stage.Closing?
    ensures ConnTrace(k.(stage := Finished(k.stage.cause)), c, shown, future + [Event.Closed(c, k.stage.cause)])
  {
  }

  /** A connection that announces or closes appends to its own future and leaves the others alone. */
  lemma AppendKeeps(s: State, e: Event, k: Conn)
    requires Inv(s) && e.conn < |s.conns| && !e.Packet?
    requires ConnTrace(k, e.conn, Of(s.events, e.conn), Future(s, e.conn) + [e])
    requires k.published == s.conns[e.conn].published
    requires ReaderStarted(s.conns[e.conn].stage) ==> ReaderStarted(k.stage)
    ensures Inv(s.(conns := s.conns[e.conn := k], lifecycle := s.lifecycle + [e]))
  {
    var s' := s.(conns := s.conns[e.conn := k], lifecycle := s.lifecycle + [e]);
    forall d | 0 <= d < |s.conns| ensures ConnTrace(s'.conns[d], d, Of(s'.events, d), Future(s', d)) {
      FutureAppend(s, s', e, d);
      if d != e.conn { assert ConnTrace(s.conns[d], d, Of(s.events, d), Future(s, d)); }
    }
    forall i | 0 <= i < |s.packets.items| ensures FromReader(s', s'.packets.items[i].value) {
      assert FromReader(s, s.packets.items[i].value);
    }
  }

  lemma SetupKeeps(settings: Settings, s: State, c: nat, step: SetupStep)
    requires Inv(s) && Enabled(settings, s, Setup(c, step))
    ensures Inv(Do(settings, s, Setup(c, step)))
  {
    var k := s.conns[c];
    assert ConnTrace(k, c, Of(s.events, c), Future(s, c));
    if step.Announce? {
      AnnounceConn(k, c, Of(s.events, c), Future(s, c));
      AppendKeeps(s, Established(c), k.(stage := Announced));
    } else {
      SetupFollows(k, step);
      OneConnKeeps(s, c, SetupEffect(k, step));
    }
  }

  lemma ReaderKeeps(settings: Settings, s: State, c: nat, step: ReaderStep)
    requires Inv(s) && Enabled(settings, s, Reader(c, step)) && !step.Forward?
    ensures Inv(Do(settings, s, Reader(c, step)))
  {
    var k := s.conns[c];
    assert ConnTrace(k, c, Of(s.events, c), Future(s, c));
    if step.SendClosed? {
      CloseConn(k, c, Of(s.events, c), Future(s, c));
      AppendKeeps(s, Event.Closed(c, k.stage.cause), k.(stage := Finished(k.stage.cause)));
    } else {
      ReaderFollows(k, step);
      OneConnKeeps(s, c, ReaderEffect(k, step));
    }
  }

  /** The writer, the network and the user. */
  lemma OutsideKeeps(settings: Settings, s: State, step: Step)
    requires Inv(s) && Enabled(settings, s, step) && (step.Writer? || step.Arrive? || step.Disconnect?)
    ensures Inv(Do(settings, s, step))
  {
    var k := s.conns[step.c];
    assert ConnTrace(k, step.c, Of(s.events, step.c), Future(s, step.c));
    match step
    case Writer(c, writer) =>
      WriterFollows(k, writer);
      OneConnKeeps(s, c, WriterEffect(k, writer));
    case Arrive(c, d) =>
      DepositFollows(settings, k, d);
      OneConnKeeps(s, c, Deposit(settings, k, d));
    case Disconnect(c) =>
      OneConnKeeps(s, c, Cancel(k, ByOther));
  }

  lemma ConnectKeeps(settings: Settings, s: State, step: Step)
    requires Inv(s) && step.Connect? && Enabled(settings, s, step)
    ensures Inv(Do(settings, s, step))
  {
    var s' := Do(settings, s, step);
    NothingOf(s.events, |s.conns|);
    NothingOf(Upcoming(s), |s.conns|);
    forall d | 0 <= d < |s'.conns| ensures ConnTrace(s'.conns[d], d, Of(s'.events, d), Future(s', d)) {
      if d < |s.conns| { assert ConnTrace(s.conns[d], d, Of(s.events, d), Future(s, d)); }
    }
    forall i | 0 <= i < |s.packets.items| ensures FromReader(s', s'.packets.items[i].value) {
      assert FromReader(s, s.packets.items[i].value);
    }
  }

  lemma {:induction false} ChargeKeeps(conns: seq<Conn>, evicted: seq<Event>, c: nat)
    requires c < |conns|
    ensures var r := ChargeEvicted(conns, evicted); r[c] == conns[c].(drops := r[c].drops)
    decreases |evicted|
  {
    if evicted != [] {
      var d := evicted[0].conn;
      ChargeKeeps(if d < |conns| then conns[d := Charge(conns[d], ReceiveQueueEvicted, 1)] else conns, evicted[1..], c);
    }
  }

  /** What remains queued after an admission was queued before, or is the new item. */
  lemma AdmittedItems(limits: Limits, q: Queue<Event>, e: Event)
    ensures var q' := TrySend(limits, q, e, 1).0;
      forall i :: 0 <= i < |q'.items| ==> q'.items[i] == Item(e, 1) || q'.items[i] in q.items
  {
  }

  /** Handing a packet over changes counters and the reader's hand, nothing else. */
  lemma ForwardConns(settings: Settings, s: State, c: nat, d: nat)
    requires c < |s.conns| && s.conns[c].hand.Some? && d < |s.conns|
    ensures var conns := ForwardPacket(settings, s, c).conns;
      && |conns| == |s.conns|
      && conns[d] == s.conns[d].(drops := conns[d].drops, hand := if d == c then None else s.conns[d].hand)
  {
    var k := s.conns[c].(hand := None);
    var (q, r) := TrySend(settings.ecs, s.packets, Packet(c, s.conns[c].hand.value), 1);
    if r.Sent? { ChargeKeeps(s.conns[c := k], r.evicted, d); }
  }

  /** The ECS queue may change as long as only packets of started readers are in it. */
  lemma QueueKeeps(s: State, q: Queue<Event>)
    requires Inv(s) && forall i :: 0 <= i < |q.items| ==> FromReader(s, q.items[i].value)
    ensures Inv(s.(packets := q))
  {
    var s' := s.(packets := q);
    forall d | 0 <= d < |s.conns| ensures ConnTrace(s'.conns[d], d, Of(s'.events, d), Future(s', d)) {
      assert ConnTrace(s.conns[d], d, Of(s.events, d), Future(s, d));
    }
    forall i | 0 <= i < |q.items| ensures FromReader(s', q.items[i].value) {
      assert FromReader(s, q.items[i].value);
    }
  }

  lemma ForwardKeeps(settings: Settings, s: State, c: nat)
    requires Inv(s) && Enabled(settings, s, Reader(c, Forward))
    ensures Inv(ForwardPacket(settings, s, c))
  {
    var s' := ForwardPacket(settings, s, c);
    FollowsItself(s);
    forall d | 0 <= d < |s.conns| ensures Follows(s.conns[d], s'.conns[d]) {
      ForwardConns(settings, s, c, d);
      assert Follows(s.conns[d], s.conns[d]);
    }
    var t := s.(conns := s'.conns);
    ConnsKeep(s, s'.conns);
    var e := Packet(c, s.conns[c].hand.value);
    AdmittedItems(settings.ecs, s.packets, e);
    assert Follows(s.conns[c], t.conns[c]);
    forall i | 0 <= i < |s'.packets.items| ensures FromReader(t, s'.packets.items[i].value) {
      if s'.packets.items[i] != Item(e, 1) {
        var j :| 0 <= j < |s.packets.items| && s.packets.items[j] == s'.packets.items[i];
        assert FromReader(t, t.packets.items[j].value);
      }
    }
    QueueKeeps(t, s'.packets);
  }

  lemma DrainLifecycleKeeps(s: State)
    requires Inv(s) && FrameGuard(s, DrainLifecycle)
    ensures Inv(FrameEffect(s, DrainLifecycle))
  {
    var s' := FrameEffect(s, DrainLifecycle);
    assert s.lifecycle[0] in s.lifecycle;
    assert Upcoming(s') == Upcoming(s);
    forall d | 0 <= d < |s.conns| ensures ConnTrace(s'.conns[d], d, Of(s'.events, d), Future(s', d)) {
      assert ConnTrace(s.conns[d], d, Of(s.events, d), Future(s, d));
    }
  }

  /** Queueing the delivery of a packet moves no lifecycle event. */
  lemma DeferKeepsFuture(commands: seq<Event>, lifecycle: seq<Event>, e: Event, c: nat)
    requires e.Packet?
    ensures LifeOf(commands + [e] + lifecycle, c) == LifeOf(commands + lifecycle, c)
  {
    LifeOfConcat(commands, lifecycle, c);
    LifeOfConcat(commands + [e], lifecycle, c);
    LifeOfConcat(commands, [e], c);
    assert LifeOf([e], c) == [];
  }

  lemma DrainPacketKeeps(s: State)
    requires Inv(s) && FrameGuard(s, DrainPacket)
    ensures Inv(FrameEffect(s, DrainPacket))
  {
    var s' := FrameEffect(s, DrainPacket);
    var e := s.packets.items[0].value;
    assert FromReader(s, e);
    FollowsItself(s);
    forall d | 0 <= d < |s.conns| ensures ConnTrace(s'.conns[d], d, Of(s'.events, d), Future(s', d)) {
      DeferKeepsFuture(s.commands, s.lifecycle, e, d);
      assert Follows(s.conns[d], s.conns[d]);
      FollowsKeeps(s.conns[d], s'.conns[d], d, Of(s.events, d), Future(s, d));
    }
    forall i | 0 <= i < |s'.packets.items| ensures FromReader(s', s'.packets.items[i].value) {
      assert s'.packets.items[i] == s.packets.items[i + 1];
      assert FromReader(s, s.packets.items[i + 1].value);
    }
  }

  lemma LifeIsLife(xs: seq<Event>, c: nat)
    ensures forall e :: e in LifeOf(xs, c) ==> e.conn == c && !e.Packet?
  {
  }

  /** A packet shown while its connection is live and published: nothing of it is still on its way. */
  lemma ShowPacket(k: Conn, c: nat, shown: seq<Event>, life: seq<Event>, e: Event)
    requires ConnTrace(k, c, shown, shown + life) && k.published && !k.cancelled
    requires forall x :: x in life ==> !x.Packet?
    requires e.Packet?
    ensures ConnTrace(k, c, shown + [e], shown + [e] + life)
  {
    assert life != [] ==> (shown + life)[|shown|] == life[0] && life[0] in life;
    assert life == [];
    assert shown + life == shown;
  }

  lemma DeliverKeeps(s: State)
    requires Inv(s) && FrameGuard(s, ApplyCommand) && s.commands[0].Packet?
    ensures Inv(FrameEffect(s, ApplyCommand))
  {
    var s', e := FrameEffect(s, ApplyCommand), s.commands[0];
    assert e in s.commands;
    assert Upcoming(s)[1..] == Upcoming(s');
    FollowsItself(s);
    forall d | 0 <= d < |s.conns| ensures ConnTrace(s'.conns[d], d, Of(s'.events, d), Future(s', d)) {
      assert LifeOf(Upcoming(s'), d) == LifeOf(Upcoming(s), d);
      assert Follows(s.conns[d], s.conns[d]);
      FollowsKeeps(s.conns[d], s'.conns[d], d, Of(s.events, d), Future(s, d));
      if !s.conns[e.conn].cancelled {
        OfConcat(s.events, [e], d);
        assert Of(s'.events, d) == if d == e.conn then Of(s.events, d) + [e] else Of(s.events, d);
        if d == e.conn {
          LifeIsLife(Upcoming(s), d);
          ShowPacket(s.conns[d], d, Of(s.events, d), LifeOf(Upcoming(s), d), e);
        }
      }
    }
    forall i | 0 <= i < |s.packets.items| ensures FromReader(s', s'.packets.items[i].value) {
      assert FromReader(s, s.packets.items[i].value);
    }
  }

  /** A lifecycle event reaching observers only moves from what is on its way to what has been shown. */
  lemma ShowLifecycle(k: Conn, c: nat, shown: seq<Event>, future: seq<Event>, e: Event)
    requires ConnTrace(k, c, shown, future)
    requires |shown| < |future| && future[|shown|] == e && !e.Packet?
    ensures ConnTrace(if e.Established? then k.(published := true) else k, c, shown + [e], future)
  {
  }

  lemma ShownAfter(events: seq<Event>, upcoming: seq<Event>, c: nat)
    requires upcoming != [] && !upcoming[0].Packet?
    ensures Of(events + [upcoming[0]], c) == Of(events, c) + (if upcoming[0].conn == c then [upcoming[0]] else [])
    ensures Of(events + [upcoming[0]], c) + LifeOf(upcoming[1..], c) == Of(events, c) + LifeOf(upcoming, c)
  {
    var e := upcoming[0];
    OfConcat(events, [e], c);
    if e.conn == c {
      assert Of([e], c) == [e];
      assert LifeOf(upcoming, c) == [e] + LifeOf(upcoming[1..], c);
      assert Of(events, c) + [e] + LifeOf(upcoming[1..], c) == Of(events, c) + ([e] + LifeOf(upcoming[1..], c));
    } else {
      assert Of([e], c) == [];
    }
  }

  lemma ShowOne(s: State, s': State, e: Event, c: nat)
    requires c < |s.conns| && ConnTrace(s.conns[c], c, Of(s.events, c), Future(s, c))
    requires s.commands != [] && s.commands[0] == e && !e.Packet?
    requires s'.commands == s.commands[1..] && s'.events == s.events + [e] && s'.lifecycle == s.lifecycle
    ensures var k := s.conns[c];
      ConnTrace(if c == e.conn && e.Established? then k.(published := true) else k, c, Of(s'.events, c), Future(s', c))
  {
    assert Upcoming(s)[1..] == Upcoming(s') && Upcoming(s)[0] == e;
    ShownAfter(s.events, Upcoming(s), c);
    if c == e.conn { ShowLifecycle(s.conns[c], c, Of(s.events, c), Future(s, c), e); }
  }

  /** A step that shows the next lifecycle command to observers, and publishes if it is an establishment. */
  lemma ShowKeeps(s: State, e: Event, k: Conn)
    requires Inv(s) && s.commands != [] && s.commands[0] == e && !e.Packet? && e.conn < |s.conns|
    requires k == if e.Established? then s.conns[e.conn].(published := true) else s.conns[e.conn]
    ensures Inv(s.(conns := s.conns[e.conn := k], commands := s.commands[1..], events := s.events + [e]))
  {
    var s' := s.(conns := s.conns[e.conn := k], commands := s.commands[1..], events := s.events + [e]);
    forall d | 0 <= d < |s.conns| ensures ConnTrace(s'.conns[d], d, Of(s'.events, d), Future(s', d)) {
      assert ConnTrace(s.conns[d], d, Of(s.events, d), Future(s, d));
      ShowOne(s, s', e, d);
    }
    forall i | 0 <= i < |s.packets.items| ensures FromReader(s', s'.packets.items[i].value) {
      assert FromReader(s, s.packets.items[i].value);
    }
  }

  lemma ApplyLifecycleKeeps(s: State)
    requires Inv(s) && FrameGuard(s, ApplyCommand) && !s.commands[0].Packet?
    ensures Inv(FrameEffect(s, ApplyCommand))
  {
    var e := s.commands[0];
    var k := s.conns[e.conn];
    ShowKeeps(s, e, if e.Established? then k.(published := true) else k);
    assert s.conns[e.conn := k] == s.conns;
  }

  /** Steps that only move the frame to its next phase. */
  lemma PhaseKeeps(s: State, phase: Phase)
    requires Inv(s)
    ensures Inv(s.(phase := phase))
  {
    var s' := s.(phase := phase);
    forall d | 0 <= d < |s.conns| ensures ConnTrace(s'.conns[d], d, Of(s'.events, d), Future(s', d)) {
      assert ConnTrace(s.conns[d], d, Of(s.events, d), Future(s, d));
    }
    forall i | 0 <= i < |s.packets.items| ensures FromReader(s', s'.packets.items[i].value) {
      assert FromReader(s, s.packets.items[i].value);
    }
  }

  lemma FrameKeeps(s: State, step: FrameStep)
    requires Inv(s) && FrameGuard(s, step)
    ensures Inv(FrameEffect(s, step))
  {
    if step.DrainLifecycle? { DrainLifecycleKeeps(s); }
    else if step.DrainPacket? { DrainPacketKeeps(s); }
    else if step.ApplyCommand? {
      if s.commands[0].Packet? { DeliverKeeps(s); } else { ApplyLifecycleKeeps(s); }
    } else { PhaseKeeps(s, FrameEffect(s, step).phase); }
  }

  lemma StepKeeps(settings: Settings, s: State, step: Step)
    requires Inv(s) && Enabled(settings, s, step)
    ensures Inv(Do(settings, s, step))
  {
    if step.Connect? { ConnectKeeps(settings, s, step); }
    else if step.Setup? { SetupKeeps(settings, s, step.c, step.setup); }
    else if step.Reader? {
      if step.reader.Forward? { ForwardKeeps(settings, s, step.c); } else { ReaderKeeps(settings, s, step.c, step.reader); }
    }
    else if step.Frame? { FrameKeeps(s, step.frame); }
    else { OutsideKeeps(settings, s, step); }
  }

  lemma {:induction false} InvHolds(settings: Settings, schedule: seq<Step>, s: State)
    requires Reached(settings, schedule, s)
    ensures Inv(s)
  {
    if schedule != [] {
      var before := ExecFrom(settings, Initial(), schedule[..|schedule| - 1]).value;
      InvHolds(settings, schedule[..|schedule| - 1], before);
      StepKeeps(settings, before, schedule[|schedule| - 1]);
    }
  }

  /** Over every run, with any budgets, interleavings and user disconnects, what observers see of each
      connection is a prefix of Established, Packet*, Closed. */
  lemma LifecycleTrace(settings: Settings, schedule: seq<Step>, s: State, c: nat)
    requires Reached(settings, schedule, s)
    ensures TraceShape(Of(s.events, c))
  {
    InvHolds(settings, schedule, s);
    if c < |s.conns| {
      assert ConnTrace(s.conns[c], c, Of(s.events, c), Future(s, c));
      var t := Of(s.events, c);
      assert forall i :: 0 <= i < |t| ==> t[i] == Future(s, c)[i];
    } else {
      NothingOf(s.events, c);
    }
  }

  // ---------------------------------------------------------------------------------------------
  // The cause of closure
  // ---------------------------------------------------------------------------------------------

  predicate HasCause(stage: Stage) { stage.Leaving? || PastFinalPoll(stage) }

  ghost predicate CauseInv(k: Conn) {
    && (k.cancelled <==> !k.raiser.Nobody?)
    && (k.failure.None? ==>
        && k.report.NoReport? && !k.raiser.ByWriter? && !k.writer.Failing? && !k.late
        && (HasCause(k.stage) ==> !k.stage.cause.WriteFailed?))
    && (k.failure.Some? ==>
        && !k.writer.Writing?
        && (k.writer.Failing? ==> k.writer.error == k.failure.value)
        && (k.raiser.ByWriter? ==> k.raiser.error == k.failure.value)
        && (k.late ==> PastFinalPoll(k.stage) && !k.report.Reported? && !k.stage.cause.WriteFailed?)
        && (!k.late ==>
            if PastFinalPoll(k.stage) then k.stage.cause == WriteFailed(k.failure.value)
            else if k.stage.Leaving? && k.stage.cause.WriteFailed? then
              k.stage.cause.error == k.failure.value && k.report.Taken?
            else k.report == Reported(k.failure.value)))
    && (HasCause(k.stage) && k.stage.cause.Intentional? ==>
        k.cancelled && (PastFinalPoll(k.stage) ==> k.raiser.ByOther?))
    && (k.stage.Announcing? || k.stage.Announced? || k.stage.Abandoned? || (HasCause(k.stage) && k.stage.cause.SplitFailed?) ==>
        k.writer.Stopped? && k.failure.None?)
  }

  lemma CauseSetup(k: Conn, step: SetupStep)
    requires CauseInv(k) && SetupGuard(k, step)
    ensures CauseInv(SetupEffect(k, step))
  {
  }

  lemma CauseWriter(k: Conn, step: WriterStep)
    requires CauseInv(k) && WriterGuard(k, step)
    ensures CauseInv(WriterEffect(k, step))
  {
  }

  lemma SameTasksKeepCause(k: Conn, k': Conn)
    requires CauseInv(k) && SameTasks(k, k')
    ensures CauseInv(k')
  {
  }

  /** Leaving the receive loop, for whatever reason. */
  lemma CauseLeave(k: Conn, step: ReaderStep)
    requires CauseInv(k) && ReaderGuard(k, step) && (step.LeaveOnReport? || step.LeaveOnCancel? || step.LeaveOnError?)
    ensures CauseInv(ReaderEffect(k, step))
  {
  }

  /** The last look at the writer's report, and what follows it. */
  lemma CauseSettle(k: Conn, step: ReaderStep)
    requires CauseInv(k) && ReaderGuard(k, step) && (step.FinalPoll? || step.RaiseCancel? || step.SendClosed?)
    ensures CauseInv(ReaderEffect(k, step))
  {
  }

  lemma CauseReader(k: Conn, step: ReaderStep)
    requires CauseInv(k) && ReaderGuard(k, step)
    ensures CauseInv(ReaderEffect(k, step))
  {
    if step.FinalPoll? || step.RaiseCancel? || step.SendClosed? {
      CauseSettle(k, step);
    } else if step.LeaveOnReport? || step.LeaveOnCancel? || step.LeaveOnError? {
      CauseLeave(k, step);
    } else {
      ReadSameTasks(k, step);
      SameTasksKeepCause(k, ReaderEffect(k, step));
    }
  }

  lemma DepositSameTasks(settings: Settings, k: Conn, d: Datagram)
    ensures SameTasks(k, Deposit(settings, k, d))
  {
  }

  lemma TakeSameTasks(s: State, c: nat)
    requires FrontReady(s) && c < |s.conns|
    ensures var conns := TakePacket(s).conns; |conns| == |s.conns| && SameTasks(s.conns[c], conns[c])
  {
  }

  lemma RunSameTasks(s: State, c: nat)
    requires s.commands != [] && s.commands[0].conn < |s.conns| && c < |s.conns|
    ensures var conns := RunCommand(s).conns; |conns| == |s.conns| && SameTasks(s.conns[c], conns[c])
  {
    var e := s.commands[0];
    if e.conn == c && e.Packet? { assert SameTasks(s.conns[c], Charge(s.conns[c], ClosedBeforeDelivery, 1)); }
  }

  /** Frames only publish and count. */
  lemma FrameSameTasks(s: State, step: FrameStep, c: nat)
    requires FrameGuard(s, step) && c < |s.conns|
    ensures var conns := FrameEffect(s, step).conns; |conns| == |s.conns| && SameTasks(s.conns[c], conns[c])
  {
    if step.DrainPacket? { TakeSameTasks(s, c); }
    else if step.ApplyCommand? { RunSameTasks(s, c); }
  }

  /** The steps of the network and the user. */
  lemma CauseOutside(settings: Settings, s: State, step: Step, c: nat)
    requires Enabled(settings, s, step) && c < |s.conns| && CauseInv(s.conns[c])
    requires step.Arrive? || step.Disconnect?
    ensures var conns := Do(settings, s, step).conns; c < |conns| && CauseInv(conns[c])
  {
    var k := s.conns[c];
    if step.Arrive? {
      DepositSameTasks(settings, k, step.datagram);
      SameTasksKeepCause(k, Deposit(settings, k, step.datagram));
    } else {
      CauseCancel(k);
    }
  }

  lemma CauseStep(settings: Settings, s: State, step: Step, c: nat)
    requires Enabled(settings, s, step) && c < |s.conns| && CauseInv(s.conns[c])
    ensures var conns := Do(settings, s, step).conns; c < |conns| && CauseInv(conns[c])
  {
    var k := s.conns[c];
    match step
    case Connect(_) =>
    case Setup(d, setup) => if c == d { CauseSetup(k, setup); }
    case Reader(d, reader) =>
      if reader.Forward? {
        ForwardConns(settings, s, d, c);
        SameTasksKeepCause(k, ForwardPacket(settings, s, d).conns[c]);
      } else if c == d { CauseReader(k, reader); }
    case Writer(d, writer) => if c == d { CauseWriter(k, writer); }
    case Arrive(_, _) => CauseOutside(settings, s, step, c);
    case Disconnect(_) => CauseOutside(settings, s, step, c);
    case Frame(frame) =>
      FrameSameTasks(s, frame, c);
      SameTasksKeepCause(k, FrameEffect(s, frame).conns[c]);
  }

  lemma CauseCancel(k: Conn)
    requires CauseInv(k)
    ensures CauseInv(Cancel(k, ByOther))
  {
  }

  lemma {:induction false} CauseHolds(settings: Settings, schedule: seq<Step>, s: State, c: nat)
    requires Reached(settings, schedule, s) && c < |s.conns|
    ensures CauseInv(s.conns[c])
  {
    if schedule != [] {
      var before := ExecFrom(settings, Initial(), schedule[..|schedule| - 1]).value;
      if c < |before.conns| {
        CauseHolds(settings, schedule[..|schedule| - 1], before, c);
        CauseStep(settings, before, schedule[|schedule| - 1], c);
      } else if !schedule[|schedule| - 1].Connect? {
        OnlyConnectAdds(settings, before, schedule[|schedule| - 1]);
      }
    }
  }

  lemma OnlyConnectAdds(settings: Settings, s: State, step: Step)
    requires Enabled(settings, s, step) && !step.Connect?
    ensures |Do(settings, s, step).conns| == |s.conns|
  {
  }

  /** If a failed writer is what cancelled the connection, its closure is never reported as an
      intentional disconnection, and it carries the writer's error exactly when the writer reported it
      before the reader's last look. */
  lemma CausePreserved(settings: Settings, schedule: seq<Step>, s: State, c: nat, cause: Cause)
    requires Reached(settings, schedule, s) && Event.Closed(c, cause) in s.events
    ensures c < |s.conns|
    ensures s.conns[c].raiser.ByWriter? ==> cause != Intentional
    ensures s.conns[c].raiser.ByWriter? ==> (cause == WriteFailed(s.conns[c].raiser.error) <==> !s.conns[c].late)
    ensures s.conns[c].raiser.ByWriter? && s.conns[c].late ==> cause.ReadFailed?
    ensures cause == Intentional ==> s.conns[c].raiser == ByOther
  {
    ClosedIsFinished(settings, schedule, s, c, cause);
    CauseHolds(settings, schedule, s, c);
  }

  /** A closure that observers have seen is that of a finished reader, with its cause. */
  lemma ClosedIsFinished(settings: Settings, schedule: seq<Step>, s: State, c: nat, cause: Cause)
    requires Reached(settings, schedule, s) && Event.Closed(c, cause) in s.events
    ensures c < |s.conns| && s.conns[c].stage == Finished(cause)
  {
    InvHolds(settings, schedule, s);
    InOf(s.events, Event.Closed(c, cause));
    var t := Of(s.events, c);
    var i :| 0 <= i < |t| && t[i] == Event.Closed(c, cause);
    assert Future(s, c)[i] == t[i];
    assert ConnTrace(s.conns[c], c, t, Future(s, c));
    assert i == |Future(s, c)| - 1;
  }

  lemma InOf(xs: seq<Event>, e: Event)
    requires e in xs
    ensures e in Of(xs, e.conn)
  {
    if xs[0] != e { InOf(xs[1..], e); }
  }
}
