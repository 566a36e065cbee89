/**
Order across the whole datagram pipeline of a connection. At every moment of every run, the packets shown,
then deferred, then in the ECS queue, then in the reader's hand, then waiting undecoded, are an in-order
selection of the connection's arrivals; the rest of them is charged. So nothing is duplicated, reordered
or lost without a count, and a duplicate cannot make up for a loss.
*/
module PipelineOrder {
  import opened LossyQueue
  import opened Options
  import opened Pipeline
  import PipelineConservation
  import PipelineTrace

  /** The packets of connection `c` among the given events, in order. */
  function PacketsOf(xs: seq<Event>, c: nat): seq<nat> {
    if xs == [] then []
    else if xs[0].Packet? && xs[0].conn == c then [xs[0].packet] + PacketsOf(xs[1..], c)
    else PacketsOf(xs[1..], c)
  }

  lemma {:induction false} PacketsConcat(a: seq<Event>, b: seq<Event>, c: nat)
    ensures PacketsOf(a + b, c) == PacketsOf(a, c) + PacketsOf(b, c)
  {
    if a == [] {
      assert a + b == b;
    } else {
      assert (a + b)[1..] == a[1..] + b;
      PacketsConcat(a[1..], b, c);
    }
  }

  lemma {:induction false} AsManyAsCounted(xs: seq<Event>, c: nat)
    ensures |PacketsOf(xs, c)| == PipelineConservation.Count(xs, c)
  {
    if xs != [] { AsManyAsCounted(xs[1..], c); }
  }

  /** Packets a list of datagrams decodes to. */
  function Decoded(ds: seq<Datagram>): seq<nat> {
    if ds == [] then []
    else if ds[0].packet.Some? then [ds[0].packet.value] + Decoded(ds[1..])
    else Decoded(ds[1..])
  }

  lemma {:induction false} DecodedConcat(a: seq<Datagram>, b: seq<Datagram>)
    ensures Decoded(a + b) == Decoded(a) + Decoded(b)
  {
    if a == [] {
      assert a + b == b;
    } else {
      assert (a + b)[1..] == a[1..] + b;
      DecodedConcat(a[1..], b);
    }
  }

  function InHand(k: Conn): seq<nat> { if k.hand.Some? then [k.hand.value] else [] }

  /** Packets of `c` beyond its reader: shown, then deferred, then in the ECS queue. */
  function Ahead(s: State, c: nat): seq<nat> {
    PacketsOf(s.events, c) + PacketsOf(s.commands, c) + PacketsOf(Values(s.packets.items), c)
  }

  /** Packets still with the connection itself. */
  function Behind(k: Conn): seq<nat> { InHand(k) + Decoded(Values(k.raw.items)) }

  /** Each packet is that of one arrival, and they come in the order of arrival. */
  ghost predicate Selects(chosen: seq<nat>, packets: seq<nat>, arrivals: seq<Datagram>) {
    && |chosen| == |packets|
    && (forall i :: 0 <= i < |chosen| ==> chosen[i] < |arrivals| && arrivals[chosen[i]].packet == Some(packets[i]))
    && (forall i, j :: 0 <= i < j < |chosen| ==> chosen[i] < chosen[j])
  }

  ghost predicate Selection(packets: seq<nat>, arrivals: seq<Datagram>) {
    exists chosen: seq<nat> :: Selects(chosen, packets, arrivals)
  }

  lemma LeaveOut(a: seq<nat>, b: seq<nat>, c: seq<nat>, arrivals: seq<Datagram>)
    requires Selection(a + b + c, arrivals)
    ensures Selection(a + c, arrivals)
  {
    var chosen: seq<nat> :| Selects(chosen, a + b + c, arrivals);
    var kept := chosen[..|a|] + chosen[|a| + |b|..];
    forall i | 0 <= i < |kept| ensures kept[i] < |arrivals| && arrivals[kept[i]].packet == Some((a + c)[i]) {
      var j := if i < |a| then i else i + |b|;
      assert kept[i] == chosen[j] && (a + c)[i] == (a + b + c)[j];
    }
    assert Selects(kept, a + c, arrivals);
  }

  lemma Arrived(packets: seq<nat>, arrivals: seq<Datagram>, d: Datagram)
    requires Selection(packets, arrivals)
    ensures Selection(packets, arrivals + [d])
    ensures Selection(packets + Decoded([d]), arrivals + [d])
  {
    var chosen: seq<nat> :| Selects(chosen, packets, arrivals);
    assert Selects(chosen, packets, arrivals + [d]);
    if d.packet.Some? {
      assert Decoded([d]) == [d.packet.value];
      assert Selects(chosen + [|arrivals|], packets + Decoded([d]), arrivals + [d]);
    } else {
      assert packets + Decoded([d]) == packets;
    }
  }

  // ---------------------------------------------------------------------------------------------
  // The connection's own part
  // ---------------------------------------------------------------------------------------------

  /** What is ahead of a connection and its own part are a selection of its arrivals. */
  ghost predicate Ordered(ahead: seq<nat>, k: Conn) {
    Selection(ahead + Behind(k), k.arrivals) && (k.socket ==> k.raw.items == [])
  }

  lemma OrderedStill(ahead: seq<nat>, k: Conn, k': Conn)
    requires Ordered(ahead, k)
    requires k'.socket == k.socket && k'.raw.items == k.raw.items && k'.hand == k.hand && k'.arrivals == k.arrivals
    ensures Ordered(ahead, k')
  {
    assert Behind(k') == Behind(k);
  }

  /** An arrival joins the end of the raw queue, or is charged; a prefix of the queue may be evicted. */
  lemma DepositKeeps(settings: Settings, ahead: seq<nat>, k: Conn, d: Datagram)
    requires Ordered(ahead, k) && !k.socket
    ensures Ordered(ahead, Deposit(settings, k, d))
  {
    Arrived(ahead + Behind(k), k.arrivals, d);
    var (q, r) := Admit(settings, k.raw, d);
    if !k.peerClosed && r.Sent? {
      TrySendOrder(settings.raw, k.raw, d, d.size);
      QueuedBehind(ahead, k, d, r.evicted, q, k.arrivals + [d]);
    }
  }

  lemma QueuedBehind(
      ahead: seq<nat>, k: Conn, d: Datagram, evicted: seq<Datagram>, q: Queue<Datagram>, arrivals: seq<Datagram>)
    requires evicted + Values(q.items) == Values(k.raw.items) + [d]
    requires Selection(ahead + Behind(k) + Decoded([d]), arrivals)
    ensures Selection(ahead + Behind(k.(raw := q)), arrivals)
  {
    var taken, queued := ahead + InHand(k), Values(k.raw.items);
    assert ahead + Behind(k) == taken + Decoded(queued);
    QueuedKeeps(taken, queued, d, evicted, Values(q.items), arrivals);
    assert ahead + Behind(k.(raw := q)) == taken + Decoded(Values(q.items));
  }

  lemma SameEnd(a: seq<nat>, b: seq<nat>, c: seq<nat>, b': seq<nat>, c': seq<nat>)
    requires b + c == b' + c'
    ensures a + b + c == a + b' + c'
  {
    assert a + b + c == a + (b + c) && a + b' + c' == a + (b' + c');
  }

  lemma QueuedKeeps(
      ahead: seq<nat>, queued: seq<Datagram>, d: Datagram, evicted: seq<Datagram>, kept: seq<Datagram>,
      arrivals: seq<Datagram>)
    requires evicted + kept == queued + [d]
    requires Selection(ahead + Decoded(queued) + Decoded([d]), arrivals)
    ensures Selection(ahead + Decoded(kept), arrivals)
  {
    DecodedConcat(queued, [d]);
    DecodedConcat(evicted, kept);
    SameEnd(ahead, Decoded(queued), Decoded([d]), Decoded(evicted), Decoded(kept));
    LeaveOut(ahead, Decoded(evicted), Decoded(kept), arrivals);
  }

  /** A datagram read from the queue ends up in the hand, or is charged. */
  lemma ReadQueuedKeeps(ahead: seq<nat>, k: Conn, limit: nat)
    requires Ordered(ahead, k) && ReaderGuard(k, ReadQueued(limit))
    ensures Ordered(ahead, ReaderEffect(k, ReadQueued(limit)))
  {
    var d := k.raw.items[0].value;
    var taken := k.(raw := TryRecv(k.raw, _ => true).0);
    var rest := Decoded(Values(taken.raw.items));
    assert Values(k.raw.items)[1..] == Values(taken.raw.items);
    assert ahead + Behind(k) == ahead + Decoded([d]) + rest;
    assert ahead + Behind(taken) == ahead + rest;
    LeaveOut(ahead, Decoded([d]), rest, k.arrivals);
    ClassifyKeeps(ahead, taken, d, limit);
  }

  /** What becomes of a payload that has been taken. */
  lemma ClassifyKeeps(ahead: seq<nat>, k: Conn, d: Datagram, limit: nat)
    requires Ordered(ahead, k) && k.hand.None?
    requires Selection(ahead + Decoded([d]) + Decoded(Values(k.raw.items)), k.arrivals)
    ensures Ordered(ahead, Classify(k, d, limit))
  {
    var k' := Classify(k, d, limit);
    PipelineTrace.ClassifyChanges(k, d, limit);
    if k'.hand.Some? {
      assert Decoded([d]) == InHand(k');
      assert ahead + (InHand(k') + Decoded(Values(k.raw.items))) == ahead + InHand(k') + Decoded(Values(k.raw.items));
    } else {
      OrderedStill(ahead, k, k');
    }
  }

  lemma ReadSocketKeeps(ahead: seq<nat>, k: Conn, d: Datagram, limit: nat)
    requires Ordered(ahead, k) && ReaderGuard(k, ReadSocket(d, limit))
    ensures Ordered(ahead, ReaderEffect(k, ReadSocket(d, limit)))
  {
    var counted := k.(arrivals := k.arrivals + [d]);
    Arrived(ahead + Behind(k), k.arrivals, d);
    assert Decoded(Values(k.raw.items)) == [];
    assert ahead + Behind(k) == ahead && Behind(counted) == [];
    assert ahead + Decoded([d]) + Decoded(Values(k.raw.items)) == ahead + Decoded([d]);
    ClassifyKeeps(ahead, counted, d, limit);
  }

  lemma DropRawKeeps(ahead: seq<nat>, k: Conn)
    requires Ordered(ahead, k)
    ensures Ordered(ahead, DropRaw(k))
  {
    var queued := Decoded(Values(k.raw.items));
    assert ahead + Behind(k) == ahead + InHand(k) + queued + [];
    LeaveOut(ahead + InHand(k), queued, [], k.arrivals);
    assert ahead + InHand(k) + [] == ahead + Behind(DropRaw(k));
  }

  lemma ReaderKeeps(ahead: seq<nat>, k: Conn, step: ReaderStep)
    requires Ordered(ahead, k) && ReaderGuard(k, step) && !step.Forward?
    ensures Ordered(ahead, ReaderEffect(k, step))
  {
    if step.ReadQueued? { ReadQueuedKeeps(ahead, k, step.limit); }
    else if step.ReadSocket? { ReadSocketKeeps(ahead, k, step.datagram, step.limit); }
    else if step.DropReader? { DropRawKeeps(ahead, k); }
    else { OrderedStill(ahead, k, ReaderEffect(k, step)); }
  }

  lemma SetupKeeps(ahead: seq<nat>, k: Conn, step: SetupStep)
    requires Ordered(ahead, k) && SetupGuard(k, step)
    ensures Ordered(ahead, SetupEffect(k, step))
  {
    if step.Abandon? || step.SplitFail? {
      DropRawKeeps(ahead, k);
      OrderedStill(ahead, DropRaw(k), SetupEffect(k, step));
    } else {
      OrderedStill(ahead, k, SetupEffect(k, step));
    }
  }

  // ---------------------------------------------------------------------------------------------
  // Steps
  // ---------------------------------------------------------------------------------------------

  ghost predicate Inv(s: State) { forall c :: 0 <= c < |s.conns| ==> Ordered(Ahead(s, c), s.conns[c]) }

  /** The packets ahead of `c` lose a middle part, and its own part does not change. */
  lemma AheadShrinks(ahead: seq<nat>, a: seq<nat>, gone: seq<nat>, b: seq<nat>, k: Conn, k': Conn)
    requires Ordered(ahead, k) && ahead == a + gone + b
    requires k'.socket == k.socket && k'.raw == k.raw && k'.hand == k.hand && k'.arrivals == k.arrivals
    ensures Ordered(a + b, k')
  {
    assert ahead + Behind(k) == a + gone + (b + Behind(k));
    LeaveOut(a, gone, b + Behind(k), k.arrivals);
    assert a + (b + Behind(k)) == a + b + Behind(k');
  }

  lemma OneConnKeeps(s: State, s': State, c: nat)
    requires Inv(s) && c < |s.conns| == |s'.conns|
    requires s'.conns == s.conns[c := s'.conns[c]] && Ordered(Ahead(s, c), s'.conns[c])
    requires s'.packets == s.packets && s'.commands == s.commands && s'.events == s.events
    ensures Inv(s')
  {
    forall d | 0 <= d < |s.conns| ensures Ordered(Ahead(s', d), s'.conns[d]) {
      assert Ordered(Ahead(s, d), s.conns[d]);
      assert Ahead(s', d) == Ahead(s, d);
    }
  }

  lemma TaskKeeps(settings: Settings, s: State, step: Step)
    requires Inv(s) && Enabled(settings, s, step)
    requires !step.Connect? && !step.Frame? && !(step.Reader? && step.reader.Forward?)
    ensures Inv(Do(settings, s, step))
  {
    var c := step.c;
    var k, ahead := s.conns[c], Ahead(s, c);
    assert Ordered(ahead, k);
    if step.Setup? { SetupKeeps(ahead, k, step.setup); }
    else if step.Reader? { ReaderKeeps(ahead, k, step.reader); }
    else if step.Writer? { OrderedStill(ahead, k, WriterEffect(k, step.writer)); }
    else if step.Arrive? { DepositKeeps(settings, ahead, k, step.datagram); }
    else { OrderedStill(ahead, k, Cancel(k, ByOther)); }
    OneConnKeeps(s, Do(settings, s, step), c);
  }

  /** The two connections hold the same, apart from counters and publication. */
  ghost predicate SameContents(k: Conn, k': Conn) {
    k'.socket == k.socket && k'.raw == k.raw && k'.hand == k.hand && k'.arrivals == k.arrivals
  }

  /** A packet moves from the hand to the end of the ECS queue, whose front may be evicted. */
  lemma HandOver(
      front: seq<nat>, queued: seq<nat>, added: seq<nat>, evicted: seq<nat>, kept: seq<nat>, k: Conn, k': Conn)
    requires Ordered(front + queued, k) && evicted + kept == queued + added
    requires SameContents(k.(hand := k'.hand), k') && InHand(k) == added + InHand(k')
    ensures Ordered(front + kept, k')
  {
    var rest := InHand(k') + Decoded(Values(k.raw.items));
    assert Behind(k) == added + rest && Behind(k') == rest;
    assert front + queued + (added + rest) == front + (queued + added) + rest;
    assert front + (evicted + kept) + rest == front + evicted + (kept + rest);
    LeaveOut(front, evicted, kept + rest, k.arrivals);
    assert front + (kept + rest) == front + kept + rest;
  }

  lemma HandDropped(ahead: seq<nat>, k: Conn, k': Conn)
    requires Ordered(ahead, k) && SameContents(k.(hand := None), k')
    ensures Ordered(ahead, k')
  {
    var rest := Decoded(Values(k.raw.items));
    assert ahead + Behind(k) == ahead + InHand(k) + rest;
    LeaveOut(ahead, InHand(k), rest, k.arrivals);
    assert Behind(k') == rest;
  }

  /** The packet handed over ends the ECS queue of its connection; what it evicts is missing. */
  lemma AdmittedPackets(settings: Settings, q: Queue<Event>, e: Event, c: nat)
    ensures var (q', r) := TrySend(settings.ecs, q, e, 1);
      r.Sent? ==>
        PacketsOf(r.evicted, c) + PacketsOf(Values(q'.items), c) == PacketsOf(Values(q.items), c) + PacketsOf([e], c)
  {
    var (q', r) := TrySend(settings.ecs, q, e, 1);
    TrySendOrder(settings.ecs, q, e, 1);
    if r.Sent? {
      PacketsConcat(r.evicted, Values(q'.items), c);
      PacketsConcat(Values(q.items), [e], c);
    }
  }

  lemma ForwardOne(settings: Settings, s: State, c: nat, d: nat)
    requires Inv(s) && Enabled(settings, s, Reader(c, Forward)) && d < |s.conns|
    ensures var s' := ForwardPacket(settings, s, c); d < |s'.conns| && Ordered(Ahead(s', d), s'.conns[d])
  {
    var s' := ForwardPacket(settings, s, c);
    var e := Packet(c, s.conns[c].hand.value);
    var (q, r) := TrySend(settings.ecs, s.packets, e, 1);
    PipelineTrace.ForwardConns(settings, s, c, d);
    assert Ordered(Ahead(s, d), s.conns[d]);
    if r.Sent? {
      AdmittedPackets(settings, s.packets, e, d);
      SentOne(s, s', e, r.evicted, d);
    } else if d == c {
      HandDropped(Ahead(s, d), s.conns[d], s'.conns[d]);
    }
  }

  /** A packet that was admitted, seen from connection `d`. */
  lemma SentOne(s: State, s': State, e: Event, evicted: seq<Event>, d: nat)
    requires d < |s.conns| == |s'.conns| && Ordered(Ahead(s, d), s.conns[d]) && e.Packet?
    requires s'.events == s.events && s'.commands == s.commands
    requires PacketsOf(evicted, d) + PacketsOf(Values(s'.packets.items), d)
          == PacketsOf(Values(s.packets.items), d) + PacketsOf([e], d)
    requires SameContents(s.conns[d].(hand := s'.conns[d].hand), s'.conns[d])
    requires if d == e.conn then s.conns[d].hand == Some(e.packet) && s'.conns[d].hand == None
             else s'.conns[d].hand == s.conns[d].hand
    ensures Ordered(Ahead(s', d), s'.conns[d])
  {
    PacketsOfOne(e, d);
    HandOver(PacketsOf(s.events, d) + PacketsOf(s.commands, d), PacketsOf(Values(s.packets.items), d),
             PacketsOf([e], d), PacketsOf(evicted, d), PacketsOf(Values(s'.packets.items), d), s.conns[d], s'.conns[d]);
  }

  lemma ForwardKeeps(settings: Settings, s: State, c: nat)
    requires Inv(s) && Enabled(settings, s, Reader(c, Forward))
    ensures Inv(ForwardPacket(settings, s, c))
  {
    var s' := ForwardPacket(settings, s, c);
    forall d | 0 <= d < |s'.conns| ensures Ordered(Ahead(s', d), s'.conns[d]) {
      if d < |s.conns| { ForwardOne(settings, s, c, d); }
      else { PipelineTrace.ForwardConns(settings, s, c, c); assert false; }
    }
  }

  lemma PacketsOfOne(e: Event, c: nat)
    ensures PacketsOf([e], c) == if e.Packet? && e.conn == c then [e.packet] else []
  {
  }

  /** The packets ahead of `c` as three stretches: `gone` is all that may be missing afterwards. */
  lemma Regroup(s: State, s': State, c: nat, a: seq<nat>, gone: seq<nat>, b: seq<nat>)
    requires c < |s.conns| == |s'.conns| && Ordered(Ahead(s, c), s.conns[c])
    requires SameContents(s.conns[c], s'.conns[c])
    requires Ahead(s, c) == a + gone + b && (Ahead(s', c) == a + b || Ahead(s', c) == Ahead(s, c))
    ensures Ordered(Ahead(s', c), s'.conns[c])
  {
    AheadShrinks(Ahead(s, c), a, gone, b, s.conns[c], s'.conns[c]);
    OrderedStill(Ahead(s, c), s.conns[c], s'.conns[c]);
  }

  lemma Associative(a: seq<nat>, b: seq<nat>, c: seq<nat>, d: seq<nat>)
    ensures a + b + (c + d) == a + b + c + d
    ensures a + (b + c) + d == a + b + c + d
    ensures a + b + c + d == a + b + (c + d)
    ensures a + c + d == a + (c + d)
  {
  }

  /** The packet taken from the ECS queue ends the deferred ones, or is missing. */
  lemma TakeRegroups(s: State, c: nat)
    requires FrontReady(s)
    ensures var s' := TakePacket(s);
      var a := PacketsOf(s.events, c) + PacketsOf(s.commands, c);
      var gone, b := PacketsOf([s.packets.items[0].value], c), PacketsOf(Values(s'.packets.items), c);
      Ahead(s, c) == a + gone + b && (Ahead(s', c) == a + b || Ahead(s', c) == Ahead(s, c))
  {
    var s', e := TakePacket(s), s.packets.items[0].value;
    assert Values(s.packets.items) == [e] + Values(s'.packets.items);
    PacketsConcat([e], Values(s'.packets.items), c);
    PacketsConcat(s.commands, [e], c);
    Associative(PacketsOf(s.events, c), PacketsOf(s.commands, c), PacketsOf([e], c), PacketsOf(Values(s'.packets.items), c));
  }

  /** The command applied ends what has been shown, or is missing. */
  lemma RunRegroups(s: State, c: nat)
    requires s.commands != [] && s.commands[0].conn < |s.conns|
    ensures var s' := RunCommand(s);
      var a, gone := PacketsOf(s.events, c), PacketsOf([s.commands[0]], c);
      var b := PacketsOf(s'.commands, c) + PacketsOf(Values(s.packets.items), c);
      Ahead(s, c) == a + gone + b && (Ahead(s', c) == a + b || Ahead(s', c) == Ahead(s, c))
  {
    var s', e := RunCommand(s), s.commands[0];
    assert s.commands == [e] + s'.commands;
    PacketsConcat([e], s'.commands, c);
    PacketsConcat(s.events, [e], c);
    Associative(PacketsOf(s.events, c), PacketsOf([e], c), PacketsOf(s'.commands, c), PacketsOf(Values(s.packets.items), c));
  }

  lemma RunSameContents(s: State, c: nat)
    requires s.commands != [] && s.commands[0].conn < |s.conns| && c < |s.conns|
    ensures SameContents(s.conns[c], RunCommand(s).conns[c])
  {
  }

  /** A packet leaves the front of the ECS queue for a command, or is charged. */
  lemma TakeKeeps(s: State)
    requires Inv(s) && FrontReady(s)
    ensures Inv(TakePacket(s))
  {
    var s', e := TakePacket(s), s.packets.items[0].value;
    forall d | 0 <= d < |s.conns| ensures Ordered(Ahead(s', d), s'.conns[d]) {
      assert Ordered(Ahead(s, d), s.conns[d]);
      TakeRegroups(s, d);
      Regroup(s, s', d, PacketsOf(s.events, d) + PacketsOf(s.commands, d), PacketsOf([e], d),
              PacketsOf(Values(s'.packets.items), d));
    }
  }

  /** A command shows its packet, or charges it. */
  lemma RunKeeps(s: State)
    requires Inv(s) && s.commands != [] && s.commands[0].conn < |s.conns|
    ensures Inv(RunCommand(s))
  {
    var s', e := RunCommand(s), s.commands[0];
    forall d | 0 <= d < |s.conns| ensures Ordered(Ahead(s', d), s'.conns[d]) {
      assert Ordered(Ahead(s, d), s.conns[d]);
      RunRegroups(s, d);
      RunSameContents(s, d);
      Regroup(s, s', d, PacketsOf(s.events, d), PacketsOf([e], d),
              PacketsOf(s'.commands, d) + PacketsOf(Values(s.packets.items), d));
    }
  }

  /** Lifecycle events and phases move no packet. */
  lemma FrameKeeps(s: State, step: FrameStep)
    requires Inv(s) && PipelineTrace.Inv(s) && FrameGuard(s, step)
    ensures Inv(FrameEffect(s, step))
  {
    if step.DrainPacket? {
      TakeKeeps(s);
      SamePackets(TakePacket(s), FrameEffect(s, step));
    } else if step.ApplyCommand? {
      RunKeeps(s);
    } else {
      if step.DrainLifecycle? { DeferLifecycleMoves(s, s.lifecycle[0]); }
      SamePackets(s, FrameEffect(s, step));
    }
  }

  lemma DeferLifecycleMoves(s: State, e: Event)
    requires PipelineTrace.Inv(s) && e in s.lifecycle
    ensures forall d: nat :: PacketsOf(s.commands + [e], d) == PacketsOf(s.commands, d)
  {
    forall d: nat ensures PacketsOf(s.commands + [e], d) == PacketsOf(s.commands, d) {
      PacketsConcat(s.commands, [e], d);
      PacketsOfOne(e, d);
    }
  }

  lemma SamePackets(s: State, s': State)
    requires Inv(s) && s'.conns == s.conns && s'.packets == s.packets && s'.events == s.events
    requires forall d: nat :: PacketsOf(s'.commands, d) == PacketsOf(s.commands, d)
    ensures Inv(s')
  {
    forall d | 0 <= d < |s'.conns| ensures Ordered(Ahead(s', d), s'.conns[d]) {
      assert Ordered(Ahead(s, d), s.conns[d]);
    }
  }

  lemma {:induction false} NoPackets(xs: seq<Event>, c: nat)
    requires forall e :: e in xs ==> e.conn != c
    ensures PacketsOf(xs, c) == []
  {
    if xs != [] {
      assert xs[0] in xs;
      NoPackets(xs[1..], c);
    }
  }

  /** A new connection starts with the datagram that opened it, if any. */
  lemma NewbornOrdered(settings: Settings, first: Datagram)
    requires Admit(settings, Queue([], 0, 1, true), first).1.Sent?
    ensures Ordered([], NewConn(false, Admit(settings, Queue([], 0, 1, true), first).0, [first]))
  {
    var empty: Queue<Datagram> := Queue([], 0, 1, true);
    var (q, r) := Admit(settings, empty, first);
    assert FirstFit(settings.raw, empty.items, first.size) == 0;
    assert Values(q.items) == [first];
    assert Selects([], [], []);
    Arrived([], [], first);
    assert [] + Decoded([first]) == [] + Behind(NewConn(false, q, [first]));
    assert [] + [first] == [first];
  }

  lemma SocketOrdered()
    ensures Ordered([], NewConn(true, Queue([], 0, 1, true), []))
  {
    assert Selects([], [], []);
    assert [] + Behind(NewConn(true, Queue([], 0, 1, true), [])) == [];
  }

  lemma NothingAhead(s: State)
    requires PipelineTrace.Inv(s)
    ensures Ahead(s, |s.conns|) == []
  {
    var c := |s.conns|;
    forall i | 0 <= i < |s.packets.items| ensures Values(s.packets.items)[i].conn != c {
      assert PipelineTrace.FromReader(s, s.packets.items[i].value);
    }
    NoPackets(s.events, c);
    NoPackets(s.commands, c);
    NoPackets(Values(s.packets.items), c);
  }

  lemma AddConnKeeps(s: State, k: Conn)
    requires Inv(s) && Ahead(s, |s.conns|) == [] && Ordered([], k)
    ensures Inv(s.(conns := s.conns + [k]))
  {
    var s' := s.(conns := s.conns + [k]);
    forall d | 0 <= d < |s'.conns| ensures Ordered(Ahead(s', d), s'.conns[d]) {
      assert Ahead(s', d) == Ahead(s, d);
      if d < |s.conns| { assert Ordered(Ahead(s, d), s.conns[d]); }
    }
  }

  lemma ConnectKeeps(settings: Settings, s: State, first: Option<Datagram>)
    requires Inv(s) && PipelineTrace.Inv(s) && Enabled(settings, s, Connect(first))
    ensures Inv(Do(settings, s, Connect(first)))
  {
    NothingAhead(s);
    if first.Some? {
      NewbornOrdered(settings, first.value);
      AddConnKeeps(s, NewConn(false, Admit(settings, Queue([], 0, 1, true), first.value).0, [first.value]));
    } else {
      SocketOrdered();
      AddConnKeeps(s, NewConn(true, Queue([], 0, 1, true), []));
    }
  }

  lemma StepKeeps(settings: Settings, s: State, step: Step)
    requires Inv(s) && PipelineTrace.Inv(s) && Enabled(settings, s, step)
    ensures Inv(Do(settings, s, step))
  {
    if step.Connect? { ConnectKeeps(settings, s, step.first); }
    else if step.Frame? { FrameKeeps(s, step.frame); }
    else if step.Reader? && step.reader.Forward? { ForwardKeeps(settings, s, step.c); }
    else { TaskKeeps(settings, s, step); }
  }

  lemma {:induction false} InvHolds(settings: Settings, schedule: seq<Step>, s: State)
    requires Reached(settings, schedule, s)
    ensures Inv(s)
  {
    if schedule != [] {
      var before := ExecFrom(settings, Initial(), schedule[..|schedule| - 1]).value;
      InvHolds(settings, schedule[..|schedule| - 1], before);
      PipelineTrace.InvHolds(settings, schedule[..|schedule| - 1], before);
      StepKeeps(settings, before, schedule[|schedule| - 1]);
    }
  }

  /** At every moment of every run: the packets of a connection that have been shown, are deferred, queued for
      the ECS, in hand or waiting in the raw queue are, in this order, those of distinct arrivals in their
      order of arrival; and every other arrival is charged once or waits undecodable in the raw queue. */
  lemma DeliveryInOrder(settings: Settings, schedule: seq<Step>, s: State, c: nat) returns (chosen: seq<nat>)
    requires Reached(settings, schedule, s) && c < |s.conns|
    ensures var k := s.conns[c];
      && Selects(chosen, Ahead(s, c) + Behind(k), k.arrivals)
      && |k.arrivals| == |chosen| + |k.drops| + |k.raw.items| - |Decoded(Values(k.raw.items))|
  {
    InvHolds(settings, schedule, s);
    var k := s.conns[c];
    assert Ordered(Ahead(s, c), k);
    chosen :| Selects(chosen, Ahead(s, c) + Behind(k), k.arrivals);
    PipelineConservation.ConservedHolds(settings, schedule, s);
    AsManyAsCounted(s.events, c);
    AsManyAsCounted(s.commands, c);
    AsManyAsCounted(Values(s.packets.items), c);
  }
}
