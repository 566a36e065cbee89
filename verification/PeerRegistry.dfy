/**
The UDP listener's peer registry: datagrams are routed by source address, a closed peer is replaced
while its old registration is still alive, and slots bound the number of registrations.

Peers have an identity (their index in `states`), as the source's shared pointers do.
*/
module PeerRegistry {
  import opened LossyQueue
  import opened Options
  import opened Udp

  /** `queue` and `taken` hold positions in the log of dispatched datagrams. */
  datatype Peer = Peer(addr: nat, closed: bool, queue: Queue<nat>, taken: seq<nat>, received: nat, drops: Drops)

  datatype Datagram = Datagram(addr: nat, size: nat)

  /** `peers` is the listener's map, `live` the registrations, `dropping` those in the middle of being dropped
      (off the map, not yet cancelled, still holding their slot), `slots` the free permits. */
  datatype Registry = Registry(
    peers: map<nat, nat>, states: seq<Peer>, live: set<nat>, dropping: set<nat>, slots: nat, listening: bool,
    log: seq<Datagram>)

  datatype UdpOptions = UdpOptions(maxPeers: nat, raw: Limits)

  function Start(options: UdpOptions): Registry {
    Registry(map[], [], {}, {}, options.maxPeers, true, [])
  }

  function NewPeer(addr: nat): Peer { Peer(addr, false, Queue([], 0, 1, true), [], 0, multiset{}) }

  function Charge(p: Peer, reason: DropReason, n: nat): Peer { p.(drops := Charged(p.drops, reason, n)) }

  /** Count the datagram as received, then `Peer::push`: queue it, or charge what does not fit or is evicted. */
  function Deposit(options: UdpOptions, p: Peer, position: nat, size: nat): Peer {
    var p' := p.(received := p.received + 1);
    if p.closed then Charge(p', ClosedBeforeDelivery, 1)
    else
      match TrySend(options.raw, p.queue, position, size)
      case (q, Sent(evicted)) => Charge(p', RawQueueEvicted, |evicted|).(queue := q)
      case (_, Full(_)) => Charge(p', RawQueueFull, 1)
      case (_, Closed(_)) => Charge(p', ClosedBeforeDelivery, 1)
  }

  /** A peer may be closed by its reader after it has been found open and before the push. */
  function ClosedIf(p: Peer, raced: bool): Peer { p.(closed := p.closed || raced) }

  predicate OpenAt(r: Registry, addr: nat) {
    addr in r.peers && r.peers[addr] < |r.states| && !r.states[r.peers[addr]].closed
  }

  /** Register a new peer under its address. */
  function AddPeer(r: Registry, p: Peer, log: seq<Datagram>): Registry
    requires r.slots > 0
  {
    r.(peers := r.peers[p.addr := |r.states|], states := r.states + [p],
       live := r.live + {|r.states|}, slots := r.slots - 1, log := log)
  }

  /** `dispatch`: the new state and the identity of an accepted peer, if one is created. `raced` tells whether
      an open peer is closed in the middle of it. */
  function Dispatch(options: UdpOptions, r: Registry, addr: nat, size: nat, raced: bool): (Registry, Option<nat>) {
    if size > MAX_DATAGRAM_SIZE then (r, None)
    else
      var position := |r.log|;
      var logged := r.(log := r.log + [Datagram(addr, size)]);
      if OpenAt(r, addr) then
        var id := r.peers[addr];
        (logged.(states := r.states[id := Deposit(options, ClosedIf(r.states[id], raced), position, size)]), None)
      else if !Admissible(options.raw, size) || r.slots == 0 then (logged, None)
      else
        var peer := Deposit(options, NewPeer(addr), position, size);
        (AddPeer(r, peer, logged.log), Some(|r.states|))
  }

  /** The peer's closed token is cancelled: its reader was closed or dropped. */
  function ClosePeer(r: Registry, id: nat): Registry {
    if id < |r.states| then r.(states := r.states[id := r.states[id].(closed := true)]) else r
  }

  /** The peer's stream takes its next datagram. */
  function Read(r: Registry, id: nat): Registry {
    if id in r.live && id < |r.states| then
      var p := r.states[id];
      match TryRecv(p.queue, _ => true)
      case (q, Received(position)) => r.(states := r.states[id := p.(queue := q, taken := p.taken + [position])])
      case (_, _) => r
    else r
  }

  function Drained(p: Peer): Peer {
    Charge(p, ClosedBeforeDelivery, |p.queue.items|).(queue := CloseAndDrain(p.queue).0)
  }

  /** A stream's queue is dropped and what is still in it charged. A split stream drops it before its
      registration, an unsplit one after. */
  function DropQueue(r: Registry, id: nat): Registry {
    if id < |r.states| then
      r.(states := r.states[id := Drained(r.states[id])])
    else r
  }

  /** Its registration is dropped, which removes the map entry only if it is its own. */
  function Unregister(r: Registry, id: nat): Registry {
    if id in r.live && id < |r.states| then
      var addr := r.states[id].addr;
      r.(peers := if addr in r.peers && r.peers[addr] == id then r.peers - {addr} else r.peers,
         live := r.live - {id}, dropping := r.dropping + {id})
    else r
  }

  /** Only then, without the lock, it cancels the peer and returns the slot. */
  function FinishDrop(r: Registry, id: nat): Registry {
    if id in r.dropping && id < |r.states| then
      r.(states := r.states[id := r.states[id].(closed := true)], dropping := r.dropping - {id}, slots := r.slots + 1)
    else r
  }

  function CloseThese(states: seq<Peer>, ids: set<nat>): (r: seq<Peer>)
    ensures |r| == |states|
  {
    seq(|states|, i requires 0 <= i < |states| => if i in ids then states[i].(closed := true) else states[i])
  }

  /** Dropping the listener closes every peer in the map and clears it. */
  function DropListener(r: Registry): Registry {
    r.(peers := map[], states := CloseThese(r.states, r.peers.Values), listening := false)
  }

  datatype Event =
    | DispatchEvent(addr: nat, size: nat, raced: bool)
    | CloseEvent(id: nat)
    | ReadEvent(id: nat)
    | DropQueueEvent(id: nat)
    | UnregisterEvent(id: nat)
    | FinishDropEvent(id: nat)
    | DropListenerEvent

  function Apply(options: UdpOptions, r: Registry, e: Event): Registry {
    match e
    case DispatchEvent(addr, size, raced) => if r.listening then Dispatch(options, r, addr, size, raced).0 else r
    case CloseEvent(id) => ClosePeer(r, id)
    case ReadEvent(id) => Read(r, id)
    case DropQueueEvent(id) => DropQueue(r, id)
    case UnregisterEvent(id) => Unregister(r, id)
    case FinishDropEvent(id) => FinishDrop(r, id)
    case DropListenerEvent => DropListener(r)
  }

  function After(options: UdpOptions, events: seq<Event>): Registry {
    if events == [] then Start(options)
    else Apply(options, After(options, events[..|events| - 1]), events[|events| - 1])
  }

  // ---------------------------------------------------------------------------------------------
  // What every history of events keeps
  // ---------------------------------------------------------------------------------------------

  /** Every entry of the map is a live registration for that address. */
  ghost predicate MapSound(r: Registry) {
    forall a :: a in r.peers ==> r.peers[a] in r.live && r.peers[a] < |r.states| && r.states[r.peers[a]].addr == a
  }

  /** Every open peer is the entry for its address, unless it is just being dropped; closed ones may linger. */
  ghost predicate OpenIsMapped(r: Registry) {
    forall id :: 0 <= id < |r.states| && !r.states[id].closed ==>
      || (id in r.live && r.states[id].addr in r.peers && r.peers[r.states[id].addr] == id)
      || id in r.dropping
  }

  /** Registrations are peers, and each of them holds a slot. */
  ghost predicate SlotsHeld(options: UdpOptions, r: Registry) {
    && (forall id :: id in r.live || id in r.dropping ==> id < |r.states|)
    && r.live !! r.dropping
    && r.slots + |r.live| + |r.dropping| == options.maxPeers
  }

  /** What a stream has taken, then what it has queued. */
  function Stream(p: Peer): seq<nat> { p.taken + Values(p.queue.items) }

  /** Positions of an in-order subsequence of the datagrams dispatched from one address. */
  ghost predicate Subsequence(log: seq<Datagram>, addr: nat, positions: seq<nat>) {
    && (forall i :: 0 <= i < |positions| ==> positions[i] < |log| && log[positions[i]].addr == addr)
    && (forall i, j :: 0 <= i < j < |positions| ==> positions[i] < positions[j])
  }

  ghost predicate InOrder(log: seq<Datagram>, p: Peer) { Subsequence(log, p.addr, Stream(p)) }

  /** Every received datagram is taken, queued or charged once. */
  predicate Accounted(p: Peer) { p.received == |Stream(p)| + |p.drops| }

  ghost predicate Sound(log: seq<Datagram>, p: Peer) { InOrder(log, p) && Accounted(p) }

  /** The routing invariant: map, registrations and slots agree. */
  ghost predicate Routes(options: UdpOptions, r: Registry) {
    MapSound(r) && OpenIsMapped(r) && SlotsHeld(options, r)
  }

  ghost predicate Inv(options: UdpOptions, r: Registry) {
    Routes(options, r) && forall id :: 0 <= id < |r.states| ==> Sound(r.log, r.states[id])
  }

  lemma LogGrows(log: seq<Datagram>, d: Datagram, addr: nat, positions: seq<nat>)
    requires Subsequence(log, addr, positions)
    ensures Subsequence(log + [d], addr, positions)
    ensures d.addr == addr ==> Subsequence(log + [d], addr, positions + [|log|])
  {
  }

  /** Leaving out a middle part keeps a subsequence. */
  lemma LeaveOut(log: seq<Datagram>, addr: nat, a: seq<nat>, b: seq<nat>, c: seq<nat>)
    requires Subsequence(log, addr, a + (b + c))
    ensures Subsequence(log, addr, a + c)
  {
    forall i | 0 <= i < |a + c| ensures (a + c)[i] == (a + (b + c))[if i < |a| then i else i + |b|] {}
  }

  lemma DepositInOrder(options: UdpOptions, log: seq<Datagram>, p: Peer, size: nat)
    requires InOrder(log, p)
    ensures InOrder(log + [Datagram(p.addr, size)], Deposit(options, p, |log|, size))
  {
    var log' := log + [Datagram(p.addr, size)];
    LogGrows(log, Datagram(p.addr, size), p.addr, Stream(p));
    TrySendOrder(options.raw, p.queue, |log|, size);
    var (q, r) := TrySend(options.raw, p.queue, |log|, size);
    if r.Sent? {
      assert Stream(p) + [|log|] == p.taken + (r.evicted + Values(q.items));
      LeaveOut(log', p.addr, p.taken, r.evicted, Values(q.items));
    }
  }

  /** A deposited datagram is queued, or charged together with whatever it evicts. */
  lemma DepositAccounts(options: UdpOptions, p: Peer, position: nat, size: nat)
    ensures Accounted(Deposit(options, p, position, size)) <==> Accounted(p)
    ensures Deposit(options, p, position, size).received == p.received + 1
  {
    TrySendOrder(options.raw, p.queue, position, size);
  }

  lemma DispatchKeepsPeer(options: UdpOptions, r: Registry, addr: nat, size: nat, raced: bool, id: nat)
    requires forall j :: 0 <= j < |r.states| ==> Sound(r.log, r.states[j])
    requires OpenAt(r, addr) ==> r.states[r.peers[addr]].addr == addr
    requires id < |Dispatch(options, r, addr, size, raced).0.states|
    ensures var r' := Dispatch(options, r, addr, size, raced).0; Sound(r'.log, r'.states[id])
  {
    if size <= MAX_DATAGRAM_SIZE {
      if id < |r.states| {
        assert Sound(r.log, r.states[id]);
        LogGrows(r.log, Datagram(addr, size), r.states[id].addr, Stream(r.states[id]));
        if OpenAt(r, addr) && id == r.peers[addr] {
          var p := ClosedIf(r.states[id], raced);
          assert Sound(r.log, p) by { assert Stream(p) == Stream(r.states[id]); }
          DepositInOrder(options, r.log, p, size);
          DepositAccounts(options, p, |r.log|, size);
        }
      } else {
        DepositInOrder(options, r.log, NewPeer(addr), size);
        DepositAccounts(options, NewPeer(addr), |r.log|, size);
      }
    }
  }

  /** Changing a peer's queue and counters changes no route, nor does closing it. */
  lemma QueueKeepsRoutes(options: UdpOptions, r: Registry, id: nat, p: Peer, log: seq<Datagram>)
    requires Routes(options, r) && id < |r.states|
    requires p.addr == r.states[id].addr && (r.states[id].closed ==> p.closed)
    ensures Routes(options, r.(states := r.states[id := p], log := log))
  {
  }

  /** A new peer takes an address at which no open peer is registered. */
  lemma NewPeerKeepsRoutes(options: UdpOptions, r: Registry, p: Peer, log: seq<Datagram>)
    requires Routes(options, r) && !OpenAt(r, p.addr) && r.slots > 0
    ensures Routes(options, AddPeer(r, p, log))
  {
    var r' := AddPeer(r, p, log);
    NewPeerTakesSlot(options, r, p, log);
    NewPeerIsMapped(r, p, log);
    forall id | 0 <= id < |r'.states| && !r'.states[id].closed
      ensures id in r'.dropping || (id in r'.live && r'.states[id].addr in r'.peers && r'.peers[r'.states[id].addr] == id)
    {
      if id < |r.states| { assert r'.states[id] == r.states[id]; }
    }
  }

  lemma NewPeerTakesSlot(options: UdpOptions, r: Registry, p: Peer, log: seq<Datagram>)
    requires SlotsHeld(options, r) && r.slots > 0
    ensures SlotsHeld(options, AddPeer(r, p, log))
  {
    assert |r.states| !in r.live && |r.states| !in r.dropping;
  }

  lemma NewPeerIsMapped(r: Registry, p: Peer, log: seq<Datagram>)
    requires MapSound(r) && r.slots > 0
    ensures MapSound(AddPeer(r, p, log))
  {
  }

  lemma DispatchKeepsMap(options: UdpOptions, r: Registry, addr: nat, size: nat, raced: bool)
    requires Routes(options, r)
    ensures Routes(options, Dispatch(options, r, addr, size, raced).0)
  {
    var log := r.log + [Datagram(addr, size)];
    if size > MAX_DATAGRAM_SIZE {
    } else if OpenAt(r, addr) {
      var id := r.peers[addr];
      QueueKeepsRoutes(options, r, id, Deposit(options, ClosedIf(r.states[id], raced), |r.log|, size), log);
    } else if Admissible(options.raw, size) && r.slots > 0 {
      NewPeerKeepsRoutes(options, r, Deposit(options, NewPeer(addr), |r.log|, size), log);
    }
  }

  lemma DispatchKeeps(options: UdpOptions, r: Registry, addr: nat, size: nat, raced: bool)
    requires Inv(options, r)
    ensures Inv(options, Dispatch(options, r, addr, size, raced).0)
  {
    DispatchKeepsMap(options, r, addr, size, raced);
    var r' := Dispatch(options, r, addr, size, raced).0;
    forall id | 0 <= id < |r'.states| ensures Sound(r'.log, r'.states[id]) {
      DispatchKeepsPeer(options, r, addr, size, raced, id);
    }
  }

  lemma ReadKeeps(options: UdpOptions, r: Registry, id: nat)
    requires Inv(options, r)
    ensures Inv(options, Read(r, id))
  {
    var r' := Read(r, id);
    forall j | 0 <= j < |r.states|
      ensures r'.states[j].addr == r.states[j].addr && r'.states[j].closed == r.states[j].closed
      ensures Stream(r'.states[j]) == Stream(r.states[j])
    {
      ReadKeepsStream(r.states[j]);
    }
    forall j | 0 <= j < |r.states| ensures Sound(r'.log, r'.states[j]) {
      assert Sound(r.log, r.states[j]);
    }
  }

  /** Taking the front of the queue only moves it from queued to taken. */
  lemma ReadKeepsStream(p: Peer)
    ensures p.queue.items != [] ==>
      p.taken + [p.queue.items[0].value] + Values(p.queue.items[1..]) == Stream(p)
  {
    if p.queue.items != [] {
      assert Values(p.queue.items) == [p.queue.items[0].value] + Values(p.queue.items[1..]);
    }
  }

  lemma ClosePeerKeeps(options: UdpOptions, r: Registry, id: nat)
    requires Inv(options, r)
    ensures Inv(options, ClosePeer(r, id))
  {
    var r' := ClosePeer(r, id);
    forall j | 0 <= j < |r.states| ensures Sound(r'.log, r'.states[j]) {
      assert Sound(r.log, r.states[j]);
      assert Stream(r'.states[j]) == Stream(r.states[j]);
    }
  }

  lemma UnregisterKeepsMap(options: UdpOptions, r: Registry, id: nat)
    requires Routes(options, r)
    ensures Routes(options, Unregister(r, id))
  {
  }

  lemma FinishDropKeepsMap(options: UdpOptions, r: Registry, id: nat)
    requires Routes(options, r)
    ensures Routes(options, FinishDrop(r, id))
  {
  }

  /** Draining a queue leaves what its stream has taken and charges the rest. */
  lemma DrainKeeps(log: seq<Datagram>, p: Peer)
    requires Sound(log, p)
    ensures Sound(log, Drained(p))
  {
    var p' := Drained(p);
    assert Stream(p') == p.taken;
    assert forall i :: 0 <= i < |p.taken| ==> Stream(p)[i] == p.taken[i];
  }

  lemma DropQueueKeeps(options: UdpOptions, r: Registry, id: nat)
    requires Inv(options, r)
    ensures Inv(options, DropQueue(r, id))
  {
    var r' := DropQueue(r, id);
    if id < |r.states| {
      QueueKeepsRoutes(options, r, id, r'.states[id], r.log);
    }
    forall j | 0 <= j < |r.states| ensures Sound(r'.log, r'.states[j]) {
      assert Sound(r.log, r.states[j]);
      DrainKeeps(r.log, r.states[j]);
    }
  }

  /** Dropping a registration touches no queue. */
  lemma DropStepKeeps(options: UdpOptions, r: Registry, id: nat)
    requires Inv(options, r)
    ensures Inv(options, Unregister(r, id)) && Inv(options, FinishDrop(r, id))
  {
    UnregisterKeepsMap(options, r, id);
    FinishDropKeepsMap(options, r, id);
    var r' := FinishDrop(r, id);
    forall j | 0 <= j < |r.states| ensures Sound(r'.log, r'.states[j]) {
      assert Sound(r.log, r.states[j]);
      assert Stream(r'.states[j]) == Stream(r.states[j]);
    }
    forall j | 0 <= j < |r.states| ensures Sound(Unregister(r, id).log, Unregister(r, id).states[j]) {
      assert Sound(r.log, r.states[j]);
    }
  }

  lemma DropListenerKeepsMap(options: UdpOptions, r: Registry)
    requires Routes(options, r)
    ensures Routes(options, DropListener(r))
  {
    forall id | 0 <= id < |r.states| && id !in r.dropping ensures DropListener(r).states[id].closed {
      if !r.states[id].closed { assert r.peers[r.states[id].addr] in r.peers.Values; }
    }
  }

  lemma DropListenerKeeps(options: UdpOptions, r: Registry)
    requires Inv(options, r)
    ensures Inv(options, DropListener(r))
  {
    DropListenerKeepsMap(options, r);
    var r' := DropListener(r);
    forall id | 0 <= id < |r.states| ensures Sound(r'.log, r'.states[id]) {
      assert Sound(r.log, r.states[id]);
      assert Stream(r'.states[id]) == Stream(r.states[id]);
    }
  }

  /** The parts of dropping a stream. */
  lemma DropEventKeeps(options: UdpOptions, r: Registry, e: Event)
    requires Inv(options, r) && (e.DropQueueEvent? || e.UnregisterEvent? || e.FinishDropEvent?)
    ensures Inv(options, Apply(options, r, e))
  {
    if e.DropQueueEvent? { DropQueueKeeps(options, r, e.id); } else { DropStepKeeps(options, r, e.id); }
  }

  lemma EventKeeps(options: UdpOptions, r: Registry, e: Event)
    requires Inv(options, r)
    ensures Inv(options, Apply(options, r, e))
  {
    if e.DispatchEvent? {
      if r.listening { DispatchKeeps(options, r, e.addr, e.size, e.raced); }
    } else if e.CloseEvent? {
      ClosePeerKeeps(options, r, e.id);
    } else if e.ReadEvent? {
      ReadKeeps(options, r, e.id);
    } else if e.DropListenerEvent? {
      DropListenerKeeps(options, r);
    } else {
      DropEventKeeps(options, r, e);
    }
  }

  lemma {:induction false} InvHolds(options: UdpOptions, events: seq<Event>)
    ensures Inv(options, After(options, events))
  {
    if events != [] {
      InvHolds(options, events[..|events| - 1]);
      EventKeeps(options, After(options, events[..|events| - 1]), events[|events| - 1]);
    }
  }

  lemma {:induction false} InjectiveBound(m: map<nat, nat>, targets: set<nat>)
    requires forall a :: a in m ==> m[a] in targets
    requires forall a, b :: a in m && b in m && a != b ==> m[a] != m[b]
    ensures |m| <= |targets|
    decreases |m|
  {
    if m.Keys != {} {
      var a :| a in m.Keys;
      var rest := m - {a};
      assert rest.Keys == m.Keys - {a};
      InjectiveBound(rest, targets - {m[a]});
    }
  }

  /** Over every history: an open peer is the map's entry for its address exactly if its registration is not
      being dropped, and at most one registration per address has an open peer. */
  lemma AtMostOneOpenPeer(options: UdpOptions, events: seq<Event>, i: nat, j: nat)
    requires var r := After(options, events);
      i < |r.states| && j < |r.states| && !r.states[i].closed && !r.states[j].closed
    ensures var r := After(options, events); var a := r.states[i].addr;
      && (a in r.peers && r.peers[a] == i <==> i !in r.dropping)
      && (i in r.live && j in r.live && r.states[j].addr == a ==> i == j)
  {
    InvHolds(options, events);
  }

  /** Every registration that is dropped belongs to a peer already closed. Read halves close their peer before
      they drop it; a stream that was never split does not. */
  ghost predicate ClosedBeforeDropped(options: UdpOptions, events: seq<Event>) {
    forall n :: 0 <= n < |events| && events[n].UnregisterEvent? ==>
      DropsClosed(After(options, events[..n]), events[n].id)
  }

  predicate DropsClosed(r: Registry, id: nat) { id in r.live && id < |r.states| ==> r.states[id].closed }

  ghost predicate DroppingIsClosed(r: Registry) {
    forall id :: id in r.dropping && id < |r.states| ==> r.states[id].closed
  }

  lemma StepKeepsDroppingClosed(options: UdpOptions, r: Registry, e: Event)
    requires Routes(options, r) && DroppingIsClosed(r) && (e.UnregisterEvent? ==> DropsClosed(r, e.id))
    ensures DroppingIsClosed(Apply(options, r, e))
  {
  }

  lemma {:induction false} DroppingStaysClosed(options: UdpOptions, events: seq<Event>)
    requires ClosedBeforeDropped(options, events)
    ensures DroppingIsClosed(After(options, events))
  {
    if events != [] {
      var earlier := events[..|events| - 1];
      forall n | 0 <= n < |earlier| && earlier[n].UnregisterEvent?
        ensures DropsClosed(After(options, earlier[..n]), earlier[n].id)
      {
        assert earlier[..n] == events[..n];
      }
      DroppingStaysClosed(options, earlier);
      InvHolds(options, earlier);
      StepKeepsDroppingClosed(options, After(options, earlier), events[|events| - 1]);
    }
  }

  /** If no registration of an open peer is ever dropped, no address ever has two open peers. */
  lemma OneOpenPeerPerAddress(options: UdpOptions, events: seq<Event>, i: nat, j: nat)
    requires ClosedBeforeDropped(options, events)
    requires var r := After(options, events);
      i < |r.states| && j < |r.states| && !r.states[i].closed && !r.states[j].closed && r.states[i].addr == r.states[j].addr
    ensures i == j
  {
    DroppingStaysClosed(options, events);
    AtMostOneOpenPeer(options, events, i, j);
    AtMostOneOpenPeer(options, events, j, i);
  }

  /** Some other peer of the same address is open. */
  ghost predicate HasOpenTwin(r: Registry, i: nat)
    requires i < |r.states|
  {
    exists j :: 0 <= j < |r.states| && j != i && !r.states[j].closed && r.states[j].addr == r.states[i].addr
  }

  /** The condition is exact. Drop the registration of any peer in any reachable state, and let a datagram from
      its address arrive before the drop finishes: the address has two open peers exactly if the dropped one
      was open and the datagram could be queued and given a slot. */
  lemma TwinExactlyWhen(options: UdpOptions, events: seq<Event>, i: nat, size: nat, raced: bool)
    requires var r := After(options, events);
      i in r.live && i < |r.states| && !HasOpenTwin(r, i) && size <= MAX_DATAGRAM_SIZE
    ensures var r := After(options, events);
      var r' := Dispatch(options, Unregister(r, i), r.states[i].addr, size, raced).0;
      && i < |r'.states|
      && (!r'.states[i].closed && HasOpenTwin(r', i) <==>
          !r.states[i].closed && Admissible(options.raw, size) && r.slots > 0)
  {
    InvHolds(options, events);
    var r := After(options, events);
    var addr, u := r.states[i].addr, Unregister(r, i);
    var r' := Dispatch(options, u, addr, size, raced).0;
    if !r.states[i].closed {
      assert !OpenAt(u, addr);
      if Admissible(options.raw, size) && r.slots > 0 {
        var j := |r.states|;
        assert j < |r'.states| && !r'.states[j].closed && r'.states[j].addr == addr;
        assert HasOpenTwin(r', i);
      } else {
        assert r'.states == r.states;
      }
    }
  }

  /** Opened, dropped while open, and replaced before the drop has finished. */
  const REPLACED_WHILE_DROPPING: seq<Event> :=
    [DispatchEvent(0, 0, false), UnregisterEvent(0), DispatchEvent(0, 0, false)]

  /** Such a history, from the start. */
  lemma TwoOpenPeers(options: UdpOptions)
    requires options.maxPeers >= 2 && Admissible(options.raw, 0)
    ensures var r := After(options, REPLACED_WHILE_DROPPING);
      |r.states| > 0 && !r.states[0].closed && HasOpenTwin(r, 0)
  {
    var arrival, unmapped := DispatchEvent(0, 0, false), UnregisterEvent(0);
    AfterOneMore(options, [], arrival);
    assert [] + [arrival] == [arrival];
    var first := After(options, [arrival]);
    assert |first.states| == 1 && !first.states[0].closed && first.live == {0} && first.slots > 0;
    TwinExactlyWhen(options, [arrival], 0, 0, false);
    AfterOneMore(options, [arrival], unmapped);
    AfterOneMore(options, [arrival] + [unmapped], arrival);
    assert [arrival] + [unmapped] + [arrival] == REPLACED_WHILE_DROPPING;
  }

  lemma AfterOneMore(options: UdpOptions, events: seq<Event>, e: Event)
    ensures After(options, events + [e]) == Apply(options, After(options, events), e)
  {
    assert (events + [e])[..|events|] == events;
  }

  /** Over every history: map size <= registrations <= `max_peers`, and free slots account for the rest. */
  lemma PeersAreBounded(options: UdpOptions, events: seq<Event>)
    ensures var r := After(options, events);
      |r.peers| <= |r.live| && |r.live| + |r.dropping| <= options.maxPeers
      && r.slots == options.maxPeers - |r.live| - |r.dropping|
  {
    InvHolds(options, events);
    var r := After(options, events);
    InjectiveBound(r.peers, r.live);
  }

  /** Dropping a registration never removes another peer's entry, and always removes its own. */
  lemma ReplacementSurvives(options: UdpOptions, events: seq<Event>, id: nat, a: nat)
    requires id in After(options, events).live
    ensures var r := After(options, events); var r' := FinishDrop(Unregister(DropQueue(r, id), id), id);
      && (a in r.peers && r.peers[a] != id ==>
          && a in r'.peers && r'.peers[a] == r.peers[a]
          && r.peers[a] < |r.states| && r'.states[r.peers[a]] == r.states[r.peers[a]])
      && (a in r'.peers ==> r'.peers[a] != id)
  {
    InvHolds(options, events);
  }

  /** Over every history: each datagram counted for a peer is taken by its stream, queued, or charged to exactly
      one of its counters. */
  lemma PeerConservation(options: UdpOptions, events: seq<Event>, id: nat)
    requires id < |After(options, events).states|
    ensures var p := After(options, events).states[id];
      p.received == |p.taken| + |p.queue.items| + |p.drops|
  {
    InvHolds(options, events);
    assert Sound(After(options, events).log, After(options, events).states[id]);
  }

  /** Over every history: what a stream receives is an in-order subsequence of its own address's datagrams. */
  lemma StreamsAreInOrder(options: UdpOptions, events: seq<Event>, id: nat)
    requires id < |After(options, events).states|
    ensures InOrder(After(options, events).log, After(options, events).states[id])
  {
    InvHolds(options, events);
    assert Sound(After(options, events).log, After(options, events).states[id]);
  }

  /** A datagram is refused a new peer exactly when it cannot be queued at all or no slot is free. */
  lemma AcceptedExactlyWhen(options: UdpOptions, events: seq<Event>, addr: nat, size: nat, raced: bool)
    ensures var r := After(options, events); var (r', accepted) := Dispatch(options, r, addr, size, raced);
      && (accepted.Some? <==>
            size <= 65507 && !OpenAt(r, addr) && Admissible(options.raw, size)
            && |r.live| + |r.dropping| < options.maxPeers)
      && (accepted.Some? ==>
            && accepted.value !in r.live + r.dropping && r'.peers == r.peers[addr := accepted.value]
            && accepted.value < |r'.states| && Stream(r'.states[accepted.value]) == [|r.log|])
  {
    InvHolds(options, events);
    var r := After(options, events);
    if Admissible(options.raw, size) { FirstIsSent(options, |r.log|, size); }
  }

  /** What becomes of a datagram for a peer. It is counted; then, if the peer or its queue is closed by now, it is
      charged as closed before delivery; if it fits it joins the stream and no counter moves; else the shortest
      sufficient prefix is evicted, which alone is charged, and it joins; or it alone is refused and charged. */
  lemma DepositExactly(options: UdpOptions, p: Peer, position: nat, size: nat)
    ensures var p' := Deposit(options, p, position, size); var items := p.queue.items;
      && p' == p.(received := p.received + 1, queue := p'.queue, drops := p'.drops)
      && if p.closed || !p.queue.open then
           p'.queue == p.queue && p'.drops == Charged(p.drops, ClosedBeforeDelivery, 1)
         else if Fits(options.raw, items, size) then
           Stream(p') == Stream(p) + [position] && p'.drops == p.drops
         else if options.raw.policy == DropOldest && Admissible(options.raw, size) then
           exists n :: 0 < n <= |items| && Admission(options.raw, items, Item(position, size), p'.queue.items, n)
                       && p'.drops == Charged(p.drops, RawQueueEvicted, n)
         else
           p'.queue == p.queue && p'.drops == Charged(p.drops, RawQueueFull, 1)
  {
    TrySendExactly(options.raw, p.queue, position, size);
    ChargedInTurn(p.drops, RawQueueEvicted, 0);
    var (q, r) := TrySend(options.raw, p.queue, position, size);
    if !p.closed && r.Sent? {
      if Fits(options.raw, p.queue.items, size) {
        assert Values(q.items) == Values(p.queue.items) + [position];
      } else {
        assert p.queue.items[0..] == p.queue.items;
        assert 0 < |r.evicted|;
      }
    }
  }

  /** Over every history: a datagram within the size limit from an address with an open peer reaches that peer and
      no other, and nothing else changes. */
  lemma DeliveredExactly(options: UdpOptions, events: seq<Event>, addr: nat, size: nat, raced: bool, other: nat)
    requires size <= MAX_DATAGRAM_SIZE && OpenAt(After(options, events), addr)
    requires other < |After(options, events).states|
    ensures var r := After(options, events); var (r', accepted) := Dispatch(options, r, addr, size, raced);
      var id := r.peers[addr]; var p, p' := r.states[id], r'.states[id]; var items := p.queue.items;
      && accepted == None && r' == r.(log := r.log + [Datagram(addr, size)], states := r'.states)
      && (other != id ==> r'.states[other] == r.states[other])
      && p.addr == addr && p'.received == p.received + 1 && p'.taken == p.taken && p'.closed == raced
      && if raced || !p.queue.open then
           Stream(p') == Stream(p) && p'.drops == Charged(p.drops, ClosedBeforeDelivery, 1)
         else if Fits(options.raw, items, size) then
           Stream(p') == Stream(p) + [|r.log|] && p'.drops == p.drops
         else if options.raw.policy == DropOldest && Admissible(options.raw, size) then
           exists n :: 0 < n <= |items| && Admission(options.raw, items, Item(|r.log|, size), p'.queue.items, n)
                       && p'.drops == Charged(p.drops, RawQueueEvicted, n)
         else
           Stream(p') == Stream(p) && p'.drops == Charged(p.drops, RawQueueFull, 1)
  {
    InvHolds(options, events);
    var r := After(options, events);
    var p := ClosedIf(r.states[r.peers[addr]], raced);
    DepositExactly(options, p, |r.log|, size);
    assert Stream(p) == Stream(r.states[r.peers[addr]]);
  }

  /** A stream takes its datagrams from the front of its own queue, one at a time. */
  lemma ReadTakesFront(options: UdpOptions, events: seq<Event>, id: nat)
    requires id in After(options, events).live && id < |After(options, events).states|
    ensures var r := After(options, events); var r' := Read(r, id); var p := r.states[id];
      if p.queue.items == [] then r' == r
      else
        && r' == r.(states := r.states[id := r'.states[id]])
        && r'.states[id].taken == p.taken + [p.queue.items[0].value] && r'.states[id].queue.items == p.queue.items[1..]
        && r'.states[id] == p.(taken := r'.states[id].taken, queue := r'.states[id].queue)
  {
    TryRecvExactly(After(options, events).states[id].queue, _ => true);
  }

  /** A stream dropped for good: its peer is closed, its queue closed, emptied and charged, its slot free again and
      its registration gone, and no other peer is touched. */
  lemma DropIsComplete(options: UdpOptions, events: seq<Event>, id: nat, other: nat)
    requires id in After(options, events).live && id < |After(options, events).states|
    requires other < |After(options, events).states|
    ensures var r := After(options, events); var r' := FinishDrop(Unregister(DropQueue(r, id), id), id);
      var p, p' := r.states[id], r'.states[id];
      && id !in r'.live && id !in r'.dropping && r'.slots == r.slots + 1
      && p'.closed && !p'.queue.open && p'.queue.items == [] && Stream(p') == p.taken
      && p'.drops == Charged(p.drops, ClosedBeforeDelivery, |p.queue.items|)
      && (other != id ==> r'.states[other] == r.states[other])
  {
    InvHolds(options, events);
  }

  /** A dropped listener leaves no route, and every registration with a closed peer. */
  lemma ShutdownClosesAll(options: UdpOptions, events: seq<Event>, id: nat)
    requires id in After(options, events).live && id < |After(options, events).states|
    ensures var r' := DropListener(After(options, events));
      r'.peers == map[] && !r'.listening && r'.states[id].closed
  {
    InvHolds(options, events);
    var r := After(options, events);
    if !r.states[id].closed { assert r.peers[r.states[id].addr] in r.peers.Values; }
  }

  /** A peer stays closed, whatever happens. */
  lemma ClosedStaysClosed(options: UdpOptions, r: Registry, e: Event, id: nat)
    requires id < |r.states|
    ensures id < |Apply(options, r, e).states|
    ensures r.states[id].closed || e == CloseEvent(id) ==> Apply(options, r, e).states[id].closed
  {
  }

  /** The first datagram of a peer is always queued. */
  lemma FirstIsSent(options: UdpOptions, position: nat, size: nat)
    requires Admissible(options.raw, size)
    ensures var (q, r) := TrySend(options.raw, Queue([], 0, 1, true), position, size);
      r == Sent([]) && q.items == [Item(position, size)]
  {
    var none: seq<Item<nat>> := [];
    assert FirstFit(options.raw, none, size) == 0;
  }

  // ---------------------------------------------------------------------------------------------
  // The listener and its registrations, in place
  // ---------------------------------------------------------------------------------------------

  /** `count_drop`, once for each of `n` datagrams. */
  method CountEach(drops: Drops, reason: DropReason, n: nat) returns (r: Drops)
    ensures r == Charged(drops, reason, n)
  {
    r := drops;
    var i := 0;
    ChargedInTurn(drops, reason, 0);
    while i < n
      invariant i <= n && r == Charged(drops, reason, i)
    {
      ChargedInTurn(drops, reason, i);
      r := Charged(r, reason, 1);
      i := i + 1;
    }
  }

  class UdpListener {
    const options: UdpOptions
    var peers: map<nat, nat>
    var states: seq<Peer>
    var live: set<nat>
    var dropping: set<nat>
    var slots: nat
    var listening: bool
    ghost var log: seq<Datagram>

    ghost function Model(): Registry
      reads this
    {
      Registry(peers, states, live, dropping, slots, listening, log)
    }

    ghost predicate Valid()
      reads this
    {
      Routes(options, Model())
    }

    constructor (options: UdpOptions)
      ensures Valid() && this.options == options && Model() == Start(options)
    {
      this.options := options;
      peers, states, live, dropping, slots, listening, log := map[], [], {}, {}, options.maxPeers, true, [];
    }

    /** Create, fill and register a peer for an address without an open one. */
    method Accept(addr: nat, size: nat, position: nat) returns (id: nat)
      requires Valid() && slots > 0 && !OpenAt(Model(), addr) && Admissible(options.raw, size)
      modifies `peers, `states, `live, `slots
      ensures Valid() && id == |old(states)|
      ensures Model() == AddPeer(old(Model()), Deposit(options, NewPeer(addr), position, size), log)
    {
      var (queue, result) := TrySend(options.raw, Queue([], 0, 1, true), position, size);
      FirstIsSent(options, position, size);
      var peer := NewPeer(addr).(queue := queue, received := 1);
      NewPeerKeepsRoutes(options, Model(), peer, log);
      id := |states|;
      slots := slots - 1;
      states := states + [peer];
      peers := peers[addr := id];
      live := live + {id};
    }

    /** A datagram from an address without an open peer. */
    method Open(addr: nat, size: nat, position: nat) returns (accepted: Option<nat>)
      requires Valid() && !OpenAt(Model(), addr)
      modifies `peers, `states, `live, `slots
      ensures Valid() && accepted == if Admissible(options.raw, size) && old(slots) > 0 then Some(|old(states)|) else None
      ensures Model() ==
        if accepted.Some? then AddPeer(old(Model()), Deposit(options, NewPeer(addr), position, size), log) else old(Model())
    {
      if options.raw.maxItems == 0 || size > options.raw.maxBytes { return None; }
      if slots == 0 { return None; }
      var id := Accept(addr, size, position);
      return Some(id);
    }

    /** Store a peer's new queue, counters or closed flag. */
    method SetPeer(id: nat, p: Peer)
      requires Valid() && id < |states| && p.addr == states[id].addr && (states[id].closed ==> p.closed)
      modifies `states
      ensures Valid() && states == old(states)[id := p]
    {
      QueueKeepsRoutes(options, Model(), id, p, log);
      states := states[id := p];
    }

    /** `Peer::push`, the datagram being counted as received. The peer may have been closed by now. */
    method Push(id: nat, size: nat, position: nat)
      requires Valid() && id < |states|
      modifies `states
      ensures Valid() && states == old(states)[id := Deposit(options, old(states)[id], position, size)]
    {
      var p := states[id].(received := states[id].received + 1);
      if p.closed {
        p := Charge(p, ClosedBeforeDelivery, 1);
      } else {
        var (queue, result) := TrySend(options.raw, p.queue, position, size);
        match result {
          case Sent(evicted) =>
            var drops := CountEach(p.drops, RawQueueEvicted, |evicted|);
            p := p.(queue := queue, drops := drops);
          case Full(_) => p := Charge(p, RawQueueFull, 1);
          case Closed(_) => p := Charge(p, ClosedBeforeDelivery, 1);
        }
      }
      SetPeer(id, p);
    }

    /** A datagram for a peer found open. `raced` closes it before the push, as its reader may. */
    method Deliver(id: nat, size: nat, position: nat, raced: bool)
      requires Valid() && id < |states|
      modifies `states
      ensures Valid()
      ensures states == old(states)[id := Deposit(options, ClosedIf(old(states)[id], raced), position, size)]
    {
      SetPeer(id, ClosedIf(states[id], raced));
      Push(id, size, position);
    }

    /** `dispatch`, with the peers lock held. The position given to the queue stands for the payload. */
    method Receive(addr: nat, size: nat, position: nat, raced: bool) returns (accepted: Option<nat>)
      requires Valid() && position == |log|
      modifies this
      ensures Valid()
      ensures (Model(), accepted) == Dispatch(options, old(Model()), addr, size, raced)
    {
      if size > MAX_DATAGRAM_SIZE { return None; }
      log := log + [Datagram(addr, size)];
      if addr in peers && !states[peers[addr]].closed {
        Deliver(peers[addr], size, position, raced);
        return None;
      }
      accepted := Open(addr, size, position);
    }

    /** `Drop for TrackedIncoming`: close the queue and charge what was in it. */
    method ReleaseQueue(id: nat)
      requires Valid() && id < |states|
      modifies `states
      ensures Valid()
      ensures Model() == DropQueue(old(Model()), id)
    {
      var (queue, drained) := CloseAndDrain(states[id].queue);
      var drops := CountEach(states[id].drops, ClosedBeforeDelivery, |drained|);
      SetPeer(id, states[id].(queue := queue, drops := drops));
    }

    /** `Drop for PeerRegistration`, with the lock held: the identity check protects a replacement. */
    method Release(id: nat)
      requires Valid() && id in live
      modifies this
      ensures Valid()
      ensures Model() == Unregister(old(Model()), id)
    {
      UnregisterKeepsMap(options, Model(), id);
      var addr := states[id].addr;
      if addr in peers && peers[addr] == id { peers := peers - {addr}; }
      live := live - {id};
      dropping := dropping + {id};
    }

    /** The rest of it, after the lock: cancel, then give the slot back. */
    method FinishRelease(id: nat)
      requires Valid() && id in dropping
      modifies this
      ensures Valid()
      ensures Model() == FinishDrop(old(Model()), id)
    {
      FinishDropKeepsMap(options, Model(), id);
      states := states[id := states[id].(closed := true)];
      dropping := dropping - {id};
      slots := slots + 1;
    }

    /** Close every peer in the map. */
    method CloseMapped()
      requires Valid()
      modifies `states
      ensures states == CloseThese(old(states), peers.Values)
    {
      var waiting := peers.Keys;
      ghost var done: set<nat> := {};
      assert CloseThese(states, {}) == states;
      while waiting != {}
        invariant waiting <= peers.Keys && done <= peers.Values
        invariant states == CloseThese(old(states), done)
        invariant forall a :: a in peers ==> (a in waiting || peers[a] in done)
        decreases waiting
      {
        var a :| a in waiting;
        var id := peers[a];
        assert id in peers.Values;
        states := states[id := states[id].(closed := true)];
        done := done + {id};
        waiting := waiting - {a};
      }
      assert done == peers.Values;
    }

    /** `Drop for UdpNetworkListener`: close every peer in the map, then clear it. */
    method Shutdown()
      requires Valid()
      modifies this
      ensures Valid()
      ensures Model() == DropListener(old(Model()))
    {
      DropListenerKeepsMap(options, Model());
      CloseMapped();
      peers := map[];
      listening := false;
    }
  }
}
