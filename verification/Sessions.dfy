/**
Application sessions over an unvalidated UDP peer: numbered generations per channel with replay
protection, expiry, and the per-address table that owns them.
*/
module Sessions {
  import opened Options

  datatype Body = Hello | Welcome | Data(payload: seq<nat>) | Ping | Close

  datatype Packet = Packet(channel: nat, generation: nat, id: seq<nat>, body: Body)

  datatype Entry = Entry(generation: nat, id: seq<nat>, lastReceived: nat, active: bool)

  type Entries = map<nat, Entry>

  const MAX_CHANNELS: nat := 8
  const MAX_ID: nat := 128

  function Max(a: nat, b: nat): nat { if a <= b then b else a }

  predicate IdValid(p: Packet) { p.id != [] && |p.id| <= MAX_ID }

  function Touch(s: Entries, channel: nat, at: nat): Entries
    requires channel in s
  {
    s[channel := s[channel].(lastReceived := Max(s[channel].lastReceived, at))]
  }

  /** `handle` for a Hello: refresh the current generation, or start a newer one. */
  function HandleHello(s: Entries, p: Packet, at: nat): (Entries, Option<Packet>) {
    var welcome := Some(p.(body := Welcome));
    if p.channel in s && p.generation < s[p.channel].generation then (s, None)
    else if p.channel in s && p.generation == s[p.channel].generation then
      if s[p.channel].id != p.id || !s[p.channel].active then (s, None)
      else (Touch(s, p.channel, at), welcome)
    else if p.channel !in s && |s| >= MAX_CHANNELS then (s, None)
    else (s[p.channel := Entry(p.generation, p.id, at, true)], welcome)
  }

  /** `handle`: the new table and the reply. */
  function Handle(s: Entries, p: Packet, at: nat): (Entries, Option<Packet>) {
    if !IdValid(p) then (s, None)
    else if p.body.Hello? then HandleHello(s, p, at)
    else if p.channel !in s then (s, None)
    else
      var e := s[p.channel];
      if e.generation != p.generation || e.id != p.id then (s, None)
      else if !e.active then (s, if p.body.Close? then Some(p) else None)
      else match p.body
        case Data(_) => (Touch(s, p.channel, at), Some(p))
        case Ping => (Touch(s, p.channel, at), Some(p))
        case Close => (s[p.channel := e.(active := false)], Some(p))
        case _ => (s, None)
  }

  predicate Idle(e: Entry, now: nat, timeout: nat) {
    (if now >= e.lastReceived then now - e.lastReceived else 0) >= timeout
  }

  function ExpireEntry(e: Entry, now: nat, timeout: nat): Entry {
    if Idle(e, now, timeout) then e.(active := false) else e
  }

  function Expire(s: Entries, now: nat, timeout: nat): Entries {
    map c | c in s :: ExpireEntry(s[c], now, timeout)
  }

  function ActiveChannels(s: Entries): set<nat> { set c | c in s && s[c].active }

  // ---------------------------------------------------------------------------------------------
  // Replay safety
  // ---------------------------------------------------------------------------------------------

  datatype Event = HandleEvent(packet: Packet, at: nat) | ExpireEvent(now: nat, timeout: nat)

  function Step(s: Entries, e: Event): Entries {
    match e
    case HandleEvent(p, at) => Handle(s, p, at).0
    case ExpireEvent(now, timeout) => Expire(s, now, timeout)
  }

  function Run(s: Entries, events: seq<Event>): Entries {
    if events == [] then s else Step(Run(s, events[..|events| - 1]), events[|events| - 1])
  }

  /** No channel is forgotten, generations never decrease, and within a generation the identifier is
      fixed, the last-received time never goes back and a closed session stays closed. */
  ghost predicate Evolves(s: Entries, s': Entries) {
    forall c :: c in s ==>
      && c in s'
      && s[c].generation <= s'[c].generation
      && (s'[c].generation == s[c].generation ==>
          && s'[c].id == s[c].id
          && s[c].lastReceived <= s'[c].lastReceived
          && (s'[c].active ==> s[c].active))
  }

  lemma HandleEvolves(s: Entries, p: Packet, at: nat)
    ensures Evolves(s, Handle(s, p, at).0)
  {
  }

  predicate SameSession(p: Packet, q: Packet) {
    p.channel == q.channel && p.generation == q.generation && p.id == q.id
  }

  /** A packet changes at most its own channel, to its own session, and is answered only from there; an
      answered close leaves the session closed. */
  lemma HandleFacts(s: Entries, p: Packet, at: nat)
    ensures var (s', reply) := Handle(s, p, at);
      && (s' == s || (p.channel in s' && s' == s[p.channel := s'[p.channel]]
                      && s'[p.channel].generation == p.generation && s'[p.channel].id == p.id
                      && (p.channel !in s ==> |s| < MAX_CHANNELS)))
      && (reply.Some? ==>
          && SameSession(reply.value, p)
          && p.channel in s' && s'[p.channel].generation == p.generation && s'[p.channel].id == p.id
          && (reply.value.body.Close? ==> !s'[p.channel].active))
  {
  }

  /** A Hello that opens a session: a new channel with room for it, or a newer generation. */
  predicate Opens(s: Entries, p: Packet) {
    && IdValid(p) && p.body == Hello
    && if p.channel in s then p.generation > s[p.channel].generation else |s| < MAX_CHANNELS
  }

  /** The packet names the session its channel has now. */
  predicate Current(s: Entries, p: Packet) {
    IdValid(p) && p.channel in s && s[p.channel].generation == p.generation && s[p.channel].id == p.id
  }

  function Refreshed(e: Entry, at: nat): Entry { e.(lastReceived := Max(e.lastReceived, at)) }

  /** What every packet does, in full. A Hello opens a session, or refreshes its own live one, and is welcomed. Data
      and Ping refresh their live session and are echoed. Close ends its session, live or not, and is echoed.
      Nothing else has any effect or answer. */
  lemma HandleExactly(s: Entries, p: Packet, at: nat)
    ensures var (s', reply) := Handle(s, p, at); var live := Current(s, p) && s[p.channel].active;
      && (Opens(s, p) ==>
          s' == s[p.channel := Entry(p.generation, p.id, at, true)] && reply == Some(p.(body := Welcome)))
      && (live && p.body == Hello ==>
          s' == s[p.channel := Refreshed(s[p.channel], at)] && reply == Some(p.(body := Welcome)))
      && (live && (p.body.Data? || p.body == Ping) ==>
          s' == s[p.channel := Refreshed(s[p.channel], at)] && reply == Some(p))
      && (Current(s, p) && p.body == Close ==>
          s' == s[p.channel := s[p.channel].(active := false)] && reply == Some(p))
      && (s' != s || reply.Some? ==>
          Opens(s, p) || (live && p.body != Welcome) || (Current(s, p) && p.body == Close))
  {
    if Current(s, p) && p.body == Close && !s[p.channel].active {
      assert s[p.channel := s[p.channel].(active := false)] == s;
    }
  }

  lemma UpdateSize(s: Entries, c: nat, e: Entry)
    ensures |s[c := e]| == if c in s then |s| else |s| + 1
  {
    assert s[c := e].Keys == s.Keys + {c};
    assert |s[c := e]| == |s[c := e].Keys| && |s| == |s.Keys|;
    if c in s { assert s.Keys + {c} == s.Keys; }
  }

  lemma HandleIsBounded(s: Entries, p: Packet, at: nat)
    requires |s| <= MAX_CHANNELS
    ensures |Handle(s, p, at).0| <= MAX_CHANNELS
  {
    HandleFacts(s, p, at);
    var s' := Handle(s, p, at).0;
    if s' != s { UpdateSize(s, p.channel, s'[p.channel]); }
  }

  lemma ExpireEvolves(s: Entries, now: nat, timeout: nat)
    ensures Evolves(s, Expire(s, now, timeout)) && |Expire(s, now, timeout)| == |s|
  {
    assert Expire(s, now, timeout).Keys == s.Keys;
    assert |Expire(s, now, timeout)| == |Expire(s, now, timeout).Keys| && |s| == |s.Keys|;
  }

  /** Over every sequence of packets and expiries, from any table within its bound: replayed, stale and
      late packets never revive a closed generation or bring back an older one, and at most eight
      channels exist. */
  lemma {:induction false} ReplaySafety(s: Entries, events: seq<Event>)
    requires |s| <= MAX_CHANNELS
    ensures Evolves(s, Run(s, events)) && |Run(s, events)| <= MAX_CHANNELS
  {
    if events != [] {
      ReplaySafety(s, events[..|events| - 1]);
      var before := Run(s, events[..|events| - 1]);
      match events[|events| - 1]
      case HandleEvent(p, at) =>
        HandleEvolves(before, p, at);
        HandleIsBounded(before, p, at);
      case ExpireEvent(now, timeout) => ExpireEvolves(before, now, timeout);
    }
  }

  /** A packet that opens or refreshes generation `g` of channel `c`. */
  predicate Refreshes(s: Entries, e: Event, c: nat, g: nat) {
    e.HandleEvent? && e.packet.channel == c && e.packet.generation == g
    && !e.packet.body.Close? && Handle(s, e.packet, e.at).1.Some?
  }

  /** The largest time at which generation `g` of channel `c` was opened or refreshed. */
  function LatestRefresh(s: Entries, events: seq<Event>, c: nat, g: nat): Option<nat> {
    if events == [] then None
    else
      var prefix, e := events[..|events| - 1], events[|events| - 1];
      var before := LatestRefresh(s, prefix, c, g);
      if Refreshes(Run(s, prefix), e, c, g) then
        Some(if before.Some? then Max(before.value, e.at) else e.at)
      else before
  }

  /** One event and the entry of generation `g`: an accepted refresh moves its time to the maximum, and
      nothing else touches it or creates it. */
  lemma StepRefresh(s: Entries, e: Event, c: nat, g: nat)
    ensures var s' := Step(s, e);
      if Refreshes(s, e, c, g) then
        && c in s' && s'[c].generation == g && (c in s ==> s[c].generation <= g)
        && s'[c].lastReceived == if c in s && s[c].generation == g then Max(s[c].lastReceived, e.at) else e.at
      else
        && (c in s' && s'[c].generation == g ==>
            c in s && s[c].generation == g && s'[c].lastReceived == s[c].lastReceived)
        && (c !in s' || g > s'[c].generation ==> c !in s || g > s[c].generation)
  {
    if e.HandleEvent? { HandleFacts(s, e.packet, e.at); }
  }

  /** `last_received` is exactly the latest accepted refresh of the current generation; and a generation
      that has not been reached yet has no refresh. */
  lemma {:induction false} LastReceivedIsLatest(events: seq<Event>, c: nat, g: nat)
    ensures var s := Run(map[], events);
      && (c in s && g == s[c].generation ==> LatestRefresh(map[], events, c, g) == Some(s[c].lastReceived))
      && (c !in s || g > s[c].generation ==> LatestRefresh(map[], events, c, g) == None)
  {
    if events != [] {
      LastReceivedIsLatest(events[..|events| - 1], c, g);
      StepRefresh(Run(map[], events[..|events| - 1]), events[|events| - 1], c, g);
    }
  }

  // ---------------------------------------------------------------------------------------------
  // Reordering
  // ---------------------------------------------------------------------------------------------

  predicate IsRefresh(e: Event) { e.HandleEvent? && (e.packet.body.Data? || e.packet.body.Ping?) }

  /** Whether a Data or Ping packet belongs to a live session. Refreshing does not change the answer. */
  predicate Accepts(s: Entries, p: Packet) {
    IdValid(p) && p.channel in s && s[p.channel].active
    && s[p.channel].generation == p.generation && s[p.channel].id == p.id
  }

  lemma RefreshIsTouch(s: Entries, e: Event)
    requires IsRefresh(e)
    ensures Handle(s, e.packet, e.at)
         == if Accepts(s, e.packet) then (Touch(s, e.packet.channel, e.at), Some(e.packet)) else (s, None)
  {
  }

  lemma TouchesCommute(s: Entries, c: nat, at: nat, d: nat, at': nat)
    requires c in s && d in s
    ensures Touch(Touch(s, c, at), d, at') == Touch(Touch(s, d, at'), c, at)
  {
    var x, y := Touch(Touch(s, c, at), d, at'), Touch(Touch(s, d, at'), c, at);
    assert x.Keys == y.Keys;
    assert forall k :: k in x ==> x[k] == y[k];
  }

  lemma RefreshesCommute(s: Entries, a: Event, b: Event)
    requires IsRefresh(a) && IsRefresh(b)
    ensures Step(Step(s, a), b) == Step(Step(s, b), a)
    ensures Handle(Step(s, a), b.packet, b.at).1 == Handle(s, b.packet, b.at).1
  {
    RefreshIsTouch(s, a);
    RefreshIsTouch(s, b);
    RefreshIsTouch(Step(s, a), b);
    RefreshIsTouch(Step(s, b), a);
    if Accepts(s, a.packet) && Accepts(s, b.packet) {
      TouchesCommute(s, a.packet.channel, a.at, b.packet.channel, b.at);
    }
  }

  function RunForward(s: Entries, events: seq<Event>): Entries
    decreases |events|
  {
    if events == [] then s else RunForward(Step(s, events[0]), events[1..])
  }

  lemma SwapFirst(s: Entries, a: Event, b: Event, tail: seq<Event>)
    requires IsRefresh(a) && IsRefresh(b)
    ensures RunForward(Step(s, a), [b] + tail) == RunForward(s, [b, a] + tail)
  {
    RefreshesCommute(s, a, b);
    assert ([b] + tail)[1..] == tail;
    assert ([b, a] + tail)[1..] == [a] + tail && ([a] + tail)[1..] == tail;
  }

  lemma {:induction false} MoveToFront(s: Entries, events: seq<Event>, i: nat)
    requires i < |events| && forall k :: 0 <= k < |events| ==> IsRefresh(events[k])
    ensures RunForward(s, events) == RunForward(s, [events[i]] + events[..i] + events[i + 1..])
    decreases |events|
  {
    if i == 0 {
      assert [events[i]] + events[..i] + events[i + 1..] == events;
    } else {
      var first, chosen, rest := events[0], events[i], events[1..];
      MoveToFront(Step(s, first), rest, i - 1);
      var tail := events[1..i] + events[i + 1..];
      assert [rest[i - 1]] + rest[..i - 1] + rest[i..] == [chosen] + tail;
      assert [chosen] + events[..i] + events[i + 1..] == [chosen, first] + tail;
      SwapFirst(s, first, chosen, tail);
    }
  }

  lemma RemoveOne(xs: seq<Event>, ys: seq<Event>, i: nat)
    requires xs != [] && i < |ys| && ys[i] == xs[0] && multiset(xs) == multiset(ys)
    ensures multiset(xs[1..]) == multiset(ys[..i] + ys[i + 1..])
  {
    assert xs == [xs[0]] + xs[1..];
    assert ys == ys[..i] + [ys[i]] + ys[i + 1..];
    assert multiset(xs) == multiset{xs[0]} + multiset(xs[1..]);
    assert multiset(ys) == multiset(ys[..i]) + multiset{ys[i]} + multiset(ys[i + 1..]);
    assert multiset(xs[1..]) == multiset(xs) - multiset{xs[0]};
    assert multiset(ys[..i] + ys[i + 1..]) == multiset(ys) - multiset{ys[i]};
  }

  /** Data and Ping packets may be reordered at will: any permutation leads to the same table. */
  lemma {:induction false} ReorderingChangesNothing(s: Entries, xs: seq<Event>, ys: seq<Event>)
    requires multiset(xs) == multiset(ys)
    requires forall k :: 0 <= k < |xs| ==> IsRefresh(xs[k])
    ensures RunForward(s, xs) == RunForward(s, ys)
    decreases |xs|
  {
    assert |xs| == |multiset(xs)| == |multiset(ys)| == |ys|;
    if xs != [] {
      assert xs[0] in multiset(ys);
      var i :| 0 <= i < |ys| && ys[i] == xs[0];
      forall k | 0 <= k < |ys| ensures IsRefresh(ys[k]) {
        assert ys[k] in multiset(xs);
      }
      MoveToFront(s, ys, i);
      var rest := ys[..i] + ys[i + 1..];
      RemoveOne(xs, ys, i);
      assert [ys[i]] + ys[..i] + ys[i + 1..] == [xs[0]] + rest;
      assert ([xs[0]] + rest)[1..] == rest;
      ReorderingChangesNothing(Step(s, xs[0]), xs[1..], rest);
    }
  }

  // ---------------------------------------------------------------------------------------------
  // In place
  // ---------------------------------------------------------------------------------------------

  class SessionTable {
    var entries: Entries

    constructor ()
      ensures entries == map[]
    {
      entries := map[];
    }

    method HandlePacket(p: Packet, at: nat) returns (reply: Option<Packet>)
      modifies this
      ensures (entries, reply) == Handle(old(entries), p, at)
    {
      if |p.id| == 0 || |p.id| > MAX_ID { return None; }
      if p.body == Hello {
        if p.channel in entries && p.generation < entries[p.channel].generation { return None; }
        if p.channel in entries && p.generation == entries[p.channel].generation {
          var entry := entries[p.channel];
          if entry.id != p.id || !entry.active { return None; }
          entries := entries[p.channel := entry.(lastReceived := Max(entry.lastReceived, at))];
        } else {
          if p.channel !in entries && |entries| >= MAX_CHANNELS { return None; }
          entries := entries[p.channel := Entry(p.generation, p.id, at, true)];
        }
        return Some(p.(body := Welcome));
      }
      if p.channel !in entries { return None; }
      var entry := entries[p.channel];
      if entry.generation != p.generation || entry.id != p.id { return None; }
      if !entry.active { return if p.body == Close then Some(p) else None; }
      match p.body {
        case Data(_) => entries := entries[p.channel := entry.(lastReceived := Max(entry.lastReceived, at))];
        case Ping => entries := entries[p.channel := entry.(lastReceived := Max(entry.lastReceived, at))];
        case Close => entries := entries[p.channel := entry.(active := false)];
        case Hello => return None;
        case Welcome => return None;
      }
      return Some(p);
    }

    method ExpireAll(now: nat, timeout: nat)
      modifies this
      ensures entries == Expire(old(entries), now, timeout)
    {
      var waiting := entries.Keys;
      while waiting != {}
        invariant waiting <= entries.Keys == old(entries).Keys
        invariant forall c :: c in entries ==>
          entries[c] == if c in waiting then old(entries)[c] else ExpireEntry(old(entries)[c], now, timeout)
        decreases waiting
      {
        var c :| c in waiting;
        if (if now >= entries[c].lastReceived then now - entries[c].lastReceived else 0) >= timeout {
          entries := entries[c := entries[c].(active := false)];
        }
        waiting := waiting - {c};
      }
    }

    method CountActive() returns (n: nat)
      ensures n == |ActiveChannels(entries)|
    {
      var waiting := entries.Keys;
      ghost var found: set<nat> := {};
      n := 0;
      while waiting != {}
        invariant waiting <= entries.Keys
        invariant found == set c | c in entries && entries[c].active && c !in waiting
        invariant n == |found|
        decreases waiting
      {
        var c :| c in waiting;
        if entries[c].active {
          n := n + 1;
          found := found + {c};
        }
        waiting := waiting - {c};
      }
      assert found == ActiveChannels(entries);
    }
  }

  // ---------------------------------------------------------------------------------------------
  // The server's table of addresses
  // ---------------------------------------------------------------------------------------------

  const MAX_PEERS: nat := 64
  const IDLE: nat := 500_000_000

  datatype Peer = Peer(connection: nat, sessions: Entries, created: nat)

  type Peers = map<nat, Peer>

  /** `new_peer`: a returning address keeps its history. The flag tells whether it was admitted. */
  function NewPeer(peers: Peers, addr: nat, connection: nat, now: nat): (Peers, bool) {
    if addr in peers then (peers[addr := peers[addr].(connection := connection, created := now)], true)
    else if |peers| < MAX_PEERS then (peers[addr := Peer(connection, map[], now)], true)
    else (peers, false)
  }

  function ExpirePeer(peer: Peer, now: nat): Peer {
    peer.(sessions := Expire(peer.sessions, now, IDLE))
  }

  /** A peer with no active session for long enough is dropped, unless it has replay history. */
  predicate KeepPeer(peer: Peer, now: nat) {
    var expired := ExpirePeer(peer, now);
    ActiveChannels(expired.sessions) == {} && (if now >= peer.created then now - peer.created else 0) >= IDLE ==>
      expired.sessions != map[]
  }

  function ExpirePeers(peers: Peers, now: nat): Peers {
    map a | a in peers && KeepPeer(peers[a], now) :: ExpirePeer(peers[a], now)
  }

  /** Expiry keeps every address with history together with all its channels and generations, drops only
      empty ones, and never exceeds the admission bound. */
  lemma ExpiryKeepsHistory(peers: Peers, now: nat, addr: nat)
    requires addr in peers
    ensures peers[addr].sessions != map[] ==>
      && addr in ExpirePeers(peers, now)
      && ExpirePeers(peers, now)[addr].sessions.Keys == peers[addr].sessions.Keys
      && Evolves(peers[addr].sessions, ExpirePeers(peers, now)[addr].sessions)
    ensures addr !in ExpirePeers(peers, now) ==> peers[addr].sessions == map[]
  {
    var expired := ExpirePeer(peers[addr], now).sessions;
    assert expired.Keys == peers[addr].sessions.Keys;
    assert expired == map[] <==> expired.Keys == {};
    assert peers[addr].sessions == map[] <==> peers[addr].sessions.Keys == {};
  }

  /** Expiry ends exactly the sessions that have been idle for the timeout, and changes nothing else of a table. */
  lemma ExpireExactly(s: Entries, now: nat, timeout: nat, c: nat)
    ensures c in Expire(s, now, timeout) <==> c in s
    ensures c in s ==>
      var e, e' := s[c], Expire(s, now, timeout)[c];
      && e' == e.(active := e'.active)
      && (e'.active <==> e.active && Max(now, e.lastReceived) < e.lastReceived + timeout)
  {
  }

  /** An address is forgotten exactly if it has no session at all and its record is old; otherwise its sessions are
      expired and its record kept. */
  lemma ForgottenExactly(peers: Peers, now: nat, addr: nat)
    requires addr in peers
    ensures addr in ExpirePeers(peers, now) <==> peers[addr].sessions != map[] || now < peers[addr].created + IDLE
    ensures addr in ExpirePeers(peers, now) ==>
      ExpirePeers(peers, now)[addr] == peers[addr].(sessions := Expire(peers[addr].sessions, now, IDLE))
  {
    var sessions := peers[addr].sessions;
    var expired := Expire(sessions, now, IDLE);
    assert expired.Keys == sessions.Keys;
    assert expired == map[] <==> expired.Keys == {};
    assert sessions == map[] <==> sessions.Keys == {};
    if sessions == map[] { assert ActiveChannels(expired) == {}; }
  }

  /** A peer that appears is recorded with its connection, its time and the sessions its address had. */
  lemma RecordedExactly(peers: Peers, addr: nat, connection: nat, now: nat)
    ensures var (peers', admitted) := NewPeer(peers, addr, connection, now);
      && (admitted <==> addr in peers || |peers| < MAX_PEERS)
      && (admitted ==> peers' == peers[addr := Peer(connection, SessionsAt(peers, addr), now)])
      && (!admitted ==> peers' == peers)
  {
  }

  lemma RetainExactly(peer: Peer, now: nat)
    ensures var sessions := Expire(peer.sessions, now, IDLE);
      var unused := if now >= peer.created then now - peer.created else 0;
      KeepPeer(peer, now) <==> !(|ActiveChannels(sessions)| == 0 && unused >= IDLE && |sessions| == 0)
  {
  }

  class ServerSessions {
    var peers: Peers

    constructor ()
      ensures peers == map[]
    {
      peers := map[];
    }

    /** `new_peer`: the result tells the caller to disconnect a peer that was not admitted. */
    method Register(addr: nat, connection: nat, now: nat) returns (admitted: bool)
      modifies this
      ensures (peers, admitted) == NewPeer(old(peers), addr, connection, now)
    {
      if addr in peers {
        peers := peers[addr := peers[addr].(connection := connection, created := now)];
        return true;
      } else if |peers| < MAX_PEERS {
        peers := peers[addr := Peer(connection, map[], now)];
        return true;
      }
      return false;
    }

    /** `expire_peers`: expire each peer's sessions, then retain it or not. */
    method ExpireIdle(now: nat)
      modifies this
      ensures peers == ExpirePeers(old(peers), now)
    {
      var waiting := peers.Keys;
      while waiting != {}
        invariant waiting <= peers.Keys <= old(peers).Keys
        invariant forall a :: a in waiting ==> peers[a] == old(peers)[a]
        invariant forall a :: a in old(peers) && a !in waiting ==>
          (a in peers <==> KeepPeer(old(peers)[a], now)) && (a in peers ==> peers[a] == ExpirePeer(old(peers)[a], now))
        decreases waiting
      {
        var a :| a in waiting;
        var peer := peers[a];
        var sessions := Expire(peer.sessions, now, IDLE);
        var unused := if now >= peer.created then now - peer.created else 0;
        RetainExactly(peer, now);
        if |ActiveChannels(sessions)| == 0 && unused >= IDLE && |sessions| == 0 {
          peers := peers - {a};
        } else {
          peers := peers[a := peer.(sessions := sessions)];
        }
        waiting := waiting - {a};
      }
    }
  }

  lemma AdmissionIsBounded(peers: Peers, addr: nat, connection: nat, now: nat)
    requires |peers| <= MAX_PEERS
    ensures var (peers', admitted) := NewPeer(peers, addr, connection, now);
      && |peers'| <= MAX_PEERS
      && (admitted <==> addr in peers || |peers| < MAX_PEERS)
      && (forall a :: a in peers ==> a in peers' && peers'[a].sessions == peers[a].sessions)
    ensures |ExpirePeers(peers, now)| <= |peers|
  {
    var (peers', _) := NewPeer(peers, addr, connection, now);
    assert peers'.Keys == peers.Keys || (addr !in peers && peers'.Keys == peers.Keys + {addr});
    assert |peers'| == |peers'.Keys| && |peers| == |peers.Keys|;
    var kept := ExpirePeers(peers, now);
    assert kept.Keys <= peers.Keys;
    SubsetSize(kept.Keys, peers.Keys);
    assert |kept| == |kept.Keys|;
  }

  lemma {:induction false} SubsetSize(a: set<nat>, b: set<nat>)
    requires a <= b
    ensures |a| <= |b|
  {
    if a != {} {
      var x :| x in a;
      SubsetSize(a - {x}, b - {x});
    }
  }

  // ---------------------------------------------------------------------------------------------
  // The whole server
  // ---------------------------------------------------------------------------------------------

  /** `server_packet`: a packet from an address without a peer record is ignored. */
  function ServerPacket(peers: Peers, addr: nat, p: Packet, at: nat): (Peers, Option<Packet>) {
    if addr !in peers then (peers, None)
    else
      var (entries, reply) := Handle(peers[addr].sessions, p, at);
      (peers[addr := peers[addr].(sessions := entries)], reply)
  }

  datatype ServerEvent =
    | PeerAppears(addr: nat, connection: nat, now: nat)
    | PacketArrives(addr: nat, packet: Packet, at: nat)
    | TimerFires(now: nat)

  function ServerStep(peers: Peers, e: ServerEvent): Peers {
    match e
    case PeerAppears(addr, connection, now) => NewPeer(peers, addr, connection, now).0
    case PacketArrives(addr, p, at) => ServerPacket(peers, addr, p, at).0
    case TimerFires(now) => ExpirePeers(peers, now)
  }

  function ServerRun(peers: Peers, events: seq<ServerEvent>): Peers {
    if events == [] then peers else ServerStep(ServerRun(peers, events[..|events| - 1]), events[|events| - 1])
  }

  /** The sessions of an address, none if it has no record. */
  function SessionsAt(peers: Peers, addr: nat): Entries { if addr in peers then peers[addr].sessions else map[] }

  ghost predicate TablesBounded(peers: Peers) {
    |peers| <= MAX_PEERS && forall a :: a in peers ==> |peers[a].sessions| <= MAX_CHANNELS
  }

  lemma PeerUpdateSize(peers: Peers, addr: nat, peer: Peer)
    requires addr in peers
    ensures |peers[addr := peer]| == |peers|
  {
    assert peers[addr := peer].Keys == peers.Keys;
    assert |peers[addr := peer]| == |peers[addr := peer].Keys| && |peers| == |peers.Keys|;
  }

  lemma ServerStepBounded(peers: Peers, e: ServerEvent)
    requires TablesBounded(peers)
    ensures TablesBounded(ServerStep(peers, e))
  {
    match e
    case PeerAppears(addr, connection, now) => AdmissionIsBounded(peers, addr, connection, now);
    case PacketArrives(addr, p, at) =>
      if addr in peers {
        HandleIsBounded(peers[addr].sessions, p, at);
        PeerUpdateSize(peers, addr, peers[addr].(sessions := Handle(peers[addr].sessions, p, at).0));
      }
    case TimerFires(now) =>
      AdmissionIsBounded(peers, 0, 0, now);
      forall a | a in ExpirePeers(peers, now) ensures |ExpirePeers(peers, now)[a].sessions| <= MAX_CHANNELS {
        ExpireEvolves(peers[a].sessions, now, IDLE);
      }
  }

  lemma ServerStepEvolves(peers: Peers, e: ServerEvent, addr: nat)
    ensures Evolves(SessionsAt(peers, addr), SessionsAt(ServerStep(peers, e), addr))
  {
    match e
    case PeerAppears(_, _, _) =>
    case PacketArrives(a, p, at) => if a == addr && a in peers { HandleEvolves(peers[a].sessions, p, at); }
    case TimerFires(now) => if addr in peers { ExpiryKeepsHistory(peers, now, addr); }
  }

  /** Over every sequence of appearing peers, packets and expiries from the empty server: at most 64 addresses
      with at most eight channels each; and from any moment on, whatever happens, no address loses a channel,
      takes a generation back or revives a closed one, not even by leaving and returning. */
  lemma {:induction false} ServerSafety(earlier: seq<ServerEvent>, later: seq<ServerEvent>, addr: nat)
    ensures var before := ServerRun(map[], earlier); var after := ServerRun(before, later);
      && |after| <= 64 && |SessionsAt(after, addr)| <= 8
      && TablesBounded(after)
      && Evolves(SessionsAt(before, addr), SessionsAt(after, addr))
    decreases |later|, |earlier|
  {
    var before := ServerRun(map[], earlier);
    if later != [] {
      ServerSafety(earlier, later[..|later| - 1], addr);
      var middle := ServerRun(before, later[..|later| - 1]);
      ServerStepBounded(middle, later[|later| - 1]);
      ServerStepEvolves(middle, later[|later| - 1], addr);
    } else if earlier != [] {
      ServerSafety(earlier[..|earlier| - 1], [], addr);
      ServerStepBounded(ServerRun(map[], earlier[..|earlier| - 1]), earlier[|earlier| - 1]);
    }
  }
}
