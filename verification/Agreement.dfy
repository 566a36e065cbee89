/**
The client's requests and the server's session tables over a network that loses, duplicates and
reorders packets: whatever phase a request has reached, the server's table agrees with it.
*/
module Agreement {
  import opened Options
  import opened Sessions

  datatype Phase = Initial | Replacement | Echo | Closing | Done

  /** `old` is the first generation of the channel, `current` its replacement. */
  datatype Request = Request(old': Packet, current: Packet, phase: Phase)

  const APPLICATION_DATA: seq<nat> := [97, 112, 112, 108, 105, 99, 97, 116, 105, 111, 110, 32, 100, 97, 116, 97]

  function Expected(r: Request): Packet {
    if r.phase == Initial then r.old' else r.current
  }

  predicate Matches(r: Request, p: Packet) { SameSession(p, Expected(r)) }

  /** `outgoing`: the packet the request keeps sending in its phase. */
  function Outgoing(r: Request): Option<Packet> {
    match r.phase
    case Initial => Some(r.old')
    case Replacement => Some(r.current.(body := Hello))
    case Echo => Some(r.current.(body := Data(APPLICATION_DATA)))
    case Closing => Some(r.current.(body := Close))
    case Done => None
  }

  /** What a matching packet does to a request. */
  function Advance(r: Request, body: Body): Request {
    match (body, r.phase)
    case (Welcome, Initial) => r.(phase := Replacement)
    case (Welcome, Replacement) => r.(phase := Echo)
    case (Data(payload), Echo) => if payload == APPLICATION_DATA then r.(phase := Closing) else r
    case (Close, Closing) => r.(phase := Done)
    case _ => r
  }

  /** The first request a packet matches, if any. */
  function FirstMatch(requests: seq<Request>, p: Packet): (i: nat)
    ensures i <= |requests|
    ensures i < |requests| ==> Matches(requests[i], p)
    ensures forall j :: 0 <= j < i ==> !Matches(requests[j], p)
  {
    if requests == [] then 0
    else if Matches(requests[0], p) then 0
    else 1 + FirstMatch(requests[1..], p)
  }

  /** `client_packet`. */
  function ClientPacket(requests: seq<Request>, p: Packet): seq<Request> {
    var i := FirstMatch(requests, p);
    if i < |requests| then requests[i := Advance(requests[i], p.body)] else requests
  }

  class ClientSessions {
    var requests: seq<Request>

    constructor (requests: seq<Request>)
      ensures this.requests == requests
    {
      this.requests := requests;
    }

    /** `client_packet`: find the first matching request and advance it in place. */
    method Observe(p: Packet)
      modifies this
      ensures requests == ClientPacket(old(requests), p)
    {
      var i := 0;
      while i < |requests| && !Matches(requests[i], p)
        invariant 0 <= i <= FirstMatch(requests, p)
        invariant forall j :: 0 <= j < i ==> !Matches(requests[j], p)
      {
        i := i + 1;
      }
      if i < |requests| { requests := requests[i := Advance(requests[i], p.body)]; }
    }
  }

  // ---------------------------------------------------------------------------------------------
  // The system
  // ---------------------------------------------------------------------------------------------

  const CLIENT: nat := 0

  /** Every packet ever sent stays deliverable, any number of times and in any order. */
  datatype World = World(peers: Peers, requests: seq<Request>, toServer: set<Packet>, toClient: set<Packet>)

  datatype Step =
    | ClientSends(i: nat)
    | ServerReceives(packet: Packet, at: nat)
    | ClientReceives(packet: Packet)
    | OtherPeer(addr: nat, packet: Packet, at: nat)
    | PeerAppears(addr: nat, connection: nat, now: nat)
    | Expiry(now: nat)

  function Do(w: World, step: Step): World {
    match step
    case ClientSends(i) =>
      if i < |w.requests| && Outgoing(w.requests[i]).Some?
      then w.(toServer := w.toServer + {Outgoing(w.requests[i]).value}) else w
    case ServerReceives(p, at) =>
      if p !in w.toServer then w
      else
        var (peers, reply) := ServerPacket(w.peers, CLIENT, p, at);
        w.(peers := peers, toClient := if reply.Some? then w.toClient + {reply.value} else w.toClient)
    case ClientReceives(p) => if p !in w.toClient then w else w.(requests := ClientPacket(w.requests, p))
    case OtherPeer(addr, p, at) => if addr == CLIENT then w else w.(peers := ServerPacket(w.peers, addr, p, at).0)
    case PeerAppears(addr, connection, now) => w.(peers := NewPeer(w.peers, addr, connection, now).0)
    case Expiry(now) => w.(peers := ExpirePeers(w.peers, now))
  }

  /** `client_sessions`: request `i` uses channel `i`, generations 1 and 2, and given identifiers. */
  function Requests(ids: seq<(seq<nat>, seq<nat>)>): seq<Request> {
    seq(|ids|, i requires 0 <= i < |ids| =>
      Request(Packet(i, 1, ids[i].0, Hello), Packet(i, 2, ids[i].1, Hello), Initial))
  }

  function After(ids: seq<(seq<nat>, seq<nat>)>, steps: seq<Step>): World {
    if steps == [] then World(map[], Requests(ids), {}, {})
    else Do(After(ids, steps[..|steps| - 1]), steps[|steps| - 1])
  }

  // ---------------------------------------------------------------------------------------------
  // The invariant
  // ---------------------------------------------------------------------------------------------

  function Table(w: World): Entries { if CLIENT in w.peers then w.peers[CLIENT].sessions else map[] }

  ghost predicate OfRequest(r: Request, p: Packet) {
    (SameSession(p, r.old') && p.body == Hello) || SameSession(p, r.current)
  }

  /** The server holds the request's replacement session. */
  ghost predicate HasCurrent(t: Entries, r: Request) {
    r.current.channel in t && t[r.current.channel].generation == 2 && t[r.current.channel].id == r.current.id
  }

  ghost predicate ClosedCurrent(t: Entries, r: Request) {
    HasCurrent(t, r) && !t[r.current.channel].active
  }

  ghost predicate RequestsInv(w: World) {
    forall i :: 0 <= i < |w.requests| ==>
      && var r := w.requests[i];
      && r.old' == Packet(i, 1, r.old'.id, Hello)
      && r.current == Packet(i, 2, r.current.id, Hello)
  }

  /** Only the client's own sessions are on the wire and in its table. */
  ghost predicate WireInv(w: World) {
    && (forall p :: p in w.toServer ==> p.channel < |w.requests| && OfRequest(w.requests[p.channel], p))
    && (forall c :: c in Table(w) ==> c < |w.requests| && Table(w)[c].generation <= 2)
    && (forall c :: c in Table(w) && Table(w)[c].generation == 2 ==> Table(w)[c].id == w.requests[c].current.id)
  }

  /** A reply about the replacement session proves the server holds it; an acknowledged close proves it
      is closed there. */
  ghost predicate RepliesInv(w: World) {
    forall p :: p in w.toClient && p.generation == 2 ==>
      && p.channel < |w.requests|
      && HasCurrent(Table(w), w.requests[p.channel])
      && (p.body.Close? ==> ClosedCurrent(Table(w), w.requests[p.channel]))
  }

  ghost predicate Agrees(t: Entries, r: Request) {
    && (r.phase.Echo? || r.phase.Closing? || r.phase.Done? ==> HasCurrent(t, r))
    && (r.phase.Done? ==> ClosedCurrent(t, r))
  }

  ghost predicate Inv(w: World) {
    && RequestsInv(w) && WireInv(w) && RepliesInv(w)
    && forall i :: 0 <= i < |w.requests| ==> Agrees(Table(w), w.requests[i])
  }

  // ---------------------------------------------------------------------------------------------
  // Steps
  // ---------------------------------------------------------------------------------------------

  /** How the client's table may change: nothing is forgotten and generation 2 is final. */
  ghost predicate TableMoves(w: World, t': Entries) {
    && Evolves(Table(w), t')
    && (forall c :: c in t' ==> c < |w.requests| && t'[c].generation <= 2)
    && (forall c :: c in t' && t'[c].generation == 2 ==> t'[c].id == w.requests[c].current.id)
  }

  lemma TableMovesKeep(w: World, w': World)
    requires Inv(w) && TableMoves(w, Table(w'))
    requires w'.requests == w.requests && w'.toServer == w.toServer && w'.toClient == w.toClient
    ensures Inv(w')
  {
    forall i | 0 <= i < |w.requests| ensures Agrees(Table(w'), w.requests[i]) {
      assert Agrees(Table(w), w.requests[i]);
    }
    forall p | p in w.toClient && p.generation == 2
      ensures p.channel < |w.requests| && HasCurrent(Table(w'), w.requests[p.channel])
      ensures p.body.Close? ==> ClosedCurrent(Table(w'), w.requests[p.channel])
    {
      assert HasCurrent(Table(w), w.requests[p.channel]);
    }
  }

  lemma ServerReceivesMoves(w: World, p: Packet, at: nat)
    requires Inv(w) && p in w.toServer && CLIENT in w.peers
    ensures var (t', reply) := Handle(Table(w), p, at);
      && TableMoves(w, t')
      && (reply.Some? && reply.value.generation == 2 ==>
          && reply.value.channel < |w.requests|
          && HasCurrent(t', w.requests[reply.value.channel])
          && (reply.value.body.Close? ==> ClosedCurrent(t', w.requests[reply.value.channel])))
  {
    var t, r := Table(w), w.requests[p.channel];
    HandleEvolves(t, p, at);
    HandleFacts(t, p, at);
    assert OfRequest(r, p);
    assert p.generation <= 2 && (p.generation == 2 ==> p.id == r.current.id);
    var t' := Handle(t, p, at).0;
    forall c | c in t'
      ensures c < |w.requests| && t'[c].generation <= 2
      ensures t'[c].generation == 2 ==> t'[c].id == w.requests[c].current.id
    {
      if c != p.channel { assert t'[c] == t[c]; }
    }
  }

  lemma ServerReceivesKeeps(w: World, p: Packet, at: nat)
    requires Inv(w)
    ensures Inv(Do(w, ServerReceives(p, at)))
  {
    if p in w.toServer && CLIENT in w.peers {
      ServerReceivesMoves(w, p, at);
      var w' := Do(w, ServerReceives(p, at));
      TableMovesKeep(w, w'.(toClient := w.toClient));
    }
  }

  /** A request that advances past Initial does so on a reply about its replacement session. */
  lemma AdvanceAgrees(t: Entries, r: Request, p: Packet)
    requires Agrees(t, r) && r.current.generation == 2 && Matches(r, p)
    requires p.generation == 2 ==> HasCurrent(t, r) && (p.body.Close? ==> ClosedCurrent(t, r))
    ensures Agrees(t, Advance(r, p.body))
  {
  }

  lemma ClientReceivesKeeps(w: World, p: Packet)
    requires Inv(w)
    ensures Inv(Do(w, ClientReceives(p)))
  {
    if p in w.toClient {
      var w', i := Do(w, ClientReceives(p)), FirstMatch(w.requests, p);
      if i < |w.requests| {
        assert Agrees(Table(w), w.requests[i]);
        AdvanceAgrees(Table(w), w.requests[i], p);
        AdvanceKeepsInv(w, i, Advance(w.requests[i], p.body));
      }
    }
  }

  lemma AdvanceKeepsInv(w: World, i: nat, r: Request)
    requires Inv(w) && i < |w.requests| && Agrees(Table(w), r)
    requires r.old' == w.requests[i].old' && r.current == w.requests[i].current
    ensures Inv(w.(requests := w.requests[i := r]))
  {
    var w' := w.(requests := w.requests[i := r]);
    forall p | p in w.toServer ensures p.channel < |w.requests| && OfRequest(w'.requests[p.channel], p) {
      assert OfRequest(w.requests[p.channel], p);
    }
    forall p | p in w.toClient && p.generation == 2
      ensures p.channel < |w.requests| && HasCurrent(Table(w'), w'.requests[p.channel])
      ensures p.body.Close? ==> ClosedCurrent(Table(w'), w'.requests[p.channel])
    {
      assert HasCurrent(Table(w), w.requests[p.channel]);
    }
    forall j | 0 <= j < |w.requests| ensures Agrees(Table(w'), w'.requests[j]) {
      assert Agrees(Table(w), w.requests[j]);
    }
  }

  lemma ClientSendsKeeps(w: World, i: nat)
    requires Inv(w)
    ensures Inv(Do(w, ClientSends(i)))
  {
    var w' := Do(w, ClientSends(i));
    forall p | p in w'.toServer ensures p.channel < |w.requests| && OfRequest(w.requests[p.channel], p) {}
  }

  /** Other peers, admissions and expiry leave the client's table alone or only expire it. */
  lemma ServerHousekeeping(w: World, step: Step)
    requires Inv(w) && (step.OtherPeer? || step.PeerAppears? || step.Expiry?)
    ensures TableMoves(w, Table(Do(w, step)))
  {
    if step.Expiry? {
      ExpiryMoves(w, step.now);
    } else {
      assert Table(Do(w, step)) == Table(w);
    }
  }

  lemma ExpiryMoves(w: World, now: nat)
    requires Inv(w)
    ensures TableMoves(w, Table(Do(w, Expiry(now))))
  {
    if CLIENT in w.peers {
      ExpiryKeepsHistory(w.peers, now, CLIENT);
      var t' := Table(Do(w, Expiry(now)));
      if Table(w) != map[] {
        forall c | c in t' ensures c in Table(w) && t'[c].generation == Table(w)[c].generation && t'[c].id == Table(w)[c].id {
          assert t'[c] == ExpireEntry(Table(w)[c], now, IDLE);
        }
      } else {
        assert t'.Keys == {};
      }
    }
  }

  lemma StepKeeps(w: World, step: Step)
    requires Inv(w)
    ensures Inv(Do(w, step))
  {
    if step.ClientSends? {
      ClientSendsKeeps(w, step.i);
    } else if step.ServerReceives? {
      ServerReceivesKeeps(w, step.packet, step.at);
    } else if step.ClientReceives? {
      ClientReceivesKeeps(w, step.packet);
    } else {
      ServerHousekeeping(w, step);
      TableMovesKeep(w, Do(w, step));
    }
  }

  lemma {:induction false} InvHolds(ids: seq<(seq<nat>, seq<nat>)>, steps: seq<Step>)
    ensures Inv(After(ids, steps))
  {
    if steps != [] {
      InvHolds(ids, steps[..|steps| - 1]);
      StepKeeps(After(ids, steps[..|steps| - 1]), steps[|steps| - 1]);
    }
  }

  /** Over every run of the lossy, duplicating, reordering network, with other peers and expiry at any
      time: a request in Echo or later is served by an entry of generation 2 with its current
      identifier, and a request that is Done is closed at the server. */
  lemma SessionAgreement(ids: seq<(seq<nat>, seq<nat>)>, steps: seq<Step>, i: nat)
    requires i < |After(ids, steps).requests|
    ensures var w := After(ids, steps); var r := w.requests[i];
      && (r.phase in {Echo, Closing, Done} ==>
          CLIENT in w.peers && i in w.peers[CLIENT].sessions
          && w.peers[CLIENT].sessions[i].generation == 2 && w.peers[CLIENT].sessions[i].id == r.current.id)
      && (r.phase == Done ==> !w.peers[CLIENT].sessions[i].active)
  {
    InvHolds(ids, steps);
  }

  /** The body a server answers a request's packet with. */
  function ReplyBody(body: Body): Body { if body.Hello? then Welcome else body }

  function NextPhase(phase: Phase): Phase {
    match phase
    case Initial => Replacement
    case Replacement => Echo
    case Echo => Closing
    case _ => Done
  }

  /** A packet changes at most one request, by one phase, and only if it is the reply to what that request
      is sending now: stale, duplicated and foreign packets change nothing. */
  lemma OnlyTheAwaitedReplyAdvances(requests: seq<Request>, p: Packet, i: nat)
    requires i < |requests| && requests[i].old'.body == Hello
    ensures |ClientPacket(requests, p)| == |requests|
    ensures ClientPacket(requests, p)[i] != requests[i] ==>
      && Outgoing(requests[i]).Some?
      && SameSession(p, Outgoing(requests[i]).value) && p.body == ReplyBody(Outgoing(requests[i]).value.body)
      && ClientPacket(requests, p)[i] == requests[i].(phase := NextPhase(requests[i].phase))
      && (forall j :: 0 <= j < |requests| && j != i ==> ClientPacket(requests, p)[j] == requests[j])
  {
  }

  /** Conversely, the reply the first matching request is waiting for always advances it, by exactly one phase. */
  lemma AwaitedReplyAdvances(requests: seq<Request>, p: Packet)
    requires var i := FirstMatch(requests, p);
      i < |requests| && requests[i].old'.body == Hello && Outgoing(requests[i]).Some?
      && p.body == ReplyBody(Outgoing(requests[i]).value.body)
    ensures var i := FirstMatch(requests, p);
      ClientPacket(requests, p) == requests[i := requests[i].(phase := NextPhase(requests[i].phase))]
  {
  }

  // ---------------------------------------------------------------------------------------------
  // A request that is served
  // ---------------------------------------------------------------------------------------------

  lemma {:induction false} MatchIsUnique(requests: seq<Request>, p: Packet, i: nat)
    requires i < |requests| && Matches(requests[i], p)
    requires forall j :: 0 <= j < |requests| ==> Expected(requests[j]).channel == j
    ensures FirstMatch(requests, p) == i
  {
    var first := FirstMatch(requests, p);
    assert first <= i;
    assert Matches(requests[first], p);
  }

  /** Send, answer, receive: the packet a request sends and the server's answer to it. */
  function Exchange(i: nat, p: Packet, at: nat): seq<Step> {
    [ClientSends(i), ServerReceives(p, at), ClientReceives(p.(body := ReplyBody(p.body)))]
  }

  function Continue(w: World, steps: seq<Step>): World
    decreases |steps|
  {
    if steps == [] then w else Do(Continue(w, steps[..|steps| - 1]), steps[|steps| - 1])
  }

  lemma ExchangeIs(w: World, i: nat, p: Packet, at: nat)
    ensures Continue(w, Exchange(i, p, at))
         == Do(Do(Do(w, ClientSends(i)), ServerReceives(p, at)), ClientReceives(p.(body := ReplyBody(p.body))))
  {
    var steps := Exchange(i, p, at);
    assert steps[..2][..1] == steps[..1] && steps[..1][..0] == [];
    assert steps[..1][0] == ClientSends(i) && steps[..2][1] == ServerReceives(p, at);
    assert Continue(w, steps[..1]) == Do(Continue(w, steps[..1][..0]), ClientSends(i));
  }

  lemma SendStep(w: World, i: nat)
    requires i < |w.requests| && Outgoing(w.requests[i]).Some?
    ensures Do(w, ClientSends(i)) == w.(toServer := w.toServer + {Outgoing(w.requests[i]).value})
  {
  }

  lemma AnswerStep(w: World, p: Packet, at: nat, reply: Packet)
    requires p in w.toServer && CLIENT in w.peers && Handle(Table(w), p, at).1 == Some(reply)
    ensures var w' := Do(w, ServerReceives(p, at));
      && w'.requests == w.requests && reply in w'.toClient
      && CLIENT in w'.peers && Table(w') == Handle(Table(w), p, at).0
  {
  }

  /** If the server answers what a request sends, one exchange moves that request one phase on and no other. */
  lemma ExchangeAdvances(w: World, i: nat, at: nat)
    requires RequestsInv(w) && CLIENT in w.peers && i < |w.requests| && Outgoing(w.requests[i]).Some?
    requires var p := Outgoing(w.requests[i]).value;
      Handle(Table(w), p, at).1 == Some(p.(body := ReplyBody(p.body)))
    ensures var r := w.requests[i]; var p := Outgoing(r).value; var w' := Continue(w, Exchange(i, p, at));
      && w'.requests == w.requests[i := r.(phase := NextPhase(r.phase))]
      && CLIENT in w'.peers && Table(w') == Handle(Table(w), p, at).0
  {
    var p := Outgoing(w.requests[i]).value;
    var reply := p.(body := ReplyBody(p.body));
    ExchangeIs(w, i, p, at);
    SendStep(w, i);
    AnswerStep(Do(w, ClientSends(i)), p, at, reply);
    ReplyMatches(w, i);
    MatchIsUnique(w.requests, reply, i);
    AwaitedReplyAdvances(w.requests, reply);
  }

  lemma ReplyMatches(w: World, i: nat)
    requires RequestsInv(w) && i < |w.requests| && Outgoing(w.requests[i]).Some?
    ensures var p := Outgoing(w.requests[i]).value; Matches(w.requests[i], p.(body := ReplyBody(p.body)))
    ensures forall j :: 0 <= j < |w.requests| ==> Expected(w.requests[j]).channel == j
  {
  }

  lemma {:induction false} ContinueConcat(w: World, a: seq<Step>, b: seq<Step>)
    ensures Continue(w, a + b) == Continue(Continue(w, a), b)
    decreases |b|
  {
    if b == [] {
      assert a + b == a;
    } else {
      assert (a + b)[..|a + b| - 1] == a + b[..|b| - 1];
      ContinueConcat(w, a, b[..|b| - 1]);
    }
  }

  lemma {:induction false} AfterContinues(ids: seq<(seq<nat>, seq<nat>)>, past: seq<Step>, steps: seq<Step>)
    ensures After(ids, past + steps) == Continue(After(ids, past), steps)
    decreases |steps|
  {
    if steps == [] {
      assert past + steps == past;
    } else {
      assert (past + steps)[..|past + steps| - 1] == past + steps[..|steps| - 1];
      AfterContinues(ids, past, steps[..|steps| - 1]);
    }
  }

  /** What the server's table has to be for it to answer request `i` in its phase. */
  ghost predicate Serves(t: Entries, r: Request) {
    && IdValid(r.old') && IdValid(r.current)
    && match r.phase
       case Initial => Opens(t, r.old')
       case Replacement => Opens(t, r.current)
       case Echo => Current(t, r.current) && t[r.current.channel].active
       case Closing => Current(t, r.current)
       case Done => true
  }

  /** A served request is answered, and served again in its next phase. */
  lemma ServedAgain(t: Entries, r: Request, at: nat)
    requires Serves(t, r) && Outgoing(r).Some?
    requires r.old'.body == Hello && r.current.body == Hello
    requires r.old'.channel == r.current.channel && r.old'.generation < r.current.generation
    ensures var p := Outgoing(r).value; var (t', reply) := Handle(t, p, at);
      && reply == Some(p.(body := ReplyBody(p.body)))
      && Serves(t', r.(phase := NextPhase(r.phase)))
      && (r.phase == Closing ==> Current(t', r.current) && !t'[r.current.channel].active)
  {
    HandleExactly(t, Outgoing(r).value, at);
  }

  function PhasesLeft(phase: Phase): nat {
    match phase
    case Initial => 4
    case Replacement => 3
    case Echo => 2
    case Closing => 1
    case Done => 0
  }

  lemma {:induction false} ServedToDone(w: World, i: nat, at: nat) returns (steps: seq<Step>)
    requires RequestsInv(w) && CLIENT in w.peers && i < |w.requests| && Serves(Table(w), w.requests[i])
    ensures Continue(w, steps).requests == w.requests[i := w.requests[i].(phase := Done)]
    decreases PhasesLeft(w.requests[i].phase)
  {
    var r := w.requests[i];
    if r.phase == Done {
      steps := [];
    } else {
      var p := Outgoing(r).value;
      ServedAgain(Table(w), r, at);
      ExchangeAdvances(w, i, at);
      var w' := Continue(w, Exchange(i, p, at));
      var rest := ServedToDone(w', i, at);
      steps := Exchange(i, p, at) + rest;
      ContinueConcat(w, Exchange(i, p, at), rest);
    }
  }

  /** From every reachable world in which the client is known and a channel is still unused, with room for it in the
      client's table, the request on that channel can be taken through all its phases to Done, without moving any
      other. */
  lemma RequestIsServed(ids: seq<(seq<nat>, seq<nat>)>, past: seq<Step>, i: nat, at: nat) returns (steps: seq<Step>)
    requires var w := After(ids, past);
      && i < |w.requests| && CLIENT in w.peers && w.requests[i].phase == Initial
      && IdValid(w.requests[i].old') && IdValid(w.requests[i].current)
      && i !in w.peers[CLIENT].sessions && |w.peers[CLIENT].sessions| < MAX_CHANNELS
    ensures var w := After(ids, past);
      After(ids, past + steps).requests == w.requests[i := w.requests[i].(phase := Done)]
  {
    InvHolds(ids, past);
    steps := ServedToDone(After(ids, past), i, at);
    AfterContinues(ids, past, steps);
  }

  /** In particular any request with valid identifiers can be served from the start, once the client has appeared. */
  lemma ServedFromTheStart(ids: seq<(seq<nat>, seq<nat>)>, i: nat, connection: nat, at: nat) returns (steps: seq<Step>)
    requires i < |ids| && 0 < |ids[i].0| <= MAX_ID && 0 < |ids[i].1| <= MAX_ID
    ensures var w := After(ids, steps);
      && |w.requests| == |ids| && w.requests[i].phase == Done
      && CLIENT in w.peers && i in w.peers[CLIENT].sessions && !w.peers[CLIENT].sessions[i].active
  {
    var appears: seq<Step> := [Step.PeerAppears(CLIENT, connection, at)];
    var start, w := After(ids, []), After(ids, appears);
    assert appears[..|appears| - 1] == [];
    assert w == Do(start, appears[0]);
    assert w.peers == map[CLIENT := Peer(connection, map[], at)] && w.requests == Requests(ids);
    var rest := RequestIsServed(ids, appears, i, at);
    steps := appears + rest;
    SessionAgreement(ids, steps, i);
  }
}
