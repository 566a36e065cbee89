/**
The receive loop of a UDP connection fed by a listener: skip and charge what is too large or malformed,
return the first packet that decodes, and wait when the queue runs dry. The peer may be closed at any turn;
that is noticed before the next datagram is taken, however many are queued.
*/
module ReadHalf {
  import opened LossyQueue
  import opened Options
  import opened Pipeline
  import opened Udp

  predicate Acceptable(d: Datagram, limit: nat) {
    d.size <= MAX_DATAGRAM_SIZE && d.size <= limit && d.packet.Some?
  }

  function Reason(d: Datagram, limit: nat): DropReason {
    if d.size > MAX_DATAGRAM_SIZE || d.size > limit then ReceiveLimit else MalformedPayload
  }

  function Reasons(ds: seq<Datagram>, limit: nat): Drops {
    if ds == [] then multiset{} else multiset{Reason(ds[0], limit)} + Reasons(ds[1..], limit)
  }

  /** `PeerClosed` and `SenderGone` are the errors of a closed peer and of a queue that can never fill again;
      `Waiting` is a call that has not returned yet. */
  datatype Result = Decoded(packet: nat) | PeerClosed | SenderGone | Waiting

  datatype Outcome = Outcome(incoming: Queue<Datagram>, drops: Drops, closed: bool, result: Result)

  /** What the loop makes of its queue and its counters if the peer is found closed at turn `closeAt`. */
  function Loop(q: Queue<Datagram>, drops: Drops, limit: nat, closeAt: nat): Outcome
    decreases closeAt
  {
    if closeAt == 0 then Outcome(q, drops, true, PeerClosed)
    else if q.items == [] then
      if q.senders == 0 || !q.open then Outcome(q, drops, true, SenderGone) else Outcome(q, drops, false, Waiting)
    else
      var d, rest := q.items[0].value, TryRecv(q, _ => true).0;
      if Acceptable(d, limit) then Outcome(rest, drops, false, Decoded(d.packet.value))
      else Loop(rest, Charged(drops, Reason(d, limit), 1), limit, closeAt - 1)
  }

  // ---------------------------------------------------------------------------------------------
  // What the loop returns
  // ---------------------------------------------------------------------------------------------

  /** `skipped` datagrams are gone, unacceptable and charged each for its own reason; all behind them are
      untouched, save the acceptable one whose packet is returned. */
  ghost predicate ReadsFirst(q: Queue<Datagram>, drops: Drops, limit: nat, closeAt: nat, r: Outcome, skipped: nat) {
    var values := Values(q.items);
    && skipped <= |values| && skipped <= closeAt
    && (forall i :: 0 <= i < skipped ==> !Acceptable(values[i], limit))
    && r.drops == drops + Reasons(values[..skipped], limit)
    && r.closed == (r.result.PeerClosed? || r.result.SenderGone?)
    && match r.result
       case Decoded(p) =>
         && skipped < |values| && skipped < closeAt
         && Acceptable(values[skipped], limit) && values[skipped].packet == Some(p)
         && r.incoming.items == q.items[skipped + 1..]
       case PeerClosed => skipped == closeAt && r.incoming.items == q.items[skipped..]
       case SenderGone => skipped == |values| < closeAt && r.incoming.items == [] && (q.senders == 0 || !q.open)
       case Waiting => skipped == |values| < closeAt && r.incoming.items == [] && q.senders > 0 && q.open
  }

  lemma SkipOne(drops: Drops, values: seq<Datagram>, n: nat, limit: nat)
    requires n < |values|
    ensures Charged(drops, Reason(values[0], limit), 1) + Reasons(values[1..][..n], limit)
         == drops + Reasons(values[..n + 1], limit)
  {
    assert values[..n + 1][1..] == values[1..][..n];
  }

  lemma SkipKeeps(q: Queue<Datagram>, drops: Drops, limit: nat, closeAt: nat, r: Outcome, n: nat)
    requires closeAt > 0 && q.items != [] && !Acceptable(q.items[0].value, limit)
    requires ReadsFirst(TryRecv(q, _ => true).0, Charged(drops, Reason(q.items[0].value, limit), 1), limit, closeAt - 1, r, n)
    ensures ReadsFirst(q, drops, limit, closeAt, r, n + 1)
  {
    var values, next := Values(q.items), TryRecv(q, _ => true).0;
    assert next.items == q.items[1..] && Values(next.items) == values[1..];
    SkipOne(drops, values, n, limit);
    forall i | 0 <= i < n + 1 ensures !Acceptable(values[i], limit) {
      if i > 0 { assert !Acceptable(Values(next.items)[i - 1], limit); }
    }
    assert next.items[n..] == q.items[n + 1..];
    assert n < |next.items| ==> next.items[n + 1..] == q.items[n + 2..];
  }

  /** The loop returns the first acceptable packet unless the peer is found closed before it, and loses nothing
      on the way. */
  lemma {:induction false} FirstAcceptable(q: Queue<Datagram>, drops: Drops, limit: nat, closeAt: nat)
      returns (skipped: nat)
    ensures ReadsFirst(q, drops, limit, closeAt, Loop(q, drops, limit, closeAt), skipped)
    decreases closeAt
  {
    skipped := 0;
    if closeAt > 0 && q.items != [] && !Acceptable(q.items[0].value, limit) {
      var rest, charged := TryRecv(q, _ => true).0, Charged(drops, Reason(q.items[0].value, limit), 1);
      var n := FirstAcceptable(rest, charged, limit, closeAt - 1);
      SkipKeeps(q, drops, limit, closeAt, Loop(rest, charged, limit, closeAt - 1), n);
      skipped := n + 1;
    }
  }

  // ---------------------------------------------------------------------------------------------
  // The loop is a run
  // ---------------------------------------------------------------------------------------------

  /** Read steps of a connection until it holds a packet, its queue is empty, or it is found closed. */
  function ReadOn(k: Conn, limit: nat, closeAt: nat): Conn
    requires k.stage.Reading?
    decreases closeAt
  {
    if closeAt == 0 || k.hand.Some? || k.raw.items == [] then k
    else ReadOn(ReaderEffect(k, ReadQueued(limit)), limit, closeAt - 1)
  }

  /** One read step: keep the packet of an acceptable datagram, or charge it. */
  lemma ReadStep(k: Conn, limit: nat)
    requires ReaderGuard(k, ReadQueued(limit))
    ensures var d := k.raw.items[0].value;
      ReaderEffect(k, ReadQueued(limit)) ==
        if Acceptable(d, limit) then k.(raw := TryRecv(k.raw, _ => true).0, hand := d.packet)
        else k.(raw := TryRecv(k.raw, _ => true).0, drops := Charged(k.drops, Reason(d, limit), 1))
  {
  }

  /** What the loop does to the queue and the counters is what those steps do to the connection. */
  lemma {:induction false} LoopIsReadOn(k: Conn, limit: nat, closeAt: nat)
    requires k.stage.Reading? && k.hand.None?
    ensures var r := Loop(k.raw, k.drops, limit, closeAt);
      ReadOn(k, limit, closeAt) ==
        k.(raw := r.incoming, drops := r.drops, hand := if r.result.Decoded? then Some(r.result.packet) else None)
    decreases closeAt
  {
    if closeAt > 0 && k.raw.items != [] {
      ReadStep(k, limit);
      if !Acceptable(k.raw.items[0].value, limit) {
        LoopIsReadOn(ReaderEffect(k, ReadQueued(limit)), limit, closeAt - 1);
      }
    }
  }

  function WithConn(s: State, c: nat, k: Conn): State
    requires c < |s.conns|
  {
    s.(conns := s.conns[c := k])
  }

  lemma OneRead(settings: Settings, past: seq<Step>, s: State, c: nat, limit: nat) returns (now: seq<Step>)
    requires Reached(settings, past, s) && c < |s.conns| && ReaderGuard(s.conns[c], ReadQueued(limit))
    ensures Reached(settings, now, WithConn(s, c, ReaderEffect(s.conns[c], ReadQueued(limit))))
  {
    now := past + [Reader(c, ReadQueued(limit))];
    assert now[..|now| - 1] == past;
  }

  lemma StillReading(k: Conn, limit: nat)
    requires ReaderGuard(k, ReadQueued(limit))
    ensures ReaderEffect(k, ReadQueued(limit)).stage.Reading?
  {
  }

  lemma SetTwice(s: State, c: nat, k: Conn, k': Conn)
    requires c < |s.conns|
    ensures WithConn(WithConn(s, c, k), c, k') == WithConn(s, c, k') && WithConn(s, c, s.conns[c]) == s
  {
  }

  /** And those steps are a run, whatever the rest of the endpoint looks like. */
  lemma {:induction false} LoopIsRun(
      settings: Settings, past: seq<Step>, s: State, c: nat, limit: nat, closeAt: nat, last: Conn)
      returns (now: seq<Step>)
    requires Reached(settings, past, s) && c < |s.conns| && s.conns[c].stage.Reading?
    requires last == ReadOn(s.conns[c], limit, closeAt)
    ensures Reached(settings, now, WithConn(s, c, last))
    decreases closeAt
  {
    var k := s.conns[c];
    if closeAt == 0 || k.hand.Some? || k.raw.items == [] {
      now := past;
      SetTwice(s, c, k, k);
    } else {
      var k' := ReaderEffect(k, ReadQueued(limit));
      StillReading(k, limit);
      now := OneRead(settings, past, s, c, limit);
      now := LoopIsRun(settings, now, WithConn(s, c, k'), c, limit, closeAt - 1, last);
      SetTwice(s, c, k', last);
    }
  }

  // ---------------------------------------------------------------------------------------------
  // In place
  // ---------------------------------------------------------------------------------------------

  class UdpReadHalf {
    var incoming: Queue<Datagram>
    var drops: Drops
    var closed: bool

    constructor (queue: Queue<Datagram>)
      ensures incoming == queue && drops == multiset{} && !closed
    {
      incoming, drops, closed := queue, multiset{}, false;
    }

    method CountDrop(reason: DropReason)
      modifies this`drops
      ensures drops == Charged(old(drops), reason, 1)
    {
      drops := Charged(drops, reason, 1);
    }

    /** One payload: its packet, or a charge. */
    method Judge(payload: Datagram, limit: nat) returns (packet: Option<nat>)
      modifies this`drops
      ensures packet == if Acceptable(payload, limit) then payload.packet else None
      ensures drops == if packet.Some? then old(drops) else Charged(old(drops), Reason(payload, limit), 1)
    {
      packet := None;
      if payload.size > MAX_DATAGRAM_SIZE {
        CountDrop(ReceiveLimit);
        return;
      }
      if payload.size > limit {
        CountDrop(ReceiveLimit);
        return;
      }
      packet := payload.packet;
      if packet.None? { CountDrop(MalformedPayload); }
    }

    /** `receive_with_timestamp`, up to the point where it would wait for the next datagram. Somebody else may
        close the peer: `closeAt` is the turn at which that is noticed, if the call gets so far. */
    method Receive(limit: nat, closeAt: nat) returns (result: Result)
      modifies this
      ensures Outcome(incoming, drops, closed, result)
           == Loop(old(incoming), old(drops), limit, if old(closed) then 0 else closeAt)
    {
      ghost var turns := if closed then 0 else closeAt;
      var turn := 0;
      while true
        invariant turn <= turns && closed == old(closed) && (closed || turns == closeAt)
        invariant Loop(incoming, drops, limit, turns - turn) == Loop(old(incoming), old(drops), limit, turns)
        decreases turns - turn
      {
        if closed || turn == closeAt {
          closed := true;
          return PeerClosed;
        }
        if incoming.items == [] {
          closed := incoming.senders == 0 || !incoming.open;
          return if closed then SenderGone else Waiting;
        }
        var payload := incoming.items[0].value;
        incoming := TryRecv(incoming, _ => true).0;
        var packet := Judge(payload, limit);
        if packet.Some? { return Decoded(packet.value); }
        turn := turn + 1;
      }
    }

    /** Dropping the tracked queue charges whatever was still waiting. */
    method Close(ghost k: Conn)
      requires k.raw == incoming && k.drops == drops
      modifies this
      ensures DropRaw(k).raw == incoming && DropRaw(k).drops == drops
    {
      var (queue, drained) := CloseAndDrain(incoming);
      assert |drained| == |k.raw.items|;
      incoming := queue;
      var i := 0;
      ChargedInTurn(drops, ClosedBeforeDelivery, 0);
      while i < |drained|
        invariant i <= |drained| && incoming == queue
        invariant drops == Charged(k.drops, ClosedBeforeDelivery, i)
      {
        ChargedInTurn(k.drops, ClosedBeforeDelivery, i);
        CountDrop(ClosedBeforeDelivery);
        i := i + 1;
      }
    }
  }
}
