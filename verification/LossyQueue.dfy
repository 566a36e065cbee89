/**
The bounded queue between network tasks and the ECS. It is bounded by item count and by byte
weight, and under `DropOldest` it evicts a prefix of its contents to admit a new item.

`Queue` is the state guarded by the source's mutex. Every locked section is a function on it;
the class `SharedQueue` runs the source's loops in place and is proved to compute those functions.
*/
module LossyQueue {

  datatype OverflowPolicy = DropNewest | DropOldest

  /** The limits a queue is created with. They never change. */
  datatype Limits = Limits(maxItems: nat, maxBytes: nat, policy: OverflowPolicy)

  datatype Item<T> = Item(value: T, weight: nat)

  datatype Queue<T> = Queue(items: seq<Item<T>>, bytes: nat, senders: nat, open: bool)

  datatype SendResult<T> = Sent(evicted: seq<T>) | Full(rejected: T) | Closed(returned: T)

  datatype RecvResult<T> = Received(value: T) | Empty | Disconnected

  function Weight<T>(items: seq<Item<T>>): nat {
    if items == [] then 0 else items[0].weight + Weight(items[1..])
  }

  function Values<T>(items: seq<Item<T>>): (values: seq<T>)
    ensures |values| == |items|
    ensures forall i :: 0 <= i < |items| ==> values[i] == items[i].value
  {
    seq(|items|, i requires 0 <= i < |items| => items[i].value)
  }

  lemma {:induction false} WeightAppend<T>(a: seq<Item<T>>, b: seq<Item<T>>)
    ensures Weight(a + b) == Weight(a) + Weight(b)
  {
    if a == [] {
      assert a + b == b;
    } else {
      assert (a + b)[1..] == a[1..] + b;
      WeightAppend(a[1..], b);
    }
  }

  lemma WeightSplit<T>(items: seq<Item<T>>, k: nat)
    requires k <= |items|
    ensures Weight(items[..k]) + Weight(items[k..]) == Weight(items)
  {
    WeightAppend(items[..k], items[k..]);
    assert items[..k] + items[k..] == items;
  }

  lemma WeightOfTail<T>(items: seq<Item<T>>, k: nat)
    requires k < |items|
    ensures Weight(items[k..]) == items[k].weight + Weight(items[k + 1..])
  {
    assert items[k..][1..] == items[k + 1..];
  }

  /** Whether one more item of the given weight respects both bounds. */
  predicate Fits<T>(limits: Limits, items: seq<Item<T>>, weight: nat) {
    |items| < limits.maxItems && Weight(items) + weight <= limits.maxBytes
  }

  /** Whether the item could be admitted into an empty queue. */
  predicate Admissible(limits: Limits, weight: nat) {
    limits.maxItems != 0 && weight <= limits.maxBytes
  }

  /** The number of oldest items whose removal first makes the new item fit. */
  function FirstFit<T>(limits: Limits, items: seq<Item<T>>, weight: nat): (k: nat)
    requires Admissible(limits, weight)
    ensures k <= |items|
    ensures Fits(limits, items[k..], weight)
    ensures forall j :: 0 <= j < k ==> !Fits(limits, items[j..], weight)
  {
    if Fits(limits, items, weight) then 0
    else
      var k := 1 + FirstFit(limits, items[1..], weight);
      assert items[1..][k - 1..] == items[k..];
      assert forall j :: 1 <= j < k ==> items[j..] == items[1..][j - 1..];
      k
  }

  predicate Evictable<T>(items: seq<Item<T>>, canEvict: T -> bool) {
    forall i :: 0 <= i < |items| ==> canEvict(items[i].value)
  }

  /** Whether removing some fully evictable prefix makes the item fit. */
  ghost predicate CanMakeRoom<T>(limits: Limits, items: seq<Item<T>>, weight: nat, canEvict: T -> bool) {
    exists k :: 0 <= k <= |items| && Fits(limits, items[k..], weight) && Evictable(items[..k], canEvict)
  }

  // ---------------------------------------------------------------------------------------------
  // The locked sections
  // ---------------------------------------------------------------------------------------------

  function Push<T>(q: Queue<T>, value: T, weight: nat): Queue<T> {
    q.(items := q.items + [Item(value, weight)], bytes := q.bytes + weight)
  }

  /** `try_send_where`: admit now, evicting a prefix under `DropOldest`, or reject. */
  function Offer<T>(limits: Limits, q: Queue<T>, value: T, weight: nat, canEvict: T -> bool)
    : (Queue<T>, SendResult<T>)
  {
    if !q.open then (q, Closed(value))
    else if !Admissible(limits, weight) then (q, Full(value))
    else
      var k := FirstFit(limits, q.items, weight);
      if k == 0 then (Push(q, value, weight), Sent([]))
      else if limits.policy == DropNewest || !Evictable(q.items[..k], canEvict) then (q, Full(value))
      else
        var kept := q.items[k..];
        (Push(q.(items := kept, bytes := Weight(kept)), value, weight), Sent(Values(q.items[..k])))
  }

  /** `try_send`: every queued item may be evicted. */
  function TrySend<T>(limits: Limits, q: Queue<T>, value: T, weight: nat): (Queue<T>, SendResult<T>) {
    Offer(limits, q, value, weight, _ => true)
  }

  /** One pass of `send` under the lock; `Full` means the sender has to wait. */
  function SendAttempt<T>(limits: Limits, q: Queue<T>, value: T, weight: nat): (Queue<T>, SendResult<T>) {
    if !q.open then (q, Closed(value))
    else if Fits(limits, q.items, weight) then (Push(q, value, weight), Sent([]))
    else (q, Full(value))
  }

  /** `try_recv_if`: take the front item if `ready` accepts it. */
  function TryRecv<T>(q: Queue<T>, ready: T -> bool): (Queue<T>, RecvResult<T>) {
    if q.items != [] && ready(q.items[0].value) then
      (q.(items := q.items[1..], bytes := Weight(q.items[1..])), Received(q.items[0].value))
    else if q.items == [] && (q.senders == 0 || !q.open) then (q, Disconnected)
    else (q, Empty)
  }

  /** `close_and_drain`. */
  function CloseAndDrain<T>(q: Queue<T>): (Queue<T>, seq<T>) {
    (Queue([], 0, q.senders, false), Values(q.items))
  }

  // ---------------------------------------------------------------------------------------------
  // What every state satisfies, over whole runs
  // ---------------------------------------------------------------------------------------------

  ghost predicate WellFormed<T>(limits: Limits, q: Queue<T>) {
    && q.bytes == Weight(q.items)
    && |q.items| <= limits.maxItems
    && q.bytes <= limits.maxBytes
    && (!q.open ==> q.items == [])
  }

  /** Eviction is all-or-nothing and minimal: the item is admitted exactly when some fully evictable
      prefix makes room, what leaves is the shortest prefix that makes room, and a refusal changes nothing. */
  lemma EvictionIsMinimal<T>(limits: Limits, q: Queue<T>, value: T, weight: nat, canEvict: T -> bool)
    requires q.open && limits.policy == DropOldest
    ensures var (q', r) := Offer(limits, q, value, weight, canEvict);
      && (r.Sent? <==> Admissible(limits, weight) && CanMakeRoom(limits, q.items, weight, canEvict))
      && (r.Sent? ==>
          && |r.evicted| <= |q.items|
          && r.evicted == Values(q.items[..|r.evicted|])
          && q'.items == q.items[|r.evicted|..] + [Item(value, weight)]
          && Fits(limits, q.items[|r.evicted|..], weight)
          && forall j :: 0 <= j < |r.evicted| ==> !Fits(limits, q.items[j..], weight))
      && (!r.Sent? ==> q' == q && r == Full(value))
  {
    if Admissible(limits, weight) {
      var first := FirstFit(limits, q.items, weight);
      assert q.items[0..] == q.items;
      assert Evictable(q.items[..0], canEvict);
      forall k | 0 <= k <= |q.items| && Fits(limits, q.items[k..], weight) && Evictable(q.items[..k], canEvict)
        ensures Evictable(q.items[..first], canEvict)
      {
        assert first <= k;
        assert forall i :: 0 <= i < first ==> q.items[..first][i] == q.items[..k][i];
      }
    }
  }

  /** `after` is `before` without its shortest prefix of `n` items that makes room, with the new item behind. */
  ghost predicate Admission<T>(limits: Limits, before: seq<Item<T>>, item: Item<T>, after: seq<Item<T>>, n: nat) {
    && n <= |before| && after == before[n..] + [item]
    && Fits(limits, before[n..], item.weight)
    && forall j :: 0 <= j < n ==> !Fits(limits, before[j..], item.weight)
  }

  /** A non-waiting send without protected items, in full: refused if closed; otherwise admitted exactly if the
      item can ever be queued and there is room or the oldest may go; an item with room evicts nothing. */
  lemma TrySendExactly<T>(limits: Limits, q: Queue<T>, value: T, weight: nat)
    ensures var (q', r) := TrySend(limits, q, value, weight);
      && (r == Closed(value) <==> !q.open)
      && (r.Sent? <==> q.open && Admissible(limits, weight) && (limits.policy == DropOldest || Fits(limits, q.items, weight)))
      && (r.Sent? ==>
          && Admission(limits, q.items, Item(value, weight), q'.items, |r.evicted|)
          && r.evicted == Values(q.items[..|r.evicted|]))
      && (r.Sent? && Fits(limits, q.items, weight) ==> r.evicted == [] && q'.items == q.items + [Item(value, weight)])
      && (!r.Sent? ==> q' == q && (q.open ==> r == Full(value)))
  {
    assert q.items[0..] == q.items;
    if q.open && Admissible(limits, weight) {
      var first := FirstFit(limits, q.items, weight);
      assert Fits(limits, q.items, weight) ==> first == 0;
    }
  }

  /** One pass of a waiting send: it never evicts, and goes through exactly if the queue is open with room. */
  lemma SendExactly<T>(limits: Limits, q: Queue<T>, value: T, weight: nat)
    ensures var (q', r) := SendAttempt(limits, q, value, weight);
      && (r.Sent? <==> q.open && Fits(limits, q.items, weight))
      && (r.Sent? ==> r.evicted == [] && q'.items == q.items + [Item(value, weight)])
      && (r == Closed(value) <==> !q.open) && (!r.Sent? ==> q' == q && (q.open ==> r == Full(value)))
  {
  }

  /** A conditional receive takes the front item exactly if there is one and it is ready, reports the end exactly
      when nothing can come any more, and otherwise leaves the queue alone. */
  lemma TryRecvExactly<T>(q: Queue<T>, ready: T -> bool)
    ensures var (q', r) := TryRecv(q, ready);
      && (r.Received? <==> q.items != [] && ready(q.items[0].value))
      && (r.Received? ==> r.value == q.items[0].value && q'.items == q.items[1..])
      && (r.Disconnected? <==> q.items == [] && (q.senders == 0 || !q.open))
      && (!r.Received? ==> q' == q)
  {
  }

  /** Closing hands out everything that was queued, in order; afterwards every send is refused as closed and every
      receive reports the end. */
  lemma ClosedForGood<T>(limits: Limits, q: Queue<T>, value: T, weight: nat, ready: T -> bool, canEvict: T -> bool)
    ensures var (q', drained) := CloseAndDrain(q);
      && |drained| == |q.items| && (forall i :: 0 <= i < |drained| ==> drained[i] == q.items[i].value)
      && Offer(limits, q', value, weight, canEvict) == (q', Closed(value))
      && SendAttempt(limits, q', value, weight) == (q', Closed(value))
      && TryRecv(q', ready) == (q', Disconnected)
  {
  }

  /** Rejecting the newest item never touches what is queued, and rejects only when there is no room. */
  lemma DropNewestNeverEvicts<T>(limits: Limits, q: Queue<T>, value: T, weight: nat, canEvict: T -> bool)
    requires q.open && limits.policy == DropNewest
    ensures var (q', r) := Offer(limits, q, value, weight, canEvict);
      if Fits(limits, q.items, weight) then r == Sent([]) && q'.items == q.items + [Item(value, weight)]
      else r == Full(value) && q' == q
  {
    if Admissible(limits, weight) {
      var first := FirstFit(limits, q.items, weight);
      assert q.items[0..] == q.items;
    }
  }

  datatype Operation<!T> =
    | OfferOp(value: T, weight: nat, canEvict: T -> bool)
    | SendAttemptOp(value: T, weight: nat)
    | TryRecvOp(ready: T -> bool)
    | CloseOp
    | CloneSenderOp
    | DropSenderOp

  /** What was ever accepted, and what left (delivered, evicted or drained) in the order it left. */
  datatype History<T> = History(accepted: seq<T>, departed: seq<T>)

  function Apply<T>(limits: Limits, q: Queue<T>, h: History<T>, op: Operation<T>): (Queue<T>, History<T>) {
    match op
    case OfferOp(value, weight, canEvict) =>
      var (q', r) := Offer(limits, q, value, weight, canEvict);
      (q', if r.Sent? then History(h.accepted + [value], h.departed + r.evicted) else h)
    case SendAttemptOp(value, weight) =>
      var (q', r) := SendAttempt(limits, q, value, weight);
      (q', if r.Sent? then h.(accepted := h.accepted + [value]) else h)
    case TryRecvOp(ready) =>
      var (q', r) := TryRecv(q, ready);
      (q', if r.Received? then h.(departed := h.departed + [r.value]) else h)
    case CloseOp =>
      var (q', drained) := CloseAndDrain(q);
      (q', h.(departed := h.departed + drained))
    case CloneSenderOp => (q.(senders := q.senders + 1), h)
    case DropSenderOp => (if q.senders > 0 then q.(senders := q.senders - 1) else q, h)
  }

  function Run<T>(limits: Limits, ops: seq<Operation<T>>): (Queue<T>, History<T>) {
    if ops == [] then (Queue([], 0, 1, true), History([], []))
    else
      var (q, h) := Run(limits, ops[..|ops| - 1]);
      Apply(limits, q, h, ops[|ops| - 1])
  }

  /** Operations move items and nothing else does: what is accepted comes from a send that went through, what departs
      was received, evicted or drained; cloning and dropping senders only counts them. */
  lemma HistoryRecords<T>(limits: Limits, q: Queue<T>, h: History<T>, op: Operation<T>)
    ensures var (q', h') := Apply(limits, q, h, op);
      match op
      case OfferOp(value, weight, canEvict) =>
        var r := Offer(limits, q, value, weight, canEvict).1;
        && h'.accepted == h.accepted + (if r.Sent? then [value] else [])
        && h'.departed == h.departed + (if r.Sent? then r.evicted else [])
      case SendAttemptOp(value, weight) =>
        h' == h.(accepted := h.accepted + (if q.open && Fits(limits, q.items, weight) then [value] else []))
      case TryRecvOp(ready) =>
        h' == h.(departed := h.departed + (if q.items != [] && ready(q.items[0].value) then [q.items[0].value] else []))
      case CloseOp => !q'.open && h' == h.(departed := h.departed + Values(q.items))
      case CloneSenderOp => q' == q.(senders := q.senders + 1) && h' == h
      case DropSenderOp => (q.senders > 0 ==> q' == q.(senders := q.senders - 1)) && h' == h
  {
    assert h.accepted + [] == h.accepted && h.departed + [] == h.departed;
  }

  lemma PushKeeps<T>(limits: Limits, q: Queue<T>, value: T, weight: nat)
    requires WellFormed(limits, q) && q.open && Fits(limits, q.items, weight)
    ensures WellFormed(limits, Push(q, value, weight))
    ensures Values(Push(q, value, weight).items) == Values(q.items) + [value]
  {
    WeightAppend(q.items, [Item(value, weight)]);
  }

  /** An admission lets go of a prefix and appends the new item: order is kept, nothing else moves. */
  lemma AdmissionOrder<T>(limits: Limits, q: Queue<T>, value: T, weight: nat, canEvict: T -> bool)
    ensures var (q', r) := Offer(limits, q, value, weight, canEvict);
      && (r.Sent? ==> q.open && r.evicted + Values(q'.items) == Values(q.items) + [value])
      && (!r.Sent? ==> q' == q)
  {
    var (q', r) := Offer(limits, q, value, weight, canEvict);
    if r.Sent? {
      var k := FirstFit(limits, q.items, weight);
      assert q.items[0..] == q.items;
      assert q'.items == q.items[k..] + [Item(value, weight)];
      assert r.evicted == Values(q.items[..k]);
    }
  }

  lemma TrySendOrder<T>(limits: Limits, q: Queue<T>, value: T, weight: nat)
    ensures var (q', r) := TrySend(limits, q, value, weight);
      && (r.Sent? ==> q.open && r.evicted + Values(q'.items) == Values(q.items) + [value])
      && (r.Sent? ==> |r.evicted| + |q'.items| == |q.items| + 1)
      && (!r.Sent? ==> q' == q)
  {
    AdmissionOrder(limits, q, value, weight, _ => true);
    var (q', r) := TrySend(limits, q, value, weight);
    if r.Sent? { assert |r.evicted + Values(q'.items)| == |Values(q.items) + [value]|; }
  }

  lemma OfferKeeps<T>(limits: Limits, q: Queue<T>, value: T, weight: nat, canEvict: T -> bool)
    requires WellFormed(limits, q)
    ensures var (q', r) := Offer(limits, q, value, weight, canEvict);
      && WellFormed(limits, q')
      && q'.open == q.open && q'.senders == q.senders
      && (r.Sent? ==> q.open && Values(q.items) + [value] == r.evicted + Values(q'.items))
      && (!r.Sent? ==> q' == q)
  {
    AdmissionOrder(limits, q, value, weight, canEvict);
    if Offer(limits, q, value, weight, canEvict).1.Sent? {
      var k := FirstFit(limits, q.items, weight);
      WeightSplit(q.items, k);
      assert q.items[0..] == q.items;
      PushKeeps(limits, q.(items := q.items[k..], bytes := Weight(q.items[k..])), value, weight);
    }
  }

  lemma TryRecvKeeps<T>(limits: Limits, q: Queue<T>, ready: T -> bool)
    requires WellFormed(limits, q)
    ensures var (q', r) := TryRecv(q, ready);
      && WellFormed(limits, q')
      && q'.open == q.open && q'.senders == q.senders
      && (r.Received? ==> Values(q.items) == [r.value] + Values(q'.items))
      && (!r.Received? ==> q' == q)
  {
  }

  ghost predicate Consistent<T>(limits: Limits, q: Queue<T>, h: History<T>) {
    WellFormed(limits, q) && h.accepted == h.departed + Values(q.items)
  }

  lemma OfferKeepsHistory<T>(limits: Limits, q: Queue<T>, h: History<T>, value: T, weight: nat, canEvict: T -> bool)
    requires Consistent(limits, q, h)
    ensures var (q', h') := Apply(limits, q, h, OfferOp(value, weight, canEvict)); Consistent(limits, q', h')
  {
    OfferKeeps(limits, q, value, weight, canEvict);
    var (q', r) := Offer(limits, q, value, weight, canEvict);
    if r.Sent? {
      assert h.accepted + [value] == h.departed + (Values(q.items) + [value]);
      assert h.departed + (r.evicted + Values(q'.items)) == h.departed + r.evicted + Values(q'.items);
    }
  }

  lemma ApplyKeepsHistory<T>(limits: Limits, q: Queue<T>, h: History<T>, op: Operation<T>)
    requires Consistent(limits, q, h) && !op.OfferOp?
    ensures var (q', h') := Apply(limits, q, h, op); Consistent(limits, q', h')
  {
    if op.SendAttemptOp? {
      if q.open && Fits(limits, q.items, op.weight) {
        PushKeeps(limits, q, op.value, op.weight);
        assert h.accepted + [op.value] == h.departed + (Values(q.items) + [op.value]);
      }
    } else if op.TryRecvOp? {
      TryRecvKeeps(limits, q, op.ready);
      var (q', r) := TryRecv(q, op.ready);
      if r.Received? { assert h.departed + ([r.value] + Values(q'.items)) == h.departed + [r.value] + Values(q'.items); }
    }
  }

  /** In every reachable state: nothing is lost, reordered or duplicated, both bounds hold, the byte
      total is exact and a closed queue is empty. */
  lemma {:induction false} HistoryTheorem<T>(limits: Limits, ops: seq<Operation<T>>)
    ensures var (q, h) := Run(limits, ops);
      && WellFormed(limits, q)
      && h.accepted == h.departed + Values(q.items)
  {
    if ops != [] {
      var prefix, op := ops[..|ops| - 1], ops[|ops| - 1];
      HistoryTheorem(limits, prefix);
      var (q, h) := Run(limits, prefix);
      if op.OfferOp? { OfferKeepsHistory(limits, q, h, op.value, op.weight, op.canEvict); }
      else { ApplyKeepsHistory(limits, q, h, op); }
    }
  }

  // ---------------------------------------------------------------------------------------------
  // The source's loops, in place
  // ---------------------------------------------------------------------------------------------

  ghost predicate NoFitBefore<T>(limits: Limits, items: seq<Item<T>>, weight: nat, k: nat)
    requires k <= |items|
  {
    forall j :: 0 <= j < k ==> !Fits(limits, items[j..], weight)
  }

  lemma FinishedScan<T>(limits: Limits, items: seq<Item<T>>, weight: nat, k: nat)
    requires Admissible(limits, weight) && k <= |items| && NoFitBefore(limits, items, weight, k)
    requires Fits(limits, items[k..], weight)
    ensures k == FirstFit(limits, items, weight)
  {
    var first := FirstFit(limits, items, weight);
    assert !(first < k) && !(k < first);
  }

  lemma BlockedScan<T>(limits: Limits, items: seq<Item<T>>, weight: nat, canEvict: T -> bool, k: nat)
    requires Admissible(limits, weight) && k < |items| && NoFitBefore(limits, items, weight, k + 1)
    requires !canEvict(items[k].value)
    ensures !Evictable(items[..FirstFit(limits, items, weight)], canEvict)
  {
    var first := FirstFit(limits, items, weight);
    assert !(first <= k);
    assert items[..first][k] == items[k];
  }

  lemma NoFitYet<T>(limits: Limits, items: seq<Item<T>>, weight: nat, k: nat)
    requires k < |items| && NoFitBefore(limits, items, weight, k) && !Fits(limits, items[k..], weight)
    ensures NoFitBefore(limits, items, weight, k + 1)
  {
  }

  /** The source's scan under `DropOldest`: count how many oldest items must go, stopping at a protected one. */
  method ScanOldest<T>(limits: Limits, items: seq<Item<T>>, bytes: nat, weight: nat, canEvict: T -> bool)
    returns (count: nat, remainingBytes: nat, blocked: bool)
    requires Admissible(limits, weight) && bytes == Weight(items)
    ensures count <= |items| && NoFitBefore(limits, items, weight, count)
    ensures forall i :: 0 <= i < count ==> canEvict(items[i].value)
    ensures remainingBytes == Weight(items[count..])
    ensures blocked ==> count < |items| && !Fits(limits, items[count..], weight) && !canEvict(items[count].value)
    ensures !blocked ==> Fits(limits, items[count..], weight)
  {
    var remainingItems := |items|;
    remainingBytes, count, blocked := bytes, 0, false;
    assert items[0..] == items;
    while count < |items| && !(remainingItems < limits.maxItems && remainingBytes <= limits.maxBytes - weight)
      invariant 0 <= count <= |items|
      invariant remainingItems == |items| - count
      invariant remainingBytes == Weight(items[count..])
      invariant NoFitBefore(limits, items, weight, count)
      invariant forall i :: 0 <= i < count ==> canEvict(items[i].value)
    {
      assert !Fits(limits, items[count..], weight);
      if !canEvict(items[count].value) {
        return count, remainingBytes, true;
      }
      WeightOfTail(items, count);
      NoFitYet(limits, items, weight, count);
      remainingItems := remainingItems - 1;
      remainingBytes := remainingBytes - items[count].weight;
      count := count + 1;
    }
  }

  /** `Shared` with its lock held. */
  class SharedQueue<T> {
    const limits: Limits
    var items: seq<Item<T>>
    var bytes: nat
    var senders: nat
    var open: bool

    ghost function Model(): Queue<T>
      reads this
    {
      Queue(items, bytes, senders, open)
    }

    ghost predicate Valid()
      reads this
    {
      WellFormed(limits, Model())
    }

    constructor (limits: Limits)
      ensures Valid() && this.limits == limits && Model() == Queue([], 0, 1, true)
    {
      this.limits := limits;
      items, bytes, senders, open := [], 0, 1, true;
    }

    /** Make room for an item under `DropOldest`: evict what the scan found, or nothing at all. */
    method EvictOldest(weight: nat, canEvict: T -> bool) returns (evicted: seq<T>, blocked: bool)
      requires Valid() && Admissible(limits, weight)
      modifies `items, `bytes
      ensures var k := FirstFit(limits, old(items), weight);
        && blocked == !Evictable(old(items)[..k], canEvict)
        && (blocked ==> items == old(items) && bytes == old(bytes))
        && (!blocked ==> evicted == Values(old(items)[..k]) && items == old(items)[k..] && bytes == Weight(items))
    {
      evicted := [];
      var count, remainingBytes;
      count, remainingBytes, blocked := ScanOldest(limits, items, bytes, weight, canEvict);
      if blocked {
        BlockedScan(limits, items, weight, canEvict, count);
      } else {
        FinishedScan(limits, items, weight, count);
        evicted := Values(items[..count]);
        items := items[count..];
        bytes := remainingBytes;
      }
    }

    /** Evict if the policy allows it, check capacity and push. Under `DropOldest` the check never fails. */
    method TrySendWhere(value: T, weight: nat, canEvict: T -> bool) returns (r: SendResult<T>)
      requires Valid()
      modifies this
      ensures Valid()
      ensures (Model(), r) == Offer(limits, old(Model()), value, weight, canEvict)
    {
      if !open { return Closed(value); }
      if limits.maxItems == 0 || weight > limits.maxBytes { return Full(value); }
      assert items[0..] == items;
      OfferKeeps(limits, Model(), value, weight, canEvict);
      var evicted: seq<T> := [];
      if limits.policy == DropOldest {
        var blocked;
        evicted, blocked := EvictOldest(weight, canEvict);
        if blocked { return Full(value); }
      }
      if |items| >= limits.maxItems || bytes > limits.maxBytes - weight {
        assert limits.policy == DropNewest;
        return Full(value);
      }
      bytes := bytes + weight;
      items := items + [Item(value, weight)];
      r := Sent(evicted);
    }

    /** The entry check of `send` and one pass of its loop; `wait` tells whether it goes on to park. */
    method SendPass(value: T, weight: nat) returns (r: SendResult<T>, wait: bool)
      requires Valid()
      modifies this
      ensures Valid()
      ensures wait <==> Admissible(limits, weight) && r.Full?
      ensures (Model(), r) ==
        if Admissible(limits, weight) then SendAttempt(limits, old(Model()), value, weight) else (old(Model()), Full(value))
    {
      if limits.maxItems == 0 || weight > limits.maxBytes { return Full(value), false; }
      if !open { return Closed(value), false; }
      if |items| < limits.maxItems && bytes <= limits.maxBytes - weight {
        PushKeeps(limits, Model(), value, weight);
        bytes := bytes + weight;
        items := items + [Item(value, weight)];
        return Sent([]), false;
      }
      return Full(value), true;
    }

    method TryRecvIf(ready: T -> bool) returns (r: RecvResult<T>)
      requires Valid()
      modifies this
      ensures Valid()
      ensures (Model(), r) == TryRecv(old(Model()), ready)
      ensures r.Received? <==> old(items) != [] && ready(old(items)[0].value)
      ensures if r.Received? then r.value == old(items)[0].value && items == old(items)[1..] else items == old(items)
    {
      if items != [] && ready(items[0].value) {
        r := Received(items[0].value);
        bytes := bytes - items[0].weight;
        items := items[1..];
        return;
      }
      r := if items == [] && (senders == 0 || !open) then Disconnected else Empty;
    }

    method CloseAndDrainAll() returns (drained: seq<T>)
      requires Valid()
      modifies this
      ensures Valid()
      ensures (Model(), drained) == CloseAndDrain(old(Model()))
    {
      drained := Values(items);
      open, bytes, items := false, 0, [];
    }
  }
}
