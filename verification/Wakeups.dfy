/**
The wakeup protocol of the lossy queue: senders and the receiver wait on two `Notify` objects, and
every notification is issued after the lock is released. A run is any interleaving of the atomic
steps between locks, notifications and parking.

`Notify` is modelled as a stored permit, a counter of `notify_waiters` calls and the waiters.
`notify_one` may pick any waiter, of which the library's first-in-first-out choice is one.
*/
module Wakeups {
  import opened LossyQueue
  import opened Options

  datatype Signal = NotYet | One | All

  /** Where a waiting call is in its loop. `woken` remembers a notification that has been consumed
      but not yet acted on by taking the lock. */
  datatype Waiter =
    | Idle                                // not inside send or recv
    | Looping(woken: bool)                // at the top of the loop
    | Created(epoch: nat, woken: bool)    // future created, not enabled
    | Armed(signal: Signal, woken: bool)  // enabled and pending, about to take the lock
    | Ready                               // the future completed when it was enabled
    | Parked(signal: Signal)              // found nothing to do, awaiting the future

  datatype Notify = Notify(permit: bool, epoch: nat, waiters: seq<Waiter>)

  predicate Unnotified(w: Waiter) {
    (w.Armed? || w.Parked?) && w.signal == NotYet
  }

  predicate HasUnnotified(n: Notify) {
    exists t :: 0 <= t < |n.waiters| && Unnotified(n.waiters[t])
  }

  function WithSignal(w: Waiter, signal: Signal): Waiter {
    match w
    case Armed(_, woken) => Armed(signal, woken)
    case Parked(_) => Parked(signal)
    case _ => w
  }

  function SetWaiter(n: Notify, t: nat, w: Waiter): Notify
    requires t < |n.waiters|
  {
    n.(waiters := n.waiters[t := w])
  }

  /** `enable`: complete at once if a permit is stored or a broadcast came since creation. A stored permit is
      taken first, except one that is stored (`raced`) after the look at the permit and before that at the
      broadcasts. */
  function Enable(n: Notify, t: nat, raced: bool): Notify
    requires t < |n.waiters| && n.waiters[t].Created?
  {
    var w := n.waiters[t];
    if n.permit && !(raced && w.epoch != n.epoch) then SetWaiter(n.(permit := false), t, Ready)
    else if w.epoch != n.epoch then SetWaiter(n, t, Ready)
    else SetWaiter(n, t, Armed(NotYet, w.woken))
  }

  /** `notify_one`: wake a waiter, or store the single permit. */
  function NotifyOne(n: Notify, target: nat): Notify {
    if target < |n.waiters| && Unnotified(n.waiters[target]) then
      SetWaiter(n, target, WithSignal(n.waiters[target], One))
    else n.(permit := true)
  }

  predicate ValidTarget(n: Notify, target: nat) {
    HasUnnotified(n) ==> target < |n.waiters| && Unnotified(n.waiters[target])
  }

  function NotifyWaiters(n: Notify): Notify {
    Notify(n.permit, n.epoch + 1,
           seq(|n.waiters|, t requires 0 <= t < |n.waiters| =>
             if Unnotified(n.waiters[t]) then WithSignal(n.waiters[t], All) else n.waiters[t]))
  }

  /** Dropping a waiting future: an unused `notify_one` is handed on, a broadcast is not. */
  function Leave(n: Notify, t: nat, next: Waiter, target: nat): Notify
    requires t < |n.waiters|
  {
    var w := n.waiters[t];
    var left := SetWaiter(n, t, next);
    if (w.Armed? || w.Parked?) && w.signal == One then NotifyOne(left, target) else left
  }

  // ---------------------------------------------------------------------------------------------
  // The system
  // ---------------------------------------------------------------------------------------------

  /** `pushed`, `popped`, `hungUp` and `closing` count threads that have released the lock and not yet
      issued, respectively, `changed.notify_one`, `space.notify_one`, `changed.notify_waiters` and
      `space.notify_waiters`. The receiver is the only waiter on `changed`. */
  datatype System = System(
    queue: Queue<nat>, changed: Notify, space: Notify,
    pushed: nat, popped: nat, hungUp: nat, closing: nat)

  datatype Step =
    | OfferStep(value: nat, canEvict: nat -> bool)
    | CloneSender | DropSender
    | EnterSend(t: nat) | CreateSend(t: nat) | EnableSend(t: nat, raced: bool)
    | CheckSend(t: nat, value: nat, target: nat)
    | WakeSend(t: nat) | CancelSend(t: nat, target: nat)
    | EnterRecv | CreateRecv | EnableRecv(raced: bool) | CheckRecv | WakeRecv | CancelRecv
    | TryRecvStep(ready: nat -> bool)
    | CloseStep
    | IssueChangedOne | IssueSpaceOne(target: nat) | IssueChangedAll | IssueSpaceAll

  const RECEIVER: nat := 0

  predicate WellSized(s: System) { |s.changed.waiters| == 1 }

  function Sender(s: System, t: nat): Waiter { if t < |s.space.waiters| then s.space.waiters[t] else Idle }

  function Receiver(s: System): Waiter
    requires WellSized(s)
  {
    s.changed.waiters[RECEIVER]
  }

  predicate Checking(w: Waiter) { w.Armed? || w.Ready? }

  /** The waiter after its check found nothing to do. */
  function AfterFruitlessCheck(w: Waiter): Waiter {
    if w.Armed? then Parked(w.signal) else Looping(false)
  }

  predicate Enabled(limits: Limits, s: System, step: Step)
    requires WellSized(s)
  {
    match step
    case OfferStep(_, _) => s.queue.senders > 0
    case CloneSender => s.queue.senders > 0
    case DropSender => s.queue.senders > 0
    case EnterSend(t) => Admissible(limits, 1) && t < |s.space.waiters| && s.space.waiters[t].Idle?
    case CreateSend(t) => Sender(s, t).Looping?
    case EnableSend(t, _) => Sender(s, t).Created?
    case CheckSend(t, _, target) =>
      t < |s.space.waiters| && Checking(s.space.waiters[t]) && ValidTarget(SetWaiter(s.space, t, Idle), target)
    case WakeSend(t) => Sender(s, t).Parked? && Sender(s, t).signal != NotYet
    case CancelSend(t, target) =>
      t < |s.space.waiters| && s.space.waiters[t].Parked? && ValidTarget(SetWaiter(s.space, t, Idle), target)
    case EnterRecv => Receiver(s).Idle?
    case CreateRecv => Receiver(s).Looping?
    case EnableRecv(_) => Receiver(s).Created?
    case CheckRecv => Checking(Receiver(s))
    case WakeRecv => Receiver(s).Parked? && Receiver(s).signal != NotYet
    case CancelRecv => Receiver(s).Parked?
    case TryRecvStep(_) => Receiver(s).Idle?
    case CloseStep => Receiver(s).Idle?
    case IssueChangedOne => s.pushed > 0
    case IssueSpaceOne(target) => s.popped > 0 && ValidTarget(s.space, target)
    case IssueChangedAll => s.hungUp > 0
    case IssueSpaceAll => s.closing > 0
  }

  function Do(limits: Limits, s: System, step: Step): System
    requires WellSized(s) && Enabled(limits, s, step)
  {
    match step
    case OfferStep(value, canEvict) =>
      var (q, r) := Offer(limits, s.queue, value, 1, canEvict);
      s.(queue := q, pushed := if r.Sent? then s.pushed + 1 else s.pushed)
    case CloneSender => s.(queue := s.queue.(senders := s.queue.senders + 1))
    case DropSender =>
      var q := s.queue.(senders := s.queue.senders - 1);
      s.(queue := q, hungUp := if q.senders == 0 then s.hungUp + 1 else s.hungUp)
    case EnterSend(t) => s.(space := SetWaiter(s.space, t, Looping(false)))
    case CreateSend(t) => s.(space := SetWaiter(s.space, t, Created(s.space.epoch, Sender(s, t).woken)))
    case EnableSend(t, raced) => s.(space := Enable(s.space, t, raced))
    case CheckSend(t, value, target) =>
      var (q, r) := SendAttempt(limits, s.queue, value, 1);
      if r.Full? then s.(space := SetWaiter(s.space, t, AfterFruitlessCheck(Sender(s, t))))
      else s.(queue := q, space := Leave(s.space, t, Idle, target),
              pushed := if r.Sent? then s.pushed + 1 else s.pushed)
    case WakeSend(t) => s.(space := SetWaiter(s.space, t, Looping(true)))
    case CancelSend(t, target) => s.(space := Leave(s.space, t, Idle, target))
    case EnterRecv => s.(changed := SetWaiter(s.changed, RECEIVER, Looping(false)))
    case CreateRecv =>
      s.(changed := SetWaiter(s.changed, RECEIVER, Created(s.changed.epoch, Receiver(s).woken)))
    case EnableRecv(raced) => s.(changed := Enable(s.changed, RECEIVER, raced))
    case CheckRecv =>
      var (q, r) := TryRecv(s.queue, _ => true);
      if r.Empty? then s.(changed := SetWaiter(s.changed, RECEIVER, AfterFruitlessCheck(Receiver(s))))
      else s.(queue := q, changed := Leave(s.changed, RECEIVER, Idle, RECEIVER),
              popped := if r.Received? then s.popped + 1 else s.popped)
    case WakeRecv => s.(changed := SetWaiter(s.changed, RECEIVER, Looping(true)))
    case CancelRecv => s.(changed := Leave(s.changed, RECEIVER, Idle, RECEIVER))
    case TryRecvStep(ready) =>
      var (q, r) := TryRecv(s.queue, ready);
      s.(queue := q, popped := if r.Received? then s.popped + 1 else s.popped)
    case CloseStep => s.(queue := CloseAndDrain(s.queue).0, hungUp := s.hungUp + 1, closing := s.closing + 1)
    case IssueChangedOne => s.(pushed := s.pushed - 1, changed := NotifyOne(s.changed, RECEIVER))
    case IssueSpaceOne(target) => s.(popped := s.popped - 1, space := NotifyOne(s.space, target))
    case IssueChangedAll => s.(hungUp := s.hungUp - 1, changed := NotifyWaiters(s.changed))
    case IssueSpaceAll => s.(closing := s.closing - 1, space := NotifyWaiters(s.space))
  }

  function Initial(sendThreads: nat): System {
    System(Queue([], 0, 1, true), Notify(false, 0, [Idle]),
           Notify(false, 0, seq(sendThreads, _ => Idle)), 0, 0, 0, 0)
  }

  /** The state a schedule leads to, if each of its steps is enabled in turn. */
  function Exec(limits: Limits, sendThreads: nat, schedule: seq<Step>): Option<System> {
    if schedule == [] then Some(Initial(sendThreads))
    else
      var before := Exec(limits, sendThreads, schedule[..|schedule| - 1]);
      var step := schedule[|schedule| - 1];
      if before.Some? && WellSized(before.value) && Enabled(limits, before.value, step)
      then Some(Do(limits, before.value, step))
      else None
  }

  // ---------------------------------------------------------------------------------------------
  // Invariants
  // ---------------------------------------------------------------------------------------------

  function Capacity(limits: Limits): nat {
    if limits.maxItems <= limits.maxBytes then limits.maxItems else limits.maxBytes
  }

  /** Items all weigh one, the only weight the waiting `send` is used with. */
  ghost predicate UnitQueue(limits: Limits, q: Queue<nat>) {
    && |q.items| <= Capacity(limits)
    && (forall i :: 0 <= i < |q.items| ==> q.items[i].weight == 1)
    && (!q.open ==> q.items == [])
  }

  /** Wakeups a waiter holds: a consumed one it has not acted on, and one it will hand on if it leaves. */
  function Tokens(w: Waiter): nat {
    match w
    case Idle => 0
    case Looping(woken) => if woken then 1 else 0
    case Created(_, woken) => if woken then 1 else 0
    case Armed(signal, woken) => (if signal == One then 1 else 0) + (if woken then 1 else 0)
    case Ready => 1
    case Parked(signal) => if signal == One then 1 else 0
  }

  function TotalTokens(ws: seq<Waiter>): nat {
    if ws == [] then 0 else Tokens(ws[0]) + TotalTokens(ws[1..])
  }

  /** Wakeups in flight or about to be issued towards waiting senders. */
  function PendingForSenders(s: System): nat {
    (if s.space.permit then 1 else 0) + s.popped + TotalTokens(s.space.waiters)
  }

  predicate Waiting(w: Waiter) { w == Parked(NotYet) }

  ghost predicate SomeSenderWaits(s: System) {
    exists t :: 0 <= t < |s.space.waiters| && Waiting(s.space.waiters[t])
  }

  /** A stored permit and an unnotified waiter never coexist. */
  ghost predicate PermitExclusive(n: Notify) { n.permit ==> !HasUnnotified(n) }

  /** A waiting receiver with something to do has a notification on its way. */
  ghost predicate ReceiverCovered(s: System)
    requires WellSized(s)
  {
    Waiting(Receiver(s)) ==>
      && s.queue.open
      && (s.queue.items != [] ==> s.pushed > 0)
      && (s.queue.senders == 0 ==> s.hungUp > 0)
  }

  /** While a sender waits, every free slot is matched by a wakeup, and closing wakes everybody. */
  ghost predicate SendersCovered(limits: Limits, s: System) {
    SomeSenderWaits(s) ==>
      if s.queue.open then Capacity(limits) - |s.queue.items| <= PendingForSenders(s) else s.closing > 0
  }

  ghost predicate Inv(limits: Limits, s: System) {
    && WellSized(s)
    && UnitQueue(limits, s.queue)
    && PermitExclusive(s.changed) && PermitExclusive(s.space)
    && ReceiverCovered(s)
    && SendersCovered(limits, s)
  }

  // ---------------------------------------------------------------------------------------------
  // Lemmas about one step
  // ---------------------------------------------------------------------------------------------

  lemma {:induction false} UnitWeight(items: seq<Item<nat>>)
    requires forall i :: 0 <= i < |items| ==> items[i].weight == 1
    ensures Weight(items) == |items|
  {
    if items != [] { UnitWeight(items[1..]); }
  }

  lemma UnitOffer(limits: Limits, q: Queue<nat>, value: nat, canEvict: nat -> bool)
    requires UnitQueue(limits, q)
    ensures var (q', r) := Offer(limits, q, value, 1, canEvict);
      && UnitQueue(limits, q') && q'.open == q.open && q'.senders == q.senders
      && |q.items| <= |q'.items|
      && (!r.Sent? ==> q' == q)
  {
    var (q', r) := Offer(limits, q, value, 1, canEvict);
    if r.Sent? {
      var k := FirstFit(limits, q.items, 1);
      UnitWeight(q.items[k..]);
      assert q.items[0..] == q.items;
      assert q'.items == q.items[k..] + [Item(value, 1)];
      if k > 0 {
        assert !Fits(limits, q.items[k - 1..], 1);
        UnitWeight(q.items[k - 1..]);
      }
    }
  }

  lemma UnitSendAttempt(limits: Limits, q: Queue<nat>, value: nat)
    requires UnitQueue(limits, q)
    ensures var (q', r) := SendAttempt(limits, q, value, 1);
      && UnitQueue(limits, q') && q'.open == q.open && q'.senders == q.senders
      && (r.Sent? ==> |q'.items| == |q.items| + 1)
      && (r.Full? ==> q' == q && |q.items| == Capacity(limits))
      && (r.Closed? <==> !q.open)
  {
    UnitWeight(q.items);
  }

  lemma {:induction false} TokensSet(ws: seq<Waiter>, t: nat, w: Waiter)
    requires t < |ws|
    ensures TotalTokens(ws[t := w]) + Tokens(ws[t]) == TotalTokens(ws) + Tokens(w)
  {
    if t > 0 {
      TokensSet(ws[1..], t - 1, w);
      assert ws[t := w][1..] == ws[1..][t - 1 := w];
    } else {
      assert ws[t := w][1..] == ws[1..];
    }
  }

  /** Issuing a notification neither creates nor loses wakeups, unless nobody is waiting. */
  lemma NotifyOneKeeps(n: Notify, target: nat)
    requires PermitExclusive(n) && ValidTarget(n, target)
    ensures var n' := NotifyOne(n, target);
      && |n'.waiters| == |n.waiters|
      && PermitExclusive(n')
      && (forall t :: 0 <= t < |n.waiters| ==> (Waiting(n'.waiters[t]) ==> Waiting(n.waiters[t])))
      && (HasUnnotified(n) ==> !n'.permit && TotalTokens(n'.waiters) == TotalTokens(n.waiters) + 1)
      && (!HasUnnotified(n) ==> n' == n.(permit := true))
  {
    if HasUnnotified(n) {
      TokensSet(n.waiters, target, WithSignal(n.waiters[target], One));
    }
  }

  /** Leaving a wait spends at most the wakeup the waiter had consumed. */
  lemma LeaveKeeps(n: Notify, t: nat, target: nat)
    requires PermitExclusive(n) && t < |n.waiters| && ValidTarget(SetWaiter(n, t, Idle), target)
    ensures var n' := Leave(n, t, Idle, target);
      && |n'.waiters| == |n.waiters|
      && PermitExclusive(n')
      && (forall u :: 0 <= u < |n.waiters| ==> (Waiting(n'.waiters[u]) ==> Waiting(n.waiters[u])))
      && ((exists u :: 0 <= u < |n'.waiters| && Waiting(n'.waiters[u])) ==>
          TotalTokens(n.waiters) + (if n.permit then 1 else 0)
          <= TotalTokens(n'.waiters) + (if n'.permit then 1 else 0)
             + (if n.waiters[t].Parked? then 0 else 1))
  {
    var left := SetWaiter(n, t, Idle);
    TokensSet(n.waiters, t, Idle);
    assert PermitExclusive(left);
    var w := n.waiters[t];
    if (w.Armed? || w.Parked?) && w.signal == One {
      NotifyOneKeeps(left, target);
    }
  }

  /** A waiter moving on by itself, neither leaving nor starting to wait, keeps every wakeup it holds. */
  lemma MoveKeeps(n: Notify, t: nat, w: Waiter)
    requires PermitExclusive(n) && t < |n.waiters|
    requires Unnotified(w) ==> !n.permit
    ensures var n' := SetWaiter(n, t, w);
      && PermitExclusive(n')
      && TotalTokens(n'.waiters) + Tokens(n.waiters[t]) == TotalTokens(n.waiters) + Tokens(w)
      && (forall u :: 0 <= u < |n.waiters| && u != t ==> n'.waiters[u] == n.waiters[u])
  {
    TokensSet(n.waiters, t, w);
  }

  /** Enabling consumes a stored permit only when nobody is left waiting. */
  lemma EnableKeeps(n: Notify, t: nat, raced: bool)
    requires PermitExclusive(n) && t < |n.waiters| && n.waiters[t].Created?
    ensures var n' := Enable(n, t, raced);
      && |n'.waiters| == |n.waiters|
      && PermitExclusive(n')
      && (forall u :: 0 <= u < |n.waiters| ==> (Waiting(n'.waiters[u]) ==> Waiting(n.waiters[u])))
      && (HasUnnotified(n) ==> n'.permit == n.permit && TotalTokens(n.waiters) <= TotalTokens(n'.waiters))
  {
    TokensSet(n.waiters, t, Enable(n, t, raced).waiters[t]);
  }

  lemma SenderStepKeeps(limits: Limits, s: System, step: Step)
    requires Inv(limits, s) && Enabled(limits, s, step)
    requires step.EnterSend? || step.CreateSend? || step.EnableSend? || step.WakeSend?
             || step.CancelSend? || step.IssueSpaceOne? || step.IssueSpaceAll?
    ensures Inv(limits, Do(limits, s, step))
  {
    var s' := Do(limits, s, step);
    match step
    case EnterSend(t) => MoveKeeps(s.space, t, s'.space.waiters[t]);
    case CreateSend(t) => MoveKeeps(s.space, t, s'.space.waiters[t]);
    case EnableSend(t, raced) => EnableKeeps(s.space, t, raced);
    case WakeSend(t) => MoveKeeps(s.space, t, s'.space.waiters[t]);
    case CancelSend(t, target) => LeaveKeeps(s.space, t, target);
    case IssueSpaceOne(target) => NotifyOneKeeps(s.space, target);
    case IssueSpaceAll => assert !SomeSenderWaits(s');
  }

  lemma CheckSendKeeps(limits: Limits, s: System, t: nat, value: nat, target: nat)
    requires Inv(limits, s) && Enabled(limits, s, CheckSend(t, value, target))
    ensures Inv(limits, Do(limits, s, CheckSend(t, value, target)))
  {
    UnitSendAttempt(limits, s.queue, value);
    var (q, r) := SendAttempt(limits, s.queue, value, 1);
    if r.Full? {
      MoveKeeps(s.space, t, AfterFruitlessCheck(Sender(s, t)));
    } else {
      LeaveKeeps(s.space, t, target);
    }
  }

  lemma ReceiverStepKeeps(limits: Limits, s: System, step: Step)
    requires Inv(limits, s) && Enabled(limits, s, step)
    requires !(step.EnterSend? || step.CreateSend? || step.EnableSend? || step.WakeSend?
               || step.CancelSend? || step.IssueSpaceOne? || step.IssueSpaceAll? || step.CheckSend?)
    ensures Inv(limits, Do(limits, s, step))
  {
    var s' := Do(limits, s, step);
    match step
    case OfferStep(value, canEvict) => UnitOffer(limits, s.queue, value, canEvict);
    case EnterRecv => MoveKeeps(s.changed, RECEIVER, s'.changed.waiters[RECEIVER]);
    case CreateRecv => MoveKeeps(s.changed, RECEIVER, s'.changed.waiters[RECEIVER]);
    case EnableRecv(raced) => EnableKeeps(s.changed, RECEIVER, raced);
    case CheckRecv =>
      if TryRecv(s.queue, _ => true).1.Empty? {
        MoveKeeps(s.changed, RECEIVER, s'.changed.waiters[RECEIVER]);
      } else {
        LeaveKeeps(s.changed, RECEIVER, RECEIVER);
      }
    case WakeRecv => MoveKeeps(s.changed, RECEIVER, s'.changed.waiters[RECEIVER]);
    case CancelRecv => LeaveKeeps(s.changed, RECEIVER, RECEIVER);
    case IssueChangedOne => NotifyOneKeeps(s.changed, RECEIVER);
    case CloneSender =>
    case DropSender =>
    case TryRecvStep(_) =>
    case CloseStep =>
    case IssueChangedAll =>
  }

  lemma {:induction false} InvHolds(limits: Limits, sendThreads: nat, schedule: seq<Step>, s: System)
    requires Exec(limits, sendThreads, schedule) == Some(s)
    ensures Inv(limits, s)
  {
    if schedule != [] {
      var last := schedule[|schedule| - 1];
      var before := Exec(limits, sendThreads, schedule[..|schedule| - 1]).value;
      InvHolds(limits, sendThreads, schedule[..|schedule| - 1], before);
      if last.CheckSend? {
        CheckSendKeeps(limits, before, last.t, last.value, last.target);
      } else if last.EnterSend? || last.CreateSend? || last.EnableSend? || last.WakeSend?
                || last.CancelSend? || last.IssueSpaceOne? || last.IssueSpaceAll? {
        SenderStepKeeps(limits, before, last);
      } else {
        ReceiverStepKeeps(limits, before, last);
      }
    }
  }

  // ---------------------------------------------------------------------------------------------
  // No lost wakeups
  // ---------------------------------------------------------------------------------------------

  /** In every interleaving: a receiver left waiting with an item queued, or with every sender gone, has
      a notification about to be issued, and none is left waiting on a closed queue; while senders wait, free slots never outnumber wakeups. */
  lemma NoLostWakeups(limits: Limits, sendThreads: nat, schedule: seq<Step>, s: System)
    requires Exec(limits, sendThreads, schedule) == Some(s)
    ensures WellSized(s)
    ensures Waiting(Receiver(s)) ==> s.queue.open
    ensures Waiting(Receiver(s)) && s.queue.items != [] ==> s.pushed > 0
    ensures Waiting(Receiver(s)) && s.queue.senders == 0 ==> s.hungUp > 0
    ensures SomeSenderWaits(s) && s.queue.open ==>
              Capacity(limits) - |s.queue.items| <= PendingForSenders(s)
    ensures SomeSenderWaits(s) && !s.queue.open ==> s.closing > 0
  {
    InvHolds(limits, sendThreads, schedule, s);
  }

  /** Nobody can take a step: no notification is due and every call is outside or waiting unnotified. */
  ghost predicate Quiescent(s: System) {
    && WellSized(s)
    && s.pushed == s.popped == s.hungUp == s.closing == 0
    && (Receiver(s).Idle? || Waiting(Receiver(s)))
    && (forall t :: 0 <= t < |s.space.waiters| ==> s.space.waiters[t].Idle? || Waiting(s.space.waiters[t]))
  }

  lemma {:induction false} NoTokensAtRest(ws: seq<Waiter>)
    requires forall t :: 0 <= t < |ws| ==> ws[t].Idle? || Waiting(ws[t])
    ensures TotalTokens(ws) == 0
  {
    if ws != [] { NoTokensAtRest(ws[1..]); }
  }

  /** When nothing is in motion, whoever waits has a reason to: a waiting receiver faces an empty open
      queue with live senders, and a waiting sender faces a full open queue. */
  lemma QuiescentMeansNothingToDo(limits: Limits, sendThreads: nat, schedule: seq<Step>, s: System)
    requires Exec(limits, sendThreads, schedule) == Some(s) && Quiescent(s)
    ensures Waiting(Receiver(s)) ==> s.queue.items == [] && s.queue.open && s.queue.senders > 0
    ensures SomeSenderWaits(s) ==> s.queue.open && |s.queue.items| == Capacity(limits)
  {
    InvHolds(limits, sendThreads, schedule, s);
    NoTokensAtRest(s.space.waiters);
  }

  // ---------------------------------------------------------------------------------------------
  // Waiting calls can complete
  // ---------------------------------------------------------------------------------------------

  /** A run may go on with any enabled step. */
  lemma GoOn(limits: Limits, sendThreads: nat, past: seq<Step>, s: System, step: Step) returns (now: seq<Step>)
    requires Exec(limits, sendThreads, past) == Some(s) && WellSized(s) && Enabled(limits, s, step)
    ensures Exec(limits, sendThreads, now) == Some(Do(limits, s, step))
  {
    now := past + [step];
    assert now[..|now| - 1] == past;
  }

  /** An offered item of an open queue with room is queued, and the receiver's notification is on its way. */
  lemma OfferArrives(limits: Limits, s: System, value: nat, canEvict: nat -> bool)
    requires WellSized(s) && Enabled(limits, s, OfferStep(value, canEvict)) && s.queue.open
    ensures var s' := Do(limits, s, OfferStep(value, canEvict));
      Fits(limits, s.queue.items, 1) ==> s'.queue.items == s.queue.items + [Item(value, 1)] && s'.pushed == s.pushed + 1
  {
    assert s.queue.items[0..] == s.queue.items;
  }

  /** Closing takes effect at once: the queue is closed and empty, and both broadcasts are on their way. */
  lemma CloseTakesEffect(limits: Limits, s: System)
    requires WellSized(s) && Enabled(limits, s, CloseStep)
    ensures var s' := Do(limits, s, CloseStep);
      && !s'.queue.open && s'.queue.items == [] && s'.queue.senders == s.queue.senders
      && s'.hungUp == s.hungUp + 1 && s'.closing == s.closing + 1
  {
  }

  /** Senders are counted, and the last one to go has the receiver told. */
  lemma SendersAreCounted(limits: Limits, s: System)
    requires WellSized(s) && s.queue.senders > 0
    ensures Do(limits, s, CloneSender) == s.(queue := s.queue.(senders := s.queue.senders + 1))
    ensures var s' := Do(limits, s, DropSender);
      && s'.queue == s.queue.(senders := s.queue.senders - 1)
      && s'.hungUp == s.hungUp + (if s.queue.senders == 1 then 1 else 0)
  {
  }

  /** A receive that does not wait takes a ready front item, and has a sender told. */
  lemma TryRecvTakes(limits: Limits, s: System, ready: nat -> bool)
    requires WellSized(s) && Enabled(limits, s, TryRecvStep(ready))
    ensures var s' := Do(limits, s, TryRecvStep(ready));
      if s.queue.items != [] && ready(s.queue.items[0].value)
      then s'.queue.items == s.queue.items[1..] && s'.popped == s.popped + 1
      else s' == s
  {
    TryRecvExactly(s.queue, ready);
  }

  /** Steps a call is away from taking the lock. */
  function StepsAway(w: Waiter): nat {
    match w
    case Parked(_) => 4
    case Looping(_) => 3
    case Created(_, _) => 2
    case Armed(_, _) => 1
    case Ready => 1
    case Idle => 0
  }

  /** The call is inside and nothing has to happen before it goes on. */
  predicate OnItsWay(w: Waiter) { !w.Idle? && !Waiting(w) }

  function ReceiverStep(w: Waiter): Step {
    match w
    case Parked(_) => WakeRecv
    case Looping(_) => CreateRecv
    case Created(_, _) => EnableRecv(false)
    case _ => CheckRecv
  }

  /** A receiver on its way with something to find finds it. */
  lemma {:induction false} ReceiverCompletes(limits: Limits, sendThreads: nat, past: seq<Step>, s: System)
      returns (now: seq<Step>, s': System)
    requires Exec(limits, sendThreads, past) == Some(s) && WellSized(s) && OnItsWay(Receiver(s))
    requires s.queue.items != [] || s.queue.senders == 0 || !s.queue.open
    ensures Exec(limits, sendThreads, now) == Some(s') && WellSized(s') && Receiver(s').Idle?
    ensures s'.queue.items == if s.queue.items == [] then [] else s.queue.items[1..]
    decreases StepsAway(Receiver(s))
  {
    var step := ReceiverStep(Receiver(s));
    now := GoOn(limits, sendThreads, past, s, step);
    s' := Do(limits, s, step);
    if step != CheckRecv {
      now, s' := ReceiverCompletes(limits, sendThreads, now, s');
    } else {
      TryRecvExactly(s.queue, _ => true);
    }
  }

  /** From every reachable state: a receiver waiting while an item is queued can receive it, the oldest first, and one
      waiting after the last sender is gone can return. */
  lemma ReceiverIsServed(limits: Limits, sendThreads: nat, past: seq<Step>, s: System)
      returns (now: seq<Step>, s': System)
    requires Exec(limits, sendThreads, past) == Some(s) && WellSized(s) && Waiting(Receiver(s))
    requires s.queue.items != [] || s.queue.senders == 0
    ensures Exec(limits, sendThreads, now) == Some(s') && WellSized(s') && Receiver(s').Idle?
    ensures s'.queue.items == if s.queue.items == [] then [] else s.queue.items[1..]
  {
    NoLostWakeups(limits, sendThreads, past, s);
    var step := if s.queue.items != [] then IssueChangedOne else IssueChangedAll;
    now := GoOn(limits, sendThreads, past, s, step);
    now, s' := ReceiverCompletes(limits, sendThreads, now, Do(limits, s, step));
  }

  function SenderStep(w: Waiter, t: nat, value: nat, target: nat): Step {
    match w
    case Parked(_) => WakeSend(t)
    case Looping(_) => CreateSend(t)
    case Created(_, _) => EnableSend(t, false)
    case _ => CheckSend(t, value, target)
  }

  lemma SomeTarget(n: Notify) returns (target: nat)
    ensures ValidTarget(n, target)
  {
    target := 0;
    if HasUnnotified(n) { target :| target < |n.waiters| && Unnotified(n.waiters[target]); }
  }

  /** A sender on its way that finds room queues its item. */
  lemma {:induction false} SenderCompletes(
      limits: Limits, sendThreads: nat, past: seq<Step>, s: System, t: nat, value: nat)
      returns (now: seq<Step>, s': System)
    requires Exec(limits, sendThreads, past) == Some(s) && WellSized(s)
    requires t < |s.space.waiters| && OnItsWay(s.space.waiters[t])
    requires s.queue.open && Fits(limits, s.queue.items, 1)
    ensures Exec(limits, sendThreads, now) == Some(s') && s'.queue.items == s.queue.items + [Item(value, 1)]
    decreases StepsAway(s.space.waiters[t])
  {
    var target := SomeTarget(SetWaiter(s.space, t, Idle));
    var step := SenderStep(s.space.waiters[t], t, value, target);
    now := GoOn(limits, sendThreads, past, s, step);
    s' := Do(limits, s, step);
    if !step.CheckSend? {
      now, s' := SenderCompletes(limits, sendThreads, now, s', t, value);
    } else {
      SendExactly(limits, s.queue, value, 1);
    }
  }

  /** From every reachable state: a sender waiting on a closed queue can return. */
  lemma ClosedSenderReturns(limits: Limits, sendThreads: nat, past: seq<Step>, s: System, t: nat, value: nat)
      returns (now: seq<Step>, s': System)
    requires Exec(limits, sendThreads, past) == Some(s) && WellSized(s) && !s.queue.open
    requires t < |s.space.waiters| && !s.space.waiters[t].Idle?
    ensures Exec(limits, sendThreads, now) == Some(s') && t < |s'.space.waiters| && s'.space.waiters[t].Idle?
  {
    now, s' := past, s;
    if Waiting(s.space.waiters[t]) {
      NoLostWakeups(limits, sendThreads, past, s);
      now := GoOn(limits, sendThreads, past, s, IssueSpaceAll);
      s' := Do(limits, s, IssueSpaceAll);
    }
    now, s' := ClosedSenderCompletes(limits, sendThreads, now, s', t, value);
  }

  lemma {:induction false} ClosedSenderCompletes(
      limits: Limits, sendThreads: nat, past: seq<Step>, s: System, t: nat, value: nat)
      returns (now: seq<Step>, s': System)
    requires Exec(limits, sendThreads, past) == Some(s) && WellSized(s) && !s.queue.open
    requires t < |s.space.waiters| && OnItsWay(s.space.waiters[t])
    ensures Exec(limits, sendThreads, now) == Some(s') && t < |s'.space.waiters| && s'.space.waiters[t].Idle?
    decreases StepsAway(s.space.waiters[t])
  {
    var target := SomeTarget(SetWaiter(s.space, t, Idle));
    var step := SenderStep(s.space.waiters[t], t, value, target);
    now := GoOn(limits, sendThreads, past, s, step);
    s' := Do(limits, s, step);
    if !step.CheckSend? {
      now, s' := ClosedSenderCompletes(limits, sendThreads, now, s', t, value);
    } else {
      SendExactly(limits, s.queue, value, 1);
    }
  }

  lemma {:induction false} SomeTokenHolder(ws: seq<Waiter>) returns (t: nat)
    requires TotalTokens(ws) > 0
    ensures t < |ws| && OnItsWay(ws[t])
  {
    if Tokens(ws[0]) > 0 {
      t := 0;
    } else {
      t := SomeTokenHolder(ws[1..]);
      t := t + 1;
    }
  }

  /** From every reachable state: while a sender waits and a slot is free, some sender can queue its item. */
  lemma SenderIsServed(limits: Limits, sendThreads: nat, past: seq<Step>, s: System, t: nat, value: nat)
      returns (now: seq<Step>, s': System)
    requires Exec(limits, sendThreads, past) == Some(s) && WellSized(s)
    requires t < |s.space.waiters| && Waiting(s.space.waiters[t])
    requires s.queue.open && |s.queue.items| < Capacity(limits)
    ensures Exec(limits, sendThreads, now) == Some(s') && s'.queue.items == s.queue.items + [Item(value, 1)]
  {
    InvHolds(limits, sendThreads, past, s);
    NoLostWakeups(limits, sendThreads, past, s);
    UnitWeight(s.queue.items);
    assert Unnotified(s.space.waiters[t]);
    if s.popped > 0 {
      now := GoOn(limits, sendThreads, past, s, IssueSpaceOne(t));
      now, s' := SenderCompletes(limits, sendThreads, now, Do(limits, s, IssueSpaceOne(t)), t, value);
    } else {
      var holder := SomeTokenHolder(s.space.waiters);
      now, s' := SenderCompletes(limits, sendThreads, past, s, holder, value);
    }
  }
}
