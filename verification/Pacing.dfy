/**
The datagram pacer. Each send waits until the previous one has been paid for at the rate in force,
with the spacing rounded up to whole nanoseconds, so the byte rate is bounded over every window of
a run, whatever idle gaps and live rate changes occur.
*/
module Pacing {
  import opened Options

  const SECOND: nat := 1_000_000_000
  const U64_MAX: nat := 0xFFFF_FFFF_FFFF_FFFF
  const U128_MAX: nat := 0xFFFF_FFFF_FFFF_FFFF_FFFF_FFFF_FFFF_FFFF

  function CeilDiv(a: nat, b: nat): nat
    requires b > 0
  {
    a / b + if a % b == 0 then 0 else 1
  }

  /** A duration as whole seconds and a fraction in nanoseconds. */
  datatype Duration = Duration(seconds: nat, nanos: nat)

  function Nanos(d: Duration): nat { d.seconds * SECOND + d.nanos }

  function Saturate(n: nat, max: nat): nat { if n <= max then n else max }

  /** `spacing`, with the source's narrowing conversions. */
  function Spacing(bytes: nat, rate: nat): Duration
    requires rate > 0
  {
    var nanos := CeilDiv(bytes * SECOND, rate);
    Duration(Saturate(nanos / SECOND, U64_MAX), Saturate(nanos % SECOND, 0xFFFF_FFFF))
  }

  lemma CeilDivIsLeast(a: nat, b: nat, n: nat)
    requires b > 0
    ensures CeilDiv(a, b) <= n <==> a <= n * b
  {
    var q := CeilDiv(a, b);
    assert a == (a / b) * b + a % b;
    if a % b == 0 {
      assert a == q * b;
    } else {
      assert q * b == (a / b) * b + b;
      assert (q - 1) * b < a <= q * b by { assert (q - 1) * b == (a / b) * b; }
    }
    if q <= n {
      assert q * b <= n * b by { MulMonotone(q, n, b); }
    } else {
      assert n * b <= (q - 1) * b by { MulMonotone(n, q - 1, b); }
      if a % b == 0 { assert (q - 1) * b == q * b - b; }
    }
  }

  lemma MulMonotone(x: int, y: int, b: nat)
    requires x <= y
    ensures x * b <= y * b
  {
    assert (y - x) * b >= 0;
    assert (y - x) * b == y * b - x * b;
  }

  /** No conversion saturates and no product overflows for any payload length and any rate, and the
      spacing is the shortest that pays for the bytes. */
  lemma SpacingIsExact(bytes: nat, rate: nat, n: nat)
    requires bytes <= U64_MAX && 0 < rate <= U64_MAX
    ensures bytes * SECOND <= U128_MAX
    ensures Nanos(Spacing(bytes, rate)) <= n <==> bytes * SECOND <= n * rate
  {
    var total := bytes * SECOND;
    var nanos := CeilDiv(total, rate);
    CeilDivIsLeast(total, rate, total);
    assert total <= total * rate by { MulMonotone(1, rate, total); }
    assert nanos / SECOND <= U64_MAX by {
      assert nanos <= total;
      assert nanos <= U64_MAX * SECOND;
    }
    assert nanos == (nanos / SECOND) * SECOND + nanos % SECOND;
    CeilDivIsLeast(total, rate, n);
  }

  /** A higher rate never lengthens the spacing, more bytes never shorten it. */
  lemma SpacingIsMonotone(bytes: nat, bytes': nat, rate: nat, rate': nat)
    requires bytes <= bytes' <= U64_MAX && 0 < rate' <= rate <= U64_MAX
    ensures Nanos(Spacing(bytes, rate)) <= Nanos(Spacing(bytes', rate'))
  {
    var n := Nanos(Spacing(bytes', rate'));
    SpacingIsExact(bytes', rate', n);
    MulMonotone(rate', rate, n);
    SpacingIsExact(bytes, rate, n);
  }

  // ---------------------------------------------------------------------------------------------
  // The pacer
  // ---------------------------------------------------------------------------------------------

  /** What can end one wait: the peer closes, the rate changes or its source disappears, or the timer
      fires (never early, possibly late). Delays are nanoseconds since the previous event. */
  datatype Wake =
    | PeerClosed
    | RateChanged(rate: Option<nat>, delay: nat)
    | RateSourceGone(delay: nat)
    | TimerFired(late: nat)

  /** `Proceed` tells when the send may start and which rate was last observed. `Unpaced` is the early
      return once no handle can change the rate any more. */
  datatype WaitResult = Proceed(at: nat, rate: Option<nat>) | Unpaced(at: nat) | Aborted | Pending

  predicate RateValid(rate: Option<nat>) { rate.Some? ==> 0 < rate.value <= U64_MAX }

  predicate WakeValid(w: Wake) { w.RateChanged? ==> RateValid(w.rate) }

  /** One completed send attempt. */
  datatype Send = Send(start: nat, done: nat, bytes: nat, rate: Option<nat>)

  /** What the pacer promises of consecutive sends. */
  ghost predicate Paced(log: seq<Send>) {
    && (forall i :: 0 <= i < |log| ==>
          log[i].start <= log[i].done && log[i].bytes <= U64_MAX && RateValid(log[i].rate))
    && (forall i :: 0 < i < |log| ==> Spaced(log[i - 1], log[i]))
  }

  ghost predicate Spaced(previous: Send, next: Send)
    requires RateValid(next.rate)
  {
    && previous.done <= next.start
    && (next.rate.Some? ==> previous.done + Nanos(Spacing(previous.bytes, next.rate.value)) <= next.start)
  }

  /** When the last send is paid for at the given rate; none if there was no send or there is no rate. */
  function Deadline(previous: Option<(nat, nat)>, rate: Option<nat>): Option<nat>
    requires RateValid(rate)
  {
    if previous.None? || rate.None? then None else Some(previous.value.0 + Nanos(Spacing(previous.value.1, rate.value)))
  }

  /** The clock and the rate after the first `k` wake-ups, all of them rate changes. */
  ghost predicate Changed(rate: Option<nat>, now: nat, wakes: seq<Wake>, k: nat, rate': Option<nat>, now': nat) {
    && k <= |wakes| && (forall j :: 0 <= j < k ==> wakes[j].RateChanged?)
    && (rate' == if k == 0 then rate else wakes[k - 1].rate)
    && now' == now + Delays(wakes[..k])
  }

  function Delays(wakes: seq<Wake>): nat {
    if wakes == [] then 0
    else Delays(wakes[..|wakes| - 1]) + (if wakes[|wakes| - 1].RateChanged? then wakes[|wakes| - 1].delay else 0)
  }

  /** How a wait ends after `k` rate changes: at once if there is no deadline or it has passed, exactly at the deadline
      plus the lateness of the timer, or with whatever else came first. */
  ghost predicate EndsExactly(previous: Option<(nat, nat)>, rate: Option<nat>, now: nat, wakes: seq<Wake>, k: nat, r: WaitResult)
    requires RateValid(rate)
  {
    var deadline := Deadline(previous, rate);
    if deadline.None? || deadline.value <= now then r == Proceed(now, rate)
    else if k >= |wakes| then r == Pending
    else match wakes[k]
      case PeerClosed => r == Aborted
      case RateSourceGone(delay) => r == Unpaced(now + delay)
      case TimerFired(late) => r == Proceed(deadline.value + late, rate)
      case RateChanged(_, _) => false
  }

  class DataPacer {
    var previous: Option<(nat, nat)>
    ghost var log: seq<Send>

    ghost predicate Valid()
      reads this
    {
      && Paced(log)
      && (previous.None? <==> log == [])
      && (previous.Some? ==> previous.value == (log[|log| - 1].done, log[|log| - 1].bytes))
    }

    constructor ()
      ensures Valid() && log == []
    {
      previous, log := None, [];
    }

    /** `wait`: loop until the deadline at the rate last observed has passed. */
    method Wait(rate: Option<nat>, now: nat, wakes: seq<Wake>) returns (r: WaitResult)
      requires Valid() && RateValid(rate) && (log != [] ==> log[|log| - 1].done <= now)
      requires forall i :: 0 <= i < |wakes| ==> WakeValid(wakes[i])
      ensures exists k, rate', now' ::
        Changed(rate, now, wakes, k, rate', now') && RateValid(rate') && EndsExactly(previous, rate', now', wakes, k, r)
      ensures r.Proceed? || r.Unpaced? ==> now <= r.at
      ensures r.Proceed? ==> RateValid(r.rate)
      ensures r.Proceed? && log != [] && r.rate.Some? ==>
        log[|log| - 1].done + Nanos(Spacing(log[|log| - 1].bytes, r.rate.value)) <= r.at
      ensures r.Unpaced? ==> exists i :: 0 <= i < |wakes| && wakes[i].RateSourceGone?
    {
      var observed, clock, next := rate, now, 0;
      while true
        invariant 0 <= next <= |wakes| && RateValid(observed) && now <= clock
        invariant Changed(rate, now, wakes, next, observed, clock)
        decreases |wakes| - next
      {
        if previous.None? || observed.None? { return Proceed(clock, observed); }
        var deadline := previous.value.0 + Nanos(Spacing(previous.value.1, observed.value));
        if deadline <= clock { return Proceed(clock, observed); }
        if next == |wakes| { return Pending; }
        match wakes[next] {
          case PeerClosed => return Aborted;
          case RateSourceGone(delay) => return Unpaced(clock + delay);
          case RateChanged(changed, delay) =>
            observed, clock := changed, clock + delay;
            assert wakes[..next + 1][..next] == wakes[..next];
          case TimerFired(late) => return Proceed(deadline + late, observed);
        }
        next := next + 1;
      }
    }

    /** `sent`: remember when and how much; also after a failed attempt. */
    method Sent(ghost start: nat, ghost rate: Option<nat>, now: nat, bytes: nat)
      requires Valid() && start <= now && bytes <= U64_MAX && RateValid(rate)
      requires log != [] ==> Spaced(log[|log| - 1], Send(start, now, bytes, rate))
      modifies this
      ensures Valid() && log == old(log) + [Send(start, now, bytes, rate)]
    {
      previous := Some((now, bytes));
      log := log + [Send(start, now, bytes, rate)];
    }

    /** The paced part of `UdpWriteHalf::send`: wait, transmit for `busy` nanoseconds, record. */
    method Transmit(rate: Option<nat>, now: nat, wakes: seq<Wake>, busy: nat, bytes: nat) returns (r: WaitResult)
      requires Valid() && RateValid(rate) && bytes <= U64_MAX && (log != [] ==> log[|log| - 1].done <= now)
      requires forall i :: 0 <= i < |wakes| ==> WakeValid(wakes[i])
      modifies this
      ensures Valid()
      ensures r.Proceed? ==> log == old(log) + [Send(r.at, r.at + busy, bytes, r.rate)]
      ensures r.Unpaced? ==> log == old(log) + [Send(r.at, r.at + busy, bytes, None)]
      ensures r.Aborted? || r.Pending? ==> log == old(log)
    {
      r := Wait(rate, now, wakes);
      if r.Proceed? { Sent(r.at, r.rate, r.at + busy, bytes); }
      if r.Unpaced? { Sent(r.at, None, r.at + busy, bytes); }
    }
  }

  // ---------------------------------------------------------------------------------------------
  // The rate bound
  // ---------------------------------------------------------------------------------------------

  /** Bytes of sends `i` to `j - 1`. */
  function Bytes(log: seq<Send>, i: nat, j: nat): nat
    requires i <= j <= |log|
    decreases j - i
  {
    if i == j then 0 else Bytes(log, i, j - 1) + log[j - 1].bytes
  }

  lemma OneGap(previous: Send, next: Send, limit: nat)
    requires RateValid(next.rate) && previous.bytes <= U64_MAX && Spaced(previous, next)
    requires next.rate.Some? && next.rate.value <= limit
    ensures SECOND * previous.bytes <= limit * (next.start - previous.done)
  {
    var gap := next.start - previous.done;
    SpacingIsExact(previous.bytes, next.rate.value, gap);
    MulMonotone(next.rate.value, limit, gap);
  }

  lemma AddGap(limit: nat, bytes: nat, more: nat, window: nat, gap: nat, total: nat)
    requires SECOND * bytes <= limit * window && SECOND * more <= limit * gap && window + gap <= total
    ensures SECOND * (bytes + more) <= limit * total
  {
    assert limit * (window + gap) == limit * window + limit * gap;
    MulMonotone(window + gap, total, limit);
  }

  /** Over every window of every run: if every rate observed in it is at most `limit` bytes per second,
      the bytes sent before its last send take at least that long, with no credit for idle time. */
  lemma {:induction false} RateBound(log: seq<Send>, i: nat, j: nat, limit: nat)
    requires Paced(log) && i < j < |log|
    requires forall k :: i < k <= j ==> log[k].rate.Some? && log[k].rate.value <= limit
    ensures log[i].done <= log[j].start
    ensures SECOND * Bytes(log, i, j) <= limit * (log[j].start - log[i].done)
    decreases j - i
  {
    assert Spaced(log[j - 1], log[j]);
    OneGap(log[j - 1], log[j], limit);
    if i == j - 1 {
      assert Bytes(log, i, j) == log[i].bytes;
    } else {
      RateBound(log, i, j - 1, limit);
      AddGap(limit, Bytes(log, i, j - 1), log[j - 1].bytes,
             log[j - 1].start - log[i].done, log[j].start - log[j - 1].done, log[j].start - log[i].done);
    }
  }
}
