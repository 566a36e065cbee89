/** What the UDP transport's listener and its connections share. */
module Udp {
  const MAX_DATAGRAM_SIZE: nat := 65507

  /** Why a received datagram was discarded. Closed-before-delivery is the incoming share of its counter. */
  datatype DropReason =
    | RawQueueFull | RawQueueEvicted | ReceiveLimit | MalformedPayload
    | ReceiveQueueFull | ReceiveQueueEvicted | ClosedBeforeDelivery

  /** One counter per reason. */
  type Drops = multiset<DropReason>

  /** `count_drop`, some number of times. */
  function Charged(drops: Drops, reason: DropReason, n: nat): (r: Drops)
    ensures |r| == |drops| + n
  {
    drops[reason := drops[reason] + n]
  }

  lemma ChargedInTurn(drops: Drops, reason: DropReason, n: nat)
    ensures Charged(drops, reason, 0) == drops
    ensures Charged(Charged(drops, reason, n), reason, 1) == Charged(drops, reason, n + 1)
  {
  }
}
