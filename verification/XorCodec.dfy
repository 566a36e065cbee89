/**
The stateful example XOR codec. Each endpoint keeps a send and a receive position that wrap at 256;
over ordered, lossless delivery in both directions each side recovers exactly what the other sent.
*/
module XorCodec {

  import opened LengthCodec

  const MODULUS: nat := 256

  function Pow2(bits: nat): nat { if bits == 0 then 1 else 2 * Pow2(bits - 1) }

  /** Bitwise exclusive or of two numbers of the given number of bits. */
  function XorBits(a: nat, b: nat, bits: nat): nat {
    if bits == 0 then 0
    else (if a % 2 == b % 2 then 0 else 1) + 2 * XorBits(a / 2, b / 2, bits - 1)
  }

  lemma {:induction false} XorBitsFits(a: nat, b: nat, bits: nat)
    ensures XorBits(a, b, bits) < Pow2(bits)
  {
    if bits > 0 { XorBitsFits(a / 2, b / 2, bits - 1); }
  }

  /** Masking twice restores a number exactly when both masks are the same. */
  lemma {:induction false} XorBitsCancels(a: nat, k: nat, l: nat, bits: nat)
    requires a < Pow2(bits) && k < Pow2(bits) && l < Pow2(bits)
    ensures XorBits(XorBits(a, k, bits), l, bits) == a <==> k == l
  {
    if bits > 0 {
      var masked := XorBits(a, k, bits);
      assert masked / 2 == XorBits(a / 2, k / 2, bits - 1);
      XorBitsCancels(a / 2, k / 2, l / 2, bits - 1);
    }
  }

  function Bit(n: nat, i: nat): nat { if i == 0 then n % 2 else Bit(n / 2, i - 1) }

  /** Each bit of the exclusive or tells whether the two bits differ. */
  lemma {:induction false} XorBitsDiffer(a: nat, b: nat, bits: nat, i: nat)
    requires i < bits
    ensures Bit(XorBits(a, b, bits), i) == if Bit(a, i) == Bit(b, i) then 0 else 1
  {
    if i > 0 {
      assert XorBits(a, b, bits) / 2 == XorBits(a / 2, b / 2, bits - 1);
      XorBitsDiffer(a / 2, b / 2, bits - 1, i - 1);
    }
  }

  function Xor(a: Byte, b: Byte): Byte {
    XorBitsFits(a, b, 8);
    assert Pow2(8) == 256;
    XorBits(a, b, 8)
  }

  function Key(position: nat): Byte { position % MODULUS }

  /** What `transform` makes of the data from a starting position. */
  function Transform(position: nat, data: seq<Byte>): (r: seq<Byte>)
    ensures |r| == |data|
  {
    seq(|data|, i requires 0 <= i < |data| => Xor(data[i], Key(position + i)))
  }

  class XorPosition {
    var position: nat

    ghost predicate Valid()
      reads this
    {
      position < MODULUS
    }

    constructor ()
      ensures Valid() && position == 0
    {
      position := 0;
    }

    /** The source's loop: mask each byte in place and advance the wrapping position. */
    method TransformInPlace(data: array<Byte>)
      requires Valid()
      modifies this, data
      ensures Valid()
      ensures data[..] == Transform(old(position), old(data[..]))
      ensures position == (old(position) + data.Length) % MODULUS
    {
      ghost var before := data[..];
      var i := 0;
      while i < data.Length
        invariant 0 <= i <= data.Length
        invariant position == (old(position) + i) % MODULUS
        invariant forall k :: 0 <= k < i ==> data[k] == Transform(old(position), before)[k]
        invariant forall k :: i <= k < data.Length ==> data[k] == before[k]
      {
        assert Key(position) == Key(old(position) + i);
        data[i] := Xor(data[i], Key(position));
        position := (position + 1) % MODULUS;
        i := i + 1;
      }
    }
  }

  lemma MaskTwice(b: Byte, k: Byte, l: Byte)
    ensures Xor(Xor(b, k), l) == b <==> k == l
  {
    assert Pow2(8) == 256;
    XorBitsCancels(b, k, l, 8);
  }

  /** The mask itself: byte `i` of a message sent at position `p` is combined bit by bit with `p + i` modulo 256. */
  lemma MaskIs(p: nat, data: seq<Byte>, i: nat, bit: nat)
    requires i < |data| && bit < 8
    ensures Bit(Transform(p, data)[i], bit) == if Bit(data[i], bit) == Bit((p + i) % 256, bit) then 0 else 1
  {
    XorBitsDiffer(data[i], (p + i) % 256, 8, bit);
  }

  /** A receiver at position `q` recovers what was masked at position `p` exactly when the positions
      agree modulo 256, unless there is nothing to recover. */
  lemma RecoversExactlyWhenAligned(p: nat, q: nat, data: seq<Byte>)
    ensures Transform(q, Transform(p, data)) == data <==> data == [] || p % MODULUS == q % MODULUS
  {
    var back := Transform(q, Transform(p, data));
    if data != [] {
      MaskTwice(data[0], Key(p), Key(q));
      assert back[0] == Xor(Xor(data[0], Key(p)), Key(q));
      if p % MODULUS == q % MODULUS {
        forall i | 0 <= i < |data| ensures back[i] == data[i] {
          SameKeyLater(p, q, i);
          MaskTwice(data[i], Key(p + i), Key(q + i));
        }
        assert back == data;
      }
    }
  }

  lemma SameKeyLater(p: nat, q: nat, i: nat)
    requires p % MODULUS == q % MODULUS
    ensures Key(p + i) == Key(q + i)
  {
    assert (p + i) % MODULUS == (p % MODULUS + i) % MODULUS;
    assert (q + i) % MODULUS == (q % MODULUS + i) % MODULUS;
  }

  // ---------------------------------------------------------------------------------------------
  // Two endpoints
  // ---------------------------------------------------------------------------------------------

  type Message = seq<Byte>

  /** One direction of a session: the sender's send position, the receiver's receive position, messages
      in flight, and what has been handed to and obtained from the codec. */
  datatype Direction = Direction(
    sendPosition: nat, receivePosition: nat, wire: seq<Message>, sent: seq<Message>, received: seq<Message>)

  datatype Session = Session(there: Direction, back: Direction)

  datatype Action = SendThere(message: Message) | SendBack(message: Message) | ReceiveThere | ReceiveBack

  function Send(d: Direction, m: Message): Direction {
    d.(sendPosition := (d.sendPosition + |m|) % MODULUS,
       wire := d.wire + [Transform(d.sendPosition, m)], sent := d.sent + [m])
  }

  function Receive(d: Direction): Direction {
    if d.wire == [] then d
    else d.(receivePosition := (d.receivePosition + |d.wire[0]|) % MODULUS,
            wire := d.wire[1..], received := d.received + [Transform(d.receivePosition, d.wire[0])])
  }

  function Act(s: Session, a: Action): Session {
    match a
    case SendThere(m) => s.(there := Send(s.there, m))
    case SendBack(m) => s.(back := Send(s.back, m))
    case ReceiveThere => s.(there := Receive(s.there))
    case ReceiveBack => s.(back := Receive(s.back))
  }

  function Start(): Session {
    var quiet := Direction(0, 0, [], [], []);
    Session(quiet, quiet)
  }

  function After(actions: seq<Action>): Session {
    if actions == [] then Start()
    else Act(After(actions[..|actions| - 1]), actions[|actions| - 1])
  }

  /** Bytes in a list of messages. */
  function Total(messages: seq<Message>): nat {
    if messages == [] then 0 else Total(messages[..|messages| - 1]) + |messages[|messages| - 1]|
  }

  /** The message in flight at index `i` was masked at the number of bytes sent before it. */
  ghost predicate MaskedInPlace(d: Direction, i: nat)
    requires i < |d.wire| && |d.received| + |d.wire| == |d.sent|
  {
    d.wire[i] == Transform(Total(d.sent[..|d.received| + i]), d.sent[|d.received| + i])
  }

  ghost predicate Synchronised(d: Direction) {
    && |d.received| + |d.wire| == |d.sent|
    && d.received == d.sent[..|d.received|]
    && d.sendPosition == Total(d.sent) % MODULUS
    && d.receivePosition == Total(d.received) % MODULUS
    && forall i :: 0 <= i < |d.wire| ==> MaskedInPlace(d, i)
  }

  lemma SamePosition(p: nat, q: nat, m: Message)
    requires p % MODULUS == q % MODULUS
    ensures Transform(p, m) == Transform(q, m)
  {
    forall i | 0 <= i < |m| ensures Transform(p, m)[i] == Transform(q, m)[i] { SameKeyLater(p, q, i); }
  }

  lemma WrapAdd(p: nat, total: nat, n: nat)
    requires p == total % MODULUS
    ensures (p + n) % MODULUS == (total + n) % MODULUS
  {
  }

  lemma SendKeeps(d: Direction, m: Message)
    requires Synchronised(d)
    ensures Synchronised(Send(d, m))
  {
    var d' := Send(d, m);
    assert d'.sent[..|d.sent|] == d.sent;
    SamePosition(d.sendPosition, Total(d.sent), m);
    WrapAdd(d.sendPosition, Total(d.sent), |m|);
    forall i | 0 <= i < |d'.wire| ensures MaskedInPlace(d', i) {
      if i < |d.wire| {
        assert MaskedInPlace(d, i);
        assert d'.sent[..|d.received| + i] == d.sent[..|d.received| + i];
      } else {
        assert |d.received| + i == |d.sent|;
      }
    }
  }

  lemma ReceiveKeeps(d: Direction)
    requires Synchronised(d)
    ensures Synchronised(Receive(d))
  {
    if d.wire != [] {
      var d', n := Receive(d), |d.received|;
      assert MaskedInPlace(d, 0);
      RecoversExactlyWhenAligned(Total(d.received), d.receivePosition, d.sent[n]);
      assert d'.received == d.sent[..n + 1];
      assert d'.received[..n] == d.received;
      WrapAdd(d.receivePosition, Total(d.received), |d.wire[0]|);
      forall i | 0 <= i < |d'.wire| ensures MaskedInPlace(d', i) {
        assert MaskedInPlace(d, i + 1);
        assert |d'.received| + i == n + (i + 1);
      }
    }
  }

  lemma {:induction false} SynchronisedAfter(actions: seq<Action>)
    ensures Synchronised(After(actions).there) && Synchronised(After(actions).back)
  {
    if actions != [] {
      SynchronisedAfter(actions[..|actions| - 1]);
      var s := After(actions[..|actions| - 1]);
      match actions[|actions| - 1]
      case SendThere(m) => SendKeeps(s.there, m);
      case SendBack(m) => SendKeeps(s.back, m);
      case ReceiveThere => ReceiveKeeps(s.there);
      case ReceiveBack => ReceiveKeeps(s.back);
    }
  }

  /** In any interleaving of sends and receives on both sides, with messages of any length: each side has
      obtained exactly the first messages the other sent, and every position is the number of bytes
      processed in its direction modulo 256. */
  lemma SessionRoundTrip(actions: seq<Action>)
    ensures var s := After(actions);
      && s.there.received <= s.there.sent
      && s.back.received <= s.back.sent
      && (s.there.wire == [] ==> s.there.received == s.there.sent)
      && (s.back.wire == [] ==> s.back.received == s.back.sent)
      && s.there.sendPosition == Total(s.there.sent) % MODULUS
      && s.there.receivePosition == Total(s.there.received) % MODULUS
      && s.back.sendPosition == Total(s.back.sent) % MODULUS
      && s.back.receivePosition == Total(s.back.received) % MODULUS
  {
    SynchronisedAfter(actions);
  }
}
