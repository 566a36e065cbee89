/**
Length-prefix framing over a byte stream, for any lawful length codec (including variable-length
prefixes read in several steps) and any lossless packet codec.
*/
module Framing {
  import opened Options
  import opened LengthCodec

  /** An abstract packet codec; `None` is a packet it cannot encode or bytes it cannot decode. */
  datatype PacketCodec<!P> = PacketCodec(serialize: P -> Option<seq<Byte>>, deserialize: seq<Byte> -> Option<P>)

  ghost predicate Lossless<P(!new)>(packets: PacketCodec<P>) {
    forall p :: packets.serialize(p).Some? ==> packets.deserialize(packets.serialize(p).value) == Some(p)
  }

  datatype LengthRead =
    | GotLength(length: nat, rest: seq<Byte>)
    | EndOfStream
    | BadLength(rest: seq<Byte>)
    | Diverges  // the decoder asks for zero more bytes and will do so forever

  /** `read_length`: extend the prefix by what the decoder asks for until it has a length. */
  function ReadLength(codec: Codec, input: seq<Byte>, prefix: seq<Byte>, want: nat): LengthRead
    decreases |input|, if want == 0 then 1 else 0
  {
    if |input| < want then EndOfStream
    else
      var prefix', rest := prefix + input[..want], input[want..];
      match codec.decode(prefix')
      case Length(length) => GotLength(length, rest)
      case Invalid => BadLength(rest)
      case NeedMoreBytes(additional) =>
        if additional == 0 then Diverges else ReadLength(codec, rest, prefix', additional)
  }

  datatype Received<P> = Packet(packet: P) | TooBig | IoError | LengthError | BadPayload | NoResult

  /** `receive_with_timestamp`: the outcome and what is left of the stream. */
  function Receive<P>(codec: Codec, packets: PacketCodec<P>, limit: nat, input: seq<Byte>): (Received<P>, seq<Byte>) {
    match ReadLength(codec, input, [], codec.size)
    case EndOfStream => (IoError, [])
    case Diverges => (NoResult, [])
    case BadLength(rest) => (LengthError, rest)
    case GotLength(length, rest) =>
      if length > limit then (TooBig, rest)
      else if |rest| < length then (IoError, [])
      else match packets.deserialize(rest[..length])
        case Some(p) => (Packet(p), rest[length..])
        case None => (BadPayload, rest[length..])
  }

  /** The bytes `send` writes for a packet, or `None` if it fails and writes nothing. */
  function Frame<P>(codec: Codec, packets: PacketCodec<P>, p: P): Option<seq<Byte>> {
    match packets.serialize(p)
    case None => None
    case Some(payload) =>
      match codec.encode(|payload|)
      case None => None
      case Some(prefix) => Some(prefix + payload)
  }

  // ---------------------------------------------------------------------------------------------
  // Round trips
  // ---------------------------------------------------------------------------------------------

  /** Having read `k` bytes of an encoded length and asked for `want` more of it, the reader recovers
      the length and stops right behind it. */
  lemma {:induction false} ReadLengthRecovers(codec: Codec, length: nat, k: nat, want: nat, rest: seq<Byte>)
    requires LawfulAt(codec, length) && codec.encode(length).Some?
    requires var whole := codec.encode(length).value;
      k + want <= |whole| && codec.size <= k + want && (k > 0 ==> want > 0)
    ensures var whole := codec.encode(length).value;
      ReadLength(codec, whole[k..] + rest, whole[..k], want) == GotLength(length, rest)
    decreases |codec.encode(length).value| - k, if want == 0 then 1 else 0
  {
    var whole := codec.encode(length).value;
    var input, n := whole[k..] + rest, k + want;
    assert whole[..k] + input[..want] == whole[..n];
    assert input[want..] == whole[n..] + rest;
    if n == |whole| {
      assert whole[..n] == whole;
      assert whole[n..] + rest == rest;
    } else {
      assert AsksForRest(codec, whole, n);
      ReadLengthRecovers(codec, length, n, codec.decode(whole[..n]).additional, rest);
    }
  }

  lemma FrameIsPrefixed<P>(codec: Codec, packets: PacketCodec<P>, p: P, tail: seq<Byte>)
    requires Lawful(codec) && Frame(codec, packets, p).Some?
    ensures var payload := packets.serialize(p).value;
      ReadLength(codec, Frame(codec, packets, p).value + tail, [], codec.size)
      == GotLength(|payload|, payload + tail)
  {
    var payload := packets.serialize(p).value;
    var whole := codec.encode(|payload|).value;
    assert LawfulAt(codec, |payload|);
    ReadLengthRecovers(codec, |payload|, 0, codec.size, payload + tail);
    assert whole[0..] + (payload + tail) == Frame(codec, packets, p).value + tail;
    assert whole[..0] == [];
  }

  /** One frame: within the limit it yields its packet and exactly its bytes are consumed; beyond the
      limit reading stops right after the length prefix. */
  lemma FrameRoundTrip<P(!new)>(codec: Codec, packets: PacketCodec<P>, limit: nat, p: P, tail: seq<Byte>)
    requires Lawful(codec) && Lossless(packets) && Frame(codec, packets, p).Some?
    ensures var payload := packets.serialize(p).value;
      Receive(codec, packets, limit, Frame(codec, packets, p).value + tail)
      == if |payload| <= limit then (Packet(p), tail) else (TooBig, payload + tail)
  {
    FrameIsPrefixed(codec, packets, p, tail);
    var payload := packets.serialize(p).value;
    assert (payload + tail)[..|payload|] == payload;
    assert (payload + tail)[|payload|..] == tail;
  }

  /** A packet is sent exactly if it can be encoded and its length can; what is written is the encoded length
      followed by the payload. */
  lemma SentExactly<P>(codec: Codec, packets: PacketCodec<P>, p: P)
    ensures var payload := packets.serialize(p); var frame := Frame(codec, packets, p);
      && (frame.Some? <==> payload.Some? && codec.encode(|payload.value|).Some?)
      && (frame.Some? ==>
          && |frame.value| == |codec.encode(|payload.value|).value| + |payload.value|
          && codec.encode(|payload.value|).value <= frame.value
          && frame.value[|frame.value| - |payload.value|..] == payload.value)
  {
  }

  /** A frame whose payload does not decode is consumed and reported as such. */
  lemma MalformedFrame<P>(codec: Codec, packets: PacketCodec<P>, limit: nat, payload: seq<Byte>, tail: seq<Byte>)
    requires Lawful(codec) && codec.encode(|payload|).Some? && |payload| <= limit && packets.deserialize(payload).None?
    ensures Receive(codec, packets, limit, codec.encode(|payload|).value + payload + tail) == (BadPayload, tail)
  {
    var whole := codec.encode(|payload|).value;
    assert LawfulAt(codec, |payload|);
    ReadLengthRecovers(codec, |payload|, 0, codec.size, payload + tail);
    assert whole[0..] + (payload + tail) == whole + payload + tail && whole[..0] == [];
    assert (payload + tail)[..|payload|] == payload && (payload + tail)[|payload|..] == tail;
  }

  /** A prefix the codec rejects is consumed and reported as a length error. */
  lemma RejectedLength<P>(codec: Codec, packets: PacketCodec<P>, limit: nat, input: seq<Byte>)
    requires |input| >= codec.size && codec.decode(input[..codec.size]).Invalid?
    ensures Receive(codec, packets, limit, input) == (LengthError, input[codec.size..])
  {
    assert [] + input[..codec.size] == input[..codec.size];
  }

  /** The bytes written for a list of packets. */
  function Stream<P>(codec: Codec, packets: PacketCodec<P>, ps: seq<P>): seq<Byte> {
    if ps == [] then []
    else (match Frame(codec, packets, ps[0]) case Some(bytes) => bytes case None => []) + Stream(codec, packets, ps[1..])
  }

  /** Receive `n` packets, stopping at the first failure. */
  function ReceiveMany<P>(codec: Codec, packets: PacketCodec<P>, limit: nat, input: seq<Byte>, n: nat): (seq<P>, seq<Byte>)
    decreases n
  {
    if n == 0 then ([], input)
    else match Receive(codec, packets, limit, input)
      case (Packet(p), rest) =>
        var (ps, rest') := ReceiveMany(codec, packets, limit, rest, n - 1);
        ([p] + ps, rest')
      case (_, rest) => ([], rest)
  }

  predicate Sendable<P>(codec: Codec, packets: PacketCodec<P>, limit: nat, p: P) {
    Frame(codec, packets, p).Some? && |packets.serialize(p).value| <= limit
  }

  /** Reading the concatenated writes of any list of packets returns exactly that list and consumes
      exactly those bytes. */
  lemma {:induction false} StreamRoundTrip<P(!new)>(
      codec: Codec, packets: PacketCodec<P>, limit: nat, ps: seq<P>, tail: seq<Byte>)
    requires Lawful(codec) && Lossless(packets)
    requires forall i :: 0 <= i < |ps| ==> Sendable(codec, packets, limit, ps[i])
    ensures ReceiveMany(codec, packets, limit, Stream(codec, packets, ps) + tail, |ps|) == (ps, tail)
  {
    if ps == [] {
      assert Stream(codec, packets, ps) + tail == tail;
    } else {
      assert Sendable(codec, packets, limit, ps[0]);
      var frame, later := Frame(codec, packets, ps[0]).value, Stream(codec, packets, ps[1..]);
      assert Stream(codec, packets, ps) + tail == frame + (later + tail);
      FrameRoundTrip(codec, packets, limit, ps[0], later + tail);
      StreamRoundTrip(codec, packets, limit, ps[1..], tail);
      assert ps == [ps[0]] + ps[1..];
      assert Receive(codec, packets, limit, Stream(codec, packets, ps) + tail) == (Packet(ps[0]), later + tail);
    }
  }

  /** A stream cut inside a length prefix reports the end of the stream. */
  lemma {:induction false} CutPrefix(codec: Codec, length: nat, k: nat, want: nat, cut: nat)
    requires LawfulAt(codec, length) && codec.encode(length).Some?
    requires var whole := codec.encode(length).value;
      k + want <= |whole| && codec.size <= k + want && (k > 0 ==> want > 0) && k <= cut < |whole|
    ensures var whole := codec.encode(length).value;
      ReadLength(codec, whole[k..cut], whole[..k], want) == EndOfStream
    decreases |codec.encode(length).value| - k, if want == 0 then 1 else 0
  {
    var whole := codec.encode(length).value;
    var input, n := whole[k..cut], k + want;
    if n <= cut {
      assert whole[..k] + input[..want] == whole[..n];
      assert input[want..] == whole[n..cut];
      assert AsksForRest(codec, whole, n);
      CutPrefix(codec, length, n, codec.decode(whole[..n]).additional, cut);
    }
  }

  /** A truncated frame never yields a packet: every proper prefix ends in an I/O error, or in the size
      rejection if the whole length prefix of an oversized frame is there. */
  lemma TruncatedFrame<P>(codec: Codec, packets: PacketCodec<P>, limit: nat, p: P, cut: nat)
    requires Lawful(codec) && Frame(codec, packets, p).Some? && cut < |Frame(codec, packets, p).value|
    ensures var payload := packets.serialize(p).value;
      Receive(codec, packets, limit, Frame(codec, packets, p).value[..cut]).0
      == if |payload| > limit && cut >= |codec.encode(|payload|).value| then TooBig else IoError
  {
    var payload := packets.serialize(p).value;
    var whole := codec.encode(|payload|).value;
    var input := Frame(codec, packets, p).value[..cut];
    assert LawfulAt(codec, |payload|);
    if cut < |whole| {
      assert input == whole[0..cut] && whole[..0] == [];
      CutPrefix(codec, |payload|, 0, codec.size, cut);
    } else {
      assert input == whole[0..] + payload[..cut - |whole|] && whole[..0] == [];
      ReadLengthRecovers(codec, |payload|, 0, codec.size, payload[..cut - |whole|]);
    }
  }

  // ---------------------------------------------------------------------------------------------
  // The adapters, in place
  // ---------------------------------------------------------------------------------------------

  class FramedWriter {
    var output: seq<Byte>

    constructor ()
      ensures output == []
    {
      output := [];
    }

    /** Append a whole frame, or fail and write nothing. */
    method Send<P>(codec: Codec, packets: PacketCodec<P>, p: P) returns (ok: bool)
      modifies this
      ensures ok == Frame(codec, packets, p).Some?
      ensures output == if ok then old(output) + Frame(codec, packets, p).value else old(output)
    {
      var payload := packets.serialize(p);
      if payload.None? { return false; }
      var prefix := codec.encode(|payload.value|);
      if prefix.None? { return false; }
      var buffer := prefix.value + payload.value;
      output := output + buffer;
      return true;
    }
  }

  class FramedReader {
    var input: seq<Byte>

    constructor (input: seq<Byte>)
      ensures this.input == input
    {
      this.input := input;
    }

    /** The source's loop: grow the prefix buffer, fill the new part, try to decode. */
    method ReadPrefix(codec: Codec) returns (r: LengthRead)
      modifies this
      ensures r == ReadLength(codec, old(input), [], codec.size)
      ensures input == if r.GotLength? || r.BadLength? then r.rest else []
    {
      var prefix: seq<Byte>, want := [], codec.size;
      while true
        invariant ReadLength(codec, input, prefix, want) == ReadLength(codec, old(input), [], codec.size)
        decreases |input|, if want == 0 then 1 else 0
      {
        if |input| < want {
          input := [];
          return EndOfStream;
        }
        prefix, input := prefix + input[..want], input[want..];
        match codec.decode(prefix) {
          case Length(length) => return GotLength(length, input);
          case Invalid => return BadLength(input);
          case NeedMoreBytes(additional) =>
            if additional == 0 {
              input := [];
              return Diverges;
            }
            want := additional;
        }
      }
    }

    method ReceivePacket<P>(codec: Codec, packets: PacketCodec<P>, limit: nat) returns (r: Received<P>)
      modifies this
      ensures (r, input) == Receive(codec, packets, limit, old(input))
    {
      var length := ReadPrefix(codec);
      match length {
        case EndOfStream => return IoError;
        case Diverges => return NoResult;
        case BadLength(_) => return LengthError;
        case GotLength(n, _) =>
          if n > limit { return TooBig; }
          if |input| < n {
            input := [];
            return IoError;
          }
          var payload := input[..n];
          input := input[n..];
          match packets.deserialize(payload) {
            case Some(p) => return Packet(p);
            case None => return BadPayload;
          }
      }
    }
  }
}
