/**
Packet length prefixes: what a length codec is, which ones are lawful, and the little- and big-endian
codecs of every integer width.
*/
module LengthCodec {
  import opened Options

  type Byte = x: nat | x < 256

  datatype Decoded = Length(length: nat) | NeedMoreBytes(additional: nat) | Invalid

  /** A length codec: initial prefix width, encoder (`None` if not representable) and decoder. */
  datatype Codec = Codec(size: nat, encode: nat -> Option<seq<Byte>>, decode: seq<Byte> -> Decoded)

  /** A proper prefix of `whole` asks for more bytes, at least one and no more than there are. */
  ghost predicate AsksForRest(codec: Codec, whole: seq<Byte>, k: nat)
    requires k < |whole|
  {
    var d := codec.decode(whole[..k]);
    d.NeedMoreBytes? && 0 < d.additional <= |whole| - k
  }

  ghost predicate LawfulAt(codec: Codec, length: nat) {
    var p := codec.encode(length);
    p.Some? ==>
      && codec.size <= |p.value|
      && codec.decode(p.value) == Length(length)
      && forall k :: codec.size <= k < |p.value| ==> AsksForRest(codec, p.value, k)
  }

  /** Decoding undoes encoding, in as many steps as the decoder asks for. */
  ghost predicate Lawful(codec: Codec) { forall length: nat :: LawfulAt(codec, length) }

  // ---------------------------------------------------------------------------------------------
  // Fixed-width integers
  // ---------------------------------------------------------------------------------------------

  datatype Order = LittleEndian | BigEndian

  /** The prefix is an integer of `width` bytes; lengths are machine words up to `wordMax`. */
  datatype Endian = Endian(order: Order, width: nat, wordMax: nat)

  function Pow256(width: nat): (p: nat)
    ensures p > 0
  {
    if width == 0 then 1 else 256 * Pow256(width - 1)
  }

  function ToBytes(order: Order, n: nat, width: nat): (bytes: seq<Byte>)
    ensures |bytes| == width
  {
    if width == 0 then []
    else match order
      case LittleEndian => [n % 256] + ToBytes(order, n / 256, width - 1)
      case BigEndian => ToBytes(order, n / 256, width - 1) + [n % 256]
  }

  function FromBytes(order: Order, bytes: seq<Byte>): nat {
    if bytes == [] then 0
    else match order
      case LittleEndian => bytes[0] + 256 * FromBytes(order, bytes[1..])
      case BigEndian => 256 * FromBytes(order, bytes[..|bytes| - 1]) + bytes[|bytes| - 1]
  }

  lemma {:induction false} BytesRoundTrip(order: Order, n: nat, width: nat)
    requires n < Pow256(width)
    ensures FromBytes(order, ToBytes(order, n, width)) == n
  {
    if width > 0 {
      BytesRoundTrip(order, n / 256, width - 1);
      var bytes := ToBytes(order, n, width);
      match order
      case LittleEndian => assert bytes[1..] == ToBytes(order, n / 256, width - 1);
      case BigEndian => assert bytes[..|bytes| - 1] == ToBytes(order, n / 256, width - 1);
    }
  }

  lemma {:induction false} DivPow(n: nat, i: nat)
    ensures n / 256 / Pow256(i) == n / Pow256(i + 1)
  {
    var p := Pow256(i);
    DivTwice(n, 256, p);
  }

  lemma DivTwice(n: nat, a: nat, b: nat)
    requires a > 0 && b > 0
    ensures a * b > 0 && n / a / b == n / (a * b)
  {
    var q := n / a / b;
    assert a * b > 0 by { assert a * b >= a * 1 by { MulLeft(a, 1, b); } }
    assert n == (n / a) * a + n % a;
    assert n / a == q * b + (n / a) % b;
    var rest := (n / a) % b;
    assert n == (q * b + rest) * a + n % a;
    assert (q * b + rest) * a == q * (a * b) + rest * a;
    assert rest * a <= (b - 1) * a by { MulLeft(a, rest, b - 1); }
    assert (b - 1) * a == a * b - a;
    Quotient(n, a * b, q, rest * a + n % a);
  }

  lemma MulLeft(a: nat, x: int, y: int)
    requires x <= y
    ensures a * x <= a * y && x * a <= y * a
  {
    assert a * (y - x) >= 0;
    assert a * (y - x) == a * y - a * x;
  }

  lemma Quotient(n: nat, d: nat, q: nat, r: nat)
    requires d > 0 && n == q * d + r && r < d
    ensures n / d == q
  {
    var q' := n / d;
    assert n == q' * d + n % d;
    assert (q + 1) * d == q * d + d && (q' + 1) * d == q' * d + d;
    if q < q' {
      MulLeft(d, q + 1, q');
    } else if q' < q {
      MulLeft(d, q' + 1, q);
    }
  }

  /** Digit `i` of a length, counted from the least significant, is byte `i` of its little-endian prefix and byte `i`
      from the end of its big-endian one. */
  lemma {:induction false} DigitAt(n: nat, width: nat, i: nat)
    requires i < width
    ensures ToBytes(LittleEndian, n, width)[i] == n / Pow256(i) % 256
    ensures ToBytes(BigEndian, n, width)[width - 1 - i] == n / Pow256(i) % 256
  {
    if i > 0 {
      DigitAt(n / 256, width - 1, i - 1);
      DivPow(n, i - 1);
    } else {
      assert n / Pow256(0) == n;
    }
  }

  lemma Digit(high: nat, low: Byte)
    ensures (low + 256 * high) / 256 == high && (low + 256 * high) % 256 == low
  {
  }

  lemma {:induction false} ValueRoundTrip(order: Order, bytes: seq<Byte>)
    ensures FromBytes(order, bytes) < Pow256(|bytes|)
    ensures ToBytes(order, FromBytes(order, bytes), |bytes|) == bytes
  {
    if bytes != [] {
      match order
      case LittleEndian =>
        ValueRoundTrip(order, bytes[1..]);
        Digit(FromBytes(order, bytes[1..]), bytes[0]);
        assert bytes == [bytes[0]] + bytes[1..];
      case BigEndian =>
        ValueRoundTrip(order, bytes[..|bytes| - 1]);
        Digit(FromBytes(order, bytes[..|bytes| - 1]), bytes[|bytes| - 1]);
        assert bytes == bytes[..|bytes| - 1] + [bytes[|bytes| - 1]];
    }
  }

  datatype EncodeResult = Encoded(prefix: seq<Byte>) | TooLarge(length: nat, maxLength: nat)

  /** `serialize_packet_length`. */
  function Encode(c: Endian, length: nat): EncodeResult {
    var max := Pow256(c.width) - 1;
    if length <= max then Encoded(ToBytes(c.order, length, c.width))
    else TooLarge(length, if max <= c.wordMax then max else c.wordMax)
  }

  /** `deserialize_packet_length`: only the first `width` bytes matter. */
  function Decode(c: Endian, buffer: seq<Byte>): Decoded {
    if |buffer| < c.width then NeedMoreBytes(c.width - |buffer|)
    else
      var value := FromBytes(c.order, buffer[..c.width]);
      if value <= c.wordMax then Length(value) else Invalid
  }

  /** For every width, order and word size: an encodable machine-word length decodes to itself, whatever
      follows it, and encoding fails exactly above the largest value of the width. */
  lemma EndianRoundTrip(c: Endian, length: nat, rest: seq<Byte>)
    requires length <= c.wordMax
    ensures Encode(c, length).Encoded? <==> length < Pow256(c.width)
    ensures Encode(c, length).Encoded? ==>
      |Encode(c, length).prefix| == c.width && Decode(c, Encode(c, length).prefix + rest) == Length(length)
  {
    if length < Pow256(c.width) {
      BytesRoundTrip(c.order, length, c.width);
      var prefix := Encode(c, length).prefix;
      assert (prefix + rest)[..c.width] == prefix;
    }
  }

  /** A failed encoding names the rejected length and the largest length the prefix and the word allow. */
  lemma EndianRejection(c: Endian, length: nat)
    requires length <= c.wordMax && length >= Pow256(c.width)
    ensures Encode(c, length) == TooLarge(length, Pow256(c.width) - 1)
  {
  }

  /** Decoding: a short buffer asks for exactly the missing bytes; a full one is rejected exactly if its
      value exceeds the machine word, and otherwise it is the encoding of the length returned. */
  lemma EndianDecoding(c: Endian, buffer: seq<Byte>)
    ensures Decode(c, buffer).NeedMoreBytes? <==> |buffer| < c.width
    ensures |buffer| < c.width ==> |buffer| + Decode(c, buffer).additional == c.width
    ensures |buffer| >= c.width ==>
      (Decode(c, buffer).Invalid? <==> FromBytes(c.order, buffer[..c.width]) > c.wordMax)
    ensures Decode(c, buffer).Length? ==>
      Decode(c, buffer).length <= c.wordMax && Encode(c, Decode(c, buffer).length) == Encoded(buffer[..c.width])
  {
    if |buffer| >= c.width { ValueRoundTrip(c.order, buffer[..c.width]); }
  }

  function AsCodec(c: Endian): Codec {
    Codec(c.width,
          (length: nat) => if length <= c.wordMax && Encode(c, length).Encoded? then Some(Encode(c, length).prefix) else None,
          (buffer: seq<Byte>) => Decode(c, buffer))
  }

  /** The fixed-width codecs are lawful for framing. */
  lemma EndianIsLawful(c: Endian)
    ensures Lawful(AsCodec(c))
  {
    forall length: nat ensures LawfulAt(AsCodec(c), length) {
      if length <= c.wordMax {
        EndianRoundTrip(c, length, []);
        if Encode(c, length).Encoded? { assert Encode(c, length).prefix + [] == Encode(c, length).prefix; }
      }
    }
  }
}
