/** The UDP packet: a 4-byte little-endian id length, the window id, then 16-bit little-endian samples. */
module Packets {
  import opened Samples
  import opened Results

  type byte = x: int | 0 <= x < 0x100

  const ID_LEN_LIMIT: nat := 0x1_0000_0000
  const IQ_BLOCK_SAMPLES: nat := 65536

  /** The size of the receive buffer; a longer datagram is cut off there. */
  const RECEIVE_BUFFER: nat := 4 + 64 + IQ_BLOCK_SAMPLES * 4

  /** The largest payload of a UDP datagram over IPv4: 65,535 bytes less 20 of IP and 8 of UDP header. */
  const MAX_DATAGRAM: nat := 65507

  // ---- scalars ----

  function LengthBytes(n: nat): (b: seq<byte>)
    requires n < ID_LEN_LIMIT
    ensures |b| == 4
  {
    [n % 0x100, n / 0x100 % 0x100, n / 0x100 / 0x100 % 0x100, n / 0x100 / 0x100 / 0x100]
  }

  function BytesLength(b: seq<byte>): (n: nat)
    requires |b| == 4
    ensures n < ID_LEN_LIMIT
  {
    var b0: int, b1: int, b2: int, b3: int := b[0], b[1], b[2], b[3];
    b0 + 0x100 * (b1 + 0x100 * (b2 + 0x100 * b3))
  }

  /** The number some bytes write, the lowest first. */
  function LittleEndian(b: seq<byte>): nat {
    if b == [] then 0 else b[0] as int + 0x100 * LittleEndian(b[1..])
  }

  lemma LengthRoundTrip(n: nat)
    requires n < ID_LEN_LIMIT
    ensures BytesLength(LengthBytes(n)) == n
  {}

  lemma LengthUnique(b: seq<byte>)
    requires |b| == 4
    ensures LengthBytes(BytesLength(b)) == b
  {
    var b0: int, b1: int, b2: int, b3: int := b[0], b[1], b[2], b[3];
    var n3 := b2 + 0x100 * b3;
    var n2 := b1 + 0x100 * n3;
    var n := b0 + 0x100 * n2;
    assert n % 0x100 == b0 && n / 0x100 == n2;
    assert n2 % 0x100 == b1 && n2 / 0x100 == n3;
    assert n3 % 0x100 == b2 && n3 / 0x100 == b3;
  }

  /** Two's complement. */
  function LowByte(v: int16): byte {
    (if v < 0 then v + 0x1_0000 else v) % 0x100
  }

  function HighByte(v: int16): byte {
    (if v < 0 then v + 0x1_0000 else v) / 0x100
  }

  function ToInt16(lo: byte, hi: byte): int16 {
    var u := lo + 0x100 * hi;
    if u >= 0x8000 then u - 0x1_0000 else u
  }

  lemma Int16RoundTrip(v: int16, lo: byte, hi: byte)
    ensures ToInt16(LowByte(v), HighByte(v)) == v
    ensures LowByte(ToInt16(lo, hi)) == lo && HighByte(ToInt16(lo, hi)) == hi
  {}

  function SampleBytes(p: seq<int16>): (b: seq<byte>)
    ensures |b| == 2 * |p|
  {
    seq(2 * |p|, i requires 0 <= i < 2 * |p| => if i % 2 == 0 then LowByte(p[i / 2]) else HighByte(p[i / 2]))
  }

  function BytesSamples(b: seq<byte>): (p: seq<int16>)
    requires |b| % 2 == 0
    ensures |p| == |b| / 2
  {
    seq(|b| / 2, i requires 0 <= i < |b| / 2 => ToInt16(b[2 * i], b[2 * i + 1]))
  }

  lemma SamplesRoundTrip(p: seq<int16>)
    ensures BytesSamples(SampleBytes(p)) == p
  {
    hide LowByte, HighByte, ToInt16;
    forall i | 0 <= i < |p| ensures BytesSamples(SampleBytes(p))[i] == p[i] {
      Int16RoundTrip(p[i], 0, 0);
      assert 2 * i / 2 == i && (2 * i + 1) / 2 == i;
    }
  }

  lemma SampleBytesUnique(b: seq<byte>)
    requires |b| % 2 == 0
    ensures SampleBytes(BytesSamples(b)) == b
  {
    hide LowByte, HighByte, ToInt16;
    forall i | 0 <= i < |b| ensures SampleBytes(BytesSamples(b))[i] == b[i] {
      var k := i / 2;
      Int16RoundTrip(0, b[2 * k], b[2 * k + 1]);
    }
  }

  // ---- packets ----

  /** The part of an id its 32-bit length covers. */
  function SentId(id: seq<byte>): (sent: seq<byte>)
    ensures |sent| < ID_LEN_LIMIT && (|id| < ID_LEN_LIMIT ==> sent == id)
  {
    id[..|id| % ID_LEN_LIMIT]
  }

  /** What the sender writes. */
  function Encode(id: seq<byte>, payload: seq<int16>): seq<byte> {
    LengthBytes(|SentId(id)|) + SentId(id) + SampleBytes(payload)
  }

  /** `sendto`: a packet too long for one datagram is refused, and the sender does not look. */
  function Send(pkt: seq<byte>): Option<seq<byte>> {
    if |pkt| <= MAX_DATAGRAM then Some(pkt) else None
  }

  /** The third outcome is the read of an id past the end of the buffer, after which nothing is defined. */
  datatype Decoded = Rejected | Accepted(windowId: seq<byte>, iq: seq<int16>) | OutOfBounds

  /** What the receiver makes of the bytes it got. The length it compares is a sum of 32 bits. */
  function Decode(buf: seq<byte>): Decoded
    requires |buf| <= RECEIVE_BUFFER
  {
    if |buf| < 4 then Rejected else
      var n := BytesLength(buf[..4]);
      if (4 + n) % ID_LEN_LIMIT > |buf| then Rejected
      else if 4 + n > RECEIVE_BUFFER then OutOfBounds
      else
        var payload := buf[4 + n..];
        if payload == [] || |payload| % 2 != 0 then Rejected
        else Accepted(buf[4..4 + n], BytesSamples(payload))
  }

  /** What `recv` hands over. */
  function Receive(datagram: seq<byte>): (buf: seq<byte>)
    ensures |buf| <= RECEIVE_BUFFER
  {
    if |datagram| <= RECEIVE_BUFFER then datagram else datagram[..RECEIVE_BUFFER]
  }

  /** The guard keeps the read inside the buffer exactly for headers whose sum with 4 does not wrap. */
  lemma InBoundsExactly(buf: seq<byte>)
    requires 4 <= |buf| <= RECEIVE_BUFFER
    ensures Decode(buf) != OutOfBounds <==>
      LittleEndian(buf[..4]) < 0xFFFF_FFFC
  {
    hide BytesLength, BytesSamples;
    FourBytes(buf[..4]);
    var n := BytesLength(buf[..4]);
    if n >= ID_LEN_LIMIT - 4 {
      assert (4 + n) % ID_LEN_LIMIT == n - (ID_LEN_LIMIT - 4);
    }
  }

  lemma EncodeParts(id: seq<byte>, payload: seq<int16>)
    ensures var e, w := Encode(id, payload), SentId(id);
      && |e| == 4 + |w| + 2 * |payload| && e[..4] == LengthBytes(|w|)
      && e[4..4 + |w|] == w && e[4 + |w|..] == SampleBytes(payload)
  {
    hide LengthBytes, SampleBytes, SentId;
  }

  /**
   * The wire format: four bytes of id length, the lowest first, the id as far
   * as they count it, then two bytes a sample in two's complement, low byte
   * first.
   */
  lemma WireFormat(id: seq<byte>, payload: seq<int16>)
    ensures var e, w := Encode(id, payload), |id| % 0x1_0000_0000;
      && |e| == 4 + w + 2 * |payload|
      && LittleEndian(e[..4]) == w
      && e[4..4 + w] == id[..w]
      && forall i :: 0 <= i < |payload| ==>
        (LittleEndian(e[4 + w + 2 * i..4 + w + 2 * i + 2]) - payload[i] as int) % 0x1_0000 == 0
  {
    hide LengthBytes, SampleBytes, LowByte, HighByte;
    var e, w := Encode(id, payload), |id| % 0x1_0000_0000;
    EncodeParts(id, payload);
    LengthDigits(w);
    forall i | 0 <= i < |payload|
      ensures (LittleEndian(e[4 + w + 2 * i..4 + w + 2 * i + 2]) - payload[i] as int) % 0x1_0000 == 0
    {
      SampleDigits(payload, i);
      assert e[4 + w + 2 * i..4 + w + 2 * i + 2] == e[4 + w..][2 * i..2 * i + 2];
    }
  }

  lemma LengthDigits(n: nat)
    requires n < ID_LEN_LIMIT
    ensures LittleEndian(LengthBytes(n)) == n
  {
    LengthRoundTrip(n);
    FourBytes(LengthBytes(n));
  }

  lemma FourBytes(b: seq<byte>)
    requires |b| == 4
    ensures LittleEndian(b) == BytesLength(b)
  {
    assert b[1..][1..] == b[2..] && b[2..][1..] == b[3..] && b[3..][1..] == [];
    assert LittleEndian(b[3..]) == b[3] as int && LittleEndian(b[2..]) == b[2] as int + 0x100 * LittleEndian(b[3..]);
  }

  lemma SampleDigits(p: seq<int16>, i: nat)
    requires i < |p|
    ensures (LittleEndian(SampleBytes(p)[2 * i..2 * i + 2]) - p[i] as int) % 0x1_0000 == 0
  {
    hide LowByte, HighByte;
    Digits(p[i]);
    assert 2 * i / 2 == i && (2 * i + 1) / 2 == i;
    assert SampleBytes(p)[2 * i..2 * i + 2] == [LowByte(p[i]), HighByte(p[i])];
  }

  lemma Digits(v: int16)
    ensures (LittleEndian([LowByte(v), HighByte(v)]) - v as int) % 0x1_0000 == 0
  {
    var b := [LowByte(v), HighByte(v)];
    assert b[1..] == [HighByte(v)];
    assert LittleEndian([HighByte(v)]) == HighByte(v) as int;
  }

  /** A packet with samples that fits the receive buffer is decoded to what it was made from. */
  lemma DecodesToSent(id: seq<byte>, payload: seq<int16>)
    requires payload != [] && 4 + |SentId(id)| + 2 * |payload| <= RECEIVE_BUFFER
    ensures Decode(Receive(Encode(id, payload))) == Accepted(SentId(id), payload)
  {
    hide LengthBytes, BytesLength, SampleBytes, BytesSamples, SentId;
    EncodeParts(id, payload);
    LengthRoundTrip(|SentId(id)|);
    SamplesRoundTrip(payload);
    assert SampleBytes(payload) != [];
  }

  /**
   * A packet survives the receive buffer exactly when it has samples, its id
   * length fits its field and it fits the buffer.
   */
  lemma PacketRoundTrip(id: seq<byte>, payload: seq<int16>)
    ensures Decode(Receive(Encode(id, payload))) == Accepted(id, payload)
      <==> payload != [] && 4 + |id| + 2 * |payload| <= 262212
  {
    hide LengthBytes, BytesLength, SampleBytes, BytesSamples;
    var e := Encode(id, payload);
    EncodeParts(id, payload);
    if payload != [] && 4 + |id| + 2 * |payload| <= RECEIVE_BUFFER {
      DecodesToSent(id, payload);
    } else {
      match Decode(Receive(e))
      case Rejected =>
      case OutOfBounds =>
      case Accepted(w, p) =>
        assert 4 + |w| + 2 * |p| == |Receive(e)| && p != [];
    }
  }

  /** A full emulator block fits the receive buffer for every id of at most 64 bytes. */
  lemma FullBlockFits(id: seq<byte>, payload: seq<int16>)
    requires |id| <= 64 && |payload| == 2 * IQ_BLOCK_SAMPLES
    ensures Decode(Receive(Encode(id, payload))) == Accepted(id, payload)
  {
    hide Encode, Decode, Receive;
    PacketRoundTrip(id, payload);
  }

  /** What the receiver makes of a packet that was given to `sendto`. */
  function Transmission(id: seq<byte>, payload: seq<int16>): Decoded {
    match Send(Encode(id, payload))
    case None => Rejected
    case Some(datagram) => Decode(Receive(datagram))
  }

  /** Samples that fit one datagram with the part of their id that is sent. */
  predicate Transmissible(id: seq<byte>, payload: seq<int16>) {
    payload != [] && 4 + |id| % 0x1_0000_0000 + 2 * |payload| <= 65507
  }

  /** Over the network exactly these arrive. */
  lemma TransmissionRoundTrip(id: seq<byte>, payload: seq<int16>)
    ensures Transmission(id, payload) ==
      if payload != [] && 4 + |id| % 0x1_0000_0000 + 2 * |payload| <= 65507
      then Accepted(id[..|id| % 0x1_0000_0000], payload) else Rejected
  {
    hide LengthBytes, BytesLength, SampleBytes, BytesSamples;
    EncodeParts(id, payload);
    if Transmissible(id, payload) {
      DecodesToSent(id, payload);
    } else if payload == [] && |Encode(id, payload)| <= MAX_DATAGRAM {
      LengthRoundTrip(|SentId(id)|);
    }
  }

  lemma Transmitted(id: seq<byte>, payload: seq<int16>)
    ensures Transmission(id, payload) ==
      if Transmissible(id, payload) then Accepted(SentId(id), payload) else Rejected
  {
    hide Transmission;
    TransmissionRoundTrip(id, payload);
  }

  /** A full emulator block never does, whatever the id. */
  lemma FullBlockNeverSent(id: seq<byte>, payload: seq<int16>)
    requires |payload| == 2 * IQ_BLOCK_SAMPLES
    ensures Send(Encode(id, payload)) == None && Transmission(id, payload) == Rejected
  {
    hide Encode;
    EncodeParts(id, payload);
  }

  /** The receiver accepts nothing but encodings: every accepted packet re-encodes to itself. */
  lemma AcceptedReencodes(buf: seq<byte>)
    requires |buf| <= RECEIVE_BUFFER && Decode(buf).Accepted?
    ensures Encode(Decode(buf).windowId, Decode(buf).iq) == buf && Decode(buf).iq != []
  {
    hide LengthBytes, BytesLength, SampleBytes, BytesSamples;
    var n := BytesLength(buf[..4]);
    LengthUnique(buf[..4]);
    SampleBytesUnique(buf[4 + n..]);
    assert n % ID_LEN_LIMIT == n;
    assert buf == buf[..4] + buf[4..4 + n] + buf[4 + n..];
    assert buf[4..4 + n][..n] == buf[4..4 + n];
  }

  // ---- the sender's buffer ----

  /** memcpy into `pkt` at `offset`. */
  method CopyBytes(pkt: array<byte>, offset: nat, bytes: seq<byte>)
    requires offset + |bytes| <= pkt.Length
    modifies pkt
    ensures pkt[..] == old(pkt[..offset]) + bytes + old(pkt[offset + |bytes|..])
  {
    ghost var was := pkt[..];
    var i := 0;
    while i < |bytes|
      invariant 0 <= i <= |bytes|
      invariant pkt[..] == was[..offset] + bytes[..i] + was[offset + i..]
    {
      ghost var now := pkt[..];
      pkt[offset + i] := bytes[i];
      assert pkt[..] == now[offset + i := bytes[i]];
      assert bytes[..i + 1] == bytes[..i] + [bytes[i]];
      i := i + 1;
    }
    assert bytes[..|bytes|] == bytes;
  }

  /** The stream callback up to the send: dropped and empty blocks are not sent. */
  method BuildPacket(id: seq<byte>, payload: seq<int16>, dropped: bool) returns (pkt: Option<seq<byte>>)
    ensures pkt == if dropped || payload == [] then None else Some(Encode(id, payload))
  {
    hide LengthBytes, SampleBytes;
    if dropped || payload == [] {
      return None;
    }
    var idLen := |id| % ID_LEN_LIMIT;
    var total := 4 + idLen + 2 * |payload|;
    var buf := new byte[total](_ => 0);
    CopyBytes(buf, 0, LengthBytes(idLen));
    CopyBytes(buf, 4, id[..idLen]);
    CopyBytes(buf, 4 + idLen, SampleBytes(payload));
    assert buf[..] == LengthBytes(idLen) + id[..idLen] + SampleBytes(payload);
    return Some(buf[..]);
  }
}
