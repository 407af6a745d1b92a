/** The ODNP packet codec of src/proto/packet.rs: a fixed 30-byte little-endian
    header followed by at most 65535 bytes of payload. */
module Packet {
  import opened Ints
  import opened Wrappers

  const MAGIC: seq<Byte> := [0x4F, 0x44, 0x4E, 0x50] // "ODNP"
  const VERSION: Byte := 1
  const HEADER_LEN := 30

  datatype Kind = Control | Dtls | Srtp

  function KindByte(k: Kind): Byte {
    match k
    case Control => 1
    case Dtls => 2
    case Srtp => 3
  }

  function KindFromU8(v: Byte): (r: Option<Kind>)
    ensures forall k :: r == Some(k) <==> KindByte(k) == v
  {
    match v
    case 1 => Some(Control)
    case 2 => Some(Dtls)
    case 3 => Some(Srtp)
    case _ => None
  }

  datatype Header = Header(kind: Kind, flags: u16, channelId: u64, srcPeerId: u32, dstPeerId: u32,
                           streamId: u32, payloadLen: u16)

  // Little-endian integers of any width

  function Pow256(n: nat): (r: nat)
    ensures r > 0
  {
    if n == 0 then 1 else 256 * Pow256(n - 1)
  }

  function ToLe(v: nat, width: nat): (r: seq<Byte>)
    ensures |r| == width
  {
    if width == 0 then [] else [v % 256] + ToLe(v / 256, width - 1)
  }

  function FromLe(bytes: seq<Byte>): nat {
    if bytes == [] then 0 else bytes[0] + 256 * FromLe(bytes[1..])
  }

  lemma {:induction false} FromLeBound(bytes: seq<Byte>)
    ensures FromLe(bytes) < Pow256(|bytes|)
  {
    if bytes != [] {
      FromLeBound(bytes[1..]);
    }
  }

  lemma {:induction false} FromToLe(v: nat, width: nat)
    requires v < Pow256(width)
    ensures FromLe(ToLe(v, width)) == v
  {
    if width > 0 {
      FromToLe(v / 256, width - 1);
      assert ToLe(v, width)[1..] == ToLe(v / 256, width - 1);
    }
  }

  lemma {:induction false} ToFromLe(bytes: seq<Byte>)
    ensures ToLe(FromLe(bytes), |bytes|) == bytes
  {
    if bytes != [] {
      ToFromLe(bytes[1..]);
      LowByte(bytes[0], FromLe(bytes[1..]));
      assert bytes == [bytes[0]] + bytes[1..];
    }
  }

  lemma LowByte(b: Byte, rest: nat)
    ensures (b + 256 * rest) % 256 == b && (b + 256 * rest) / 256 == rest
  {
  }

  // The bytes of a little-endian field

  lemma DivUnique(v: nat, d: nat, q: nat, r: nat)
    requires v == d * q + r && r < d
    ensures v / d == q
  {
    if v / d < q {
      MulAtMost(d, v / d + 1, q);
    } else if v / d > q {
      MulAtMost(d, q + 1, v / d);
    }
  }

  lemma MulAtMost(d: nat, x: nat, y: nat)
    requires x <= y
    ensures d * x <= d * y
  {
  }

  lemma DivTwice(v: nat, b: nat)
    requires b > 0
    ensures v / 256 / b == v / (256 * b)
  {
    var q := v / 256 / b;
    var r := v / 256 - b * q;
    assert v / 256 == b * q + r && 0 <= r < b;
    assert v == 256 * (b * q + r) + v % 256;
    assert 256 * (b * q + r) == (256 * b) * q + 256 * r;
    DivUnique(v, 256 * b, q, 256 * r + v % 256);
  }

  /** The byte at position `i` is the one of weight 256 to the `i`. */
  lemma {:induction false} LowBytesFirst(v: nat, width: nat, i: nat)
    requires i < width
    ensures ToLe(v, width)[i] == v / Pow256(i) % 256
  {
    if i > 0 {
      LowBytesFirst(v / 256, width - 1, i - 1);
      DivTwice(v, Pow256(i - 1));
    }
  }

  lemma TwoBytes(v: u16)
    ensures ToLe(v, 2) == [v % 256, v / 256]
  {
    assert ToLe(v / 256, 1) == [v / 256 % 256] + ToLe(v / 256 / 256, 0);
  }

  lemma FourBytes(v: u32)
    ensures ToLe(v, 4) == Quad(v)
  {
    Widths();
    assert Pow256(1) == 0x100 && Pow256(3) == 0x100_0000;
    forall i | 0 <= i < 4 ensures ToLe(v, 4)[i] == v / Pow256(i) % 256 { LowBytesFirst(v, 4, i); }
  }

  lemma ByteOfWeight(v: nat, width: nat, i: nat, weight: nat)
    requires i < width && weight > 0 && Pow256(i) == weight
    ensures ToLe(v, width)[i] == v / weight % 0x100
  {
    LowBytesFirst(v, width, i);
  }

  lemma EightBytes(v: u64)
    ensures ToLe(v, 8) == Octet(v)
  {
    Widths();
    ByteOfWeight(v, 8, 0, 1);
    ByteOfWeight(v, 8, 1, 0x100);
    ByteOfWeight(v, 8, 2, 0x1_0000);
    ByteOfWeight(v, 8, 3, 0x100_0000);
    ByteOfWeight(v, 8, 4, 0x1_0000_0000);
    ByteOfWeight(v, 8, 5, 0x100_0000_0000);
    ByteOfWeight(v, 8, 6, 0x1_0000_0000_0000);
    ByteOfWeight(v, 8, 7, 0x100_0000_0000_0000);
  }

  lemma Widths()
    ensures Pow256(0) == 1 && Pow256(1) == 0x100 && Pow256(3) == 0x100_0000
    ensures Pow256(5) == 0x100_0000_0000 && Pow256(6) == 0x1_0000_0000_0000 && Pow256(7) == 0x100_0000_0000_0000
    ensures Pow256(2) == 0x1_0000 && Pow256(4) == 0x1_0000_0000 && Pow256(8) == 0x1_0000_0000_0000_0000
  {
    assert Pow256(1) == 256;
    assert Pow256(3) == 0x100_0000;
    assert Pow256(5) == 256 * Pow256(4);
    assert Pow256(6) == 256 * Pow256(5);
    assert Pow256(7) == 256 * Pow256(6);
  }

  /** A little-endian field of `width` bytes that holds a value below `limit`. */
  function Field(bytes: seq<Byte>, width: nat, limit: nat): (v: nat)
    requires |bytes| == width && Pow256(width) == limit
    ensures v < limit
    ensures ToLe(v, width) == bytes
    ensures forall x: nat :: x < limit && ToLe(x, width) == bytes ==> x == v
  {
    FromLeBound(bytes);
    ToFromLe(bytes);
    assert forall x: nat :: x < limit && ToLe(x, width) == bytes ==> x == FromLe(bytes) by {
      forall x: nat | x < limit && ToLe(x, width) == bytes ensures x == FromLe(bytes) {
        FromToLe(x, width);
      }
    }
    FromLe(bytes)
  }

  /** The number of payload bytes a packet carries. */
  function CarriedLen(payload: seq<Byte>): u16 {
    if |payload| <= U16_MAX then |payload| else U16_MAX
  }

  function HeaderBytes(h: Header): (r: seq<Byte>)
    ensures |r| == HEADER_LEN
  {
    MAGIC + [VERSION, KindByte(h.kind)] + ToLe(h.flags, 2) + ToLe(h.channelId, 8) + ToLe(h.srcPeerId, 4)
    + ToLe(h.dstPeerId, 4) + ToLe(h.streamId, 4) + ToLe(h.payloadLen, 2)
  }

  /** What `Encode` writes: the caller's `payloadLen` is ignored, the length field
      and the payload are those of the carried prefix. */
  function Encoded(h: Header, payload: seq<Byte>): seq<Byte> {
    HeaderBytes(h.(payloadLen := CarriedLen(payload))) + payload[..CarriedLen(payload)]
  }

  /** The packet as it stands on the wire, byte by byte. */
  ghost predicate OnWire(h: Header, payload: seq<Byte>, out: seq<Byte>) {
    var len := if |payload| <= 65535 then |payload| else 65535;
    && |out| == 30 + len && out[30..] == payload[..len]
    && out[..5] == [0x4F, 0x44, 0x4E, 0x50, 1]
    && out[5] == (match h.kind case Control => 1 case Dtls => 2 case Srtp => 3)
    && out[6] == h.flags % 256 && out[7] == h.flags / 256
    && out[8..16] == Octet(h.channelId)
    && out[16..20] == Quad(h.srcPeerId) && out[20..24] == Quad(h.dstPeerId) && out[24..28] == Quad(h.streamId)
    && out[28] == len % 256 && out[29] == len / 256
  }

  ghost function Quad(v: u32): seq<Byte> {
    [v % 0x100, v / 0x100 % 0x100, v / 0x1_0000 % 0x100, v / 0x100_0000 % 0x100]
  }

  ghost function Octet(v: u64): seq<Byte> {
    [v % 0x100, v / 0x100 % 0x100, v / 0x1_0000 % 0x100, v / 0x100_0000 % 0x100, v / 0x1_0000_0000 % 0x100,
     v / 0x100_0000_0000 % 0x100, v / 0x1_0000_0000_0000 % 0x100, v / 0x100_0000_0000_0000 % 0x100]
  }

  lemma EncodedOnWire(h: Header, payload: seq<Byte>)
    ensures OnWire(h, payload, Encoded(h, payload))
  {
    var len := CarriedLen(payload);
    var g, out := h.(payloadLen := len), Encoded(h, payload);
    assert out[..HEADER_LEN] == HeaderBytes(g);
    HeaderFields(g, out);
    assert out[..5] == out[..4] + [out[4]];
    TwoBytes(h.flags);
    TwoBytes(len);
    EightBytes(h.channelId);
    FourBytes(h.srcPeerId);
    FourBytes(h.dstPeerId);
    FourBytes(h.streamId);
    assert out[6] == out[6..8][0] && out[7] == out[6..8][1] && out[28] == out[28..30][0] && out[29] == out[28..30][1];
  }

  method Encode(h: Header, payload: seq<Byte>) returns (out: seq<Byte>)
    ensures out == Encoded(h, payload) && OnWire(h, payload, out)
  {
    out := [];
    out := out + MAGIC;
    out := out + [VERSION];
    out := out + [KindByte(h.kind)];
    out := out + ToLe(h.flags, 2);
    out := out + ToLe(h.channelId, 8);
    out := out + ToLe(h.srcPeerId, 4);
    out := out + ToLe(h.dstPeerId, 4);
    out := out + ToLe(h.streamId, 4);
    var len: u16 := if |payload| <= U16_MAX then |payload| else U16_MAX;
    out := out + ToLe(len, 2);
    assert out == HeaderBytes(h.(payloadLen := CarriedLen(payload)));
    out := out + payload[..len];
    EncodedOnWire(h, payload);
  }

  function Decode(buf: seq<Byte>): Option<(Header, seq<Byte>)> {
    if |buf| < HEADER_LEN then None
    else if buf[..4] != MAGIC then None
    else if buf[4] != VERSION then None
    else
      match KindFromU8(buf[5])
      case None => None
      case Some(kind) =>
        Widths();
        var h := Header(kind, Field(buf[6..8], 2, 0x1_0000),
                        Field(buf[8..16], 8, 0x1_0000_0000_0000_0000),
                        Field(buf[16..20], 4, 0x1_0000_0000), Field(buf[20..24], 4, 0x1_0000_0000),
                        Field(buf[24..28], 4, 0x1_0000_0000), Field(buf[28..30], 2, 0x1_0000));
        if HEADER_LEN + h.payloadLen > |buf| then None
        else Some((h, buf[HEADER_LEN..HEADER_LEN + h.payloadLen]))
  }

  /** `buf` starts with the 30 header bytes of `h`, field by field. */
  lemma HeaderFields(h: Header, buf: seq<Byte>)
    requires |buf| >= HEADER_LEN
    ensures buf[..HEADER_LEN] == HeaderBytes(h) <==>
            && buf[..4] == MAGIC && buf[4] == VERSION && buf[5] == KindByte(h.kind)
            && buf[6..8] == ToLe(h.flags, 2) && buf[8..16] == ToLe(h.channelId, 8)
            && buf[16..20] == ToLe(h.srcPeerId, 4) && buf[20..24] == ToLe(h.dstPeerId, 4)
            && buf[24..28] == ToLe(h.streamId, 4) && buf[28..30] == ToLe(h.payloadLen, 2)
  {
    var w, b := HeaderBytes(h), buf[..HEADER_LEN];
    assert w[..4] == MAGIC && w[4] == VERSION && w[5] == KindByte(h.kind);
    assert w[6..8] == ToLe(h.flags, 2) && w[8..16] == ToLe(h.channelId, 8);
    assert w[16..20] == ToLe(h.srcPeerId, 4) && w[20..24] == ToLe(h.dstPeerId, 4);
    assert w[24..28] == ToLe(h.streamId, 4) && w[28..30] == ToLe(h.payloadLen, 2);
    assert b[..4] == buf[..4] && b[6..8] == buf[6..8] && b[8..16] == buf[8..16] && b[16..20] == buf[16..20];
    assert b[20..24] == buf[20..24] && b[24..28] == buf[24..28] && b[28..30] == buf[28..30];
    assert b == b[..4] + [b[4], b[5]] + b[6..8] + b[8..16] + b[16..20] + b[20..24] + b[24..28] + b[28..30];
  }

  /** `Decode` succeeds with `(h, p)` exactly when the buffer is the header of `h`
      followed by `p` and a tail, and `p` has the announced length. */
  lemma DecodeExact(buf: seq<Byte>, h: Header, p: seq<Byte>)
    ensures Decode(buf) == Some((h, p)) <==>
            |p| == h.payloadLen && |buf| >= HEADER_LEN + |p| && buf[..HEADER_LEN + |p|] == HeaderBytes(h) + p
  {
    if |buf| >= HEADER_LEN {
      HeaderFields(h, buf);
      Widths();
      if |buf| >= HEADER_LEN + |p| {
        var front := buf[..HEADER_LEN + |p|];
        assert front == buf[..HEADER_LEN] + buf[HEADER_LEN..HEADER_LEN + |p|];
        assert front[..HEADER_LEN] == buf[..HEADER_LEN];
        var w := HeaderBytes(h) + p;
        assert w[..HEADER_LEN] == HeaderBytes(h) && w[HEADER_LEN..] == p;
        assert front[HEADER_LEN..] == buf[HEADER_LEN..HEADER_LEN + |p|];
      }
    }
  }

  /** A decoded header's fields are the values of their bytes, the low bytes first, and
      nothing but the length decides how much payload there is. */
  lemma DecodedFromBytes(buf: seq<Byte>, h: Header, p: seq<Byte>)
    requires Decode(buf) == Some((h, p))
    ensures |p| == h.payloadLen && |buf| >= 30 + |p| && OnWire(h, p, buf[..30 + |p|])
    ensures h.payloadLen == (buf[28] as int) + 256 * (buf[29] as int)
    ensures h.flags == (buf[6] as int) + 256 * (buf[7] as int)
  {
    DecodeExact(buf, h, p);
    assert h.(payloadLen := CarriedLen(p)) == h && p[..CarriedLen(p)] == p;
    assert buf[..30 + |p|] == Encoded(h, p);
    EncodedOnWire(h, p);
  }

  /** Round trip, with anything appended to the datagram. */
  lemma DecodeEncode(h: Header, payload: seq<Byte>, tail: seq<Byte>)
    ensures Decode(Encoded(h, payload) + tail)
            == Some((h.(payloadLen := CarriedLen(payload)), payload[..CarriedLen(payload)]))
    ensures CarriedLen(payload) == if |payload| < 65535 then |payload| else 65535
  {
    var h', p := h.(payloadLen := CarriedLen(payload)), payload[..CarriedLen(payload)];
    var buf := Encoded(h, payload) + tail;
    assert buf[..HEADER_LEN + |p|] == HeaderBytes(h') + p;
    DecodeExact(buf, h', p);
  }

  /** Every accepted datagram is an encoding followed by a tail, and encoding the
      result again gives the datagram back without that tail. */
  lemma EncodeDecode(buf: seq<Byte>)
    ensures Decode(buf).Some? <==> exists h, p, tail :: buf == Encoded(h, p) + tail
    ensures Decode(buf).Some? ==>
              var (h, p) := Decode(buf).value;
              Encoded(h, p) <= buf && |Encoded(h, p)| == HEADER_LEN + h.payloadLen
  {
    if Decode(buf).Some? {
      var (h, p) := Decode(buf).value;
      DecodeExact(buf, h, p);
      assert h.(payloadLen := CarriedLen(p)) == h && p[..CarriedLen(p)] == p;
      assert buf == Encoded(h, p) + buf[HEADER_LEN + |p|..];
    }
    if exists h, p, tail :: buf == Encoded(h, p) + tail {
      var h, p, tail :| buf == Encoded(h, p) + tail;
      DecodeEncode(h, p, tail);
    }
  }
}
