/** The relay wire message and its framing: a 22-byte header (type, role,
    sender id, recipient id, signed payload length) followed by the payload.
    Both copies of the codec in the repository (TinyRelay/TinyRelay.Share.cs
    and TinyRelay.Shared/Packet.cs) write and read exactly this layout. */
module PacketCodec {
  import opened Wire
  import opened Wrappers

  // PacketType byte values.
  const Connect: byte := 0x01
  const Disconnect: byte := 0x02
  const Data: byte := 0x03
  const IdAssign: byte := 0x04
  const NotifyJoin: byte := 0x05
  const NotifyLeave: byte := 0x06
  // The punch protocol's types are declared in RandomNetKit.Core.Shared,
  // which is not part of this model: these three values only stand for
  // three distinct codes that differ from the relay protocol's.
  const PunchRequest: byte := 0x07
  const PunchInfo: byte := 0x08
  const PunchFailed: byte := 0x09

  // Role byte values; RolePunchServer stands for RandomNetKit's extra role.
  const RoleHost: byte := 0x01
  const RoleClient: byte := 0x02
  const RoleRelay: byte := 0x03
  const RolePunchServer: byte := 0x04

  /** Recipient id meaning "every other connected session" (ulong.MaxValue). */
  const BroadcastId: u64 := U64Max

  const HeaderSize: nat := 22

  /** A payload is a C# byte array, so its length fits a non-negative int. */
  type Payload = s: seq<byte> | |s| <= 0x7FFF_FFFF

  /** The value a Packet object carries: its four header fields and its
      payload, which is empty when the object holds no data array. The type
      and role bytes are not restricted to the declared enum members: the
      decoder casts whatever byte it reads. */
  datatype Packet = Packet(kind: byte, role: byte, senderId: u64, recipientId: u64, data: Payload)

  /** Why Deserialize throws. */
  datatype DecodeError = ShortHeader | MissingLength | NegativeLength | TruncatedPayload

  /** A decoded packet and the number of bytes the reader advanced. */
  datatype Decoded = Decoded(packet: Packet, consumed: nat)

  /** Serialize: the bytes Packet.Serialize appends to the writer. */
  function Encode(p: Packet): (r: seq<byte>)
    ensures |r| == HeaderSize + |p.data|
    ensures r[0] == p.kind && r[1] == p.role
    ensures GetU64(r[2..10]) == p.senderId && GetU64(r[10..18]) == p.recipientId
    ensures GetI32(r[18..22]) as int == |p.data|
    ensures r[HeaderSize..] == p.data
  {
    var r := [p.kind, p.role] + PutU64(p.senderId) + PutU64(p.recipientId)
             + PutI32(|p.data| as i32) + p.data;
    assert r[2..10] == PutU64(p.senderId);
    assert r[10..18] == PutU64(p.recipientId);
    assert r[18..22] == PutI32(|p.data| as i32);
    U64RoundTrip(p.senderId);
    U64RoundTrip(p.recipientId);
    I32RoundTrip(|p.data| as i32);
    r
  }

  /** The payload length a buffer of at least 22 bytes declares. */
  function DeclaredLength(b: seq<byte>): i32
    requires |b| >= HeaderSize
  {
    GetI32(b[18..22])
  }

  /** Deserialize, on the bytes still available to the reader. */
  function Decode(b: seq<byte>): (r: Result<Decoded, DecodeError>)
    ensures r.Failure? <==>
              |b| < HeaderSize || DeclaredLength(b) < 0
              || |b| < HeaderSize + DeclaredLength(b) as int
    ensures r.Failure? ==> r.error != MissingLength
    ensures r.Success? ==>
              r.value.consumed == HeaderSize + |r.value.packet.data| <= |b|
  {
    if |b| < HeaderSize then Failure(ShortHeader)
    else
      // After the 18 bytes of type, role and the two ids.
      if |b| - 18 < 4 then Failure(MissingLength)
      else
        var len := GetI32(b[18..22]);
        if len < 0 then Failure(NegativeLength)
        else if |b| - HeaderSize < len as int then Failure(TruncatedPayload)
        else
          var p := Packet(b[0], b[1], GetU64(b[2..10]), GetU64(b[10..18]),
                          b[HeaderSize..HeaderSize + len as int]);
          Success(Decoded(p, HeaderSize + len as int))
  }

  /** Decoding an encoding gives back every field and the payload, whatever
      follows it in the buffer, and consumes exactly the encoding. */
  lemma RoundTrip(p: Packet, trailing: seq<byte>)
    ensures Decode(Encode(p) + trailing) == Success(Decoded(p, HeaderSize + |p.data|))
  {
    var e := Encode(p);
    var b := e + trailing;
    assert b[..|e|] == e;
    assert b[2..10] == e[2..10] && b[10..18] == e[10..18] && b[18..22] == e[18..22];
    assert b[HeaderSize..HeaderSize + |p.data|] == e[HeaderSize..];
  }

  /** A successful decode reads a canonical encoding: re-encoding the packet
      reproduces exactly the bytes that were consumed. */
  lemma DecodeCanonical(b: seq<byte>)
    requires Decode(b).Success?
    ensures b[..Decode(b).value.consumed] == Encode(Decode(b).value.packet)
  {
    var d := Decode(b).value;
    var e := Encode(d.packet);
    U64Canonical(b[2..10]);
    U64Canonical(b[10..18]);
    I32Canonical(b[18..22]);
    assert e[2..10] == b[2..10];
    assert e[10..18] == b[10..18];
    assert e[18..22] == b[18..22];
    assert e[..2] == b[..2];
    assert e[HeaderSize..] == b[HeaderSize..d.consumed];
    assert e == e[..2] + e[2..10] + e[10..18] + e[18..22] + e[HeaderSize..];
    assert b[..d.consumed] == b[..2] + b[2..10] + b[10..18] + b[18..22] + b[HeaderSize..d.consumed];
  }

  /** Bytes after a well-formed packet are neither an error nor read. */
  lemma TrailingBytesIgnored(b: seq<byte>, trailing: seq<byte>)
    requires Decode(b).Success?
    ensures Decode(b + trailing) == Decode(b)
  {
    var d := Decode(b).value;
    DecodeCanonical(b);
    assert b == b[..d.consumed] + b[d.consumed..];
    RoundTrip(d.packet, b[d.consumed..] + trailing);
    assert b + trailing == Encode(d.packet) + (b[d.consumed..] + trailing);
    RoundTrip(d.packet, b[d.consumed..]);
  }

  /** A buffer cut anywhere inside an encoding never decodes, so no partial
      packet is ever produced from it. */
  lemma TruncationRejected(p: Packet, n: nat)
    requires n < |Encode(p)|
    ensures Decode(Encode(p)[..n]).Failure?
  {
    var e := Encode(p);
    if n >= HeaderSize {
      assert e[..n][18..22] == e[18..22];
    }
  }
}
