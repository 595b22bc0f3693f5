/*
 * The payload of a PunchInfo packet: the other party's address as a string,
 * then its port as a 32-bit integer, written with NetDataWriter.Put(string)
 * and Put(int) (RandomNetKit.PunchNAT/PunchServer.cs:154-156) and read back
 * with GetString and GetInt (RandomNetKit.Transport/Unity/PunchTransport.cs:335-337).
 * The string is framed as a 2-byte little-endian byte count followed by the
 * bytes; the writer's Data is its whole buffer, so the payload may carry
 * unused bytes after the port, and a reader only looks at a prefix.
 */
module PunchInfoCodec {
  import opened Wire
  import opened Wrappers
  import opened Net

  /** What the client reads back before building an IPEndPoint from it. */
  datatype PunchInfoBody = PunchInfoBody(address: AddressText, port: i32)

  /** The body written for an endpoint. */
  function BodyOf(ep: Endpoint): PunchInfoBody
  {
    PunchInfoBody(ep.address, ep.port as i32)
  }

  /** The bytes Put(address) then Put(port) append to an empty writer. */
  function EncodePunchInfo(b: PunchInfoBody): (r: seq<byte>)
    ensures |r| == 2 + |b.address| + 4
    ensures FromLittleEndian(r[..2]) == |b.address|
    ensures r[2..2 + |b.address|] == b.address
    ensures GetI32(r[2 + |b.address|..2 + |b.address| + 4]) == b.port
  {
    LittleEndianRoundTrip(|b.address|, 2);
    I32RoundTrip(b.port);
    var r := LittleEndian(|b.address|, 2) + b.address + PutI32(b.port);
    assert r[..2] == LittleEndian(|b.address|, 2);
    assert r[2..2 + |b.address|] == b.address;
    assert r[2 + |b.address|..2 + |b.address| + 4] == PutI32(b.port);
    r
  }

  /** GetString then GetInt over a payload; None where a read runs past the
      end of the payload. */
  function ReadPunchInfo(payload: seq<byte>): (r: Option<PunchInfoBody>)
    ensures r.None? <==>
              || |payload| < 2
              || |payload| < 2 + FromLittleEndian(payload[..2]) + 4
  {
    if |payload| < 2 then None
    else
      var n := FromLittleEndian(payload[..2]);
      assert n < 0x1_0000 by { assert Pow256(2) == 0x1_0000; }
      if |payload| < 2 + n + 4 then None
      else Some(PunchInfoBody(payload[2..2 + n], GetI32(payload[2 + n..2 + n + 4])))
  }

  /** new IPEndPoint(address, port): a port outside 0..65535 throws. */
  function ToEndpoint(b: PunchInfoBody): (r: Option<Endpoint>)
    ensures r.Some? <==> 0 <= b.port as int <= 0xFFFF
    ensures r.Some? ==> BodyOf(r.value) == b
  {
    if 0 <= b.port as int <= 0xFFFF then Some(Endpoint(b.address, b.port as int)) else None
  }

  /** Reading a payload written for an endpoint, whatever unused buffer bytes
      follow it, gives back that endpoint. */
  lemma PunchInfoRoundTrip(ep: Endpoint, slack: seq<byte>)
    ensures ReadPunchInfo(EncodePunchInfo(BodyOf(ep)) + slack) == Some(BodyOf(ep))
    ensures ToEndpoint(BodyOf(ep)) == Some(ep)
  {
    var e := EncodePunchInfo(BodyOf(ep));
    var payload := e + slack;
    var n := |ep.address|;
    assert payload[..2] == e[..2];
    assert payload[2..2 + n] == e[2..2 + n];
    assert payload[2 + n..2 + n + 4] == e[2 + n..2 + n + 4];
  }

  /** What a successful read returns is determined by a prefix of the payload:
      the payload starts with the encoding of the body that was read. */
  lemma ReadIsPrefix(payload: seq<byte>)
    requires ReadPunchInfo(payload).Some?
    ensures EncodePunchInfo(ReadPunchInfo(payload).value) <= payload
  {
    var b := ReadPunchInfo(payload).value;
    var n := |b.address|;
    var e := EncodePunchInfo(b);
    FromLittleEndianCanonical(payload[..2]);
    I32Canonical(payload[2 + n..2 + n + 4]);
    assert e[..2] == LittleEndian(n, 2) == payload[..2];
    assert e[2 + n..2 + n + 4] == payload[2 + n..2 + n + 4];
    assert e == payload[..2 + n + 4];
  }
}
