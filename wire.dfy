/** The byte-level layer underneath the packet codec: LiteNetLib's
    NetDataWriter appends fixed-width integers least significant byte first,
    and NetDataReader reads them back from a cursor. Only the operations the
    codec uses are modelled. */
module Wire {

  newtype byte = x: int | 0 <= x < 0x100
  newtype u64 = x: int | 0 <= x < 0x1_0000_0000_0000_0000
  newtype i32 = x: int | -0x8000_0000 <= x < 0x8000_0000

  const U64Max: u64 := 0xFFFF_FFFF_FFFF_FFFF

  /** C#'s unchecked `ulong` increment: wraps from U64Max to 0. */
  function Succ(x: u64): (r: u64)
    ensures x < U64Max ==> r as int == x as int + 1
    ensures x == U64Max ==> r == 0
  {
    if x == U64Max then 0 else x + 1
  }

  function Pow256(n: nat): (r: nat)
    ensures r >= 1
  {
    if n == 0 then 1 else 256 * Pow256(n - 1)
  }

  /** The n low-order bytes of x, least significant first. */
  function LittleEndian(x: nat, n: nat): (r: seq<byte>)
    ensures |r| == n
  {
    if n == 0 then [] else [(x % 256) as byte] + LittleEndian(x / 256, n - 1)
  }

  /** The number a little-endian byte string denotes. */
  function FromLittleEndian(s: seq<byte>): (r: nat)
    ensures r < Pow256(|s|)
  {
    if s == [] then 0
    else
      var rest := FromLittleEndian(s[1..]);
      assert rest <= Pow256(|s| - 1) - 1;
      assert 256 * rest <= 256 * Pow256(|s| - 1) - 256;
      s[0] as nat + 256 * rest
  }

  lemma {:induction false} LittleEndianRoundTrip(x: nat, n: nat)
    requires x < Pow256(n)
    ensures FromLittleEndian(LittleEndian(x, n)) == x
  {
    if n > 0 {
      var s := LittleEndian(x, n);
      assert s[1..] == LittleEndian(x / 256, n - 1);
      LittleEndianRoundTrip(x / 256, n - 1);
    }
  }

  lemma {:induction false} FromLittleEndianCanonical(s: seq<byte>)
    ensures LittleEndian(FromLittleEndian(s), |s|) == s
  {
    if s != [] {
      var x := FromLittleEndian(s);
      assert x % 256 == s[0] as nat;
      assert x / 256 == FromLittleEndian(s[1..]);
      FromLittleEndianCanonical(s[1..]);
    }
  }

  /** NetDataWriter.Put(ulong): eight bytes. */
  function PutU64(x: u64): (r: seq<byte>)
    ensures |r| == 8
  {
    LittleEndian(x as nat, 8)
  }

  /** NetDataReader.GetULong on eight bytes. */
  function GetU64(s: seq<byte>): (r: u64)
    requires |s| == 8
  {
    FromLittleEndian(s) as u64
  }

  /** NetDataWriter.Put(int): four bytes of the two's complement form. */
  function PutI32(x: i32): (r: seq<byte>)
    ensures |r| == 4
  {
    LittleEndian(if x < 0 then x as int + 0x1_0000_0000 else x as int, 4)
  }

  /** NetDataReader.GetInt on four bytes: the top bit is the sign. */
  function GetI32(s: seq<byte>): (r: i32)
    requires |s| == 4
  {
    var u := FromLittleEndian(s);
    if u >= 0x8000_0000 then (u - 0x1_0000_0000) as i32 else u as i32
  }

  lemma U64RoundTrip(x: u64)
    ensures GetU64(PutU64(x)) == x
  {
    LittleEndianRoundTrip(x as nat, 8);
  }

  lemma U64Canonical(s: seq<byte>)
    requires |s| == 8
    ensures PutU64(GetU64(s)) == s
  {
    FromLittleEndianCanonical(s);
  }

  lemma I32RoundTrip(x: i32)
    ensures GetI32(PutI32(x)) == x
  {
    LittleEndianRoundTrip(if x < 0 then x as int + 0x1_0000_0000 else x as int, 4);
  }

  lemma I32Canonical(s: seq<byte>)
    requires |s| == 4
    ensures PutI32(GetI32(s)) == s
  {
    FromLittleEndianCanonical(s);
  }

  /** LiteNetLib's NetDataWriter: a growing byte buffer. */
  class NetDataWriter {
    var data: seq<byte>

    constructor ()
      ensures data == []
    {
      data := [];
    }

    method PutByte(b: byte)
      modifies this
      ensures data == old(data) + [b]
    {
      data := data + [b];
    }

    method PutULong(x: u64)
      modifies this
      ensures data == old(data) + PutU64(x)
    {
      data := data + PutU64(x);
    }

    method PutInt(x: i32)
      modifies this
      ensures data == old(data) + PutI32(x)
    {
      data := data + PutI32(x);
    }

    method PutBytes(bytes: seq<byte>)
      modifies this
      ensures data == old(data) + bytes
    {
      data := data + bytes;
    }
  }

  /** LiteNetLib's NetDataReader: a cursor over a received buffer. */
  class NetDataReader {
    const source: seq<byte>
    var position: nat

    ghost predicate Valid()
      reads this
    {
      position <= |source|
    }

    function AvailableBytes(): (n: nat)
      reads this
      requires Valid()
      ensures n == |source| - position
    {
      |source| - position
    }

    /** The bytes not read yet. */
    function Rest(): (s: seq<byte>)
      reads this
      requires Valid()
      ensures |s| == AvailableBytes()
    {
      source[position..]
    }

    constructor (bytes: seq<byte>)
      ensures source == bytes && position == 0 && Valid()
    {
      source := bytes;
      position := 0;
    }

    method GetByte() returns (b: byte)
      requires Valid() && AvailableBytes() >= 1
      modifies this
      ensures Valid() && position == old(position) + 1
      ensures b == old(Rest())[0]
    {
      b := source[position];
      position := position + 1;
    }

    method GetULong() returns (x: u64)
      requires Valid() && AvailableBytes() >= 8
      modifies this
      ensures Valid() && position == old(position) + 8
      ensures x == GetU64(old(Rest())[..8])
    {
      assert source[position..position + 8] == Rest()[..8];
      x := GetU64(source[position..position + 8]);
      position := position + 8;
    }

    method GetInt() returns (x: i32)
      requires Valid() && AvailableBytes() >= 4
      modifies this
      ensures Valid() && position == old(position) + 4
      ensures x == GetI32(old(Rest())[..4])
    {
      assert source[position..position + 4] == Rest()[..4];
      x := GetI32(source[position..position + 4]);
      position := position + 4;
    }

    method GetBytes(n: nat) returns (bytes: seq<byte>)
      requires Valid() && AvailableBytes() >= n
      modifies this
      ensures Valid() && position == old(position) + n
      ensures bytes == old(Rest())[..n]
    {
      bytes := source[position..position + n];
      position := position + n;
    }
  }
}
