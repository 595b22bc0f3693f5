/** The C# Packet object: four settable header fields, a payload array that
    is null when there is no data, and a disposed flag. Serialize, Send and
    Clone refuse a disposed packet; Deserialize builds a fresh packet from a
    reader; Clone copies the payload into a fresh array. */
module PacketObjects {
  import opened Wire
  import opened Wrappers
  import opened PacketCodec
  import opened Net

  /** The exceptions the Packet members throw. */
  datatype PacketFault = ObjectDisposed | Malformed(error: DecodeError)

  datatype Outcome = Done | Threw(fault: PacketFault)

  class PacketObject {
    var kind: byte
    var role: byte
    var senderId: u64
    var recipientId: u64
    var data: array?<byte>
    var disposed: bool

    /** A payload array is never empty: SetData stores "no data" as null. */
    ghost predicate Valid()
      reads this
    {
      data != null ==> 0 < data.Length <= 0x7FFF_FFFF
    }

    /** The Data property: the array's contents, or empty for null. */
    function Payload(): (s: Payload)
      reads this, data
      requires Valid()
      ensures data == null ==> s == []
      ensures data != null ==> s == data[..]
    {
      if data == null then [] else data[..]
    }

    /** The packet value this object currently carries. */
    function Value(): Packet
      reads this, data
      requires Valid()
    {
      Packet(kind, role, senderId, recipientId, Payload())
    }

    /** new Packet(type): role, ids and payload at their defaults. */
    constructor (kind: byte)
      ensures Valid() && !disposed && data == null
      ensures Value() == Packet(kind, 0, 0, 0, [])
    {
      this.kind := kind;
      role := 0;
      senderId := 0;
      recipientId := 0;
      data := null;
      disposed := false;
    }

    /** new Packet(data, type). */
    constructor WithPayload(bytes: Payload, kind: byte)
      ensures Valid() && !disposed
      ensures Value() == Packet(kind, 0, 0, 0, bytes)
      ensures data != null ==> fresh(data)
    {
      this.kind := kind;
      role := 0;
      senderId := 0;
      recipientId := 0;
      disposed := false;
      new;
      if |bytes| == 0 {
        data := null;
      } else {
        var a := new byte[|bytes|];
        forall i | 0 <= i < |bytes| {
          a[i] := bytes[i];
        }
        data := a;
      }
    }

    /** SetData: an empty span leaves no array; otherwise the array (reused
        when its length already matches) holds a copy of the bytes. */
    method SetData(bytes: Payload)
      requires Valid()
      modifies this, data
      ensures Valid()
      ensures Payload() == bytes
      ensures |bytes| == 0 <==> data == null
      ensures data != null && data != old(data) ==> fresh(data)
      ensures old(data) != null && old(data.Length) == |bytes| ==> data == old(data)
      ensures kind == old(kind) && role == old(role) && senderId == old(senderId)
      ensures recipientId == old(recipientId) && disposed == old(disposed)
    {
      if |bytes| == 0 {
        data := null;
        return;
      }
      if data == null || data.Length != |bytes| {
        data := new byte[|bytes|];
      }
      forall i | 0 <= i < |bytes| {
        data[i] := bytes[i];
      }
    }

    method WithRole(r: byte) returns (self: PacketObject)
      requires Valid()
      modifies this
      ensures self == this && Valid() && Value() == old(Value()).(role := r)
      ensures disposed == old(disposed) && data == old(data)
    {
      role := r;
      self := this;
    }

    method WithSender(id: u64) returns (self: PacketObject)
      requires Valid()
      modifies this
      ensures self == this && Valid() && Value() == old(Value()).(senderId := id)
      ensures disposed == old(disposed) && data == old(data)
    {
      senderId := id;
      self := this;
    }

    method WithRecipient(id: u64) returns (self: PacketObject)
      requires Valid()
      modifies this
      ensures self == this && Valid() && Value() == old(Value()).(recipientId := id)
      ensures disposed == old(disposed) && data == old(data)
    {
      recipientId := id;
      self := this;
    }

    method WithData(bytes: Payload) returns (self: PacketObject)
      requires Valid()
      modifies this, data
      ensures self == this && Valid() && Value() == old(Value()).(data := bytes)
      ensures disposed == old(disposed)
      ensures data != null && data != old(data) ==> fresh(data)
    {
      SetData(bytes);
      self := this;
    }

    /** Serialize: appends the encoding to the writer, field by field. */
    method Serialize(writer: NetDataWriter) returns (r: Outcome)
      requires Valid()
      modifies writer
      ensures disposed ==> r == Threw(ObjectDisposed) && writer.data == old(writer.data)
      ensures !disposed ==> r == Done && writer.data == old(writer.data) + Encode(Value())
    {
      if disposed {
        return Threw(ObjectDisposed);
      }
      writer.PutByte(kind);
      writer.PutByte(role);
      writer.PutULong(senderId);
      writer.PutULong(recipientId);
      var payload := Payload();
      writer.PutInt(|payload| as i32);
      if |payload| != 0 {
        writer.PutBytes(payload);
      }
      assert writer.data == old(writer.data) + Encode(Value());
      r := Done;
    }

    /** Send: serializes into a fresh writer and hands the bytes to the peer. */
    method Send(peer: Peer, delivery: DeliveryMethod) returns (r: Result<Transmission, PacketFault>)
      requires Valid()
      ensures disposed <==> r.Failure?
      ensures r.Failure? ==> r.error == ObjectDisposed
      ensures r.Success? ==> r.value == Transmission(peer, Value(), delivery)
    {
      if disposed {
        return Failure(ObjectDisposed);
      }
      var writer := new NetDataWriter();
      var _ := Serialize(writer);
      r := Success(Transmission(peer, Value(), delivery));
    }

    /** Deserialize: reads one packet from the reader's cursor, or throws. */
    static method Deserialize(reader: NetDataReader) returns (r: Result<PacketObject, PacketFault>)
      requires reader.Valid()
      modifies reader
      ensures reader.Valid()
      ensures r.Failure? <==> Decode(old(reader.Rest())).Failure?
      ensures r.Failure? ==> r.error == Malformed(Decode(old(reader.Rest())).error)
      ensures r.Success? ==>
                && fresh(r.value) && r.value.Valid() && !r.value.disposed
                && (r.value.data != null ==> fresh(r.value.data))
                && r.value.Value() == Decode(old(reader.Rest())).value.packet
                && reader.position == old(reader.position) + Decode(old(reader.Rest())).value.consumed
    {
      ghost var input := reader.Rest();
      if reader.AvailableBytes() < HeaderSize {
        return Failure(Malformed(ShortHeader));
      }
      var kind := reader.GetByte();
      var role := reader.GetByte();
      assert reader.Rest() == input[2..];
      var sender := reader.GetULong();
      assert sender == GetU64(input[2..10]) by {
        assert input[2..][..8] == input[2..10];
      }
      assert reader.Rest() == input[10..];
      var recipient := reader.GetULong();
      assert recipient == GetU64(input[10..18]) by {
        assert input[10..][..8] == input[10..18];
      }
      assert reader.Rest() == input[18..];
      if reader.AvailableBytes() < 4 {
        return Failure(Malformed(MissingLength));
      }
      var len := reader.GetInt();
      assert len == GetI32(input[18..22]) by {
        assert input[18..][..4] == input[18..22];
      }
      assert reader.Rest() == input[HeaderSize..];
      if len < 0 {
        return Failure(Malformed(NegativeLength));
      }
      if reader.AvailableBytes() < len as int {
        return Failure(Malformed(TruncatedPayload));
      }
      var bytes: seq<byte> := [];
      if len > 0 {
        bytes := reader.GetBytes(len as nat);
      }
      assert bytes == input[HeaderSize..HeaderSize + len as int];
      var p := new PacketObject(kind);
      p.role := role;
      p.senderId := sender;
      p.recipientId := recipient;
      p.SetData(bytes);
      r := Success(p);
    }

    /** Clone: a new packet with the same fields and, when there is data, a
        freshly allocated copy of the payload array. */
    method Clone() returns (r: Result<PacketObject, PacketFault>)
      requires Valid()
      ensures disposed <==> r.Failure?
      ensures r.Failure? ==> r.error == ObjectDisposed
      ensures r.Success? ==>
                && fresh(r.value) && r.value.Valid() && !r.value.disposed
                && r.value.Value() == Value()
                && (data == null <==> r.value.data == null)
                && (r.value.data != null ==> fresh(r.value.data))
    {
      if disposed {
        return Failure(ObjectDisposed);
      }
      var clone := new PacketObject(kind);
      clone.role := role;
      clone.senderId := senderId;
      clone.recipientId := recipientId;
      if data != null {
        var copy := new byte[data.Length];
        forall i | 0 <= i < data.Length {
          copy[i] := data[i];
        }
        clone.data := copy;
      }
      r := Success(clone);
    }

    /** Dispose: the first call drops the payload and marks the packet
        disposed; later calls change nothing. */
    method Dispose()
      requires Valid()
      modifies this
      ensures Valid() && disposed
      ensures old(disposed) ==> data == old(data)
      ensures !old(disposed) ==> data == null
      ensures kind == old(kind) && role == old(role) && senderId == old(senderId)
      ensures recipientId == old(recipientId)
    {
      if !disposed {
        data := null;
        disposed := true;
      }
    }
  }

  /** A clone and its original never share a payload: writing into the
      clone's array leaves the original's value as it was. */
  method CloneIsIndependent(original: PacketObject, b: byte)
    requires original.Valid() && !original.disposed
    ensures original.Valid() && original.Value() == old(original.Value())
  {
    var r := original.Clone();
    var clone := r.value;
    if clone.data != null {
      clone.data[0] := b;
    }
    clone.Dispose();
  }

  /** After Dispose, Serialize, Send and Clone all throw, and disposing
      again changes nothing. */
  method UseAfterDispose(p: PacketObject, peer: Peer, writer: NetDataWriter)
    requires p.Valid()
    modifies p, writer
    ensures p.disposed && (!old(p.disposed) ==> p.data == null)
    ensures writer.data == old(writer.data)
  {
    p.Dispose();
    var s := p.Serialize(writer);
    assert s == Threw(ObjectDisposed);
    var t := p.Send(peer, ReliableOrdered);
    assert t.Failure?;
    var c := p.Clone();
    assert c.Failure?;
    ghost var before := p.Value();
    p.Dispose();
    assert p.Value() == before;
  }
}
