/** The session registry both relay servers keep (a peer-to-id dictionary and
    its id-to-peer companion) and the loops they run over it: forwarding a
    received packet, and notifying every other session of a join or leave. */
module Registry {
  import opened Wire
  import opened Wrappers
  import opened PacketCodec
  import opened Net

  /** The two dictionaries are inverse to each other: Lookup(LookupId(c)) == c
      and LookupId(Lookup(id)) == id for every live session. */
  ghost predicate Inverse(peerToId: map<Peer, u64>, idToPeer: map<u64, Peer>)
  {
    && (forall p :: p in peerToId ==> peerToId[p] in idToPeer && idToPeer[peerToId[p]] == p)
    && (forall id :: id in idToPeer ==> idToPeer[id] in peerToId && peerToId[idToPeer[id]] == id)
  }

  /** Half of Inverse that survives id collisions: every entry of the id
      table names a live session that holds that id. */
  ghost predicate IdTableSound(peerToId: map<Peer, u64>, idToPeer: map<u64, Peer>)
  {
    forall id :: id in idToPeer ==> idToPeer[id] in peerToId && peerToId[idToPeer[id]] == id
  }

  /** A payload-less packet from the relay: IdAssign, NotifyJoin, NotifyLeave. */
  function Notice(kind: byte, sender: u64, recipient: u64): Packet
  {
    Packet(kind, RoleRelay, sender, recipient, [])
  }

  /** `sends` tells every registered peer outside `except` about `subject`,
      each exactly once and addressed by that peer's own id. */
  ghost predicate Notified(sends: seq<Transmission>, peerToId: map<Peer, u64>, except: set<Peer>,
                           kind: byte, subject: u64)
  {
    && ReachesEachOnce(sends, peerToId.Keys - except)
    && forall i :: 0 <= i < |sends| ==>
         && sends[i].to in peerToId
         && sends[i].packet == Notice(kind, subject, peerToId[sends[i].to])
         && sends[i].delivery == ReliableUnordered
  }

  /** SendIdAssignment's sends: IdAssign (sender 0, recipient the new id) to
      the new peer, then NotifyJoin naming the new id to every other one. */
  ghost predicate Welcomed(sends: seq<Transmission>, peerToId: map<Peer, u64>, peer: Peer, id: u64)
  {
    && |sends| >= 1
    && sends[0] == Transmission(peer, Notice(IdAssign, 0, id), ReliableUnordered)
    && Notified(sends[1..], peerToId, {peer}, NotifyJoin, id)
  }

  /** What OnNetworkReceive of a relay sends for one received datagram. */
  ghost predicate Routed(sends: seq<Transmission>, peerToId: map<Peer, u64>, idToPeer: map<u64, Peer>,
                         from: Peer, bytes: seq<byte>, delivery: DeliveryMethod)
  {
    match Decode(bytes)
    case Failure(_) => sends == []
    case Success(d) =>
      if d.packet.recipientId == BroadcastId then
        && ReachesEachOnce(sends, peerToId.Keys - {from})
        && forall i :: 0 <= i < |sends| ==> sends[i].packet == d.packet && sends[i].delivery == delivery
      else if d.packet.recipientId in idToPeer then
        sends == [Transmission(idToPeer[d.packet.recipientId], d.packet, delivery)]
      else
        sends == []
  }

  /** The foreach over the registered peers that sends one copy of `packet`
      to each peer other than `from`, with the arriving delivery method. */
  method Broadcast(peerToId: map<Peer, u64>, from: Peer, packet: Packet, delivery: DeliveryMethod)
    returns (sends: seq<Transmission>)
    ensures ReachesEachOnce(sends, peerToId.Keys - {from})
    ensures forall i :: 0 <= i < |sends| ==> sends[i].packet == packet && sends[i].delivery == delivery
  {
    sends := [];
    var pending := peerToId.Keys;
    while pending != {}
      invariant pending <= peerToId.Keys
      invariant ReachesEachOnce(sends, peerToId.Keys - pending - {from})
      invariant forall i :: 0 <= i < |sends| ==> sends[i].packet == packet && sends[i].delivery == delivery
      decreases pending
    {
      var target :| target in pending;
      ghost var done := peerToId.Keys - pending - {from};
      if target != from {
        ReachOneMore(sends, done, Transmission(target, packet, delivery));
        sends := sends + [Transmission(target, packet, delivery)];
        assert peerToId.Keys - (pending - {target}) - {from} == done + {target};
      } else {
        assert peerToId.Keys - (pending - {target}) - {from} == done;
      }
      pending := pending - {target};
    }
    assert peerToId.Keys - pending - {from} == peerToId.Keys - {from};
  }

  /** The foreach that tells every registered peer outside `except` about
      `subject`, reliably but unordered, addressed by the peer's own id. */
  method NotifyOthers(peerToId: map<Peer, u64>, except: set<Peer>, kind: byte, subject: u64)
    returns (sends: seq<Transmission>)
    ensures Notified(sends, peerToId, except, kind, subject)
  {
    sends := [];
    var pending := peerToId.Keys;
    while pending != {}
      invariant pending <= peerToId.Keys
      invariant ReachesEachOnce(sends, peerToId.Keys - pending - except)
      invariant forall i :: 0 <= i < |sends| ==>
                  && sends[i].to in peerToId
                  && sends[i].packet == Notice(kind, subject, peerToId[sends[i].to])
                  && sends[i].delivery == ReliableUnordered
      decreases pending
    {
      var target :| target in pending;
      ghost var done := peerToId.Keys - pending - except;
      if target !in except {
        assert peerToId.Keys - (pending - {target}) - except == done + {target};
        ReachOneMore(sends, done, Transmission(target, Notice(kind, subject, peerToId[target]), ReliableUnordered));
        sends := sends + [Transmission(target, Notice(kind, subject, peerToId[target]), ReliableUnordered)];
      } else {
        assert peerToId.Keys - (pending - {target}) - except == done;
      }
      pending := pending - {target};
    }
    assert peerToId.Keys - pending - except == peerToId.Keys - except;
  }

  /** OnNetworkReceive of both relay servers: a packet that does not decode is
      dropped (the exception is caught); one addressed to the broadcast id
      goes to every other registered peer; any other recipient id gets one
      copy if it is registered and nothing otherwise. Forwarded copies keep
      the arriving delivery method. */
  method Route(peerToId: map<Peer, u64>, idToPeer: map<u64, Peer>, from: Peer,
               bytes: seq<byte>, delivery: DeliveryMethod)
    returns (sends: seq<Transmission>)
    ensures Routed(sends, peerToId, idToPeer, from, bytes, delivery)
    ensures Decode(bytes).Success? && Decode(bytes).value.packet.recipientId == BroadcastId ==>
              forall i :: 0 <= i < |sends| ==> sends[i].to != from
  {
    var decoded := Decode(bytes);
    if decoded.Failure? {
      return [];
    }
    var packet := decoded.value.packet;
    if packet.recipientId == BroadcastId {
      sends := Broadcast(peerToId, from, packet, delivery);
    } else if packet.recipientId in idToPeer {
      sends := [Transmission(idToPeer[packet.recipientId], packet, delivery)];
    } else {
      sends := [];
    }
  }

  /** SendIdAssignment of both relay servers. */
  method IdAssignment(peerToId: map<Peer, u64>, peer: Peer, id: u64) returns (sends: seq<Transmission>)
    ensures Welcomed(sends, peerToId, peer, id)
  {
    var notices := NotifyOthers(peerToId, {peer}, NotifyJoin, id);
    sends := [Transmission(peer, Notice(IdAssign, 0, id), ReliableUnordered)] + notices;
    assert sends[1..] == notices;
  }

  /** What a relay forwards is byte for byte the packet it received, without
      any bytes that trailed it in the datagram. */
  lemma ForwardedBytes(bytes: seq<byte>)
    requires Decode(bytes).Success?
    ensures Encode(Decode(bytes).value.packet) == bytes[..Decode(bytes).value.consumed]
  {
    DecodeCanonical(bytes);
  }
}
