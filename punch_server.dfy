/*
 * The NAT-punch coordinator of RandomNetKit (RandomNetKit.PunchNAT/PunchServer.cs):
 * it numbers every connecting peer from 1, and on a PunchRequest tells the
 * requester and its target each other's endpoint and id.
 */
module PunchCoordinator {
  import opened Wire
  import opened Wrappers
  import opened PacketCodec
  import opened Net
  import opened Text
  import opened PunchInfoCodec

  const FirstPeerId: u64 := 1
  const HostMarker: string := "I_AM_HOST"

  /** What the server remembers about a connected peer. */
  datatype PeerInfo = PeerInfo(id: u64, externalEndPoint: Endpoint, isHost: bool)

  /** The coordinator's own packets: sender 0, Role PunchServer. */
  function ServerPacket(kind: byte, recipient: u64, data: Payload): Packet
  {
    Packet(kind, RolePunchServer, 0, recipient, data)
  }

  class PunchServer {
    var peerInfo: map<Peer, PeerInfo>
    var idToPeer: map<u64, Peer>
    var nextPeerId: u64
    var outbox: seq<Transmission>
    /** Set once the id counter has run past its maximum and wrapped. */
    ghost var wrapped: bool

    /** While every connection event names a fresh peer: the id table names
        live peers under their own id, each record holds the peer's endpoint,
        and until the counter wraps every id lies in [1, nextPeerId) and every
        live peer is found in the id table under its own id, so the two
        tables are inverse to each other. */
    ghost predicate Valid()
      reads this
    {
      && (forall id :: id in idToPeer ==> idToPeer[id] in peerInfo && peerInfo[idToPeer[id]].id == id)
      && (forall p :: p in peerInfo ==> peerInfo[p].externalEndPoint == p.endPoint)
      && (!wrapped ==>
            && FirstPeerId <= nextPeerId
            && (forall p :: p in peerInfo ==> FirstPeerId <= peerInfo[p].id < nextPeerId)
            && (forall p :: p in peerInfo ==> peerInfo[p].id in idToPeer && idToPeer[peerInfo[p].id] == p))
    }

    constructor ()
      ensures peerInfo == map[] && idToPeer == map[] && nextPeerId == FirstPeerId && outbox == []
      ensures !wrapped && Valid()
    {
      peerInfo := map[];
      idToPeer := map[];
      nextPeerId := FirstPeerId;
      outbox := [];
      wrapped := false;
    }

    /** Every peer, host or not, gets the next id; the record keeps its
        endpoint; IdAssign goes to it, ReliableOrdered. */
    method OnPeerConnected(peer: Peer)
      modifies this
      ensures var id := old(nextPeerId);
              && peerInfo == old(peerInfo)[peer := PeerInfo(id, peer.endPoint, false)]
              && idToPeer == old(idToPeer)[id := peer]
              && nextPeerId == Succ(id)
              && wrapped == (old(wrapped) || id == U64Max)
              && outbox == old(outbox) + [Transmission(peer, ServerPacket(IdAssign, id, []), ReliableOrdered)]
      ensures old(Valid()) && peer !in old(peerInfo) ==> Valid()
      ensures old(Valid()) && !wrapped ==> old(nextPeerId) != 0
    {
      var id := nextPeerId;
      if nextPeerId == U64Max {
        wrapped := true;
      }
      nextPeerId := Succ(nextPeerId);
      peerInfo := peerInfo[peer := PeerInfo(id, peer.endPoint, false)];
      idToPeer := idToPeer[id := peer];
      outbox := outbox + [Transmission(peer, ServerPacket(IdAssign, id, []), ReliableOrdered)];
    }

    /** A registered peer leaves both tables (the id table by the id its
        record holds); an unknown peer changes nothing. */
    method OnPeerDisconnected(peer: Peer)
      modifies this
      ensures nextPeerId == old(nextPeerId) && outbox == old(outbox) && wrapped == old(wrapped)
      ensures peer !in old(peerInfo) ==> peerInfo == old(peerInfo) && idToPeer == old(idToPeer)
      ensures peer in old(peerInfo) ==>
                && peerInfo == old(peerInfo) - {peer}
                && idToPeer == old(idToPeer) - {old(peerInfo)[peer].id}
      ensures old(Valid()) ==> Valid()
    {
      if peer in peerInfo {
        var info := peerInfo[peer];
        idToPeer := idToPeer - {info.id};
        peerInfo := peerInfo - {peer};
      }
    }

    /** The request is accepted; the host tag is stored only for a peer that
        already has a record. */
    method OnConnectionRequest(key: string, peer: Peer)
      modifies this
      ensures peer in old(peerInfo) ==>
                peerInfo == old(peerInfo)[peer := old(peerInfo)[peer].(isHost := Contains(key, HostMarker))]
      ensures peer !in old(peerInfo) ==> peerInfo == old(peerInfo)
      ensures idToPeer == old(idToPeer) && nextPeerId == old(nextPeerId)
      ensures outbox == old(outbox) && wrapped == old(wrapped)
      ensures old(Valid()) ==> Valid()
    {
      if peer in peerInfo {
        peerInfo := peerInfo[peer := peerInfo[peer].(isHost := Contains(key, HostMarker))];
      }
    }

    /** What HandlePunchRequest sends for a request from `requester` naming
        `targetId`: nothing unless the requester, the target id and the
        target's record are all known; otherwise the requester learns the
        target's endpoint and id and the target learns the requester's. */
    ghost predicate Answered(sends: seq<Transmission>, requester: Peer, targetId: u64)
      reads this
    {
      if requester in peerInfo && targetId in idToPeer && idToPeer[targetId] in peerInfo then
        var target := idToPeer[targetId];
        && |sends| == 2
        && sends[0].to == requester && sends[1].to == target
        && sends[0].packet.kind == PunchInfo && sends[1].packet.kind == PunchInfo
        && sends[0].packet.recipientId == peerInfo[target].id
        && sends[1].packet.recipientId == peerInfo[requester].id
        && ReadPunchInfo(sends[0].packet.data) == Some(BodyOf(target.endPoint))
        && ReadPunchInfo(sends[1].packet.data) == Some(BodyOf(requester.endPoint))
        && sends[0].delivery == ReliableOrdered && sends[1].delivery == ReliableOrdered
      else
        sends == []
    }

    /** HandlePunchRequest's sends for a request from `requester` naming
        `targetId`. An unregistered requester or a target with no record makes
        a dictionary lookup throw before anything is sent; an unknown target
        id sends nothing. Otherwise the requester learns the target's endpoint
        and id and the target learns the requester's. `pad1` and `pad2` are
        the unused tails of the two writers' buffers. */
    method PunchReplies(requester: Peer, targetId: u64, pad1: seq<byte>, pad2: seq<byte>)
      returns (sends: seq<Transmission>)
      requires |pad1| <= 0x7FFE_0000 && |pad2| <= 0x7FFE_0000
      ensures Answered(sends, requester, targetId)
      ensures Valid() && !wrapped && targetId == 0 ==> sends == []
    {
      if requester !in peerInfo {
        return [];
      }
      var requestingInfo := peerInfo[requester];
      if targetId !in idToPeer {
        return [];
      }
      var target := idToPeer[targetId];
      if target !in peerInfo {
        return [];
      }
      var targetInfo := peerInfo[target];
      var toRequester := SendPunchInfo(requester, target.endPoint, targetInfo.id, pad1);
      var toTarget := SendPunchInfo(target, requester.endPoint, requestingInfo.id, pad2);
      sends := [toRequester, toTarget];
    }

    /** Dispatch on the decoded packet type: PunchRequest is answered;
        PunchFailed and every other type, and a datagram that does not
        decode, send nothing and change nothing. */
    method OnNetworkReceive(from: Peer, bytes: seq<byte>, pad1: seq<byte>, pad2: seq<byte>)
      modifies this
      requires |pad1| <= 0x7FFE_0000 && |pad2| <= 0x7FFE_0000
      ensures peerInfo == old(peerInfo) && idToPeer == old(idToPeer)
      ensures nextPeerId == old(nextPeerId) && wrapped == old(wrapped)
      ensures |outbox| >= |old(outbox)| && outbox[..|old(outbox)|] == old(outbox)
      ensures Decode(bytes).Failure? || Decode(bytes).value.packet.kind != PunchRequest ==>
                outbox == old(outbox)
      ensures Decode(bytes).Success? && Decode(bytes).value.packet.kind == PunchRequest ==>
                Answered(outbox[|old(outbox)|..], from, Decode(bytes).value.packet.recipientId)
      ensures && Valid() && !wrapped && Decode(bytes).Success?
              && Decode(bytes).value.packet.recipientId == 0 ==>
                outbox == old(outbox)
    {
      var d := Decode(bytes);
      if d.Success? && d.value.packet.kind == PunchRequest {
        var sends := PunchReplies(from, d.value.packet.recipientId, pad1, pad2);
        outbox := outbox + sends;
        assert outbox[|old(outbox)|..] == sends;
      }
    }

    /** Stop empties both tables; the id counter keeps its value. */
    method Stop()
      modifies this
      ensures peerInfo == map[] && idToPeer == map[]
      ensures nextPeerId == old(nextPeerId) && outbox == old(outbox) && wrapped == old(wrapped)
      ensures old(Valid()) ==> Valid()
    {
      peerInfo := map[];
      idToPeer := map[];
    }
  }

  /** SendPunchInfo: a PunchInfo packet to `to` naming `targetId`, whose
      payload is the writer's buffer after Put(address) and Put(port). */
  method SendPunchInfo(to: Peer, targetEndPoint: Endpoint, targetId: u64, pad: seq<byte>)
    returns (t: Transmission)
    requires |pad| <= 0x7FFE_0000
    ensures t.to == to && t.delivery == ReliableOrdered
    ensures t.packet.kind == PunchInfo && t.packet.role == RolePunchServer
    ensures t.packet.senderId == 0 && t.packet.recipientId == targetId
    ensures t.packet.data == EncodePunchInfo(BodyOf(targetEndPoint)) + pad
    ensures ReadPunchInfo(t.packet.data) == Some(BodyOf(targetEndPoint))
    ensures ToEndpoint(ReadPunchInfo(t.packet.data).value) == Some(targetEndPoint)
  {
    var writer := new NetDataWriter();
    writer.PutBytes(LittleEndian(|targetEndPoint.address|, 2));
    writer.PutBytes(targetEndPoint.address);
    writer.PutInt(targetEndPoint.port as i32);
    assert writer.data == EncodePunchInfo(BodyOf(targetEndPoint));
    PunchInfoRoundTrip(targetEndPoint, pad);
    t := Transmission(to, ServerPacket(PunchInfo, targetId, writer.data + pad), ReliableOrdered);
  }

  /** The client always asks for target id 0 ("the host"), but this server
      numbers every peer, hosts included, from 1: as long as the counter has
      not wrapped, that request finds no target and nobody is told anything. */
  method PunchRequestForHostIsLost(host: Peer, client: Peer) returns (server: PunchServer)
    requires host != client
    ensures server.outbox == [
              Transmission(host, ServerPacket(IdAssign, 1, []), ReliableOrdered),
              Transmission(client, ServerPacket(IdAssign, 2, []), ReliableOrdered)]
  {
    server := new PunchServer();
    server.OnConnectionRequest(HostMarker, host);
    server.OnPeerConnected(host);
    server.OnPeerConnected(client);
    assert server.Valid() && !server.wrapped;
    var request := Encode(Packet(PunchRequest, RoleClient, 2, 0, []));
    RoundTrip(Packet(PunchRequest, RoleClient, 2, 0, []), []);
    assert request + [] == request;
    assert Decode(request).value.packet.recipientId == 0;
    server.OnNetworkReceive(client, request, [], []);
  }
}
