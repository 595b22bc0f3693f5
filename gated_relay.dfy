/*
 * The gated relay server of TinyRelay (TinyRelay/Program.cs, class
 * RelayServer): admission by connection key, one host at a time, host id 0,
 * client ids counted up from 1 and reset when the host leaves, and packet
 * forwarding by recipient id.
 */
module GatedRelay {
  import opened Wire
  import opened Wrappers
  import opened PacketCodec
  import opened Net
  import opened Registry

  const KeyPrefix: string := "relay|"
  const HostRole: string := "I_AM_HOST"
  const ClientRole: string := "I_AM_CLIENT"
  const MaxConnections: nat := 8
  const HostStartId: u64 := 0
  const ClientStartId: u64 := 1

  datatype RejectReason = NoKeyData | BadPrefix | MaxConnectionsReached | NoHostYet | HostAlreadyPresent

  /** What OnConnectionRequest does with a request: Accept() or Reject(). */
  datatype Verdict = Accept | Reject(reason: RejectReason)

  class RelayServer {
    var hostPeer: Option<Peer>
    var nextClientId: u64
    var peerToId: map<Peer, u64>
    var idToPeer: map<u64, Peer>
    /** Every packet this server has handed to the transport, in order. */
    var outbox: seq<Transmission>
    /** Set once the client counter has run past its maximum and wrapped. */
    ghost var wrapped: bool

    /** What holds while every connection event names a fresh peer: the id
        table only names live sessions under their own id, and until the
        counter wraps the host holds id 0 and nobody else does. Client ids do
        not stay below the counter: it restarts at 1 when the host leaves
        while the clients keep theirs. */
    ghost predicate Valid()
      reads this
    {
      && IdTableSound(peerToId, idToPeer)
      && (!wrapped ==>
            && ClientStartId <= nextClientId
            && (hostPeer.Some? ==> hostPeer.value in peerToId && peerToId[hostPeer.value] == HostStartId)
            && (forall p :: p in peerToId && peerToId[p] == HostStartId ==> hostPeer == Some(p)))
    }

    constructor ()
      ensures hostPeer.None? && nextClientId == ClientStartId
      ensures peerToId == map[] && idToPeer == map[] && outbox == []
      ensures !wrapped && Valid()
    {
      hostPeer := None;
      nextClientId := ClientStartId;
      peerToId := map[];
      idToPeer := map[];
      outbox := [];
      wrapped := false;
    }

    /** Admission control. `key` is the string carried by the request, None
        when the request carries no data; `connectedPeers` is the transport's
        count of connected peers. */
    method OnConnectionRequest(key: Option<string>, connectedPeers: nat) returns (v: Verdict)
      ensures v == Accept <==>
                && key.Some?
                && connectedPeers < MaxConnections
                && key.value == KeyPrefix + (if hostPeer.None? then HostRole else ClientRole)
      ensures key.None? ==> v == Reject(NoKeyData)
      ensures key.Some? && !(KeyPrefix <= key.value) ==> v == Reject(BadPrefix)
      ensures key.Some? && KeyPrefix <= key.value && connectedPeers >= MaxConnections ==>
                v == Reject(MaxConnectionsReached)
    {
      if key.None? {
        return Reject(NoKeyData);
      }
      var fullKey := key.value;
      if !(KeyPrefix <= fullKey) {
        return Reject(BadPrefix);
      }
      var role := fullKey[|KeyPrefix|..];
      assert fullKey == KeyPrefix + role;
      if connectedPeers >= MaxConnections {
        return Reject(MaxConnectionsReached);
      }
      if hostPeer.None? {
        v := if role == HostRole then Accept else Reject(NoHostYet);
      } else {
        v := if role == ClientRole then Accept else Reject(HostAlreadyPresent);
      }
      assert v != Accept ==> key.value != KeyPrefix + (if hostPeer.None? then HostRole else ClientRole) by {
        if key.value == KeyPrefix + (if hostPeer.None? then HostRole else ClientRole) {
          assert role == key.value[|KeyPrefix|..];
        }
      }
    }

    /** The first connected peer with no host present becomes the host with id
        0; any other gets the next client id. Both tables record it, then
        SendIdAssignment tells it its id and tells everyone else it joined. */
    method OnPeerConnected(peer: Peer)
      modifies this
      ensures old(hostPeer).None? ==>
                hostPeer == Some(peer) && nextClientId == old(nextClientId) && wrapped == old(wrapped)
      ensures old(hostPeer).Some? ==>
                && hostPeer == old(hostPeer)
                && nextClientId == Succ(old(nextClientId))
                && wrapped == (old(wrapped) || old(nextClientId) == U64Max)
      ensures var id := if old(hostPeer).None? then HostStartId else old(nextClientId);
              && peerToId == old(peerToId)[peer := id]
              && idToPeer == old(idToPeer)[id := peer]
              && |outbox| > |old(outbox)|
              && outbox[..|old(outbox)|] == old(outbox)
              && Welcomed(outbox[|old(outbox)|..], peerToId, peer, id)
      ensures old(Valid()) && peer !in old(peerToId) ==> Valid()
      ensures old(Inverse(peerToId, idToPeer)) && old(!wrapped && Valid()) && peer !in old(peerToId) &&
              (old(hostPeer).None? || old(nextClientId) !in old(idToPeer)) ==>
                Inverse(peerToId, idToPeer)
    {
      var id: u64;
      if hostPeer.None? {
        hostPeer := Some(peer);
        id := HostStartId;
      } else {
        id := nextClientId;
        if nextClientId == U64Max {
          wrapped := true;
        }
        nextClientId := Succ(nextClientId);
      }
      peerToId := peerToId[peer := id];
      idToPeer := idToPeer[id := peer];
      var sends := IdAssignment(peerToId, peer, id);
      outbox := outbox + sends;
      assert outbox[|old(outbox)|..] == sends;
    }

    /** A registered peer leaves both tables (the id table loses the entry
        under the peer's own id, whoever it names now); when it was the host,
        the host slot empties and the client counter restarts at 1. Nothing is
        sent. An unregistered peer changes nothing. */
    method OnPeerDisconnected(peer: Peer)
      modifies this
      ensures outbox == old(outbox) && wrapped == old(wrapped)
      ensures peer !in old(peerToId) ==>
                && peerToId == old(peerToId) && idToPeer == old(idToPeer)
                && hostPeer == old(hostPeer) && nextClientId == old(nextClientId)
      ensures peer in old(peerToId) ==>
                && peerToId == old(peerToId) - {peer}
                && idToPeer == old(idToPeer) - {old(peerToId)[peer]}
      ensures peer in old(peerToId) && old(hostPeer) == Some(peer) ==>
                hostPeer.None? && nextClientId == ClientStartId
      ensures peer in old(peerToId) && old(hostPeer) != Some(peer) ==>
                hostPeer == old(hostPeer) && nextClientId == old(nextClientId)
      ensures old(Valid()) ==> Valid()
      ensures old(Inverse(peerToId, idToPeer)) ==> Inverse(peerToId, idToPeer)
    {
      if peer in peerToId {
        var oldId := peerToId[peer];
        peerToId := peerToId - {peer};
        idToPeer := idToPeer - {oldId};
        if hostPeer == Some(peer) {
          hostPeer := None;
          nextClientId := ClientStartId;
        }
      }
    }

    /** Forwarding: the datagram is decoded and re-sent, to everyone but its
        sender for the broadcast id, else to the peer the id table names. */
    method OnNetworkReceive(from: Peer, bytes: seq<byte>, delivery: DeliveryMethod)
      modifies this
      ensures hostPeer == old(hostPeer) && nextClientId == old(nextClientId) && wrapped == old(wrapped)
      ensures peerToId == old(peerToId) && idToPeer == old(idToPeer)
      ensures |outbox| >= |old(outbox)| && outbox[..|old(outbox)|] == old(outbox)
      ensures Routed(outbox[|old(outbox)|..], peerToId, idToPeer, from, bytes, delivery)
    {
      var sends := Route(peerToId, idToPeer, from, bytes, delivery);
      outbox := outbox + sends;
      assert outbox[|old(outbox)|..] == sends;
    }
  }

  /** The client counter restarts at 1 when the host leaves, while the
      clients admitted under the old host stay connected: the next client
      admitted gets an id that is already in use. From then on the two
      tables are no longer inverse, and once the older holder leaves, the
      newer one can no longer be addressed at all. */
  method IdReuseAfterHostLeaves(host1: Peer, a: Peer, host2: Peer, c: Peer) returns (relay: RelayServer)
    requires host1 != a && host1 != host2 && host1 != c && a != host2 && a != c && host2 != c
    ensures relay.hostPeer == Some(host2)
    ensures c in relay.peerToId && relay.peerToId[c] == ClientStartId
    ensures relay.peerToId[c] !in relay.idToPeer
  {
    relay := new RelayServer();
    var v := relay.OnConnectionRequest(Some(KeyPrefix + HostRole), 0);
    assert v == Accept;
    relay.OnPeerConnected(host1);
    assert relay.hostPeer == Some(host1) && relay.nextClientId == ClientStartId;
    v := relay.OnConnectionRequest(Some(KeyPrefix + ClientRole), 1);
    assert v == Accept;
    relay.OnPeerConnected(a);
    assert relay.peerToId == map[host1 := HostStartId, a := ClientStartId];
    relay.OnPeerDisconnected(host1);
    assert relay.hostPeer.None? && relay.nextClientId == ClientStartId;
    assert relay.peerToId == map[a := ClientStartId];
    v := relay.OnConnectionRequest(Some(KeyPrefix + HostRole), 1);
    assert v == Accept;
    relay.OnPeerConnected(host2);
    assert relay.hostPeer == Some(host2) && relay.nextClientId == ClientStartId;
    v := relay.OnConnectionRequest(Some(KeyPrefix + ClientRole), 2);
    assert v == Accept;
    relay.OnPeerConnected(c);
    assert relay.peerToId[a] == relay.peerToId[c] == ClientStartId;
    assert relay.idToPeer[relay.peerToId[a]] == c;
    assert !Inverse(relay.peerToId, relay.idToPeer);
    relay.OnPeerDisconnected(a);
  }
}
