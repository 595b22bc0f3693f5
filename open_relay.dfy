/*
 * The relay server of RandomNetKit (RandomNetKit.Relay/RelayServer.cs):
 * every connection request is accepted and tagged host when its key mentions
 * I_AM_HOST; hosts get id 0, everyone else the next client id from a counter
 * that is never reset; leaving peers are announced to the rest.
 */
module OpenRelay {
  import opened Wire
  import opened Wrappers
  import opened PacketCodec
  import opened Net
  import opened Registry
  import opened Text

  const HostMarker: string := "I_AM_HOST"
  const HostStartId: u64 := 0
  const ClientStartId: u64 := 1

  class RelayServer {
    var peerToId: map<Peer, u64>
    var idToPeer: map<u64, Peer>
    /** The host tag each accepted connection request left behind. */
    var peerIsHost: map<Peer, bool>
    var nextClientId: u64
    var outbox: seq<Transmission>
    /** Set once the client counter has run past its maximum and wrapped. */
    ghost var wrapped: bool

    /** The id table only names live sessions under their own id, every
        session was tagged by a connection request, and until the counter
        wraps a host holds id 0 and every client an id from 1 up to below
        the counter. */
    ghost predicate Valid()
      reads this
    {
      && IdTableSound(peerToId, idToPeer)
      && peerToId.Keys <= peerIsHost.Keys
      && (!wrapped ==>
            && ClientStartId <= nextClientId
            && (forall p :: p in peerToId ==>
                  if peerIsHost[p] then peerToId[p] == HostStartId
                  else ClientStartId <= peerToId[p] < nextClientId))
    }

    constructor ()
      ensures peerToId == map[] && idToPeer == map[] && peerIsHost == map[]
      ensures nextClientId == ClientStartId && outbox == []
      ensures !wrapped && Valid()
    {
      peerToId := map[];
      idToPeer := map[];
      peerIsHost := map[];
      nextClientId := ClientStartId;
      outbox := [];
      wrapped := false;
    }

    /** Every request is accepted; the peer is tagged host exactly when its
        key (the request's bytes read as text) contains I_AM_HOST. */
    method OnConnectionRequest(key: string, peer: Peer)
      modifies this
      ensures peerIsHost == old(peerIsHost)[peer := Contains(key, HostMarker)]
      ensures peerToId == old(peerToId) && idToPeer == old(idToPeer)
      ensures nextClientId == old(nextClientId) && outbox == old(outbox) && wrapped == old(wrapped)
      ensures old(Valid()) && (peer in old(peerToId) ==> old(peerIsHost)[peer] == peerIsHost[peer]) ==>
                Valid()
    {
      peerIsHost := peerIsHost[peer := Contains(key, HostMarker)];
    }

    /** A peer with no host tag makes the dictionary lookup throw
        (`keyMissing`), before anything changes. A host gets id 0, anyone else
        the next client id; both tables record it and SendIdAssignment
        announces it. */
    method OnPeerConnected(peer: Peer) returns (keyMissing: bool)
      modifies this
      ensures keyMissing <==> peer !in old(peerIsHost)
      ensures keyMissing ==>
                && peerToId == old(peerToId) && idToPeer == old(idToPeer) && peerIsHost == old(peerIsHost)
                && nextClientId == old(nextClientId) && outbox == old(outbox) && wrapped == old(wrapped)
      ensures !keyMissing ==>
                var isHost := old(peerIsHost)[peer];
                var id := if isHost then HostStartId else old(nextClientId);
                && peerIsHost == old(peerIsHost)
                && nextClientId == (if isHost then old(nextClientId) else Succ(old(nextClientId)))
                && wrapped == (old(wrapped) || (!isHost && old(nextClientId) == U64Max))
                && peerToId == old(peerToId)[peer := id]
                && idToPeer == old(idToPeer)[id := peer]
                && |outbox| > |old(outbox)|
                && outbox[..|old(outbox)|] == old(outbox)
                && Welcomed(outbox[|old(outbox)|..], peerToId, peer, id)
      ensures old(Valid()) && peer !in old(peerToId) ==> Valid()
      ensures && old(Inverse(peerToId, idToPeer)) && old(!wrapped && Valid()) && peer !in old(peerToId)
              && (peer in old(peerIsHost) && old(peerIsHost)[peer] ==> HostStartId !in old(idToPeer)) ==>
                Inverse(peerToId, idToPeer)
    {
      if peer !in peerIsHost {
        return true;
      }
      keyMissing := false;
      var isHost := peerIsHost[peer];
      var id: u64;
      if isHost {
        id := HostStartId;
      } else {
        id := nextClientId;
        if nextClientId == U64Max {
          wrapped := true;
        }
        nextClientId := Succ(nextClientId);
      }
      peerToId := peerToId[peer := id];
      idToPeer := idToPeer[id := peer];
      var sends := IdAssignment(peerToId, peer, id);
      outbox := outbox + sends;
      assert outbox[|old(outbox)|..] == sends;
    }

    /** A registered peer leaves all three tables (the id table loses the
        entry under its id, whoever it names now), then every remaining peer
        gets NotifyLeave naming that id. An unregistered peer changes nothing. */
    method OnPeerDisconnected(peer: Peer)
      modifies this
      ensures nextClientId == old(nextClientId) && wrapped == old(wrapped)
      ensures peer !in old(peerToId) ==>
                && peerToId == old(peerToId) && idToPeer == old(idToPeer)
                && peerIsHost == old(peerIsHost) && outbox == old(outbox)
      ensures peer in old(peerToId) ==>
                var id := old(peerToId)[peer];
                && peerToId == old(peerToId) - {peer}
                && idToPeer == old(idToPeer) - {id}
                && peerIsHost == old(peerIsHost) - {peer}
                && |outbox| >= |old(outbox)|
                && outbox[..|old(outbox)|] == old(outbox)
                && Notified(outbox[|old(outbox)|..], peerToId, {}, NotifyLeave, id)
      ensures old(Valid()) ==> Valid()
      ensures old(Inverse(peerToId, idToPeer)) ==> Inverse(peerToId, idToPeer)
    {
      if peer in peerToId {
        var id := peerToId[peer];
        peerToId := peerToId - {peer};
        idToPeer := idToPeer - {id};
        peerIsHost := peerIsHost - {peer};
        var sends := NotifyOthers(peerToId, {}, NotifyLeave, id);
        outbox := outbox + sends;
        assert outbox[|old(outbox)|..] == sends;
      }
    }

    /** Forwarding, exactly as in the gated relay. */
    method OnNetworkReceive(from: Peer, bytes: seq<byte>, delivery: DeliveryMethod)
      modifies this
      ensures peerToId == old(peerToId) && idToPeer == old(idToPeer) && peerIsHost == old(peerIsHost)
      ensures nextClientId == old(nextClientId) && wrapped == old(wrapped)
      ensures |outbox| >= |old(outbox)| && outbox[..|old(outbox)|] == old(outbox)
      ensures Routed(outbox[|old(outbox)|..], peerToId, idToPeer, from, bytes, delivery)
    {
      var sends := Route(peerToId, idToPeer, from, bytes, delivery);
      outbox := outbox + sends;
      assert outbox[|old(outbox)|..] == sends;
    }

    /** Stop empties the three tables; the client counter keeps its value. */
    method Stop()
      modifies this
      ensures peerToId == map[] && idToPeer == map[] && peerIsHost == map[]
      ensures nextClientId == old(nextClientId) && outbox == old(outbox) && wrapped == old(wrapped)
      ensures old(Valid()) ==> Valid()
    {
      peerToId := map[];
      idToPeer := map[];
      peerIsHost := map[];
    }
  }

  /** Nothing stops a second peer from presenting a host key: both get id 0,
      the id table keeps only the newer one, and when the older one leaves it
      takes the id-0 entry with it, so the remaining host can no longer be
      addressed while it is still connected. */
  method DuplicateHosts(h1: Peer, h2: Peer) returns (relay: RelayServer)
    requires h1 != h2
    ensures h2 in relay.peerToId && relay.peerToId[h2] == HostStartId
    ensures HostStartId !in relay.idToPeer
  {
    relay := new RelayServer();
    assert OccursAt(HostMarker, HostMarker, 0);
    relay.OnConnectionRequest(HostMarker, h1);
    var missing := relay.OnPeerConnected(h1);
    assert relay.peerToId == map[h1 := HostStartId];
    relay.OnConnectionRequest(HostMarker, h2);
    missing := relay.OnPeerConnected(h2);
    assert relay.peerToId[h1] == relay.peerToId[h2] == HostStartId;
    assert relay.idToPeer[HostStartId] == h2;
    assert !Inverse(relay.peerToId, relay.idToPeer);
    relay.OnPeerDisconnected(h1);
  }
}
