/*
 * The relay-only client transport, LiteNetLibTransport, of which the
 * repository has two copies (TinyRelay.Client/LiteNetLibTransport.cs and
 * RandomNetKit.Transport/Unity/LiteNetLibTransport.cs). They differ in one
 * place: DisconnectLocalClient of the TinyRelay copy dereferences the relay
 * peer without a null check, the RandomNetKit copy does not. The class below
 * is either copy, chosen by `nullSafeDisconnect`.
 */
module RelayClient {
  import opened Wire
  import opened Wrappers
  import opened PacketCodec
  import opened Net
  import opened ClientCommon

  class LiteNetLibTransport {
    /** The relay's Address and Port. */
    const relay: Endpoint
    const baseKey: string
    /** True for the RandomNetKit copy. */
    const nullSafeDisconnect: bool

    var hostType: HostType
    var relayPeer: Option<Peer>
    var localClientId: u64
    /** Requests made of the NetManager and the relay peer, in order. */
    var actions: seq<NetAction>
    /** Events raised to the application, in order. */
    var events: seq<AppEvent>

    /** The transport after Initialize. */
    constructor (relay: Endpoint, baseKey: string, nullSafeDisconnect: bool)
      ensures this.relay == relay && this.baseKey == baseKey && this.nullSafeDisconnect == nullSafeDisconnect
      ensures hostType == NotStarted && relayPeer.None? && localClientId == 0
      ensures actions == [] && events == []
    {
      this.relay := relay;
      this.baseKey := baseKey;
      this.nullSafeDisconnect := nullSafeDisconnect;
      hostType := NotStarted;
      relayPeer := None;
      localClientId := 0;
      actions := [];
      events := [];
    }

    /** StartServer and StartClient. A started transport throws and changes
        nothing. Otherwise the host type is recorded first, so it stays set
        even when NetManager.Start fails (`netStarted`) or Connect returns null
        (`connectReturned`); Connect is asked for the relay with the role key. */
    method Start(asServer: bool, netStarted: bool, connectReturned: bool) returns (r: StartOutcome)
      modifies this
      ensures old(hostType) != NotStarted ==>
                r == AlreadyStarted && hostType == old(hostType) && actions == old(actions)
      ensures old(hostType) == NotStarted ==>
                && hostType == (if asServer then Server else Client)
                && actions == old(actions) + (if netStarted then [ConnectTo(relay, RoleKey(baseKey, asServer))] else [])
                && r == (if !netStarted then NetStartFailed else if !connectReturned then ConnectFailed else Connecting)
      ensures relayPeer == old(relayPeer) && localClientId == old(localClientId) && events == old(events)
    {
      if hostType != NotStarted {
        return AlreadyStarted;
      }
      hostType := if asServer then Server else Client;
      if !netStarted {
        return NetStartFailed;
      }
      actions := actions + [ConnectTo(relay, RoleKey(baseKey, asServer))];
      r := if connectReturned then Connecting else ConnectFailed;
    }

    method StartServer(netStarted: bool, connectReturned: bool) returns (r: StartOutcome)
      modifies this
      ensures old(hostType) != NotStarted ==>
                r == AlreadyStarted && hostType == old(hostType) && actions == old(actions)
      ensures old(hostType) == NotStarted ==>
                && hostType == Server
                && actions == old(actions) + (if netStarted then [ConnectTo(relay, RoleKey(baseKey, true))] else [])
                && r == (if !netStarted then NetStartFailed else if !connectReturned then ConnectFailed else Connecting)
      ensures r.Succeeded() <==> old(hostType) == NotStarted && netStarted && connectReturned
      ensures relayPeer == old(relayPeer) && localClientId == old(localClientId) && events == old(events)
    {
      r := Start(true, netStarted, connectReturned);
    }

    method StartClient(netStarted: bool, connectReturned: bool) returns (r: StartOutcome)
      modifies this
      ensures old(hostType) != NotStarted ==>
                r == AlreadyStarted && hostType == old(hostType) && actions == old(actions)
      ensures old(hostType) == NotStarted ==>
                && hostType == Client
                && actions == old(actions) + (if netStarted then [ConnectTo(relay, RoleKey(baseKey, false))] else [])
                && r == (if !netStarted then NetStartFailed else if !connectReturned then ConnectFailed else Connecting)
      ensures r.Succeeded() <==> old(hostType) == NotStarted && netStarted && connectReturned
      ensures relayPeer == old(relayPeer) && localClientId == old(localClientId) && events == old(events)
    {
      r := Start(false, netStarted, connectReturned);
    }

    /** Shutdown: the manager is stopped, the host type cleared and the relay
        peer forgotten. */
    method Shutdown()
      modifies this
      ensures hostType == NotStarted && relayPeer.None?
      ensures actions == old(actions) + [StopManager]
      ensures localClientId == old(localClientId) && events == old(events)
    {
      actions := actions + [StopManager];
      hostType := NotStarted;
      relayPeer := None;
    }

    /** The Data packet Send hands to the relay peer; None when the send is
        dropped because there is no relay peer or it is not connected. */
    function Outgoing(clientId: u64, data: Payload, qos: NetworkDelivery, peerConnected: bool): (r: Option<Transmission>)
      reads this
      ensures r.Some? <==> relayPeer.Some? && peerConnected
      ensures r.Some? ==>
                && r.value.to == relayPeer.value
                && r.value.packet.kind == Data
                && (r.value.packet.role == RoleHost <==> hostType == Server)
                && r.value.packet.senderId == localClientId
                && r.value.packet.recipientId == clientId
                && r.value.packet.data == data
                && r.value.delivery == ConvertDelivery(qos)
    {
      if relayPeer.None? || !peerConnected then None
      else Some(Transmission(relayPeer.value, DataPacket(hostType == Server, localClientId, clientId, data),
                             ConvertDelivery(qos)))
    }

    /** Send. `peerConnected` is the relay peer's ConnectionState. */
    method Send(clientId: u64, data: Payload, qos: NetworkDelivery, peerConnected: bool)
      modifies this
      ensures var t := old(Outgoing(clientId, data, qos, peerConnected));
              actions == old(actions) + (if t.Some? then [Transmit(t.value)] else [])
      ensures hostType == old(hostType) && relayPeer == old(relayPeer)
      ensures localClientId == old(localClientId) && events == old(events)
    {
      var t := Outgoing(clientId, data, qos, peerConnected);
      if t.Some? {
        actions := actions + [Transmit(t.value)];
      }
    }

    /** DisconnectLocalClient: disconnect everyone, stop, clear the host type,
        disconnect the relay peer and forget it. With no relay peer the
        TinyRelay copy throws at that point (`threw`); the final state is the
        same either way. */
    method DisconnectLocalClient() returns (threw: bool)
      modifies this
      ensures threw <==> !nullSafeDisconnect && old(relayPeer).None?
      ensures hostType == NotStarted && relayPeer.None?
      ensures actions == old(actions) + [DisconnectAllPeers, StopManager]
                         + (if old(relayPeer).Some? then [DisconnectPeer(old(relayPeer).value)] else [])
      ensures localClientId == old(localClientId) && events == old(events)
    {
      actions := actions + [DisconnectAllPeers, StopManager];
      hostType := NotStarted;
      if relayPeer.None? {
        return !nullSafeDisconnect;
      }
      threw := false;
      actions := actions + [DisconnectPeer(relayPeer.value)];
      relayPeer := None;
    }

    /** OnPeerConnected: the connected peer is the relay. */
    method OnPeerConnected(peer: Peer)
      modifies this
      ensures relayPeer == Some(peer)
      ensures hostType == old(hostType) && localClientId == old(localClientId)
      ensures actions == old(actions) && events == old(events)
    {
      relayPeer := Some(peer);
    }

    /** Losing the relay peer shuts the transport down; losing any other
        peer changes nothing. */
    method OnPeerDisconnected(peer: Peer)
      modifies this
      ensures old(relayPeer) == Some(peer) ==>
                hostType == NotStarted && relayPeer.None? && actions == old(actions) + [StopManager]
      ensures old(relayPeer) != Some(peer) ==>
                hostType == old(hostType) && relayPeer == old(relayPeer) && actions == old(actions)
      ensures localClientId == old(localClientId) && events == old(events)
    {
      if relayPeer == Some(peer) {
        relayPeer := None;
        Shutdown();
      }
    }

    /** OnNetworkReceive. A datagram that does not decode makes Deserialize
        throw out of the handler (`threw`) with nothing changed. IdAssign
        stores the assigned id; the events raised are RelayEvents'. */
    method OnNetworkReceive(bytes: seq<byte>) returns (threw: bool)
      modifies this
      ensures threw <==> Decode(bytes).Failure?
      ensures threw ==> localClientId == old(localClientId) && events == old(events)
      ensures !threw ==>
                var p := Decode(bytes).value.packet;
                && localClientId == (if p.kind == IdAssign then p.recipientId else old(localClientId))
                && events == old(events) + RelayEvents(hostType, p)
      ensures hostType == old(hostType) && relayPeer == old(relayPeer) && actions == old(actions)
    {
      var d := Decode(bytes);
      if d.Failure? {
        return true;
      }
      threw := false;
      var p := d.value.packet;
      if p.kind == IdAssign {
        localClientId := p.recipientId;
      }
      events := events + RelayEvents(hostType, p);
    }
  }

  /** A client that starts, meets the relay and is assigned an id reports
      the server (id 0) as connected and afterwards sends as that id. */
  method ClientJoinsThroughRelay(relay: Endpoint, relayPeer: Peer, id: u64, data: Payload)
    returns (t: LiteNetLibTransport)
    ensures t.hostType == Client && t.localClientId == id
    ensures t.events == [ConnectEvent(ServerClientId)]
    ensures t.actions == [ConnectTo(relay, "relay|I_AM_CLIENT"),
                          Transmit(Transmission(relayPeer, DataPacket(false, id, ServerClientId, data), ReliableOrdered))]
  {
    t := new LiteNetLibTransport(relay, "relay", true);
    var started := t.StartClient(true, true);
    RoleKeysMatchGatedRelay(false);
    assert "relay|" + "I_AM_CLIENT" == "relay|I_AM_CLIENT";
    assert t.actions == [ConnectTo(relay, "relay|I_AM_CLIENT")];
    t.OnPeerConnected(relayPeer);
    var assign := Encode(Packet(IdAssign, RoleRelay, 0, id, []));
    RoundTrip(Packet(IdAssign, RoleRelay, 0, id, []), []);
    assert assign + [] == assign;
    var threw := t.OnNetworkReceive(assign);
    IdAssignReportsServer(id);
    assert t.hostType == Client && t.relayPeer == Some(relayPeer) && t.localClientId == id;
    t.Send(ServerClientId, data, ReliableSequencedKind, true);
  }
}
