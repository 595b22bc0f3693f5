/*
 * The punch-first client transport of RandomNetKit
 * (RandomNetKit.Transport/Unity/PunchTransport.cs): it meets the punch
 * server, learns its id, asks for the host, and on PunchInfo tries a direct
 * connection; when that times out or drops it falls back to the relay.
 * Unity's clock is an integer tick count passed to the handlers.
 */
module PunchClient {
  import opened Wire
  import opened Wrappers
  import opened PacketCodec
  import opened Net
  import opened ClientCommon
  import opened PunchInfoCodec

  datatype ConnectionState =
    | Disconnected
    | ConnectingToPunchServer
    | WaitingForPunch
    | Punching
    | Connected
    | ConnectingToRelay

  /** What moves the connection state. */
  datatype Stimulus =
    | StartedNet                    // StartServer/StartClient got a running NetManager
    | PeerUp                        // OnPeerConnected
    | CurrentPeerDown               // OnPeerDisconnected of the current peer
    | OtherPeerDown                 // OnPeerDisconnected of any other peer
    | Tick(expired: bool)           // Update; `expired`: the punch timeout has passed
    | PunchInfoAccepted             // a PunchInfo whose endpoint could be built
    | Reset                         // Shutdown or DisconnectLocalClient

  /** The connection-state transition each stimulus makes. */
  function Next(s: ConnectionState, e: Stimulus): ConnectionState
  {
    match e
    case StartedNet => ConnectingToPunchServer
    case PeerUp =>
      if s == ConnectingToPunchServer then WaitingForPunch
      else if s == Punching then Connected
      else s
    case CurrentPeerDown => if s == Punching then ConnectingToRelay else Disconnected
    case OtherPeerDown => s
    case Tick(expired) => if s == Punching && expired then ConnectingToRelay else s
    case PunchInfoAccepted => Punching
    case Reset => Disconnected
  }

  /** The states a run of stimuli visits, starting with `s`. */
  function Trace(s: ConnectionState, run: seq<Stimulus>): (r: seq<ConnectionState>)
    ensures |r| == |run| + 1 && r[0] == s
    ensures forall i :: 0 <= i < |run| ==> r[i + 1] == Next(r[i], run[i])
    ensures r[|run|] == Final(s, run)
    decreases |run|
  {
    if run == [] then [s] else [s] + Trace(Next(s, run[0]), run[1..])
  }

  /** Where a run of stimuli ends. */
  function Final(s: ConnectionState, run: seq<Stimulus>): ConnectionState
    decreases |run|
  {
    if run == [] then s else Final(Next(s, run[0]), run[1..])
  }

  /** Peer connections, other peers' drops and ticks never move the client
      out of ConnectingToRelay: a connection made to the relay leaves the
      state there, and only PunchInfo, the loss of the current peer or a
      reset leave it. */
  lemma {:induction false} RelayIsSink(run: seq<Stimulus>)
    requires forall i :: 0 <= i < |run| ==> run[i].PeerUp? || run[i].OtherPeerDown? || run[i].Tick?
    ensures Final(ConnectingToRelay, run) == ConnectingToRelay
    ensures forall i :: 0 <= i < |Trace(ConnectingToRelay, run)| ==> Trace(ConnectingToRelay, run)[i] == ConnectingToRelay
  {
    if run != [] {
      assert Next(ConnectingToRelay, run[0]) == ConnectingToRelay;
      RelayIsSink(run[1..]);
    }
  }

  /** A run that reaches Connected from any other state passes through
      Punching: the direct connection is the only way to Connected. */
  lemma {:induction false} ConnectedOnlyAfterPunching(s: ConnectionState, run: seq<Stimulus>)
    requires s != Connected && Connected in Trace(s, run)
    ensures Punching in Trace(s, run)
    decreases |run|
  {
    if run != [] {
      var s' := Next(s, run[0]);
      assert Trace(s, run) == [s] + Trace(s', run[1..]);
      if s' == Connected {
        assert s == Punching;
      } else {
        ConnectedOnlyAfterPunching(s', run[1..]);
      }
    }
  }

  /** The PunchRequest a client sends once it knows its id: to the host,
      which it assumes is id 0. */
  function PunchRequestPacket(localId: u64): Packet
  {
    Packet(PunchRequest, RoleClient, localId, 0, [])
  }

  class PunchTransport {
    const punchServer: Endpoint
    const relay: Endpoint
    const baseKey: string
    /** PunchTimeout, in ticks. */
    const punchTimeout: nat

    /** False once Shutdown has dropped the NetManager. */
    var netManagerLive: bool
    var hostType: HostType
    var state: ConnectionState
    var currentPeer: Option<Peer>
    var localClientId: u64
    var punchStartTime: int
    var targetEndPoint: Option<Endpoint>
    var targetId: u64
    var actions: seq<NetAction>
    var events: seq<AppEvent>

    /** A direct attempt or connection always has a target endpoint. */
    ghost predicate Valid()
      reads this
    {
      state == Punching || state == Connected ==> targetEndPoint.Some?
    }

    /** The transport after Initialize. */
    constructor (punchServer: Endpoint, relay: Endpoint, baseKey: string, punchTimeout: nat)
      ensures this.punchServer == punchServer && this.relay == relay
      ensures this.baseKey == baseKey && this.punchTimeout == punchTimeout
      ensures netManagerLive && hostType == NotStarted && state == Disconnected && currentPeer.None?
      ensures localClientId == 0 && targetEndPoint.None? && targetId == 0
      ensures actions == [] && events == []
      ensures Valid()
    {
      this.punchServer := punchServer;
      this.relay := relay;
      this.baseKey := baseKey;
      this.punchTimeout := punchTimeout;
      netManagerLive := true;
      hostType := NotStarted;
      state := Disconnected;
      currentPeer := None;
      localClientId := 0;
      punchStartTime := 0;
      targetEndPoint := None;
      targetId := 0;
      actions := [];
      events := [];
    }

    /** StartServer and StartClient: a started transport throws; otherwise
        the host type is set first, then (with a live, started NetManager) the
        state becomes ConnectingToPunchServer and the punch server is asked
        for with the role key. */
    method Start(asServer: bool, netStarted: bool, connectReturned: bool) returns (r: StartOutcome)
      modifies this
      ensures old(hostType) != NotStarted ==>
                && r == AlreadyStarted && hostType == old(hostType)
                && state == old(state) && actions == old(actions)
      ensures old(hostType) == NotStarted ==>
                && hostType == (if asServer then Server else Client)
                && r == (if !netManagerLive then NoManager
                         else if !netStarted then NetStartFailed
                         else if !connectReturned then ConnectFailed
                         else Connecting)
                && (netManagerLive && netStarted ==>
                      && state == Next(old(state), StartedNet)
                      && actions == old(actions) + [ConnectTo(punchServer, RoleKey(baseKey, asServer))])
                && (!netManagerLive || !netStarted ==> state == old(state) && actions == old(actions))
      ensures netManagerLive == old(netManagerLive) && currentPeer == old(currentPeer)
      ensures localClientId == old(localClientId) && targetEndPoint == old(targetEndPoint)
      ensures targetId == old(targetId) && punchStartTime == old(punchStartTime) && events == old(events)
      ensures old(Valid()) ==> Valid()
    {
      if hostType != NotStarted {
        return AlreadyStarted;
      }
      hostType := if asServer then Server else Client;
      if !netManagerLive {
        return NoManager;
      }
      if !netStarted {
        return NetStartFailed;
      }
      state := ConnectingToPunchServer;
      actions := actions + [ConnectTo(punchServer, RoleKey(baseKey, asServer))];
      r := if connectReturned then Connecting else ConnectFailed;
    }

    /** Shutdown: stop and drop the NetManager, clear the host type, the
        state and the current peer. */
    method Shutdown()
      modifies this
      ensures !netManagerLive && hostType == NotStarted && currentPeer.None?
      ensures state == Next(old(state), Reset)
      ensures actions == old(actions) + (if old(netManagerLive) then [StopManager] else [])
      ensures localClientId == old(localClientId) && targetEndPoint == old(targetEndPoint)
      ensures targetId == old(targetId) && punchStartTime == old(punchStartTime) && events == old(events)
      ensures Valid()
    {
      if netManagerLive {
        actions := actions + [StopManager];
        netManagerLive := false;
      }
      hostType := NotStarted;
      state := Disconnected;
      currentPeer := None;
    }

    /** The Data packet Send hands to the current peer; None when the send
        is dropped because there is no current peer or it is not connected. */
    function Outgoing(clientId: u64, data: Payload, qos: NetworkDelivery, peerConnected: bool): (r: Option<Transmission>)
      reads this
      ensures r.Some? <==> currentPeer.Some? && peerConnected
      ensures r.Some? ==>
                && r.value.to == currentPeer.value
                && r.value.packet.kind == Data
                && (r.value.packet.role == RoleHost <==> hostType == Server)
                && r.value.packet.senderId == localClientId
                && r.value.packet.recipientId == clientId
                && r.value.packet.data == data
                && r.value.delivery == ConvertDelivery(qos)
    {
      if currentPeer.None? || !peerConnected then None
      else Some(Transmission(currentPeer.value, DataPacket(hostType == Server, localClientId, clientId, data),
                             ConvertDelivery(qos)))
    }

    /** Send. `peerConnected` is the current peer's ConnectionState. */
    method Send(clientId: u64, data: Payload, qos: NetworkDelivery, peerConnected: bool)
      modifies this
      ensures var t := old(Outgoing(clientId, data, qos, peerConnected));
              actions == old(actions) + (if t.Some? then [Transmit(t.value)] else [])
      ensures netManagerLive == old(netManagerLive) && hostType == old(hostType) && state == old(state)
      ensures currentPeer == old(currentPeer) && localClientId == old(localClientId)
      ensures targetEndPoint == old(targetEndPoint) && targetId == old(targetId)
      ensures punchStartTime == old(punchStartTime) && events == old(events)
    {
      var t := Outgoing(clientId, data, qos, peerConnected);
      if t.Some? {
        actions := actions + [Transmit(t.value)];
      }
    }

    /** DisconnectRemoteClient: disconnect the current peer, if any. */
    method DisconnectRemoteClient()
      modifies this
      ensures actions == old(actions) + (if old(currentPeer).Some? then [DisconnectPeer(old(currentPeer).value)] else [])
      ensures netManagerLive == old(netManagerLive) && hostType == old(hostType) && state == old(state)
      ensures currentPeer == old(currentPeer) && localClientId == old(localClientId)
      ensures targetEndPoint == old(targetEndPoint) && targetId == old(targetId)
      ensures punchStartTime == old(punchStartTime) && events == old(events)
    {
      if currentPeer.Some? {
        actions := actions + [DisconnectPeer(currentPeer.value)];
      }
    }

    /** DisconnectLocalClient: disconnect every peer, forget the current one
        and return to Disconnected; the host type is kept. */
    method DisconnectLocalClient()
      modifies this
      ensures actions == old(actions) + (if old(netManagerLive) then [DisconnectAllPeers] else [])
      ensures currentPeer.None? && state == Next(old(state), Reset)
      ensures netManagerLive == old(netManagerLive) && hostType == old(hostType)
      ensures localClientId == old(localClientId) && targetEndPoint == old(targetEndPoint)
      ensures targetId == old(targetId) && punchStartTime == old(punchStartTime) && events == old(events)
      ensures Valid()
    {
      if netManagerLive {
        actions := actions + [DisconnectAllPeers];
      }
      currentPeer := None;
      state := Disconnected;
    }

    /** FallbackToRelay: ConnectingToRelay, drop the current peer, and connect
        to the relay with the role key for the host type; the peer Connect
        returns (`connectReturned`) becomes current. Without a NetManager the
        Connect call throws after the peer is dropped. */
    method FallbackToRelay(connectReturned: Option<Peer>) returns (threw: bool)
      modifies this
      ensures state == ConnectingToRelay
      ensures threw <==> !netManagerLive
      ensures currentPeer == (if threw then None else connectReturned)
      ensures actions == old(actions)
                         + (if old(currentPeer).Some? then [DisconnectPeer(old(currentPeer).value)] else [])
                         + (if threw then [] else [ConnectTo(relay, RoleKey(baseKey, hostType == Server))])
      ensures netManagerLive == old(netManagerLive) && hostType == old(hostType)
      ensures localClientId == old(localClientId) && targetEndPoint == old(targetEndPoint)
      ensures targetId == old(targetId) && punchStartTime == old(punchStartTime) && events == old(events)
      ensures Valid()
    {
      state := ConnectingToRelay;
      if currentPeer.Some? {
        actions := actions + [DisconnectPeer(currentPeer.value)];
      }
      currentPeer := None;
      if !netManagerLive {
        return true;
      }
      threw := false;
      actions := actions + [ConnectTo(relay, RoleKey(baseKey, hostType == Server))];
      currentPeer := connectReturned;
    }

    /** Update at time `now`: only an attempt in Punching for strictly longer
        than the timeout acts, by falling back to the relay. */
    method Update(now: int, connectReturned: Option<Peer>) returns (threw: bool)
      modifies this
      ensures var expired := now - old(punchStartTime) > punchTimeout;
              state == Next(old(state), Tick(expired))
      ensures !(old(state) == Punching && now - old(punchStartTime) > punchTimeout) ==>
                && !threw && currentPeer == old(currentPeer) && actions == old(actions)
      ensures old(state) == Punching && now - old(punchStartTime) > punchTimeout ==>
                && (threw <==> !netManagerLive)
                && currentPeer == (if threw then None else connectReturned)
                && actions == old(actions)
                              + (if old(currentPeer).Some? then [DisconnectPeer(old(currentPeer).value)] else [])
                              + (if threw then [] else [ConnectTo(relay, RoleKey(baseKey, hostType == Server))])
      ensures netManagerLive == old(netManagerLive) && hostType == old(hostType)
      ensures localClientId == old(localClientId) && targetEndPoint == old(targetEndPoint)
      ensures targetId == old(targetId) && punchStartTime == old(punchStartTime) && events == old(events)
      ensures old(Valid()) ==> Valid()
    {
      threw := false;
      if state == Punching && now - punchStartTime > punchTimeout {
        threw := FallbackToRelay(connectReturned);
      }
    }

    /** OnPeerConnected: the peer becomes current; the punch server's
        connection moves to WaitingForPunch and the direct one to Connected. */
    method OnPeerConnected(peer: Peer)
      modifies this
      ensures currentPeer == Some(peer) && state == Next(old(state), PeerUp)
      ensures netManagerLive == old(netManagerLive) && hostType == old(hostType) && actions == old(actions)
      ensures localClientId == old(localClientId) && targetEndPoint == old(targetEndPoint)
      ensures targetId == old(targetId) && punchStartTime == old(punchStartTime) && events == old(events)
      ensures old(Valid()) ==> Valid()
    {
      currentPeer := Some(peer);
      if state == ConnectingToPunchServer {
        state := WaitingForPunch;
      } else if state == Punching {
        state := Connected;
      }
    }

    /** OnPeerDisconnected: losing the current peer while Punching falls back
        to the relay, and in any other state ends in Disconnected; losing
        another peer changes nothing. */
    method OnPeerDisconnected(peer: Peer, connectReturned: Option<Peer>) returns (threw: bool)
      modifies this
      ensures state == Next(old(state), if old(currentPeer) == Some(peer) then CurrentPeerDown else OtherPeerDown)
      ensures old(currentPeer) != Some(peer) ==>
                !threw && currentPeer == old(currentPeer) && actions == old(actions)
      ensures old(currentPeer) == Some(peer) && old(state) != Punching ==>
                !threw && currentPeer.None? && actions == old(actions)
      ensures old(currentPeer) == Some(peer) && old(state) == Punching ==>
                && (threw <==> !netManagerLive)
                && currentPeer == (if threw then None else connectReturned)
                && actions == old(actions) + (if threw then [] else [ConnectTo(relay, RoleKey(baseKey, hostType == Server))])
      ensures netManagerLive == old(netManagerLive) && hostType == old(hostType)
      ensures localClientId == old(localClientId) && targetEndPoint == old(targetEndPoint)
      ensures targetId == old(targetId) && punchStartTime == old(punchStartTime) && events == old(events)
      ensures old(Valid()) ==> Valid()
    {
      threw := false;
      if currentPeer == Some(peer) {
        currentPeer := None;
        if state == Punching {
          threw := FallbackToRelay(connectReturned);
        } else {
          state := Disconnected;
        }
      }
    }

    /** HandleIdAssign: the assigned id is stored; a client then asks the
        punch server for id 0, through the current peer (with none, the send
        throws after the id is stored). */
    method HandleIdAssign(p: Packet) returns (threw: bool)
      modifies this
      ensures localClientId == p.recipientId
      ensures threw <==> hostType == Client && currentPeer.None?
      ensures actions == old(actions) +
                (if hostType == Client && currentPeer.Some?
                 then [Transmit(Transmission(currentPeer.value, PunchRequestPacket(p.recipientId), ReliableOrdered))]
                 else [])
      ensures netManagerLive == old(netManagerLive) && hostType == old(hostType) && state == old(state)
      ensures currentPeer == old(currentPeer) && targetEndPoint == old(targetEndPoint)
      ensures targetId == old(targetId) && punchStartTime == old(punchStartTime) && events == old(events)
    {
      localClientId := p.recipientId;
      threw := false;
      if hostType == Client {
        if currentPeer.None? {
          return true;
        }
        actions := actions + [Transmit(Transmission(currentPeer.value, PunchRequestPacket(localClientId), ReliableOrdered))];
      }
    }

    /** HandlePunchInfo, acted on whatever the state. The payload is read
        (address, then port); the target id is recorded before the endpoint
        is built, so a port out of range throws with only the id changed.
        Then: Punching from `now`, the punch server's peer disconnected and
        dropped, and a direct connection asked for with the bare base key.
        With no current peer the disconnect throws after the state change. */
    method HandlePunchInfo(p: Packet, now: int, connectReturned: Option<Peer>) returns (threw: bool)
      modifies this
      ensures var body := ReadPunchInfo(p.data);
              var ep := if body.Some? then ToEndpoint(body.value) else None;
              && (body.None? ==> threw && targetId == old(targetId))
              && (body.Some? ==> targetId == p.recipientId)
              && (ep.None? ==>
                    && threw && state == old(state) && currentPeer == old(currentPeer)
                    && targetEndPoint == old(targetEndPoint) && punchStartTime == old(punchStartTime)
                    && actions == old(actions))
              && (ep.Some? ==>
                    && state == Next(old(state), PunchInfoAccepted)
                    && targetEndPoint == ep && punchStartTime == now
                    && (threw <==> old(currentPeer).None? || !netManagerLive)
                    && (old(currentPeer).None? ==> currentPeer.None? && actions == old(actions))
                    && (old(currentPeer).Some? ==>
                          && currentPeer == (if netManagerLive then connectReturned else None)
                          && actions == old(actions) + [DisconnectPeer(old(currentPeer).value)]
                                        + (if netManagerLive then [ConnectTo(ep.value, baseKey)] else [])))
      ensures netManagerLive == old(netManagerLive) && hostType == old(hostType)
      ensures localClientId == old(localClientId) && events == old(events)
      ensures old(Valid()) ==> Valid()
    {
      var body := ReadPunchInfo(p.data);
      if body.None? {
        return true;
      }
      targetId := p.recipientId;
      var ep := ToEndpoint(body.value);
      if ep.None? {
        return true;
      }
      targetEndPoint := ep;
      state := Punching;
      punchStartTime := now;
      if currentPeer.None? {
        return true;
      }
      actions := actions + [DisconnectPeer(currentPeer.value)];
      currentPeer := None;
      if !netManagerLive {
        return true;
      }
      threw := false;
      actions := actions + [ConnectTo(ep.value, baseKey)];
      currentPeer := connectReturned;
    }

    /** OnNetworkReceive at time `now`: IdAssign, PunchInfo and Data are
        handled, every other type ignored; an exception (a datagram that does
        not decode, or one thrown by a handler) is caught (`faulted`). */
    method OnNetworkReceive(bytes: seq<byte>, now: int, connectReturned: Option<Peer>) returns (faulted: bool)
      modifies this
      ensures Decode(bytes).Failure? ==>
                && faulted && state == old(state) && currentPeer == old(currentPeer)
                && localClientId == old(localClientId) && targetId == old(targetId)
                && actions == old(actions) && events == old(events)
      ensures Decode(bytes).Success? ==>
                var p := Decode(bytes).value.packet;
                && (p.kind == Data ==> !faulted && events == old(events) + [DataEvent(p.senderId, p.data)])
                && (p.kind != Data ==> events == old(events))
                && (p.kind == IdAssign ==>
                      && localClientId == p.recipientId
                      && state == old(state) && currentPeer == old(currentPeer) && targetId == old(targetId)
                      && (faulted <==> hostType == Client && currentPeer.None?)
                      && actions == old(actions) +
                           (if hostType == Client && currentPeer.Some?
                            then [Transmit(Transmission(currentPeer.value, PunchRequestPacket(p.recipientId), ReliableOrdered))]
                            else []))
                && (p.kind != IdAssign ==> localClientId == old(localClientId))
                && (p.kind != IdAssign && p.kind != PunchInfo ==>
                      && !faulted && state == old(state) && currentPeer == old(currentPeer)
                      && targetId == old(targetId) && actions == old(actions))
                && (p.kind == PunchInfo ==>
                      var ep := if ReadPunchInfo(p.data).Some? then ToEndpoint(ReadPunchInfo(p.data).value) else None;
                      && targetId == (if ReadPunchInfo(p.data).Some? then p.recipientId else old(targetId))
                      && (ep.None? ==> faulted && state == old(state) && currentPeer == old(currentPeer)
                                       && targetEndPoint == old(targetEndPoint) && punchStartTime == old(punchStartTime)
                                       && actions == old(actions))
                      && (ep.Some? ==>
                            && state == Next(old(state), PunchInfoAccepted)
                            && targetEndPoint == ep && punchStartTime == now
                            && (faulted <==> old(currentPeer).None? || !netManagerLive)
                            && (old(currentPeer).None? ==> currentPeer.None? && actions == old(actions))
                            && (old(currentPeer).Some? ==>
                                  && currentPeer == (if netManagerLive then connectReturned else None)
                                  && actions == old(actions) + [DisconnectPeer(old(currentPeer).value)]
                                                + (if netManagerLive then [ConnectTo(ep.value, baseKey)] else []))))
      ensures !(Decode(bytes).Success? && Decode(bytes).value.packet.kind == PunchInfo) ==>
                targetEndPoint == old(targetEndPoint) && punchStartTime == old(punchStartTime)
      ensures netManagerLive == old(netManagerLive) && hostType == old(hostType)
      ensures old(Valid()) ==> Valid()
    {
      var d := Decode(bytes);
      if d.Failure? {
        return true;
      }
      var p := d.value.packet;
      faulted := false;
      if p.kind == IdAssign {
        faulted := HandleIdAssign(p);
      } else if p.kind == PunchInfo {
        faulted := HandlePunchInfo(p, now, connectReturned);
      } else if p.kind == Data {
        events := events + [DataEvent(p.senderId, p.data)];
      }
    }
  }


  /** The first half of a client's punch attempt: it meets the punch server,
      is told its id and asks for the host. */
  method JoinPunchServer(punchServer: Endpoint, relay: Endpoint, serverPeer: Peer, id: u64)
    returns (t: PunchTransport)
    ensures fresh(t) && t.relay == relay && t.baseKey == "game" && t.punchTimeout == 5
    ensures t.netManagerLive && t.hostType == Client && t.state == WaitingForPunch
    ensures t.currentPeer == Some(serverPeer) && t.localClientId == id
    ensures t.actions == [ConnectTo(punchServer, "game|I_AM_CLIENT"),
                          Transmit(Transmission(serverPeer, PunchRequestPacket(id), ReliableOrdered))]
  {
    t := new PunchTransport(punchServer, relay, "game", 5);
    var started := t.Start(false, true, true);
    assert "game" + ClientSuffix == "game|I_AM_CLIENT";
    t.OnPeerConnected(serverPeer);
    var assign := Packet(IdAssign, RolePunchServer, 0, id, []);
    RoundTrip(assign, []);
    assert Encode(assign) + [] == Encode(assign);
    var faulted := t.OnNetworkReceive(Encode(assign), 0, None);
  }

  /** PunchInfo naming the host's endpoint: the client drops the punch
      server and dials the host directly with the bare base key. */
  method ReceiveHostEndpoint(t: PunchTransport, hostEp: Endpoint, direct: Peer, now: int)
    requires t.netManagerLive && t.currentPeer.Some?
    modifies t
    ensures t.state == Punching && t.currentPeer == Some(direct) && t.punchStartTime == now
    ensures t.targetId == 0 && t.targetEndPoint == Some(hostEp)
    ensures t.actions == old(t.actions) + [DisconnectPeer(old(t.currentPeer).value), ConnectTo(hostEp, t.baseKey)]
    ensures t.netManagerLive && t.hostType == old(t.hostType) && t.localClientId == old(t.localClientId)
  {
    var info := Packet(PunchInfo, RolePunchServer, 0, 0, EncodePunchInfo(BodyOf(hostEp)));
    PunchInfoRoundTrip(hostEp, []);
    assert EncodePunchInfo(BodyOf(hostEp)) + [] == EncodePunchInfo(BodyOf(hostEp));
    RoundTrip(info, []);
    assert Encode(info) + [] == Encode(info);
    var faulted := t.OnNetworkReceive(Encode(info), now, Some(direct));
  }

  /** A client's whole punch attempt when the direct connection never comes
      up: after dialing the host it waits past the timeout, drops the direct
      attempt and dials the relay with its client key, and the relay's
      connection then leaves it in ConnectingToRelay. */
  method PunchTimesOutToRelay(punchServer: Endpoint, relay: Endpoint, serverPeer: Peer, hostEp: Endpoint,
                              direct: Peer, relayPeer: Peer, id: u64)
    returns (t: PunchTransport)
    ensures t.state == ConnectingToRelay && t.currentPeer == Some(relayPeer)
    ensures t.localClientId == id && t.targetId == 0 && t.targetEndPoint == Some(hostEp)
    ensures t.actions == [
              ConnectTo(punchServer, "game|I_AM_CLIENT"),
              Transmit(Transmission(serverPeer, PunchRequestPacket(id), ReliableOrdered)),
              DisconnectPeer(serverPeer),
              ConnectTo(hostEp, "game"),
              DisconnectPeer(direct),
              ConnectTo(relay, "game|I_AM_CLIENT")]
  {
    t := JoinPunchServer(punchServer, relay, serverPeer, id);
    ReceiveHostEndpoint(t, hostEp, direct, 10);
    var threw := t.Update(15, None);
    assert t.state == Punching;
    threw := t.Update(16, Some(relayPeer));
    assert "game" + ClientSuffix == "game|I_AM_CLIENT";
    t.OnPeerConnected(relayPeer);
  }
}
