/*
 * What the three client transports share: the host type, the delivery-mode
 * table from Netcode's NetworkDelivery to LiteNetLib's DeliveryMethod, the
 * connection keys, the requests a transport makes of its NetManager, and the
 * transport events it raises to the application.
 */
module ClientCommon {
  import opened Wire
  import opened PacketCodec
  import opened Text
  import Net

  /** NGO's fixed id for the server (ServerClientId). */
  const ServerClientId: u64 := 0

  const HostSuffix: string := "|I_AM_HOST"
  const ClientSuffix: string := "|I_AM_CLIENT"

  /** HostType; `NotStarted` is the source's `None`. */
  datatype HostType = NotStarted | Server | Client

  /** Netcode's NetworkDelivery: its five named kinds, and any other value
      the enum can hold. */
  datatype NetworkDelivery =
    | UnreliableKind
    | UnreliableSequencedKind
    | ReliableKind
    | ReliableSequencedKind
    | ReliableFragmentedSequencedKind
    | OtherKind(code: int)
  {
    /** The kinds that promise delivery (an unknown value is treated as
        reliable, as the table's default is). */
    predicate Reliable() { !(UnreliableKind? || UnreliableSequencedKind?) }
    /** The kinds that promise an order. */
    predicate Sequenced() { UnreliableSequencedKind? || ReliableSequencedKind? || ReliableFragmentedSequencedKind? }
  }

  /** ConvertDelivery. */
  function ConvertDelivery(q: NetworkDelivery): (r: Net.DeliveryMethod)
    ensures r.Reliable() <==> q.Reliable()
    ensures q.Sequenced() ==> r.KeepsOrder()
    ensures q.OtherKind? ==> r == Net.ReliableOrdered
  {
    match q
    case UnreliableKind => Net.Unreliable
    case UnreliableSequencedKind => Net.Sequenced
    case ReliableKind => Net.ReliableUnordered
    case ReliableSequencedKind => Net.ReliableOrdered
    case ReliableFragmentedSequencedKind => Net.ReliableOrdered
    case OtherKind(_) => Net.ReliableOrdered
  }

  /** The connection key a transport started as server or client presents. */
  function RoleKey(baseKey: string, asServer: bool): (r: string)
    ensures baseKey <= r
    ensures r[|baseKey|..] == if asServer then HostSuffix else ClientSuffix
  {
    baseKey + (if asServer then HostSuffix else ClientSuffix)
  }

  /** With the default base key "relay", the keys a client presents are
      exactly the two keys the gated relay admits. */
  lemma RoleKeysMatchGatedRelay(asServer: bool)
    ensures RoleKey("relay", asServer) == "relay|" + (if asServer then "I_AM_HOST" else "I_AM_CLIENT")
  {
  }

  /** The open relay and the punch server tag a peer host when its key
      contains I_AM_HOST: for any base key that does not itself contain
      I_AM_HOST, that tag is set exactly for the server's key. */
  lemma RoleKeyTagsHost(baseKey: string, asServer: bool)
    requires !Contains(baseKey, "I_AM_HOST")
    ensures Contains(RoleKey(baseKey, asServer), "I_AM_HOST") <==> asServer
  {
    var suffix := if asServer then HostSuffix else ClientSuffix;
    NotAcrossSeparator(baseKey, '|', suffix, "I_AM_HOST");
    if asServer {
      assert OccursAt(HostSuffix, "I_AM_HOST", 1);
    } else {
      ClientSuffixIsNotHost();
    }
  }

  /** When `word` does not start the text, the text contains `word` exactly
      when the text after its first character does. */
  lemma SkipLeading(c: char, rest: string, word: string)
    requires !(word <= [c] + rest)
    ensures Contains([c] + rest, word) <==> Contains(rest, word)
  {
    assert ([c] + rest)[1..] == rest;
  }

  /** The open relay and the punch coordinator read the request's raw bytes
      as text, so the text they search begins with the two bytes of the
      string's length before the key. For a key shorter than 256 bytes the
      second of them is zero, and the tag is still set exactly for the
      server's key, whatever the first one is. */
  lemma FramedRoleKeyTagsHost(baseKey: string, asServer: bool, low: char)
    requires !Contains(baseKey, "I_AM_HOST")
    ensures Contains([low, '\0'] + RoleKey(baseKey, asServer), "I_AM_HOST") <==> asServer
  {
    var key := RoleKey(baseKey, asServer);
    RoleKeyTagsHost(baseKey, asServer);
    assert !("I_AM_HOST" <= ['\0'] + key) by {
      assert "I_AM_HOST"[0] != (['\0'] + key)[0];
    }
    SkipLeading('\0', key, "I_AM_HOST");
    assert [low, '\0'] + key == [low] + (['\0'] + key);
    assert !("I_AM_HOST" <= [low, '\0'] + key) by {
      assert "I_AM_HOST"[1] != ([low, '\0'] + key)[1];
    }
    SkipLeading(low, ['\0'] + key, "I_AM_HOST");
  }

  lemma ClientSuffixIsNotHost()
    ensures !Contains(ClientSuffix, "I_AM_HOST")
  {
    var w := "I_AM_HOST";
    assert ClientSuffix[0..9][0] == '|' != w[0];
    assert ClientSuffix[1..10][5] == 'C' != w[5];
    assert ClientSuffix[2..11][0] == '_' != w[0];
    assert ClientSuffix[3..12][0] == 'A' != w[0];
  }

  /** What a transport asks of its NetManager or a NetPeer. */
  datatype NetAction =
    | ConnectTo(endpoint: Net.Endpoint, key: string)
    | Transmit(t: Net.Transmission)
    | DisconnectPeer(peer: Net.Peer)
    | DisconnectAllPeers
    | StopManager

  /** InvokeOnTransportEvent: Connect or Data for a client id. */
  datatype AppEvent =
    | ConnectEvent(clientId: u64)
    | DataEvent(clientId: u64, payload: seq<byte>)

  /** How StartServer/StartClient end: throwing because already started or
      because the NetManager is gone, returning false because
      NetManager.Start failed or Connect returned null, or returning true. */
  datatype StartOutcome = AlreadyStarted | NoManager | NetStartFailed | ConnectFailed | Connecting
  {
    predicate Succeeded() { this == Connecting }
  }

  /** The application's data as a relay client sends it. */
  function DataPacket(asServer: bool, sender: u64, recipient: u64, data: Payload): Packet
  {
    Packet(Data, if asServer then RoleHost else RoleClient, sender, recipient, data)
  }

  /** The events the relay clients' OnNetworkReceive raises for a decoded
      packet: IdAssign raises Connect for its sender only on a client,
      NotifyJoin raises Connect for the joining id, Data raises Data tagged
      with its sender; every other type raises nothing. */
  function RelayEvents(hostType: HostType, p: Packet): (r: seq<AppEvent>)
    ensures |r| <= 1
    ensures r != [] <==>
              (p.kind == IdAssign && hostType == Client) || p.kind == NotifyJoin || p.kind == Data
    ensures r != [] ==> r[0].clientId == p.senderId
    ensures p.kind == Data ==> r == [DataEvent(p.senderId, p.data)]
    ensures p.kind != Data && r != [] ==> r == [ConnectEvent(p.senderId)]
  {
    if p.kind == IdAssign then
      if hostType == Client then [ConnectEvent(p.senderId)] else []
    else if p.kind == Data then [DataEvent(p.senderId, p.data)]
    else if p.kind == NotifyJoin then [ConnectEvent(p.senderId)]
    else []
  }

  /** A client told its id by a relay (whose IdAssign names sender 0) reports
      the server's connection to the application. */
  lemma IdAssignReportsServer(id: u64)
    ensures RelayEvents(Client, Packet(IdAssign, RoleRelay, 0, id, [])) == [ConnectEvent(ServerClientId)]
    ensures RelayEvents(Server, Packet(IdAssign, RoleRelay, 0, id, [])) == []
  {
  }

  /** End to end: the bytes one relay client sends for application data
      (forwarded unchanged by the relay) make the receiving relay client
      raise exactly one Data event tagged with the sender's id and carrying
      the same bytes, whatever its own host type. */
  lemma DataArrivesAsSent(hostType: HostType, asServer: bool, sender: u64, recipient: u64, data: Payload)
    ensures var wire := Encode(DataPacket(asServer, sender, recipient, data));
            && Decode(wire).Success?
            && RelayEvents(hostType, Decode(wire).value.packet) == [DataEvent(sender, data)]
  {
    var p := DataPacket(asServer, sender, recipient, data);
    RoundTrip(p, []);
    assert Encode(p) + [] == Encode(p);
  }
}
