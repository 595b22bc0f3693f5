/** What the servers and clients see of the transport (LiteNetLib): peers,
    endpoints, delivery methods, and the sends they ask it to make. */
module Net {
  import opened Wire
  import opened PacketCodec

  /** The text of an IP address (IPAddress.ToString()) as bytes. */
  type AddressText = s: seq<byte> | |s| <= 0xFFFF

  /** IPEndPoint only admits ports 0..65535. */
  type Port = x: int | 0 <= x <= 0xFFFF

  datatype Endpoint = Endpoint(address: AddressText, port: Port)

  /** A transport connection (a NetPeer): an opaque identity and the remote
      endpoint the transport observed for it, which never changes. */
  datatype Peer = Peer(handle: nat, endPoint: Endpoint)

  /** LiteNetLib's DeliveryMethod. */
  datatype DeliveryMethod = Unreliable | ReliableUnordered | Sequenced | ReliableOrdered | ReliableSequenced
  {
    predicate Reliable() { this == ReliableUnordered || this == ReliableOrdered || this == ReliableSequenced }
    predicate KeepsOrder() { this != Unreliable && this != ReliableUnordered }
  }

  /** One packet.Send(peer, method): the wire bytes are Encode(packet). */
  datatype Transmission = Transmission(to: Peer, packet: Packet, delivery: DeliveryMethod)

  /** The peers a batch of sends goes to. */
  function Recipients(sends: seq<Transmission>): set<Peer>
  {
    if sends == [] then {} else Recipients(sends[..|sends| - 1]) + {sends[|sends| - 1].to}
  }

  lemma RecipientsAppend(sends: seq<Transmission>, t: Transmission)
    ensures Recipients(sends + [t]) == Recipients(sends) + {t.to}
  {
    assert (sends + [t])[..|sends|] == sends;
  }

  /** The sends go to the peers of `targets`, each exactly once. */
  ghost predicate ReachesEachOnce(sends: seq<Transmission>, targets: set<Peer>)
  {
    && (forall i :: 0 <= i < |sends| ==> sends[i].to in targets)
    && Recipients(sends) == targets
    && (forall i, j :: 0 <= i < j < |sends| ==> sends[i].to != sends[j].to)
  }

  /** Sending to one more peer, not reached before, keeps "each exactly once". */
  lemma ReachOneMore(sends: seq<Transmission>, done: set<Peer>, t: Transmission)
    requires ReachesEachOnce(sends, done) && t.to !in done
    ensures ReachesEachOnce(sends + [t], done + {t.to})
  {
    RecipientsAppend(sends, t);
  }
}
