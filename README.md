# TinyRelay / RandomNetKit signalling core in Dafny

TinyRelay is a relay and NAT-punch signalling system for Unity Netcode games
built on LiteNetLib. This project models its event-driven core and proves
properties about it:

- **The relay wire packet.** A 22-byte header (type, role, sender id,
  recipient id, signed payload length) is followed by the payload.
  - `packet.dfy` holds the pure encode/decode.
  - `wire.dfy` holds the little-endian `NetDataWriter`/`NetDataReader`
    underneath it.
  - `packet_object.dfy` holds the mutable C# `Packet` object (`SetData`,
    `With*`, `Serialize`, `Send`, `Deserialize`, `Clone`, `Dispose`).
  - The repository has this codec twice, in `TinyRelay/TinyRelay.Share.cs`
    and `TinyRelay.Shared/Packet.cs`. Both write and read the same layout
    and throw in the same cases, so it is modelled once.
- **The two relay servers.** Each keeps a peer-to-id dictionary and its
  id-to-peer companion, and forwards packets by recipient id or to everyone
  (`registry.dfy` holds the parts they share).
  - `gated_relay.dfy` models the gated server of `TinyRelay/Program.cs`.
    It checks the key, caps connections at 8, admits one host at a time,
    and resets the client counter when the host leaves.
  - `open_relay.dfy` models the open server of
    `RandomNetKit.Relay/RelayServer.cs`. It accepts everyone, tags hosts by
    key, never resets the counter, and sends NotifyLeave.
- **The NAT-punch coordinator** (`punch_server.dfy`), with the PunchInfo
  payload in `punch_info.dfy`.
- **The client transports.**
  - `punch_transport.dfy` models the punch-first client's connection state
    machine and its relay fallback.
  - `relay_transport.dfy` models the relay-only adapter. The repository
    has it twice (`TinyRelay.Client/LiteNetLibTransport.cs` and
    `RandomNetKit.Transport/Unity/LiteNetLibTransport.cs`), and the two
    copies differ only in whether `DisconnectLocalClient` checks the relay
    peer for null. One class models both, with a flag for that difference.
  - `client_common.dfy` holds what the transports share.

**What stands in for LiteNetLib:**

- **Peers and endpoints.** A peer is an opaque handle together with its
  remote endpoint.
- **Sends.** Every `peer.Send` becomes a `Transmission` (peer, packet
  value, delivery method) appended to an outbox. The bytes on the wire are
  `Encode` of that packet.
- **Foreign results.** These become method parameters: whether
  `NetManager.Start` succeeded, the peer `Connect` returned, a peer's
  connection state, and the connected-peer count.
- **Transport requests.** What a client transport asks of its NetManager
  (connect, disconnect, stop) is appended to an `actions` sequence.
- **Application events.** What it raises to the application is appended
  to `events`.
- **Exceptions.** The source throws at definite points. A method returns
  a flag (`threw`, `faulted`, `keyMissing`) or an error value, with exactly
  the state changes made before the throw.
- **Ids.** Ids are unsigned 64-bit values. `++` wraps, as C#'s unchecked
  `ulong` increment does. Invariants that only hold until a counter wraps
  say so through a ghost `wrapped` flag.

Where a property is a quirk of the source, it is proved about the source's
behaviour and exhibited by a scenario method:

- **Gated relay.** It reuses client ids after the host leaves
  (`GatedRelay.IdReuseAfterHostLeaves`).
- **Open relay.** It gives two hosts id 0 (`OpenRelay.DuplicateHosts`).
- **Punch coordinator.** It never assigns the id 0 that clients ask for
  (`PunchCoordinator.PunchRequestForHostIsLost`).
- **Punch client.** `ConnectingToRelay` is left only by PunchInfo, losing
  the current peer, or a reset (`PunchClient.RelayIsSink`). PunchInfo is
  acted on in every state.

## Model

| member | source | states |
|---|---|---|
| Wire.Succ | TinyRelay/Program.cs:184 | `nextClientId++` on a ulong: one more below the maximum, 0 after it |
| Wire.LittleEndianRoundTrip | TinyRelay/TinyRelay.Share.cs:101-105 | reading back the n little-endian bytes written for any number below 256^n gives that number |
| Wire.FromLittleEndianCanonical | TinyRelay/TinyRelay.Share.cs:150-156 | any byte string is the little-endian encoding of the number it denotes (reading then writing restores the bytes) |
| Wire.U64RoundTrip | TinyRelay/TinyRelay.Share.cs:101-102 | GetULong reads back what Put(ulong) wrote |
| Wire.U64Canonical | TinyRelay/TinyRelay.Share.cs:150-151 | every 8 bytes are what Put(ulong) writes for the value GetULong reads |
| Wire.I32RoundTrip | TinyRelay/TinyRelay.Share.cs:105 | GetInt reads back what Put(int) wrote, negative values included |
| Wire.I32Canonical | TinyRelay/TinyRelay.Share.cs:156 | every 4 bytes are what Put(int) writes for the value GetInt reads |
| Wire.NetDataWriter.PutByte | TinyRelay/TinyRelay.Share.cs:99-100 | the writer's buffer grows by exactly the byte |
| Wire.NetDataWriter.PutULong | TinyRelay/TinyRelay.Share.cs:101-102 | the buffer grows by the 8-byte little-endian form |
| Wire.NetDataWriter.PutInt | TinyRelay/TinyRelay.Share.cs:105 | the buffer grows by the 4-byte two's-complement little-endian form |
| Wire.NetDataWriter.PutBytes | TinyRelay/TinyRelay.Share.cs:108 | the buffer grows by exactly the bytes |
| Wire.NetDataReader.GetByte | TinyRelay/TinyRelay.Share.cs:148-149 | returns the next unread byte and advances the cursor by one |
| Wire.NetDataReader.GetULong | TinyRelay/TinyRelay.Share.cs:150-151 | returns the value of the next 8 bytes and advances by 8 |
| Wire.NetDataReader.GetInt | TinyRelay/TinyRelay.Share.cs:156 | returns the signed value of the next 4 bytes and advances by 4 |
| Wire.NetDataReader.GetBytes | TinyRelay/TinyRelay.Share.cs:163-168 | returns the next n bytes and advances by n |
| PacketCodec.Encode | TinyRelay/TinyRelay.Share.cs:94-109 | the encoding is 22 + payload bytes long: type and role bytes, then the two ids, then a length field equal to the payload length, then the payload; an empty payload writes no tail |
| PacketCodec.Decode | TinyRelay/TinyRelay.Share.cs:140-177 | fails exactly on a short header, a negative length, or a truncated payload; the "fewer than 4 bytes for DataLength" failure never happens; on success it consumes 22 + length bytes |
| PacketCodec.RoundTrip | TinyRelay.Shared/Packet.cs:88-155 | decoding the encoding of any packet (empty payload included), followed by any bytes, gives back all four header fields and the payload, and consumes exactly the encoding |
| PacketCodec.DecodeCanonical | TinyRelay/TinyRelay.Share.cs:145-177 | whatever decodes is the encoding of the decoded packet: the consumed bytes equal its re-encoding |
| PacketCodec.TrailingBytesIgnored | TinyRelay.Shared/Packet.cs:141-155 | bytes after a well-formed packet are neither an error nor read |
| PacketCodec.TruncationRejected | TinyRelay.Shared/Packet.cs:126-142 | any strict prefix of an encoding fails to decode, so no partial packet is built |
| PacketObjects.PacketObject.constructor | TinyRelay/TinyRelay.Share.cs:38-42 | a new packet has the given type, default role and ids, and no payload |
| PacketObjects.PacketObject.WithPayload | TinyRelay/TinyRelay.Share.cs:45-48 | a new packet carrying the given payload, in a fresh array when non-empty |
| PacketObjects.PacketObject.SetData | TinyRelay.Shared/Packet.cs:72-86 | an empty span leaves no array; otherwise the payload equals the input, the array is reused when its length matches and is fresh otherwise; the header fields are untouched |
| PacketObjects.PacketObject.WithRole | TinyRelay/TinyRelay.Share.cs:51-55 | changes only the role and returns the same object |
| PacketObjects.PacketObject.WithSender | TinyRelay/TinyRelay.Share.cs:57-61 | changes only the sender id and returns the same object |
| PacketObjects.PacketObject.WithRecipient | TinyRelay/TinyRelay.Share.cs:63-67 | changes only the recipient id and returns the same object |
| PacketObjects.PacketObject.WithData | TinyRelay/TinyRelay.Share.cs:69-73 | changes only the payload, to the given bytes |
| PacketObjects.PacketObject.Serialize | TinyRelay/TinyRelay.Share.cs:94-113 | a disposed packet throws and writes nothing; otherwise the writer grows by exactly Encode of the packet |
| PacketObjects.PacketObject.Send | TinyRelay/TinyRelay.Share.cs:124-137 | fails exactly when disposed; otherwise the peer is handed this packet with the given delivery method |
| PacketObjects.PacketObject.Deserialize | TinyRelay.Shared/Packet.cs:122-162 | throws exactly when Decode fails, with Decode's reason; otherwise a fresh packet with the decoded value, and the reader advanced by the bytes consumed |
| PacketObjects.PacketObject.Clone | TinyRelay.Shared/Packet.cs:164-183 | fails exactly when disposed; otherwise a fresh packet with an equal value whose payload array, if any, is freshly allocated |
| PacketObjects.PacketObject.Dispose | TinyRelay.Shared/Packet.cs:185-195 | afterwards the packet is disposed; the first call drops the payload and a second call changes nothing |
| PacketObjects.CloneIsIndependent | TinyRelay/TinyRelay.Share.cs:188-208 | writing into a clone's payload leaves the original's value unchanged |
| PacketObjects.UseAfterDispose | TinyRelay/TinyRelay.Share.cs:211-221 | after Dispose, Serialize, Send and Clone all fail, and nothing is written |
| Net.RecipientsAppend | TinyRelay/Program.cs:295-303 | one more send adds exactly its peer to the set of peers reached |
| Net.ReachOneMore | TinyRelay/Program.cs:233-239 | sending to a peer not yet reached keeps "every target exactly once" |
| Registry.Broadcast | TinyRelay/Program.cs:230-240 | one copy of the packet to every registered peer except the sender, each exactly once, with the arriving delivery method |
| Registry.NotifyOthers | RandomNetKit.Relay/RelayServer.cs:79-89 | one notice to every registered peer outside the exclusion, each exactly once, addressed to that peer's own id, naming the subject id, ReliableUnordered |
| Registry.Route | TinyRelay/Program.cs:223-262 | an undecodable datagram sends nothing; the broadcast id reaches every registered peer but the sender, and never the sender; any other id gets one copy if registered and nothing otherwise |
| Registry.IdAssignment | TinyRelay/Program.cs:277-303 | IdAssign (Relay role, sender 0, recipient the new id) to the new peer first, then NotifyJoin naming the new id to every other registered peer, addressed by its own id |
| Registry.ForwardedBytes | RandomNetKit.Relay/RelayServer.cs:102-117 | what a relay re-sends is byte for byte the packet it received, without trailing bytes |
| GatedRelay.RelayServer.constructor | TinyRelay/Program.cs:43-52 | no host, client counter at 1, empty tables |
| GatedRelay.RelayServer.OnConnectionRequest | TinyRelay/Program.cs:94-165 | accepts exactly when there is key data, fewer than 8 peers are connected, and the key is "relay|I_AM_HOST" with no host present or "relay|I_AM_CLIENT" with one; a missing key, a wrong prefix and a full server are rejected, in that order, before any role check |
| GatedRelay.RelayServer.OnPeerConnected | TinyRelay/Program.cs:167-191 | with no host, the peer becomes host with id 0; otherwise it gets the counter, which then increments; both tables record it and it is welcomed; the invariant is kept for a fresh peer, and the tables stay inverse unless the counter's id is already taken |
| GatedRelay.RelayServer.OnPeerDisconnected | TinyRelay/Program.cs:193-216 | a registered peer leaves both tables; the host's departure empties the host slot and resets the counter to 1; an unknown peer changes nothing; the invariant and inverse tables are kept |
| GatedRelay.RelayServer.OnNetworkReceive | TinyRelay/Program.cs:223-262 | appends exactly Route's sends; the tables and counter do not change |
| GatedRelay.IdReuseAfterHostLeaves | TinyRelay/Program.cs:203-207 | host, client, host leaves, new host, new client: the new client is given id 1, still held by the first client, and once that client leaves, id 1 is not in the id table although the new client holds it |
| OpenRelay.RelayServer.constructor | RandomNetKit.Relay/RelayServer.cs:13-17 | empty tables and the client counter at 1 |
| OpenRelay.RelayServer.OnConnectionRequest | RandomNetKit.Relay/RelayServer.cs:145-154 | accepts and tags the peer host exactly when its key contains I_AM_HOST, changing nothing else |
| OpenRelay.RelayServer.OnPeerConnected | RandomNetKit.Relay/RelayServer.cs:47-67 | an untagged peer throws before any change; a host gets id 0 and leaves the counter alone, a client gets the counter, which increments; both tables record it and it is welcomed; the invariant is kept for a fresh peer |
| OpenRelay.RelayServer.OnPeerDisconnected | RandomNetKit.Relay/RelayServer.cs:69-91 | a registered peer leaves all three tables and every remaining peer gets NotifyLeave naming its id; an unknown peer changes nothing and sends nothing |
| OpenRelay.RelayServer.OnNetworkReceive | RandomNetKit.Relay/RelayServer.cs:98-133 | appends exactly Route's sends; the tables and counter do not change |
| OpenRelay.RelayServer.Stop | RandomNetKit.Relay/RelayServer.cs:34-40 | empties all three tables and keeps the counter |
| OpenRelay.DuplicateHosts | RandomNetKit.Relay/RelayServer.cs:49-64 | two host-keyed peers both get id 0; after the first leaves, id 0 is not in the id table while the second host still holds it |
| Text.Contains | RandomNetKit.Relay/RelayServer.cs:151 | true exactly when the word occurs at some position of the text |
| Text.Seam | RandomNetKit.Relay/RelayServer.cs:151 | an occurrence in a concatenation lies in the first part, in the second, or across the seam covering the second part's first character; it is the step RoleKeyTagsHost rests on |
| Text.NotAcrossSeparator | RandomNetKit.Relay/RelayServer.cs:151 | when the second part starts with a separator the word lacks, the word occurs in the concatenation exactly when it occurs in one of the parts; RoleKeyTagsHost uses it to split the role key at its `\|` |
| PunchInfoCodec.EncodePunchInfo | RandomNetKit.PunchNAT/PunchServer.cs:154-156 | a 2-byte count equal to the address length, the address bytes, then the port's 4 bytes |
| PunchInfoCodec.ReadPunchInfo | RandomNetKit.Transport/Unity/PunchTransport.cs:335-337 | fails exactly when the payload is too short for the count, or for the counted address plus the port |
| PunchInfoCodec.ToEndpoint | RandomNetKit.Transport/Unity/PunchTransport.cs:340 | builds an endpoint exactly when the port is within 0..65535, and that endpoint has the address and port read |
| PunchInfoCodec.PunchInfoRoundTrip | RandomNetKit.PunchNAT/PunchServer.cs:154-157 | reading a payload written for an endpoint, whatever buffer bytes follow it, gives back that endpoint |
| PunchInfoCodec.ReadIsPrefix | RandomNetKit.Transport/Unity/PunchTransport.cs:335-337 | every successful read is determined by a prefix: the payload starts with the encoding of what was read |
| PunchCoordinator.PunchServer.constructor | RandomNetKit.PunchNAT/PunchServer.cs:12-14 | empty tables and the id counter at 1 |
| PunchCoordinator.PunchServer.OnPeerConnected | RandomNetKit.PunchNAT/PunchServer.cs:52-74 | every peer, host or not, gets the counter's id, which then increments; the record keeps its endpoint; IdAssign (PunchServer role, sender 0) goes to it ReliableOrdered; for a fresh peer it keeps the two tables inverse to each other (every id names a live peer holding it and, until the counter wraps, every live peer is found under its own id); until the counter wraps no peer gets id 0 |
| PunchCoordinator.PunchServer.OnPeerDisconnected | RandomNetKit.PunchNAT/PunchServer.cs:76-84 | a registered peer leaves both tables; an unknown peer changes nothing; the tables stay inverse to each other |
| PunchCoordinator.PunchServer.OnConnectionRequest | RandomNetKit.PunchNAT/PunchServer.cs:176-189 | only a peer that already has a record gets its host tag set, from whether the key contains I_AM_HOST |
| PunchCoordinator.PunchServer.PunchReplies | RandomNetKit.PunchNAT/PunchServer.cs:118-135 | with a registered requester and target: exactly two PunchInfo sends, the requester told the target's endpoint and id and the target the requester's; otherwise nothing; a request for id 0 sends nothing while the counter has not wrapped |
| PunchCoordinator.PunchServer.OnNetworkReceive | RandomNetKit.PunchNAT/PunchServer.cs:91-116 | only a decoded PunchRequest sends anything, and then exactly what PunchReplies sends; PunchFailed, other types and undecodable datagrams change nothing |
| PunchCoordinator.PunchServer.Stop | RandomNetKit.PunchNAT/PunchServer.cs:40-45 | empties both tables and keeps the counter |
| PunchCoordinator.SendPunchInfo | RandomNetKit.PunchNAT/PunchServer.cs:144-160 | a ReliableOrdered PunchInfo from sender 0 naming the given id, whose payload reads back as the given endpoint |
| PunchCoordinator.PunchRequestForHostIsLost | RandomNetKit.Transport/Unity/PunchTransport.cs:323-329 | a host and a client connect and the client asks for id 0: the only sends are the two IdAssigns |
| ClientCommon.ConvertDelivery | RandomNetKit.Transport/Unity/PunchTransport.cs:380-391 | the result is reliable exactly when the requested kind is; sequenced kinds keep order; unknown kinds map to ReliableOrdered |
| ClientCommon.RoleKey | TinyRelay.Client/LiteNetLibTransport.cs:118 | the key is the base key followed by the host or client suffix |
| ClientCommon.RoleKeysMatchGatedRelay | TinyRelay.Client/LiteNetLibTransport.cs:149 | with the default base key the two keys are exactly the gated relay's "relay|I_AM_HOST" and "relay|I_AM_CLIENT" |
| ClientCommon.RoleKeyTagsHost | RandomNetKit.Relay/RelayServer.cs:151 | for a base key without I_AM_HOST, the open relay and the coordinator tag a client's key host exactly when it started as server |
| ClientCommon.SkipLeading | RandomNetKit.Relay/RelayServer.cs:147-151 | dropping a leading character that does not start the word leaves the search result unchanged |
| ClientCommon.FramedRoleKeyTagsHost | RandomNetKit.Relay/RelayServer.cs:147-151 | with the two length bytes the servers decode in front of the key (the second zero, as for any key shorter than 256 bytes), the host tag is still set exactly for the server's key |
| ClientCommon.ClientSuffixIsNotHost | TinyRelay.Client/LiteNetLibTransport.cs:149 | the client suffix does not contain I_AM_HOST |
| ClientCommon.RelayEvents | TinyRelay.Client/LiteNetLibTransport.cs:260-291 | at most one event: exactly one Data event carrying the sender and payload for Data; exactly one Connect event from the sender for IdAssign on a client and for NotifyJoin; nothing otherwise |
| ClientCommon.IdAssignReportsServer | RandomNetKit.Transport/Unity/LiteNetLibTransport.cs:223-235 | a relay's IdAssign makes a client report the server (id 0) connected and a server report nothing |
| ClientCommon.DataArrivesAsSent | RandomNetKit.Transport/Unity/LiteNetLibTransport.cs:236-240 | the bytes one client sends for application data decode at the receiver into exactly one Data event with the sender's id and the same payload |
| RelayClient.LiteNetLibTransport.constructor | TinyRelay.Client/LiteNetLibTransport.cs:59-63 | not started, no relay peer, id 0 |
| RelayClient.LiteNetLibTransport.Start | TinyRelay.Client/LiteNetLibTransport.cs:102-160 | a started transport throws unchanged; otherwise the host type is set first and stays set on failure, and the relay is asked for with the role key only when the manager started |
| RelayClient.LiteNetLibTransport.StartServer | TinyRelay.Client/LiteNetLibTransport.cs:102-129 | a started transport throws and changes nothing; otherwise the host type becomes Server even when a later step fails, Connect to the relay with the host key is asked only once the manager started, and the outcome says which step failed; succeeds exactly when not started, the manager starts and Connect returns a peer |
| RelayClient.LiteNetLibTransport.StartClient | RandomNetKit.Transport/Unity/LiteNetLibTransport.cs:108-134 | a started transport throws and changes nothing; otherwise the host type becomes Client even when a later step fails, Connect to the relay with the client key is asked only once the manager started, and the outcome says which step failed; succeeds exactly when not started, the manager starts and Connect returns a peer |
| RelayClient.LiteNetLibTransport.Shutdown | TinyRelay.Client/LiteNetLibTransport.cs:162-171 | stops the manager; not started and no relay peer afterwards |
| RelayClient.LiteNetLibTransport.Outgoing | RandomNetKit.Transport/Unity/LiteNetLibTransport.cs:147-161 | nothing without a connected relay peer; otherwise a Data packet to it with role Host exactly for a server, sender the local id, the given recipient and payload, and the converted delivery |
| RelayClient.LiteNetLibTransport.Send | TinyRelay.Client/LiteNetLibTransport.cs:173-188 | transmits exactly Outgoing's packet, if any |
| RelayClient.LiteNetLibTransport.DisconnectLocalClient | TinyRelay.Client/LiteNetLibTransport.cs:211-218 | ends not started with no relay peer; throws exactly in the TinyRelay copy with no relay peer |
| RelayClient.LiteNetLibTransport.OnPeerConnected | RandomNetKit.Transport/Unity/LiteNetLibTransport.cs:190-194 | the connected peer becomes the relay peer |
| RelayClient.LiteNetLibTransport.OnPeerDisconnected | RandomNetKit.Transport/Unity/LiteNetLibTransport.cs:196-209 | losing the relay peer shuts down; losing another peer changes nothing |
| RelayClient.LiteNetLibTransport.OnNetworkReceive | TinyRelay.Client/LiteNetLibTransport.cs:255-294 | throws exactly when the datagram does not decode; otherwise IdAssign stores the assigned id and the events raised are RelayEvents' |
| RelayClient.ClientJoinsThroughRelay | TinyRelay.Client/LiteNetLibTransport.cs:134-188 | a client that starts, meets the relay and is assigned an id reports the server connected and then sends to it under that id |
| PunchClient.Trace | RandomNetKit.Transport/Unity/PunchTransport.cs:72 | a run of n stimuli visits n + 1 states starting from the initial one, each the transition of the one before under the next stimulus, and ending where Final says the run ends |
| PunchClient.RelayIsSink | RandomNetKit.Transport/Unity/PunchTransport.cs:241-255 | peer connections, other peers' drops and ticks never leave ConnectingToRelay |
| PunchClient.ConnectedOnlyAfterPunching | RandomNetKit.Transport/Unity/PunchTransport.cs:251-255 | any run that reaches Connected from another state passes through Punching |
| PunchClient.PunchTransport.constructor | RandomNetKit.Transport/Unity/PunchTransport.cs:70-77 | manager live, not started, Disconnected, no current peer, no target |
| PunchClient.PunchTransport.Start | RandomNetKit.Transport/Unity/PunchTransport.cs:111-169 | a started transport throws unchanged; otherwise the host type is set first; without a manager it throws; with a started manager the state becomes ConnectingToPunchServer and the punch server is asked for with the role key |
| PunchClient.PunchTransport.Shutdown | RandomNetKit.Transport/Unity/PunchTransport.cs:171-182 | stops and drops a live manager; not started, Disconnected, no current peer |
| PunchClient.PunchTransport.Outgoing | RandomNetKit.Transport/Unity/PunchTransport.cs:184-198 | nothing without a connected current peer; otherwise a Data packet to it with role Host exactly for a server, sender the local id, the given recipient and payload, and the converted delivery |
| PunchClient.PunchTransport.Send | RandomNetKit.Transport/Unity/PunchTransport.cs:184-198 | transmits exactly Outgoing's packet, if any |
| PunchClient.PunchTransport.DisconnectRemoteClient | RandomNetKit.Transport/Unity/PunchTransport.cs:208-211 | disconnects the current peer if there is one, changing nothing else |
| PunchClient.PunchTransport.DisconnectLocalClient | RandomNetKit.Transport/Unity/PunchTransport.cs:213-218 | disconnects everyone if the manager is live; no current peer and Disconnected, host type kept |
| PunchClient.PunchTransport.FallbackToRelay | RandomNetKit.Transport/Unity/PunchTransport.cs:225-234 | ConnectingToRelay; the current peer is disconnected and dropped; the relay is asked for with the role key of the host type, and the peer Connect returns becomes current; without a manager it throws after dropping the peer |
| PunchClient.PunchTransport.Update | RandomNetKit.Transport/Unity/PunchTransport.cs:79-90 | only Punching for strictly longer than the timeout acts, by falling back to the relay; every other tick changes nothing |
| PunchClient.PunchTransport.OnPeerConnected | RandomNetKit.Transport/Unity/PunchTransport.cs:236-256 | the peer becomes current; ConnectingToPunchServer moves to WaitingForPunch, Punching to Connected, every other state stays |
| PunchClient.PunchTransport.OnPeerDisconnected | RandomNetKit.Transport/Unity/PunchTransport.cs:258-276 | losing the current peer while Punching falls back to the relay, and in any other state gives Disconnected; losing another peer changes nothing |
| PunchClient.PunchTransport.HandleIdAssign | RandomNetKit.Transport/Unity/PunchTransport.cs:315-331 | stores the assigned id; only a client then sends PunchRequest (sender its id, recipient 0) ReliableOrdered through the current peer, and throws without one |
| PunchClient.PunchTransport.HandlePunchInfo | RandomNetKit.Transport/Unity/PunchTransport.cs:333-353 | in any state: an unreadable payload throws unchanged; the target id is stored before the endpoint is built, so a bad port throws with only the id changed; then Punching from now, the punch server's peer disconnected and dropped, and the target dialled with the bare base key |
| PunchClient.PunchTransport.OnNetworkReceive | RandomNetKit.Transport/Unity/PunchTransport.cs:283-313 | an undecodable datagram is caught and changes nothing; IdAssign and PunchInfo act as their handlers do (a readable PunchInfo body records the target id even when its endpoint does not parse); Data raises one Data event from its sender; other types change nothing; the punch target and its start time change only on PunchInfo |
| PunchClient.JoinPunchServer | RandomNetKit.Transport/Unity/PunchTransport.cs:111-139 | a started client that meets the punch server and is told its id is WaitingForPunch and has asked for host 0 |
| PunchClient.ReceiveHostEndpoint | RandomNetKit.Transport/Unity/PunchTransport.cs:333-353 | PunchInfo naming the host's endpoint leaves the client Punching, dialling the host with the base key |
| PunchClient.PunchTimesOutToRelay | RandomNetKit.Transport/Unity/PunchTransport.cs:79-90 | a punch attempt that outlives the timeout dials the relay with the client key, and the relay's connection leaves the client in ConnectingToRelay |

## Left out

- Process entry points (`Main` of the three server programs), the gated
  relay's polling thread, and `Start`/`PollEvents`: console I/O,
  threading and sleeping are not modelled.
- LiteNetLib itself is not part of this model. This covers connection
  establishment, retransmission, `NatPunchModule`,
  `OnNetworkReceiveUnconnected`, `OnNetworkError` and
  `OnNetworkLatencyUpdate`. Its results enter as parameters, and its sends
  and requests as appended records.
- The writer's and reader's byte order is taken to be little-endian.
- `Put(string)` is taken to write a 2-byte length and then the address
  text's bytes. The text of an address is kept as bytes, with no encoding.
- RandomNetKit.Core.Shared, where the punch protocol's packet types and
  role are declared, is not part of this model. Their byte values 7, 8, 9
  and role 4 are stand-ins.
- Floating point: Unity's clock and the float `PunchTimeout` are integer
  ticks. `SecondsToMilliseconds` and the NetManager settings in
  `Initialize` are not modelled.
- Unity and Netcode glue is not modelled: `PollEvent`, `GetCurrentRtt`,
  `IsSupported`, `SetConnectionData`, `m_MessageBuffer` and
  `ResizeMessageBuffer`, and the receive time passed with each event.
  `InvokeOnTransportEvent` is modelled as an appended event.
- `IPAddress.Parse` and `IPAddress.ToString` are not modelled: an address
  is its text.
- All logging.
- `_ownsData` is not modelled: every constructor sets it, so `Dispose`
  always drops the payload.
- `SerializeToWriter` is not modelled separately. `Send` serializes into a
  fresh writer, and its result is stated on the packet value.
- PunchClient.PunchTransport.HandlePunchInfo: an address text that
  `IPAddress.Parse` would reject is not modelled as a failure; every
  address that is read is accepted.
- GatedRelay.RelayServer.OnPeerConnected: the invariant is promised only
  for a peer that is not already registered. LiteNetLib reports each
  connection once, which the model takes as given rather than proving.
- OpenRelay.RelayServer.OnPeerConnected: the same holds as for the gated
  relay.
- PunchCoordinator.PunchServer.OnPeerConnected: the same holds as for the
  gated relay.
- PunchCoordinator.PunchServer.PunchReplies: the unused bytes at the end of
  each writer's buffer are parameters, bounded so that the payload still
  fits a C# array. The model does not fix how many there are.
- OpenRelay.RelayServer.OnConnectionRequest: the key is the text the
  server searches. The server decodes all of the request's remaining bytes
  as UTF-8, including the 2-byte length that `Put(string)` writes in front
  of the key. The model passes that text in as `key` and does not fix the
  framing. ClientCommon.FramedRoleKeyTagsHost shows that the host tag comes
  out the same with a framing whose second byte is zero, which covers keys
  shorter than 256 bytes.
- PunchCoordinator.PunchServer.OnConnectionRequest: the same holds as for
  the open relay.
- ClientCommon.RoleKeyTagsHost: it is stated on the bare key. The framed
  text the servers actually search is covered by
  ClientCommon.FramedRoleKeyTagsHost, and only for keys shorter than
  256 bytes.
- PunchCoordinator.PunchServer.OnPeerConnected: once the id counter wraps,
  the model promises only that every id names a live peer holding it. Id
  reuse can then overwrite an entry of the id table.
- RelayClient.LiteNetLibTransport.Shutdown: `m_NetManager` is never null
  after `Initialize`, so the stop is always requested.
