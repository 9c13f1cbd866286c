# smo-multi-rs: the relay server and its wire format, verified

A Dafny model of the multiplayer relay: the binary packet format and the framing of byte streams, the proxy, and
the server in which one coordinator and any number of client sessions pass packets between games. The project shows
what holds on every input and in every interleaving, up to the end-to-end statement that what one game encodes is
what the other games decode, over TCP and UDP.

Everything is checked by `dafny verify --verification-time-limit 0 --resource-limit 2000000 dfyconfig.toml`, which needs
a few minutes.

## How it is built

| file | what it holds |
|---|---|
| `Utf8`, `Wire` | UTF-8 validity byte by byte, NUL padding and trimming; little-endian values; a read has three outcomes: a value, an error, or a panic of the `bytes` crate |
| `Packets` | the packet format as functions: `Encode`, `Decode`, `Check`, `Resize` |
| `CodecTheorems` | round trip, what becomes of texts that do not fit, normalisation, prefix stability, sizes |
| `Layout` | the format byte by byte, with every offset and number written out, for what is written and what is read |
| `Codec` | the cursor and buffer code, as classes, proved equal to those functions |
| `Framing` | `ParseAll`: cutting a byte stream into packets, as a function of the bytes alone |
| `Connections` | the TCP and UDP connections as classes with growing buffers |
| `Proxy` | the proxy's relay loop over three inputs |
| `Protocol`, `ClientTask` | what the coordinator does with a command, and a client task with a packet, as functions |
| `Coordinator`, `Client` | the same as the program has it: objects, shared mutable player data, loops over tables, sends one at a time; each method proved to do what the function says |
| `System` | the whole server as a state machine: sessions, queues, delayed syncs, shutdown |
| `Structure` | what every reachable state looks like |
| `Membership`, `TotalOrder`, `History`, `Fifo`, `Shines`, `Provenance`, `Admission`, `Departures`, `Messages`, `EndToEnd` | theorems about all runs |
| `Effects` | what the coordinator's commands come to, written out without the functions of `Protocol` |
| `Players` | what is known of a player in every state of every run, in terms of the packets taken and handled |
| `Routing` | one sequence of packets split over a TCP and a UDP connection |
| `Arrival` | from game to game: what the others decode of what one game encodes |
| `Handles` | the coordinator does the same whatever its handles are |
| `Sequences` | filters, maps and subsequences |

The functions of `Protocol` are generic in the handle of a player's shared data. The class `Coordinator` uses them
with object references, the state machine with session ids; `NamesDoNotMatter` shows that both are about the same
coordinator.

`Protocol`, `ClientTask` and `Packets` define what happens, and the classes are proved equal to them; `Layout`, `Effects`
and `Players` say the same content a second time, in literal bytes, fields and packets and over whole runs, so that the
definitions answer to something else than themselves.

What the program leaves open is given by a `Choice`: the iteration order of its hash maps and sets, and where a
channel send fails. Theorems hold for every choice. In the class a send may fail at any time unless its channels are
`reliable`; then every contract also says that nothing fails. A run is any interleaving of arrivals, packets taken from
games, packets sent on to the coordinator, deliveries, session ends, coordinator commands, delayed syncs and shutdown.

Sends fail in ordinary runs: a session that ends drops its inbox, and whatever the coordinator still sends there comes
back as an error. So what holds is stated session by session. A state notes in `missed` the sessions that some broadcast
did not get to while they were registered, and in `stopped` those that forwarded a packet whose command ended in an
error before it was passed on. Theorems about what a session was sent ask only that the session itself is not in
`missed`, and those about what became of its packets only that it is not in `stopped`, whatever has failed elsewhere. A
departure notice that no longer reaches the leaver itself counts for neither. `clean`, that no channel send at all has
failed, is used only to say that a run exists without failures.

A message carries a note of why it was sent (`kind`) and a queued packet a note of the session that forwarded it.
These notes exist only to state theorems; no step reads them. `History`, `EndToEnd` and `Arrival` remove them again:
their theorems are about packets as sent and about bytes at both ends.

## What does not hold

These are properties one might expect, with the exact condition under which they do hold.

- The round trip holds exactly for canonical packets (`RoundTrip`). A declared size above the real one, a text with
  NULs at its ends, a cap animation that is not 32 bytes, or a hole punch does not come back. A declared size below
  the real one is never decoded (`CheckAndDecodeAgree`); the repository's own packet generator
  (`src/net/packet.rs:485`) declares 4 bytes for a shine where decoding reads 5.
- A text longer than its field is cut in the middle; the frame stays readable exactly if no character is split, and the
  text then arrives cut and stripped of NULs (`AnyPacketRead`, for every text of every packet).
- The last game packet is replayed to newcomers with the declared size it came with. If it had padding, the receiver
  takes the start of the next frame for padding (`PaddedFrameSwallowsNext`). A session's output comes back from the
  stream exactly if no such replay is in it (`OutputParsesExactly`, `IntroParsesExactly`).
- A shine sync that was put off is sent under the receiver's own guid, so the receiver's session drops all of it
  (`DelayedSyncIsLost`).
- The player limit is compared with `<` before the newcomer is counted. A join passes the limit exactly if it succeeds,
  there are `maxPlayers` players and the newcomer is none of them (`LimitPassedExactly`); this happens, for every limit
  (`LimitIsPassedByOne`), and never by more than one (`OnlyAdmitted`).
- Membership views survive a departure exactly if everyone who stays was told (`LeaveAgreesExactly`): a failed send
  leaves ghosts.
- A broadcast stops at the first inbox that is gone, and a session that has ended stays registered until its notice is
  handled; so those that come later in the order of the table miss the packet. A registered session has been sent all
  broadcasts since it joined exactly if none of them has missed it (`HistoryIsBroadcasts`), and then its membership view
  is right (`ViewsAgree`) and no packet of another session is lost on the way to it (`Conservation`).
- A reset makes the shine sets disagree for every other player that still has a shine that is not on its way again
  (`ResetAgreesExactly`). What holds in all runs, resets included, is that everything a player is thought to have is in
  the bag, on its way there, or was cleared from the bag by a reset (`ShinesAgreeInRuns`), and that a session sharing the
  player's data reported it (`SyncedProvenance`).
- The stage that ends a speedrun is compared with `WaterfallWordHomeStage`; the model keeps that spelling.
- A departure notice names a guid and not a session, so one session's notice can end another's registration. Serving a
  notice takes a session off the tables that has not ended exactly if the notice's guid is registered for such a session
  (`TakenOffExactly`). Every queued notice comes from an ended session of its guid (`NoticeHasSender`), so this takes two
  sessions of one guid (`TakenOffByAnother`, `DistinctGuidsAreSafe`). There are two ways to get there: a newcomer under
  a registered guid is refused (`RefusedTakesOff`, `RunningAndUnregistered`), or is let in and the session it replaces
  ends afterwards (`ReplacedTakesOff`, `ReplacedAndUnregistered`).
- Whether a frame that declares too little fails with bad UTF-8 or with a panic can depend on how the bytes were split
  into reads (`ShortFrameDependsOnReads`); for every other frame the outcome depends on the bytes alone.

## Model

| member | source | states |
|---|---|---|
| Utf8.ValidCut | src/net/packet.rs:456-462 | cutting a valid text leaves valid UTF-8 if and only if the cut does not fall inside a character |
| Utf8.ValidPadding | src/net/packet.rs:464-468 | NULs before and after a text change nothing about its validity, in both directions |
| Utf8.TrimFixed | src/net/packet.rs:456-468 | writing a text into a fixed-width field and trimming it gives the text back if and only if it fits and has no NUL at its ends |
| Utf8.ValidFixed | src/net/packet.rs:456-462 | a written field is valid UTF-8 if and only if the text fits or is cut between two characters |
| Utf8.ValidExactly | src/net/packet.rs:464-468 | a byte sequence counts as a text if and only if it is the concatenated encodings of some Unicode scalar values (RFC 3629, section 3) |
| Codec.StrToSizedArray | src/net/packet.rs:456-462 | the copying loop fills a fresh array with the text, cut or NUL-padded to the width |
| Codec.Cursor.BufSizeToString | src/net/packet.rs:464-468 | the cursor reads a trimmed field or reports bad UTF-8, having consumed exactly the width; too few bytes panic |
| Codec.Cursor.ReadWeights | src/net/packet.rs:236-242 | the loop reads six floats in order, or panics where the bytes run out |
| Codec.Cursor.DecodePacket | src/net/packet.rs:212-329 | decoding at the cursor has exactly the outcome of `Decode` on the rest of the bytes, including what is left unread and every error and panic |
| Codec.Cursor.CheckFrame | src/net/packet.rs:45-66 | the length of the first frame when it is all there, with the cursor at its end; otherwise an error |
| Codec.WriteData | src/net/packet.rs:340-450 | the fields of each of the fifteen variants are appended to what the buffer already holds, and nothing else changes; the bytes are those of `Layout.WrittenLayout` |
| Layout.WrittenLayout | src/net/packet.rs:332-454 | for every variant: its number and length, and which byte at which offset holds which field; integers low byte first, flags 0 or 1, a tag update 1 for time and 2 for state, a connection type as four bytes, and where each text starts and ends |
| Layout.DecodesExactly | src/net/packet.rs:212-329 | a frame that is all there decodes if and only if it declares room for its fields and its texts are UTF-8, and then each field has the value of the bytes at its offset; any flag byte but 0 is true, any update byte but 1 a state, any connection number but 0 a reconnection |
| Layout.CheckedExactly | src/net/packet.rs:45-66 | a frame is accepted if and only if 20 bytes are there and as many more as bytes 18 and 19 say |
| Codec.EncodePacket | src/net/packet.rs:336-453 | appends exactly the encoding of the packet, with the declared size as stored |
| CodecTheorems.EncodeLength | src/net/packet.rs:130-148 | every encoding is 20 bytes plus the size the packet reports for its data, for all variants |
| CodecTheorems.Decoded | src/net/packet.rs:212-329 | whatever bytes are decoded, the packet is canonical but for padding, has the declared type and size, and consumed the checked length (16 bytes less for a cap) |
| CodecTheorems.DecodeEncodePadded | src/net/packet.rs:314-322 | an encoding whose declared size is too large still decodes to the packet, and eats that many bytes of what follows |
| CodecTheorems.RoundTrip | src/net/packet.rs:212-453 | decode after encode gives the packet back, leaving only the unread end of a cap name, if and only if the packet is canonical |
| CodecTheorems.CanonicalIsReadable | src/net/packet.rs:212-329 | a packet is canonical if and only if some bytes decode, once resized, to it |
| CodecTheorems.DecodingNormalises | src/net/packet.rs:41-43 | anything that was ever decoded, once resized, survives every further encode, decode and resize unchanged |
| CodecTheorems.AnyPacketRead | src/net/packet.rs:212-468 | what any packet with its real size decodes to, whatever its texts (only unhandled data under a known type's number is left to `RoundTrip`): each comes back cut at its width and trimmed, or the frame is bad UTF-8 because a cut splits a character; a cap keeps 32 bytes of its animation, a hole punch comes back as an unhandled packet |
| CodecTheorems.CanonicalRead | src/net/packet.rs:456-468 | data that is no unhandled data under a known type's number comes back unchanged if and only if it is canonical |
| CodecTheorems.UndersizedPanics | src/net/packet.rs:314-322 | a packet of a known type that declares less than its size panics after its fields are read, unless a text is bad UTF-8 before |
| CodecTheorems.CheckAndDecodeAgree | src/net/packet.rs:213-322 | once `check` accepts, decoding a frame that declares enough room never panics and never lacks data; a frame that declares too little is never decoded; success consumes the checked length |
| CodecTheorems.FollowedBy | src/net/packet.rs:45-66 | bytes appended after an accepted frame change neither its length nor its packet nor its error |
| CodecTheorems.PrefixNotAccepted | src/net/packet.rs:45-66 | no strict prefix of a frame is taken for a frame |
| CodecTheorems.DatagramFits | src/net/udp_conn.rs:92 | every known packet fits the 100-byte receive buffer, so no datagram of one packet is truncated |
| Framing.FrameFollowed | src/net/connection.rs:31-47 | a successful parse removes exactly one whole frame, whatever follows it and however little of a cap decoding read |
| Framing.FailureStays | src/net/connection.rs:31-57 | once a complete first frame has failed, later bytes never turn it into a packet, and for a frame that declares enough room they do not change the error |
| Framing.ParseAllAppend | src/net/connection.rs:49-70 | parsing what is there and going on when more arrives gives the packets of the whole |
| Framing.ChunkIndependence | src/net/connection.rs:31-70 | for every stream and every split into reads, the packets and the leftover are those of the concatenation |
| Framing.WireRoundTrip | src/net/connection.rs:31-85 | a stream of encoded canonical packets parses to exactly those packets and an empty buffer |
| Framing.PaddedFrameSwallowsNext | src/net/packet.rs:314-322 | a packet with padding declared but not written takes the front of the next frame |
| EndToEnd.WireRoundTripExactly | src/net/connection.rs:49-85 | any list of packets, written one after the other, comes back exactly if and only if all of them are canonical |
| EndToEnd.ReadableExactly | src/net/packet.rs:212-329 | the packets that some bytes decode to are exactly those with canonical data and a declared size not below the real one |
| Connections.TryParse | src/net/connection.rs:31-47 | check, rewind, decode: exactly one attempt of `ParseOne` on the buffer |
| Connections.Connection.ParsePacket | src/net/connection.rs:31-47 | removes one whole frame on success and leaves the buffer unchanged otherwise |
| Connections.Connection.ReadSocket | src/net/connection.rs:59-70 | the stream is unchanged; end of input is a close or a reset depending on whether the buffer is empty |
| Connections.Connection.ReadPacket | src/net/connection.rs:49-57 | a packet, the lack of one, and the failure of a frame that declares enough room depend only on the bytes of the stream, which loses one frame or nothing; in every case, short frames included, the outcome is that of the buffer in which a whole frame first stood |
| Connections.ShortFrameDependsOnReads | src/net/connection.rs:31-57 | for a frame that declares too little the reads do matter: the same bytes panic in two reads and are bad UTF-8 in one |
| Connections.Connection.ReadAll | src/net/connection.rs:49-70 | reading to the end returns exactly the packets of `ParseAll` on the whole stream, and leaves its leftover |
| Connections.Connection.WritePacket | src/net/connection.rs:72-84 | appends the encoding to what has been written |
| Connections.UdpConnection.SetClientPort | src/net/udp_conn.rs:71-80 | the peer is connected afterwards, at the announced port and the same IP as before |
| Connections.UdpConnection.ParsePacket | src/net/udp_conn.rs:46-62 | removes one whole frame on success and leaves the buffer unchanged otherwise |
| Connections.UdpConnection.ReadSocket | src/net/udp_conn.rs:91-105 | one datagram is consumed; from the address and port of the peer its first 100 bytes at most are appended to the buffer, and from any other nothing is; without a peer nothing is read |
| Connections.OthersDoNotMatter | src/net/udp_conn.rs:96 | datagrams of other addresses can be left out of any input, wherever they come in between, without changing what is read |
| Connections.DatagramsAmongOthers | src/net/udp_conn.rs:82-105 | whatever others send in between, datagrams of one packet each from the peer are read as exactly those packets |
| Connections.UdpConnection.ReadPacket | src/net/udp_conn.rs:82-89 | the next packet depends only on the accepted bytes: it is the first one in the old buffer followed by what the datagrams consumed by this call have added |
| Connections.UdpConnection.WritePacket | src/net/udp_conn.rs:107-122 | one datagram with the encoding to the peer's address, or an error and no datagram when there is no peer |
| Connections.DatagramsParse | src/net/udp_conn.rs:82-122 | canonical packets sent one per datagram, each within the 100 bytes that are received, come out as exactly those packets |
| Proxy.Relay | examples/proxy/src/main.rs:160-204 | one packet is written, resized, on exactly one of three outputs; a port announcement becomes a notice to the server |
| Proxy.ProxyClient | examples/proxy/src/main.rs:151-206 | over any schedule of the three inputs, every packet read is accounted for on the outputs; the packets read from each TCP side are those of its stream, and those read from UDP are the packets of the old buffer and what was accepted since, which between two changes of port is what the consumed datagrams add |
| Proxy.Transparent | examples/proxy/src/main.rs:152-205 | the bytes toward the multiplexed side parse to exactly the packets read from the other side, resized, in order, without port notices and movement; what went out by UDP parses to exactly the movement packets read from that side, resized, in order; the bytes toward the other side parse to everything read from the multiplexed side |
| Proxy.ServerLearnsPort | examples/proxy/src/main.rs:171-185 | for every port announcement of either side the server is told the proxy's own port once, under the empty guid, and the game is told nothing |
| Proxy.WrittenOnce | examples/proxy/src/main.rs:189-204 | as many packets are written as were read; only port notices are made up |
| Coordinator.Channels.Send | src/coordinator.rs:275 | a send appends one message to one inbox, or fails and changes nothing; over reliable channels it does not fail |
| Coordinator.Coordinator.SendToAll | src/coordinator.rs:274-277 | every inbox in the table gets the message once until a send fails; success means that all got it, and over reliable channels it is certain |
| Coordinator.Coordinator.Broadcast | src/coordinator.rs:272-278 | the new state is `Protocol.Broadcast` of the old for the set of inboxes that were reached |
| Coordinator.Coordinator.DisconnectPlayer | src/coordinator.rs:244-255 | the whole new state is `Leave` of the old: off both tables first, others told, then the leaver, each only if what came before got through |
| Effects.LeaveTells | src/coordinator.rs:244-255 | a departure under a registered guid is broadcast, and reaches the leaver only after all others; under any other guid nobody hears of it |
| Coordinator.Coordinator.Introduce | src/coordinator.rs:214-239 | one player is introduced by the messages of `IntroOf`, in order, up to the first failed send; what they say is `Effects.SetupTells` |
| Effects.SetupTells | src/coordinator.rs:203-242 | however far it gets, the newcomer's inbox gets a prefix of this: for each player of the table, in some order, a first connection with its guid, name and the limit, its costume with body and cap as they are, and its last game packet as it came; once all got through, those reached, and only those, get the newcomer's own connect packet |
| Effects.JoinTells | src/coordinator.rs:127-242 | after a join that succeeds the newcomer has been shown everyone, itself included, and everyone has been sent its connect packet, and nobody anything else |
| Coordinator.Coordinator.SetupPlayer | src/coordinator.rs:203-242 | the whole new state is `Setup` of the old, for some order of the table and some point of failure |
| Coordinator.Coordinator.InsertClient | src/coordinator.rs:175-187 | a first connection always replaces the registered data; a reconnection keeps the data that is there; what that means for a join is `Effects.JoinKeepsData` |
| Effects.JoinKeepsData | src/coordinator.rs:175-191 | after a join that succeeds: a reconnection under a registered guid has the data that was registered, any other newcomer its own; the task that is started has the same data; no other entry, no data, no shine and no delayed sync changes |
| Effects.RefusedExactly | src/coordinator.rs:146-172 | a newcomer is refused for too many players, for its guid, or for its address, exactly on these grounds in this order, and all it leaves is its departure notice |
| Coordinator.Coordinator.AddClient | src/coordinator.rs:127-201 | the whole new state is `Join` of the old, on every path: refused, let in, or let in and taken out again after a failed send |
| Coordinator.Coordinator.ClientSyncShines | src/coordinator.rs:288-314 | each shine that is in the bag and not with the client is sent once, in some order, until a send fails; nothing while speedrunning |
| Coordinator.Coordinator.SyncAllShines | src/coordinator.rs:257-270 | the whole new state is `SyncAll` of the old; success means that nobody lacks a shine that was not sent |
| Coordinator.Coordinator.StartGame | src/coordinator.rs:71-79 | the player's shared data is marked and its shines cleared in place, and the bag is emptied; nothing else changes |
| Coordinator.Coordinator.EndSpeedrun | src/coordinator.rs:80-102 | the flag is cleared in place, and a delayed sync starts exactly if it was set |
| Effects.EndsRun | src/coordinator.rs:80-102 | when a registered player sends a game packet with the stage `WaterfallWordHomeStage`, its flag is false afterwards and nothing else about any player changes; one delayed sync, for its inbox, guid and data, is added exactly if the flag was set |
| Effects.StartsRun | src/coordinator.rs:71-79 | when a registered player sends a game packet with the stage `CapWorldHomeStage` and scenario 0, its flag is true, it has no shines, the bag is empty, and nobody else's data changes |
| Effects.SyncedAgain | src/coordinator.rs:80-102 | after the former, a sync without failures sends the player exactly the shines of the bag that it lacks |
| Effects.OthersKeepData | src/coordinator.rs:54-108 | no other packet changes anything the coordinator knows of a player, and only a shine adds to the bag |
| Coordinator.Coordinator.HandlePacket | src/coordinator.rs:54-108 | result and new state are those of `Protocol.HandlePacket`: shines are never passed on, and every early return is taken where the program takes it |
| Effects.PassedOnExactly | src/coordinator.rs:54-108 | a packet is broadcast, with its real size, if and only if it is no shine, no costume whose syncs failed, and no game packet of the two stages under an unknown guid; the last is the only unknown-player error; and each inbox gets exactly the syncs and the packet that reach it |
| Effects.ShineHandled | src/coordinator.rs:59-64 | a shine is put into the bag, and if no send fails every player has been sent exactly the shines of the new bag that it lacks, none while on a speedrun |
| Effects.SyncsExactly | src/coordinator.rs:288-314 | a complete sync sends, each once, the shines that are in the bag and not with a player that is on no speedrun |
| Coordinator.Coordinator.HandleCommand | src/coordinator.rs:47-112 | result and new state are those of `Handle`, for every command; over reliable channels no command ends in a failed send |
| Coordinator.Coordinator.RunDelayed | src/coordinator.rs:92-101 | a delayed sync sends the shines missing at the time it runs, under the receiver's own guid |
| Effects.DelayedRunsOnce | src/coordinator.rs:92-101 | a delayed sync is taken off the list and sends one packet for each shine, under its guid, to its inbox and to no other |
| Coordinator.Coordinator.Shutdown | src/coordinator.rs:280-285 | goes through a snapshot of the keys in some order and leaves both tables empty whatever fails; over reliable channels every notice of `DrainNotices` is sent |
| Coordinator.Coordinator.HandleNext | src/coordinator.rs:29-45 | one turn of the command loop: the head of the queue is handled, errors are survived, a shutdown command drains the server |
| Client.Client.UpdateData | src/client.rs:125-173 | the in-place updates of the shared data come to `OnPacket`; over runs they are `Players.ProfileIsLast` and `Players.ShinesExactly` |
| Players.ProfileIsLast | src/client.rs:123-173 | in every run a player's costume, last game packet, stage, time and role are those of the last packet about them that a session sharing its data has taken, or the defaults, `Mario` for the costume |
| Players.ShinesExactly | src/client.rs:144-173 | in every run a player is thought to have exactly the shines that sessions sharing its data have taken, with a costume known, since it last started over |
| Players.SpeedrunExactly | src/coordinator.rs:71-102 | in every run a player is on a speedrun if and only if it has started over and the coordinator has not seen it move on since |
| Players.BagExactly | src/coordinator.rs:59-79 | in every run the bag holds exactly the shines handled since a registered player last started over |
| Players.RunShares | src/coordinator.rs:175-188 | in every reachable state the coordinator keeps for each player the very data that its registered session writes to |
| Players.ReconnectionKeeps | src/coordinator.rs:175-188 | in every run a player that reconnects while registered goes on with the same data, unchanged, and its new session shares it; any other newcomer has fresh data of its own |
| Players.ShownIsLast | src/coordinator.rs:214-239 | in every run what a newcomer is shown of each player is the last costume and the last game packet that a session sharing the player's data has taken |
| Client.Client.HandlePacket | src/client.rs:123-186 | data updated, everything but a port announcement forwarded once and unchanged, or lost with nothing else changed when the coordinator is gone; a port announcement connects UDP |
| Client.Client.SendPacket | src/client.rs:216-241 | movement goes by UDP exactly when the game has announced a port, the rest by TCP, own packets nowhere; when the TCP socket fails only the packet is lost |
| Client.Client.HandleCommand | src/client.rs:200-214 | the session ends exactly on its own disconnect, and writes exactly what does not bear its guid |
| Client.Client.ReadEvent | src/client.rs:98-110 | one input loses exactly the packet that is returned, for UDP the next one of the buffer and the datagrams consumed; a closed socket or inbox ends the session |
| Client.Client.HandleEvents | src/client.rs:71-121 | over any schedule, with sends to the coordinator and socket writes that fail at any turn: data, commands, inbox, stream, datagrams and both outputs are accounted for packet by packet; the disconnect command is sent at most once, when the session is over, and certainly if the coordinator is still there; on a panic nothing more is handled or sent |
| Routing.RoutedInOrder | src/client.rs:226-237 | splitting the output over two connections loses nothing, and each keeps the order |
| Routing.RoutedOverTcp | src/client.rs:226-237 | what is not movement all goes by TCP, in order |
| Routing.RoutedOverUdp | src/client.rs:226-237 | if no movement goes by TCP, exactly the movement goes by UDP, in order |
| Routing.RoutedFilter | src/client.rs:226-237 | the packets of interest, such as those of one player, are split in the same way |
| Handles.NamesDoNotMatter | src/coordinator.rs:47-112 | under any other one-to-one naming of the shared data every command has the same choices, the same result and the same new state but for the names |
| Arrival.OutputOverBoth | src/client.rs:216-241 | in every run on unpadded game packets, the bytes on each of a session's two connections come back packet by packet and together are all of its output |
| System.ServedIsHandled | src/coordinator.rs:29-45 | serving a command in the state machine changes the coordinator exactly as `Handle` does, and starts the shutdown exactly on a stop |
| Structure.RunWf | src/coordinator.rs:20-26 | in every reachable state tables, queues, handles and delayed syncs name sessions of the right guid, and no session is queued to join twice |
| Membership.JoinAgrees | src/coordinator.rs:203-242 | after a join in which no send fails, every view, including the newcomer's, is the new set of players |
| Membership.JoinAgreesAt | src/coordinator.rs:175-242 | whatever fails during a join, a session that got what was broadcast agrees afterwards: with the newcomer if it stays, without it if its setup failed and it was taken off again |
| Membership.LeaveAgreesExactly | src/coordinator.rs:244-255 | the views still agree after a departure if and only if everyone who stays was told |
| Membership.ViewsAgree | src/coordinator.rs:127-255 | in every run without faked membership packets, whatever sends fail: replaying the connects and disconnects sent to a registered session that no broadcast has missed gives exactly the registered players, across joins, reconnects, refusals, failed setups and departures |
| TotalOrder.BroadcastOrderHolds | src/coordinator.rs:203-278 | what each session was sent by broadcast is always a subsequence of the broadcasts since it joined; for a session that none has missed a prefix, and all of them while it is registered; one that was missed lacks a broadcast for good |
| History.HistoryIsBroadcasts | src/coordinator.rs:203-278 | without any notes on messages: what a session was sent, minus its introductions and minus shines, is a subsequence of the broadcasts since it joined, their beginning if none has missed it, and while it is registered all of them if and only if none has |
| Fifo.Conservation | src/coordinator.rs:272-278 | if no broadcast has missed one session: what another forwarded is, in order, what was broadcast before the one joined, what it handled, what is in its inbox, and what is in the coordinator's queue, if and only if no command of the other failed before its broadcast; failures elsewhere do not matter |
| Fifo.OrderAndNoEcho | src/client.rs:200-241 | whatever fails, what a session was sent of another, followed by what is queued, is a subsequence of what the other forwarded; and no session ever writes a packet that bears its own guid |
| Shines.SyncIsExact | src/coordinator.rs:257-314 | a sync without failures adds to each inbox one packet for each missing shine and none for a speedrunner, and changes nothing else |
| Shines.ShinesAgreeInRuns | src/coordinator.rs:59-79 | in every run, every registered player is thought to have only shines that are in the bag, that one of its sessions has in hand or in the coordinator's queue, or that a reset has cleared; without resets only the first two |
| Shines.ResetAgreesExactly | src/coordinator.rs:70-79 | a reset keeps this, with nothing lost, for the player that resets, and for all if and only if the others have only shines that are still on their way |
| Provenance.BagProvenance | src/coordinator.rs:59-60 | every shine in the bag was reported in a packet that was handled at some step, and has been in the bag ever since |
| Provenance.ShinesAreSyncs | src/coordinator.rs:59-64 | in every run, whatever games send, every shine packet in any inbox was put there by a sync |
| Provenance.SyncProvenance | src/coordinator.rs:288-314 | every shine packet ever sent to a session carried a shine that was then in the bag and that its player then lacked, while it was not speedrunning |
| Provenance.SyncedProvenance | src/client.rs:167-173 | in every run, resets included, whatever a player is thought to have was reported by a session that shares its data, and has not been cleared since |
| Provenance.DelayedSyncIsLost | src/coordinator.rs:92-101 | nothing of a delayed sync is ever written by the session it goes to |
| Admission.OnlyAdmitted | src/coordinator.rs:146-172 | in every reachable state there are at most one more players than the limit, and none is banned by guid or by address |
| Admission.LimitIsPassedByOne | src/coordinator.rs:153 | the bound is reached: for every limit there is a run without failures that ends with one player more than the limit |
| Admission.LimitPassedExactly | src/coordinator.rs:146-201 | a join leaves more players than the limit if and only if it succeeds, there were as many as the limit, and the guid was new |
| Departures.NoticeHasSender | src/client.rs:112-121 | in every run each queued departure notice bears the guid of a session that has ended |
| Departures.TakenOffExactly | src/coordinator.rs:244-255 | serving a notice takes a session off the tables that has not ended if and only if the notice's guid is registered for that session |
| Departures.TakenOffByAnother | src/coordinator.rs:244-255 | such a notice was another session's, of the same guid |
| Departures.DistinctGuidsAreSafe | src/coordinator.rs:244-255 | with one session for each guid no notice takes a session off the tables that has not ended |
| Departures.RefusedTakesOff | src/coordinator.rs:165-172 | from every reachable state with nothing queued, refusing a newcomer under a registered guid leads to that player being off the tables, its session untouched |
| Departures.ReplacedTakesOff | src/coordinator.rs:175-188 | from every such state, letting a newcomer in under the guid of a running session leads, when the replaced session ends, to the newcomer running and off the tables |
| Departures.RunningAndUnregistered | src/coordinator.rs:146-172 | for every limit, without bans, there is a run without failures in which a running session has been taken off by a refused newcomer's notice |
| Departures.ReplacedAndUnregistered | src/coordinator.rs:175-201 | for every limit above zero, the same by reconnecting: the newer session runs, and the end of the older has taken it off |
| Admission.RegistryCoherent | src/coordinator.rs:257-259 | in every reachable state, after any failures, both tables have the same keys, inboxes are not shared, and every lookup in the other table succeeds |
| Admission.NeverStuck | src/coordinator.rs:47-112 | whatever command is next in a reachable state, it can be handled without a panic, and has an outcome in which no send fails |
| Admission.DrainEmpties | src/coordinator.rs:280-285 | going through the keys in any order empties both tables whatever sends fail |
| Admission.DrainNotices | src/coordinator.rs:244-285 | if no send fails, each inbox gets exactly one notice for every player that left before its owner and then the owner's, the only one that ends its session |
| Admission.ShutdownDrains | src/coordinator.rs:280-285 | after a shutdown, with the steps of sessions mixed in, the registered players are exactly those still to be disconnected |
| EndToEnd.RunSendable | src/coordinator.rs:214-277 | in every run on packets from the wire, everything sent to any session is canonical, except for padded replays of game packets |
| EndToEnd.OutputParses | src/client.rs:216-241 | if game packets come without padding, any part of what a session writes comes back from the stream packet by packet |
| EndToEnd.OutputParsesExactly | src/coordinator.rs:236-238 | without that assumption it comes back if and only if no game packet among it has padding |
| EndToEnd.IntroParsesExactly | src/coordinator.rs:214-239 | an introduction comes back from the stream if and only if the replayed game packet has no padding |
| Arrival.PlayerArrives | src/coordinator.rs:54-108 | if no broadcast has missed a session and no socket write of it failed: everything relayed from a player since it joined, from whichever of the player's sessions and of every type that is passed on, is in order what the session has written under that guid after its introductions and what is still in its inbox |
| Arrival.RegisteredReceives | src/client.rs:71-110 | every registered session none of whose socket writes has failed is in order for this, whatever sends have failed |
| Arrival.ForwardedArrives | src/client.rs:180-241 | if also no command of the sender failed before its broadcast: what it has forwarded is in order what was relayed before the other joined, what the other's game was written under that guid, what is in its inbox, and what is in the coordinator's queue |
| Arrival.TakenInRuns | src/client.rs:123-186 | while the coordinator is up, what a session is to forward of what it has read is what it has sent and the packet in its hand |
| Arrival.SplitArrives | src/client.rs:216-241 | for every split of a session's output over TCP and UDP, both byte streams parse back, the introductions come first on TCP, and the packets of any player after them are split in the same way |
| Arrival.GameToGame | src/client.rs:71-241 | from bytes to bytes at any moment, each end reading in pieces of any size and the output split over TCP and UDP in any way: the other game decodes, after its introductions, exactly what the first encoded from the moment the other joined up to what is still on its way, each connection in order, together all of it, and what is not movement in order by TCP |

## Left out

- Sockets, the tokio runtime, `select!` and real time: every wait is a free choice of the next step, and a delayed sync may run at any later step.
- Liveness: bounded channels can block each other, so queues are unbounded sequences and only safety is proved.
- Short writes: `write_packet` restarts from the buffer's start after a short write; a write is assumed to be whole or to fail as a whole.
- Interleaving inside one coordinator command: in the state machine a command is handled in one step, while in the program other tasks run between its sends. Their queue operations commute with those sends; a player's data changing in the middle of a sync or a setup is not captured. Sends that fail may fail anywhere. A session's own handling of a packet is two steps, the update of the shared data and the send.
- The panic hook of `src/main.rs:71-74` ends the whole process when any task panics, so a frame that makes decoding panic stops the server, and so does a UDP socket that refuses a write (`src/net/udp_conn.rs:116`). `HandleEvents` returns at the former with nothing more done; the state machine has no such step, since every theorem about runs holds for a run that stops anywhere. The latter is not modelled.
- UDP across a change of port: `UdpConnection` counts only the datagrams of the peer it has at the time; `ProxyClient` and `HandleEvents` say which datagrams the accepted bytes come from only between two changes. Datagrams lost or reordered on the way to a game are not captured: `GameToGame` takes the bytes on each connection to arrive in order.
- A frame with bad UTF-8 stays in the buffer and fails again at every read; only that the buffer is unchanged is claimed.
- Guids of incoming packets are not compared with the session's by the program; `ForwardedArrives` and `GameToGame` assume that games stamp their own, and that no other session of the player has had anything passed on meanwhile; `PlayerArrives` assumes neither.
- Floats are 32-bit patterns; comparison of NaN values as the program's `PartialEq` does it is not modelled.
- `initialize_client` and the accept loop: a session arrives in the state machine with its handshake done.
- The `enabled` flag of the ban list: the program never reads it, so bans always apply, in the model as well.
- The shared data's `settings` field, `display_name`, logging, `persist_shines`, settings files and the command line; the arm for commands from the command line is `todo!()` in the program and has no counterpart here, since an inbox holds only packets.
- `src/net/serializer.rs`, `src/net/deserializer.rs`, `src/net/header.rs` are not compiled into the program and are not part of this model; neither is the text form of guids.
