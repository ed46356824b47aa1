# hotaru_mqtt in Dafny

A model of the MQTT 3.1.1 broker and client core of `hotaru_mqtt`, with proofs
about it: the wire codec, topics, sessions, the broker and whole servers.
`dafny verify dfyconfig.toml` checks the project.

## What is modelled

**Codec** (`Varint`, `Primitives`, `Encode`, `Decode`, `PacketRoundTrip`,
`Framing`, `PublishWriter`). What the bytes mean is a grammar over the bytes still
to be read. The cursor parsers, the two length decoders, the encoders, the buffered
and streaming framers and the two PUBLISH writers are methods proved against it.
Bytes are integers below 256 and bit masks are sums of distinct powers of two.
Length fields keep the `as u16` truncation. Strings are their UTF-8 bytes, with the
Unicode Standard's definition of well-formed UTF-8.

**Topics** (`Topic`). Split and join, the parsers, validators, printer and matcher.
As in the code, topics that start with `$` are not treated specially.

**Sessions** (`PacketIds`, `Acks`, `Session`). The id counter and the waiter table.
One-shot channels are cells that are pending, delivered or dropped.

**Protocol** (`Handshake`, `HandshakeIds`, `HandshakeSends`, `InboundQos2`,
`Connection`). `Handshake`
interleaves any number of sender tasks with one reader, whose wakes are three separate
table operations: look, remove, put back. A timeout or a close may strike at any time,
and ids may be spent elsewhere. `HandshakeIds` says when an id names one flow,
`HandshakeSends` what is sent and what is given up.
`InboundQos2` is the acknowledging, holding and releasing side. `Connection` holds
the two inbound dispatchers as methods on a session, a command queue and a broker.

**Broker** (`BrokerState`, `FanOut`, `CallLog`, `BrokerRefinement`, `BrokerRuns`,
`QueueIds`, `WillRace`, `TeardownRace`, `Broker`). `Broker` has the methods with their loops; the
order in which a map is iterated is left open. The shared state of all channels is one
table keyed by connection id. Publishing appends to a log in the broker's state: for
whom, what, the tree and the holders of client ids it met, and what each queue gained.
A broker method is one step, except in `WillRace` and `TeardownRace`, where
registrations and teardowns are taken apart into their table operations.

**Server** (`Server`, `ServerRuns`, `ServerWills`). All connections around one broker: admission,
dispatch, chain workers, takeover and teardown, in any interleaving. An endpoint is
anything that edits, suppresses or fails. Every move makes at most one broker
operation (`MoveIsOp`), so what holds of the broker's log and queues over its own runs
holds here. A DISCONNECT and a second CONNECT are inbound packets that end the read
loop; `Leave` is every other way out of it. `ServerWills` tells from the moves of a run
alone which Wills go out.

## Where the code falls short of a plain reading

- `SteppedExactly`: a wake looks, removes, and puts back a slot that is not its to
  fire, and other tasks run in both gaps. It is the one-step wake exactly when the
  removal finds nothing, or its own kind, or another publish kind that the second gap
  acknowledges all the same, or a slot to put back that the second gap does not touch.
  `CrossKindWake` and `SlotSurvivesAbandon` are the two ways to fail: a PUBREC fires a
  PUBCOMP waiter, and a slot is back in the table after the close. No park on the id in
  the first gap rules both out (`SteppedReduction`).
- `CompletedWithoutPubcomp`: because of that, and because two publishes may share id 1
  at the counter's wrap, a task can report Completed(1) without any PUBCOMP.
  `ReportsAreJustified` holds for every run whose removals fire only the waiter that was
  looked at, and `MisreportExactly` shows that such a removal is just what makes the
  report true. The condition follows while every id names one flow (`OneFlowRunIsClean`),
  which for flows less than a counter cycle apart fails only for the adjacent pair at
  the wrap (`OneFlowExactlyInRuns`), and so not in the first 65535 ids of a session
  (`ReportsBeforeWrapAreJustified`).
- `RacingRegistrationsLoseAWill`: when two registrations of one client id both find
  the name free, the second overwrites the first entry. The first Will is then never
  published and the first channel is not closed. `WillLostExactly`: over every
  interleaving a Will is lost exactly when a move of the run overwrote its entry or left
  gracefully with it. With registration as one step, accounting is exact
  (`WillAccounting`).
- `TeardownWipesTheNewcomer`: a client that reconnects and subscribes between the two
  table operations of its old connection's teardown is wiped from the tree, its filter
  granted and still listed. `LateWipeExactly` is the exact condition.
- `PacketComesBack`: empty SUBSCRIBE, UNSUBSCRIBE and SUBACK lists, fields above
  65535 bytes and bodies above 268435455 bytes encode without an error (PUBLISH
  excepted) and do not decode back (`EmptySubackIsRefused` is one). The lemma is an
  equivalence.
- `IdsCollideOnlyAtWrap`: the counter hands out id 1 twice in a row when it wraps.
- `TakeoverWillReaches`, `TeardownWillReaches`: a Will goes out under the empty client
  id, so a subscriber whose id is empty is skipped as if it were the source.
- `RegexDegrades`: a regex level of a path is printed, and comes back, as `+`.

## Model

| member | source | states |
|---|---|---|
| Varint.RemainingLengthRoundTrip | src/codec/varint.rs:9-59 | up to 268435455 the encoding has at most four bytes, decodes to the value behind any suffix, and no byte string for that value is shorter; every larger value takes five or more bytes and is refused, and no input decodes to it |
| Varint.DecodeEncoded | src/codec/varint.rs:27-59 | for every group budget, an encoding followed by anything decodes to its value if the value fits the budget and is malformed otherwise |
| Varint.DecodedIsBounded | src/codec/varint.rs:27-43 | an accepted length fits its budget, uses bytes that are there, and is never shorter than the encoder's output for the same value |
| Varint.DecodeRemainingLengthFromSlice | src/codec/varint.rs:27-43 | the accumulator loop computes the base-128 numeral at the front of the slice, or incomplete, or malformed |
| Varint.ReadRemainingLength | src/codec/varint.rs:9-25 | the streaming loop gives the same value, consumes exactly its bytes, and turns incomplete into end of input |
| Varint.EncodeRemainingLength | src/codec/varint.rs:45-59 | the push loop emits the numeral, continuation bit on every byte but the last |
| Primitives.ReadArcStr | src/codec/primitives.rs:19-29 | the cursor reader agrees with the grammar on the bytes from the cursor, error for error, and the cursor stays in bounds |
| Primitives.BytesRoundTrip | src/codec/primitives.rs:31-50 | a field of at most 65535 bytes is read back whole and the rest is untouched |
| Encode.EncodePacket | src/codec/mod.rs:129-147 | for every packet the encoders emit first byte, length and body of the wire format, or the PUBLISH refusal |
| Encode.EncodePublish | src/codec/encode.rs:96-120 | the same for PUBLISH, with refusals in the code's order |
| Encode.WireFirstByte | src/codec/mod.rs:129-147 | the first byte of every encoded packet is its type and flags as section 2.2 of MQTT 3.1.1 lists them |
| Encode.EncodedExactly | src/codec/encode.rs:74-120 | a packet is encoded if and only if it is not a PUBLISH, or its topic and body fit the wire and an acknowledged one has a nonzero id |
| Decode.ParseConnect | src/codec/decode.rs:59-115 | the cursor parser computes the CONNECT grammar, with the same error in every case |
| Decode.ParsePublish | src/codec/decode.rs:130-162 | the same for PUBLISH; the payload is what is left |
| Decode.ParseSubscribe | src/codec/decode.rs:191-212 | the parse loop computes the list grammar and terminates with its cursor in bounds |
| Decode.ParseUnsubscribe | src/codec/decode.rs:229-243 | the same for UNSUBSCRIBE |
| Decode.ConnectNeedsItsName | src/codec/decode.rs:59-71 | an accepted CONNECT starts with the protocol name and level 4; a wrong name is refused before a wrong level, each with its own violation |
| Decode.AckNeedsItsFlags | src/codec/decode.rs:164-189 | an ack is accepted if and only if it has two bytes and its own reserved flags, and then is that ack of that id |
| PacketRoundTrip.BodyRoundTrip | src/codec/decode.rs:16-254 | every packet the format can carry is parsed back from its own body, QoS 0 ids erased |
| PacketRoundTrip.ParsedIsWellFormed | src/codec/decode.rs:16-254 | every parsed packet has 16-bit UTF-8 fields, nonempty lists and an id exactly on acknowledged publishes |
| Framing.PacketComesBack | src/codec/mod.rs:83-147 | an encoded packet, followed by anything, decodes to itself and leaves the rest if and only if it is well formed and its body fits the cap and the four-byte length |
| Framing.EmptySubackIsRefused | src/codec/encode.rs:135-145 | a SUBACK without return codes is encoded and refused on the way back |
| Framing.FramePrefix | src/codec/mod.rs:83-120 | every strict prefix of an allowed frame asks for more bytes |
| Framing.FrontIsStable | src/codec/mod.rs:83-120 | a packet or an error stays the same, and consumes the same bytes, when bytes are appended |
| Framing.ChoppingIsInvisible | src/codec/mod.rs:83-120 | for every byte stream, valid or not, and every way of cutting it into chunks, the packets and the first error are those of the whole stream |
| Framing.StreamFraming | src/codec/mod.rs:83-147 | any list of sendable packets, concatenated and cut anywhere, arrives as that list in order, without error and with an empty buffer |
| Framing.Buffer.DecodePacketFromBytes | src/codec/mod.rs:83-120 | packet and rest, incomplete, or error; a parse error consumes its frame and earlier refusals consume nothing |
| Framing.ReadPacket | src/codec/mod.rs:49-75 | on every input of two bytes or more the streaming reader gives the buffered reader's packet and rest, or its error, or end of input where that one waits |
| PublishWriter.WritePublishPacket | src/codec/mod.rs:163-199 | the same refusal as `encode_publish` with nothing written, or exactly its bytes, or those up to where the transport failed |
| PublishWriter.FanOutIsEncodable | src/codec/encode.rs:74-120 | any received PUBLISH fanned out at any granted QoS is accepted, with a body no longer than the one received |
| PublishWriter.WillIsEncodable | src/broker.rs:356-369 | the Will of any received CONNECT is accepted when published |
| Topic.JoinSplit | src/topic.rs:34-93 | joining the levels of a string gives the string back |
| Topic.SplitJoin | src/topic.rs:84-103 | splitting joined separator-free levels gives the levels back |
| Topic.ParseSubscribeFilter | src/topic.rs:26-54 | patterns level by level, or the violation of the leftmost bad level |
| Topic.ValidateSubscribeFilter | src/topic.rs:96-120 | succeeds exactly when the parser does, with the same violation otherwise |
| Topic.FirstErrorMeaning | src/topic.rs:38-52 | a level list passes if and only if every level does, and the violation is that of the leftmost bad level |
| Topic.LevelErrorMeaning | src/topic.rs:38-52 | a level is bad exactly as `#` before the last one, or as a wildcard with anything beside it |
| Topic.PrintParsed | src/topic.rs:84-93 | printing a parsed filter returns the filter |
| Topic.ParsePrinted | src/topic.rs:26-93 | a path survives printing and parsing if and only if it is nonempty, has separator- and wildcard-free literals, no regex, `#` only last, and prints within the length limit |
| Topic.RegexDegrades | src/topic.rs:77-93 | a path prints as the path with every regex level replaced by `+`, and parses back as that path |
| Topic.ParsePublishTopic | src/topic.rs:59-75 | literals whose printing is the topic, or the violation; a wildcard is found level by level exactly when the topic contains one |
| Topic.PublishTopicRefusals | src/topic.rs:59-75 | a topic is refused if and only if it is empty, above 65535 bytes or contains `+` or `#` anywhere, with the violation of the first that applies |
| Topic.ValidatePublishTopic | src/topic.rs:123-136 | the parser's verdict |
| Topic.FilterMatches | src/broker.rs:162-187 | the index loop computes the level-by-level match |
| Topic.MatcherMeaning | src/broker.rs:162-187 | on every valid filter and every topic the matcher is section 4.7.1: `+` one level, a closing `#` any number of levels including none |
| Topic.LiteralFilter | src/broker.rs:162-187 | a wildcard-free filter matches a topic if and only if the strings are equal |
| PacketIds.IdsCollideOnlyAtWrap | src/session.rs:106-109 | no id is 0; two allocations fewer than 65535 apart coincide if and only if they are the adjacent pair at the wrap, where both are 1 |
| PacketIds.IdRepeatsAtWrap | src/session.rs:106-109 | allocations 65535 and 65536 of a fresh session, counted from 0, both hand out 1 |
| PacketIds.FreshIdsAreDistinct | src/session.rs:86-109 | the first 65535 ids of a session are pairwise distinct |
| Session.MqttSession.AllocatePacketId | src/session.rs:106-109 | hands out the next id of that sequence and advances the counter by one modulo 65536 |
| Session.AllocationsInSequence | src/session.rs:106-109 | the id handed out after n allocations from any counter is number n of the sequence, for every n |
| Session.MqttSession.Park | src/session.rs:127-154 | inserts the slot and drops the sender it replaces |
| Session.MqttSession.WakeAckWaiter | src/session.rs:215-249 | uninterrupted, look-then-remove is compare-kind-and-remove |
| Session.MqttSession.WakeSubackWaiter | src/session.rs:167-189 | the same for SUBACK, delivering the codes |
| Session.MqttSession.Abandon | src/session.rs:299-303 | drops every waiter in the table, every held message and every inflight record |
| Session.AbandonedHoldsNothing | src/session.rs:299-303 | after a close every table is empty, each waiter that had a slot is dropped and no other changed |
| Acks.WaitersAreConserved | src/session.rs:127-249 | in every run the slots are in bijection with the unresolved waiters |
| Acks.WaiterFate | src/session.rs:127-303 | over every run a waiter resolves at most once, decided by the first operation that concerns it: an ack of its own id and kind delivers that ack's value; cancel, a later park on the id, or abandon drops it |
| Acks.SteppedExactly | src/session.rs:167-249 | for every table and every two gaps, look, remove and put back with other tasks in between is the one-step wake if and only if the removal finds nothing, its own kind, another publish kind the second gap acknowledges with the same value, or a slot to put back that the second gap leaves alone |
| Acks.SteppedReduction | src/session.rs:167-249 | it is the one-step wake whenever no park on the id comes between look and removal, whatever else runs in either gap |
| Acks.CrossKindWake | src/session.rs:236-248 | a run in which a PUBREC fires a PUBCOMP waiter |
| Acks.SlotSurvivesAbandon | src/session.rs:240-246 | a run in which the put-back comes after the close and the slot is in the table again |
| Handshake.ReportsAreJustified | src/protocol/send.rs:51-167 | in every interleaving of the sub-steps whose removals fire only the waiter that was looked at, Completed(id) implies the request sent after the first park, PUBREC after that park, then PUBREL sent, then PUBCOMP after the second park; Acknowledged, Subscribed(codes) and Unsubscribed imply the request sent after the park and an ack of the task's id, after its park, with that content; Sent implies the request sent |
| Handshake.SecondWaitCompletes | src/protocol/server.rs:393-407 | the reader answers a PUBREC before it takes any other packet, so a second wait delivered by a clean removal has the whole handshake behind it |
| HandshakeIds.CompletedWithoutPubcomp | src/session.rs:215-249 | a run of a fresh session, in either role, in which a task reports Completed(1) with no handshake behind it |
| HandshakeIds.MisreportExactly | src/session.rs:215-249 | after any clean run, when a removal fires the waiter a task is blocked on for the last time, the report that follows is justified if and only if it is the waiter the look saw |
| HandshakeIds.OneFlowRunIsClean | src/session.rs:100-109 | while no two tasks use one id, counting slots and looks left by tasks that returned, every removal fires only what was looked at |
| HandshakeIds.OneFlowExactlyInRuns | src/session.rs:100-109 | among tasks on one id born less than 65535 allocations apart, an id names one flow if and only if the adjacent pair at the wrap is not under way together |
| HandshakeIds.ReportsBeforeWrapAreJustified | src/session.rs:100-109 | in every run that spends at most 65535 ids, fan-out included, every report is justified |
| HandshakeSends.SentAtMostOnce | src/protocol/send.rs:51-167 | in every run a task sends its request at most once |
| HandshakeSends.FailedEnqueueSendsNothing | src/protocol/send.rs:72-158 | a task whose enqueue fails reports a closed channel and, whatever follows, its request was never sent |
| HandshakeSends.TimeOutFreesTheId | src/protocol/send.rs:81-118 | a task that times out reports that and leaves no slot on its id |
| HandshakeSends.CloseFailsTheWaiting | src/session.rs:292-303 | a close makes a task whose waiter is in the table report a closed channel |
| InboundQos2.ExactlyOnceDelivery | src/protocol/server.rs:341-427 | over every trace a PUBREL hands a message on if and only if the latest earlier event for its id is a QoS 2 PUBLISH, and hands on that one; every PUBLISH and PUBREL is answered |
| InboundQos2.RepeatsAreHarmless | src/protocol/mod.rs:212-221 | removing a repeated PUBLISH or PUBREL from a trace changes nothing that is handed on afterwards |
| InboundQos2.OtherIdsDoNotInterfere | src/session.rs:266-275 | what is handed on for an id is settled by the events of that id |
| Connection.ConnectionState.AckInboundPublishPreChain | src/protocol/mod.rs:200-223 | the message is held before PUBREC is enqueued; PUBACK for QoS 1; nothing for QoS 0 |
| Connection.ConnectionState.DispatchServerInbound | src/protocol/server.rs:330-431 | one step of the inbound machine, acks wake their own kind on this session, inflight ends at PUBACK or PUBCOMP only; SUBSCRIBE and UNSUBSCRIBE act on the broker and on nothing held or handed on; a second CONNECT is SessionAlreadyBound and changes nothing; any other error is a closed channel and stops within that step |
| Connection.ConnectionState.DispatchClientInbound | src/protocol/client.rs:178-238 | the same for the client, which also takes SUBACK and UNSUBACK; true exactly on DISCONNECT |
| Connection.DispatchWakesExactly | src/protocol/server.rs:384-407 | a dispatched packet delivers to a pending waiter if and only if it is the PUBACK, PUBREC or PUBCOMP of that waiter's kind and id, delivering the id, or in a client its SUBACK with those codes or its UNSUBACK; every other waiter stays as it is |
| Connection.InflightEndsExactly | src/protocol/server.rs:384-407 | a retransmit record goes if and only if the packet is the PUBACK or PUBCOMP of its id |
| FanOut.FanOutExactly | src/broker.rs:485-524 | for every iteration order, and also in the middle of a takeover, each subscriber but the source gets one copy per matching filter, at the lower QoS, retain and dup cleared, with an id exactly above QoS 0, nonzero, tracked, and consecutive from the subscriber's counter |
| FanOut.SequencedIdsDiffer | src/broker.rs:498-505 | two such ids fewer than 65535 numbers apart coincide if and only if they are the adjacent pair at the wrap; from a fresh session the first 65535 differ |
| FanOut.UnheldChannel | src/broker.rs:492-494 | a channel no session holds gets nothing |
| FanOut.FannedOutIsEncodable | src/broker.rs:485-524 | every command a publish of a received PUBLISH puts on any queue is accepted by the writers, with a body no longer than the one received |
| FanOut.WillFannedOutIsEncodable | src/broker.rs:356-369 | so is every command the Will of a received CONNECT puts on any queue |
| CallLog.PublishIsRight | src/broker.rs:485-524 | every log entry a publish makes shows one copy per matching filter for each live holder of a client id but the source, and nothing for anyone else |
| QueueIds.QueueIdsInSequence | src/broker.rs:498-505 | over every run the acknowledged copies on a subscriber's queue carry the ids of the sequence from its first, so no two of the first 65535 share one |
| Broker.SubscriptionTree.Matching | src/broker.rs:147-158 | the nested loops list every matching (client, filter) pair once, in any order |
| Broker.SubscriptionTree.RemoveClient | src/broker.rs:140-144 | the client is gone from every filter and nothing else changes |
| Broker.MqttBroker.RegisterSession | src/broker.rs:309-350 | takeover closes the old channel, publishes its Will and logs it, wipes on clean session; returns true exactly when the new connection inherits the old subscriptions, which are otherwise none; the indexes stay in agreement if and only if no other client's session has the channel |
| Broker.MqttBroker.UnregisterSession | src/broker.rs:381-407 | removes entry and subscriptions only for the owning connection; publishes the Will unless graceful |
| Broker.MqttBroker.Subscribe | src/broker.rs:416-451 | both indexes are updated for the owning connection only; one verdict per filter |
| Broker.MqttBroker.Unsubscribe | src/broker.rs:454-474 | removes from both indexes for the owning connection only |
| Broker.MqttBroker.Publish | src/broker.rs:485-524 | the loop delivers to the matching pairs in the order the tree gave them, and the log gains one entry with what each queue gained |
| BrokerRefinement.RegisterRefines | src/broker.rs:309-350 | registration keeps both indexes in agreement and is one update of the client map |
| BrokerRefinement.StepRefines | src/broker.rs:309-524 | every broker method implements its operation on the map client to (connection, filter to QoS) |
| BrokerRefinement.SubackSaysWhatTheTreeHolds | src/broker.rs:433-450 | a code is Failure if and only if the filter does not parse, and then the subscription is untouched; otherwise it is the QoS the tree now holds, unless the same packet granted the filter again |
| BrokerRuns.RunRefines | src/broker.rs:124-474 | every run of the two-index broker is a run of the one-map broker, and only clients with a session are ever in the tree |
| BrokerRuns.PresentExactly | src/broker.rs:318-319 | over every run session-present is reported if and only if clean session was not asked for and somebody holds the name, told from the operations alone |
| BrokerRuns.TakeoverNonInterference | src/broker.rs:318-473 | after a registration a client's subscriptions are the inherited set plus a replay of its own connection's operations, whatever other connections do under the same name |
| BrokerRuns.DisplacedIsClosed | src/broker.rs:321-332 | a displaced connection's channel is closed and stays closed |
| BrokerRuns.CloseDropsTheSession | src/channel.rs:96-106 | closing an open channel empties its session's tables and keeps its queue; closing again changes nothing |
| BrokerRuns.WriterExitCloses | src/channel.rs:206-233 | a writer that exits closes its channel, which takes no further command |
| BrokerRuns.WillAccounting | src/broker.rs:318-403 | over every run the broker's log has a connection's Will exactly once if its entry was taken over or torn down without grace, and never otherwise; what went out has the topic, payload, QoS and retain flag registered, no dup flag and no id; a connection has ended if and only if it registered and has no entry left |
| BrokerRuns.DeliveryAccounting | src/broker.rs:485-524 | over every run a queue is the concatenation of what each logged publish served it, and every logged publish, Wills included, served exactly the subscribers it met |
| BrokerRuns.WillNotToItsOwner | src/broker.rs:318-347 | a takeover puts no Will on the displaced channel nor on the new one |
| BrokerRuns.TeardownWillNotToItsOwner | src/broker.rs:387-403 | a teardown puts no Will on its own channel |
| BrokerRuns.TakeoverWillReaches | src/broker.rs:318-369 | every other live subscriber gets one copy of a displaced Will per matching filter of its own, with the Will's topic and payload at the lower of its QoS and the grant |
| BrokerRuns.TeardownWillReaches | src/broker.rs:356-403 | the same for the Will of a teardown |
| WillRace.WillAtMostOnce | src/broker.rs:318-403 | under every interleaving of the table operations each Will is published at most once, and a published one is in no table and no task's hands |
| WillRace.WillLostExactly | src/broker.rs:318-403 | over every interleaving a Will is in no table, in no task's hands and unpublished if and only if some move of the run overwrote its entry or left gracefully with it |
| WillRace.RacingRegistrationsLoseAWill | src/broker.rs:318-347 | a race in which a Will is neither published nor stored |
| TeardownRace.TeardownWipesTheNewcomer | src/broker.rs:387-398 | a reconnecting client that subscribes between the entry's removal and the wipe is granted its filter, keeps it listed and is not in the tree |
| TeardownRace.LateWipeExactly | src/broker.rs:396-398 | whatever ran in between, the late wipe keeps the indexes in agreement if and only if nobody holding the name has a filter listed |
| Server.RunServerChainThenDecideFanout | src/protocol/server.rs:437-478 | fans out if and only if no endpoint suppressed or failed; the last edit stands, id and dup are kept |
| Server.EndpointDecides | src/protocol/server.rs:437-478 | an endpoint that fails or suppresses, at any position, stops the message; the last to edit decides topic, payload, QoS and retain, id and dup being the message's own |
| Server.ChainPasses | src/protocol/server.rs:437-478 | the message goes out if and only if nobody fails or suppresses, and unchanged if nobody edits |
| Server.MoveSound | src/protocol/server.rs:94-291 | every move of a server keeps entries with live connections of that name, and workers within what was handed over |
| ServerRuns.MoveIsOp | src/protocol/server.rs:94-427 | every move of a server is at most one legal broker operation |
| ServerRuns.InboundSubscriptions | src/protocol/server.rs:359-383 | a SUBSCRIBE or UNSUBSCRIBE changes the subscriptions of its client as it says, if its connection has the name, and nobody else's |
| ServerRuns.NoLeak | src/protocol/server.rs:181-283 | once `handle_server` has returned, no session entry carries its connection id |
| ServerRuns.PublishedInOrder | src/protocol/server.rs:269-358 | in every run the broker's log has, for each connection, exactly what the chain made of a prefix of the messages its reader handed over, message by message with the endpoints' own outcomes, in order, less the suppressed; all of them once the connection has returned |
| ServerRuns.PublishedUnchanged | src/protocol/server.rs:437-478 | with no endpoint matching, the log has that prefix itself |
| ServerRuns.QueuesInOrder | src/broker.rs:485-524 | on every subscriber's queue items come from the logged publishes in log order, each a copy of what that publish sent, which is what the chain made of that numbered message or the Will that connection registered; a connection's messages keep their order and precede the Will of its own teardown |
| ServerRuns.OwnWillComesLast | src/protocol/server.rs:277-283 | in the broker's log the Will of a connection's own teardown comes after all its publishes, and every entry is accounted for |
| ServerWills.WillsOfAServer | src/protocol/server.rs:181-283 | over every run, told from its moves alone, a teardown publishes the Will exactly once if the connection returned, had registered one, no DISCONNECT arrived and nobody took its name; a takeover publishes it exactly once if the name was taken before the return; nothing else does; what goes out is the Will registered, field by field |
| ServerWills.OwnWillOnlyAfterCrash | src/protocol/server.rs:220-283 | a teardown publishes a Will only if the run has a failed CONNACK or left the read loop otherwise than by DISCONNECT |
| ServerWills.CrashedOrDisconnected | src/protocol/server.rs:237-264 | a connection out of its read loop has either a DISCONNECT or a crash behind it, never both |
| ServerWills.OneWillPerConnection | src/broker.rs:318-403 | no run of a server publishes a connection's Will twice |
| ServerWills.LeftIsClosed | src/protocol/server.rs:267-275 | a connection out of its read loop has a closed channel |

## Left out

- Sockets, timers, `select!` and the runtime: steps that may happen at any time stand in for them.
- `handle_server`, `handle_client` and the chain worker as program text: they are moves of `Server` and actions of `Handshake`, because what is proved of them is about interleavings.
- The send path's PUBLISH content and the command queue's order: `Handshake` records that a request was enqueued, not its bytes.
- `hotaru_core`: the URL walk and endpoint handlers; an endpoint is an arbitrary outcome.
- Panicking endpoints: a worker that dies ends the order guarantee, and `ServerRuns` assumes none does.
- Liveness of ack waits: not promised by the code, which ignores a PUBCOMP that arrives before its waiter is parked.
- Authentication, keep-alive policy and limits (`Authenticator`, `MqttSafety`), client configuration and error display: single branches and builders.
- Retained messages, persistent sessions, retransmission and the `$`-topic rule: not implemented by the code.
- Sharing of payload buffers: no bearing on what is delivered.
- The writer task beyond whether it still takes commands.
- Handshake.ReportsAreJustified: does not promise a justified report for every run, because the code does not; the exact condition is above.
- A dispatch that fails part-way is a whole `Inbound` followed by `Leave`, or a `Leave` alone: what it had handed on or changed by then is one or the other.
- Ids taken by a server's own endpoint publishes share the subscriber's counter: `QueueIds` counts fan-out only, `HandshakeIds` both.
- One reader per connection: two readers waking the same session at once are not modelled, and the program has one.
