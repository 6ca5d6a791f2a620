# A verified model of the publish/subscribe broker

The repository is a message broker (`server.cpp`) with store-and-forward ("SF") delivery and a
subscriber client (`subscriber.cpp`). UDP datagrams are published to topics; the server relays each one
to the subscribers on line and, while a topic has SF subscribers, logs it and replays it to those who
come back. Server and subscribers talk over TCP in frames of a 20-byte header and a body.

## What is modelled, and how the files fit together

- `Bytes`, `Protocol`: bytes, little-endian fields, frames, datagrams, stored messages, topic keys.
- `Layout`: every packet and every request as numbers, byte by byte.
- `BrokerSpec`: the broker as a state machine over values: the client table, the topics with logs,
  entries and cursors, one packet log per accepted connection, and the events `Accept`, `Receive`,
  `Hangup`, `Datagram`, `Exit`. `Run` folds events; `Legal` says that the kernel can report them.
- `AnyRules`: what every run keeps whatever the rules: sound records and sockets, the session grammar,
  and what a record that has not hung up as written can count on.
- `Table`: the stronger invariant of the connection table with end-of-file as intended, and exactly when
  it holds as written.
- `Lane`, `Projection`: the broker seen from one topic, and the theorem that, under any rules, projecting
  a run of the whole broker to a topic is a run of the one-topic broker.
- `ReplayOrder`: the order in which a replay visits the map of topics is never seen.
- `Effects`, `Behaviours`: what each event does, told without the handlers as a relation between records,
  topics and connections before and after; the state machine's runs are exactly its behaviours.
- `Epoch`: the log and the SF count, the unsubscribe as written, multiplicity, subscribers without SF.
- `Counts`: the count and the log over runs of the whole broker, under any rules.
- `Seat`: one SF subscription by itself, under the intended and under the written cursor rules.
- `Delivery`: the results of `Epoch` and `Seat` carried back to runs of the whole broker.
- `Receiver`, `EndToEnd`: the subscriber's resumable parser on arbitrary chunks, and the composition of
  broker, sockets and parser.
- `Hangups`: what becomes of a client whose end-of-file is handled as written.
- `Failures`: runs, event by event, on which the code as written fails.
- `Cursor`: the cursor arithmetic on machine integers. `Commands`: the requests clients send.
- `Inputs`: what wakes the main loop up, as bytes and descriptors, and the events it stands for.
- `Server`: the server's handlers as methods over mutable state (client records reached by pointer, the
  topic map updated in place, sockets as bytes), each proved against `BrokerSpec`, up to `MainLoop`.
- `Service`: from the inputs of the main loop, through the bytes on its sockets, to what is shown.
- `Process`: the subscriber process, with its receive buffer, proved against `Receiver` and `Commands`.

`State.conns[..].wire`, `Conn.owner` and `ClientRec.sessions` are history: nothing the server does
depends on them. What a client has been sent on a topic (`Delivered`) is defined from the packets on
the wires of its successive connections.

## Rules in force

In four places the code departs from its evident intent. The state machine takes a `Rules` value that
says, for each, whether the code as written or the intent is in force; `AS_WRITTEN` is the code.

| rule | code | as written | intent |
|---|---|---|---|
| `eofLeavesRecord` | server.cpp:431-435 | end-of-file closes the socket, the record stays connected | same as a disconnection |
| `readAfterErase` | server.cpp:376-378 | the SF flag is read through the erased iterator, so from the next entry (or past the end) | read, then erase |
| `cursorFromZero` | server.cpp:334 | a new entry's cursor is 0 | the last index now in the log |
| `replayKeepsCursor` | server.cpp:254-260 | a replay leaves the cursor where it was | it moves to the end of the log |

Exactly-once delivery holds unconditionally with all four as intended (`Delivery.ExactlyOnce`). For the
code as written the table and the counts have their exact conditions (`Table.TableAsWritten`,
`Counts.CountsOverRuns`), delivery under the written cursor rules has its own while the topic's SF count is
not zero (`Delivery.ExactlyOnceInCode`), and each fault has a legal run that fails: `Failures.FirstMessageLost`,
`Failures.HangupLosesClient`, `Failures.RequestSwallowed`, `Failures.ClearLosesMessages` and
`Failures.CountDrifts`. What is said of one client asks only that this client does not hang up as written
(`AnyRules.StaysUp`). Delivery asks of the topic only that from the subscribe on its SF count, right or
not, is not zero (`Delivery.CountHolds`), whatever flags are misread; while none is, it is not
(`Delivery.RightFlagsHoldCount`). What a client that does hang up can expect is said in `Hangups`.

A refused client is sent CONN_NO (server.cpp:203); readme.txt:96-98 says CONN_END. The model follows the
code.

## Assumptions about the environment

- `accept` returns a descriptor that is not open; requests and end-of-file come from open sockets.
- `send` accepts all its bytes; a header read with MSG_WAITALL is complete or finds end-of-file, and so
  does a payload.
- Datagrams have 51 to 1600 bytes; topics in requests at most 50, ids at most 10 and no NUL.
- CONN_REQ has no payload, as the client sends it.
- A log holds fewer than 2^31 messages; `size_t` has 64 bits, `int` 32; the machine is little-endian.
- The two padding bytes of `struct udp_header` are copied with it. `BUFSIZ` is 8192.

## Model

| member | source | states |
|---|---|---|
| Behaviours.BehavioursRun | server.cpp:552-588 | under any rules: whatever states succeed each other from the empty server on, each related to the one before by what an event does to records, topics and connections, the events are a legal run of the handlers' state machine and it ends in the last of those states, up to the order in which replays interleave the topics on a wire |
| Behaviours.RunsBehave | server.cpp:552-588 | and the states of every legal run succeed each other so |
| Effects.EffectsOverRuns | server.cpp:493-588 | under any rules, over every run, each event does what is told of it and nothing else: accept adds an open connection; a first request registers, refuses (one CONN_NO, then close), reconnects (what each topic owes, on that connection alone) or is ignored; a request adds an entry, removes the first one, takes the record off line closing its socket without a word, or changes nothing; end-of-file closes the socket, registered or not; a publish is logged while the count is not zero and sent once per entry to each connected subscriber's connection; exit sends one CONN_END to every open connection of a connected record and closes it; no other state is that effect, up to the order in which a replay interleaves the topics |
| Effects.EofFreesDescriptor | server.cpp:485-488 | over every run, after an end-of-file its descriptor is free and can be accepted again, whoever held it |
| Delivery.ExactlyOnce | server.cpp:85-116 | with the intended rules, over every run: an SF subscriber has been sent, over all its connections, exactly what was published since it subscribed up to where it last left, in order and once; the log after its cursor is the rest; while connected the rest is empty |
| Delivery.ExactWithIntendedCursors | server.cpp:242-262 | with the intended cursor rules alone, whatever is done at an end-of-file and by an unsubscribe, the same holds of a client that does not hang up in a way that leaves its record connected, as long as the topic's SF count is not zero, whatever flags are misread |
| Delivery.RightFlagsHoldCount | server.cpp:375-382 | under any rules, while no unsubscribe from the topic reads a wrong flag, an outstanding SF subscription keeps that count from zero |
| Delivery.ExactlyOnceAsWritten | server.cpp:242-262 | with the cursor rules as written, over every run in which that client does not hang up so and the topic's SF count is not zero from the subscribe on, whatever flags are misread, that guarantee holds, for any messages, if every reconnection since the subscribe comes after a live message, or finds nothing sent yet and a log that held one message at the subscribe (or none and nothing published since); and for distinct messages only if |
| Delivery.ExactWhenSessionsLive | server.cpp:109-109 | under the same rules the guarantee holds, for any messages, whenever every ended session saw a live message on the topic |
| Delivery.ExactlyOnceInCode | server.cpp:331-385 | the same two directions for the code exactly as written, over every run in which that client does not hang up and that topic's SF count is not zero from the subscribe on, whatever flags are misread, whoever else hangs up, whatever descriptors are used again and whatever happens on other topics |
| Delivery.ExactWhenSessionsLiveInCode | server.cpp:107-109 | over those runs the code exactly as written delivers exactly, for any messages, whenever every ended session saw a live one |
| Delivery.SeatInRun | server.cpp:85-116 | under any rules, as long as the topic's SF count is not zero, whatever flags are misread, what follows an SF subscribe is, for that client and topic, a run of a single seat |
| Delivery.CodeAsWritten | server.cpp:428-435 | when no registered client hangs up and no unsubscribe on any topic reads a wrong flag, the code as written and the code with only its cursor rules give the same run |
| Delivery.PlainOverRuns | server.cpp:107-115 | under any rules and so for the code as written, a subscriber without SF that does not hang up as written has been sent, over all its connections, exactly what was published while it was connected |
| Delivery.MultiplicityOverRuns | server.cpp:107-115 | under any rules and so for the code as written, every publish sends a connected client that has not hung up as written one copy per outstanding subscription, and a disconnected one none |
| Delivery.LogOverRuns | server.cpp:100-106 | under any rules and so for the code as written, if no unsubscribe from the topic reads a wrong flag, `sf_count` is the number of SF entries and the log is exactly what was published since that number last rose from zero |
| Delivery.SplitRun | server.cpp:552-588 | under any rules, the rest of a run takes the topic, and what a client that stays up has been sent, from where they were to where they are as a run of the one-topic broker, and publishes the same messages |
| Delivery.TopicInRun | server.cpp:552-588 | under any rules, at every moment of a run the topic and who is connected are those of the one-topic broker's run |
| EndToEnd.ShownExactlyOnce | subscriber.cpp:338-364 | with the intended rules, however the kernel cuts up the bytes, what a client's processes have shown on a topic over all sessions is what it had before followed by everything due since it subscribed, once and in order |
| EndToEnd.ShownInOrder | subscriber.cpp:338-364 | the same at any moment, when part of the last session's bytes has come through: what has been shown is a first part of that, so nothing is shown twice, out of order or after a gap |
| EndToEnd.ShownInOrderByCode | subscriber.cpp:338-364 | that too for the code exactly as written, to a client that does not hang up, if every reconnection fits and the topic's SF count is not zero from the subscribe on |
| EndToEnd.ConnectionEndToEnd | subscriber.cpp:246-289 | for every run and every chunking of whatever has come through of a connection's bytes, the messages shown are the first of those the broker wrote to that connection, in order, and all of them once the bytes are consumed |
| EndToEnd.ShownIsDelivered | server.cpp:221-231 | the same over all the sessions of a client, topic by topic |
| EndToEnd.ShownByCode | subscriber.cpp:338-364 | for the code exactly as written, what the processes of a client that does not hang up have shown is exact if every reconnection fits and the topic's SF count is not zero from the subscribe on |
| EndToEnd.StoppedByPackets | subscriber.cpp:276-289 | over every run, once it has read what is on its connection a process still runs exactly if it was sent nothing but messages, and its socket is open exactly if it was sent no CONN_END |
| EndToEnd.ExitStopsClients | server.cpp:459-472 | over every run, when the server exits the process behind each open connection of a connected record has, once it has read it out, shown all that was sent there, stopped and closed its socket |
| EndToEnd.RefusalStopsClient | server.cpp:505-515 | over every run, a process that asks for an id in use on a connection of its own is sent exactly a CONN_NO on a closed connection, and stops having shown nothing |
| Service.ServiceExactlyOnce | server.cpp:552-588 | for the inputs of the main loop with the intended rules: what a client's processes have shown on a topic, once they have read what is on their sockets, is what it had been sent before its subscribe followed by the datagrams on the topic that came in after it, all of them while it is connected |
| Service.ServiceByCode | server.cpp:552-588 | for the inputs of the main loop with the code exactly as written, the same of a client that does not hang up, if every reconnection fits and the topic's SF count is not zero from the subscribe on |
| Service.PublishedAfter | server.cpp:122-143 | what a run of the main loop publishes after some of its inputs is the datagrams among the others, up to the exit command |
| Receiver.ChunkIndependence | subscriber.cpp:338-364 | on any part of a stream of frames, of which only the last may stop the client and only one that does may be a bare header, cut into chunks in any way, the incremental parser has handled exactly the frames a whole-stream parser finds and holds the bytes of the unfinished one |
| Receiver.ServerStreamReadable | subscriber.cpp:276-289 | what a server writes to a connection is such a stream |
| Receiver.BufferBounds | subscriber.cpp:352-354 | 20 + bytes_received <= recv_msg_len <= 1628 <= BUFSIZ in every reachable state |
| Receiver.Progress | subscriber.cpp:340-358 | on such a stream, while bytes remain the client is running, what its next `recv` waits for is there, and the call consumes at least one byte; so it never reads after being told to stop |
| Receiver.HeadersFit | subscriber.cpp:343-349 | every header met on a server's stream announces a frame that fits the buffer and can be displayed |
| Receiver.GrammarStopsLast | subscriber.cpp:276-289 | on a connection that follows the session grammar only the last packet can stop the client |
| Layout.RefusalLayout | server.cpp:199-209 | the 20 bytes of a refusal, as numbers |
| Layout.EndLayout | server.cpp:459-466 | the 20 bytes that end a connection, as numbers |
| Layout.MessageLayout | server.cpp:122-143 | for every sender and datagram of 51 to 1600 bytes, the bytes of its message field by field: id, flags, length, address, port, padding, datagram |
| Layout.SubscribeLayout | subscriber.cpp:145-156 | for every id and topic the bytes of a subscribe: padded id, flags 4 if the SF argument starts with the digit 0 and 8 if not, length, topic |
| Layout.UnsubscribeLayout | subscriber.cpp:166-177 | the same for an unsubscribe, the uninitialised tail of its id field included |
| Layout.HeaderOnlyLayout | subscriber.cpp:90-96 | the same for the first and the last request of a client |
| Layout.RequestReads | server.cpp:394-417 | for every id field, flags and payload of up to 50 bytes, what the server makes of those bytes, unknown flags included |
| Protocol.ParseOfStream | readme.txt:69-83 | parsing inverts sending: every frame comes back, in order, and an unfinished tail is left over |
| Protocol.ReplayIsLive | server.cpp:221-231 | for every datagram of 51 to 1600 bytes the four sends of a replay and the three of a live delivery are the same bytes, msg_len included |
| Protocol.DecodeOfFrame | subscriber.cpp:246-254 | the client's split of a frame gives back the source and the datagram |
| Protocol.TopicKeysAgree | server.cpp:339-342 | a name of up to 50 bytes has the same key in a request and in a datagram, where it fills all 50 bytes or is followed by a NUL and anything else, and the key is the name, so different names have different keys |
| Protocol.FrameBytes | common.h:49-53 | the header of a frame reads back as its flags and its total length |
| Protocol.HeaderBytes | common.h:49-53 | the three header fields read back from the 20 bytes |
| Protocol.RequestKeyEnds | server.cpp:339-341 | the key of a request's payload ends at its first NUL |
| Projection.RunFor | server.cpp:552-588 | under any rules, projecting a run of the whole broker to a topic gives the run of the one-topic broker on connection events and that topic's events: the same topic, the same clients connected, and the same sent to a client that stays up |
| Projection.RunOn | server.cpp:552-588 | with end-of-file as intended, it gives the very run of the one-topic broker, every client's deliveries included |
| Projection.StepFor | server.cpp:552-588 | under any rules, one event of the broker, seen from a topic, is one step of the one-topic broker, including what a record that is up has been sent |
| Projection.StepOn | server.cpp:552-588 | with every record up, that holds of all of them at once |
| ReplayOrder.OrderIsIrrelevant | server.cpp:244-261 | under any rules and so for the code as written, runs that differ only in the orders in which replays visit the unordered map end with the same records, topics and connections, and with the same messages of each topic and the same other packets on every connection, hung-up clients and descriptors used again included; so they agree on every topic |
| ReplayOrder.ReplayWire | server.cpp:242-262 | under any rules, on whatever connection: a replay over an order that visits no topic twice writes, on each topic visited, the log after the cursor to the open connection with the client's descriptor and nothing to any other |
| Projection.ReplayOn | server.cpp:242-262 | a replay does the same for a topic at whatever place the order puts it: it sends the client the log after its cursor and disturbs nobody else |
| Projection.DeliveredAfterFanOut | server.cpp:107-115 | the fan-out of a publish reaches each client that is up once per entry while it is on line, and no other topic |
| Projection.DeliveredAfterSend | server.cpp:111-113 | of the records that are up, what is written to a connected one's descriptor reaches that one and no other |
| AnyRules.RunSound | server.cpp:552-588 | under any rules, over every run until `exit`: distinct ids, pairwise distinct descriptors of connected records, disconnected ones at -1, distinct open descriptors, nothing written to an open connection that no record holds, entries that refer to records |
| AnyRules.RunUp | server.cpp:428-435 | under any rules, a record that has not hung up as written has only its last session open, on its descriptor, and only while connected, whoever else hangs up and whatever descriptors are used again |
| AnyRules.StepKeepsTopics | server.cpp:331-385 | under any rules, a topic's log holds messages of that topic and its entries refer to records |
| Table.StepKeepsTable | server.cpp:552-588 | with end-of-file as intended, every event keeps the table: distinct ids, distinct open descriptors, connected records on open sockets they own, disconnected ones at -1, entries that refer to records |
| Table.RunKeepsTable | server.cpp:552-588 | so does every run until `exit` |
| Table.FindFdInvertsTable | server.cpp:62-70 | on open sockets `find_client_by_fd` finds exactly the owner, and nobody for an unregistered connection |
| Table.ConnectedFdsDistinct | server.cpp:493-527 | connected records have open, pairwise distinct descriptors |
| AnyRules.LookupsAgree | server.cpp:245-248 | the search by id string (replay) and by pointer (unsubscribe) select the same entry |
| AnyRules.ConnReqChangesNothing | server.cpp:284-302 | a header-only CONN_REQ from a registered client changes nothing |
| AnyRules.RecordsPersist | server.cpp:530-541 | records are never removed or re-identified, under any rules |
| AnyRules.OldSessionsAreSilent | server.cpp:517-524 | under any rules, once a session of a record that has not hung up as written is over it is closed, and whatever happens in the rest of the run nothing is added to what it was sent |
| AnyRules.SessionGrammarOverRuns | server.cpp:199-209 | under any rules, over any run each connection's packets are one CONN_NO, or messages optionally ended by one CONN_END |
| Table.ExitEndsOwned | server.cpp:459-472 | with end-of-file as intended, over every run, `exit` sends one CONN_END to every open connection that has a client, closes it, and touches no other |
| AnyRules.NothingAfterClose | server.cpp:312-319 | under any rules, whatever the event, what was written stays written and a closed connection is not written to |
| AnyRules.NothingAfterCloseOverRuns | server.cpp:552-588 | so over any stretch of a run: what was written at its start is the first part of what is written at its end, and what was closed is closed and unchanged |
| Table.EofAsWrittenBreaksTable | server.cpp:431-435 | as written, an end-of-file on a registered socket always leaves a connected record without a socket |
| Table.TableAsWritten | server.cpp:431-435 | as written, the table is in order all along a run if and only if no registered client hangs up |
| Table.RunWithoutHangups | server.cpp:431-435 | without such hang-ups the written and the repaired rule give the same run |
| Epoch.StepKeepsEpoch | server.cpp:331-385 | with the flag read before the erase, every event keeps `sf_count` equal to the number of SF entries and the log empty while it is zero |
| Epoch.LogIsTheEpoch | server.cpp:371-382 | the log of the one-topic broker is what was published since the count last rose from zero |
| Epoch.EpochStartIsLastZero | server.cpp:380-382 | the epoch starts at the last moment with no SF entry, and there is at least one ever after |
| Epoch.UnsubscribeAsWritten | server.cpp:375-379 | as written, an unsubscribe keeps the count right if and only if the next entry (or what lies past the end) has the erased entry's flag |
| Counts.CountsOverRuns | server.cpp:331-385 | over every run of the whole broker, under any rules and so for the code exactly as written: a topic's count is its number of SF entries and its log is empty while that is zero, all along the run, if and only if every unsubscribe from that topic reads the flag of the entry it erases |
| Counts.StepCounts | server.cpp:331-385 | an event leaves a topic's count and log right if and only if it reads no wrong flag |
| Failures.FirstMessageLost | server.cpp:334-334 | a run: subscribe with SF to a new topic, leave, one publish, come back; it is legal, the client is connected again, and has been sent the message exactly if a new entry's cursor starts at the end of the log |
| Failures.LossIsCovered | server.cpp:254-260 | that run of the code as written meets every assumption of `Delivery.ExactlyOnceInCode`, delivery on it is not exact, and its return does not fit |
| Failures.HangupLosesClient | server.cpp:431-435 | a run: the same with an end-of-file; as written the client is refused when it comes back, has not been sent the message, and its cursor says that nothing is missing |
| Failures.RequestSwallowed | server.cpp:284-302 | a run: the client comes back on a connection that is given its old descriptor; as written its request changes nothing, nothing is replayed on the new connection, and nothing counts as missing |
| Hangups.HungUpForGood | server.cpp:431-435 | over every run, once a client hangs up as written its record stays as it is, every session closed, and it is sent nothing more on any topic, until a request to leave comes in on its old descriptor |
| Hangups.ReturnIsRefused | server.cpp:505-515 | over every such run, every request to connect under its id on a connection with a descriptor of its own is refused |
| Hangups.ReturnIsSwallowed | server.cpp:284-302 | over every such run, a request to connect on a connection that was given its old descriptor changes nothing |
| Failures.HangupSurvived | server.cpp:312-319 | on that run, with end-of-file handled as a disconnection, the client is back and has been sent the message |
| Failures.ClearLosesMessages | server.cpp:375-382 | a run: a plain client unsubscribes while an SF client is away and a message is stored for it; as written the SF client's flag is read, the count drops to zero with an SF entry left, the log is cleared, what is published next is not stored, and the client is sent neither message |
| Failures.CountDrifts | server.cpp:375-382 | a run: an SF client unsubscribes before a plain one; as written the count stays at one with no SF entry left and the next publish is logged for nobody |
| Epoch.EntriesOverRun | server.cpp:348-376 | a client has as many entries as subscribes less unsubscribes, floored at zero at each step |
| Epoch.FanOutMultiplicity | server.cpp:107-115 | a publish sends a client that many copies while it is on line, and none otherwise |
| Epoch.PlainDelivery | server.cpp:107-115 | in the one-topic broker a client without SF is sent exactly what is published while it is on line |
| Seat.SeatOverRun | server.cpp:85-116 | under any rules, as long as the count is not zero, an SF client's share of a run of the one-topic broker is a run of a single seat: others' subscribes, unsubscribes and returns do not disturb it |
| Seat.IntendedRulesExact | server.cpp:242-262 | with the intended cursor rules a seat is sent exactly what is due, and the log after the cursor is what is pending |
| Seat.WrittenRulesExact | server.cpp:254-260 | with the written cursor rules that holds, for any messages, if every return fits, and for distinct messages only if |
| Seat.FitSessionsExact | server.cpp:254-260 | the sufficient direction, for any messages, together with where the cursor then stands |
| Seat.UnfitSessionsBroken | server.cpp:254-260 | after a return that does not fit some message is out of place for good, or the first one is skipped |
| Seat.LiveSessionsFit | server.cpp:109-109 | if every ended session saw a live message, every return fits |
| Cursor.StoredEndExact | server.cpp:109-109 | storing `size() - 1` into an `int` is exact below 2^31, the empty log included |
| Cursor.GuardExact | server.cpp:255-256 | the wrapping guard opens exactly when something is missing or the cursor lies past the end, and the loop starts at cursor + 1 |
| Commands.CommandsRoundTrip | server.cpp:394-451 | the server reads back exactly the commands a client sent, in order, whatever garbage an unsubscribe's id field ends in |
| Commands.ReadsAreCommands | server.cpp:428-451 | whatever complete requests the server reads, as long as their bytes are the first of what the client sent, they mean the client's first commands in order, and all of them once every byte has been read |
| Inputs.RequestIsTaken | server.cpp:579-584 | while the server runs, every request on an open socket, whatever its id field, flags and payload of up to 50 bytes (none for a CONN_REQ), is read and handled as the command those bytes ask for |
| Inputs.CommandIsTaken | server.cpp:428-450 | in particular whatever request a client sends is handled as what it means |
| Inputs.ConnectionIsTaken | server.cpp:570-572 | every connection on a descriptor that is not open is accepted |
| Inputs.EofIsTaken | server.cpp:431-435 | every end-of-file on an open socket is handled |
| Inputs.DatagramIsTaken | server.cpp:559-577 | so is every datagram, and the exit command |
| Inputs.ServerHearsClient | server.cpp:481-499 | over any stretch of the main loop's inputs in which a descriptor belongs to one client, the commands received on it are that client's, in order |
| Inputs.PublishedIsUdp | server.cpp:122-143 | what a run of the main loop publishes on a topic is every datagram that comes in on it before the exit command |
| Commands.DecodeOfRequest | subscriber.cpp:145-177 | the same for one request: its length field is its length, and flags, id and topic decode to its meaning |
| Server.MainLoop | server.cpp:552-588 | whatever arrives, the server's state and the bytes on every socket are those of the run of exactly the events the inputs stand for, in order, and that run is legal; only the order in which a replay visits the map is the server's choice |
| Server.Broker.Dispatch | server.cpp:558-586 | one turn of the loop is the enabled step of the event its input stands for |
| Server.Broker.SendToClients | server.cpp:85-116 | the new state is the publish of the datagram in the buffer |
| Server.Broker.FanOutLoop | server.cpp:107-115 | the loop moves exactly the cursors of the subscribers on line and writes the datagram's bytes to their sockets in order |
| Server.Broker.HandleIncomingMessage | server.cpp:122-143 | receiving a datagram is the `Datagram` step |
| Server.Broker.SendQueuedMessage | server.cpp:221-231 | the four sends put exactly one MSG_NEW packet on the socket |
| Server.Broker.SendLogAfter | server.cpp:255-259 | the guarded machine-integer loop sends exactly the messages after the cursor |
| Server.Broker.SendMissingMessages | server.cpp:242-262 | the loop over the map is a replay in some order that visits every topic once |
| Server.Broker.HandleNewConnection | server.cpp:493-544 | a first request registers, reconnects or refuses, as the state machine says, and records are only added |
| Server.Broker.HandleConnectionRequest | server.cpp:284-302 | a CONN_REQ from a registered client does what the state machine says, its search for another record with the id included |
| Server.Broker.HandleConnectionClose | server.cpp:312-319 | the record goes off line at -1 and its socket is closed |
| Server.Broker.HandleEof | server.cpp:431-435 | end-of-file is the `Hangup` step, under either rule |
| Server.Broker.RefuseConnection | server.cpp:199-209 | CONN_NO, then close |
| Server.Broker.HandleNewSubscription | server.cpp:331-351 | one entry is added to the topic named by the payload, with the SF flag and the cursor of the rule in force |
| Server.Broker.RemoveSub | server.cpp:371-383 | the client's first entry goes, the count drops by the flag read, and the log is cleared at zero |
| Server.Broker.HandleUnsubscription | server.cpp:360-385 | that change, and nothing when the topic does not exist |
| Server.Broker.HandleCompleteMessage | server.cpp:394-417 | the handler chosen by the action does what the state machine does for the decoded command |
| Server.Broker.ReadFromClient | server.cpp:428-451 | header and payload go through the client's buffer and are handled as the command they encode |
| Server.Broker.Cleanup | server.cpp:459-472 | CONN_END to every connected client: the `Exit` step |
| Server.Broker.FindClientByFd | server.cpp:62-70 | the first record on the descriptor |
| Server.Broker.FindClientTwin | server.cpp:175-188 | the first other record with the client's id |
| Process.SubscriberProcess.HandleServerInput | subscriber.cpp:338-364 | one call on the process's buffer is one step of the parser |
| Process.SubscriberProcess.ReceiveAll | subscriber.cpp:383-423 | fed with a server's stream in any chunks the process stays in its buffer and has displayed exactly the messages in it |
| Process.SubscriberProcess.HandleResponse | subscriber.cpp:276-294 | a message is displayed, CONN_NO and CONN_END stop the client, and CONN_END closes its socket |
| Process.SubscriberProcess.ParseServerMessage | subscriber.cpp:246-269 | the fields read from the buffer are those of the frame |
| Process.SubscriberProcess.SendSubscribeRequest | subscriber.cpp:145-156 | the two sends are the bytes of the request, and all that has been sent is the stream of the commands issued |
| Process.SubscriberProcess.SendUnsubscribeRequest | subscriber.cpp:166-177 | the same, with an id field whose tail is uninitialised |
| Process.SubscriberProcess.SendConnectionRequest | subscriber.cpp:90-96 | the bytes of a CONN_REQ |
| Process.SubscriberProcess.SendDisconnectMessage | subscriber.cpp:371-381 | the bytes of a CONN_END, after which the client stops |

## Left out

- Socket, epoll, bind and option set-up, keyboard reading and logging: replaced by events, descriptors and the bytes on each socket.
- The numeric and string formatting of a displayed payload (`disp_int`, `disp_short_real`, `disp_float`, `disp_string`): small finite claims, or C `float` rounding.
- `split_message` (subscriber.cpp:296-329): never called.
- Splitting a typed line into words (`handle_user_input`): commands start as parsed words.
- Freeing memory in `cleanup`: only its CONN_END sends and closes are modelled.
- Unused fields and flags (`subcount`, `cls`, `conns`, MSG_CONT, HAS_MORE_DATA) and the peer addresses that are only printed.
- Oversized topics or ids, datagrams under 51 bytes, CONN_REQ with a payload, short reads that are not end-of-file: excluded by precondition.
- The payload of a first request that is not a CONN_REQ: the server ignores the header and would read the payload as the next header; the client never sends one.
- The UDP client, `test.py`, the payload files, the Makefile and `debug.h`: test harness and tooling.
- Server.MainLoop: inputs that the kernel cannot report in the current state are passed over, and their number is bounded so that no log reaches 2^31 messages.
- Seat.WrittenRulesExact: the necessary direction is stated for pairwise distinct messages, because a message skipped and an equal one repeated cannot be told apart by value.
- Delivery.ExactlyOnceAsWritten: likewise; and it does not cover runs in which a misread flag brings the topic's SF count to zero while the client is subscribed, since the log is then cleared and publishes are not stored: `Failures.ClearLosesMessages` is one.
- Delivery.ExactlyOnceInCode: likewise, both; and of a client that itself hangs up it says nothing, since its record then stands for no socket: `Hangups.HungUpForGood` says what it gets.
- Inputs.ServerHearsClient: every input is one the kernel can hand over, and the stretch is named by its ends.
