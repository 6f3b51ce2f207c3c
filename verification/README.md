# Verification of the RPC stack

A Dafny 4.11 model of the repository's RPC stack, from the timer queue to the correlation of calls, with proofs.
`dafny verify dfyconfig.toml` checks all of it.

The stack is modelled bottom-up:

| layer | files |
|---|---|
| octets, varints, fields, `RpcMetaMessage` | `Bytes.dfy`, `Wire.dfy`, `RpcMeta.dfy` (meaning), `RpcMetaMessage.dfy` (the class) |
| checksum, framing | `Adler.dfy`, `Codec.dfy` (reference), `ProtobufCodecLite.dfy` (the class), `FrameOctets.dfy` (the octets of each message) |
| buffer | `Buffer.dfy` |
| event loop, connection output | `EventLoop.dfy`, `Connection.dfy` (specification), `TcpConnection.dfy` (the classes), `SendOrder.dfy` (both together) |
| timers | `Timers.dfy` (specification), `TimerSet.dfy`, `TimerRuns.dfy` (invariant), `TimerPromises.dfy`, `TimerRequests.dfy` and `TimerCancel.dfy` (results), `TimerQueue.dfy` (the class) |
| calls | `RpcChannel.dfy` (the class), `RpcProtocol.dfy` (all threads and both ends), `RpcPromises.dfy` (results) |
| the whole | `EndToEnd.dfy`: calls over two byte streams refine the message protocol |

Code that changes objects in place is a class whose methods are proved equal to specification functions and say in terms
of their own fields, and of plain numbers, what they have done; what holds of all runs is proved about a state machine
whose steps are those functions.  A run is any sequence of labels, and a label that is not enabled does nothing, so a
statement about all label sequences is a statement about all interleavings of threads, all results of `write`, all chunk
sizes and all orders in which services answer.  Atomic steps are the locked regions, the system calls and the accesses to
single flags.

What comes from outside is a parameter or a label: results of system calls, the clock, service implementations (a
predicate on requests that parse and a relation between requests and the responses a method may give), and the free
addresses the allocator hands out.  User messages are their serialised octets.  The wire format follows the Protocol
Buffers encoding specification ("Base 128 Varints", "Message Structure", "Last One Wins"), the checksum section 8.2 of
RFC 1950.

## Assumptions

- Every message given to a connection is within the receiver's limit and its strings are within the runtime's; the
  sender checks neither.  `EndToEnd.LimitIsExact` and `Codec.FrameFate` say what happens otherwise.
- The calling channel is made by the default constructor; the other one leaves the id counter unset
  (rpc/RpcChannel.cc:12-16).  Fewer than 2^63 calls are made.
- Callers pass distinct response objects and closures, so an object is known by the id of its call.
- A service runs the closure it is given at most once.
- `write` returns between 0 and the number of bytes offered; `Connections.SendThrows` is the case of a failed direct write.
- The clock never goes back and is positive; times are integer microseconds.
- A timer handle passed to cancellation is live, and the erased iterator's timer is read before the erasure
  (simplifyMuduo/src/TimerQueue.cc:39-42 does it after).

## Findings

Where the code does less than its names or comments suggest, the exact condition is proved, and an input that meets it is
given.

- The receive loop reports a bad length late, exactly while fewer bytes than a shortest frame are buffered
  (`Codec.GuardDelaysOnlyBadLengths`; four zero octets: `Codec.ZeroLengthIsNotReported`).
- A message over 64 MB is framed and sent like any other and makes the receiver fail (`EndToEnd.LimitIsExact`; an answer of
  64 MB: `EndToEnd.OversizeIsRefused`).
- Two altered bytes escape the checksum exactly if the changes are opposite and a multiple of 65521 positions apart
  (`Codec.TwoOctetDamage`; such a pair: `Codec.DamageThatPasses`).
- A closure whose call has no response object is neither run nor deleted once the response has arrived
  (`RpcPromises.LinearOwnership`; such a run: `RpcPromises.ClosureLeaks`).
- The comment at simplifyMuduo/src/TimerQueue.cc:114 says that only timers not cancelled are restarted; there is no such
  check.  Cancelling acts on timers in the set alone (`TimerPromises.CancelEffect`).  It silences exactly those and one-shots
  that have just fired; every other timer can still fire (`TimerCancel.CancelSilences`), and a repeating one in the batch is
  always restarted (`TimerCancel.RepeatingComesBack`; such a run: `TimerPromises.CancelInCallbackIsLost`).
- Timers whose add is still in the loop's queue are not freed by destruction, and they alone
  (`TimerPromises.DestructionFrees`; such a run: `TimerPromises.QueuedTimerLeaks`).
- A failed direct write makes `sendInLoop` ask for a substring at position -1, which throws, exactly if nothing was waiting
  (`Connections.SendThrows`; a new connection: `Connections.FailedWriteThrows`).
- A functor queued on the loop's own thread before `loop()` wakes nobody: the loop can block without running it, and that is
  the only way for a wakeup to be lost (`EventLoops.NoLostWakeup`, `EventLoops.LateOnlyFromStart`; such a run:
  `EventLoops.EarlyPushIsLost`).

## Model

| member | source | states |
|---|---|---|
| `EndToEnd.Refines` | rpc/RpcChannel.cc:32-160 | however frames are written, cut into chunks and delivered, no codec error ever occurs and the two channels behave as the message machine does; all runs, provided every message fits the length limit |
| `EndToEnd.EndToEndCorrelation` | rpc/RpcChannel.cc:59-160 | over byte streams in every interleaving: when the closure of call k has run, it ran once, and the response object holds exactly the response given in the step of the run in which a service answered the job made of call k's own request, or is untouched, and that exactly when the server rejects the request |
| `EndToEnd.EveryCallCanFinish` | rpc/RpcChannel.cc:59-160 | no call gets stuck in a buffer or elsewhere: from every reachable state of the living channel, going on without new calls brings every call to its end, its answer received and its closure, if it has a response object, run once |
| `EndToEnd.EveryStepIsProgress` | rpc/RpcChannel.cc:32-160 | every step that changes anything, except a new call or destruction, strictly decreases what is left to do, in calls or in bytes to move: so every schedule without new calls ends |
| `EndToEnd.NeverStuck` | rpc/RpcChannel.cc:32-160 | as long as anything is left to do some step changes something; in particular every waiting byte can move, since the connection watches for writability whenever bytes wait |
| `EndToEnd.PipeGoesOn` | simplifyMuduo/src/TcpConnection.cc:47-119 | in a direction that is not drained a frame can be sent, a byte written or delivered, or a message cut out |
| `EndToEnd.DrainedMeansDone` | rpc/RpcChannel.cc:59-92 | once no thread, job or closure is active and no byte waits anywhere, every call has been answered, its closure, if it has a response object, run once, its response object deleted once |
| `EndToEnd.RunSim` | rpc/RpcChannel.cc:32-160 | every run of the byte machine keeps the link between bytes and messages and is mirrored step for step by a run of the message machine |
| `EndToEnd.LimitIsExact` | rpc/ProtobufCodecLite.cc:42-74 | a complete message is delivered if it is within the limit and makes the receiver fail with a length error if it is not |
| `EndToEnd.OversizeIsRefused` | rpc/ProtobufCodecLite.cc:24-52 | a concrete answer of 64 MB, printable and complete, that the receiver refuses |
| `EndToEnd.ErrorAnswerFits` | rpc/RpcChannel.cc:138-145 | an answer that only reports an error is always within the receiver's limit |
| `EndToEnd.TurnKeeps` | rpc/ProtobufCodecLite.cc:39-74 | a turn of the receive loop on any part of a stream of sendable messages never fails and cuts out exactly the message that is due |
| `EndToEnd.SendNowKeeps` | simplifyMuduo/src/TcpConnection.cc:95-119 | a direct write, however partial, adds exactly one frame to the stream |
| `EndToEnd.ArriveKeeps` | simplifyMuduo/src/TcpConnection.cc:16-30 | delivery in chunks of any size keeps the stream |
| `RpcPromises.Correlation` | rpc/RpcChannel.cc:59-160 | a finished call's response object holds exactly what the service produced for the job of that very call, or is untouched, and that exactly when the request is rejected; messages may overtake each other freely |
| `RpcPromises.HeldComesFromItsJob` | rpc/RpcChannel.cc:107-160 | the same in terms of the run: a filled response object holds the response given in one of its steps, which answered the job made of that call's own request |
| `RpcPromises.AnsweredOnce` | rpc/RpcChannel.cc:152-160 | there is only one such step: no call is answered twice |
| `RpcPromises.OnePlace` | rpc/RpcChannel.cc:46-92 | a sent call is in exactly one place, before and after destruction: request in flight, at a service, response in flight, or received; its response exists once |
| `RpcPromises.NothingElseInFlight` | rpc/RpcChannel.cc:32-160 | every request, job and response in flight is a sent call's own, unaltered, and there once; field by field, a response is either the rejection with the code (2 to 4) its request deserves and nothing else, or what the service produced for that very call |
| `RpcPromises.OutstandingExact` | rpc/RpcChannel.cc:46-78 | the table holds exactly the calls entered and not yet answered, with their own objects; every genuine response finds its entry |
| `RpcPromises.StrayChangesNothing` | rpc/RpcChannel.cc:66-91 | a response with an unknown id changes nothing but the network, in any state |
| `RpcPromises.LinearOwnership` | rpc/RpcChannel.cc:21-91 | a closure is run once or deleted once, never both, a response deleted at most once; after destruction all are accounted for except, exactly, closures of answered calls without a response object |
| `RpcPromises.ClosureLeaks` | rpc/RpcChannel.cc:80-91 | a concrete run of six steps in which a closure is neither run nor deleted |
| `RpcPromises.QuietMeansDone` | rpc/RpcChannel.cc:59-160 | when nothing is in flight or running, every call has been answered; its response object, if it has one, was filled or left and deleted once, and its closure, if it has both, has run once |
| `RpcPromises.StepShrinksWork` | rpc/RpcChannel.cc:32-160 | every enabled step, except a new call or destruction, strictly decreases what remains to be done |
| `RpcPromises.NeverStuck` | rpc/RpcChannel.cc:32-160 | with services that always answer, some such step is enabled as long as anything remains to be done |
| `RpcPromises.CallFromClosure` | rpc/RpcChannel.cc:32-52 | a closure that calls again gets a fresh id and its own entry and sends its request, while it is still running |
| `RpcProtocol.StepKeepsInv` | rpc/RpcChannel.cc:21-160 | every step of every thread keeps the whole invariant: ids, table, messages in flight, answers, held responses, ownership |
| `RpcProtocol.RunKeepsInv` | rpc/RpcChannel.cc:21-160 | so does every run |
| `RpcProtocol.AllocateKeeps` | rpc/RpcChannel.cc:40-41 | taking an id keeps the invariant |
| `RpcProtocol.InsertKeeps` | rpc/RpcChannel.cc:46-50 | making the entry keeps the invariant |
| `RpcProtocol.SendKeeps` | rpc/RpcChannel.cc:51 | sending keeps the invariant |
| `RpcProtocol.ServerReceiveKeeps` | rpc/RpcChannel.cc:94-146 | dispatch of a request keeps the invariant |
| `RpcProtocol.CompleteKeeps` | rpc/RpcChannel.cc:152-160 | a service that answers, in any order, keeps the invariant |
| `RpcProtocol.ClientReceiveKeeps` | rpc/RpcChannel.cc:64-92 | receiving a response keeps the invariant |
| `RpcProtocol.FinishDoneKeeps` | rpc/RpcChannel.cc:82-91 | the end of a closure deletes its response and keeps the invariant |
| `RpcProtocol.DestroyKeeps` | rpc/RpcChannel.cc:21-30 | destruction with calls outstanding keeps the invariant |
| `RpcProtocol.ResponseInFlight` | rpc/RpcChannel.cc:66-78 | a response in flight finds the entry of the call it answers, and is that call's proper answer |
| `RpcChannels.Verdict` | rpc/RpcChannel.cc:96-137 | which error code, as a number, a request gets: 0 exactly when its service is registered, has the method, and the request parses; 2 without the service, 3 without the method, 4 if the request does not parse |
| `RpcChannels.StrayResponse` | rpc/RpcChannel.cc:66-91 | a response changes nothing exactly when its id is unknown, and a second response with the same id is always such a one |
| `RpcChannels.RpcChannel.constructor` | rpc/RpcChannel.cc:3-10 | a new channel has no outstanding calls and has given no id |
| `RpcChannels.RpcChannel.IncrementAndGet` | rpc/RpcChannel.h:83-86 | ids count up from 1 |
| `RpcChannels.RpcChannel.CallMethod` | rpc/RpcChannel.cc:32-52 | gives the call the next id, enters its objects under it, leaves other entries alone, and sends exactly the frame of a message of type 1 with that id and the call's three strings |
| `RpcChannels.RpcChannel.Look` | rpc/RpcChannel.cc:96-137 | the nested search ends in the error code the request deserves |
| `RpcChannels.RpcChannel.OnRpcMessage` | rpc/RpcChannel.cc:59-150 | field by field: a response erases its entry and finishes or drops that call, with its own objects; a request either starts a job with its own four fields or is answered by a message of type 2 with its id, its error code and nothing else; an ERROR message does nothing |
| `RpcChannels.RpcChannel.DoneCallback` | rpc/RpcChannel.cc:152-160 | sends the frame of a message of type 2 with the request's id, the response and nothing else |
| `RpcChannels.RpcChannel.Destruct` | rpc/RpcChannel.cc:21-30 | deletes each outstanding response and closure once and nothing else |
| `RpcChannels.BuildRequest` | rpc/RpcChannel.cc:38-44 | a message of type 1 with the id and the call's three strings, and nothing else |
| `RpcChannels.BuildAnswer` | rpc/RpcChannel.cc:155-158 | a message of type 2 with the id and the response, and nothing else |
| `RpcChannels.BuildErrorAnswer` | rpc/RpcChannel.cc:140-143 | a message of type 2 with the id and the error code, and nothing else |
| `FrameOctets.RequestOctets` | rpc/RpcChannel.cc:38-44 | a request on the wire, octet by octet |
| `FrameOctets.AnswerOctets` | rpc/RpcChannel.cc:155-158 | an answer on the wire, octet by octet |
| `FrameOctets.ErrorAnswerOctets` | rpc/RpcChannel.cc:140-143 | a rejection on the wire, octet by octet, its last octet the error code |
| `FrameOctets.TagOctets` | rpc/ProtobufCodecLite.h:18-25 | octets 4 to 7 of every frame spell RPC0 |
| `Codec.ChunkingIndependence` | rpc/ProtobufCodecLite.cc:39-74 | for any stream and any cut into chunks: same messages, same first error, same leftover bytes as decoding all at once |
| `Codec.DecodeAppend` | rpc/ProtobufCodecLite.cc:39-74 | decoding a longer stream is decoding its beginning and going on with what was left |
| `Codec.NextFrameStable` | rpc/ProtobufCodecLite.cc:42-73 | a verdict on a frame does not depend on what arrives later |
| `Codec.DecodeLeavesNothing` | rpc/ProtobufCodecLite.cc:42-73 | the loop stops only on an error, whose frame stays unconsumed, or when it cannot go on |
| `Codec.GuardDelaysOnlyBadLengths` | rpc/ProtobufCodecLite.cc:42-52 | the loop guard delays nothing except, exactly, the report of a bad length while fewer bytes than a shortest frame are there |
| `Codec.ZeroLengthIsNotReported` | rpc/ProtobufCodecLite.cc:42-52 | a concrete stream, four zero octets, whose bad length is not reported |
| `Codec.DeliverShrinks` | rpc/ProtobufCodecLite.cc:61 | each delivery consumes at least a header and a shortest frame |
| `Codec.StreamRoundTrip` | rpc/ProtobufCodecLite.cc:24-74 | any list of sendable messages, framed back to back and followed by anything, is read back as that list and then whatever follows |
| `Codec.NextOnStream` | rpc/ProtobufCodecLite.cc:39-74 | holding any prefix of such a stream, the receiver waits or delivers the next message; it never fails |
| `Codec.FrameFate` | rpc/ProtobufCodecLite.cc:48-71 | the exact fate of any printable message: length error if too long, parse error if type or id is missing, delivered unchanged otherwise |
| `Codec.ForeignTag` | rpc/ProtobufCodecLite.cc:135-154 | a frame with a right checksum is refused as an unknown type exactly when it does not begin with the tag |
| `Codec.ParseSealed` | rpc/ProtobufCodecLite.cc:132-162 | what was sealed passes checksum and tag, and parses back unchanged exactly when type and id are both present |
| `Codec.OneOctetDamage` | rpc/ProtobufCodecLite.cc:122-159 | one altered byte of tag or payload is always reported as a checksum error |
| `Codec.TwoOctetDamage` | rpc/ProtobufCodecLite.cc:122-159 | two altered bytes are reported exactly unless the changes are opposite and a multiple of 65521 apart; always if closer than that |
| `Codec.DamageThatPasses` | rpc/ProtobufCodecLite.cc:122-130 | a concrete pair of altered bytes, 65521 apart, that the checksum does not see |
| `Codec.ChecksumFieldDamage` | rpc/ProtobufCodecLite.cc:122-159 | any damage to the checksum itself is always reported as a checksum error |
| `Codec.FrameLayout` | rpc/ProtobufCodecLite.h:18-25 | a frame octet by octet, up to 4 GB: size M+N+4, tag, payload, and at the end the two halves of the Adler-32 of tag and payload, each named by its formula |
| `Codec.ChecksumMeans` | rpc/ProtobufCodecLite.cc:122-130 | a frame passes exactly if its last four octets are the two halves of the Adler-32 of the rest, again by formula |
| `Codec.BadLengthFails` | rpc/ProtobufCodecLite.cc:42-52 | once a shortest frame is buffered, the turn fails with a length error exactly if the signed 32-bit size is below M+4 or above 64 MB |
| `Adler.TwoOctets` | rpc/ProtobufCodecLite.cc:117-120 | exactly which pairs of altered bytes leave the Adler-32 value unchanged |
| `Adler.OneOctet` | rpc/ProtobufCodecLite.cc:117-120 | a changed byte always changes the Adler-32 value |
| `Adler.Cancel` | rpc/ProtobufCodecLite.cc:117-120 | 65521 shares no factor with a difference of bytes |
| `Adler.IsAdler32` | rpc/ProtobufCodecLite.cc:117-120 | the low half of the value is 1 plus the sum of the octets, the high half the length plus the weighted sum, both modulo 65521: Adler-32 as defined, not only as compared with itself |
| `Adler.KnownValues` | rpc/ProtobufCodecLite.cc:117-120 | the values of no octets and of "abc" are the published ones |
| `ProtobufCodecs.ProtobufCodecLite.FillEmptyBuffer` | rpc/ProtobufCodecLite.cc:24-37 | the buffer then holds exactly size, tag, payload and checksum, the checksum octets being the Adler-32 of tag and payload by its formula; the prepend always has room |
| `ProtobufCodecs.ProtobufCodecLite.SerializeToBuffer` | rpc/ProtobufCodecLite.cc:81-107 | appends exactly the printed message, through reserved space of the computed size, and leaves room for the checksum |
| `ProtobufCodecs.ProtobufCodecLite.Send` | rpc/ProtobufCodecLite.cc:15-22 | what reaches the connection is the message's frame, whose last four octets are the Adler-32 of tag and payload |
| `ProtobufCodecs.ProtobufCodecLite.ParseInto` | rpc/ProtobufCodecLite.cc:132-162 | checksum, then tag, then payload: same result and same error as the reference, and a checksum error exactly if the last four octets are not the Adler-32 of the rest |
| `ProtobufCodecs.ProtobufCodecLite.Turn` | rpc/ProtobufCodecLite.cc:44-72 | one turn of the loop is one step of the reference decoder on the buffer's contents |
| `ProtobufCodecs.ProtobufCodecLite.OnMessage` | rpc/ProtobufCodecLite.cc:39-74 | the loop over the buffer delivers, leaves and reports exactly what the recursive decoder does |
| `RpcMeta.RoundTrip` | rpc/RpcMeta.pb.cc:298-471 | a printed message parses back field for field and unknown field for unknown field exactly when its required fields are present |
| `RpcMeta.MergeLaw` | rpc/RpcMeta.pb.cc:298-404 | reading the concatenation of two accepted strings is reading each and merging the second into the first |
| `RpcMeta.ApplyFields` | rpc/RpcMeta.pb.cc:562-594 | reading a message's own fields on top of another message merges it in: last value wins, unknown fields accumulate |
| `RpcMeta.Reprint` | rpc/RpcMeta.pb.cc:298-471 | any accepted byte string: parse, print, parse gives what the first parse gave |
| `RpcMeta.FieldTable` | rpc/RpcMeta.pb.cc:301-396 | which field number and wire type sets which field, with which range of enum values, the last value winning; any other field is kept behind the unknown ones |
| `RpcMeta.NumberOrder` | rpc/RpcMeta.pb.cc:406-471 | fields are printed in the order of their numbers, and the unknown ones after them as they are |
| `RpcMetaMessages.RpcMetaMessage.InternalParse` | rpc/RpcMeta.pb.cc:298-404 | the byte-cursor loop with its separate has-bits word computes the reference reading, and fails exactly when it does |
| `RpcMetaMessages.RpcMetaMessage.ParseField` | rpc/RpcMeta.pb.cc:301-396 | one turn of that loop reads one field, known or unknown |
| `RpcMetaMessages.RpcMetaMessage.ParseFromArray` | rpc/ProtobufCodecLite.cc:76-79 | clear, parse, insist on required fields |
| `RpcMetaMessages.RpcMetaMessage.InternalSerialize` | rpc/RpcMeta.pb.cc:406-471 | the bytes emitted are the fields present, in order, then the unknown ones |
| `RpcMetaMessages.RpcMetaMessage.ByteSizeLong` | rpc/RpcMeta.pb.cc:473-547 | the computed size is the number of bytes emitted, for all messages, initialised or not |
| `RpcMetaMessages.RpcMetaMessage.MergeFrom` | rpc/RpcMeta.pb.cc:562-594 | field by field copy under the other message's has-bits is the merge |
| `RpcMetaMessages.RpcMetaMessage.Clear` | rpc/RpcMeta.pb.cc:267-296 | every field back to its default, whatever bits were set |
| `RpcMetaMessages.RpcMetaMessage.IsInitialized` | rpc/RpcMeta.pb.cc:603-606 | true exactly when type and id are present |
| `RpcMetaMessages.RpcMetaMessage.SetType` | rpc/RpcMeta.pb.h:420-427 | sets the value and its has-bit, nothing else |
| `RpcMetaMessages.RpcMetaMessage.SetId` | rpc/RpcMeta.pb.h:449-455 | sets the value and its has-bit, nothing else |
| `RpcMetaMessages.RpcMetaMessage.SetService` | rpc/RpcMeta.pb.h:489-493 | sets the value and its has-bit, nothing else |
| `RpcMetaMessages.RpcMetaMessage.SetMethod` | rpc/RpcMeta.pb.h:558-562 | sets the value and its has-bit, nothing else |
| `RpcMetaMessages.RpcMetaMessage.SetRequest` | rpc/RpcMeta.pb.h:627-631 | sets the value and its has-bit, nothing else |
| `RpcMetaMessages.RpcMetaMessage.SetResponse` | rpc/RpcMeta.pb.h:696-700 | sets the value and its has-bit, nothing else |
| `RpcMetaMessages.RpcMetaMessage.SetError` | rpc/RpcMeta.pb.h:753-760 | sets the value and its has-bit, nothing else |
| `Wire.DecodeAfterEncode` | rpc/RpcMeta.pb.cc:301-396 | printed fields, known or unknown, are read back one for one whatever follows |
| `Wire.DecodeConcat` | rpc/RpcMeta.pb.cc:301-396 | the fields of a concatenation are the concatenation of the fields |
| `Wire.FieldRoundTrip` | rpc/RpcMeta.pb.cc:385-395 | a field of any of the four wire types is read back and its length known |
| `Wire.FieldsLength` | rpc/RpcMeta.pb.cc:490-547 | the size computation agrees with the length of the encoding |
| `Wire.Malformed` | rpc/RpcMeta.pb.cc:301-396 | field number 0, groups and unassigned wire types make the whole input malformed |
| `Wire.OverlongRefused` | rpc/RpcMeta.pb.cc:301-304 | a tag is refused exactly if none of its first five octets ends it, a number exactly if none of its first ten does |
| `Wire.VarintOctets` | rpc/RpcMeta.pb.cc:406-471 | a varint octet by octet: base-128 digits, least significant first, the top bit on all but the last |
| `Bytes.Be32RoundTrip` | simplifyMuduo/include/EndianCode.h:17-35 | a 32-bit number survives the trip through network byte order, whatever follows it |
| `Bytes.FromBe32Injective` | simplifyMuduo/include/EndianCode.h:32-35 | four octets are recovered from the number they denote, so different octets are different numbers |
| `Bytes.LeOctets` | rpc/RpcMeta.pb.cc:406-471 | octet i of a fixed-width number is its base-256 digit i, least significant first |
| `Bytes.Be32` | simplifyMuduo/include/EndianCode.h:17-20 | four octets, most significant first, whose weighted sum is the number |
| `Buffers.Buffer.Append` | simplifyMuduo/src/Buffer.cc:57-65 | contents grow by exactly the data; indices as computed |
| `Buffers.Buffer.Prepend` | simplifyMuduo/src/Buffer.cc:14-24 | contents get exactly the data in front if there is room, and do not change if not |
| `Buffers.Buffer.Retrieve` | simplifyMuduo/src/Buffer.cc:32-43 | contents lose exactly the first bytes; taking as much or more than there is resets the indices |
| `Buffers.Buffer.RetrieveAllAsString` | simplifyMuduo/src/Buffer.cc:45-55 | returns the contents and leaves none |
| `Buffers.Buffer.RetrieveAll` | simplifyMuduo/src/Buffer.cc:26-30 | no contents, indices at the origin |
| `Buffers.Buffer.RetrieveAsString` | simplifyMuduo/src/Buffer.cc:50-55 | returns exactly the first bytes and removes them |
| `Buffers.Buffer.Peek` | simplifyMuduo/src/Buffer.cc:9-12 | reads the contents at an offset without changing anything |
| `Buffers.Buffer.MakeSpace` | simplifyMuduo/src/Buffer.cc:72-88 | growing or compacting leaves the contents alone and makes the room |
| `Buffers.Buffer.Compact` | simplifyMuduo/src/Buffer.cc:83-86 | the overlapping forward copy preserves the contents |
| `Buffers.Buffer.EnsureWritableBytes` | simplifyMuduo/src/Buffer.cc:90-96 | room without change of contents |
| `Buffers.Buffer.ReadFd` | simplifyMuduo/src/Buffer.cc:98-138 | the two-segment read appends exactly what was read, in order |
| `Buffers.Buffer.HasWritten` | simplifyMuduo/include/Buffer.h:47 | bytes stored past the contents become contents |
| `Buffers.CompactionMovesDown` | simplifyMuduo/src/Buffer.cc:75-87 | the compacting branch is reached only with the reader index above 8, so the copy moves down |
| `Buffers.AppendBound` | simplifyMuduo/src/Buffer.cc:57-88 | after appending len bytes the array is at most the larger of its old size and readable + 2 len + 7 |
| `Buffers.CapacityBound` | simplifyMuduo/src/Buffer.cc:14-138 | over any run the array stays within a bound set by the largest contents and the largest append, however much passes through |
| `Buffers.LayoutStaysValid` | simplifyMuduo/include/Buffer.h:16-23 | every operation keeps reader <= writer <= size, and an empty buffer at its origin |
| `EventLoops.NoLostWakeup` | simplifyMuduo/src/EventLoop.cc:18-123 | a loop blocked in the poller with the eventfd at 0 and no producer between push and write has run everything ever queued, exactly unless it was started with functors in the queue for which nobody had woken it |
| `EventLoops.LateOnlyFromStart` | simplifyMuduo/src/EventLoop.cc:48-59 | that exception arises in one way only: the start of the loop with a non-empty queue and no wakeup given or on its way |
| `EventLoops.EarlyPushIsLost` | simplifyMuduo/src/EventLoop.cc:48-59 | a concrete run: a functor queued on the loop's own thread before loop() is not run, and the loop blocks |
| `EventLoops.TwoDrainsRunAll` | simplifyMuduo/src/EventLoop.cc:99-113 | in every schedule, whoever takes part, two completed drains run everything queued before them |
| `EventLoops.CatchesUp` | simplifyMuduo/src/EventLoop.cc:18-123 | from every reachable state with no producer in between, there is a schedule of the loop's own steps alone that runs everything queued |
| `EventLoops.NoLostQuit` | simplifyMuduo/src/EventLoop.cc:39-46 | a quit from another thread always gets the loop out of the poller |
| `EventLoops.WokenExactly` | simplifyMuduo/src/EventLoop.cc:79-123 | no wakeup out of nothing: in every run the eventfd counts exactly the wakeups given since it was last read, so a poll reports it exactly if there has been one |
| `EventLoops.BlocksOnceRead` | simplifyMuduo/src/EventLoop.cc:115-123 | after the eventfd has been read, and until somebody wakes the loop again, no poll reports it, whatever else happens |
| `EventLoops.RunInQueueOrder` | simplifyMuduo/src/EventLoop.cc:99-113 | functors start in the order queued, each once, none lost |
| `EventLoops.DrainRunsItsSnapshot` | simplifyMuduo/src/EventLoop.cc:99-113 | one drain runs the functors it took and no others, whatever is queued meanwhile |
| `EventLoops.StepKeepsInv` | simplifyMuduo/src/EventLoop.cc:18-123 | every step of every thread keeps the loop's invariant |
| `EventLoops.EventLoop.QueueFromThread` | simplifyMuduo/src/EventLoop.cc:48-59 | the functor is behind all others and the eventfd one higher, by two separate steps of the machine |
| `EventLoops.EventLoop.QueueFromLoop` | simplifyMuduo/src/EventLoop.cc:48-59 | the functor is behind all others; the eventfd is one higher exactly if a drain is under way |
| `EventLoops.EventLoop.DoPendingFunctors` | simplifyMuduo/src/EventLoop.cc:99-113 | runs exactly the functors found when it takes the queue, in order, those queued by other threads after the flag included; what functors and other threads queue while it runs waits, with a wakeup each |
| `EventLoops.EventLoop.HandleRead` | simplifyMuduo/src/EventLoop.cc:115-123 | the eventfd is at 0 afterwards; queue and flag are as they were |
| `EventLoops.EventLoop.QuitFromThread` | simplifyMuduo/src/EventLoop.cc:39-46 | the flag is set, then the eventfd is one higher |
| `EventLoops.EventLoop.Loop` | simplifyMuduo/src/EventLoop.cc:18-32 | one round runs everything queued before it; the loop ends early only when told to quit, or blocked with nothing left to run, or blocked on functors queued before it began; told to quit before it began it runs nothing; meanwhile handlers, functors and other threads may queue and quit, other threads also while it polls and between flag and swap |
| `EventLoops.EventLoop.QuitFromLoop` | simplifyMuduo/src/EventLoop.cc:39-46 | on the loop thread the flag alone is set; the eventfd stays |
| `EventLoops.EventLoop.RunFunctor` | simplifyMuduo/src/EventLoop.cc:108-111 | a functor is started once, off the front of the batch; what it and other threads queue meanwhile goes behind everything, and either may quit |
| `Connections.OutputConservation` | simplifyMuduo/src/TcpConnection.cc:47-119 | in every run accepted bytes followed by the output buffer are all messages given to sendInLoop by calls that did not throw, in order; until close the kernel watches for input, and for writability exactly while something waits; write-complete is queued only when all is accepted |
| `Connections.FailedWriteThrows` | simplifyMuduo/src/TcpConnection.cc:98-113 | a failed direct write throws, and the message is in neither the stream nor the buffer |
| `Connections.CompletionWhenDrained` | simplifyMuduo/src/TcpConnection.cc:47-119 | until close, a write-complete callback is queued exactly by a write that leaves nothing waiting |
| `Connections.WatchedUntilClosed` | simplifyMuduo/src/TcpConnection.cc:68-73 | in every run the poller has the descriptor, for input and if something waits for output, exactly if no close has happened; after the first close never again, whatever is sent |
| `Connections.CloseMeans` | simplifyMuduo/src/TcpConnection.cc:68-73 | closing marks the channel deleted, takes it out of the poller and asks for no event; buffer, stream and callbacks stay |
| `Connections.StepKeepsInv` | simplifyMuduo/src/TcpConnection.cc:47-119 | every operation keeps stream, kernel interest and completions right |
| `TcpConnections.TcpConnection.SendInLoop` | simplifyMuduo/src/TcpConnection.cc:95-119 | the socket gets what it takes of the message if nothing was waiting, the buffer gets the rest, interest is switched on and the callback queued as specified; a failed direct write ends in the out-of-range exception of substr and changes nothing |
| `TcpConnections.TcpConnection.HandleWrite` | simplifyMuduo/src/TcpConnection.cc:47-66 | exactly what the socket accepted moves from the front of the buffer to the stream; when drained, interest off and callback queued |
| `TcpConnections.TcpConnection.Send` | simplifyMuduo/src/TcpConnection.cc:82-92 | at once on the loop thread, otherwise one functor holding the message, behind all others |
| `TcpConnections.TcpConnection.HandleClose` | simplifyMuduo/src/TcpConnection.cc:68-73 | channel deleted, no entry in the poller, no event asked for; buffer, stream and callbacks as they were |
| `TcpConnections.TcpConnection.QueueWriteComplete` | simplifyMuduo/src/TcpConnection.cc:106 | the callback goes behind all functors in the loop's queue, with a wakeup if a drain is under way |
| `TcpConnections.TcpConnection.constructor` | simplifyMuduo/src/TcpConnection.cc:3-11 | a new connection has sent nothing, has nothing waiting, and is registered for reading alone |
| `TcpConnections.Channel.Update` | simplifyMuduo/src/Epoll.cc:31-55 | afterwards the poller watches for exactly the events asked for, or for none if the channel is being deleted or has no entry; no channel is new after an update |
| `TcpConnections.Channel.EnableReading` | simplifyMuduo/include/Channel.h:25 | the reading bit alone is set, and the poller's entry follows |
| `TcpConnections.Channel.EnableWriting` | simplifyMuduo/include/Channel.h:27 | the writing bit alone is set, and the poller's entry follows |
| `TcpConnections.Channel.DisableWriting` | simplifyMuduo/include/Channel.h:28 | the writing bit alone is cleared, and the poller's entry follows |
| `TcpConnections.Channel.DisableAll` | simplifyMuduo/include/Channel.h:29 | both bits are cleared, and the poller's entry follows |
| `SendOrder.StreamOrder` | simplifyMuduo/src/TcpConnection.cc:82-119 | in every run the stream is whole messages, and each thread's messages appear in it in the order sent, the rest still queued |
| `SendOrder.IdleMeansAllWritten` | simplifyMuduo/src/EventLoop.cc:18-123 | once the loop is idle every message of every thread is in the stream |
| `TimerPromises.NoLostTimer` | simplifyMuduo/src/TimerQueue.cc:23-187 | outside the handler a non-empty set has its timerfd armed, with a deadline no later than the larger of the earliest stamp and 100 microseconds after arming |
| `TimerPromises.EarliestGetsItsTurn` | simplifyMuduo/src/TimerQueue.cc:58-151 | hence by that time the timerfd is readable, and a pass of the handler starts with the earliest timer |
| `TimerPromises.BatchExact` | simplifyMuduo/src/TimerQueue.cc:83-96 | a batch is exactly the entries with stamp at or before the reading of the clock, in stamp order |
| `TimerPromises.NeverEarly` | simplifyMuduo/src/TimerQueue.cc:58-71 | a callback runs at or after the stamp its timer has |
| `TimerRequests.RunsAsAsked` | simplifyMuduo/src/TimerQueue.cc:46-71 | in every run, a timer asked for a time and an interval first fires as one due at that very time, never earlier, and every time with that interval; while it lives it has that interval, and until it has fired that time |
| `TimerPromises.FiringsSpaced` | simplifyMuduo/src/TimerQueue.cc:109-124 | a one-shot fires at most once; firings of a repeating timer are at least its interval apart |
| `TimerPromises.FreedOnce` | simplifyMuduo/src/TimerQueue.cc:12-137 | every timer made is in exactly one of: set, batch, queued add, freed; freed at most once |
| `TimerPromises.KeysCurrent` | simplifyMuduo/src/TimerQueue.cc:109-171 | the stamp in a set key is always its timer's current stamp |
| `TimerPromises.DestructionFrees` | simplifyMuduo/src/TimerQueue.cc:12-21 | destruction leaves unfreed exactly the timers whose add is still queued |
| `TimerPromises.QueuedTimerLeaks` | simplifyMuduo/src/TimerQueue.cc:12-21 | a concrete run that ends with such a timer |
| `TimerCancel.CancelSilences` | simplifyMuduo/src/TimerQueue.cc:34-44 | cancelling silences a timer in every continuation exactly if the set holds it or it is a one-shot fired in the batch at hand; any other fires in some continuation in which the handler runs only when the timerfd is readable |
| `TimerCancel.RepeatingComesBack` | simplifyMuduo/src/TimerQueue.cc:109-124 | every repeating timer in the batch is in the set again when the handler finishes, whatever is cancelled or added until then |
| `TimerCancel.SpentNeverFires` | simplifyMuduo/src/TimerQueue.cc:115-123 | a freed timer, or a one-shot fired in the batch at hand, never fires |
| `TimerCancel.StillFires` | simplifyMuduo/src/TimerQueue.cc:58-71 | a live timer that is not in the set, and not a spent one-shot, fires in some continuation |
| `TimerPromises.CancelEffect` | simplifyMuduo/src/TimerQueue.cc:34-44 | cancelling a timer in the set frees it and takes out that timer alone; cancelling any other changes nothing at all |
| `TimerPromises.CancelInCallbackIsLost` | simplifyMuduo/src/TimerQueue.cc:109-124 | a concrete run: a repeating timer cancelled in its own callback is back in the set afterwards |
| `TimerPromises.FreedNeverFires` | simplifyMuduo/src/TimerQueue.cc:58-137 | no run fires a freed timer |
| `TimerPromises.StepKeepsInv` | simplifyMuduo/src/TimerQueue.cc:12-171 | every step keeps set order, key currency, ownership, arming and firing history |
| `TimerSet.ExpiryExact` | simplifyMuduo/src/TimerQueue.cc:83-96 | the split at the sentry separates exactly the due from the others |
| `TimerSet.InsertLemma` | simplifyMuduo/src/TimerQueue.cc:153-171 | insertion keeps the order, adds one entry, and it comes first exactly when it is least |
| `TimerSet.RemoveLemma` | simplifyMuduo/src/TimerQueue.cc:39-42 | erasing takes out exactly the entry found |
| `TimerRuns.Lookup` | simplifyMuduo/src/TimerQueue.cc:36-39 | looking a live timer up by stamp and address finds it exactly when the set holds it |
| `TimerRuns.AddKeepsArmed` | simplifyMuduo/src/TimerQueue.cc:23-32 | a new earliest timer re-arms the timerfd; any other leaves it right |
| `TimerRuns.FiresRestarted` | simplifyMuduo/include/Timer.h:47-50 | restarting sets the stamp at least an interval after the firing |
| `TimerQueues.HowMuchTimeFromNow` | simplifyMuduo/src/TimerQueue.cc:173-187 | seconds and nanoseconds add up to the distance to the stamp, or to 100 microseconds if that is less |
| `TimerQueues.TimerQueue.Insert` | simplifyMuduo/src/TimerQueue.cc:153-171 | the set keeps its order and gains exactly one entry; true is returned exactly if its stamp is below all others, and then it comes first |
| `TimerQueues.TimerQueue.AddTimerInLoop` | simplifyMuduo/src/TimerQueue.cc:23-32 | inserts, and arms the timerfd, for the later of the stamp and 100 microseconds from now, exactly if the earliest stamp changed |
| `TimerQueues.TimerQueue.CancelInLoop` | simplifyMuduo/src/TimerQueue.cc:34-44 | removes and deletes the timer if the set holds it, else nothing |
| `TimerQueues.TimerQueue.GetExpired` | simplifyMuduo/src/TimerQueue.cc:83-96 | cuts the set in two without loss, both parts in order: stamps up to now are returned, later stamps stay |
| `TimerQueues.TimerQueue.RestartOrDelete` | simplifyMuduo/src/TimerQueue.cc:115-123 | repeating: same interval, due one interval from now, under that stamp in the set; one-shot: deleted; all others stay |
| `TimerQueues.TimerQueue.Reset` | simplifyMuduo/src/TimerQueue.cc:109-137 | the loop over the batch and the final arming are the machine's steps; no handle in it dangles |
| `TimerQueues.TimerQueue.HandleRead` | simplifyMuduo/src/TimerQueue.cc:58-71 | one pass, callbacks included, is exactly the machine's run from reading the clock to arming the timerfd; the due entries fire once each, in stamp order, and nothing else fires |
| `TimerQueues.TimerQueue.AddTimer` | simplifyMuduo/src/TimerQueue.cc:46-51 | a new timer with the time and the interval asked for is in the heap and, under that time, in the set; all other timers stay; the timerfd is armed for it exactly if it is the earliest |
| `TimerQueues.TimerQueue.AddTimerFromThread` | simplifyMuduo/src/TimerQueue.cc:46-51 | a new timer with the time and the interval asked for is in the heap, its add at the end of the queue; all other timers, set and timerfd stay |
| `TimerQueues.TimerQueue.Destruct` | simplifyMuduo/src/TimerQueue.cc:12-21 | deletes exactly the timers in the set, and empties it |
| `TimerQueues.TimerQueue.CancelTimer` | simplifyMuduo/src/TimerQueue.cc:53-56 | on the loop thread: cancelled at once, with the effect of the machine's step |
| `TimerQueues.TimerQueue.RunQueuedAdd` | simplifyMuduo/src/TimerQueue.cc:23-32 | the loop runs the oldest queued add; its timer still exists |
| `TimerQueues.TimerQueue.ResetTimerfd` | simplifyMuduo/src/TimerQueue.cc:139-151 | armed for exactly the later of the stamp and 100 microseconds from now |
| `TimerQueues.TimerQueue.FireAll` | simplifyMuduo/src/TimerQueue.cc:64-69 | every entry of the batch fires once, in order, whatever the callbacks add or cancel, and nothing else fires |
| `TimerQueues.TimerQueue.Timeout` | simplifyMuduo/src/TimerQueue.cc:68 | an entry's timer still exists when its callback is called, and exactly that callback is called |
| `TimerQueues.TimerQueue.RearmTimerfd` | simplifyMuduo/src/TimerQueue.cc:126-136 | armed for exactly the later of the earliest stamp and 100 microseconds from now, if there is a positive one; otherwise left |

## Left out

- RpcMetaMessages.RpcMetaMessage.InternalParse: refuses wire types 3 and 4 (groups), where the runtime keeps groups among
  the unknown fields.
- RpcMetaMessages.RpcMetaMessage.ParseField: likewise, for a start-group tag.
- RpcMetaMessages.RpcMetaMessage.ParseFromArray: likewise, for input that contains groups.
- The has-bits word is a set of bits; bit positions are not modelled.
- The contents of a message object after a failed parse, UTF-8 checks in debug builds, arenas, reflection, swapping.
- RpcMetaMessages.RpcMetaMessage.ByteSizeLong: does not model the size cache, which only repeats the result.
- zlib's block-wise computation of the checksum; the model uses the definition, reduced at every step.
- The runtime's own parsing of user messages; a request that parses is a parameter of the service.
- RpcProtocol.CompleteKeeps: does not model a service that runs its closure twice, which would free the response twice.
- RpcChannels.RpcChannel.IncrementAndGet: does not model the wrap of the 64-bit counter.
- Response objects shared between calls, and deletion of a channel while one of its closures runs.
- EndToEnd.Refines: does not model closing the connection; the connection's own close is in `Connections`.
- EventLoops.EventLoop.Loop: does not model running for ever; it runs as many rounds as it is given.  A call by another
  thread is one act there, push and wakeup together; they are separate steps in the machine of the same module.
- EventLoops.EventLoop.QueueFromLoop: does not model a push on the loop thread between the parts of `loop()` itself, where
  no code of the user runs.
- Overflow and saturation of the eventfd counter; failing system calls other than `write`.
- TimerQueues.TimerQueue.HandleRead: does not model fractions of a microsecond, by which a repeating interval below one
  microsecond would restart a timer at its own stamp.
- The timerfd's own expiration count, and timers cancelled through dangling handles.
- Sockets, epoll events other than the interest mask, acceptor, connector, client, server, thread pool, addresses, logging:
  plumbing with little to prove.
