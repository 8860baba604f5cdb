# The HTTP/2 half of the server, as a verified model

One connection task reads frames, creates stream tasks, forwards frames to them, decodes header blocks for them and writes
their responses. Every stream task runs on its own; the tasks talk over channels. Together they implement RFC 7540. This
project models that program and proves what it keeps in every run, for every client, every handler and every schedule.

The model has four layers. `dafny verify dfyconfig.toml` checks all of it.

- **Values.** `Bytes`, `Frames`, `Messages`, `Text`, `Wrappers` hold the data. `FrameCodec`, `HeadersPayload`, `Settings`,
  `Goaway` are the wire formats, each with its inverse. `HeaderBlock` is the header decoder behind HPACK, proved equal to a
  declarative reading of sections 8.1.2.1 to 8.1.2.6 of RFC 7540. `RequestContext` builds the request.
- **Operations.** `StreamModel` and `ConnectionModel` say what one operation does, as functions with the branches, constants
  and error cases of the code. `Http2Stream`, `Http2ConnectionContext` and `Http2Connection` are the objects the code
  updates in place, loop by loop; their methods are proved against those functions.
- **The system.** `System` is a transition relation over the connection, a map of stream tasks, one first-in first-out inbox
  per stream, the streams' shared channel, the dispatch tasks in flight and a log of what happened. A stream task moves in
  small steps, one channel operation at most in each, so any two operations interleave. `Refinement` shows that a pass of
  each object's `serve` loop is a run of this system.
- **Proofs over runs.** `StreamInvariant` and `StreamReceive` hold the invariant of one stream, `SystemInvariant` and
  `SystemArrive` the joint invariant of gate, channels and streams, `Delivery`, `ConnectionInvariant` and `ActiveCount` the
  accounts of the connection, `ResponseDelivery` the way of a response from the dispatcher to the wire, `DecodedAnswers` the
  way of a header block from the client through HPACK to the request. `ConnectionRules` restates the checks on frames as
  rules, `Guarantees` states the results. `Reading` reads a request off the frames forwarded to a stream, `OneAnswer` counts
  the answers to its trailers, `Promptness` says that a waiting stream holds nothing complete back, `Complaints` counts what
  it reports; `RequestRuns` carries these over every run, and `Confluence` concludes that the request does not depend on the
  schedule. `DispatchRuns` follows a dispatch request to the handler and its answer back, `ConnectionLedgers` accounts for
  acknowledgements, settings and failures, and `LoopEnd` says what ends the connection. `StrayFailure` and `StrayRun` say when a stream task fails and that it can, and `FailingRun`
  and `UnderflowRun` work out whole runs, from the handshake to a failed task and to a negative count of active streams,
  for any octets and any results of HPACK; `Scenario` and `OpenedStream` are what they share.

Facts of the code that shaped the model, some of them at odds with its comments or with the RFC:

- The initial window is always 65535: the value the client sends in its SETTINGS is stored in the options but
  `window_size` (`src/http2/frame_settings.rs:110-121`) never sees a decoded payload and answers the default.
- The windows are capped at 2^32 - 1, not at 2^31 - 1 (`src/http2/frame_window_update.rs:127`, `src/http2/http2_stream.rs:420`).
- GOAWAY keeps 27 bits of the last stream id, the constant being `0x7FFF_FFF` (`src/http2/frame_goaway.rs:54-79`).
- A lawful trailer block that names nothing declared is not answered at all, and the stream waits; a header block that is
  accepted is always answered, its map being never empty (`src/http2/http2_connection.rs:230-268`, `DecodedAnswers.AnsweredIff`).
- Nothing rejects a CONTINUATION frame while a trailer block is at the decoder. The task then asks for trailers twice,
  dispatches on the first answer and panics on the second (`src/http2/http2_stream.rs:600-606`). No other panic is possible:
  `Guarantees.NoPanic` and `StrayFailure.NextStepFailsIff` say exactly when it happens, `StrayRun.StrayCanFail` that such a
  frame is enough, and `FailingRun.RunThatFails` gives the runs.
- A dispatch request handled after its stream was cancelled creates the stream's token again, and with it a second
  cancellation (`src/http_connection_context.rs:246-256`). `Guarantees.CountBalances` says exactly when the count goes below
  zero, `Guarantees.UnderflowStep` with which event, and `UnderflowRun.RunThatUnderflows` gives the runs.
- What a stream accepts depends on when the decoder answers: a second HEADERS frame is accepted before the answer and
  refused after it if no trailers are declared. The request that is dispatched does not depend on it
  (`RequestRuns.HistoryIsReading`, `Confluence.SameRequest`).
- Of a response both frames carry END_STREAM, the HEADERS frame too, although DATA follows (`src/http2/http2_stream.rs:302-323`).
  And no stream ever counts its response as complete, since HEADERS frames do not pass the loop that would mark them
  (`src/http2/http2_stream.rs:513-534`, `RequestRuns.NeverCompleted`).
- The handshake does not ask for a SETTINGS frame: a first frame that is a PING starts the loop too, with the default client
  options (`src/connection_reader.rs:227-272`).
- The count of active streams is not the number of open streams: a stream counts once when it is added and once more when
  its first HEADERS frame is accepted.

## Model

| member | source | states |
|---|---|---|
| Guarantees.HeaderReassembly | src/http2/http2_stream.rs:237-263 | In every run a stream sends at most one decode request for its headers; its payload is, octet for octet, what an unbroken run of received frames holds of a header block: HEADERS payloads without pad length, priority fields and padding, CONTINUATION payloads whole. The run is the stream's first HEADERS frame and its CONTINUATION frames up to END_HEADERS. |
| Guarantees.TrailerReassembly | src/http2/http2_stream.rs:265-293 | In every run without a CONTINUATION behind the end of a trailer block a stream sends at most one decode request for trailers, with the declared names, and the payload is the concatenated fragments of the second HEADERS frame accepted and its CONTINUATION frames up to END_HEADERS. |
| RequestRuns.TrailerOctets | src/http2/http2_stream.rs:265-293 | That payload is, octet for octet, what these frames hold of a header block, their padding and priority fields left out. |
| Guarantees.DispatchOnce | src/http2/http2_stream.rs:442-469 | In every run a stream dispatches at most once, after END_STREAM was accepted, the header block decoded and declared trailers decoded; the request has the method that the block's value names, the block's path, scheme and authority and the merged headers, its body is the payload of the first DATA frame accepted, if any was, and the header map is gone afterwards. |
| DispatchRuns.EveryDispatchRuns | src/http2/http2_connection.rs:156-202 | In every run the dispatch requests of a stream are exactly those in the channel, those at a handler, those answered by a response that waits or was consumed, and those dropped with their handler's task. |
| DispatchRuns.RepliesReachStream | src/http2/http2_connection.rs:156-202 | In every run the response a stream consumed and those waiting for it are what its handlers answered, encoded headers and body, in order. |
| DecodedAnswers.RequestDecoded | src/http2/http2_connection.rs:230-268 | In every run a dispatched request is made of the pairs HPACK gave for the stream's own header block, which is well formed: the method its `:method` pair names, path, scheme and authority by last values, their map, and merged into it in order the declared part of the pairs of the stream's trailer blocks. |
| DecodedAnswers.AnswersDecoded | src/http2/http2_stream.rs:577-606 | In every run the headers a stream was given are the map and the declared names of its own block's pairs, and the trailers consumed, then those waiting, are the declared parts of its trailer blocks' pairs in order, each block one the stream sent. |
| DecodedAnswers.AnsweredIff | src/http2/http2_connection.rs:230-268 | The connection answers a header block iff its pairs are well formed, and a trailer block iff its pairs are lawful and name something declared; a lawful one that names nothing declared changes nothing. |
| DecodedAnswers.RefusedWith | src/http2/http2_connection.rs:230-268 | A block HPACK cannot decompress raises COMPRESSION_ERROR of the connection, one whose pairs are not lawful raises PROTOCOL_ERROR of its stream, and no other block raises anything. |
| Confluence.SameRequest | src/http2/http2_stream.rs:442-469 | If in two runs, under any two schedules, the connection received the same frames, or in one more than in the other, and HPACK gave the same pairs for a stream's header block and its first trailer block, then the two requests dispatched for the stream are the same, in target, headers, trailers and body. |
| Confluence.SameBlock | src/http2/http2_stream.rs:237-263 | In two such runs a stream asks HPACK for the same header block, whatever HPACK answers. |
| Confluence.SameTrailers | src/http2/http2_stream.rs:265-293 | In two such runs without a CONTINUATION behind the end of the trailer block the stream asks for the same trailer block. |
| Confluence.ReachableGiven | src/http2/http2_connection.rs:368-444 | In every run the frames forwarded to a stream begin the frames received for it, but for those its client's GOAWAY hides, and are all of them as long as the stream is served; a stream that does not exist has none while no error ends the connection. |
| RequestRuns.HistoryIsReading | src/http2/http2_stream.rs:357-439 | In every run heads, end, reset, first body and trailer block of the frames a stream accepted are what a fold over the frames forwarded to it reads, for each answer about declared trailers that is still possible. |
| RequestRuns.TrailersAnsweredOnce | src/http2/http2_stream.rs:577-606 | In every run a stream asks for trailers only after the end of the request and a second HEADERS frame, and consumes one answer at most, after which it dispatches before it receives anything else. |
| Guarantees.StreamFlowControl | src/http2/http2_stream.rs:471-538 | In every run the DATA octets a stream hands over stay within 65535 plus its accepted increments, the window plus the debits is that sum, and each response consumed is one DATA frame, sent or waiting. |
| RequestRuns.NothingHeldBack | src/http2/http2_stream.rs:544-556 | In every run a stream that waits for a message has asked for every complete header and trailer block, has dispatched its request if all parts are there, and holds a DATA frame back only if its window is 0 or less than the payload's length cut to 32 bits. |
| RequestRuns.HeldFrameGoesOut | src/http2/http2_stream.rs:471-538 | In every reachable state in which a stream with a frame held back looks at its window, the frame is sent, alone and whole, if neither is the case, and otherwise kept with nothing sent. |
| RequestRuns.ResponseHandedOver | src/http2/http2_stream.rs:295-346 | In every reachable state a response that a stream takes is sent whole and debited iff the window is not 0 and not less than the body's length cut to 32 bits; otherwise its HEADERS frame is sent, its DATA frame held back and the window left alone. |
| RequestRuns.NeverCompleted | src/http2/http2_stream.rs:513-534 | In no run is a response marked complete or its HEADERS frame marked sent, and END_STREAM is marked sent iff a frame held back that has it was sent. |
| Guarantees.HonestBelow32Bits | src/http2/http2_stream.rs:659-665 | The send check implies that the payload fits the window, for every window, iff the payload is shorter than 2^32 octets. |
| Guarantees.TrailersNeedHeaders | src/http2/http2_stream.rs:265-293 | In every run trailers under way imply headers under way, complete trailers behind decoded headers imply declared names, and trailers at the decoder imply a header map not yet dispatched. |
| Guarantees.NoPanic | src/http2/http2_stream.rs:577-606 | In every run a stream fails an `unwrap`, an `expect` or a request construction only after it consumed a CONTINUATION while a trailer block was at the decoder, asked for trailers at least twice, consumed an answer and dispatched, with more requests for trailers than answers consumed. |
| StrayFailure.NextStepFailsIff | src/http2/http2_stream.rs:600-606 | In every run the next step of a task fails iff the task, not cancelled, takes an answer to trailers on a stream that has dispatched its request. |
| StrayRun.StrayCanFail | src/http2/http2_stream.rs:667-709 | Take any reachable state in which a served stream takes a CONTINUATION with END_HEADERS next, while its trailers are asked for and not answered, and nothing in the channel ends the connection or the stream. Whatever HPACK makes of the blocks in the channel and of the block the frame adds, if each decodes, the stream's own are lawful trailers, and two of its answers wait or name something declared, then a run with just these results goes on to the failed task, the connection still running. |
| FailingRun.RunThatFails | src/http2/http2_stream.rs:544-636 | From every state the handshake leaves, for every header block, trailer block and CONTINUATION payload of at most 16384 octets and every three lists of pairs HPACK may give for them, the first well formed and declaring trailers, the other two lawful and naming something declared, there is a run that receives just these three frames, decodes just these pairs, and ends with the stream task failed and the connection running. |
| Guarantees.UndeclaredTrailers | src/http2/http2_stream.rs:577-606 | In every run, when the headers declare no trailers, a second HEADERS frame on the open stream yields a PROTOCOL_ERROR of the connection, sent after that frame was consumed or due next; if the frame came before the decoder's answer the request is never dispatched. |
| Confluence.FramesAreJudged | src/http2/http2_stream.rs:357-439 | In every reachable state a stream that takes a frame accepts it iff its type is allowed in the states of the three machines and its increment does not push the window over 32 bits; otherwise the stream is left alone and is about to report the error its rule gives. |
| Complaints.RefusedWith | src/http2/http2_stream.rs:667-809 | A frame refused by its stream raises STREAM_CLOSED of the stream if it is DATA or HEADERS behind the end of the request, FLOW_CONTROL_ERROR of the stream if it is an increment too large, and PROTOCOL_ERROR of the connection otherwise. |
| RequestRuns.RefusalsReported | src/http2/http2_stream.rs:615-634 | In every run the failures a stream has reported or is about to report are as many as the frames it refused, and one more for trailers begun before the answer that none are declared. |
| Guarantees.SecondHeadersConfluent | src/http2/http2_stream.rs:689-709 | A second HEADERS frame and an answer without trailers lead to the same error in either order iff the client has not ended the stream. |
| Guarantees.StateAndGrammar | src/http2/http2_stream.rs:825-876 | In every run the stream state is the function of accepted and flushed frames that section 5.1 prescribes, Reserved and half-closed (local) do not occur, at most two HEADERS frames are accepted, and none, nor DATA, after END_STREAM or a reset. |
| Guarantees.NeverBack | src/http2/http2_stream.rs:357-439 | Along every run Idle is not re-entered, Closed not left, the end of the request not forgotten, and header decoding only moves forward. |
| ResponseDelivery.ResponseReachesWire | src/http2/http2_stream.rs:295-346 | In every run, while the connection runs, a stream's frames on the wire, then those waiting for the connection window, then those in the channel, then the one the stream holds back spell the response consumed: one HEADERS frame with END_HEADERS and the encoded headers for payload, then DATA whose octets are the body, all on the stream with END_STREAM; nothing lost, repeated or reordered, and no such frame without a response. |
| ResponseDelivery.WireBeginsResponse | src/http2/http2_connection.rs:93-317 | In every run, also after the loop has ended, a stream's frames on the wire begin a list that spells its response so, and there are none without a response. |
| Guarantees.ConnectionFlowControl | src/http2/http2_connection.rs:207-227 | In every run DATA octets on the wire plus the window are at most 65535 plus the accepted increments of stream 0, and exactly that while the loop runs; the window fits 32 bits. |
| Guarantees.ErrorsAnsweredOnce | src/http2/http2_connection.rs:94-120 | In every run the RST_STREAM and GOAWAY frames on the wire are the answers to the raised errors, one each and in order, only the latest of which can still be waiting: RST_STREAM on the error's stream with the number that section 7 gives its code in four octets, GOAWAY on stream 0 with the highest stream, cut to 27 bits, and that number. |
| ConnectionLedgers.FailuresRaised | src/http2/http2_connection.rs:270-275 | In every run the failures taken from streams are among the errors raised, in order; a GOAWAY is on the wire only with the root token cancelled, and that token is cancelled only once the loop has ended. |
| ConnectionLedgers.ControlsAcknowledged | src/http2/frame_settings.rs:216-336 | In every run, while the loop runs, the SETTINGS and PING frames on the wire are the two of the handshake and one acknowledgement for each lawful SETTINGS or PING frame received that is none itself, in order, a PING's with its octets; and the client's limits are those after every entry of every lawful SETTINGS frame in turn. |
| ConnectionLedgers.ServerWindowDebited | src/http2/frame_data.rs:108-147 | In every run the server's window is 65535 less the DATA octets handed to streams, modulo 2^64. |
| Guarantees.GoAwayIsLast | src/http2/http2_connection.rs:335-345 | In every run a GOAWAY is the last frame written, the loop has ended, and the id in it is the highest stream created iff that is below 2^27. |
| Guarantees.StreamNumbers | src/http2/http2_connection.rs:368-423 | In every run streams opened by HEADERS have strictly increasing numbers, every number makes one stream, and the recorded maximum is the maximum. |
| Guarantees.ClientLimits | src/http2/frame_settings.rs:240-336 | In every run the client's initial window and maximum frame size lie in the ranges of section 6.5.2. |
| Guarantees.CountBalances | src/http_connection_context.rs:321-327 | In every run the active count is additions less cancellations plus Increments less Decrements, modulo 2^32; this balance is live tokens plus streams not yet closed less revived tokens, and so is negative iff revivals outnumber the other two. |
| Guarantees.CommandsOnce | src/http2/http2_stream.rs:1045-1059 | In every run a stream sends one Increment and one Decrement at most, and the Decrement is handled after the Increment. |
| Guarantees.UnderflowStep | src/http_connection_context.rs:211-256 | In every run an event takes the balance below zero iff it is a cancellation that finds a token or a Decrement, and revivals equal live tokens plus streams not yet closed. |
| UnderflowRun.RunThatUnderflows | src/http_connection_context.rs:246-256 | From every state the handshake leaves, for every header block of at most 16384 octets and every well-formed list of pairs without declared trailers that HPACK may give for it, there is a run that receives the block, a reset and two empty increments and ends with the balance -1, which the 32-bit count shows as 4294967295, with the connection running. |
| StreamReceive.StepKeeps | src/http2/http2_stream.rs:544-636 | Every step of a stream task keeps the stream's invariant, given a next message the rest of the system can have sent. |
| StreamReceive.AcceptedIffAllowed | src/http2/http2_stream.rs:667-809 | A forwarded frame is accepted iff its type is allowed in the states of the three machines and it does not push the window over 32 bits. |
| StreamReceive.AcceptedEffect | src/http2/http2_stream.rs:357-439 | A frame that is accepted has passed the checks of its state, and changes exactly the fields its type allows. |
| StreamReceive.ProgressAccepted | src/http2/http2_stream.rs:369-405 | The header-decoding state tells, before and after every accepted frame, how much of the first header block has been consumed. |
| StreamReceive.WindowDirect | src/http2/http2_stream.rs:295-346 | A response sent at once is debited and keeps the stream's flow-control ledger. |
| StreamInvariant.WindowFlush | src/http2/http2_stream.rs:471-538 | A pending DATA frame sent later is not debited, and the ledger holds all the same. |
| StreamInvariant.DispatchBuilds | src/http_request_context.rs:218-240 | At dispatch the request is always built, from the header block and the accepted trailers. |
| SystemInvariant.NextExpected | src/http2/http2_stream.rs:560-620 | A response object arrives only on a dispatched stream without one, header answers only while they are awaited, trailer answers only for declared names and outstanding requests. |
| SystemInvariant.StepJoint | src/http2/http2_stream.rs:544-636 | Any step of any stream keeps the joint invariant of gate, channels and streams. |
| SystemInvariant.HandleJoint | src/http2/http2_connection.rs:155-285 | Handling any stream message keeps it. |
| SystemArrive.ArriveJoint | src/http2/http2_connection.rs:124-149 | Taking any frame from the reader keeps it: an unfinished header block holds the gate and is the last thing received. |
| SystemArrive.FrameTaken | src/http2/http2_connection.rs:368-444 | What a frame may do to gate, stream table and streams, and that a frame withheld from the stream at the gate raises an error that cuts the stream off. |
| System.HandshakeGreets | src/http2/http2_connection.rs:56-79 | The exchange of first frames before the loop succeeds only on a SETTINGS frame or on a PING of eight octets, on stream 0 and without ACK, and then leaves the fresh context with legal client limits, those of the SETTINGS entries or the defaults, and two frames on the wire: SETTINGS with the six entries the server announces, and the acknowledgement. |
| SystemArrive.RunJoint | src/http2/http2_connection.rs:93-317 | Every run keeps the joint invariant. |
| SystemInvariant.HandleFacts | src/http2/common_frame_handler.rs:95-130 | Whatever the type, a frame let through has its own stream number and parsed parameters, moves the gate as section 6.10 demands, and a rejection is an error of the connection or of that stream. |
| ConnectionRules.ProcessedIffAdmissible | src/http2/common_frame_handler.rs:95-130 | The pipeline of checks lets a frame through iff it meets the rules for its type, stated as one table. |
| ConnectionRules.RefusalScope | src/http2/common_frame_handler.rs:106-131 | A refusal costs only the stream in exactly four cases, and the connection otherwise. |
| ConnectionRules.RefusalCode | src/http2/common_frame_handler.rs:95-131 | For every frame type, which refusals raise FRAME_SIZE_ERROR, FLOW_CONTROL_ERROR and REFUSED_STREAM, each with its exact condition; all others raise PROTOCOL_ERROR. |
| ConnectionRules.RefusalRaised | src/http2/http2_connection.rs:347-444 | A frame that is looked at and refused puts its error into the slot and leaves the loop running; one that crashes its handler ends it. |
| ConnectionRules.CrashesIffTooShort | src/http2/common_frame_handler.rs:95-130 | A handler crashes iff the frame passes the checks common to all types and its payload is too short to be read, for each type. |
| LoopEnd.LoopEndsIff | src/http2/http2_connection.rs:93-317 | In every reachable state in which the loop runs, the next event ends it iff it is a frame the gate does not let through, a frame looked at whose payload is too short to read, an error of the connection being answered, a response with a frame too long for 24 bits about to be written, the timer, or a failed write. |
| ConnectionRules.GateViolated | src/http2/http2_connection.rs:127-133 | A frame the gate does not let through ends the loop at once, with PROTOCOL_ERROR in the slot, nothing written and no stream touched. |
| ConnectionRules.IncrementOctets | src/http2/frame_window_update.rs:94-169 | The increment is the number in the first four octets without the highest bit. |
| ConnectionRules.FrameFate | src/http2/http2_connection.rs:368-444 | A stream is created iff the frame passes the gate, lies below the GOAWAY and has a new number not below those opened; a frame reaches its stream iff it is admissible besides; a number too low raises PROTOCOL_ERROR. |
| Delivery.DeliverSplits | src/http2/http2_connection.rs:207-227 | For every list of frames the ones before the first overflow are written, the rest wait in order, and the window pays for what was written and for what leaked. |
| Delivery.DeliverLedger | src/http2/http2_connection.rs:207-227 | The loop keeps octets written plus window constant iff no frame it queued would still have fitted. |
| Delivery.DeliverStops | src/http2/http2_connection.rs:448-478 | A frame that cannot be serialized ends the connection, with everything before it written and nothing lost to the ledger's bound. |
| ConnectionInvariant.RunAccounts | src/http2/http2_connection.rs:93-317 | Every run keeps the accounts of window, errors, stream numbers and client limits. |
| ConnectionInvariant.ResponseDelivered | src/http2/http2_connection.rs:207-227 | The responses streams send never leak window and never disturb the error answers. |
| ResponseDelivery.RunConserved | src/http2/http2_connection.rs:93-317 | Every run keeps what streams hand over: their frames on the wire, then waiting, then in the channel are the frames of their messages. |
| ResponseDelivery.ResponseSplit | src/http2/http2_connection.rs:207-227 | Cutting a response where it overflows keeps every stream's frames in order, since only the last frame of a response can be waiting. |
| ActiveCount.RunCount | src/http_connection_context.rs:211-327 | Every run keeps the count and the order of each stream's commands. |
| ActiveCount.TalliedPop | src/http2/http2_connection.rs:278-285 | A command taken from the channel has not been handled before, and a Decrement finds its Increment handled. |
| Refinement.PassIsSteps | src/http2/http2_stream.rs:544-636 | One pass of a stream's `serve` loop is a run of small steps with the same stream, the same messages and the same survival. |
| Refinement.PassIsEvents | src/http2/http2_connection.rs:93-317 | One pass of the connection's `serve` loop is a run of events with the same connection. |
| Http2StreamTask.Http2Stream.HandleFrameForRequest | src/http2/http2_stream.rs:357-439 | The object after a frame is the model's successor; a refused frame leaves it alone. |
| Http2StreamTask.Http2Stream.DrainFragments | src/http2/http2_stream.rs:237-263 | The loop over the stored frames yields their fragments in order, or stops at a frame without one. |
| Http2StreamTask.Http2Stream.DrainPending | src/http2/http2_stream.rs:471-538 | The pop loop of the pending queue computes the recursive drain, its early exits included; what is taken and what is left are the queue, every frame taken fits the window, and the first one left does not. |
| Http2StreamTask.Http2Stream.Flush | src/http2/http2_stream.rs:639-657 | What is taken plus what is left is the queue, the window pays for exactly what is taken, and the first frame left does not fit what remains. |
| Http2StreamTask.Http2Stream.ServeOnce | src/http2/http2_stream.rs:544-636 | One pass of the loop: the four steps, the receive and the report, with the messages in the order sent. |
| Http2StreamTask.Http2Stream.Serve | src/http2/http2_stream.rs:544-636 | The loop over a list of messages composes its passes and stops at the first that ends the task. |
| Http2ConnectionTask.Http2ConnectionContext.constructor | src/http_connection_context.rs:102-140 | A new context has no streams, an open gate, both windows at 65535 and the default options. |
| Http2ConnectionTask.Http2ConnectionContext.CancelStreamToken | src/http_connection_context.rs:211-216 | Cancelling takes the token and one off the count, and does nothing to a stream without a token. |
| Http2ConnectionTask.HeadersFrame | src/http2/frame_headers.rs:246-302 | Decoding, validation order and closing of the gate. |
| Http2ConnectionTask.ContinuationFrame | src/http2/frame_continuation.rs:86-123 | The gate opens on END_HEADERS of the inflight stream only. |
| Http2ConnectionTask.WindowUpdateFrame | src/http2/frame_window_update.rs:94-169 | The checks in their order, and the credit to the connection window. |
| Http2ConnectionTask.SettingsFrame | src/http2/frame_settings.rs:216-336 | Verdict, options and acknowledgement of a SETTINGS frame. |
| Http2ConnectionTask.GoAwayFrame | src/http2/frame_goaway.rs:138-163 | A GOAWAY on stream 0 sets the id above which frames are ignored. |
| Http2ConnectionTask.DataFrame | src/http2/frame_data.rs:108-147 | Padding check and debit of the server window, which wraps as the code's `usize` does. |
| Http2ConnectionTask.HandleParsedFrame | src/http2/common_frame_handler.rs:35-88 | The dispatch over frame types equals the model's pipeline for every frame. |
| Http2ConnectionTask.Http2Connection.HandleStreamLevelFrame | src/http2/http2_connection.rs:368-444 | Ignoring, creating, refusing and forwarding, in the code's order. |
| Http2ConnectionTask.Http2Connection.DoResponseToClient | src/http2/http2_connection.rs:207-227 | The loop over a response's frames computes the recursive delivery. |
| Http2ConnectionTask.Http2Connection.AnswerPendingError | src/http2/http2_connection.rs:94-120 | The slot is emptied and the error answered with GOAWAY, RST_STREAM or nothing. |
| Http2ConnectionTask.Http2Connection.Serve | src/http2/http2_connection.rs:93-317 | The event loop is the composition of its passes: error slot first, then one input. |
| HeaderBlock.DecodeHeaders | src/http2/http2_header_decoder.rs:92-301 | The early-exit loop succeeds iff the pair list is well formed by a declarative reading of sections 8.1.2.1 to 8.1.2.6, and yields the map and the declared trailers. |
| HeaderBlock.HeaderMapIsLastWins | src/http2/http2_header_decoder.rs:245-301 | The map of a well-formed list holds every name of the list and nothing else, each with its last value. |
| HeaderBlock.PseudoOrderIrrelevant | src/http2/http2_header_decoder.rs:92-301 | Permuting the pseudo-header prefix changes neither verdict nor result. |
| HeaderBlock.HeaderStateMachine.MaybeNextState | src/http2/http2_header_decoder.rs:27-66 | The three-state machine of the loop. |
| HeaderBlock.DecodeTrailers | src/http2/http2_header_decoder.rs:303-350 | Trailers are refused on upper case, pseudo-headers, connection and trailers; otherwise the declared ones remain, last value winning. |
| Text.SplitJoins | src/http2/http2_header_decoder.rs:222-227 | The names a `trailer` value declares are its pieces between commas: joined by commas they are the value, and none holds a comma. |
| Text.SplitIsOnly | src/http2/http2_header_decoder.rs:222-227 | No other list of pieces has both properties. |
| RequestContext.RequestAlwaysBuilds | src/http_request_context.rs:218-240 | Accepted headers and accepted trailers always build a request, with the method the block names, its path, scheme and authority, and no name outside block and declaration. |
| RequestContext.KnownMethodParses | src/http_type.rs:24-36 | The decoder's method check and the request's parser agree on every string, and the parser reads each of the five methods from exactly the strings that name it, in any letter case. |
| RequestContext.TrailersAreHarmless | src/http2/http2_header_decoder.rs:303-350 | Accepted trailers cannot name a pseudo-header or an undeclared name, and cannot spoil a request. |
| Settings.DecodeEncode | src/http2/frame_settings.rs:94-141 | Decoding what was encoded gives the entries back. |
| Settings.EncodeDecode | src/http2/frame_settings.rs:94-141 | Encoding what was decoded gives the payload back, up to the octets behind the last whole entry, hence exactly iff the length is a multiple of six. |
| Settings.EntryLayout | src/http2/frame_settings.rs:94-141 | Each entry is written as two octets of identifier and four of value, the most significant first. |
| Settings.ApplyIsInOrder | src/http2/http2_conn_options.rs:65-84 | Collecting options and updating once equals the RFC's one entry at a time. |
| Settings.ApplyConcatenation | src/http2/frame_settings.rs:167-200 | Applying a payload is applying its parts in turn, split at a multiple of six octets. |
| Settings.VerdictIsRange | src/http2/frame_settings.rs:240-302 | A SETTINGS payload passes iff it is on stream 0, whole, and every entry is in range. |
| Settings.ApplyKeepsLegal | src/http2/frame_settings.rs:324-336 | An accepted payload keeps the limits legal. |
| Settings.ConnectionOptions.UpdateFrom | src/http2/http2_conn_options.rs:65-84 | The field-by-field overwrite is the update. |
| Settings.Reencode | src/http2/frame_settings.rs:343-357 | The frame written carries the payload without a trailing partial entry. |
| FrameCodec.H2FrameToBytes | src/http2/common_frame_facade.rs:176-233 | The octets of one frame, or an error when 24 bits cannot hold the length. |
| FrameCodec.FrameLayout | src/http2/common_frame_facade.rs:176-233 | The octets of a frame: three of length, the type's number of section 6, flags, four of stream identifier with the reserved bit 0, then the payload. |
| FrameCodec.FlagLayout | src/http2/common_frame_facade.rs:176-233 | END_STREAM or ACK is bit 1, END_HEADERS 4, PADDED 8, PRIORITY 32, and every other bit is 0. |
| FrameCodec.ReadBack | src/connection_reader.rs:275-354 | Reading a concatenation of written frames returns those frames one by one, for any list with payloads up to 2^24 - 1 octets; ids lose the top bit, PUSH_PROMISE frames are dropped and unknown types lose their number, as in the code. |
| FrameCodec.Reader.ReadAll | src/connection_reader.rs:275-354 | The repeated read of nine octets and a payload consumes the input exactly as the specification parses it. |
| FrameCodec.ReadBackIdentity | src/connection_reader.rs:275-354 | The list comes back unchanged iff its ids are below 2^31, its types survive and it carries no decoded parameters. |
| FrameCodec.SerializeAllInjective | src/http2/common_frame_facade.rs:176-233 | Two lists of such frames with the same octets are the same list. |
| HeadersPayload.DecodeLayout | src/http2/frame_headers.rs:136-165 | Decoding inverts the layout of section 6.2 for every padding, exclusive bit, dependency, weight and fragment. |
| HeadersPayload.LayoutDecode | src/http2/frame_headers.rs:136-165 | Decoding succeeds iff the payload is long enough for its flags and padding, and laying the result out again gives the payload. |
| HeadersPayload.DecodePayloadAndValue | src/http2/frame_headers.rs:136-165 | The moving cursor fills the parameters so. |
| Goaway.RoundTrip | src/http2/frame_goaway.rs:54-79 | The error code survives a GOAWAY; the stream id survives iff it is below 2^27. |

## Left out

- Sockets, the tokio runtime and its scheduler: any enabled event may happen next. A channel holds any number of messages; the 100 slots of the code only delay senders, which the schedule already covers.
- The five-second timer and failed writes: `Timeout` and `Abort` may end the loop at any time. A failed send to a stream and a failed write of an acknowledgement put an error that is no `Http2Error` into the slot; that is `Trouble`, possible at any time.
- HPACK: the connection receives either a compression error or any list of pairs, chosen anew for every request. What holds in every run holds for whatever HPACK answers; where a run is shown to exist, it exists for every choice of octets and answers that meets the stated conditions, and so for the answers HPACK gives. Nothing is claimed about the order in which different streams' blocks reach the HPACK state, and equal answers in two runs are a condition of `Confluence.SameRequest`.
- Cancellation tokens: a flag per stream, looked at before every receive as the code's biased `select!` does, and one for the connection.
- The handlers behind the dispatcher: a dispatch task is known by its stream, and answers with any response or is cancelled.
- Response headers: the octets HPACK makes of them are any octets.
- UTF-8 and the letter case of characters beyond ASCII in header names and values.
- The preface, HTTP/1.x, routing and the server builder: no part of the protocol engine above.
- Bodies beyond the first DATA frame: the code dispatches with the first frame only, and so does the model.
- The connection's queue of frames waiting for window: the code never drains it, and so it only grows in the model.
- Arithmetic checks of debug builds: additions to the active count and the server window wrap, as in a release build.
- The first frame of the client: anything but a SETTINGS or PING frame that is let through and is no acknowledgement ends the handshake before the model begins.
- Guarantees.StreamFlowControl: the bound on octets is for DATA payloads shorter than 2^32 octets, since the code compares lengths cut to 32 bits; the bound on the lengths so cut, and the ledger, hold for all payloads.
- Guarantees.GoAwayIsLast: a frame that violates the gate ends the loop with its error unanswered, as the code returns there; no GOAWAY is written on that path.
- Http2ConnectionTask.Http2ConnectionContext.CancelStreamToken: the token is a set element; what its cancellation does to the stream is `System.CancelTask`.
- Confluence.SameTrailers: with a CONTINUATION behind the end of a trailer block the block asked for depends on whether the frame came before the request for it; `Confluence.SameRequest` has no such condition, but takes HPACK's answer to the first trailer block as given.
- StrayRun.StrayCanFail: the condition on the state is enough for a failure to follow, not needed for one; needed is what `Guarantees.NoPanic` states, and exact, one step ahead, is `StrayFailure.NextStepFailsIff`.
- Octets read before a length check in PRIORITY, WINDOW_UPDATE and GOAWAY frames: a frame too short for them stops the connection task in the model, as the code's panic does.
