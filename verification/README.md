# h11r: what an HTTP/1.1 protocol engine keeps

This project models the protocol engine of `crates/h11r`: an HTTP/1.1 connection
that does no I/O. Its owner feeds it received bytes, polls it for events and asks
it for bytes to send. The model covers the joint client/server state machine, the
body decoder and encoder, the field rules that frame a message, the compacting
input buffer, the connection that couples all of these, and two connections joined
by in-order channels. `dafny verify dfyconfig.toml` checks it.

The code that works by changing things step by step is modelled as classes and
loops: `Connections.Connection`, `JointStates.JointState`, `Buffers.Buffer`, and
the cursor loops of `Fields`, `ChunkHeaders` and `Buffers`. Each method is proved
equal to a function on values; the theorems are about those functions and hold for
the methods through that equality.

| module | of the engine |
|---|---|
| States, JointStates | the joint state machine, its coupled rules, confluence |
| Bytes, ChunkHeaders, Bodies, Payload, Transfers | numbers, chunk lines, the byte-at-a-time reference decoder, the bulk decoder and the encoder |
| Fields, Options, Messages, Heads | field scanning, framing, connection options, what a peer makes of a sent head |
| Buffers | the compacting queue and the resumable section scan |
| Conn, Connections | a connection as a value and as an object |
| Runs, Persistence, Effects, Histories, Sessions, Silence | what every call and every run keeps |
| Lanes, Net, NetSends, NetPolls, Agreement, Delivery, Cycles | a client and a server joined by channels, under every interleaving |

## Findings

| where | what the proofs show |
|---|---|
| crates/h11r/src/connection/receive.rs:155 | Two endpoints with empty channels, empty buffers and nothing left to poll need not agree. A receiver ends a fixed-length body as soon as its last byte is there, also before its sender calls `end_of_message`. `Agreement.DisagreementHappens` gives the run, a plain GET, and `Agreement.RunsAgree` the exact condition: they agree if and only if neither side is writing a fixed-length body with nothing left to write, and no close-delimited response has been ended by a server whose client still waits for the connection to close. The condition reads only the two writers, the client's reader and whether the client awaits a response body. |
| crates/h11r/src/connection/send.rs:187-197 | A final response head can be silent about persistence on a connection that will not persist. It happens to a client actor that has already closed, and `Silence.SilenceHappens` gives the run: a GET arrives, is polled to its end, the client closes, and the server answers 204. `Persistence.CloseAnnouncementIsExact` has the exact condition, readable before the call: the announcement is right if and only if the client actor is not Closed, or keep-alive was off already, or the request proposed CONNECT, or the planned framing is close-delimited, or the given fields say `close`. |

## Model

| member | source | states |
|---|---|---|
| Agreement.RunsAgree | crates/h11r/src/connection/receive.rs:123-169 | For every interleaving of sends, deliveries of any size and polls of a fresh client and server within one cycle: no poll fails, and whenever channels and buffers are empty and polls report nothing, both have equal actor states, proposals and `keep_alive()` if and only if `EndUnseen` is false. |
| Agreement.SentIsNeverRejected | crates/h11r/src/connection/send.rs:22-206 | From any state satisfying the two-endpoint invariant, every run keeps the invariant, and no poll along it reports an error: what one role's sends accept, the other role accepts. |
| Agreement.RequestFramingAgrees | crates/h11r/src/connection/receive.rs:246-271 | When the server polls a request, it is the request the client sent (with `Host` first), and the reader it takes is the one for the framing the client's writer started with. |
| Agreement.AsksWithFraming | crates/h11r/src/connection/send.rs:60 | The framing the log records for an accepted request is the framing the client's writer starts with. |
| Agreement.ResponseFramingAgrees | crates/h11r/src/connection/receive.rs:277-322 | When the client polls a final response, it is the last head the server sent, and unless it opens a tunnel the reader is the one for the framing the server's writer started with. |
| Agreement.AnswersWithFraming | crates/h11r/src/connection/send.rs:203-204 | The framing the log records for a sent final head is the framing the server's writer starts with, unless the head opens a tunnel. |
| Agreement.DrainedEndpointsAgree | crates/h11r/src/connection/receive.rs:148-168 | In every state of the invariant with both endpoints drained: equal views if and only if neither has ended, or is about to end, a message whose end the other sees at another time. |
| Agreement.EndCanBeEarly | crates/h11r/src/connection/receive.rs:155 | For any request without content that a fresh client may send and the server's parser reads: sending its head, delivering it and polling twice leaves both endpoints drained with different views. |
| Agreement.DisagreementHappens | crates/h11r/src/connection/receive.rs:155 | The same for one concrete parser, one GET request and any fresh pair with room for its head: the disagreement is reachable. |
| Cycles.CyclesAgree | crates/h11r/src/connection/mod.rs:280-297 | Over any number of cycles, each reused once both endpoints are drained: in every one no poll fails, drained endpoints agree exactly when `EndUnseen` is false and then `start_next_cycle` succeeds on both or on neither, and content arrives as `Delivery.RunsDeliver` states. |
| Cycles.ReusedIsFresh | crates/h11r/src/connection/mod.rs:280-297 | Drained endpoints that both start their next cycle are again as good as new, so all of the above holds of that cycle too. |
| Delivery.RunsDeliver | crates/h11r/src/connection/receive.rs:404-474 | Over every such run, in each direction: the body bytes polled are a prefix of those sent; decoding buffer and channel yields exactly the rest; a polled end comes only after every byte, with the trailers its sender closed with; with nothing buffered or in the channel everything sent has been polled. |
| Delivery.StepTold | crates/h11r/src/connection/send.rs:366-425 | Each single send, delivery or poll keeps that account of both directions. |
| Transfers.MessageRoundTrip | crates/h11r/src/connection/send.rs:366-425 | For every list of pieces and trailers accepted by `send_data` calls and `end_of_message`: all their bytes decode to exactly the concatenated pieces, one chunk per non-empty piece under chunked framing; what is left is exactly the trailer section, or nothing for a plain body, and the decoder stops for the matching reason. |
| Transfers.FixedMessageIsExact | crates/h11r/src/connection/send.rs:366-425 | A fixed-length message is accepted if and only if its pieces add up to the declared length. |
| Payload.EndDecodes | crates/h11r/src/connection/send.rs:402-425 | The bytes of `end_of_message` alone decode to no content: they take a chunked decoder to its trailers and leave the section, and add nothing to a plain body. |
| Payload.PullIsDecode | crates/h11r/src/connection/receive.rs:324-451 | One bulk poll is a step of the byte-at-a-time reference decoder: it yields a front piece of the reference's tokens and leaves the reference the rest, or stops where and why the reference stops. |
| Bodies.ResumedScan | crates/h11r/src/wire/chunked.rs:62-75 | A CRLF search resumed where the last one gave up finds what a search from zero finds. |
| Sessions.BodyIsItsStream | crates/h11r/src/connection/receive.rs:324-488 | For every sequence of copies, holds, hand-overs, EOF and polls of a body: once drained, the events handed out spell exactly the tokens of one whole delivery (bytes and chunk boundaries); if polls ended the body, the cause, the decoder, the bytes left over and what the caller was told are those of one whole delivery. |
| Sessions.HoldingRefinesCopying | crates/h11r/src/connection/receive.rs:42-88 | Any two such call sequences over the same stream, one holding and one copying for example, show the same tokens when drained and the same ending, and what they have shown with what the reference decoder makes of the rest is the same whole. |
| Sessions.NothingIsLost | crates/h11r/src/connection/receive.rs:42-82 | At every point of such a sequence, bytes consumed, bytes held and bytes buffered spell the stream received, in order. |
| Sessions.PollReports | crates/h11r/src/connection/receive.rs:404-488 | One poll within a body hands out exactly the piece the decoder yields, or the end, wait or error that belongs to why it stopped, and leaves the input behind it. |
| Persistence.CloseAnnouncementIsExact | crates/h11r/src/connection/send.rs:177-202 | In every reachable server state, for every accepted final head that opens no tunnel: it carries the `close` option exactly as `keep_alive()` is false afterwards, if and only if the client actor is not Closed, or keep-alive was already off, or CONNECT was proposed, or the planned framing is close-delimited, or the given fields say `close`. With the client Closed the connection never persists. |
| Silence.SilenceHappens | crates/h11r/src/connection/send.rs:187-197 | One parser, one GET and five calls on any new server with room for the head lead to a state where a 204 is accepted, its head carries no `close`, and `keep_alive()` is false. |
| Persistence.OtherOptionsSurvive | crates/h11r/src/wire/fields.rs:52-66 | The other options of the `Connection` fields of a sent head are those it was given, in order. |
| Persistence.PromiseIsKept | crates/h11r/src/connection/send.rs:178-192 | After an accepted final head without `close`, with the client actor not Closed: the rest of the request is already held or buffered, draining it reaches EndOfMessage without NeedData or error, and once the response is ended `start_next_cycle` succeeds. |
| Persistence.ReuseSucceedsExactly | crates/h11r/src/connection/mod.rs:280-297 | In every reachable state `start_next_cycle` succeeds if and only if both actors are Done and, for a client, the input is empty; then keep-alive is on and no proposal is open. |
| Persistence.LossIsForever | crates/h11r/src/connection/mod.rs:142-150 | Once `keep_alive()` is false, after every later sequence of calls it is false and `start_next_cycle` fails. |
| Runs.RunsKeepInv | crates/h11r/src/connection/mod.rs:56-80 | Every run from a new connection keeps the coupling: `writer` is set exactly while the local actor sends a body, a peer in SendBody has a body reader, held bytes fit what the reader expects, and while a response is owed the remembered method and offers match the proposals. |
| Runs.StepInv | crates/h11r/src/connection/receive.rs:15-488 | Every single call, send, receive, hold, poll, cycle start, close, keeps that coupling. |
| Runs.RefusedSendsChangeNothing | crates/h11r/src/connection/send.rs:294-322 | From every reachable state, a refused send, complete-message send or `end_of_message` leaves the whole connection as it was, also when it fails part of the way through. |
| Runs.SendsStayInside | crates/h11r/src/connection/send.rs:294-322 | No send touches anything but the joint state and the cycle, so the snapshot `send_complete` takes covers all it can change. |
| Runs.DecodedEventIsAccepted | crates/h11r/src/connection/receive.rs:444-474 | In every reachable state, content, ends and trailers the decoder yields are never refused by the joint state. |
| Runs.ValidatedSwitchIsAccepted | crates/h11r/src/connection/mod.rs:188-271 | While a response is owed, a validated 101 or a tunnel-opening head names a switch the joint state accepts. |
| Histories.NoStaleAnswers | crates/h11r/src/connection/send.rs:26-30 | In every client run, across any number of reused cycles, each byte turned into a response head or body was received after that cycle's request was accepted. |
| Histories.PollingIsBounded | crates/h11r/src/connection/receive.rs:123-169 | However polls go, at most buffer length + 2 of them in a row yield an event, without new input, before NeedData, Paused, an error or a closed peer, for any parsers that consume at least one byte. |
| Histories.PollsStayReady | crates/h11r/src/connection/receive.rs:90-114 | A poll of a reachable connection leaves a reachable one that may be polled again. |
| Histories.NothingIsConsumedAfterSwitch | crates/h11r/src/connection/receive.rs:137-142 | Once both actors have switched, over every later run the input is what it was followed by everything received: no call consumes a byte. |
| Histories.UpgradeWaitsItsTurn | crates/h11r/src/connection/mod.rs:212-226 | Once a client has sent, or a server has polled, a request that asks for both 100-continue and an upgrade: in every later run that sees no 100 and no final response, no 101 is accepted or sent. |
| Histories.SwitchWaitsForContinue | crates/h11r/src/connection/mod.rs:228-256 | From any state with a 100-continue pending, every run that sees no 100 and no final response keeps it pending and sees no 101. |
| Histories.SwitchNamesOffers | crates/h11r/src/connection/mod.rs:259-271 | A 101 that is sent or polled comes while no 100 is still awaited, and its `Upgrade` fields name only protocols this cycle's request offered. |
| States.Confluence | crates/h11r/src/state.rs:153-214 | Any two accepted interleavings of the same client events and the same server events, with keep-alive disabled in both or neither, end in the same joint state. |
| States.RunsStaySettled | crates/h11r/src/state.rs:248-291 | Every run keeps the stored joint state at a fixed point of the coupled rules. |
| States.ShortcutIsFull | crates/h11r/src/state.rs:153-170 | In a settled state the body-data shortcut gives what the full transition with stabilization gives. |
| States.ReuseIsExact | crates/h11r/src/state.rs:235-246 | In every run both actors Done is exactly a reusable state: keep-alive on, no proposals. |
| States.LossIsPermanent | crates/h11r/src/state.rs:216-246 | A joint state that does not persist never persists again, whatever events follow. |
| States.SwitchOnlyAsOffered | crates/h11r/src/state.rs:171-204 | In every accepted run the server actor has switched only by a switch event of a kind the request proposed, and the client actor only after the server's switch and its own end of message. |
| JointStates.JointState.Stabilize | crates/h11r/src/state.rs:248-291 | The loop over coupled rules ends, at the state the rules' closed form gives. |
| JointStates.JointState.Process | crates/h11r/src/state.rs:153-214 | In place, the new state is that of `ProcessEvent`; a rejected event changes nothing. |
| Heads.SentRequestArrives | crates/h11r/src/connection/send.rs:22-62 | Every request head a client sends is one a server accepts, with the same framing, offers, persistence and 100-continue expectation, also after `Host` was moved first. |
| Heads.SentFinalArrives | crates/h11r/src/connection/send.rs:109-206 | Every final head a server sends is one a client reads with the framing planned for it and, unless it opens a tunnel, as persistent exactly when the server's keep-alive flag is on. |
| Fields.ScanIsListRule | crates/h11r/src/wire/fields.rs:218-323 | For every header list, framing decided from the flags of the streaming pass is framing decided from the flattened `Content-Length` elements and the transfer codings in order (section 6.3 of RFC 9112). |
| Fields.UnrelatedFieldIsFree | crates/h11r/src/wire/fields.rs:101-154 | Inserting a field the scan does not know at any place of any section, removing it or moving it, changes nothing the scan finds but where `Host` is. |
| Fields.ScanIgnoresTheRest | crates/h11r/src/wire/fields.rs:101-154 | Two sections with the same known fields in the same order scan alike, but for where `Host` is, whatever else they hold. |
| Fields.Scan | crates/h11r/src/wire/fields.rs:101-154 | The one streaming pass, with its nested loops over elements and codings, computes exactly what the section means by name and element lists. |
| Options.SetConnectionOptionIsExact | crates/h11r/src/wire/fields.rs:52-66 | Rewriting a persistence option keeps the other options in order, puts the new one last, leaves every other field alone, and the result has `close` or `keep-alive` exactly as set. |
| ChunkHeaders.ChunkHeaderIsExact | crates/h11r/src/wire/chunked.rs:19-60 | A chunk header is accepted with value `v` if and only if the line matches the chunk-size and chunk-ext grammar for the unbounded value `v` (any leading zeros, bad whitespace, quoted strings) and `v` fits 64 bits (sections 7.1 and 7.1.1 of RFC 9112). |
| ChunkHeaders.ParseChunkHeader | crates/h11r/src/wire/chunked.rs:19-60 | The cursor loop computes that header function for every line. |
| ChunkHeaders.ChunkSize | crates/h11r/src/lib.rs:109-120 | The fixed 18-byte array, filled from the end of the number, starts with exactly the size line: minimal hexadecimal digits and CRLF. |
| ChunkHeaders.SizeLineParses | crates/h11r/src/lib.rs:109-120 | The printed size parses back to the same 64-bit number, with no extension bytes and at most 16 digits. |
| Bytes.ParseNumberIsExact | crates/h11r/src/wire/chunked.rs:8-17 | The checked fold succeeds with `v` exactly on non-empty digit strings of unbounded value `v` below 2^64. |
| Buffers.RunIsPlainAndAmortised | crates/h11r/src/wire/buffer.rs:33-63 | Over every run of extend, consume and take the buffer holds what a plain queue holds, and compaction has moved no more bytes in total than were consumed. |
| Buffers.Buffer.Extend | crates/h11r/src/wire/buffer.rs:37-40 | Live contents gain exactly the new bytes, compaction included. |
| Buffers.Buffer.Compact | crates/h11r/src/wire/buffer.rs:41-50 | Live contents are unchanged; exactly when at least as much is dead as live, it moves the live bytes to the front and counts them. |
| Buffers.Buffer.Take | crates/h11r/src/wire/buffer.rs:51-63 | Returns the front bytes and leaves the rest. |
| Buffers.PollSection | crates/h11r/src/wire/buffer.rs:88-106 | The cursor loop computes the recursive scan from any position. |
| Buffers.DueSection | crates/h11r/src/wire/buffer.rs:77-87 | A parse is due exactly when the section has doubled since the last or its end was found, and the new progress records it. |
| Buffers.ResumedPoll | crates/h11r/src/wire/buffer.rs:88-106 | A scan resumed over a longer section ends where a fresh scan of the longer section from the same start would. |
| Buffers.FreshPollIsFirstEnd | crates/h11r/src/wire/buffer.rs:88-106 | A scan from the start finds the first end of section: an empty line, not counting leading ones when those are skipped. |
| Buffers.DoublingIsLinear | crates/h11r/src/wire/buffer.rs:77-87 | Over every growth of a section, the parses doubling triggers cover at most twice the final length in total. |
| Connections.Connection.NextEvent | crates/h11r/src/connection/receive.rs:90-169 | Updating the fields in place, a poll leaves exactly the connection value, and hands out exactly the event or error, of the value-level poll; the invariant holds after. |
| Connections.Connection.ReadChunked | crates/h11r/src/connection/receive.rs:324-402 | The mutually recursive reading of chunk lines, data and their ends terminates on shrinking input with the value and result of the reference poll. |
| Connections.Connection.NextEventInPlace | crates/h11r/src/connection/receive.rs:70-82 | Handing over held bytes moves decoder, held count and flags as the value-level hand-over does. |
| Connections.Connection.ReceiveData | crates/h11r/src/connection/receive.rs:22-36 | Appends the data, or records EOF, or refuses without a change, as the value-level call does. |
| Connections.Connection.SendRequest | crates/h11r/src/connection/send.rs:22-62 | In place, state, cycle and text are those of the value-level send; a refusal is a whole refusal. |
| Connections.Connection.SendResponse | crates/h11r/src/connection/send.rs:109-206 | The same for a final head, with its header list edited step by step. |
| Connections.Connection.SendRequestWithBody | crates/h11r/src/connection/send.rs:220-322 | The same for a complete request, including the restore of state and cycle when a later part is refused. |
| Connections.Connection.SendData | crates/h11r/src/connection/send.rs:330-392 | The same for body bytes. |
| Connections.Connection.EndOfMessage | crates/h11r/src/connection/send.rs:402-425 | The same for the end of a message with its trailers. |
| Connections.Connection.StartNextCycle | crates/h11r/src/connection/mod.rs:280-297 | In place, resets state and cycle exactly when the value-level call does. |

## Left out

- The byte syntax of heads and trailers (crates/h11r/src/wire/head.rs:9-144): parsers are parameters of every theorem, which promise only to consume at least one given byte. Host and request-target grammar are predicates shared by both roles.
- `ReadsRequest`, `ReadsResponse`, `ReadsTrailers`: in the two-endpoint theorems, a receiver's parser reads a sent text as the head or trailers it was made from, no sooner and no later, whatever follows, and the text fits the receiver's limits.
- `Patient`: in the same theorems, head parsers ask for more when given nothing.
- Agreement.RunsAgree: covers one cycle without errors, EOF or close, in which the server answers only a request it has received, and the copying receive path; `Cycles.CyclesAgree` covers any number of them; held bytes are tied to it by `Sessions.HoldingRefinesCopying`, complete-message sends by `Transfers.MessageRoundTrip` only for their body bytes.
- Cycles.CyclesAgree: both endpoints start their next cycle once both are drained; a client that starts its own while the server has yet to start is not covered.
- Delivery.RunsDeliver: a close-delimited response is ended for its receiver only by EOF, which these runs leave out, so its end is never polled in them.
- Sessions.HoldingRefinesCopying: a body that stops at its trailers is compared up to what the trailer parser then reports, which depends on when it is asked.
- Buffers.DoublingIsLinear: is stated for sections shorter than 2^63 bytes, beyond which doubling saturates.
- Histories.PollingIsBounded: takes the documented caller discipline that held bytes are handed over before a poll.
- Lenient parsing's dropped-line detection (crates/h11r/src/wire/head.rs:156-172) is a flag the response parser returns.
- Wrap-around of the chunk-extension counter and of held + buffered lengths: the extension counter is bounded by the head limit, and the total received is taken to be below 2^64.
- Error messages; errors carry a class and the suggested status.
- The storage layout and hashing of `Headers`, modelled as a sequence of name and value pairs, and capacity hints.
- `trailing_data`, `send_data_parts` and accessors that only read a field.
- The Python binding, examples, benchmarks and fuzz harnesses.
