# ArduCAM MEGA streaming firmware: a verified model

The firmware streams JPEG frames from a camera to browsers over one of two network
stacks, answers a small HTTP interface, and in a sibling example streams over UDP. This
project models that behaviour in Dafny and proves what each part is for.

| file | what it models |
|---|---|
| `LwipServer.dfy` | the lwIP server: the idle/sending/draining transmitter, the single response slot and the stream pointer, shared with callbacks that may run inside the send loop |
| `Ledger.dfy` | the acknowledgement counter against the bytes really in flight |
| `ZeroCopy.dfy` | what a byte queued without a copy may arrive as, while lwIP reads it from the capture buffer |
| `ToeServer.dfy` | the TOE server: four sockets, their roles, one stream owner, the blocking sender, and a chip that moves sockets on its own |
| `TwoStacks.dfy` | the same /load query on both servers |
| `Multipart.dfy`, `HttpReply.dfy`, `HttpReader.dfy`, `Bytes.dfy` | what is on the wire, and readers for it written from the receiving side |
| `UdpStream.dfy` | the packetiser on the board and the reassembler in the viewer |
| `QueryScan.dfy` | the in-place query scanners against a split-at-& specification |
| `JsonEscape.dfy` | the JSON string writer and a reader for section 7 of RFC 8259 |
| `CamState.dfy` | the failure streak and the one-second metrics window |
| `Controls.dfy` | the control table kept coherent with the sensor across its resets |

State changed in place is a class with those fields. Its methods are proved against a value
of the whole state (`Now()`) and an invariant over it (`Sound`, `Valid`); `Run` methods close
the invariants over arbitrary schedules, and the lemmas say what then holds in every
reachable state. The environment is adversarial: send-window sizes, refused writes,
acknowledgements, new clients, closes, errors, captures and chip transitions are arbitrary
choices. Each connection carries a log of what was queued on it and of the request it made
(`wires`, `links`); the invariants say what that log is. On the lwIP side every byte is also
tagged with where it is read from and what it may arrive as. What the environment answers to each
call is kept in a `log` that only the modelled calls extend; the contracts say from it why an
operation stopped short.

Where the code and its own comments or purpose part ways, the code is modelled:

- The transmitter's comments say that the capture waits until everything has been
  acknowledged, so that no JPEG is spliced from two frames (`server_lwip.c:91-98`). It waits
  for a counter from which acknowledgements of copied header bytes are subtracted too.
  `LwipServer.CapturedTooEarly` gives the runs in which the capture comes too early and what
  a receiver may then get; `LwipServer.DrainFreesBuffer` says exactly when the buffer is free,
  and `LwipServer.DrainLeavesAHeader` how far off it can be.
- A takeover does not clear the response slot, so the pump may go on writing to a closed
  connection: `LwipServer.TakeoverOrphans`, `LwipServer.TwoRequestsOrphan`.
- Clamping sends values from 32768 up to the minimum, not to the nearest bound:
  `Controls.ClampIsNearest`.
- The inline /api/clk scan takes the last of a repeated key and wraps at 2^32, the other route
  takes the first and refuses: `QueryScan.ClockRoutesAgree`, `QueryScan.ClockRoutesDiffer`.
- The guard against more than 255 packets compares a value already cut to 8 bits. Larger
  frames are sent short and reassembled short: `UdpStream.WholeExactlyWhen`. The board's
  buffer of 204800 bytes (its comment says 120 KB) keeps clear of this: `UdpStream.BoardFramesFit`.
- A reused frame id can splice two frames; `UdpStream.SpliceOnReuse` says exactly which.
- On the lwIP build a request served inside a send may restart the metrics window, and the
  parts may then add up to more than the period: `CamState.ResetDuringSend` says exactly
  when, and `CamState.Camera.Run` by how much at most.

Assumptions of the environment: `tcp_write` takes all bytes or none; acknowledgements arrive
in order and never exceed what was queued; the chip leaves Closed and Init only on the
firmware's command; `send` with space free takes at least one byte; the clock advances
between readings; sensor register writes succeed.

Dafny 4.11: `dafny verify dfyconfig.toml`.

## Model

| member | source | states |
|---|---|---|
| `LwipServer.EveryStreamReads` | example/WIZnet_ArduCAMMega_Exhibition/server_lwip.c:669-817 | in every reachable state the bytes as queued on a clean stream connection read, by a reader that trusts only the boundary line and Content-Length, as exactly the finished frames, each a whole JPEG of one single capture, whatever callbacks ran inside the send loop |
| `LwipServer.EveryReceiverReads` | example/WIZnet_ArduCAMMega_Exhibition/server_lwip.c:90-100 | the bytes as they arrive, each read from the capture buffer at any time until acknowledged and cut off anywhere, read as the first of those frames and never as one spliced from two captures, as long as every capture found what the connection reads from the buffer acknowledged |
| `LwipServer.Server.Run` | example/WIZnet_ArduCAMMega_Exhibition/server_lwip.c:669-817 | over any number of passes, any network and any camera: the transmit invariant (idle means all zero; sending means offset below size and size at least 2; draining means offset equals size; unacked never above offset; not idle means a stream exists), the stream grammar, the response prefix and the balanced books hold after every pass, and bytes on a connection are only ever appended |
| `LwipServer.Server.StreamPoll` | example/WIZnet_ArduCAMMega_Exhibition/server_lwip.c:669-817 | the camera is touched only from idle with streaming on; a frame is left unfinished only if its last write was refused or the window was closed 65 times in a row, as the answers of lwIP show, and otherwise drains with its line end offered; one captured and not started was no JPEG or its header had no room or was refused; a drained frame, or one that timed out, is let go, any other held; a capture leaves a connection intact exactly if it found all its buffer bytes acknowledged |
| `LwipServer.Server.PushJpeg` | example/WIZnet_ArduCAMMega_Exhibition/server_lwip.c:750-800 | the send loop ends after at most 65 * (size - offset + 1) passes with re-entrant callbacks, each asking for the window once and writing at most once; it stops short only with the stream gone, its last write on the stream refused, or 65 windows of it closed in a row; with every window open and every write accepted the whole JPEG is out |
| `LwipServer.Server.ServeInLoop` | example/WIZnet_ArduCAMMega_Exhibition/server_lwip.c:759-776 | running the network and the pump inside the loop asks nothing for the JPEG, leaves the buffer alone, and leaves the frame in progress, a new stream, or none |
| `LwipServer.Server.ContinueFrame` | example/WIZnet_ArduCAMMega_Exhibition/server_lwip.c:750-816 | a frame goes on to its line end, or is left for the next poll for one of those reasons |
| `LwipServer.Server.Service` | example/WIZnet_ArduCAMMega_Exhibition/server_lwip.c:669-817 | the same of a whole turn of the main loop: a frame is still going out after it only if lwIP took no more |
| `LwipServer.Server.CaptureFrame` | example/WIZnet_ArduCAMMega_Exhibition/server_lwip.c:709-722 | only a JPEG is kept; of every connection that still reads from the buffer, and of no other, the bytes not acknowledged may now arrive changed |
| `LwipServer.Server.StartFrame` | example/WIZnet_ArduCAMMega_Exhibition/server_lwip.c:705-747 | the answers it gets, in order: a capture, room for the header of a usable one, the header accepted; it starts the frame exactly if all three are good, with the size captured |
| `LwipServer.Server.SendHeader` | example/WIZnet_ArduCAMMega_Exhibition/server_lwip.c:724-746 | the header of as many bytes as the frame has goes out whole, if there is room for all of it, or not at all |
| `LwipServer.Server.PushChunk` | example/WIZnet_ArduCAMMega_Exhibition/server_lwip.c:780-798 | what is offered is exactly the next bytes of the JPEG, as many as the rest, the window and 1400 allow; a refused write changes nothing |
| `LwipServer.Server.FinishFrame` | example/WIZnet_ArduCAMMega_Exhibition/server_lwip.c:802-816 | the line end is offered on the stream, accepted or not, and the buffer held; after a takeover inside the loop the same code writes the one stray line end |
| `LwipServer.ClosedBytes` | example/WIZnet_ArduCAMMega_Exhibition/server_lwip.c:804-805 | the closing line end turns the part in progress into a finished one, and on a stream opened inside the loop becomes the stray line before the first boundary |
| `LwipServer.ChunkWireOk` | example/WIZnet_ArduCAMMega_Exhibition/server_lwip.c:793-798 | one more piece by reference keeps grammar and books, and a pending response on the same connection as it was |
| `LwipServer.StreamBelongsToAsker` | example/WIZnet_ArduCAMMega_Exhibition/server_lwip.c:308-360 | the stream pointer always names a connection that still has its callbacks, and one that made a single request made it for /stream |
| `LwipServer.OrphanAskedTwice` | example/WIZnet_ArduCAMMega_Exhibition/server_lwip.c:163-233 | JPEG bytes never go to a closed connection, and response bytes only to one that asked twice |
| `LwipServer.TakeoverOrphans` | example/WIZnet_ArduCAMMega_Exhibition/server_lwip.c:323-332 | a takeover leaves the slot naming a closed connection exactly when the slot named the old stream |
| `LwipServer.OnlyTakeoverOrphans` | example/WIZnet_ArduCAMMega_Exhibition/server_lwip.c:503-627 | no other step does |
| `LwipServer.TwoRequestsOrphan` | example/WIZnet_ArduCAMMega_Exhibition/server_lwip.c:323-332 | and it happens: a connection with an answer pending asks for the stream and is taken over |
| `LwipServer.Server.BeginStream` | example/WIZnet_ArduCAMMega_Exhibition/server_lwip.c:308-360 | the exact state after a takeover: the old stream released and detached with its frame cut short, the preamble offered on the new one, the transmitter reset |
| `LwipServer.OpenedOk` | example/WIZnet_ArduCAMMega_Exhibition/server_lwip.c:334-339 | a stream opened on an idle server satisfies the invariant, whether or not the unchecked preamble write was accepted |
| `LwipServer.Server.RespPump` | example/WIZnet_ArduCAMMega_Exhibition/server_lwip.c:163-233 | a pending response stays pending only if lwIP had no window for it or refused its last write; the slot is given back and the connection closed only once the whole response has been accepted; load is accounted byte for byte |
| `LwipServer.Server.PumpChunk` | example/WIZnet_ArduCAMMega_Exhibition/server_lwip.c:185-216 | the answers to one step: no window, or exactly the next bytes offered, as many as the segment, the window and 1400 allow |
| `LwipServer.Server.PumpPiece` | example/WIZnet_ArduCAMMega_Exhibition/server_lwip.c:199-216 | all of the piece or none of it, accounted only when it is body of a load |
| `LwipServer.EveryResponseIsPrefix` | example/WIZnet_ArduCAMMega_Exhibition/server_lwip.c:163-287 | the bytes accepted are a prefix of header and repeated body of the response to that connection's own request, and the load accounted is the body bytes accepted |
| `LwipServer.EveryClientReads` | example/WIZnet_ArduCAMMega_Exhibition/server_lwip.c:163-287 | however much of it has arrived: a client reads the status, type and body its request asks for exactly when all is there, and an incomplete response before |
| `LwipServer.Server.SendResponse` | example/WIZnet_ArduCAMMega_Exhibition/server_lwip.c:239-287 | the slot is taken whatever it held, the older connection keeping the prefix it has; the new response is pending, or whole with its connection closed |
| `LwipServer.Server.HttpRoute` | example/WIZnet_ArduCAMMega_Exhibition/server_lwip.c:375-500 | the request decides: the stream goes to this connection, or this connection is for exactly the response or load asked for, or nothing happens |
| `LwipServer.Server.RecvCb` | example/WIZnet_ArduCAMMega_Exhibition/server_lwip.c:527-580 | the peer's close closes the connection, whatever it was for; after a request it is the stream if it asked for it, is for the response it asked for, and unless streaming or pending has been closed; streaming is switched only by a request that says so |
| `LwipServer.Server.SentCb` | example/WIZnet_ArduCAMMega_Exhibition/server_lwip.c:515-525 | the exact state after an acknowledgement of any length, with invariant and books kept |
| `LwipServer.AckedStreamWire` | example/WIZnet_ArduCAMMega_Exhibition/server_lwip.c:515-525 | the saturating counter follows the ledger of everything queued and acknowledged |
| `LwipServer.Server.ErrCb` | example/WIZnet_ArduCAMMega_Exhibition/server_lwip.c:582-610 | the exact state after an error: only the connection named lets go, or, with no argument, the stream |
| `LwipServer.Server.CloseConn` | example/WIZnet_ArduCAMMega_Exhibition/server_lwip.c:503-513 | closing releases stream and slot if they name the connection, and is harmless when repeated |
| `LwipServer.Server.NetService` | example/WIZnet_ArduCAMMega_Exhibition/server_lwip.c:638-666 | any number of network events, the re-entry point of the send loop, keeps the invariant, the capture buffer and the frame in progress, unless the stream is gone or a new one has just been opened |
| `LwipServer.KeptTwice` | example/WIZnet_ArduCAMMega_Exhibition/server_lwip.c:759-776 | what callbacks may change composes, which is what lets them run inside the loop |
| `LwipServer.DrainLeavesAHeader` | example/WIZnet_ArduCAMMega_Exhibition/server_lwip.c:685-696 | a drain that ended by acknowledgements leaves at most a part header's length of JPEG unacknowledged, plus what was in flight when the frame began |
| `LwipServer.DrainFreesBuffer` | example/WIZnet_ArduCAMMega_Exhibition/server_lwip.c:685-696 | after a frame, no byte lwIP may still send is read from the buffer exactly when the callbacks have reported all that was in flight when the frame began, its header and its whole JPEG |
| `LwipServer.DrainEndsEarly` | example/WIZnet_ArduCAMMega_Exhibition/server_lwip.c:515-525 | from every idle stream with nothing in flight, for every chunking of the JPEG and every splitting of the acknowledgements: the drain ends when they add up to the JPEG alone |
| `LwipServer.CapturedTooEarly` | example/WIZnet_ArduCAMMega_Exhibition/server_lwip.c:685-747 | the capture then comes with as many JPEG bytes unacknowledged as the header has, and for every next capture a receiver may read a frame whose end is that of the new one |
| `LwipServer.AckedStreamDrains` | example/WIZnet_ArduCAMMega_Exhibition/server_lwip.c:515-525 | the counter is never above the bytes in flight, so a fully acknowledged connection always leaves draining |
| `Ledger.SlackAtMost` | example/WIZnet_ArduCAMMega_Exhibition/server_lwip.c:515-525 | bytes in flight minus the counter is never negative, and every earlier moment bounds it |
| `Ledger.SlackAttained` | example/WIZnet_ArduCAMMega_Exhibition/server_lwip.c:515-525 | some earlier moment attains that bound, so the gap is exactly the least of them |
| `Ledger.NothingLost` | example/WIZnet_ArduCAMMega_Exhibition/server_lwip.c:515-525 | what is queued is in flight or has been reported acknowledged |
| `Ledger.DrainedLeavesAtMost` | example/WIZnet_ArduCAMMega_Exhibition/server_lwip.c:685-692 | at most k bytes are in flight exactly when the callbacks have reported all that was queued but k |
| `Ledger.DrainedBound` | example/WIZnet_ArduCAMMega_Exhibition/server_lwip.c:685-692 | a zero counter leaves no more than what was in flight at the start and copied since |
| `Ledger.FullyAckedDrains` | example/WIZnet_ArduCAMMega_Exhibition/server_lwip.c:515-525 | nothing in flight means a zero counter |
| `Ledger.DrainedTooEarly` | example/WIZnet_ArduCAMMega_Exhibition/server_lwip.c:515-525 | for every header length, chunking and splitting of acknowledgements that add up to the JPEG, the counter is zero with the header's length too much in flight |
| `ZeroCopy.FreeWhenAcked` | example/WIZnet_ArduCAMMega_Exhibition/server_lwip.c:90-100 | no byte not acknowledged is read from the buffer exactly when the last one read from it has been acknowledged |
| `ZeroCopy.RecaptureOk` | example/WIZnet_ArduCAMMega_Exhibition/server_lwip.c:90-100 | a capture leaves every byte arriving only as queued if all that was read from the buffer had been acknowledged |
| `ZeroCopy.SettledExactly` | example/WIZnet_ArduCAMMega_Exhibition/server_lwip.c:90-100 | a capture disturbs a connection exactly if it changes a byte still to be read |
| `ZeroCopy.ArrivalStays` | example/WIZnet_ArduCAMMega_Exhibition/server_lwip.c:90-100 | what may have arrived still may after any later capture and write |
| `ZeroCopy.SplicedIsNeither` | example/WIZnet_ArduCAMMega_Exhibition/server_lwip.c:90-95 | a spliced frame is neither capture if they differ on both sides of the seam |
| `Multipart.ReadStreamInverts` | example/WIZnet_ArduCAMMega_Exhibition/server_lwip.c:308-334 | reading the header, an optional stray line, whole parts and a cut part, with the boundary the header declares, gives back the whole frames and nothing else |
| `Multipart.BoundaryDeclared` | example/WIZnet_ArduCAMMega_Exhibition/server_toe.c:235-241 | the stream header reads as lines whose Content-Type declares the boundary the parts are delimited by |
| `Multipart.PreambleCut` | example/WIZnet_ArduCAMMega_Exhibition/server_toe.c:258-261 | a header cut anywhere reads as no stream |
| `Multipart.ReadStreamPrefix` | example/WIZnet_ArduCAMMega_Exhibition/server_lwip.c:308-334 | any prefix of such a stream reads as the first of the frames |
| `Multipart.ReadPartsInverts` | example/WIZnet_ArduCAMMega_Exhibition/server_toe.c:297-317 | a sequence of parts reads back, frame contents unrestricted, even when they contain the boundary |
| `Multipart.ReadWhole` | example/WIZnet_ArduCAMMega_Exhibition/server_toe.c:297-317 | a printed part followed by anything reads back as its frame and what follows |
| `Multipart.ReadCut` | example/WIZnet_ArduCAMMega_Exhibition/server_toe.c:309-317 | a part cut anywhere before its last byte reads as no part |
| `Multipart.PartsNoCrlf` | example/WIZnet_ArduCAMMega_Exhibition/server_lwip.c:804-805 | parts never start with the line end that may precede them |
| `Bytes.DecValue` | example/WIZnet_ArduCAMMega_Exhibition/server_toe.c:297-302 | the decimal length in a header is read back as the number printed |
| `HttpReply.LengthIsTrue` | example/WIZnet_ArduCAMMega_Exhibition/server_lwip.c:244-264 | the printed Content-Length is the number of body bytes exactly when that number fits 32 bits |
| `HttpReply.HeaderFits` | example/WIZnet_ArduCAMMega_Exhibition/server_lwip.c:256-263 | a header with the longest status, type and cache texts in use never fills the 256-byte buffer |
| `HttpReply.ReplyReads` | example/WIZnet_ArduCAMMega_Exhibition/server_lwip.c:239-287 | a receiver that reads lines up to the blank one, fields by name and as many bytes as Content-Length says gets back status, type and exactly the body blocks, and of anything cut short nothing; for all texts without carriage returns and all lengths below 2^32 |
| `HttpReply.LoadReads` | example/WIZnet_ArduCAMMega_Exhibition/server_lwip.c:401-412 | the same of the load response: every KB asked for, or the answer to none |
| `HttpReply.CopiesAt` | example/WIZnet_ArduCAMMega_Exhibition/server_lwip.c:174-178 | byte i of repeat q is byte i of the block |
| `HttpReply.HeaderReads` | example/WIZnet_ArduCAMMega_Exhibition/server_toe.c:147-165 | any printed header and body read back as that status, type and body |
| `HttpReply.HeaderCut` | example/WIZnet_ArduCAMMega_Exhibition/server_toe.c:147-165 | and cut anywhere, as an incomplete response |
| `HttpReply.HeadsAgree` | example/WIZnet_ArduCAMMega_Exhibition/server_toe.c:147-154 | the TOE build prints the header line by line as the lwIP build does |
| `HttpReply.LogoHeadsAgree` | example/WIZnet_ArduCAMMega_Exhibition/server_toe.c:357-365 | also for the logo, with its own cache line |
| `HttpReply.LoadHeadsAgree` | example/WIZnet_ArduCAMMega_Exhibition/server_toe.c:197-204 | also for a load, one length being blocks times repeats and the other KB times 1024 |
| `HttpReply.WrittenIsPrefix` | example/WIZnet_ArduCAMMega_Exhibition/server_lwip.c:163-217 | wherever the pump stands, what it has handed over is a prefix of header and repeated body |
| `HttpReply.WrittenRollsOver` | example/WIZnet_ArduCAMMega_Exhibition/server_lwip.c:174-183 | the end of a segment is the start of the next copy, or the end of it all |
| `HttpReply.WrittenGrows` | example/WIZnet_ArduCAMMega_Exhibition/server_lwip.c:194-210 | the next piece of the current segment continues the response |
| `HttpReply.BlocksOut` | example/WIZnet_ArduCAMMega_Exhibition/server_toe.c:212-219 | after some blocks and part of the next, a prefix of the whole load of known length is out |
| `HttpReply.Filler` | example/WIZnet_ArduCAMMega_Exhibition/net_load.c:22-34 | byte i of the filler block |
| `ToeServer.Server.Run` | example/WIZnet_ArduCAMMega_Exhibition/server_toe.c:477-599 | over any number of passes, any chip, clients and camera: one stream role at most, named by the owner index; whole units on every connection that may still be written; bytes only appended; nothing more on a disconnected connection |
| `ToeServer.Server.Service` | example/WIZnet_ArduCAMMega_Exhibition/server_toe.c:593-599 | every pass looks at every socket |
| `ToeServer.Server.SocketRun` | example/WIZnet_ArduCAMMega_Exhibition/server_toe.c:477-564 | one turn of one socket, after any chip activity and a look at its state, keeps all that; the owner stays, or goes, or is this socket with a stream freshly opened on a connection that asked for it |
| `ToeServer.Server.Turn` | example/WIZnet_ArduCAMMega_Exhibition/server_toe.c:483-561 | case by case what a turn does: an established socket is asked for a request, which is answered, or its stream for a frame; half-closed ones are released and disconnected; closed ones released and opened, open ones set listening, exactly if the chip says so; all others left alone |
| `ToeServer.Server.ServeStream` | example/WIZnet_ArduCAMMega_Exhibition/server_toe.c:489-494 | with streaming on a capture is made; the roles stay, or nobody owns the stream and the connection is over because a send was cut short |
| `ToeServer.Server.SendPart` | example/WIZnet_ArduCAMMega_Exhibition/server_toe.c:309-317 | one whole part more, or a strict prefix of it |
| `ToeServer.StreamBelongsToAsker` | example/WIZnet_ArduCAMMega_Exhibition/server_toe.c:233-267 | the stream role and the owner index agree, at most one exists, and it belongs to the very connection that asked, standing on a part boundary |
| `ToeServer.EveryStreamReads` | example/WIZnet_ArduCAMMega_Exhibition/server_toe.c:269-325 | whoever asked for the stream got no whole preamble, or reads whole JPEGs of single captures and then at most one unfinished part |
| `ToeServer.EveryClientReads` | example/WIZnet_ArduCAMMega_Exhibition/server_toe.c:143-221 | however much of an answer has arrived: a client reads the status, type and body its request asks for exactly when all is there, and an incomplete response before |
| `ToeServer.TruncationIsFinal` | example/WIZnet_ArduCAMMega_Exhibition/server_toe.c:489-530 | a connection cut inside a preamble, a part or a response is never written again |
| `ToeServer.Server.SendAll` | example/WIZnet_ArduCAMMega_Exhibition/server_toe.c:102-141 | a nonnegative result means all of the buffer in order, a negative one a strict prefix; it terminates; it gives up exactly at the first answer to give up for, which is the last it got: the socket not established, a negative send, whose result it returns, or a reading of the clock two seconds or more after progress that found no space |
| `ToeServer.GoingPass` | example/WIZnet_ArduCAMMega_Exhibition/server_toe.c:107-138 | what each outcome of a pass means for the whole send |
| `ToeServer.ClockGoes` | example/WIZnet_ArduCAMMega_Exhibition/server_toe.c:118-123 | a reading of the clock without space ends the send if it is two seconds or more after progress, and only then |
| `ToeServer.Server.SendPass` | example/WIZnet_ArduCAMMega_Exhibition/server_toe.c:113-136 | the answers to one pass, in order, and its outcome: the socket lost; no space, which is no error; or a piece offered and its error, or at least one byte of it taken |
| `ToeServer.Server.SendChunk` | example/WIZnet_ArduCAMMega_Exhibition/server_toe.c:125-131 | what is offered is exactly the start of the rest, as much as it, the free space and 1460 allow |
| `ToeServer.Server.BeginStream` | example/WIZnet_ArduCAMMega_Exhibition/server_toe.c:233-267 | takeover: the old stream is disconnected on a part boundary and gets nothing more; with the preamble out the socket owns the stream, otherwise nobody does |
| `ToeServer.TakenOverOk` | example/WIZnet_ArduCAMMega_Exhibition/server_toe.c:250-256 | the owner loses the role and is disconnected without disturbing the connection being served |
| `ToeServer.StreamedOk` | example/WIZnet_ArduCAMMega_Exhibition/server_toe.c:258-266 | with the preamble out, giving the socket role and ownership restores the invariant |
| `ToeServer.Server.PushFrame` | example/WIZnet_ArduCAMMega_Exhibition/server_toe.c:269-325 | nothing while streaming is off; otherwise one capture: if it is no JPEG nothing goes out, if it is one it goes out as one whole part more, or as a part cut short, because a send was, on a connection that is over |
| `ToeServer.Server.PushJpeg` | example/WIZnet_ArduCAMMega_Exhibition/server_toe.c:297-317 | a captured JPEG goes out as one whole part more, or the connection is over |
| `ToeServer.CutIsEnded` | example/WIZnet_ArduCAMMega_Exhibition/server_toe.c:309-317 | a stream cut anywhere inside a part is fit only to be disconnected |
| `ToeServer.Server.ServeLoad` | example/WIZnet_ArduCAMMega_Exhibition/server_toe.c:185-221 | success means the whole load response; the global count moves by what this connection has accounted; cut off, it is a prefix with every whole block accounted |
| `ToeServer.LoadCut` | example/WIZnet_ArduCAMMega_Exhibition/server_toe.c:208-219 | header, some blocks and part of the next are a prefix of the answer, with the blocks accounted and less than one block missing |
| `ToeServer.Server.SendResponse` | example/WIZnet_ArduCAMMega_Exhibition/server_toe.c:143-165 | success means header and body out; failure a prefix on a connection that is over; nothing counted as load |
| `ToeServer.Server.HttpRoute` | example/WIZnet_ArduCAMMega_Exhibition/server_toe.c:340-474 | the stream role only for a stream request whose preamble went out; everything else leaves role and owner alone and ends the connection, with the whole answer out unless a send was cut short; streaming is switched only by a request that says so |
| `ToeServer.Server.ServeRequest` | example/WIZnet_ArduCAMMega_Exhibition/server_toe.c:497-531 | what is read decides: nothing, and nothing changes; or a request, which is answered |
| `ToeServer.Server.AnswerRequest` | example/WIZnet_ArduCAMMega_Exhibition/server_toe.c:512-530 | the request opens the stream, or its connection is disconnected with the whole answer out, or without if none could be composed or a send was cut short |
| `ToeServer.Server.Disconnect` | example/WIZnet_ArduCAMMega_Exhibition/server_toe.c:529-542 | the exact state after a disconnect, and that the invariant returns with it |
| `ToeServer.Server.ReleaseStreamSocket` | example/WIZnet_ArduCAMMega_Exhibition/server_toe.c:224-231 | the role goes, and the ownership if it was this socket's; no other socket changes |
| `ToeServer.ChipMovedOk` | example/WIZnet_ArduCAMMega_Exhibition/server_toe.c:483-561 | the chip's own transitions and new clients keep the invariant, even during a send |
| `TwoStacks.LoadsAgree` | example/WIZnet_ArduCAMMega_Exhibition/server_toe.c:185-221 | for every /load query both stacks send prefixes of one and the same response; completed ones are equal and account the same total; cut off at the same byte, the TOE count is short by 0 to 1023 |
| `QueryScan.QueryReads` | example/WIZnet_ArduCAMMega_Exhibition/cam_controls.c:154-182 | a number a client writes for a key, in decimal and anywhere among other parameters, is the value of the key, refused above 65535; for /load clamped to 256 |
| `QueryScan.QueryAbsent` | example/WIZnet_ArduCAMMega_Exhibition/cam_controls.c:178-181 | without the key there is no value, and no load |
| `QueryScan.NumberOfDecimal` | example/WIZnet_ArduCAMMega_Exhibition/cam_controls.c:166-169 | the value of a number's decimal text is the number |
| `QueryScan.SplitJoined` | example/WIZnet_ArduCAMMega_Exhibition/cam_controls.c:159-161 | parameters joined with & are split into the same parameters |
| `QueryScan.SegmentsJoin` | example/WIZnet_ArduCAMMega_Exhibition/cam_controls.c:159-161 | splitting loses nothing |
| `QueryScan.ClockSets` | example/WIZnet_ArduCAMMega_Exhibition/server_lwip.c:472-490 | both clock routes set the dividers a client writes, if they fit a register |
| `QueryScan.QueryU32` | example/WIZnet_ArduCAMMega_Exhibition/cam_controls.c:154-182 | the scanner equals splitting at & and taking the first value, refused without digits or above 65535 |
| `QueryScan.ParseKb` | example/WIZnet_ArduCAMMega_Exhibition/net_load.c:36-59 | the scanner equals the same split, clamped to 256, 0 when unusable |
| `QueryScan.ReadUpTo` | example/WIZnet_ArduCAMMega_Exhibition/cam_controls.c:166-176 | the guarded digit loop reads the number the digits denote or knows it exceeds the limit, and never overflows 32 bits |
| `QueryScan.ReadWrapping` | example/WIZnet_ArduCAMMega_Exhibition/server_lwip.c:475-477 | the unguarded digit loop reads the number modulo 2^32 |
| `QueryScan.ClockInline` | example/WIZnet_ArduCAMMega_Exhibition/server_lwip.c:472-490 | the inline scan equals the split with the last occurrence of each key, wrapped |
| `QueryScan.ClockGuarded` | example/WIZnet_ArduCAMMega_Lwip_Web_Streaming/httpd_stream.c:485-495 | the other route equals the split with the first occurrence, refused above 65535 |
| `QueryScan.ValuesStep` | example/WIZnet_ArduCAMMega_Exhibition/cam_controls.c:159-161 | what an index of the scan adds is what its segment of the split holds |
| `QueryScan.SegmentMatches` | example/WIZnet_ArduCAMMega_Exhibition/cam_controls.c:159-167 | key and digits found in the query are those of the segment |
| `QueryScan.ClockRoutesAgree` | example/WIZnet_ArduCAMMega_Exhibition/server_lwip.c:472-490 | on queries without repeated keys the two routes decide alike exactly unless a value of 2^32 or more wraps into range |
| `QueryScan.ClockRoutesDiffer` | example/WIZnet_ArduCAMMega_Exhibition/server_lwip.c:472-490 | for every choice of values, with the key repeated the routes set different dividers exactly when its values differ |
| `UdpStream.SendJpegFrame` | example/WIZnet_ArduCAMMega_UDP_Streaming/main.c:166-221 | the packets of the frame go to sendto in order until one fails, whose error is returned, or all have been accepted; the errors for no JPEG and a zero count; the 8-bit count it really uses |
| `UdpStream.FlagMarksLast` | example/WIZnet_ArduCAMMega_UDP_Streaming/main.c:195-198 | the header bytes: id, number, count, and a flag on the last packet announced and no other |
| `UdpStream.FillPacket` | example/WIZnet_ArduCAMMega_UDP_Streaming/main.c:195-200 | the four header bytes and the slice, with the last-packet flag |
| `UdpStream.ChunksTile` | example/WIZnet_ArduCAMMega_UDP_Streaming/main.c:190-193 | chunks are nonempty, at most 1396 bytes, and tile the frame |
| `UdpStream.CountNarrows` | example/WIZnet_ArduCAMMega_UDP_Streaming/main.c:184-188 | the 8-bit count is the packet count exactly up to 255 * 1396 bytes, and never larger |
| `UdpStream.BoardFramesFit` | example/WIZnet_ArduCAMMega_UDP_Streaming/main.c:184-188 | every frame of 2 to 204800 bytes takes at most 147 packets, so the guard never fires |
| `UdpStream.WholeExactlyWhen` | example/WIZnet_ArduCAMMega_UDP_Streaming/main.c:184-221 | what can be reassembled from a transmission is the frame exactly up to 255 * 1396 bytes |
| `UdpStream.Assembler.Add` | example/WIZnet_ArduCAMMega_UDP_Streaming/jpeg_stream_gui.py:44-55 | the new dictionaries and the result of one packet |
| `UdpStream.NoSplice` | example/WIZnet_ArduCAMMega_UDP_Streaming/jpeg_stream_gui.py:40-55 | under loss, repetition and reordering, with one frame per id, every call returns nothing or exactly the frame sent under that id |
| `UdpStream.SpliceOnReuse` | example/WIZnet_ArduCAMMega_UDP_Streaming/jpeg_stream_gui.py:48-54 | with an id used for two frames of any length up to 255 packets: some delivery returns something that is neither exactly when, of as many packets, they differ in two, or, of different counts, the shorter has two packets or is not the start of the longer |
| `UdpStream.WovenArrives` | example/WIZnet_ArduCAMMega_UDP_Streaming/jpeg_stream_gui.py:48-54 | every frame woven from the slices of two of as many packets is returned on some delivery |
| `UdpStream.OutputIsWoven` | example/WIZnet_ArduCAMMega_UDP_Streaming/jpeg_stream_gui.py:48-54 | and nothing else is, on any |
| `UdpStream.SpliceOfUnequal` | example/WIZnet_ArduCAMMega_UDP_Streaming/jpeg_stream_gui.py:48-54 | the condition for frames of different packet counts |
| `UdpStream.FaithfulRun` | example/WIZnet_ArduCAMMega_UDP_Streaming/jpeg_stream_gui.py:40-55 | every entry holds only chunks of its own frame, in their own slots |
| `UdpStream.CollectingRun` | example/WIZnet_ArduCAMMega_UDP_Streaming/jpeg_stream_gui.py:48-53 | an entry holds exactly the packets delivered, and is gone once the frame is whole |
| `UdpStream.Reassembled` | example/WIZnet_ArduCAMMega_UDP_Streaming/jpeg_stream_gui.py:44-55 | packets each delivered at most once, in any order, among any others: the call that completes the set, and only that one, returns the slices joined, and no entry is left |
| `UdpStream.FrameArrives` | example/WIZnet_ArduCAMMega_UDP_Streaming/main.c:166-221 | the packets send_jpeg_frame hands over, in any order and among any others: the last of them, and only that, makes add return exactly the frame, and no entry is left; for every frame up to 255 packets |
| `UdpStream.SentOnceEach` | example/WIZnet_ArduCAMMega_UDP_Streaming/main.c:190-214 | a permutation of the packets of a frame is each of them once |
| `JsonEscape.Write` | example/WIZnet_Discord_Test/discord.c:62-99 | succeeds exactly when the escaped text and its NUL fit, and is then that text |
| `JsonEscape.EscapeReadsBack` | example/WIZnet_Discord_Test/discord.c:62-99 | section 7 of RFC 8259 reads the escaped text back as the original bytes, up to the closing quote and no further |
| `JsonEscape.ReadEscapedByte` | example/WIZnet_Discord_Test/discord.c:70-95 | each of the cases reads back as its one byte, whatever follows |
| `JsonEscape.EscapeHasNoNul` | example/WIZnet_Discord_Test/discord.c:66-98 | escaped text holds no NUL, so the C string ends where the text does |
| `JsonEscape.PostBody` | example/WIZnet_Discord_Test/discord.c:101-119 | a body exists exactly when the escaped text fits its buffer, and then always fits the body buffer |
| `JsonEscape.PostedContent` | example/WIZnet_Discord_Test/discord.c:110-119 | the body reads as a JSON object of one member, named content, whose value is exactly the message, and nothing follows it |
| `CamState.FrameBudget` | example/WIZnet_ArduCAMMega_Exhibition/cam_state.c:257-276 | milliseconds per frame times ten times the rate never exceed 10000 by more than the times noted exceed the window, despite the divisions and 32-bit casts; the same with the drain |
| `CamState.Camera.Run` | example/WIZnet_ArduCAMMega_Exhibition/cam_state.c:202-295 | over frames, updates, failures, drops, drains and resets in any order and for any times: every rollover keeps that bound, with what a frame in progress had taken when a reset cut into it; if no reset does, it keeps 10000 itself |
| `CamState.Camera.PushFrame` | example/WIZnet_ArduCAMMega_Exhibition/server_toe.c:269-325 | in the TOE call order a frame is in the window, or in the averages just reported, with exactly its times; no reset cuts into it, and a rollover keeps the bound |
| `CamState.Camera.Reset` | example/WIZnet_ArduCAMMega_Exhibition/cam_state.c:186-200 | a requested recovery restarts the window in the middle of whatever is in progress, which is all it carries over |
| `CamState.ResetDuringSend` | example/WIZnet_ArduCAMMega_Exhibition/server_lwip.c:434-437 | for every capture, send time, moment of a reset inside the send and wait to the rollover: exactly when the frame then exceeds the period, and never if what followed the send outlasts what came before the reset |
| `CamState.RatesAreAverages` | example/WIZnet_ArduCAMMega_Exhibition/cam_state.c:266-273 | the rate is the frames counted per ten seconds and every part the average over them, each rounded down once, for all totals the report can hold |
| `CamState.KbpsIs` | example/WIZnet_ArduCAMMega_Exhibition/cam_state.c:284-286 | the load is what was served, in kbit/s rounded down |
| `CamState.Camera.RollOver` | example/WIZnet_ArduCAMMega_Exhibition/cam_state.c:266-294 | a rollover reports those averages, clears all of the window and keeps the bound |
| `CamState.Camera.MetricsUpdate` | example/WIZnet_ArduCAMMega_Exhibition/cam_state.c:257-295 | the window rolls over exactly after a second; until then nothing changes |
| `CamState.Camera.NoteCaptureFail` | example/WIZnet_ArduCAMMega_Exhibition/cam_state.c:208-222 | the sensor is recovered exactly at every tenth failure in a row |
| `CamState.Camera.NoteCaptureOk` | example/WIZnet_ArduCAMMega_Exhibition/cam_state.c:224-227 | a capture ends the run of failures |
| `Controls.Panel.Run` | example/WIZnet_ArduCAMMega_Exhibition/cam_controls.c:137-224 | over any requests, resolution changes, recoveries and clock changes: a control ever set has its register equal to its value in range, and the registers ever written are exactly those of the controls ever set |
| `Controls.Panel.ApplyQuery` | example/WIZnet_ArduCAMMega_Exhibition/cam_controls.c:184-224 | every control named with a usable value gets the clamped value, all others keep theirs; the count; refused exactly when some raw value was out of range |
| `Controls.MatchedIs` | example/WIZnet_ArduCAMMega_Exhibition/cam_controls.c:184-223 | the count returned is that of the controls named with a usable value |
| `Controls.Panel.ApplyAll` | example/WIZnet_ArduCAMMega_Exhibition/cam_controls.c:137-147 | after the sensor has lost everything, the registers mirror the table again, writing only what was ever set |
| `Controls.Panel.ApplyResolution` | example/WIZnet_ArduCAMMega_Exhibition/cam_state.c:166-184 | the page shows the same values before and after, and the registers mirror them |
| `Controls.Panel.Reinitialise` | example/WIZnet_ArduCAMMega_Exhibition/cam_state.c:186-200 | the same for a recovery or a clock change |
| `Controls.Panel.ApplyOne` | example/WIZnet_ArduCAMMega_Exhibition/cam_controls.c:194-221 | one control of the table left alone, or clamped, kept and written, as the query says |
| `Controls.Panel.SetOne` | example/WIZnet_ArduCAMMega_Exhibition/cam_controls.c:201-217 | one control clamped, kept and written, and whether it was clamped |
| `Controls.Panel.Prime` | example/WIZnet_ArduCAMMega_Exhibition/cam_controls.c:91-105 | the defaults are filled in once, without changing what the page shows |
| `Controls.ClampIsNearest` | example/WIZnet_ArduCAMMega_Exhibition/cam_controls.c:201-213 | a raw value becomes the nearest one in range exactly below 32768; above, the cast makes it the minimum |
| `Controls.TableIsOk` | example/WIZnet_ArduCAMMega_Exhibition/cam_controls.c:43-59 | the shipped table has distinct registers and sane ranges |

## Left out

- LwipServer.EveryStreamReads: claimed for connections that made one request and on which the writes whose result the server ignores (preamble, closing line end) were accepted; others keep only the ledger and the append-only property.
- LwipServer.EveryReceiverReads: the capture buffer changes all at once when a frame is captured, not byte by byte while the camera is read out; a reader in the middle of it sees the old or the new content.
- LwipServer.EveryResponseIsPrefix: claimed for the same connections; a second response takes the single slot, so a connection is promised a prefix, not all of it.
- LwipServer.Server.SendResponse: the response body is held by value; the status and header buffers the C code reuses between responses while lwIP may still point at them are not modelled; only the capture buffer is.
- LwipServer.DrainLeavesAHeader: is about drains that ended by acknowledgements; the drain timeout and a takeover reset the counter with bytes in flight.
- LwipServer.Server.NetService: draining the chip until it is empty is any finite number of events; pools and polling timers of lwIP are not modelled.
- LwipServer.Server.RespPump: the counter of load bytes is unbounded, and so is the TOE one; taking and clearing it is in `CamState` only.
- ToeServer.Server.PushFrame: metrics calls around the sends are modelled in `CamState`, not here.
- ToeServer.Server.SocketRun: the chip's SYN states are folded into Listen, and its interrupt flags are left out.
- ToeServer.Server.Disconnect: waiting for the chip to close is a choice between closed and closing.
- UdpStream.SendJpegFrame: the wait for transmit space before each packet has no effect on what is sent and may not end; it is left out.
- UdpStream.NoSplice: holds for at most 256 frames with distinct ids, as ids are 8 bits wide; two frames under one id are `SpliceOnReuse`, three or more are not treated.
- JsonEscape.EscapeReadsBack: the reader has no surrogate pairs, which the writer never produces.
- CamState.Camera.Run: the times come as parameters, code between two waits takes none, and the 64-bit accumulators are unbounded.
- Controls.Panel.Run: the driver's defaults after a reset are arbitrary and differ from reset to reset.
- A connection is a fresh name; lwIP reusing the address of a control block is not modelled.
- Socket options, priorities, flush calls, logging, build stamps, SRAM figures and the resolution strings are left out.
- LwipServer.EveryClientReads: for status, type and cache texts without a carriage return, which all texts in the source are, and bodies below 2^32 bytes; the same of `ToeServer.EveryClientReads`.
- HttpReply.ReplyReads: the reader knows field names only as they are printed, not in other case.
- CamState.RatesAreAverages: for totals whose averages fit 32 bits; beyond that the casts drop the rest.
- Routing by literal path is a choice of action; status, page, logo and 404 bodies are arbitrary bytes.
- The UDP command handler, the viewer's window, the photo upload, TLS, the sensor driver and PIO/DMA are not part of this model.
- The TCP example and the earlier servers repeat this logic without the response repeats; their scanner route is `QueryScan.ClockGuarded`.
