# AgoraIM network core, modelled and proved in Dafny

AgoraIM serves TCP and HTTP with one event loop per thread. This project models the parts of that
core whose behaviour spans many calls, and proves what they guarantee over every run.

| file | models |
|---|---|
| `Bytes.dfy`, `Wrappers.dfy` | searching bytes, line ends, decimals; optional values |
| `ByteBuffer.dfy` | the growable byte buffer with its two indexes |
| `HttpMessage.dfy`, `HttpParser.dfy` | the request record, the resumable parser |
| `HttpPrinter.dfy` | the response printer, and a receiver that decodes its output |
| `TcpStream.dfy` | one connection: states, buffers, sending, half-close, user callbacks that call back in |
| `HttpService.dfy` | the message handler, and what a client can get out of it |
| `LoopHandOff.dfy` | handing functors to a loop across threads |
| `Lifecycle.dfy` | accepted connections across loops, from construction to destruction |
| `LifecycleLimits.dfy` | exactly which steps that protocol must rule out |
| `LifecycleSteps.dfy` | the events of a connection are runs of that protocol |
| `LifecycleDispatch.dfy` | from what poll reports to the callbacks that run, and queued functors in order |
| `ConnectionTable.dfy` | the server's map of connections, whose methods are steps of that protocol |
| `Timers.dfy` | the ordered timer set, its alarm, its ownership of timers |
| `Polling.dfy` | channels and the kernel's interest set |
| `Connecting.dfy` | connecting with retry |

Classes mirror the objects of the C++ code and change in place. Each method is proved against a function
on values (`Parse`, `Called`, `ReadHandled`, ...), and the theorems are about runs of those functions.
Where several threads interleave, the model is a state machine whose actions are the atomic steps.

The kernel answers through parameters: `write` takes any prefix of what it is offered or fails, `readv`
delivers any bytes that fit or fails, `connect` has one of three outcomes, poll reports any registered
channels. A callback of the user is a finite tree of calls, so that a callback may cause callbacks.

## Where the code does less than its name says

Each of these comes with the exact condition under which it happens.

- A connection that sends an empty message while the direct write fails starts waiting for a writable
  event with nothing to write. From then on no writable event completes a `shutdown()`.
  `ShutdownCompletesExactly` says that this wait is the only obstacle, `NonEmptySendsComplete` that runs
  whose sends are all nonempty, at every depth of callbacks, never meet it, and `EmptySendWaitsExactly`
  that on an idle connection an empty message is all the kernel needs.
- `shutdownWrite` is called twice when a writable event takes the last byte of a connected connection and
  its write-complete callback calls `shutdown()` with nothing left to write and does not force-close
  (`SecondShutdownExactly`, a condition on the callback's script), and never a third time.
- A functor that the loop's own thread queues before `loop()` has no wakeup, and the first poll blocks on
  it. `NoLostWakeup` is an equivalence with this as the only exception, and `StuckPollExactly` says which
  states at `loop()` can lead to a stuck poll: work queued, counter zero, no thread about to wake the loop.
- The assertion in `handleClose` can fail. From a reachable state, a step can be followed by steps within
  the rules to that failure if and only if it is one of two (`DisciplineIsExact`): a poll that reports
  EPOLLHUP and EPOLLPRI without EPOLLIN for some channel, which runs its close and then its read callback;
  or a force-close of a live connection for which the same poll reported EPOLLHUP, EPOLLIN or EPOLLPRI and
  whose turn in the batch is still to come. Force-closing one that is only reported writable, or with an
  error alone, does no harm. Any code of the user can get there: a callback, a functor, a timer. It is not
  enough that connections are closed by their own callbacks only, since a send to another, idle connection
  runs that one's write-complete callback at once (`SendCanCloseTooEarly`).
- A retry that fires before the deferred `resetChannel` of the previous attempt has its new channel
  destroyed under it, and the poller keeps a dangling pointer, exactly when its connect did not fail at
  once (`EarlyRetryLosesAttempt`). In all other runs the deferred reset only destroys channels that have
  left the poller (`ResetsAreSafe`).
- The bound max(1032, R + 2L + 7) on a buffer's array is not reached when nothing is readable at any
  append, or when sliding always suffices. `SizeBoundIsTight` gives the exact worst case.
- A cancel is effective exactly for timers in the set. One that waits to be added or has expired is
  left as it is (`CancelWorksExactly`).
- A response is recovered by a receiver if and only if its message, names and values are free of CRLF and its
  names are free of colons and differ from the two generated ones (`FramingExactly`). The printer does not
  check this.
- The request grammar is the code's own, not that of RFC 9112: values keep leading blanks, the first
  line without a colon ends the header section even when it is not empty, names are not checked.

## Model

| member | source | states |
|---|---|---|
| `ByteBuffer.Buffer.constructor` | src/net/buffer.cpp:14-17 | A new buffer is empty, with 8 bytes in front and 1024 behind. |
| `ByteBuffer.Buffer.Retrieve` | src/net/buffer.cpp:35-41 | Drops the oldest bytes, or everything when asked for at least all; the indexes stay in bounds. |
| `ByteBuffer.Buffer.RetrieveAll` | src/net/buffer.cpp:43-46 | Nothing stays readable and both indexes return to the front. |
| `ByteBuffer.Buffer.RetrieveAsString` | src/net/buffer.cpp:48-53 | What is handed out followed by what stays is what was readable. |
| `ByteBuffer.Buffer.RetrieveUntil` | src/net/buffer.cpp:133-135 | Drops exactly the bytes before a position inside the readable part. |
| `ByteBuffer.Buffer.MakeSpace` | src/net/buffer.cpp:75-86 | Sliding or reallocating makes the room and is the identity on the readable bytes; says which of the two happens. |
| `ByteBuffer.Buffer.EnsureWritableBytes` | src/net/buffer.cpp:69-73 | Afterwards there is room, and nothing readable changed. |
| `ByteBuffer.Buffer.Append` | src/net/buffer.cpp:59-63 | Appends exactly the data behind the readable bytes, whatever moved. |
| `ByteBuffer.Buffer.AppendString` | src/net/buffer.cpp:65-67 | The overload has the same effect, on the readable bytes and on the allocation. |
| `ByteBuffer.Buffer.ReadFd` | src/net/buffer.cpp:88-114 | The two-part read appends exactly the bytes delivered, in order; a failed read changes nothing. |
| `ByteBuffer.RunIsFifo` | src/net/buffer.cpp:35-114 | Over any run of appends, retrievals and reads, what is readable is everything written minus the prefix already taken. |
| `ByteBuffer.AppendBound` | src/net/buffer.cpp:59-86 | One append grows the array to no more than its old size or readable + 2 len + 7. |
| `ByteBuffer.SizeBound` | src/net/buffer.cpp:59-114 | A bound on readable bytes R and append length L bounds the array by max(1032, R + 2L + 7) over any run, reads included. |
| `ByteBuffer.FreshSizeBound` | src/net/buffer.cpp:14-114 | The same from a new buffer. |
| `ByteBuffer.Perform` | src/net/buffer.cpp:35-114 | A buffer object goes through any run of appends, retrievals and reads as the values do, in contents, indexes and array size. |
| `ByteBuffer.WorstRunReaches` | src/net/buffer.cpp:59-86 | From a new buffer, a concrete run of appends and one retrieval reaches the worst case for R and L. |
| `ByteBuffer.RunKeepsRoomy` | src/net/buffer.cpp:35-114 | No run exceeds that worst case; a drained buffer starts over at the front. |
| `ByteBuffer.SizeBoundIsTight` | src/net/buffer.cpp:14-114 | For all R and L the largest array over all runs from a new buffer is, exactly: 1032 if L is 0 or R + L + 7 < 1032, otherwise L + 8 if R is 0, otherwise R + 2L + 7. |
| `Bytes.FirstLineEnd` | src/net/buffer.cpp:127-131 | A CRLF with none before it is the one the search returns. |
| `Bytes.LineSplit` | src/net/buffer.cpp:127-131 | The search finds the first CRLF or proves that there is none, and splits the bytes there. |
| `Bytes.LineEndIsStable` | src/net/buffer.cpp:127-131 | More bytes never move a line end that was found, also when a CR was last. |
| `Bytes.DecimalRoundTrip` | src/net/http/http_response.cpp:24-25 | Reading a printed length gives the length back. |
| `HttpMessage.HttpRequest.AddHeader` | include/agora/net/http/http_request.h:43-45 | The last value of a key wins; the rest of the record is as before. |
| `HttpMessage.HttpRequest.Swap` | include/agora/net/http/http_request.h:57-63 | The two records exchange their whole values. |
| `HttpMessage.NamesReadBack` | src/net/http/http_context.cpp:61-94 | Each method and version name is recognized as itself. |
| `HttpMessage.NamesAsSpelled` | src/net/http/http_context.cpp:63-94 | The names, letter by letter: which texts are which method or version, and that no other text is one. |
| `HttpMessage.SpelledLineIsRead` | src/net/http/http_context.cpp:56-101 | A request line spelled from method, target and version is read into exactly those. |
| `HttpMessage.AcceptedExactly` | src/net/http/http_context.cpp:56-101 | A line is accepted if and only if it is method, blank, a target without blanks, blank, version. |
| `HttpMessage.RereadingIsIdempotent` | src/net/http/http_context.cpp:56-101 | Processing a line again, also a bad one, changes nothing more and answers the same. |
| `HttpMessage.RefusedLineLeaves` | src/net/http/http_context.cpp:56-101 | What a refused line leaves in the record: nothing without a known method, the method without a second blank, method and target otherwise. |
| `HttpMessage.TargetIsSplit` | src/net/http/http_context.cpp:80-89 | A target is split at its first question mark; without one the query stays what it was. |
| `HttpParser.HttpContext.ParseRequest` | src/net/http/http_context.cpp:13-54 | The loop over the mutable buffer leaves state, record, unread bytes and answer as the function on values says; it ends because unread bytes shrink. |
| `HttpParser.HttpContext.TakeRequestLine` | src/net/http/http_context.cpp:18-28 | One round of the loop at the request line, with a line, without one, and with a refused one. |
| `HttpParser.HttpContext.TakeHeaderLine` | src/net/http/http_context.cpp:29-45 | One round of the loop at a header line. |
| `HttpParser.HttpContext.ProcessHeaderLine` | src/net/http/http_context.cpp:32-42 | A line with a colon adds its field; a line without one ends the headers. |
| `HttpParser.HttpContext.ProcessRequestLine` | src/net/http/http_context.cpp:56-101 | Succeeds if and only if the line is spelled by the grammar, and leaves the record as the function on values, also on failure. |
| `HttpParser.HttpContext.SetTarget` | src/net/http/http_context.cpp:82-89 | Path, question mark and query are the target again, with no question mark in the path; without one the query stays. |
| `HttpParser.HttpContext.Reset` | src/net/http/http_context.cpp:103-107 | The context is as new; unread bytes are not touched. |
| `HttpParser.ParseResumes` | src/net/http/http_context.cpp:13-54 | From any parser state, parsing, receiving more and parsing again equals parsing everything at once: state, record, unread bytes and answer. |
| `HttpParser.SegmentationIndependence` | src/net/http/http_context.cpp:13-54 | However a byte string is cut into pieces with a call after each, the end is that of one call; also in the middle of CRLF and after a bad line. |
| `HttpParser.HeaderBlockIsParsed` | src/net/http/http_context.cpp:29-45 | Header lines, then a line without a colon, are consumed exactly, and their fields are in the record. |
| `HttpParser.ParsedIsHeaderBlock` | src/net/http/http_context.cpp:29-45 | Conversely, whatever was parsed to the end was such a block. |
| `HttpParser.ParsesExactly` | src/net/http/http_context.cpp:13-101 | A request with a given record and unread rest comes out if and only if the bytes spell its head followed by that rest. |
| `HttpParser.RejectsExactly` | src/net/http/http_context.cpp:17-28 | The answer is false if and only if there is a whole first line and it is no request line; then nothing is consumed. |
| `HttpParser.FirstLineDecides` | src/net/http/http_context.cpp:17-45 | The answer depends on the first line alone. |
| `HttpParser.HeadersNeverReject` | src/net/http/http_context.cpp:29-50 | No header line makes the parser answer false. |
| `HttpParser.FieldMapHoldsEach` | src/net/http/http_context.cpp:34-37 | With distinct names, each written field is in the map with its value and nothing else is. |
| `HttpParser.FieldLinesAreRead` | src/net/http/http_context.cpp:29-45 | Printed fields come back as their map. |
| `HttpParser.TargetIsRead` | src/net/http/http_context.cpp:80-89 | A printed target splits back into path and query. |
| `HttpParser.PrintedIsParsed` | src/net/http/http_context.cpp:13-101 | A printed request, whatever follows, is read back into its meaning and leaves what follows unread. |
| `HttpParser.PipelineRoundTrip` | src/net/http/http_context.cpp:13-107 | n pipelined requests, parsed and reset n times, come out in order; exactly the unprinted suffix stays unread. |
| `HttpPrinter.HttpResponse.AppendToBuffer` | src/net/http/http_response.cpp:5-40 | Appends one message behind what the buffer held, for some order of the header map. |
| `HttpPrinter.HttpResponse.AppendStatus` | src/net/http/http_response.cpp:6-11 | Exactly the status line joins the buffer. |
| `HttpPrinter.HttpResponse.AppendFields` | src/net/http/http_response.cpp:13-21 | The loop over an unordered map writes each header once, in the order it visits them. |
| `HttpPrinter.HttpResponse.AppendGenerated` | src/net/http/http_response.cpp:23-33 | The length of the body and the closing value follow the fields, in this order. |
| `HttpPrinter.HttpResponse.AddHeader` | include/agora/net/http/http_response.h:36-38 | The last value of a key wins. |
| `HttpPrinter.HeadIsSplit` | src/net/http/http_response.cpp:35-36 | The blank line is found exactly behind the header lines, whatever the body holds. |
| `HttpPrinter.FieldsAreRead` | src/net/http/http_response.cpp:13-21 | Fields are read back as the map that was visited, in any visiting order. |
| `HttpPrinter.GeneratedAreRead` | src/net/http/http_response.cpp:23-33 | The two generated fields are read back as length and closing value. |
| `HttpPrinter.StatusIsRead` | src/net/http/http_response.cpp:6-11 | The status line is read back as code and message. |
| `HttpPrinter.CodesAreTheProtocols` | include/agora/net/http/http_response.h:11-18 | Each status has its number. |
| `HttpPrinter.BareResponse` | src/net/http/http_response.cpp:5-40 | A response without headers of its own, letter by letter. |
| `HttpPrinter.FieldOnTheWire` | src/net/http/http_response.cpp:13-21 | A header field, letter by letter. |
| `HttpPrinter.BodyIsCut` | src/net/http/http_response.cpp:23-39 | Content-Length cuts the body exactly where it ends. |
| `HttpPrinter.FramingRoundTrip` | src/net/http/http_response.cpp:5-40 | From the output followed by any bytes a receiver recovers code, message, header map, close flag and body, and stops at the last byte. |
| `HttpPrinter.DecodedIsPrintable` | src/net/http/http_response.cpp:5-40 | Whatever bytes are decoded as a reply, its texts are free of line ends and its names legible. |
| `HttpPrinter.FramingExactly` | src/net/http/http_response.cpp:5-40 | So a reply is recovered from the printer's output, for any header order and any following bytes, if and only if it is printable. |
| `TcpStream.TcpConnection.ConnectEstablished` | src/net/tcp_connection.cpp:58-68 | One UP callback with whatever it calls; needs the Connecting state that the code asserts. |
| `TcpStream.TcpConnection.ConnectDestroyed` | src/net/tcp_connection.cpp:70-83 | A DOWN callback if the connection was still connected; in any case the poller forgets the channel. |
| `TcpStream.TcpConnection.Send` | src/net/tcp_connection.cpp:85-91 | Accepts the message exactly in the connected state. |
| `TcpStream.TcpConnection.SendBuffer` | src/net/tcp_connection.cpp:92-97 | As send of the bytes; empties the buffer exactly when connected, also when it is the connection's own input. |
| `TcpStream.TcpConnection.SendInLoop` | src/net/tcp_connection.cpp:99-139 | Direct write, leftover and write-complete callback as on values, for every answer of the kernel. |
| `TcpStream.TcpConnection.Shutdown` | src/net/tcp_connection.cpp:141-146 | Leaves the connected state once and half-closes unless still writing. |
| `TcpStream.TcpConnection.ShutdownInLoop` | src/net/tcp_connection.cpp:148-156 | One more call of shutdownWrite, with what the kernel has then, unless a write is pending. |
| `TcpStream.TcpConnection.ForceClose` | src/net/tcp_connection.cpp:158-164 | Closes a connected or half-closed connection and does nothing else. |
| `TcpStream.TcpConnection.HandleRead` | src/net/tcp_connection.cpp:166-187 | Data go to the message callback, the end of the stream closes, an error does nothing. |
| `TcpStream.TcpConnection.HandleWrite` | src/net/tcp_connection.cpp:189-215 | The kernel takes a prefix of the buffer; when it is empty the callback runs first and a pending half-close second. |
| `TcpStream.TcpConnection.HandleClose` | src/net/tcp_connection.cpp:217-239 | Disconnected, one DOWN callback, one close callback after it. |
| `TcpStream.TcpConnection.GoDown` | src/net/tcp_connection.cpp:224-232 | Disconnected and without events first, then one DOWN callback with whatever it calls. |
| `TcpStream.TcpConnection.RunCalls` | src/net/tcp_connection.cpp:110-204 | A re-entrant callback acts on the objects as on values, however deep it nests. |
| `TcpStream.DeadCalls` | src/net/tcp_connection.cpp:85-164 | Once disconnected, no call of any callback touches anything but the received bytes. |
| `TcpStream.LateCalls` | src/net/tcp_connection.cpp:85-164 | While half-closed, calls of a callback have an effect on the stream if and only if one of them is a force-close. |
| `TcpStream.CallIsSound` | src/net/tcp_connection.cpp:85-164 | Each call, with all it re-enters, keeps conservation and moves the connection forward only. |
| `TcpStream.WriteIsSound` | src/net/tcp_connection.cpp:189-215 | So does each writable event. |
| `TcpStream.EventIsSound` | src/net/tcp_connection.cpp:58-239 | So does each event of the loop. |
| `TcpStream.StreamIsConserved` | src/net/tcp_connection.cpp:85-239 | Over every run, bytes the kernel took followed by buffered bytes are the accepted messages in order; buffered bytes of a live connection are always being written. |
| `TcpStream.HalfCloseIsGraceful` | src/net/tcp_connection.cpp:113-215 | shutdownWrite happens only when the kernel has every accepted byte; nothing is written afterwards; after shutdown() the connection is writing or half-closed. |
| `TcpStream.CallsShutOnce` | src/net/tcp_connection.cpp:141-164 | A callback shuts down the write side once at most, and only if it was not before. |
| `TcpStream.CallsSetMood` | src/net/tcp_connection.cpp:85-164 | What a callback makes of its connection (writing, half-closed, closed) can be read off its script. |
| `TcpStream.SecondShutdownExactly` | src/net/tcp_connection.cpp:189-215 | A writable event calls shutdownWrite twice if and only if it takes the last byte of a connected connection and the callback's script half-closes it with nothing left to write. |
| `TcpStream.ShutDownTwiceAtMost` | src/net/tcp_connection.cpp:58-239 | Over any run shutdownWrite is called twice at most, and no later event calls it again. |
| `TcpStream.CallsDo` | src/net/tcp_connection.cpp:85-164 | What code of the user gets accepted, drops from the input and lets the kernel take can be read off its script, callbacks it re-enters included. |
| `TcpStream.EventIsAsScripted` | src/net/tcp_connection.cpp:58-239 | Every event runs exactly its callback, where the connection then stands, with all bytes received and not yet dropped: received data the message callback, end of stream and hang-up the DOWN callback and one close, the last byte written the write-complete callback. What is left is what that script does; an error on reading does nothing. |
| `TcpStream.ShutdownDrains` | src/net/tcp_connection.cpp:189-215 | Writable events that take at least a byte each bring all bytes to the kernel within as many events as bytes are buffered, and complete a pending shutdown unless a write-complete callback force-closes. |
| `TcpStream.ShutdownCompletesExactly` | src/net/tcp_connection.cpp:141-215 | Some writable events with some callbacks complete a pending shutdown if and only if the connection is not waiting to write an empty buffer. |
| `TcpStream.NonEmptyRunNeverWaits` | src/net/tcp_connection.cpp:58-239 | A run whose sends are nonempty at every depth of callbacks never waits to write an empty buffer. |
| `TcpStream.NonEmptySendsComplete` | src/net/tcp_connection.cpp:85-215 | So after such a run from a new connection a pending shutdown can complete. |
| `TcpStream.EmptySendWaitsExactly` | src/net/tcp_connection.cpp:99-139 | On an idle connected connection, with callbacks that send nothing empty, a kernel answer exists that makes a send end in that wait if and only if its message is empty; a failed write does so whatever the callback. |
| `TcpStream.EmptySendBlocksShutdown` | src/net/tcp_connection.cpp:99-156 | A run from a new connection that ends there: no series of writable events completes its shutdown. |
| `HttpService.HttpServer.OnMessage` | src/net/http/http_server.cpp:29-58 | Parser, responder, connection and reset act on the objects as the handler on values does, for some header order. |
| `HttpService.HttpServer.SendReply` | src/net/http/http_server.cpp:37-56 | One serialized response, then half-close or a fresh parser. |
| `HttpService.HttpServer.PrintReply` | src/net/http/http_server.cpp:39-49 | The handler's response is printed into a buffer of its own. |
| `HttpService.HttpServer.Refuse` | src/net/http/http_server.cpp:32-35 | One 400 line, then half-close. |
| `HttpService.HttpServer.FillResponse` | src/net/http/http_server.cpp:39-46 | The user's response, or without a handler 404, Not Found, closing, with no headers and no body. |
| `HttpService.RefusalIsRead` | src/net/http/http_server.cpp:32-35 | The refusal is read as status 400 and an ended header section with nothing behind it. |
| `HttpService.BuiltInReply` | src/net/http/http_server.cpp:43-46 | The built-in reply, letter by letter. |
| `HttpService.DecidedStays` | src/net/http/http_server.cpp:29-58 | Once the received bytes decide the answer, no later byte changes it, though the handler runs again. |
| `HttpService.ArrivalFollows` | src/net/http/http_server.cpp:29-58 | A piece of input keeps: what was accepted for sending is the answer to all bytes received. |
| `HttpService.EventFollows` | src/net/http/http_server.cpp:29-58 | So does any event on the connection. |
| `HttpService.SingleReply` | src/net/http/http_server.cpp:29-58 | If the response to the request that arrived closes, what is accepted is nothing, one 400 line or one response, as a function of the concatenated input. |
| `HttpService.CutsDoNotMatter` | src/net/http/http_server.cpp:29-58 | Two connections that received the same bytes, cut and written differently, got the same answer. |
| `HttpService.ClientSeesReply` | src/net/http/http_server.cpp:29-58 | End to end: a client that writes a well-formed request, cut anyhow and followed by anything, decodes exactly the handler's reply. |
| `HttpService.LastPiece` | src/net/http/http_server.cpp:37-56 | The piece that completes a request whose response keeps the connection: that response is sent, and the session is as new for the next request. |
| `HttpService.KeepAliveServesAll` | src/net/http/http_server.cpp:29-58 | n requests one after the other, each cut anyhow up to its last byte, with keep-alive responses: exactly the n responses are accepted, in order, and the connection is open with a fresh parser and nothing unread. |
| `HttpService.KeepAliveThenReply` | src/net/http/http_server.cpp:29-58 | After that, whatever arrives is answered as on a new connection. |
| `HttpService.EventIsTheConnections` | src/net/http/http_server.cpp:29-58 | An arrival is a readable event of the connection whose message callback makes the handler's calls: consume, refuse, reply, half-close. |
| `HttpService.WireCarriesAnswer` | src/net/http/http_server.cpp:29-58 | At every time, what the kernel took followed by what is buffered is the one answer to the bytes received. |
| `LoopHandOff.EventLoop.QueueInLoop` | src/net/event_loop.cpp:108-117 | Appends, and wakes the loop from other threads and during a pass. |
| `LoopHandOff.EventLoop.Wakeup` | src/net/event_loop.cpp:119-125 | A wakeup adds one to the eventfd counter, so none is absorbed by another. |
| `LoopHandOff.EventLoop.Quit` | src/net/event_loop.cpp:72-78 | Asks the loop to end, and wakes it from other threads. |
| `LoopHandOff.EventLoop.RunInLoop` | src/net/event_loop.cpp:100-106 | Runs at once on the loop's thread, with a wakeup for what it queues during a pass only; is queued with a wakeup otherwise. |
| `LoopHandOff.EventLoop.Run` | src/net/event_loop.cpp:163-166 | One functor is executed once and what it queues is appended in order. |
| `LoopHandOff.EventLoop.HandleRead` | src/net/event_loop.cpp:147-153 | Reading the eventfd takes the whole counter. |
| `LoopHandOff.EventLoop.DoPendingFunctors` | src/net/event_loop.cpp:155-169 | Runs exactly the functors that were pending when the pass began, in order; what they queue is pending afterwards with one wakeup each. |
| `LoopHandOff.PassIsARun` | src/net/event_loop.cpp:155-169 | That pass is a run of the interleaved protocol. |
| `LoopHandOff.RoundIsARun` | src/net/event_loop.cpp:56-67 | A whole round of the loop, with or without a wakeup reported, takes the wakeup, runs all that is pending and returns to its head. |
| `LoopHandOff.StepKeepsFifo` | src/net/event_loop.cpp:108-169 | Every atomic step keeps: everything pushed in lock order is executed, then the rest of the batch, then pending. |
| `LoopHandOff.StepKeepsAwake` | src/net/event_loop.cpp:56-169 | Every atomic step keeps: before and in poll, pending work means a positive counter or a wakeup under way. |
| `LoopHandOff.NoLostWakeup` | src/net/event_loop.cpp:56-153 | Every interleaving from loop() on is wakeable if and only if nothing was queued before without a wakeup; then poll with work or quit and idle producers always has an event. |
| `LoopHandOff.StuckPollExactly` | src/net/event_loop.cpp:56-125 | From loop() on some interleaving ends in a poll that nothing will wake, though there is work, if and only if work is queued at the start, the counter is zero and no other thread is about to wake the loop. |
| `LoopHandOff.EarlyLoopPushIsNotWoken` | src/net/event_loop.cpp:108-117 | A functor that the loop thread queued before loop(): poll blocks on it. |
| `LoopHandOff.QueueIsFifo` | src/net/event_loop.cpp:108-169 | In every reachable state the queue is first in, first out and exactly once. |
| `LoopHandOff.NextPassRunsAll` | src/net/event_loop.cpp:155-169 | Whatever was queued before a swap has been executed when the pass after it is over. |
| `LoopHandOff.PassRunsItsSnapshot` | src/net/event_loop.cpp:155-169 | In any interleaving, until the next swap the functors that run are the snapshot, in order and no others; all of it once the pass is over. |
| `LoopHandOff.PassEnds` | src/net/event_loop.cpp:155-169 | From a swap on, functors that queue functors cannot lengthen the pass: it executes as many as were pending and then has none left. |
| `LoopHandOff.CounterCountsWakeups` | src/net/event_loop.cpp:119-153 | The eventfd counter is the number of wakeups since it was last read. |
| `LoopHandOff.QuitEndsLoop` | src/net/event_loop.cpp:56-78 | Over any run the loop ends at its first test after a quit request, never before one, and runs nothing afterwards. |
| `LifecycleSteps.CallsArePlayed` | src/net/tcp_connection.cpp:85-164 | Whatever calls code of the user makes on its connection, with all they re-enter, is a run of the protocol's steps on one thread. |
| `LifecycleSteps.EventIsPlayed` | src/net/tcp_connection.cpp:58-239 | So is each event of a connection, for every answer of the kernel and all callbacks; states, callbacks and registration agree at its end. |
| `Lifecycle.EffectIsOk` | src/net/tcp_connection.cpp:58-239 | Each callback or functor meets the state that its assertion demands, and passes its connection on to one successor only. |
| `Lifecycle.EffectMovesToken` | src/net/tcp_server.cpp:57-102 | Each step moves the connection's one outstanding duty (establish, close callback, remove, destroy) to the loop where it is due and neither loses nor copies it. |
| `Lifecycle.PollKeepsLoop` | src/net/epoll_poller.cpp:58-64 | What poll reports is fixed per channel until it is dispatched, and is about connections that are alive. |
| `Lifecycle.DispatchKeepsLoop` | src/net/channel.cpp:11-24 | The close or read callback that a report leads to never meets a closed connection; the write callback may. |
| `LifecycleDispatch.ReportStartsCallbacks` | src/net/channel.cpp:11-24 | Dispatching a report puts on the thread exactly the callbacks its bits ask for, each once, close before read before write, and none for an error alone. |
| `LifecycleDispatch.ReportsGoInOrder` | src/net/event_loop.cpp:56-66 | Reports are those of the last poll, dispatched one after the other; nothing else adds, drops or reorders one, and functors run only when none is left. |
| `LifecycleDispatch.WritableIsServed` | src/net/tcp_connection.cpp:189-215 | A connection that waits to write and is reported writable has thread steps that end the wait and bring its write-complete callback first. |
| `LifecycleDispatch.WaitsUntilDispatch` | src/net/event_loop.cpp:56-66 | Over any run in which its loop dispatches nothing, a connection that waits to write goes on waiting or is closed. |
| `LifecycleDispatch.ReadableIsServed` | src/net/tcp_connection.cpp:166-176 | One reported readable has a step that brings its message callback first. |
| `LifecycleDispatch.HangupIsServed` | src/net/tcp_connection.cpp:217-239 | One reported with a hang-up and no data is closed, with its DOWN callback and the server's close callback next. |
| `LifecycleDispatch.PassKeepsOrder` | src/net/event_loop.cpp:155-169 | Swapping, starting a functor and ending a pass neither lose nor repeat nor reorder what a loop has ahead, functors of the user included. |
| `LifecycleDispatch.PassTakesAll` | src/net/event_loop.cpp:155-169 | A pass starts the next functor while there is one, and ends only then. |
| `LifecycleDispatch.QueuedIsBehind` | src/net/event_loop.cpp:108-117 | A functor that code of the user queues stands behind everything its loop has ahead. |
| `LifecycleDispatch.TimerRunsCode` | src/net/timer_queue.cpp:143-147 | A timer's callback is what its thread does next, and it can close any live connection of its loop. |
| `LifecycleDispatch.LoopGoesOn` | src/net/event_loop.cpp:47-70 | No loop is ever stuck: in every reachable state it has a step within the rules. |
| `Lifecycle.TimerKeepsLoop` | src/net/event_loop.cpp:60-64 | A timer's callback between two events, which may reach any connection of the loop, keeps the invariant. |
| `Lifecycle.AcceptKeepsInv` | src/net/tcp_server.cpp:57-84 | A new connection is established once, on its own loop. |
| `Lifecycle.StepKeepsInv` | src/net/tcp_server.cpp:57-102 | Every atomic step of any loop keeps the protocol's invariant, which includes that no assertion has failed. |
| `Lifecycle.StepAdvances` | src/net/tcp_connection.cpp:58-239 | Every step moves every connection forward only, and none that is destroyed. |
| `Lifecycle.LifecycleProtocol` | src/net/tcp_server.cpp:57-102 | For any number of loops and any interleaving that takes none of the steps ruled out, with callbacks, functors and timers that send to, shut down and force-close any connection of their loop: no assertion fails, at most one UP, then at most one DOWN, states only forward, connectDestroyed at most once and last. |
| `Lifecycle.HeldUntilDestroyed` | src/net/tcp_server.cpp:80-101 | The server's map or a queued or running functor or callback holds every connection not yet destroyed. |
| `Lifecycle.Lifetime` | src/net/event_loop.cpp:56-66 | In every reachable state whatever is being dispatched or run, or still stands in the batch, is about a connection that is held. |
| `LifecycleLimits.DoomComes` | src/net/tcp_connection.cpp:217-239 | Once a connection is closed while its close or read callback is still to come, on the thread or from its report in the batch, steps in which every callback just returns lead to the failed assertion, whatever stands before it. |
| `LifecycleLimits.DisciplineIsExact` | src/net/channel.cpp:11-24 | From a reachable state, a step can be followed by steps within the rules to a failed assertion if and only if it is one that the protocol rules out. |
| `LifecycleLimits.UrgentDataBreaksExactly` | src/net/channel.cpp:11-24 | For a poll this means: if and only if some channel is reported with hang-up and urgent and without ordinary data. |
| `LifecycleLimits.ForceCloseBreaksExactly` | src/net/tcp_connection.cpp:158-164 | For a force-close of a live connection: if and only if what is left of the batch has a report for it with hang-up, ordinary or urgent data, at any place, from any depth of callbacks. |
| `LifecycleLimits.SendCanCloseTooEarly` | src/net/tcp_connection.cpp:113-120 | From every reachable state in which code of the user runs while the close or read callback of an idle connected connection is still to come from the batch: a run in which connections are force-closed by their own callbacks only and an assertion fails. |
| `ConnectionTable.NamesAreDistinct` | src/net/tcp_server.cpp:62-62 | Two connections never share a name. |
| `ConnectionTable.TcpServer.constructor` | src/net/tcp_server.cpp:11-27 | A new server has no connections and owes no loop anything. |
| `ConnectionTable.TcpServer.NewConnection` | src/net/tcp_server.cpp:57-84 | The map gains one entry under an unused name; map, counter and queues follow the protocol's accept step. |
| `ConnectionTable.TcpServer.RemoveConnection` | src/net/tcp_server.cpp:86-89 | On the base loop removal happens at once, elsewhere it is queued there; both follow the protocol. |
| `ConnectionTable.TcpServer.RemoveConnectionInLoop` | src/net/tcp_server.cpp:91-102 | Erasing by name takes out this connection and no other, and its destruction is queued on its own loop. |
| `Timers.TimerQueue.ResetTimerfd` | src/net/timer_queue.cpp:46-57 | Setting the timerfd counts down anew and drops an unread expiry. |
| `Timers.TimerQueue.AddTimer` | src/net/timer_queue.cpp:81-91 | The new timer is owned by its queued functor. |
| `Timers.TimerQueue.Insert` | src/net/timer_queue.cpp:190-208 | One entry joins the ordered set; says whether the earliest changed. |
| `Timers.TimerQueue.AddTimerInLoop` | src/net/timer_queue.cpp:124-133 | The timer moves from its functor to the set, and the alarm is set when it is the earliest. |
| `Timers.TimerQueue.CancelInLoop` | src/net/timer_queue.cpp:98-122 | The scan finds the first entry with that pointer; erases, deletes and re-arms, or does nothing. |
| `Timers.TimerQueue.GetExpired` | src/net/timer_queue.cpp:153-165 | Everything before the sentry moves from the set to the batch. |
| `Timers.TimerQueue.RunCallback` | src/net/timer_queue.cpp:143-147 | A callback that adds and cancels acts on the objects as on values. |
| `Timers.TimerQueue.HandleRead` | src/net/timer_queue.cpp:135-151 | Expiry, re-entrant callbacks, reset and alarm on the object are those on values, and no freed timer is touched. |
| `Timers.TimerQueue.Reset` | src/net/timer_queue.cpp:167-188 | Every timer of the batch goes back or is deleted; the alarm is set for the earliest. |
| `Timers.TimerQueue.ResetTimer` | src/net/timer.cpp:20-26 | A repeater restarts one interval after now, a one-shot is deleted. |
| `Timers.LowerBoundSplits` | src/net/timer_queue.cpp:153-165 | In an ordered set lower_bound separates what is before from what is not. |
| `Timers.InsertionKeepsOrder` | src/net/timer_queue.cpp:190-208 | Inserting keeps the set ordered. |
| `Timers.AddKeepsOwned` | src/net/timer_queue.cpp:124-133 | An addition keeps every timer in exactly one place. |
| `Timers.CancelKeepsOwned` | src/net/timer_queue.cpp:98-122 | So does a cancel, which deletes at most once. |
| `Timers.CancelWorksExactly` | src/net/timer_queue.cpp:98-122 | A cancel deletes its timer if and only if the timer is in the set, and otherwise changes nothing. |
| `Timers.ReadKeepsOwned` | src/net/timer_queue.cpp:135-188 | So does a whole read, whatever its callbacks add and cancel; the batch never holds a freed timer. |
| `Timers.AddKeepsAlarm` | src/net/timer_queue.cpp:124-133 | After an addition the alarm is set for the earliest timer, or has fired unread. |
| `Timers.CancelKeepsAlarm` | src/net/timer_queue.cpp:98-122 | Also after a cancel. |
| `Timers.ReadRestoresAlarm` | src/net/timer_queue.cpp:135-188 | And after a read, whatever the alarm was before: fired early, or spoiled by a callback; no expiry is left unread. |
| `Timers.HowMuchTimeFromNow` | src/net/timer_queue.cpp:24-34 | The relative time is at least 100 microseconds and otherwise exact, split into seconds and nanoseconds. |
| `Timers.FiredMeansDue` | src/net/timer_queue.cpp:24-57 | On one clock an alarm that fires finds at least one timer due. |
| `Timers.SentryCutsAtNow` | src/net/timer_queue.cpp:153-160 | The sentry separates expirations up to now from later ones. |
| `Timers.CallbacksOnlyAsTold` | src/net/timer_queue.cpp:143-147 | Callbacks leave in-flight timers alone, and other timers unless they add or cancel them by name. |
| `Timers.ResetIsExact` | src/net/timer_queue.cpp:167-188 | After reset the set is what it was and the repeaters at now + interval, nothing else. |
| `Timers.ExpiryIsExact` | src/net/timer_queue.cpp:135-188 | One read runs exactly the timers due at now, each once, in order; one-shots go, repeaters return at now + interval, all others stay but for what callbacks asked. |
| `Timers.ReadDecidesFate` | src/net/timer_queue.cpp:135-208 | One read, for every address and with the whole timer object: a due repeater is in the set with its interval, still repeating, due at now + interval; a due one-shot is gone; anything else is what the calls that callbacks really made leave of it. Each due timer runs once, no other. |
| `Timers.SetAfterRead` | src/net/timer_queue.cpp:135-208 | An entry is in the set after a read if and only if that says so. |
| `Timers.CancelledInARead` | src/net/timer_queue.cpp:98-151 | A timer that is not due stays, unchanged, if and only if no callback of the read cancels it. |
| `Timers.AddedInARead` | src/net/timer_queue.cpp:124-151 | A timer that a callback adds at a free address and none cancels is in the set afterwards, as it was added. |
| `Timers.EventKeepsGood` | src/net/timer_queue.cpp:81-208 | Every event keeps ownership, order, keys and alarm. |
| `Timers.NothingDangles` | src/net/timer_queue.cpp:124-188 | No queued addition and no read ever meets a freed timer. |
| `Timers.EveryRunIsGood` | src/net/timer_queue.cpp:81-208 | In every reachable state each timer has one owner and is deleted at most once, and the earliest is watched. |
| `Timers.EventDecidesFate` | src/net/timer_queue.cpp:81-208 | In every reachable state each event decides what becomes of each address, timer object included, and runs its callback exactly when a read finds it due. |
| `Timers.TimerLives` | src/net/timer_queue.cpp:135-188 | Over every run that does not cancel it, a timer is at any time what the times of the reads alone make of it, and has run once per read that found it due. |
| `Timers.RepeaterKeepsOn` | src/net/timer.cpp:20-26 | So a repeating timer stays in the set with its interval, repeating, and its expiration is the one it had or one interval after a read of the run. |
| `Timers.OneShotRingsOnce` | src/net/timer_queue.cpp:167-188 | And a one-shot runs once, at the first read that finds it due, and is gone then. |
| `Polling.Kernel.EpollCtl` | src/net/epoll_poller.cpp:97-109 | The kernel's contract: it can be called only with ADD for an absent and MOD or DEL for a present descriptor. |
| `Polling.EPollPoller.UpdateChannel` | src/net/epoll_poller.cpp:66-84 | ADD only for absent descriptors, MOD and DEL only for present ones; agreement of kernel set, index and table is restored. |
| `Polling.EPollPoller.RemoveChannel` | src/net/epoll_poller.cpp:86-95 | Nothing of the channel is left in the kernel set or the table. |
| `Polling.EPollPoller.EnableReading` | src/net/channel.cpp:30-33 | The channel watches for ordinary and urgent data, writing as before, and the kernel has its new mask. |
| `Polling.EPollPoller.DisableReading` | src/net/channel.cpp:35-38 | The channel watches for neither kind of data, writing as before, and leaves the kernel set if nothing is left. |
| `Polling.EPollPoller.EnableWriting` | src/net/channel.cpp:40-43 | The channel watches for writing, reading as before, and the kernel has its new mask. |
| `Polling.EPollPoller.DisableWriting` | src/net/channel.cpp:45-48 | The channel is not writing any more; other bits stay. |
| `Polling.EPollPoller.DisableAll` | src/net/channel.cpp:50-53 | A registered channel leaves the kernel set; an unregistered one is put into it with no events. |
| `Polling.EPollPoller.Adopt` | src/net/channel.cpp:6-7 | A new channel on a descriptor that no other in use has keeps the agreement. |
| `Polling.EPollPoller.Release` | src/net/epoll_poller.cpp:86-95 | After a channel was removed nothing refers to its descriptor, so that it can be used again. |
| `Polling.RunRequests` | src/net/epoll_poller.cpp:66-109 | Any run, with channels that come and go and descriptors used again, keeps: the kernel holds the descriptor with mask m if and only if the channel is added and m is its events. |
| `Connecting.Connector.Start` | src/net/connector.cpp:36-39 | Connects if idle. |
| `Connecting.Connector.Restart` | src/net/connector.cpp:41-47 | Starts over with the first delay. |
| `Connecting.Connector.StartInLoop` | src/net/connector.cpp:54-71 | Connects only when disconnected and wanted. |
| `Connecting.Connector.DoConnect` | src/net/connector.cpp:83-116 | One new socket, in flight or closed with a retry, by the outcome of connect. |
| `Connecting.Connector.Begin` | src/net/connector.cpp:118-126 | The socket is in flight with its channel waiting to become writable. |
| `Connecting.Connector.HandleWrite` | src/net/connector.cpp:128-161 | A socket writable without an error is handed over once if that is wanted and closed otherwise; one with an error is closed and retried. |
| `Connecting.Connector.HandleError` | src/net/connector.cpp:163-176 | A failed attempt is closed and retried; outside an attempt nothing happens. |
| `Connecting.Connector.Retry` | src/net/connector.cpp:178-194 | If wanted, one timer with the current delay, then the delay doubles up to its cap; nothing otherwise. |
| `Connecting.Connector.RemoveAndResetChannel` | src/net/connector.cpp:196-205 | The channel leaves the poller now and is destroyed later; its socket goes to the caller. |
| `Connecting.Connector.ResetChannel` | src/net/connector.cpp:207-209 | Destroys the channel object; what the poller knows of it stays. |
| `Connecting.BackoffDoubles` | src/net/connector.cpp:186-193 | Doubling with a cap is min(500 * 2^k, 30000). |
| `Connecting.ConnectIsGood` | src/net/connector.cpp:83-126 | From an idle connector every outcome of connect keeps the invariant. |
| `Connecting.EventKeepsGood` | src/net/connector.cpp:36-209 | Every event keeps: one attempt in flight, or one retry timer, or connected; every socket accounted for. |
| `Connecting.EveryRunIsGood` | src/net/connector.cpp:36-209 | Over every run: exactly one of the three, each socket in flight, closed once or handed over once, and after k failures the delay is min(500 * 2^k, 30000). |
| `Connecting.SocketsGoAsTold` | src/net/connector.cpp:36-209 | Over every run, counted from the events alone: exactly the sockets that became writable without an error are handed over, exactly the others that ended are closed, each once and in order; connected means the last socket created was handed over; the delay is that of the failures since the last success. |
| `Connecting.ResetsAreSafe` | src/net/connector.cpp:196-209 | Over every run within the rules, a channel that is destroyed has left the poller, and no pointer dangles. |
| `Connecting.EarlyRetryLosesAttempt` | src/net/connector.cpp:196-209 | A retry that runs before the deferred reset ends with a dangling pointer in the poller and nothing that would go on, if and only if its connect did not fail at once. |

## Left out

- System calls, errno values, logging, addresses and clocks: parameters stand for their answers.
- Bytes are characters, and sizes are unbounded: overflow of `size_t` and `int64_t` is not modelled.
- Functors and callbacks in C++ are closures: here they are finite scripts of the calls they may make, and a callback that is not set is an empty script.
- TcpStream.TcpConnection keeps its channel as booleans, reading, writing and known to the poller: the poller's side of it is proved in `Polling` alone. The error callback, which only logs, is left out.
- Lifecycle.LifecycleProtocol: code of the user acts on connections of its own loop; calls on a connection of another loop, which the code answers with a fatal log line or a data race, are not modelled, but functors may be queued on any loop.
- Lifecycle and the event loop's protocol are state machines on values, since their steps belong to several threads: what they do not capture is aliasing; the objects whose methods are the steps are `TcpServer`, `TcpConnection` and `EventLoop`.
- The round of `EventLoop::loop` is split into the protocol's actions; there is no method that runs forever.
- TimerQueue keeps its timers in an explicit memory of addresses that are never reused while identifiers survive, because cancel compares pointers only. Intervals are whole microseconds.
- HttpService.SingleReply: assumes that the handler gives the same text for the same request and that the response to the request that arrived closes. With keep-alive, `KeepAliveServesAll` needs each piece to end no later than its request: the handler serves one request per call, so that of two requests in one piece the second waits for more bytes.
- HttpPrinter.FramingRoundTrip: assumes a printable reply; `FramingExactly` shows that no other is recovered.
- Polling has no `poll` or `fillActiveChannels`: what is reported is a parameter of the loops that use it.
- Connecting.EveryRunIsGood: assumes no `stop`, and `restart` only when connected and after the deferred reset; `stop` during a failing attempt leaves the state behind.
- The destructors of servers, clients and loops, `quit` before `loop`, and functors left in the queue at exit.
- Request bodies, which the parser never reads, the high-water mark, and sends from other threads.
- The choice of the next loop, thread start-up, MIME types, file serving, the logger and the database layer: easy members or input and output.
