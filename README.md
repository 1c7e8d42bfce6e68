# Networking core of server-base, modelled in Dafny

server-base is a Go game-server framework. Its networking core has three parts, and the model covers all three.

- **Frame codec** (`MsgParser`, network/parser.go). Each message goes on the wire as a frame: a length field (1, 2 or 4 bytes, big- or little-endian) followed by a payload. The payload starts with a command id (1, 2 or 4 bytes) that the router's `Unmarshal` reads. `parser.dfy` models the parser's configuration as a class. Reading and writing a frame are pure functions over byte sequences. Reading reports how many bytes it consumed.
- **Listening servers**, one per transport: stream (tcp), reliable datagram (KCP over udp) and WebSocket. At start-up the tcp server defaults `PendingWriteNum` and treats a missing agent, parser or router as fatal. The udp server applies no default and treats missing collaborators as fatal. The WebSocket server defaults `MaxConnNum`, `PendingWriteNum` and `HTTPTimeout`, forces `MaxMsgLen`, and checks no collaborator. Each server then admits each accepted link against `MaxConnNum`, which holds the *remaining* capacity. The tcp accept loop also keeps a capped exponential backoff.
- **Connections**, one class per transport. Creating a connection takes one unit of capacity and sends a `NewAgent` notification to the job-dispatch collaborator. Closing runs once: it sets the flag, sends `CloseAgent` and gives the unit back. Each goroutine loop (`writeLoop`, `readLoop`, `handleLoop`) becomes a step method that performs one iteration. A step that ends its loop also runs the loop's deferred `Close`.

Modules:
- `Network` (network.dfy): byte types, `Option`, the router (`Processor`: `Marshal` and `Unmarshal` as functions that may fail) and the agent notifications.
- `Parser` (parser.dfy).
- `Tcp` (tcp.dfy), `Udp` (udp.dfy) and `WebSocket` (websocket.dfy).

Every server class holds a ghost set `live` of admitted, still-open connections. Its invariant `Valid()` says that remaining capacity plus live connections is constant. It also says that the counter never goes negative when it started non-negative. Every connection's `Valid()` adds:
- the connection is live exactly while it is not closed;
- each queue stays within its capacity;
- the frames reaching the link are the queued ones, in order (a ghost log `enqueued` records every frame queued);
- on udp, the messages reaching the router are the received ones, in order;
- on WebSocket, where a failed write is skipped, the messages the link accepted are some of the tried ones, in the order they were tried (a ghost `acceptedAt` gives each one's position).

Every connection method that can close the connection says how the server's `live` set changes: `Close` removes exactly this connection, and a step removes it exactly when the step closes it. So several connections of one server can be used and closed in turn (`Tcp.CloseInTurn`).

Parameters stand in for what the model cannot compute:
- the outcome of every I/O call, deadline, timeout, TLS load and upgrade;
- the router's `Route` verdict;
- the bytes or messages the peer sends (`incoming`).

A step whose channel operation would block returns with nothing changed.

Two behaviours of the code are easy to miss, and the model keeps both:
- `WriteMsg` does not reject a length that does not fit the length field. It truncates the length to the field width (`Parser.WriteMsg`, `Parser.OversizeFrameIsTruncated`).
- In the WebSocket `writeLoop`, a failed write does not stop the loop or close the connection (`WebSocket.Conn.WriteStep`).

## Model

| member | source | states |
|---|---|---|
| Network.ToUint32 | network/parser.go:87 | Go's `uint32(x)`: values in range are kept, others are reduced modulo 2^32 |
| Network.ReplayStaysInRange | network/tcp/tcp_server.go:81-92 | any sequence of admissions (only while capacity remains) and closes of live connections keeps capacity + live constant and capacity within 0..initial |
| Parser.MaxForWidth | network/parser.go:33-40 | the maximum length for widths 1, 2, 4 is 2^(8·w) − 1 (255, 65535, 4294967295) |
| Parser.MsgParser.constructor | network/parser.go:14-19 | a zero-valued parser: big-endian, both widths 0, maximum 0, a consistent configuration |
| Parser.MsgParser.SetByteOrder | network/parser.go:21-23 | only the byte order changes |
| Parser.MsgParser.SetMsgLen | network/parser.go:25-41 | each width takes its argument only when it is 1, 2 or 4 and otherwise keeps its old value; the maximum then follows the resulting length width as 2^(8·w) − 1, and is kept while that width is unset; the configuration stays consistent |
| Parser.DecodeLen | network/parser.go:50-66 | a width-1 field is its byte; widths 2 and 4 are the little-endian or big-endian unsigned value of the field, below 2^(8·w); any other width gives 0 |
| Parser.EncodeLen | network/parser.go:89-106 | the field has exactly `lenMsgLen` bytes and its little- or big-endian value is the length reduced modulo 2^(8·w); other widths give zero bytes |
| Parser.DecodeEncodeLen | network/parser.go:50-106 | decoding an encoded field gives back the value reduced to the field width |
| Parser.DecodedLenWithinMax | network/parser.go:68-71 | with a configuration set through `SetMsgLen` the decoded length never exceeds `maxMsgLen`, so the "message too long" branch is unreachable |
| Parser.ReadFrame | network/parser.go:43-76 | short header exactly when fewer than `lenMsgLen` bytes are available; success exactly when the length is within the maximum and `lenMsgLen + len + lenMsgId` bytes are available; the payload is exactly the `len + lenMsgId` bytes after the header, id included, and exactly header + payload is consumed |
| Parser.ReadMsg | network/parser.go:43-79 | a frame error is returned unchanged; otherwise the whole payload goes to `Unmarshal` and its failure or message is the result, with the frame's consumption |
| Parser.ShortReadSkipsUnmarshal | network/parser.go:45-76 | a short header or short payload is an error that is the same for every router: `Unmarshal` is not consulted |
| Parser.LengthField | network/parser.go:87 | the written length is `(len(data) − lenMsgId) mod 2^32`, Go's wrapping `uint32` subtraction, which is exactly `len(data) − lenMsgId` when that lies in 0..2^32 − 1 |
| Parser.WriteMsg | network/parser.go:81-110 | no output exactly when `Marshal` fails; otherwise a `lenMsgLen`-byte header whose value is `(len(data) − lenMsgId) mod 2^(8·w)`, followed by `data` unchanged |
| Parser.FrameRoundTrip | network/parser.go:43-110 | when `lenMsgId ≤ len(data)` and `len(data) − lenMsgId ≤ maxMsgLen`, reading what `WriteMsg` wrote (followed by any bytes) yields exactly `data` and consumes exactly the frame |
| Parser.WriteThenReadMsg | network/parser.go:43-110 | under the same conditions, `ReadMsg` on `WriteMsg`'s output returns `Unmarshal` of the marshalled bytes and consumes exactly the frame |
| Parser.OversizeFrameIsTruncated | network/parser.go:87-93 | a payload too long for a 1-byte field is written with a wrapped length (0), and reading it back yields only the id byte |
| Parser.ReadFrameAsWritten | network/parser.go:73-76 | the source's reader, whose payload size `msgLen + lenMsgId` wraps at 2^32: a success consumes the header plus that wrapped size |
| Parser.AsWrittenAgreesWithoutWrap | network/parser.go:73 | the source's reader and the corrected reader agree whenever `msgLen + lenMsgId < 2^32` |
| Parser.NarrowFieldsNeverWrap | network/parser.go:73 | with a consistent configuration and a 1- or 2-byte length field the two readers always agree |
| Parser.PayloadSizeWraps | network/parser.go:73-76 | a 4-byte field `FF FF FF FF` with a 2-byte id makes the source read a 1-byte payload and succeed, where the corrected reader reports a short payload |
| Tcp.NextDelay | network/tcp/tcp_server.go:64-72 | after a temporary error the delay is at most 1 s, at least 5 ms, and never smaller than before |
| Tcp.DelayAfterClosedForm | network/tcp/tcp_server.go:60-79 | after k ≥ 1 consecutive temporary errors the delay is min(5·2^(k−1), 1000) ms |
| Tcp.Server.constructor | network/tcp/tcp_server.go:13-25 | a configured, unstarted server with no live connections |
| Tcp.Server.Start | network/tcp/tcp_server.go:27-54 | start succeeds exactly when listening succeeds and the agent, parser and router are all set; `PendingWriteNum ≤ 0` becomes 1024 once listening succeeds, and positive values are kept |
| Tcp.Server.AcceptStep | network/tcp/tcp_server.go:56-88 | a temporary error advances the backoff; a permanent one stops the loop; an accepted link resets the backoff and is closed when capacity is 0 (counter unchanged) or else becomes a fresh valid connection with a queue of `PendingWriteNum`, with the counter down by one and one `NewAgent`; the live set gains exactly the new connection |
| Tcp.Server.SetConnsNum | network/tcp/tcp_server.go:90-93 | adds `n` to the counter |
| Tcp.Server.GetConnsNum | network/tcp/tcp_server.go:95-97 | reads the counter |
| Tcp.Server.Close | network/tcp/tcp_server.go:99-103 | raises the shutdown signal |
| Tcp.Conn.constructor | network/tcp/tcp_conn.go:21-33 | the connection is open with empty queue and logs, the counter drops by exactly one and one `NewAgent` is sent |
| Tcp.Conn.Close | network/tcp/tcp_conn.go:35-46 | the first call sets the flag, sends one `CloseAgent` and raises the counter by one; later calls change nothing; exactly this connection leaves the live set |
| Tcp.Conn.IsClosed | network/tcp/tcp_conn.go:128-130 | true exactly when the connection has left the live set, which only the close body does |
| Tcp.Conn.UserData | network/tcp/tcp_conn.go:132-134 | returns the stored user data |
| Tcp.Conn.SetUserData | network/tcp/tcp_conn.go:136-138 | stores the user data, which `UserData` then returns |
| Tcp.Conn.WriteMsg | network/tcp/tcp_conn.go:61-77 | closed or encode failure: nothing changes; full queue: the connection closes and nothing is queued; otherwise the encoded frame goes to the back of the queue; the live set loses this connection exactly when the call closes it |
| Tcp.Conn.WriteStep | network/tcp/tcp_conn.go:79-98 | shutdown or close ends the loop and closes; an empty queue blocks; otherwise the front frame is written and appended to the link log, and a write error loses it and closes; the live set loses this connection exactly when the call closes it |
| Tcp.Conn.ReadStep | network/tcp/tcp_conn.go:100-126 | shutdown or close ends the loop; a read or decode error closes with nothing consumed; otherwise exactly the frame is consumed, its message routed in order, and a route error closes; the live set loses this connection exactly when the call closes it |
| Tcp.AdmitOneAtATime | network/tcp/tcp_server.go:81-86 | with capacity 1: the first link is admitted, the second rejected, and after the first closes a third is admitted |
| Tcp.CloseInTurn | network/tcp/tcp_conn.go:35-77 | two admitted connections of one server: closing the first gives back one unit and sends its `CloseAgent`, the second stays open and writable, and closing it gives back the other unit and sends its own `CloseAgent` |
| Udp.Server.constructor | network/udp/udp_server.go:14-29 | a configured, unstarted server with no live connections |
| Udp.Server.Start | network/udp/udp_server.go:31-67 | a failure to listen or of the first accept returns quietly with nothing set; only then are missing collaborators fatal; the first session takes no capacity and sends no notification |
| Udp.Server.AcceptStep | network/udp/udp_server.go:69-86 | an accept error is retried at once with nothing changed; an accepted link is closed when capacity is 0 or else becomes a fresh valid connection whose send and receive queues hold `SendChanLimit` and `RecChanLimit` items, with the counter down by one and one `NewAgent`; the live set gains exactly the new connection |
| Udp.Server.SetConnsNum | network/udp/udp_server.go:88-91 | adds `n` to the counter |
| Udp.Server.GetConnsNum | network/udp/udp_server.go:93-95 | reads the counter |
| Udp.Server.Close | network/udp/udp_server.go:97-101 | raises the shutdown signal |
| Udp.Conn.constructor | network/udp/udp_conn.go:22-35 | both queues are sized from the server's limits, the counter drops by exactly one and one `NewAgent` is sent |
| Udp.Conn.Close | network/udp/udp_conn.go:37-49 | the first call sets the flag, makes one `CloseAgent` call and raises the counter by one; later calls change nothing; exactly this connection leaves the live set |
| Udp.Conn.IsClosed | network/udp/udp_conn.go:175-177 | true exactly when the connection has left the live set, which only the close body does |
| Udp.Conn.UserData | network/udp/udp_conn.go:179-181 | returns the stored user data |
| Udp.Conn.SetUserData | network/udp/udp_conn.go:183-185 | stores the user data, which `UserData` then returns |
| Udp.Conn.WriteMsg | network/udp/udp_conn.go:65-87 | closed or encode failure: queue unchanged; room: the frame is queued at the back; full: the frame is dropped; the connection is never closed |
| Udp.Conn.WriteStep | network/udp/udp_conn.go:89-118 | shutdown or close ends the loop; an empty queue blocks; otherwise the front frame is dequeued and written, and a failed write deadline or write loses it and closes; the live set loses this connection exactly when the call closes it |
| Udp.Conn.ReadStep | network/udp/udp_conn.go:120-148 | shutdown, close, a failed read deadline, a timeout or a read/decode error ends the loop and closes; a full receive queue blocks with nothing consumed; otherwise exactly one frame is consumed and its message queued at the back; the live set loses this connection exactly when the call closes it |
| Udp.Conn.HandleStep | network/udp/udp_conn.go:150-173 | shutdown or close ends the loop; an empty queue blocks; otherwise the front message is routed, in the order received, and a route error closes; the live set loses this connection exactly when the call closes it |
| Udp.AdmitOneAtATime | network/udp/udp_server.go:79-84 | with capacity 1: the first link is admitted, the second rejected, and after the first closes a third is admitted |
| WebSocket.Server.constructor | network/websocket/ws_server.go:16-33 | a configured, unstarted server with no live connections |
| WebSocket.Server.Start | network/websocket/ws_server.go:60-117 | start succeeds exactly when listening succeeds and, if a certificate or key file is named, the key pair loads; non-positive `MaxConnNum`, `PendingWriteNum` and `HTTPTimeout` become 100, 100 and 10 s, and positive values are kept; `MaxMsgLen` becomes 4096 unconditionally |
| WebSocket.Server.ServeHTTP | network/websocket/ws_server.go:40-58 | a non-GET gets 405 and an upgrade failure is dropped, both with the counter unchanged; an upgraded link is closed when capacity is 0, or else becomes a fresh connection with read limit `MaxMsgLen` and a write queue of `PendingWriteNum`, the counter down by one and a `NewAgent` when the agent is set |
| WebSocket.Server.SetConnsNum | network/websocket/ws_server.go:125-127 | adds `n` to the counter |
| WebSocket.Server.GetConnsNum | network/websocket/ws_server.go:129-131 | reads the counter |
| WebSocket.Server.Close | network/websocket/ws_server.go:119-123 | raises the shutdown signal |
| WebSocket.Conn.constructor | network/websocket/ws_conn.go:23-35 | the write queue is sized `PendingWriteNum`, the counter drops by exactly one, and one `NewAgent` is sent when the agent is set |
| WebSocket.Conn.Close | network/websocket/ws_conn.go:37-48 | the first call sets the flag, makes one `CloseAgent` call when the agent is set and raises the counter by one; later calls change nothing; exactly this connection leaves the live set |
| WebSocket.Conn.IsClosed | network/websocket/ws_conn.go:130-132 | true exactly when the connection has left the live set, which only the close body does |
| WebSocket.Conn.UserData | network/websocket/ws_conn.go:134-136 | returns the stored user data |
| WebSocket.Conn.SetUserData | network/websocket/ws_conn.go:138-140 | stores the user data, which `UserData` then returns |
| WebSocket.Conn.WriteMsg | network/websocket/ws_conn.go:63-74 | the closed check comes first: a closed connection drops the message; past it, a server without a router panics; a marshal failure drops the message; otherwise the raw marshalled bytes, with no header, go to the back of the queue, or the caller blocks while the queue is full; only queueing changes anything |
| WebSocket.Conn.WriteStep | network/websocket/ws_conn.go:76-95 | shutdown or close ends the loop; otherwise the front message is tried on the link, and the loop and connection carry on whether the write succeeds or fails; the live set loses this connection exactly when the call closes it |
| WebSocket.Conn.ReadStep | network/websocket/ws_conn.go:97-128 | shutdown, close, end of input or a message over the read limit ends the loop and closes; otherwise one message is consumed, and a missing router, an unmarshal failure or a route failure closes, while success routes it in arrival order; the live set loses this connection exactly when the call closes it |
| WebSocket.AdmitOneAtATime | network/websocket/ws_server.go:40-58 | a POST gets 405 without taking capacity; with capacity 1 the first GET is admitted, the second rejected, and after the first closes a third is admitted; a capacity of 0 becomes 100 |

## Left out

- Goroutines, `sync.Once`, atomics, the `exitChan` broadcast and `WaitGroup` draining are modelled sequentially. The once-guard is a boolean, channels are bounded sequences, and each loop is a step method. The server's `Close` only raises the shutdown signal. The lost update possible in the non-atomic load-then-store of the tcp and udp `setConnsNum` cannot be expressed sequentially.
- When a `select` could take both the shutdown signal and a pending item, the model takes the shutdown.
- Tcp.Server.AcceptStep, Udp.Server.AcceptStep: `MaxConnNum` is an `int32` in the source, but the model counts with unbounded integers. Wrap-around needs 2^31 live connections.
- Wall-clock time is reduced to outcomes given as parameters. This covers read and write deadlines, the udp one-second wait in `WriteMsg` (a full queue at the call is a timeout) and the tcp retry sleep. The backoff value is kept, in milliseconds.
- Foreign libraries are reduced to success or failure: real sockets, KCP session tuning, TLS configuration, the `http.Server` and its timeouts, and the gorilla WebSocket library that performs the upgrade. `LocalAddr` and `RemoteAddr` only forward to the socket and are not modelled.
- The router's `Route` depends on application state, so its verdict is a parameter. `Marshal` is modelled as returning one byte sequence, as the code uses it; the interface declares a list of byte slices.
- Tcp.Conn.ReadStep, Udp.Conn.ReadStep, WebSocket.Conn.ReadStep: the peer's input is given whole in advance, so a read that would wait for more data is a short read.
- Udp.Server.Start: after a quiet early return, `Start` still launches `run`, which then dereferences the unset wait group and listener and crashes. The model instead requires a started server for `AcceptStep`.
- Udp.Server.Close: the source's `Close` waits for `run`, which never returns. The model only raises the signal.
- Udp.Conn.constructor, Udp.Server.AcceptStep: `make` panics on negative channel limits, so the model requires non-negative ones when a link is admitted; accept errors and rejections at zero capacity need no such limit. A limit of 0 is an unbuffered channel, which the model treats as a queue with no room. The rendezvous with a waiting loop is not modelled.
- WebSocket.Conn.WriteMsg: sending on a full channel blocks until the write loop makes room. The model reports `Blocked` with nothing changed.
- WebSocket.Conn.WriteMsg: with no router the source panics in the caller's goroutine. The model reports `Panicked` with nothing changed and does not follow the panic into the caller.
- Tcp.Conn.ReadStep, Udp.Conn.ReadStep: the connections read through the corrected reader `Parser.ReadFrame` of the Findings row. With a 4-byte length field whose payload size wraps, the source reads a short payload, unmarshals it and carries on, while the model closes the connection with a short-payload error.
- Udp.Conn.WriteStep, Udp.Conn.HandleStep: the flag re-check after a dequeue cannot fire in a sequential model, so it is not modelled.
- The gateway in gate/gate.go only copies configuration and starts the servers, and server.go is process bootstrap. The database wrappers under db/ are not part of this model.

## Findings

| source | as written | input that shows it | evidently intended | confidence | as-written member | corrected member |
|---|---|---|---|---|---|---|
| network/parser.go:73 | the payload size `msgLen + uint32(lenMsgId)` is a `uint32` sum and wraps past 2^32 − 1 | big-endian 4-byte length field, 2-byte id, input `FF FF FF FF 07`: a 1-byte payload `[07]` is read and the frame succeeds | read `msgLen + lenMsgId` bytes (2^32 + 1 here) and report a short payload | not executed | Parser.ReadFrameAsWritten, Parser.PayloadSizeWraps | Parser.ReadFrame |
