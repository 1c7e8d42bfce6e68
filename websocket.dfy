/**
 * The WebSocket transport: network/websocket/ws_server.go and
 * network/websocket/ws_conn.go.
 *
 * Messages travel as whole WebSocket binary messages, so no frame codec is
 * involved: a connection queues the router's raw `Marshal` output and routes
 * each incoming message's `Unmarshal` result. The HTTP server, the TLS
 * listener and the protocol upgrade are foreign code; their outcomes are
 * parameters.
 */
module WebSocket {
  import opened Network

  const DefaultMaxConnNum: int := 100
  const DefaultPendingWriteNum: int := 100
  /** Durations are in nanoseconds, as Go's `time.Duration`. */
  const Second: int := 1_000_000_000
  const DefaultHTTPTimeout: int := 10 * Second
  /** `Start` sets the message-size limit to this value whatever was configured. */
  const MaxMsgLenOverride: uint32 := 4096
  const StatusMethodNotAllowed: int := 405

  datatype InitResult = Started | Fatal

  /** What `ServeHTTP` did with one request. */
  datatype Response = HttpError(status: int) | UpgradeFailed | Rejected | Admitted

  /** What a `WriteMsg` call comes to. */
  datatype WriteOutcome = Queued | Dropped | Blocked | Panicked

  class Server<M> {
    /** Remaining admission capacity (`MaxConnNum`). */
    var maxConnNum: int
    /** Capacity of each connection's write queue. */
    var pendingWriteNum: int
    /** The read limit given to every upgraded connection. */
    var maxMsgLen: uint32
    var httpTimeout: int
    var certFile: string
    var keyFile: string
    /** `AgentChanRPC != nil`; unlike the other transports it may be absent. */
    var agentRPC: bool
    /** The router; `Start` does not check that it is set. */
    var processor: Option<Processor<M>>
    var started: bool
    /** `exitChan` has been closed by `Close`. */
    var exiting: bool
    var agentCalls: seq<AgentCall>
    ghost var live: set<object>
    ghost var initialMax: int

    ghost predicate Valid()
      reads this
    {
      && maxConnNum + |live| == initialMax
      && (initialMax >= 0 ==> maxConnNum >= 0)
      && (!started ==> live == {})
      && (started ==> maxConnNum + |live| > 0 && pendingWriteNum > 0 && httpTimeout > 0
                      && maxMsgLen == MaxMsgLenOverride)
    }

    constructor (maxConnNum: int, pendingWriteNum: int, maxMsgLen: uint32, httpTimeout: int,
                 certFile: string, keyFile: string, agentRPC: bool, processor: Option<Processor<M>>)
      ensures Valid()
      ensures this.maxConnNum == maxConnNum && this.pendingWriteNum == pendingWriteNum
      ensures this.maxMsgLen == maxMsgLen && this.httpTimeout == httpTimeout
      ensures this.certFile == certFile && this.keyFile == keyFile
      ensures this.agentRPC == agentRPC && this.processor == processor
      ensures !started && !exiting && agentCalls == [] && live == {}
    {
      this.maxConnNum, this.pendingWriteNum := maxConnNum, pendingWriteNum;
      this.maxMsgLen, this.httpTimeout := maxMsgLen, httpTimeout;
      this.certFile, this.keyFile := certFile, keyFile;
      this.agentRPC, this.processor := agentRPC, processor;
      started, exiting, agentCalls := false, false, [];
      live, initialMax := {}, maxConnNum;
    }

    /**
     * `Start`: listening, and loading the key pair when a certificate or key
     * file is named, must succeed (otherwise the process exits). Non-positive
     * settings are replaced by their defaults, and the message-size limit is
     * overridden unconditionally.
     */
    method Start(listenOk: bool, tlsOk: bool) returns (r: InitResult)
      requires Valid() && !started
      modifies this`maxConnNum, this`pendingWriteNum, this`httpTimeout, this`maxMsgLen,
               this`started, this`initialMax
      ensures Valid()
      ensures r == Started <==> listenOk && ((certFile == "" && keyFile == "") || tlsOk)
      ensures !listenOk ==>
        maxConnNum == old(maxConnNum) && pendingWriteNum == old(pendingWriteNum)
        && httpTimeout == old(httpTimeout) && maxMsgLen == old(maxMsgLen)
      ensures listenOk ==>
        && maxConnNum == (if old(maxConnNum) <= 0 then DefaultMaxConnNum else old(maxConnNum))
        && pendingWriteNum == (if old(pendingWriteNum) <= 0 then DefaultPendingWriteNum else old(pendingWriteNum))
        && httpTimeout == (if old(httpTimeout) <= 0 then DefaultHTTPTimeout else old(httpTimeout))
      ensures r == Started ==> started && maxMsgLen == MaxMsgLenOverride
      ensures r == Fatal ==> !started && maxMsgLen == old(maxMsgLen)
    {
      if !listenOk {
        return Fatal;
      }
      if maxConnNum <= 0 {
        maxConnNum := DefaultMaxConnNum;
      }
      if pendingWriteNum <= 0 {
        pendingWriteNum := DefaultPendingWriteNum;
      }
      if httpTimeout <= 0 {
        httpTimeout := DefaultHTTPTimeout;
      }
      initialMax := maxConnNum;
      if (certFile != "" || keyFile != "") && !tlsOk {
        return Fatal;
      }
      maxMsgLen := MaxMsgLenOverride;
      started := true;
      r := Started;
    }

    /**
     * `WSHandler.ServeHTTP`: a request that is not a GET is answered with 405;
     * a failed upgrade is dropped; an upgraded link gets the message-size
     * limit as its read limit and is closed when no capacity remains, and
     * otherwise wrapped in a new connection. `link` lists the messages the
     * peer will send on the upgraded link.
     */
    method ServeHTTP(requestMethod: string, upgradeOk: bool, link: seq<Bytes>) returns (resp: Response, conn: Conn?<M>)
      requires Valid() && started
      modifies this`maxConnNum, this`live, this`agentCalls
      ensures Valid()
      ensures conn != null <==> resp == Admitted
      ensures live == old(live) + (if conn == null then {} else {conn})
      ensures requestMethod != "GET" ==> resp == HttpError(StatusMethodNotAllowed)
      ensures requestMethod == "GET" && !upgradeOk ==> resp == UpgradeFailed
      ensures requestMethod == "GET" && upgradeOk && old(maxConnNum) == 0 ==> resp == Rejected
      ensures resp != Admitted ==> maxConnNum == old(maxConnNum) && agentCalls == old(agentCalls)
      ensures requestMethod == "GET" && upgradeOk && old(maxConnNum) != 0 ==>
        resp == Admitted && fresh(conn) && conn.server == this && conn.Valid() && conn.Fresh(link)
        && conn.readLimit == maxMsgLen && conn.capacity == pendingWriteNum
        && maxConnNum == old(maxConnNum) - 1
        && agentCalls == old(agentCalls) + (if agentRPC then [NewAgent(conn)] else [])
    {
      conn := null;
      if requestMethod != "GET" {
        return HttpError(StatusMethodNotAllowed), null;
      }
      if !upgradeOk {
        return UpgradeFailed, null;
      }
      var remaining := GetConnsNum();
      if remaining == 0 {
        return Rejected, null;
      }
      conn := new Conn(this, link, maxMsgLen);
      resp := Admitted;
    }

    /** `setConnsNum`: atomically add `n` to the remaining capacity. */
    method SetConnsNum(n: int)
      modifies this`maxConnNum
      ensures maxConnNum == old(maxConnNum) + n
    {
      maxConnNum := maxConnNum + n;
    }

    method GetConnsNum() returns (n: int)
      ensures n == maxConnNum
    {
      n := maxConnNum;
    }

    /** `Close`: raise the shutdown signal and close the listener. */
    method Close()
      requires Valid() && started && !exiting
      modifies this`exiting
      ensures Valid() && exiting
    {
      exiting := true;
    }
  }

  /**
   * `sub` is `full` with some elements left out: `at` gives, in increasing
   * order, the position in `full` of each element of `sub`.
   */
  ghost predicate InOrderWithin<T>(sub: seq<T>, full: seq<T>, at: seq<nat>)
  {
    && |at| == |sub|
    && (forall i :: 0 <= i < |sub| ==> at[i] < |full| && full[at[i]] == sub[i])
    && (forall i, j :: 0 <= i < j < |at| ==> at[i] < at[j])
  }

  class Conn<M> {
    const server: Server<M>
    /** `cap(writeChan)`. */
    const capacity: nat
    /** The read limit set on the upgraded link. */
    const readLimit: uint32
    /** `closeFlag`, set once by `Close`. */
    var closed: bool
    /** Marshalled messages waiting in `writeChan`, front first. */
    var writeQueue: seq<Bytes>
    /** Messages the link accepted, in order. */
    var written: seq<Bytes>
    /** Messages the peer has sent that `readLoop` has not read yet. */
    var incoming: seq<Bytes>
    /** Messages handed to the router's `Route`, in order. */
    var routed: seq<M>
    var userData: object?
    /** Every message `WriteMsg` ever queued, in order. */
    ghost var enqueued: seq<Bytes>
    /** Every message `writeLoop` ever tried to write, in order. */
    ghost var attempted: seq<Bytes>
    /** Where each message of `written` sits in `attempted`. */
    ghost var acceptedAt: seq<nat>

    /**
     * The object invariant: live exactly while open; the queue within
     * capacity; messages are tried on the link in the order they were
     * queued, and the link accepted some of the tried messages, in the order
     * they were tried.
     */
    ghost predicate Valid()
      reads this, server
    {
      && server.Valid() && server.started
      && (closed <==> this !in server.live)
      && |writeQueue| <= capacity
      && attempted <= enqueued
      && (!closed ==> enqueued == attempted + writeQueue)
      && |written| <= |attempted|
      && InOrderWithin(written, attempted, acceptedAt)
    }

    ghost predicate Fresh(link: seq<Bytes>)
      reads this
    {
      && !closed && writeQueue == [] && written == [] && enqueued == [] && attempted == [] && acceptedAt == []
      && incoming == link && routed == [] && userData == null
    }

    /** The effects of the one-time close body, compared with the state before. */
    ghost predicate ClosedFrom(wasClosed: bool, counter: int, calls: seq<AgentCall>)
      reads this, server
    {
      && closed
      && server.maxConnNum == counter + (if wasClosed then 0 else 1)
      && server.agentCalls == calls + (if wasClosed || !server.agentRPC then [] else [CloseAgent(this)])
    }

    /** Still open, with the server's counter and notifications untouched. */
    ghost predicate OpenAt(counter: int, calls: seq<AgentCall>)
      reads this, server
    {
      !closed && server.maxConnNum == counter && server.agentCalls == calls
    }

    /**
     * `newConn`: a connection takes one unit of capacity and, when the
     * collaborator is set, sends one `NewAgent`.
     */
    constructor (server: Server<M>, link: seq<Bytes>, readLimit: uint32)
      requires server.Valid() && server.started && server.maxConnNum != 0
      modifies server`maxConnNum, server`live, server`agentCalls
      ensures this.server == server && this.readLimit == readLimit
      ensures capacity == server.pendingWriteNum
      ensures Valid() && Fresh(link)
      ensures server.maxConnNum == old(server.maxConnNum) - 1
      ensures server.live == old(server.live) + {this}
      ensures server.agentCalls == old(server.agentCalls) + (if server.agentRPC then [NewAgent(this)] else [])
    {
      this.server := server;
      capacity := server.pendingWriteNum;
      this.readLimit := readLimit;
      closed, writeQueue, written, incoming, routed, userData := false, [], [], link, [], null;
      enqueued, attempted, acceptedAt := [], [], [];
      new;
      server.SetConnsNum(-1);
      server.live := server.live + {this};
      if server.agentRPC {
        server.agentCalls := server.agentCalls + [NewAgent(this)];
      }
    }

    /**
     * `Close`: the first call sets the flag, makes one blocking `CloseAgent`
     * call when the collaborator is set and gives back one unit of capacity;
     * later calls change nothing.
     */
    method Close()
      requires Valid()
      modifies this`closed, server`maxConnNum, server`live, server`agentCalls
      ensures Valid()
      ensures server.live == old(server.live) - {this}
      ensures ClosedFrom(old(closed), old(server.maxConnNum), old(server.agentCalls))
    {
      if !closed {
        closed := true;
        if server.agentRPC {
          server.agentCalls := server.agentCalls + [CloseAgent(this)];
        }
        server.SetConnsNum(1);
        server.live := server.live - {this};
      }
    }

    /** True exactly when the one-time close body has run: the connection no longer holds capacity. */
    function IsClosed(): (r: bool)
      reads this, server
      requires Valid()
      ensures r <==> this !in server.live
    {
      closed
    }

    /** The slot `SetUserData` last stored. */
    function UserData(): (data: object?)
      reads this
      ensures data == userData
    {
      userData
    }

    method SetUserData(data: object?)
      modifies this`userData
      ensures userData == data && UserData() == data
    {
      userData := data;
    }

    /**
     * `WriteMsg`: nothing on a closed connection or when marshalling fails;
     * otherwise the raw marshalled bytes, with no length header, are queued.
     * There is no timeout: on a full queue the caller blocks, which is
     * `Blocked` with nothing changed. The closed check comes first; past it,
     * a server without a processor makes `Marshal` a nil dereference, which
     * panics in the caller's goroutine (`Panicked`, nothing changed).
     */
    method WriteMsg(msg: M) returns (outcome: WriteOutcome)
      requires Valid()
      modifies this`writeQueue, this`enqueued
      ensures Valid()
      ensures outcome != Queued ==> writeQueue == old(writeQueue) && enqueued == old(enqueued)
      ensures closed ==> outcome == Dropped
      ensures !closed && server.processor.None? ==> outcome == Panicked
      ensures !closed && server.processor.Some? ==>
        var data := server.processor.value.marshal(msg);
        && (data.None? ==> outcome == Dropped)
        && (data.Some? && old(|writeQueue|) == capacity ==> outcome == Blocked)
        && (data.Some? && old(|writeQueue|) < capacity ==>
              outcome == Queued
              && writeQueue == old(writeQueue) + [data.value] && enqueued == old(enqueued) + [data.value])
    {
      if IsClosed() {
        return Dropped;
      }
      if server.processor.None? {
        return Panicked;
      }
      var data := server.processor.value.marshal(msg);
      if data.None? {
        return Dropped;
      }
      if |writeQueue| == capacity {
        return Blocked;
      }
      writeQueue := writeQueue + [data.value];
      enqueued := enqueued + [data.value];
      outcome := Queued;
    }

    /**
     * One iteration of `writeLoop`. The shutdown signal or a closed
     * connection ends the loop; an empty queue blocks; otherwise the front
     * message is written as one binary message. A failed write leaves only
     * the `select`, so the loop and the connection carry on.
     */
    method WriteStep(writeOk: bool) returns (running: bool)
      requires Valid()
      modifies this`writeQueue, this`written, this`attempted, this`acceptedAt, this`closed,
               server`maxConnNum, server`live, server`agentCalls
      ensures Valid()
      ensures server.live == if closed then old(server.live) - {this} else old(server.live)
      ensures old(closed || server.exiting) ==>
        !running && ClosedFrom(old(closed), old(server.maxConnNum), old(server.agentCalls))
        && writeQueue == old(writeQueue) && written == old(written)
      ensures !old(closed || server.exiting) ==>
        running && OpenAt(old(server.maxConnNum), old(server.agentCalls))
      ensures !old(closed || server.exiting) && old(writeQueue) == [] ==>
        writeQueue == [] && written == old(written)
      ensures !old(closed || server.exiting) && old(writeQueue) != [] ==>
        && writeQueue == old(writeQueue)[1..]
        && attempted == old(attempted) + [old(writeQueue)[0]]
        && written == old(written) + (if writeOk then [old(writeQueue)[0]] else [])
    {
      if server.exiting || closed {
        Close();
        return false;
      }
      if writeQueue == [] {
        return true;
      }
      var b := writeQueue[0];
      writeQueue := writeQueue[1..];
      attempted := attempted + [b];
      if writeOk {
        written := written + [b];
        acceptedAt := acceptedAt + [|attempted| - 1];
      }
      running := true;
    }

    /**
     * One iteration of `readLoop`. The shutdown signal or a closed connection
     * ends the loop. Reading fails when the peer has nothing more to send or
     * its next message exceeds the read limit; that, a missing router (whose
     * panic is recovered), an unmarshal failure or a route failure ends the
     * loop. Otherwise the message is routed at once, in arrival order.
     */
    method ReadStep(routeOk: bool) returns (running: bool)
      requires Valid()
      modifies this`incoming, this`routed, this`closed, server`maxConnNum, server`live, server`agentCalls
      ensures Valid()
      ensures server.live == if closed then old(server.live) - {this} else old(server.live)
      ensures old(closed || server.exiting) ==>
        !running && ClosedFrom(old(closed), old(server.maxConnNum), old(server.agentCalls))
        && incoming == old(incoming) && routed == old(routed)
      ensures !old(closed || server.exiting) && (old(incoming) == [] || |old(incoming)[0]| > readLimit) ==>
        !running && ClosedFrom(false, old(server.maxConnNum), old(server.agentCalls))
        && incoming == old(incoming) && routed == old(routed)
      ensures !old(closed || server.exiting) && old(incoming) != [] && |old(incoming)[0]| <= readLimit ==>
        && incoming == old(incoming)[1..]
        && var decoded := if server.processor.Some? then server.processor.value.unmarshal(old(incoming)[0]) else None;
           && running == (decoded.Some? && routeOk)
           && routed == old(routed) + (if decoded.Some? then [decoded.value] else [])
           && (running ==> OpenAt(old(server.maxConnNum), old(server.agentCalls)))
           && (!running ==> ClosedFrom(false, old(server.maxConnNum), old(server.agentCalls)))
    {
      if server.exiting || closed {
        Close();
        return false;
      }
      if incoming == [] || |incoming[0]| > readLimit {
        Close();
        return false;
      }
      var b := incoming[0];
      incoming := incoming[1..];
      if server.processor.None? {
        Close();
        return false;
      }
      var msg := server.processor.value.unmarshal(b);
      if msg.None? {
        Close();
        return false;
      }
      routed := routed + [msg.value];
      if !routeOk {
        Close();
        return false;
      }
      running := true;
    }
  }

  // ---------------------------------------------------------------------
  // Admission, end to end.

  /**
   * A server configured with no capacity gets the default of 100; with room
   * for one connection it admits the first GET, turns the second away, and
   * admits a third once the first connection has closed. A request that is
   * not a GET never takes room.
   */
  method AdmitOneAtATime(link: seq<Bytes>) returns (post: Response, first: Response, second: Response, third: Response, defaulted: int)
    ensures post == HttpError(StatusMethodNotAllowed)
    ensures first == Admitted && second == Rejected && third == Admitted
    ensures defaulted == DefaultMaxConnNum
  {
    var router: Processor<Bytes> := Processor(m => Some(m), b => Some(b));
    var unset := new Server<Bytes>(0, 0, 0, 0, "", "", false, Some(router));
    var init0 := unset.Start(true, false);
    defaulted := unset.maxConnNum;

    var server := new Server<Bytes>(1, 0, 0, 0, "", "", true, Some(router));
    var init := server.Start(true, false);
    var c0, c1, c2, c3;
    post, c0 := server.ServeHTTP("POST", true, link);
    first, c1 := server.ServeHTTP("GET", true, link);
    second, c2 := server.ServeHTTP("GET", true, link);
    c1.Close();
    third, c3 := server.ServeHTTP("GET", true, link);
  }
}
