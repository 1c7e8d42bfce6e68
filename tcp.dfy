/**
 * The stream transport: network/tcp/tcp_server.go and network/tcp/tcp_conn.go.
 *
 * The server's `MaxConnNum` is the REMAINING admission capacity: admitting a
 * connection takes one unit, closing it gives the unit back. The ghost set
 * `live` holds the admitted connections that are not closed yet, so that the
 * object invariant can say capacity plus live connections is constant.
 *
 * Each goroutine loop (`run`, `readLoop`, `writeLoop`) becomes a step method
 * doing one iteration; a step that ends its loop runs the loop's deferred
 * `Close`. Timeouts, I/O failures and the router's verdict are parameters.
 */
module Tcp {
  import opened Network
  import Parser

  /** First accept-retry delay after a temporary error, in milliseconds. */
  const FirstDelay: nat := 5
  /** Ceiling of the accept-retry delay, in milliseconds (1 s). */
  const MaxDelay: nat := 1000
  /** `PendingWriteNum` used when the configured one is not positive. */
  const DefaultPendingWriteNum: int := 1024

  // ---------------------------------------------------------------------
  // Accept backoff.

  /** The new `tempDelay` after a temporary accept error. */
  function NextDelay(d: nat): (r: nat)
    ensures r <= MaxDelay
    ensures d == 0 || FirstDelay <= d ==> FirstDelay <= r
    ensures d <= MaxDelay ==> d <= r
  {
    var next := if d == 0 then FirstDelay else 2 * d;
    if next > MaxDelay then MaxDelay else next
  }

  /** The delay after `k` consecutive temporary errors following a success (which resets it to 0). */
  function DelayAfter(k: nat): nat
  {
    if k == 0 then 0 else NextDelay(DelayAfter(k - 1))
  }

  function Pow2(k: nat): (r: nat)
    ensures r >= 1
  {
    if k == 0 then 1 else 2 * Pow2(k - 1)
  }

  /**
   * The backoff sequence 5 ms, 10 ms, 20 ms, ... doubling and capped at 1 s:
   * after k >= 1 consecutive temporary errors the delay is
   * min(5 * 2^(k-1), 1000) milliseconds.
   */
  lemma {:induction false} DelayAfterClosedForm(k: nat)
    requires k >= 1
    ensures DelayAfter(k) == if FirstDelay * Pow2(k - 1) > MaxDelay then MaxDelay else FirstDelay * Pow2(k - 1)
  {
    if k > 1 {
      DelayAfterClosedForm(k - 1);
    }
  }

  // ---------------------------------------------------------------------
  // Server.

  datatype InitResult = Started | Fatal
  datatype AcceptOutcome = Accepted(stream: Bytes) | TemporaryError | PermanentError
  datatype RunStep = Retry(delay: nat) | Stopped | Rejected | Admitted

  class Server<M> {
    /** Remaining admission capacity (`MaxConnNum`). */
    var maxConnNum: int
    var pendingWriteNum: int
    /** `AgentChanRPC != nil`. */
    var agentRPC: bool
    var msgParser: Parser.MsgParser?
    var processor: Option<Processor<M>>
    /** `init` succeeded: the listener, `exitChan` and `waitGroup` are set. */
    var started: bool
    /** The accept loop `run` has not returned. */
    var accepting: bool
    /** `exitChan` has been closed by `Close`. */
    var exiting: bool
    /** The accept loop's backoff state, in milliseconds. */
    var tempDelay: nat
    /** Notifications sent to `AgentChanRPC`, in order. */
    var agentCalls: seq<AgentCall>
    ghost var live: set<object>
    ghost var initialMax: int

    ghost predicate Valid()
      reads this
    {
      && maxConnNum + |live| == initialMax
      && (initialMax >= 0 ==> maxConnNum >= 0)
      && (started ==> pendingWriteNum > 0 && agentRPC && msgParser != null && processor.Some?)
      && (accepting ==> started)
      && (tempDelay == 0 || FirstDelay <= tempDelay <= MaxDelay)
    }

    /** A server as the gateway fills it in before `Start`. */
    constructor (maxConnNum: int, pendingWriteNum: int, agentRPC: bool,
                 msgParser: Parser.MsgParser?, processor: Option<Processor<M>>)
      ensures Valid()
      ensures this.maxConnNum == maxConnNum && this.pendingWriteNum == pendingWriteNum
      ensures this.agentRPC == agentRPC && this.msgParser == msgParser && this.processor == processor
      ensures !started && !accepting && !exiting && tempDelay == 0 && agentCalls == []
      ensures live == {} && initialMax == maxConnNum
    {
      this.maxConnNum := maxConnNum;
      this.pendingWriteNum := pendingWriteNum;
      this.agentRPC := agentRPC;
      this.msgParser := msgParser;
      this.processor := processor;
      started, accepting, exiting, tempDelay, agentCalls := false, false, false, 0, [];
      live, initialMax := {}, maxConnNum;
    }

    /**
     * `Start`: `init`, then the accept loop is spawned. Binding failure and a
     * missing collaborator are fatal; the default for `PendingWriteNum` is
     * applied before the collaborator checks.
     */
    method Start(listenOk: bool) returns (r: InitResult)
      requires Valid() && !started
      modifies this`pendingWriteNum, this`started, this`accepting
      ensures Valid()
      ensures r == Started <==> listenOk && agentRPC && msgParser != null && processor.Some?
      ensures pendingWriteNum == if listenOk && old(pendingWriteNum) <= 0 then DefaultPendingWriteNum else old(pendingWriteNum)
      ensures started == accepting == (r == Started)
    {
      if !listenOk {
        return Fatal;
      }
      if pendingWriteNum <= 0 {
        pendingWriteNum := DefaultPendingWriteNum;
      }
      if !agentRPC || msgParser == null || processor.None? {
        return Fatal;
      }
      started, accepting := true, true;
      r := Started;
    }

    /**
     * One iteration of `run`. A temporary error advances the backoff, a
     * permanent one ends the loop, a successful accept resets the backoff and
     * then admits the link only while capacity remains.
     */
    method AcceptStep(outcome: AcceptOutcome) returns (step: RunStep, conn: Conn?<M>)
      requires Valid() && accepting
      requires exiting ==> outcome == PermanentError
      modifies this`tempDelay, this`accepting, this`maxConnNum, this`live, this`agentCalls
      ensures Valid()
      ensures conn != null <==> step == Admitted
      ensures live == old(live) + (if conn == null then {} else {conn})
      ensures outcome == TemporaryError ==>
        tempDelay == NextDelay(old(tempDelay)) && step == Retry(tempDelay) && accepting
        && maxConnNum == old(maxConnNum) && agentCalls == old(agentCalls)
      ensures outcome == PermanentError ==>
        step == Stopped && !accepting && maxConnNum == old(maxConnNum) && agentCalls == old(agentCalls)
      ensures outcome.Accepted? && old(maxConnNum) == 0 ==>
        tempDelay == 0 && step == Rejected && accepting && maxConnNum == 0 && agentCalls == old(agentCalls)
      ensures outcome.Accepted? && old(maxConnNum) != 0 ==>
        tempDelay == 0 && step == Admitted && accepting
        && fresh(conn) && conn.server == this && conn.Valid() && conn.Fresh(outcome.stream)
        && conn.capacity == pendingWriteNum && maxConnNum == old(maxConnNum) - 1
        && agentCalls == old(agentCalls) + [NewAgent(conn)]
    {
      conn := null;
      match outcome {
        case TemporaryError =>
          tempDelay := NextDelay(tempDelay);
          step := Retry(tempDelay);
        case PermanentError =>
          accepting := false;
          step := Stopped;
        case Accepted(stream) =>
          tempDelay := 0;
          var remaining := GetConnsNum();
          if remaining == 0 {
            step := Rejected;
          } else {
            conn := new Conn(this, stream);
            step := Admitted;
          }
      }
    }

    /** Adjust the remaining capacity by `n` (-1 on admission, +1 on close). */
    method SetConnsNum(n: int)
      modifies this`maxConnNum
      ensures maxConnNum == old(maxConnNum) + n
    {
      maxConnNum := maxConnNum + n;
    }

    method GetConnsNum() returns (n: int)
      ensures n == maxConnNum
    {
      n := maxConnNum;
    }

    /** `Close`: raise the shutdown signal and close the listener. */
    method Close()
      requires Valid() && started && !exiting
      modifies this`exiting
      ensures Valid() && exiting
    {
      exiting := true;
    }
  }

  // ---------------------------------------------------------------------
  // Connection.

  class Conn<M> {
    const server: Server<M>
    /** `cap(sendChan)`. */
    const capacity: nat
    /** `closeFlag`, set once by `Close`. */
    var closed: bool
    /** Encoded frames waiting in `sendChan`, front first. */
    var sendQueue: seq<Bytes>
    /** Frames the link accepted, in order. */
    var written: seq<Bytes>
    /** Bytes the peer has sent that `readLoop` has not consumed yet. */
    var incoming: Bytes
    /** Messages handed to the router's `Route`, in order. */
    var routed: seq<M>
    var userData: object?
    /** Every frame `WriteMsg` ever queued, in order. */
    ghost var enqueued: seq<Bytes>

    /**
     * The object invariant: the connection is live exactly while it is open,
     * the queue respects its capacity, and the link receives a prefix of the
     * queued frames in the order they were queued (all of them but those
     * still waiting, while the connection is open).
     */
    ghost predicate Valid()
      reads this, server
    {
      && server.Valid() && server.started
      && (closed <==> this !in server.live)
      && |sendQueue| <= capacity
      && written <= enqueued
      && (!closed ==> enqueued == written + sendQueue)
    }

    /** The state `newConn` leaves a connection in. */
    ghost predicate Fresh(stream: Bytes)
      reads this
    {
      && !closed && sendQueue == [] && written == [] && enqueued == []
      && incoming == stream && routed == [] && userData == null
    }

    function Config(): Parser.Config
      reads server, server.msgParser
      requires server.msgParser != null
    {
      server.msgParser.Cfg()
    }

    function Router(): Processor<M>
      reads server
      requires server.processor.Some?
    {
      server.processor.value
    }

    /** The effects of the one-time close body, compared with the state before. */
    ghost predicate ClosedFrom(wasClosed: bool, counter: int, calls: seq<AgentCall>)
      reads this, server
    {
      && closed
      && server.maxConnNum == counter + (if wasClosed then 0 else 1)
      && server.agentCalls == calls + (if wasClosed || !server.agentRPC then [] else [CloseAgent(this)])
    }

    /** Still open, with the server's counter and notifications untouched. */
    ghost predicate OpenAt(counter: int, calls: seq<AgentCall>)
      reads this, server
    {
      !closed && server.maxConnNum == counter && server.agentCalls == calls
    }

    /**
     * `newConn`: a connection takes one unit of capacity and sends one
     * `NewAgent`. The accept loop calls it only when capacity remains.
     */
    constructor (server: Server<M>, stream: Bytes)
      requires server.Valid() && server.started && server.maxConnNum != 0
      modifies server`maxConnNum, server`live, server`agentCalls
      ensures this.server == server && capacity == server.pendingWriteNum
      ensures Valid() && Fresh(stream)
      ensures server.maxConnNum == old(server.maxConnNum) - 1
      ensures server.live == old(server.live) + {this}
      ensures server.agentCalls == old(server.agentCalls) + (if server.agentRPC then [NewAgent(this)] else [])
    {
      this.server := server;
      capacity := server.pendingWriteNum;
      closed, sendQueue, written, incoming, routed, userData := false, [], [], stream, [], null;
      enqueued := [];
      new;
      if server.agentRPC {
        server.agentCalls := server.agentCalls + [NewAgent(this)];
      }
      server.SetConnsNum(-1);
      server.live := server.live + {this};
    }

    /**
     * `Close`: the first call sets the flag, sends one `CloseAgent` and gives
     * back one unit of capacity; every later call changes nothing.
     */
    method Close()
      requires Valid()
      modifies this`closed, server`maxConnNum, server`live, server`agentCalls
      ensures Valid()
      ensures server.live == old(server.live) - {this}
      ensures ClosedFrom(old(closed), old(server.maxConnNum), old(server.agentCalls))
    {
      if !closed {
        closed := true;
        if server.agentRPC {
          server.agentCalls := server.agentCalls + [CloseAgent(this)];
        }
        server.SetConnsNum(1);
        server.live := server.live - {this};
      }
    }

    /** True exactly when the one-time close body has run: the connection no longer holds capacity. */
    function IsClosed(): (r: bool)
      reads this, server
      requires Valid()
      ensures r <==> this !in server.live
    {
      closed
    }

    /** The slot `SetUserData` last stored. */
    function UserData(): (data: object?)
      reads this
      ensures data == userData
    {
      userData
    }

    method SetUserData(data: object?)
      modifies this`userData
      ensures userData == data && UserData() == data
    {
      userData := data;
    }

    /**
     * `WriteMsg`: nothing on a closed connection; an encode failure drops the
     * message; a full queue closes the connection instead of queueing;
     * otherwise the frame goes to the back of the queue.
     */
    method WriteMsg(msg: M)
      requires Valid()
      modifies this`sendQueue, this`closed, this`enqueued, server`maxConnNum, server`live, server`agentCalls
      ensures Valid()
      ensures server.live == if closed then old(server.live) - {this} else old(server.live)
      ensures old(closed) || Parser.WriteMsg(Config(), Router(), msg).None? ==>
        closed == old(closed) && sendQueue == old(sendQueue)
        && server.maxConnNum == old(server.maxConnNum) && server.agentCalls == old(server.agentCalls)
      ensures !old(closed) && Parser.WriteMsg(Config(), Router(), msg).Some? && old(|sendQueue|) == capacity ==>
        ClosedFrom(false, old(server.maxConnNum), old(server.agentCalls)) && sendQueue == old(sendQueue)
      ensures !old(closed) && Parser.WriteMsg(Config(), Router(), msg).Some? && old(|sendQueue|) < capacity ==>
        var frame := Parser.WriteMsg(Config(), Router(), msg).value;
        OpenAt(old(server.maxConnNum), old(server.agentCalls))
        && sendQueue == old(sendQueue) + [frame] && enqueued == old(enqueued) + [frame]
    {
      if IsClosed() {
        return;
      }
      var frame := Parser.WriteMsg(Config(), Router(), msg);
      if frame.None? {
        return;
      }
      if |sendQueue| == capacity {
        Close();
        return;
      }
      sendQueue := sendQueue + [frame.value];
      enqueued := enqueued + [frame.value];
    }

    /**
     * One iteration of `writeLoop`. The shutdown signal or a closed
     * connection ends the loop; an empty queue blocks (no change); otherwise
     * the front frame is taken and written, and a write error ends the loop.
     */
    method WriteStep(writeOk: bool) returns (running: bool)
      requires Valid()
      modifies this`sendQueue, this`written, this`closed, server`maxConnNum, server`live, server`agentCalls
      ensures Valid()
      ensures server.live == if closed then old(server.live) - {this} else old(server.live)
      ensures old(closed || server.exiting) ==>
        !running && ClosedFrom(old(closed), old(server.maxConnNum), old(server.agentCalls))
        && sendQueue == old(sendQueue) && written == old(written)
      ensures !old(closed || server.exiting) && old(sendQueue) == [] ==>
        running && OpenAt(old(server.maxConnNum), old(server.agentCalls))
        && sendQueue == [] && written == old(written)
      ensures !old(closed || server.exiting) && old(sendQueue) != [] ==>
        && sendQueue == old(sendQueue)[1..]
        && running == writeOk
        && (writeOk ==> OpenAt(old(server.maxConnNum), old(server.agentCalls))
                        && written == old(written) + [old(sendQueue)[0]])
        && (!writeOk ==> ClosedFrom(false, old(server.maxConnNum), old(server.agentCalls))
                         && written == old(written))
    {
      if server.exiting || closed {
        Close();
        return false;
      }
      if sendQueue == [] {
        return true;
      }
      var frame := sendQueue[0];
      if !writeOk {
        // the frame taken off the queue is lost with the connection
        Close();
        sendQueue := sendQueue[1..];
        return false;
      }
      sendQueue := sendQueue[1..];
      written := written + [frame];
      running := true;
    }

    /**
     * One iteration of `readLoop`. The shutdown signal or a closed connection
     * ends the loop; otherwise one frame is read and decoded and the message
     * is routed. A read, decode or route failure ends the loop.
     */
    method ReadStep(routeOk: bool) returns (running: bool)
      requires Valid()
      modifies this`incoming, this`routed, this`closed, server`maxConnNum, server`live, server`agentCalls
      ensures Valid()
      ensures server.live == if closed then old(server.live) - {this} else old(server.live)
      ensures old(closed || server.exiting) ==>
        !running && ClosedFrom(old(closed), old(server.maxConnNum), old(server.agentCalls))
        && incoming == old(incoming) && routed == old(routed)
      ensures !old(closed || server.exiting) ==>
        var r := Parser.ReadMsg(Config(), Router(), old(incoming));
        if r.Err? then
          !running && ClosedFrom(false, old(server.maxConnNum), old(server.agentCalls))
          && incoming == old(incoming) && routed == old(routed)
        else
          && incoming == old(incoming)[r.consumed..]
          && routed == old(routed) + [r.value]
          && running == routeOk
          && (routeOk ==> OpenAt(old(server.maxConnNum), old(server.agentCalls)))
          && (!routeOk ==> ClosedFrom(false, old(server.maxConnNum), old(server.agentCalls)))
    {
      if server.exiting || closed {
        Close();
        return false;
      }
      var r := Parser.ReadMsg(Config(), Router(), incoming);
      if r.Err? {
        Close();
        return false;
      }
      incoming := incoming[r.consumed..];
      routed := routed + [r.value];
      if !routeOk {
        Close();
        return false;
      }
      running := true;
    }
  }

  // ---------------------------------------------------------------------
  // Admission, end to end.

  /**
   * A server with room for one connection admits the first link, turns the
   * second away, and admits a third once the first connection has closed.
   */
  method AdmitOneAtATime(stream: Bytes) returns (first: RunStep, second: RunStep, third: RunStep)
    ensures first == Admitted && second == Rejected && third == Admitted
  {
    var parser := new Parser.MsgParser();
    var router: Processor<Bytes> := Processor(m => Some(m), b => Some(b));
    var server := new Server<Bytes>(1, 0, true, parser, Some(router));
    var init := server.Start(true);
    var c1, c2, c3;
    first, c1 := server.AcceptStep(Accepted(stream));
    second, c2 := server.AcceptStep(Accepted(stream));
    c1.Close();
    third, c3 := server.AcceptStep(Accepted(stream));
  }
  /** A started server with room for two connections that has admitted two. */
  method OpenTwo(stream: Bytes) returns (server: Server<Bytes>, before: int, c1: Conn<Bytes>, c2: Conn<Bytes>)
    ensures fresh(server) && fresh(c1) && fresh(c2) && c1 != c2 && before == 2
    ensures c1.server == server && c2.server == server && c1.Valid() && c2.Valid()
    ensures !c1.closed && !c2.closed && |c2.sendQueue| < c2.capacity
    ensures server.maxConnNum == 0 && server.agentRPC
    ensures server.agentCalls == [NewAgent(c1), NewAgent(c2)]
  {
    var parser := new Parser.MsgParser();
    var router: Processor<Bytes> := Processor(m => Some(m), b => Some(b));
    server := new Server<Bytes>(2, 0, true, parser, Some(router));
    var init := server.Start(true);
    before := server.GetConnsNum();
    var s1, s2, a, b;
    s1, a := server.AcceptStep(Accepted(stream));
    s2, b := server.AcceptStep(Accepted(stream));
    c1, c2 := a, b;
  }

  /**
   * Two connections of one server are used and closed in turn: each close
   * gives back exactly its own unit of capacity and sends its own
   * `CloseAgent`, and leaves the other connection open and usable.
   */
  method CloseInTurn(stream: Bytes, msg: Bytes)
    returns (first: object, second: object, counts: seq<int>, calls: seq<AgentCall>, stillOpen: bool)
    ensures first != second
    ensures counts == [2, 0, 1, 2]
    ensures calls == [NewAgent(first), NewAgent(second), CloseAgent(first), CloseAgent(second)]
    ensures stillOpen
  {
    var server, n0, c1, c2 := OpenTwo(stream);
    var n1 := server.GetConnsNum();
    c1.Close();
    assert c2.Valid() && !c2.closed;
    var n2 := server.GetConnsNum();
    c2.WriteMsg(msg);
    assert !c2.closed && server.agentCalls == [NewAgent(c1), NewAgent(c2), CloseAgent(c1)];
    stillOpen := !c2.IsClosed();
    c2.Close();
    var n3 := server.GetConnsNum();
    first, second, calls, counts := c1, c2, server.agentCalls, [n0, n1, n2, n3];
  }
}
