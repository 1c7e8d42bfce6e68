/**
 * The reliable-datagram (KCP) transport: network/udp/udp_server.go and
 * network/udp/udp_conn.go.
 *
 * As for the stream transport, `MaxConnNum` is remaining capacity and the
 * ghost set `live` holds the admitted connections that are still open. A
 * connection runs three loops: `readLoop` decodes frames into the bounded
 * receive queue, `handleLoop` routes them from its front, and `writeLoop`
 * sends queued frames. Each loop is a step method; deadlines, timeouts, I/O
 * failures and the router's verdict are parameters.
 */
module Udp {
  import opened Network
  import Parser

  // ---------------------------------------------------------------------
  // Server.

  /** `Silent`: `init` returned early without logging a fatal error. */
  datatype InitResult = Started | Silent | Fatal
  datatype AcceptOutcome = Accepted(stream: Bytes) | AcceptError
  datatype RunStep = Retry | Rejected | Admitted

  class Server<M> {
    /** Remaining admission capacity (`MaxConnNum`). */
    var maxConnNum: int
    /** `SendChanLimit` and `RecChanLimit`: capacities of each connection's queues. */
    var sendChanLimit: int
    var recChanLimit: int
    /** `AgentChanRPC != nil`. */
    var agentRPC: bool
    var msgParser: Parser.MsgParser?
    var processor: Option<Processor<M>>
    /** `init` reached its end: the listener, `exitChan` and `waitGroup` are set. */
    var started: bool
    /** `exitChan` has been closed by `Close`. */
    var exiting: bool
    /** Notifications sent to `AgentChanRPC`, in order. */
    var agentCalls: seq<AgentCall>
    ghost var live: set<object>
    ghost var initialMax: int

    ghost predicate Valid()
      reads this
    {
      && maxConnNum + |live| == initialMax
      && (initialMax >= 0 ==> maxConnNum >= 0)
      && (started ==> agentRPC && msgParser != null && processor.Some?)
    }

    /** A server as the gateway fills it in before `Start`. */
    constructor (maxConnNum: int, sendChanLimit: int, recChanLimit: int, agentRPC: bool,
                 msgParser: Parser.MsgParser?, processor: Option<Processor<M>>)
      ensures Valid()
      ensures this.maxConnNum == maxConnNum
      ensures this.sendChanLimit == sendChanLimit && this.recChanLimit == recChanLimit
      ensures this.agentRPC == agentRPC && this.msgParser == msgParser && this.processor == processor
      ensures !started && !exiting && agentCalls == []
      ensures live == {} && initialMax == maxConnNum
    {
      this.maxConnNum := maxConnNum;
      this.sendChanLimit, this.recChanLimit := sendChanLimit, recChanLimit;
      this.agentRPC := agentRPC;
      this.msgParser := msgParser;
      this.processor := processor;
      started, exiting, agentCalls := false, false, [];
      live, initialMax := {}, maxConnNum;
    }

    /**
     * `init`: a failure to listen, or of the first accept, returns quietly
     * with nothing set; only then are the collaborators checked, fatally.
     * The session of that first accept is tuned but never wrapped in a
     * connection, so it takes no capacity and sends no notification.
     */
    method Start(listenOk: bool, firstAcceptOk: bool) returns (r: InitResult)
      requires Valid() && !started
      modifies this`started
      ensures Valid()
      ensures !listenOk || !firstAcceptOk ==> r == Silent
      ensures listenOk && firstAcceptOk ==>
        (r == Started <==> agentRPC && msgParser != null && processor.Some?)
      ensures started == (r == Started)
    {
      if !listenOk {
        return Silent;
      }
      if !firstAcceptOk {
        return Silent;
      }
      if !agentRPC || msgParser == null || processor.None? {
        return Fatal;
      }
      started := true;
      r := Started;
    }

    /**
     * One iteration of `run`. An accept error is retried at once, with no
     * delay and no exit; an accepted link is closed when no capacity remains,
     * and otherwise wrapped in a new connection.
     */
    method AcceptStep(outcome: AcceptOutcome) returns (step: RunStep, conn: Conn?<M>)
      requires Valid() && started
      requires exiting ==> outcome == AcceptError
      requires outcome.Accepted? && maxConnNum != 0 ==> sendChanLimit >= 0 && recChanLimit >= 0
      modifies this`maxConnNum, this`live, this`agentCalls
      ensures Valid()
      ensures conn != null <==> step == Admitted
      ensures live == old(live) + (if conn == null then {} else {conn})
      ensures outcome == AcceptError ==>
        step == Retry && maxConnNum == old(maxConnNum) && agentCalls == old(agentCalls)
      ensures outcome.Accepted? && old(maxConnNum) == 0 ==>
        step == Rejected && maxConnNum == 0 && agentCalls == old(agentCalls)
      ensures outcome.Accepted? && old(maxConnNum) != 0 ==>
        step == Admitted && fresh(conn) && conn.server == this && conn.Valid() && conn.Fresh(outcome.stream)
        && conn.sendCapacity == sendChanLimit && conn.recCapacity == recChanLimit
        && maxConnNum == old(maxConnNum) - 1
        && agentCalls == old(agentCalls) + [NewAgent(conn)]
    {
      conn := null;
      match outcome {
        case AcceptError =>
          step := Retry;
        case Accepted(stream) =>
          var remaining := GetConnsNum();
          if remaining == 0 {
            step := Rejected;
          } else {
            conn := new Conn(this, stream);
            step := Admitted;
          }
      }
    }

    /** Adjust the remaining capacity by `n` (-1 on admission, +1 on close). */
    method SetConnsNum(n: int)
      modifies this`maxConnNum
      ensures maxConnNum == old(maxConnNum) + n
    {
      maxConnNum := maxConnNum + n;
    }

    method GetConnsNum() returns (n: int)
      ensures n == maxConnNum
    {
      n := maxConnNum;
    }

    /** `Close`: raise the shutdown signal and close the listener. */
    method Close()
      requires Valid() && started && !exiting
      modifies this`exiting
      ensures Valid() && exiting
    {
      exiting := true;
    }
  }

  // ---------------------------------------------------------------------
  // Connection.

  class Conn<M> {
    const server: Server<M>
    /** `cap(sendChan)` and `cap(recChan)`. */
    const sendCapacity: nat
    const recCapacity: nat
    /** `closeFlag`, set once by `Close`. */
    var closed: bool
    /** Encoded frames waiting in `sendChan`, front first. */
    var sendQueue: seq<Bytes>
    /** Decoded messages waiting in `recChan`, front first. */
    var recQueue: seq<M>
    /** Frames the link accepted, in order. */
    var written: seq<Bytes>
    /** Bytes the peer has sent that `readLoop` has not consumed yet. */
    var incoming: Bytes
    /** Messages handed to the router's `Route`, in order. */
    var routed: seq<M>
    var userData: object?
    /** Every frame `WriteMsg` ever queued, in order. */
    ghost var enqueued: seq<Bytes>
    /** Every message `readLoop` ever queued, in order. */
    ghost var received: seq<M>

    /**
     * The object invariant: live exactly while open; both queues within
     * capacity; frames reach the link, and messages reach the router, in the
     * order they were queued.
     */
    ghost predicate Valid()
      reads this, server
    {
      && server.Valid() && server.started
      && (closed <==> this !in server.live)
      && |sendQueue| <= sendCapacity && |recQueue| <= recCapacity
      && written <= enqueued
      && (!closed ==> enqueued == written + sendQueue)
      && routed <= received
      && (!closed ==> received == routed + recQueue)
    }

    /** The state `NewConn` leaves a connection in. */
    ghost predicate Fresh(stream: Bytes)
      reads this
    {
      && !closed && sendQueue == [] && recQueue == [] && written == [] && enqueued == []
      && incoming == stream && routed == [] && received == [] && userData == null
    }

    function Config(): Parser.Config
      reads server, server.msgParser
      requires server.msgParser != null
    {
      server.msgParser.Cfg()
    }

    function Router(): Processor<M>
      reads server
      requires server.processor.Some?
    {
      server.processor.value
    }

    /** The effects of the one-time close body, compared with the state before. */
    ghost predicate ClosedFrom(wasClosed: bool, counter: int, calls: seq<AgentCall>)
      reads this, server
    {
      && closed
      && server.maxConnNum == counter + (if wasClosed then 0 else 1)
      && server.agentCalls == calls + (if wasClosed || !server.agentRPC then [] else [CloseAgent(this)])
    }

    /** Still open, with the server's counter and notifications untouched. */
    ghost predicate OpenAt(counter: int, calls: seq<AgentCall>)
      reads this, server
    {
      !closed && server.maxConnNum == counter && server.agentCalls == calls
    }

    /**
     * `NewConn`: a connection takes one unit of capacity and sends one
     * `NewAgent`. Both queues are made with the server's limits, which
     * `make` requires to be non-negative.
     */
    constructor (server: Server<M>, stream: Bytes)
      requires server.Valid() && server.started && server.maxConnNum != 0
      requires server.sendChanLimit >= 0 && server.recChanLimit >= 0
      modifies server`maxConnNum, server`live, server`agentCalls
      ensures this.server == server
      ensures sendCapacity == server.sendChanLimit && recCapacity == server.recChanLimit
      ensures Valid() && Fresh(stream)
      ensures server.maxConnNum == old(server.maxConnNum) - 1
      ensures server.live == old(server.live) + {this}
      ensures server.agentCalls == old(server.agentCalls) + (if server.agentRPC then [NewAgent(this)] else [])
    {
      this.server := server;
      sendCapacity, recCapacity := server.sendChanLimit, server.recChanLimit;
      closed, sendQueue, recQueue, written, incoming, routed, userData := false, [], [], [], stream, [], null;
      enqueued, received := [], [];
      new;
      if server.agentRPC {
        server.agentCalls := server.agentCalls + [NewAgent(this)];
      }
      server.SetConnsNum(-1);
      server.live := server.live + {this};
    }

    /**
     * `Close`: the first call sets the flag, makes one blocking `CloseAgent`
     * call and gives back one unit of capacity; later calls change nothing.
     */
    method Close()
      requires Valid()
      modifies this`closed, server`maxConnNum, server`live, server`agentCalls
      ensures Valid()
      ensures server.live == old(server.live) - {this}
      ensures ClosedFrom(old(closed), old(server.maxConnNum), old(server.agentCalls))
    {
      if !closed {
        closed := true;
        if server.agentRPC {
          server.agentCalls := server.agentCalls + [CloseAgent(this)];
        }
        server.SetConnsNum(1);
        server.live := server.live - {this};
      }
    }

    /** True exactly when the one-time close body has run: the connection no longer holds capacity. */
    function IsClosed(): (r: bool)
      reads this, server
      requires Valid()
      ensures r <==> this !in server.live
    {
      closed
    }

    /** The slot `SetUserData` last stored. */
    function UserData(): (data: object?)
      reads this
      ensures data == userData
    {
      userData
    }

    method SetUserData(data: object?)
      modifies this`userData
      ensures userData == data && UserData() == data
    {
      userData := data;
    }

    /**
     * `WriteMsg`: nothing on a closed connection or after an encode failure;
     * otherwise the frame is queued when there is room and dropped when the
     * one-second wait times out. It never closes the connection.
     */
    method WriteMsg(msg: M)
      requires Valid()
      modifies this`sendQueue, this`enqueued
      ensures Valid()
      ensures var frame := Parser.WriteMsg(Config(), Router(), msg);
        if !closed && frame.Some? && old(|sendQueue|) < sendCapacity then
          sendQueue == old(sendQueue) + [frame.value] && enqueued == old(enqueued) + [frame.value]
        else
          sendQueue == old(sendQueue)
    {
      if IsClosed() {
        return;
      }
      var frame := Parser.WriteMsg(Config(), Router(), msg);
      if frame.None? {
        return;
      }
      if |sendQueue| < sendCapacity {
        sendQueue := sendQueue + [frame.value];
        enqueued := enqueued + [frame.value];
      }
      // otherwise the wait for room times out and the frame is dropped
    }

    /**
     * One iteration of `writeLoop`. The shutdown signal or a closed
     * connection ends the loop; an empty queue blocks; otherwise the front
     * frame is taken, the write deadline is set and the frame written, and a
     * failure of either ends the loop.
     */
    method WriteStep(deadlineOk: bool, writeOk: bool) returns (running: bool)
      requires Valid()
      modifies this`sendQueue, this`written, this`closed, server`maxConnNum, server`live, server`agentCalls
      ensures Valid()
      ensures server.live == if closed then old(server.live) - {this} else old(server.live)
      ensures old(closed || server.exiting) ==>
        !running && ClosedFrom(old(closed), old(server.maxConnNum), old(server.agentCalls))
        && sendQueue == old(sendQueue) && written == old(written)
      ensures !old(closed || server.exiting) && old(sendQueue) == [] ==>
        running && OpenAt(old(server.maxConnNum), old(server.agentCalls))
        && sendQueue == [] && written == old(written)
      ensures !old(closed || server.exiting) && old(sendQueue) != [] ==>
        && sendQueue == old(sendQueue)[1..]
        && running == (deadlineOk && writeOk)
        && (running ==> OpenAt(old(server.maxConnNum), old(server.agentCalls))
                        && written == old(written) + [old(sendQueue)[0]])
        && (!running ==> ClosedFrom(false, old(server.maxConnNum), old(server.agentCalls))
                         && written == old(written))
    {
      if server.exiting || closed {
        Close();
        return false;
      }
      if sendQueue == [] {
        return true;
      }
      var frame := sendQueue[0];
      // the source re-checks the close flag here; in this sequential model
      // the connection cannot have closed since the flag was read above
      if !deadlineOk || !writeOk {
        // the frame taken off the queue is lost with the connection
        Close();
        sendQueue := sendQueue[1..];
        return false;
      }
      sendQueue := sendQueue[1..];
      written := written + [frame];
      running := true;
    }

    /**
     * One iteration of `readLoop`. The shutdown signal or a closed connection
     * ends the loop; a failure to set the read deadline, a read that times
     * out or a frame that cannot be read or decoded ends it too. A decoded
     * message is pushed on the receive queue; while that queue is full the
     * loop blocks (modelled as no change).
     */
    method ReadStep(deadlineOk: bool, timedOut: bool) returns (running: bool)
      requires Valid()
      modifies this`incoming, this`recQueue, this`received, this`closed,
               server`maxConnNum, server`live, server`agentCalls
      ensures Valid()
      ensures server.live == if closed then old(server.live) - {this} else old(server.live)
      ensures old(closed || server.exiting) || !deadlineOk || timedOut ==>
        !running && ClosedFrom(old(closed), old(server.maxConnNum), old(server.agentCalls))
        && incoming == old(incoming) && recQueue == old(recQueue)
      ensures !(old(closed || server.exiting) || !deadlineOk || timedOut) ==>
        var r := Parser.ReadMsg(Config(), Router(), old(incoming));
        if r.Err? then
          !running && ClosedFrom(false, old(server.maxConnNum), old(server.agentCalls))
          && incoming == old(incoming) && recQueue == old(recQueue)
        else if old(|recQueue|) == recCapacity then
          running && OpenAt(old(server.maxConnNum), old(server.agentCalls))
          && incoming == old(incoming) && recQueue == old(recQueue)
        else
          running && OpenAt(old(server.maxConnNum), old(server.agentCalls))
          && incoming == old(incoming)[r.consumed..]
          && recQueue == old(recQueue) + [r.value] && received == old(received) + [r.value]
    {
      if server.exiting || closed {
        Close();
        return false;
      }
      if !deadlineOk || timedOut {
        Close();
        return false;
      }
      var r := Parser.ReadMsg(Config(), Router(), incoming);
      if r.Err? {
        Close();
        return false;
      }
      if |recQueue| == recCapacity {
        return true;
      }
      incoming := incoming[r.consumed..];
      recQueue := recQueue + [r.value];
      received := received + [r.value];
      running := true;
    }

    /**
     * One iteration of `handleLoop`. The shutdown signal or a closed
     * connection ends the loop; an empty receive queue blocks; otherwise the
     * front message is routed, and a route failure ends the loop.
     */
    method HandleStep(routeOk: bool) returns (running: bool)
      requires Valid()
      modifies this`recQueue, this`routed, this`closed, server`maxConnNum, server`live, server`agentCalls
      ensures Valid()
      ensures server.live == if closed then old(server.live) - {this} else old(server.live)
      ensures old(closed || server.exiting) ==>
        !running && ClosedFrom(old(closed), old(server.maxConnNum), old(server.agentCalls))
        && recQueue == old(recQueue) && routed == old(routed)
      ensures !old(closed || server.exiting) && old(recQueue) == [] ==>
        running && OpenAt(old(server.maxConnNum), old(server.agentCalls))
        && recQueue == [] && routed == old(routed)
      ensures !old(closed || server.exiting) && old(recQueue) != [] ==>
        && recQueue == old(recQueue)[1..]
        && routed == old(routed) + [old(recQueue)[0]]
        && running == routeOk
        && (routeOk ==> OpenAt(old(server.maxConnNum), old(server.agentCalls)))
        && (!routeOk ==> ClosedFrom(false, old(server.maxConnNum), old(server.agentCalls)))
    {
      if server.exiting || closed {
        Close();
        return false;
      }
      if recQueue == [] {
        return true;
      }
      var msg := recQueue[0];
      recQueue := recQueue[1..];
      routed := routed + [msg];
      if !routeOk {
        Close();
        return false;
      }
      running := true;
    }
  }

  // ---------------------------------------------------------------------
  // Admission, end to end.

  /**
   * A server with room for one connection admits the first link, turns the
   * second away, and admits a third once the first connection has closed.
   * The session taken by the first accept in `Start` uses none of that room.
   */
  method AdmitOneAtATime(stream: Bytes) returns (first: RunStep, second: RunStep, third: RunStep)
    ensures first == Admitted && second == Rejected && third == Admitted
  {
    var parser := new Parser.MsgParser();
    var router: Processor<Bytes> := Processor(m => Some(m), b => Some(b));
    var server := new Server<Bytes>(1, 8, 8, true, parser, Some(router));
    var init := server.Start(true, true);
    var c1, c2, c3;
    first, c1 := server.AcceptStep(Accepted(stream));
    second, c2 := server.AcceptStep(Accepted(stream));
    c1.Close();
    third, c3 := server.AcceptStep(Accepted(stream));
  }
}
