/**
 * Types shared by the frame codec and the three transports: byte and
 * fixed-width integer ranges, the application's message router
 * (network/processor.go) and the notifications a connection sends to the
 * job-dispatch collaborator.
 */
module Network {

  /** Go's `byte`. */
  type uint8 = x: int | 0 <= x < 0x100

  /** Go's `uint32`. */
  type uint32 = x: int | 0 <= x < 0x1_0000_0000

  type Bytes = seq<uint8>

  const Two32: int := 0x1_0000_0000

  /** Go's conversion `uint32(x)` of an integer: keeps the low 32 bits. */
  function ToUint32(x: int): (r: uint32)
    ensures 0 <= x < Two32 ==> r == x
    ensures (r - x) % Two32 == 0
  {
    x % Two32
  }

  datatype Option<+T> = None | Some(value: T)

  /**
   * The application's router. `Marshal` and `Unmarshal` are foreign code that
   * may fail (None). `Route` depends on application state and is not a
   * function of the message, so each step that routes takes its outcome as a
   * parameter instead.
   */
  datatype Processor<!M> = Processor(marshal: M -> Option<Bytes>, unmarshal: Bytes -> Option<M>)

  /**
   * A notification to the job-dispatch collaborator (`AgentChanRPC`), with
   * the connection as its payload.
   */
  datatype AgentCall = NewAgent(agent: object) | CloseAgent(agent: object)

  /**
   * An abstract restatement of the admission rule that every server's accept
   * step and every connection's `Close` apply, on the pair (remaining
   * capacity, number of live connections) alone. `steps` lists events in
   * order: true is an accepted link, admitted only while capacity remains;
   * false is the close of one live connection. The classes keep the same
   * balance in their `Valid()`; this function lets it be stated over any
   * sequence of events without building the objects.
   */
  function Replay(counter: int, live: nat, steps: seq<bool>): (r: (int, nat))
    decreases |steps|
  {
    if steps == [] then (counter, live)
    else if steps[0] then
      if counter == 0 then Replay(counter, live, steps[1..])
      else Replay(counter - 1, live + 1, steps[1..])
    else if live == 0 then Replay(counter, live, steps[1..])
    else Replay(counter + 1, live - 1, steps[1..])
  }

  /**
   * Any interleaving of admissions and releases of live connections keeps
   * the remaining capacity between 0 and the configured maximum, and capacity
   * plus live connections is always that maximum.
   */
  lemma {:induction false} ReplayStaysInRange(counter: int, live: nat, steps: seq<bool>)
    requires counter >= 0
    ensures var (c, l) := Replay(counter, live, steps);
      c + l == counter + live && 0 <= c <= counter + live
    decreases |steps|
  {
    if steps != [] {
      if steps[0] {
        if counter == 0 {
          ReplayStaysInRange(counter, live, steps[1..]);
        } else {
          ReplayStaysInRange(counter - 1, live + 1, steps[1..]);
        }
      } else if live == 0 {
        ReplayStaysInRange(counter, live, steps[1..]);
      } else {
        ReplayStaysInRange(counter + 1, live - 1, steps[1..]);
      }
    }
  }
}
