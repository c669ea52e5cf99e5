/** The records and frames the Paxos servers exchange, as values.
    Times are simulated nanoseconds; identifiers and values are natural numbers
    whose wire widths are stated in module FrameCodec. */
module PaxosData {

  const PROPOSAL: nat := 100
  const ACCEPT: nat := 101
  const DECISION: nat := 102
  const DECISION_ACK: nat := 103

  /** A request is admitted while the waiting queue holds at most this many entries. */
  const QUEUE_LIMIT: nat := 1000

  const HANDLING_DELAY: nat := 10
  const POLL_DELAY: nat := 1000

  datatype Request = Request(timestamp: nat, value: nat)

  datatype Frame = Frame(
    kind: nat, proposerId: nat, proposalId: nat, value: nat, proposeTime: nat,
    acceptorId: nat, acceptTime: nat, decisionTime: nat)

  datatype PropState = Unset | ToBeProposed | ToBeAccepted

  /** The contents of one proposal object. */
  datatype Record = Record(
    id: nat, nodeId: nat, proposerId: nat, value: nat,
    createTime: nat, receiveTime: nat, proposeTime: nat, acceptTime: nat,
    decisionTime: nat, decisionAckTime: nat,
    numAck: nat, numDecisionAck: nat, state: PropState)

  const BLANK: Record := Record(0, 0, 0, 0, 0, 0, 0, 0, 0, 0, 0, 0, Unset)

  /** One line of a server's decision log. */
  datatype Row = Row(index: nat, proposalId: nat, proposerId: nat, value: nat, decidedTime: nat)

  /** The contents of one server: the FIFO of waiting proposals, the proposals in flight, the
      proposals accepted for others, the decided heap (in push order) and the written log. */
  datatype Server = Server(
    waiting: seq<Record>, proposals: map<nat, Record>, accepted: map<nat, Record>,
    decided: seq<Record>, log: seq<Row>)

  /** Cluster parameters. `lossless` and `bounded` describe the network, not the code, and `lag`
      the servers' clocks: by how much each is behind the fastest clock the error bound allows.
      Two clocks that are each off by at most `clockError` are at most twice that apart, so a
      clock of error e has lag `clockError` - e. A simulation, which has one clock, has equal lags. */
  datatype Config = Config(
    n: nat, async: bool, leader: nat, clockError: nat, delay: nat,
    start: nat, stop: nat, interval: nat, lossless: bool, bounded: bool, lag: seq<nat>)
  {
    function Slot(): nat { 2 * clockError + delay }

    function Period(): nat { Slot() * n }

    function Lag(i: nat): nat { if i < |lag| then lag[i] else 0 }

    /** When server i starts its r-th round. */
    function TurnStart(i: nat, r: nat): nat { start + Lag(i) + (i + r * n) * Slot() }

    ghost predicate Valid() {
      && n >= 1 && leader < n && 0 < start <= stop && interval > 0
      && |lag| == n && forall i :: 0 <= i < n ==> lag[i] <= 2 * clockError
    }
  }

  datatype Event =
    | CreateProposal(request: Request)
    | SendAccept(frame: Frame)
    | AsyncPropose
    | SyncPropose
    | StopApplication

  /** What a handler leaves behind: packets to send and events to schedule. */
  datatype Output =
    | Send(dst: nat, frame: Frame)
    | Schedule(delay: nat, event: Event)

  datatype Effect = Effect(server: Server, outputs: seq<Output>)
}
