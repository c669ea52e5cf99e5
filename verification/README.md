# A verified model of the synchronous Paxos simulation

The project models the replicated-log protocol of `sync-paxos/`: a cluster of `n` servers, one
client and a network, in both of its modes. In the *synchronous* mode every server broadcasts in
its own time slot; in the *asynchronous* mode a single leader has one proposal in flight at a time
and needs a second round of acknowledgements before it records a decision. Three small algorithms
of the repository are verified beside it: the load order of the Python bindings, the resumable
writer of the large TCP transfer example, and the one-pass averages of the scheduler benchmark.

## How it is built

- `PaxosData` holds the frames and records, `Handlers` says as functions what every handler does to
  a server's contents and what it sends and schedules, `DecisionLog` describes the decided heap.
- `ProposalObject` and `PaxosServer` are the server in the form it has in C++: a class whose queue,
  maps and heap hold shared proposal objects that handlers change in place, with the broadcast,
  receive and drain loops. Each method is proved to do exactly what its `Handlers` function says, and its
  contract says field by field what that is: which object joins or leaves which container, with which
  contents, and which frames and events come out.
  Only proposals that are waiting or in flight may be changed by any method (its `modifies` clause
  names no others), those are never on the heap, and none that was elsewhere becomes one of them
  again; so nothing changes after it is pushed, over any sequence of calls (`Serve`).
- `Cluster` composes the same handler functions into a discrete-event simulation: server contents,
  one agenda of packets and timed events, the client, and a history that no step reads. A step
  fires one agenda item, drops a packet (unless the network is lossless), or lets time pass up to the
  next due event. `Reached` holds of a world when some run, of any length, from some initial world
  ends in it.
- `Snapshots`, `Invariant`, `SafeMoves`, `FlowMoves`, `InvariantMoves`, `AgendaInvariant` and
  `Steps` prove one inductive invariant over every step; `Runs` extends it to whole runs.
- `Provenance` says where every field of a frame in flight, a record and a log row comes from: which
  time is whose, and which vote is behind a decision.
- `Agreement` (with loss and reordering), `Completeness` (lossless network), `Timing` (bounded
  delays, slots and clocks), `Progress` and `Deadlines` (when a log is complete and how long a request
  takes once it waits) state the theorems.
- `Requests` follows a request from the client's send, `ClientClock` says when the client sends,
  `Stability` and `Overload` when the queues stay short and when exactly requests are turned away,
  `WrittenLogs` what the logs say, known before the run; `LeaderTurns` and `LeaderLoad` do the same
  for the asynchronous leader. `TimeFlows` shows that every run can go on to any later time.
- `ConcreteRuns` follows runs step by step: `LateDecision`, `LateAck` and `TwoInFlight` reach worlds
  that show three of the conditions to be needed.
- `RoundRobin` and `PaxosClient` are the client; `FrameCodec` and `WireFidelity` are the bytes on
  the wire.

The steps are atomic handlers in any order the due times allow, so every interleaving of events of
the same instant is covered, not just the simulator's.

## Assumptions

- `serverId`, node id and position in the node list coincide (`paxos-topology-clos.cc:158-183`).
- One client with a positive interval: request timestamps, which become proposal ids, are distinct.
  Where its round robin matters, the number of servers fits 32 bits.
- Simulated time is nonzero when the servers start, because a zero decision time means "undecided".
- The network never duplicates or corrupts a packet. It may reorder packets and, unless
  `Config.lossless` is set, drop them; if `Config.bounded` is set, delivery takes at most
  `Config.delay`.
- The receive loop only classifies packets and schedules their handlers for the same instant. In the
  cluster the delivery of a frame and its handler are one step: the delivery itself changes nothing,
  and deliveries already come in any order.
- Every server keeps its own clock. The code schedules by perfect clocks, and its `m_clockSyncError`
  only widens the slots; the model lets server i start `Config.lag[i]` after the fastest clock that
  the error bound permits, with constant lags of 0 to 2 err. All lags 0 is the simulator's run. The stop event
  and the client's first request come at the same instant everywhere.
- Fields of a proposal that its constructor leaves unset are 0 until they are set.
- The stop event writes the log once; what is pushed on the heap later is never written.
- Timestamps, random values and the text-to-time parser are parameters.

How often the client sends decides which of these theorems apply. Those of `Stability` and
`WrittenLogs` need n intervals to last at least a period. The program's own topology never
configures that: it gives the synchronous client a tenth of the delay
(`paxos-topology-clos.cc:208-212`), with which `Overload.WiredIsFast` shows it at least ten times too
fast, and `Overload.WiredOverloads` when the queues overflow. With any other interval,
`Overload.StableExactly` draws the line. In asynchronous mode the topology sets a fifth of the link
delay, which is not part of this model; `LeaderLoad` needs n intervals to last at least an exchange.

Where comments and documentation differ from the code, the model follows the code: the waiting
queue is described as limited to 1000 and holds up to 1001 entries; the introduction draws the client
sending to all servers while it sends each request to one.

## Model

| member | source | states |
|---|---|---|
| DecisionLog.DrainPermutes | sync-paxos/paxos-app-server.cc:101-107 | the drained log is a permutation of the heap |
| DecisionLog.DrainSorted | sync-paxos/paxos-app-server.h:25-30 | the drained log is in the order of proposal ids |
| DecisionLog.DrainStrict | sync-paxos/paxos-app-server.cc:101-107 | with distinct ids the order is strict and the same ids come out |
| DecisionLog.DrainUnique | sync-paxos/paxos-app-server.cc:101-107 | heaps that hold the same ids and agree on them drain to the same entries, whatever the push order |
| DecisionLog.SameRows | sync-paxos/paxos-app-server.cc:101-107 | two agreeing heaps give identical rows if and only if they hold the same ids |
| DecisionLog.SharedOrder | sync-paxos/paxos-app-server.cc:101-107 | any two drained logs list the ids they share in the same relative order |
| DecisionLog.FirstMinimum | sync-paxos/paxos-app-server.h:25-30 | the first record that no other precedes is the one the heap gives up |
| ProposalObject.Proposal.IncrementNumAck | sync-paxos/paxos-common.cc:66-68 | one more acknowledgement and no other field changed |
| ProposalObject.Proposal.IncrementNumDecisionAck | sync-paxos/paxos-common.cc:121-124 | one more decision acknowledgement and no other field changed |
| PaxosServer.PaxosAppServer.constructor | sync-paxos/paxos-app-server.cc:19-25 | a new server holds nothing |
| PaxosServer.PaxosAppServer.SendToOthers | sync-paxos/paxos-app-server-proposer.cc:133-156 | the loop sends one copy to every node but the sender, in node order: copy k goes to node k, or k + 1 from the sender on |
| PaxosServer.PaxosAppServer.SendDecisionMessage | sync-paxos/paxos-app-server.cc:307-335 | the frame goes to every other node with kind 102 and the time of the call as decision time, otherwise unchanged |
| PaxosServer.PaxosAppServer.ReceiveRequest | sync-paxos/paxos-app-server-listener.cc:42-66 | as many creations are scheduled as there are packets, and the k-th is that of the k-th packet, 10 ns later; none by an asynchronous server that does not lead |
| PaxosServer.PaxosAppServer.CreateProposalFromRequest | sync-paxos/paxos-app-server-listener.cc:68-94 | a request that finds more than 1000 waiting changes nothing; one that finds at most 1000 leaves the queue one longer, by a new object whose every field is given |
| PaxosServer.PaxosAppServer.DoPropose | sync-paxos/paxos-app-server-proposer.cc:93-163 | the head of the queue, changed in place in five fields, becomes in flight under its id, and a PROPOSAL of it, with the time of the call, goes to every other node; with an empty queue nothing happens |
| PaxosServer.PaxosAppServer.DoSyncPropose | sync-paxos/paxos-app-server-proposer.cc:45-62 | one broadcast round and the next timer a period later, or nothing once stopped |
| PaxosServer.PaxosAppServer.DoAsyncPropose | sync-paxos/paxos-app-server-proposer.cc:64-91 | a proposal if one waits, otherwise another poll 1 us later, or nothing once stopped |
| PaxosServer.PaxosAppServer.StartApplication | sync-paxos/paxos-app-server.cc:55-82 | the period is n slots of twice the clock error plus the delay, and a synchronous server arms its first turn as many slots from now as its number |
| PaxosServer.PaxosAppServer.StartProposerThread | sync-paxos/paxos-app-server-proposer.cc:5-33 | a synchronous server arms its own slot, the asynchronous leader takes a turn, others do nothing |
| PaxosServer.PaxosAppServer.DoReceivedProposalMessage | sync-paxos/paxos-app-server.cc:212-235 | the accepted map gets a new record whose every field is given, and the frame, stamped with this server and this time, is to be answered 10 ns later |
| PaxosServer.PaxosAppServer.SendAcceptMessage | sync-paxos/paxos-app-server.cc:237-255 | the proposer is sent the frame with kind 101, this server as acceptor and the time of the sending, not of the receipt, as accept time |
| PaxosServer.PaxosAppServer.DoReceivedAcceptMessage | sync-paxos/paxos-app-server.cc:257-305 | a vote for an unknown or foreign proposal changes nothing; otherwise it is counted in place, and if that makes more than n / 2 and none has decided, the object gets its decision time, every other node a DECISION, and in synchronous mode the object moves to the heap |
| PaxosServer.PaxosAppServer.DoReceivedDecisionMessage | sync-paxos/paxos-app-server.cc:337-377 | a new record whose every field is given is pushed, and in asynchronous mode the proposer is sent a DECISION_ACK with this server in its proposer field |
| PaxosServer.PaxosAppServer.DoReceivedDecisionAckMessage | sync-paxos/paxos-app-server.cc:379-419 | the acknowledgement is counted in place; if that makes more than n / 2 for the first time, the object gets its time, moves to the heap and the leader broadcasts the next proposal, or looks again after 1 us, or is stopped |
| PaxosServer.PaxosAppServer.ReceiveMessage | sync-paxos/paxos-app-server.cc:166-210 | every packet up to the first of unknown kind is scheduled for its handler, in order; the batch is fatal if and only if some packet is not of kind 100 to 103, before any handler has run, and the server itself does not change |
| PaxosServer.PaxosAppServer.RunScheduled | sync-paxos/paxos-app-server.cc:180-203 | the handlers scheduled by one batch, run in order, do to the server what `ReceiveAll` does to its contents |
| PaxosServer.ReceiveLast | sync-paxos/paxos-app-server.cc:180-203 | `ReceiveAll` passes over no packet: one more at the end is handled on what the others have left, and its outputs come last |
| PaxosServer.PaxosAppServer.HandleEvent | sync-paxos/paxos-app-server-proposer.cc:45-91 | every scheduled event does to the object what the cluster model does to its contents |
| PaxosServer.PaxosAppServer.Serve | sync-paxos/paxos-app-server.cc:212-419 | over any sequence of events and frames no object that was on the heap or among the accepted, nor any other object the server did not hold open, is ever changed |
| PaxosServer.PaxosAppServer.Close | sync-paxos/paxos-app-server.cc:293-299 | an object in flight leaves the map for the heap and is no longer open to change |
| PaxosServer.PaxosAppServer.Top | sync-paxos/paxos-app-server.cc:104 | the comparison loop finds the record the heap would give up first |
| PaxosServer.PaxosAppServer.StopApplication | sync-paxos/paxos-app-server.cc:84-110 | the heap is left empty; the log has one row for every record it held, in the order of ids, and row k has number k and the id, node, value and decision time of one of the objects that were on the heap |
| Runs.StartsAsScheduled | sync-paxos/paxos-app-server-proposer.cc:5-33 | the cluster's first agenda holds what the started servers schedule, each by its own clock |
| Runs.InitialHolds | sync-paxos/paxos-app-server.cc:55-82 | every initial world satisfies the invariant |
| Steps.StepKeeps | sync-paxos/paxos-app-server.cc:166-419 | every step of the cluster, in either mode, keeps the invariant |
| Runs.ReachableSized | sync-paxos/paxos-app-server.cc:19-25 | every run keeps one server, and one history, per node |
| Runs.ReachableHolds | sync-paxos/paxos-app-server.cc:166-419 | every reachable world satisfies the invariant |
| Runs.RunAppends | sync-paxos/paxos-app-server.cc:284-299 | along any run records of decisions only grow, and no ballot and no decision time is ever revised |
| Runs.BroadcastOnce | sync-paxos/paxos-app-server.cc:284-289 | a DECISION frame that any step sends belongs to the first and only broadcast for its id, despite late ACCEPTs |
| Provenance.FrameStamps | sync-paxos/paxos-app-server.cc:212-377 | every frame in flight is of a broadcast proposal, with its value and propose time; a PROPOSAL, an ACCEPT and a DECISION carry the time at which they were sent as propose, accept and decision time, an ACCEPT goes to its proposer and names a server that has accepted, a DECISION_ACK goes to the proposer and names a server that has recorded |
| Provenance.AnswerStamps | sync-paxos/paxos-app-server.cc:223-234 | an acceptance still to be sent waits on the server it names, which has accepted, and is due 10 ns after the time it carries |
| Provenance.WaitingFields | sync-paxos/paxos-app-server-listener.cc:78-92 | every field of a waiting record but its time of receipt is that of the request whose time is its id, or unset |
| Provenance.FlightFields | sync-paxos/paxos-app-server.cc:271-292 | and of one in flight that of its broadcast, its decision or the number of its distinct voters, except for its time of receipt and its second counter |
| Provenance.AcceptedFields | sync-paxos/paxos-app-server.cc:212-222 | an accepted record has the proposer, value and propose time of another server's broadcast and an accept time that has come |
| Provenance.DecidedFields | sync-paxos/paxos-app-server.cc:337-350 | every record ever pushed has the proposer, value and propose time of the broadcast and the time of the decision |
| Provenance.RowFields | sync-paxos/paxos-app-server.cc:101-107 | row k of any log is numbered k and has the proposer and value of the broadcast, and the decision time, of the proposal whose id it shows |
| Provenance.DecisionIsVote | sync-paxos/paxos-app-server.cc:257-335 | every DECISION in flight names the acceptor and the time of sending of the very ACCEPT whose handling, somewhere in the run, made the majority, and the time of that handling |
| Provenance.RecordIsVote | sync-paxos/paxos-app-server.cc:337-350 | and every record that was learned from another server has the same two times |
| Agreement.DecidedAgree | sync-paxos/paxos-app-server.cc:257-377 | records ever pushed for the same id on any two servers, written or not, have the same proposer, value, propose time and decision time |
| Agreement.LogsAgree | sync-paxos/paxos-app-server.cc:101-107 | written logs agree on every row they share |
| Agreement.LogsOrdered | sync-paxos/paxos-app-server.cc:101-107 | written logs list shared proposals in the same order even when messages were lost |
| Agreement.LogSorted | sync-paxos/paxos-app-server.cc:84-110 | a written log is the drained permutation of exactly what was decided before the stop, numbered from 0, in strictly increasing order of ids |
| Agreement.ExactlyOnce | sync-paxos/paxos-app-server.cc:271-299 | no server decides an id twice, no id on its heap is also in its log, and no id is broadcast as decided twice |
| Agreement.CounterIsQuorum | sync-paxos/paxos-app-server.cc:271-285 | the ack counter is 1 plus the number of distinct acceptors counted, all of which hold the proposal, and never exceeds n |
| Agreement.DecisionCounterIsQuorum | sync-paxos/paxos-app-server.cc:379-404 | once the decision is broadcast the second counter is 1 plus the number of distinct servers whose DECISION_ACK was counted, all of which have recorded the decision, and never exceeds n |
| Agreement.DecisionQuorum | sync-paxos/paxos-app-server.cc:222-289 | every id a server has ever decided, written or not, is accepted by at least floor(n/2) servers besides its proposer |
| Agreement.LogQuorum | sync-paxos/paxos-app-server.cc:84-110 | so is the id of every row of a written log |
| Agreement.FrameQuorum | sync-paxos/paxos-app-server.cc:307-335 | so is the id of every DECISION in flight, which names the proposer, value and propose time of its ballot |
| Agreement.QuorumsIntersect | sync-paxos/paxos-app-server.cc:285-289 | the quorums of any two decided ids share a server |
| Agreement.LeaderDurable | sync-paxos/paxos-app-server.cc:351-418 | whatever the asynchronous leader has ever decided, at least floor(n/2) other servers have decided identically |
| Agreement.LogDurable | sync-paxos/paxos-app-server.cc:84-110 | at least floor(n/2) other servers have decided the very entry of each row of the leader's log |
| Agreement.Conservation | sync-paxos/paxos-app-server-listener.cc:68-94 | what a server created is, in order, what it issued and what waits; what it issued is the disjoint union of in flight and decided; at most 1001 wait |
| Agreement.Validity | sync-paxos/paxos-app-client.cc:92-111 | every id and value a server has ever decided are those of a request addressed to the recorded proposer, which is the leader in asynchronous mode |
| Agreement.LogValidity | sync-paxos/paxos-app-server.cc:84-110 | so are those of every row of a written log |
| Agreement.FrameValidity | sync-paxos/paxos-app-server.cc:307-335 | and those of every DECISION in flight |
| Agreement.NoFatalFrame | sync-paxos/paxos-app-server.cc:180-255 | every frame in flight is of one of the four kinds, and the destination, proposer and acceptor of every frame in flight and of every answer still to be sent are below n |
| Agreement.SingleFlight | sync-paxos/paxos-app-server-proposer.cc:9-25 | pending polls plus proposals in flight at the leader are exactly 1 until the stop time and at most 1 afterwards |
| Agreement.LeaderFifo | sync-paxos/paxos-app-server.cc:403-417 | the leader's creation order is its decided order, then the one in flight, then the queue |
| Completeness.LogEquality | sync-paxos/paxos-app-server.cc:257-377 | in a lossless run with n of at least 2, when no frame and no pending answer remains, nothing is in flight and all heaps drain to identical logs |
| Completeness.WrittenLogsEqual | sync-paxos/paxos-app-server.cc:84-110 | the logs of two servers are then identical if and only if their heaps, which hold what came after the log was written, have the same ids; Deadlines.LogsIdentical gives a condition on broadcast times |
| Completeness.AllRequestsDecided | sync-paxos/paxos-app-server-listener.cc:42-94 | with no request and no proposal waiting, every server has decided exactly the requests that were not turned away |
| Completeness.AloneNeverDecides | sync-paxos/paxos-app-server.cc:284-289 | a lone server never decides anything |
| Timing.ProposerLatency | sync-paxos/paxos-app-server.cc:212-305 | a proposal broadcast at T is decided by T + 2D + 10 ns, and in synchronous mode its proposer has it in its heap |
| Timing.ClusterLatency | sync-paxos/paxos-app-server.cc:307-377 | by T + 3D + 10 ns every other server has it in its heap |
| Timing.LeaderLatency | sync-paxos/paxos-app-server.cc:351-418 | by T + 4D + 10 ns the asynchronous leader has it in its heap |
| Timing.TimerSlot | sync-paxos/paxos-app-server-proposer.cc:30-31 | the timer of server i after k rounds is due at start + lag + (i + k n)(2 err + D) |
| Timing.BallotSlot | sync-paxos/paxos-app-server-proposer.cc:56-59 | every broadcast was made at the start of a slot of its proposer, by that server's clock |
| Timing.SlotsDistinct | sync-paxos/paxos-app-server.cc:67 | a slot has one owner and one proposal; two proposals are at least the delay apart, and a whole slot if their proposers' clocks agree |
| Timing.BroadcastRate | sync-paxos/paxos-app-server.cc:67 | if clocks differ by at most skew, a window of length L holds at most floor((L + skew) / slot) + 1 broadcast proposals |
| Timing.ThreeServersSuffice | sync-paxos/paxos-app-server.cc:67 | for n of at least 3 and D above 10 ns a period exceeds 2D + 10 ns |
| Timing.EmptyAtTurn | sync-paxos/paxos-app-server-proposer.cc:45-62 | then, with delays bounded and nothing lost, a server has nothing in flight at its propose instants |
| Timing.OneInFlight | sync-paxos/paxos-app-server-proposer.cc:45-62 | and never more than one proposal at any time |
| Timing.ProposalsArrive | sync-paxos/paxos-app-server.cc:67 | whatever the clocks within their error, in every reachable world a PROPOSAL of a slot still in flight precedes the start of every later slot |
| Timing.SlotsDoNotOverlap | sync-paxos/paxos-app-server.cc:67 | when a server starts its turn no PROPOSAL is in flight, except one that is due at that very instant from a server whose clock differs by the whole error bound |
| TwoInFlight.NeedsLongTurns | sync-paxos/paxos-app-server-proposer.cc:45-62 | for every delay and clock error that make the period of two servers at most 2D + 10 ns, with slots of at least 10 ns and a client that sends once in a slot, a timely lossless run reaches a propose instant with one proposal in flight, and then two |
| TwoInFlight.OneInFlightExactly | sync-paxos/paxos-app-server-proposer.cc:45-62 | so in these two-server clusters the proposer never has two in flight if and only if a period exceeds 2D + 10 ns |
| Progress.ReachableScheduled | sync-paxos/paxos-app-server.cc:84-110 | in every reachable world a server's stop event still waits, or the stop time has come and, on a bounded network, all it has recorded since was broadcast too late; and a synchronous server's next turn is armed or comes after the stop |
| Progress.RunQueued | sync-paxos/paxos-app-server-proposer.cc:93-163 | first come, first served: along any run a proposal at place q of a queue whose server has had r turns is broadcast in turn r + q, if at all |
| Deadlines.EarlyIsWritten | sync-paxos/paxos-app-server.cc:84-110 | on a bounded lossless network a proposal broadcast more than 3D + 10 ns before the stop is in every written log (4D + 10 ns for the asynchronous leader) |
| Deadlines.LogComplete | sync-paxos/paxos-app-server.cc:84-110 | if all were broadcast that early, the log lists exactly the proposals ever broadcast and nothing is left on the heap |
| Deadlines.LogsIdentical | sync-paxos/paxos-app-server.cc:84-110 | and all written logs are identical, row for row; WrittenLogs.LogsInAdvance gives a condition on the configuration |
| Deadlines.BroadcastInTurn | sync-paxos/paxos-app-server-proposer.cc:45-62 | along any synchronous run a proposal that waits behind q others is broadcast exactly at the start of its server's q-th turn from now, unless the stop comes first |
| Deadlines.RequestLatency | sync-paxos/paxos-app-server-listener.cc:42-94 | on a bounded lossless synchronous cluster it is decided on every server within q + 1 periods and 3D + 10 ns, unless the stop comes first |
| LateDecision.BoundIsTight | sync-paxos/paxos-app-server.cc:84-110 | the time condition cannot be weakened by 1 ns: a timely lossless run whose only proposal is broadcast exactly 3D + 10 ns before the stop ends, quiet, with different logs |
| LateAck.LeaderBoundIsTight | sync-paxos/paxos-app-server.cc:379-418 | nor can the leader's: in a timely lossless asynchronous run the only proposal is broadcast exactly 4D + 10 ns before the stop, and the leader's log lacks it |
| Requests.JoinsInTime | sync-paxos/paxos-app-server-listener.cc:42-94 | on a bounded lossless cluster, in either mode, a request that is not turned away joins the end of the queue of the server it was sent to within D + 10 ns |
| Requests.CreationFires | sync-paxos/paxos-app-server-listener.cc:68-94 | in the cluster a request joins the end of a queue of at most 1000 as a record whose every field is given, and is turned away by a longer one |
| Requests.RequestServed | sync-paxos/paxos-app-server-listener.cc:42-94 | in synchronous mode, if that is place q, it is on every server at most D + 10 ns, q + 1 periods and 3D + 10 ns after the client sent it, unless the stop comes first |
| LeaderTurns.LeaderServes | sync-paxos/paxos-app-server-proposer.cc:64-91 | on a bounded lossless asynchronous cluster a proposal behind q others at the leader is on every server within q + 1 exchanges of 4D + 10 ns, plus one poll if the leader is idle and one exchange if it is not |
| LeaderTurns.LeaderServesRequest | sync-paxos/paxos-app-server-listener.cc:42-94 | the same from the client's send, D + 10 ns more |
| ClientClock.KeepsTime | sync-paxos/paxos-app-client.cc:79-119 | in every reachable world the j-th request was sent j intervals after the start, before the stop, to the j-th server in turn, and the client's timer stands for the next one |
| ClientClock.RequestsApart | sync-paxos/paxos-app-client.cc:79-119 | two requests to the same server are at least n intervals apart |
| Stability.ShortQueue | sync-paxos/paxos-app-server-listener.cc:68-94 | in synchronous mode with bounded delays, if n intervals last at least a period, a queue together with all requests on the way to it is at most 2 + (D + 10 ns) / period long |
| Stability.NoneTurnedAway | sync-paxos/paxos-app-server-listener.cc:68-77 | then no request is ever turned away, even if messages are lost |
| Stability.EveryRequestServed | sync-paxos/paxos-app-server-listener.cc:42-94 | and if none is lost, every request is on every server 2 periods + 5D + 30 ns after it was sent, unless the stop comes before its turn |
| Overload.Accounted | sync-paxos/paxos-app-server-listener.cc:68-94 | conservation of requests: those sent to a server are at most those turned away, its rounds, a full queue and those on the way |
| Overload.Overloaded | sync-paxos/paxos-app-server-listener.cc:68-77 | with lap for n intervals and t for the time since the start: once t (period - lap) exceeds (1000 + (D + 10 ns) / lap + 4) period lap, every server of a lossless run has turned requests away |
| Overload.StableExactly | sync-paxos/paxos-app-server-listener.cc:68-77 | so a lossless run that has gone on that long, or any in which a lap lasts at least a period, has turned no request away if and only if n intervals last at least a period |
| Overload.NotBefore | sync-paxos/paxos-app-server-listener.cc:68-77 | whatever the rates, losses and delays, no server that takes requests turns one away before it was sent 1002, nor before the client has gone round 1001 times |
| Overload.WiredIsFast | sync-paxos/paxos-topology-clos.cc:208-212 | with the topology's interval, a tenth of the delay in 32 bits, at least ten requests reach each server in a period, so the client is never slow enough |
| Overload.WiredOverloads | sync-paxos/paxos-topology-clos.cc:208-212 | with that interval each server of a lossless run turns requests away, no earlier than 1001 laps after the start and no later than a ninth more than 1004 laps, a delivery and 10 ns |
| WrittenLogs.EarlyRequestWritten | sync-paxos/paxos-app-server.cc:84-110 | on a bounded lossless synchronous cluster with n intervals of at least a period, every log has every request sent more than 2 periods + 5D + 30 ns before the stop |
| WrittenLogs.LogsBeginAlike | sync-paxos/paxos-app-server.cc:84-110 | so all written logs begin with the same rows, which are exactly those requests, whatever the stop cuts off after them |
| WrittenLogs.LogsInAdvance | sync-paxos/paxos-app-server.cc:84-110 | and if the last send is that early, a condition on the configuration alone, every log is the same and row k is the k-th request of the client, proposed by the k-th server in turn |
| LeaderLoad.LeaderQueueShort | sync-paxos/paxos-app-server-listener.cc:68-94 | on a bounded lossless asynchronous cluster, if n intervals last at least an exchange of 4D + 10 ns, the leader's queue and all that is on the way to it take at most two exchanges and a poll |
| LeaderLoad.LeaderTurnsNoneAway | sync-paxos/paxos-app-server-listener.cc:42-77 | then the leader turns no request away |
| LeaderLoad.EveryLeaderRequestServed | sync-paxos/paxos-app-server-listener.cc:42-94 | and every request sent to it is on every server D + 10 ns, three exchanges and two polls later, unless the stop comes before its turn |
| TimeFlows.TimeGoesOn | sync-paxos/paxos-app-server-proposer.cc:45-91 | in asynchronous mode or with slots of positive length, every reachable world has a continuation, without a lost packet, to any later time: no instant blocks time and none lasts for ever |
| TimeFlows.FlowsExactly | sync-paxos/paxos-app-server-proposer.cc:45-62 | simulated time gets past every instant if and only if the mode is asynchronous, slots have positive length, or the stop comes at the start |
| RoundRobin.SendOffset | sync-paxos/paxos-app-client.cc:101-103 | send j goes j places round from the server that is the 32-bit successor of the initial value, modulo n |
| RoundRobin.Balance | sync-paxos/paxos-app-client.cc:101-107 | from any initial value, k sends address a server floor(k/n) times, plus one exactly if its place in the round comes before k mod n |
| RoundRobin.EachOnce | sync-paxos/paxos-app-client.cc:101-107 | any n consecutive sends address each server exactly once |
| RoundRobin.AllOnesStart | sync-paxos/paxos-app-client.cc:102 | from 4294967295, send j goes to server j mod n |
| PaxosClient.PaxosAppClient.SendRequest | sync-paxos/paxos-app-client.cc:79-119 | the 32-bit successor of the last server, modulo n, is sent one request, stamped now, and the next timer is an interval away; nothing once stopped |
| PaxosClient.RequestsBalanced | sync-paxos/paxos-app-client.cc:79-119 | in every reachable world each server was sent floor(k/n) or ceil(k/n) of the k requests |
| FrameCodec.ByteAt | sync-paxos/paxos-frame.cc:99-114 | byte k of a field is digit k of its value in base 256, the low end first |
| FrameCodec.FrameSlices | sync-paxos/paxos-frame.cc:99-114 | a frame is its eight fields in their order, of 4, 4, 8, 4, 8, 4, 8 and 8 bytes |
| FrameCodec.FrameArrives | sync-paxos/paxos-frame.cc:99-134 | a received frame is the sent one but for its parsed times, whatever bytes follow |
| FrameCodec.FrameRoundTrip | sync-paxos/paxos-frame.cc:99-134 | it is unchanged if and only if the parser is exact on its three times, hence whenever they are below 2^53 ns |
| FrameCodec.BytesRoundTrip | sync-paxos/paxos-frame.cc:99-134 | a header that was parsed exactly is written back byte for byte |
| FrameCodec.RequestSlices | sync-paxos/paxos-frame.cc:38-43 | a request is its time in 8 bytes and then its value in 4 |
| FrameCodec.RequestRoundTrip | sync-paxos/paxos-frame.cc:38-52 | the same for request frames |
| FrameCodec.WrittenSlice | sync-paxos/paxos-frame.cc:99-114 | writing changes no byte of the buffer outside the place written |
| FrameCodec.BufferIterator.Read | sync-paxos/paxos-frame.cc:116-133 | reading advances by the width and yields the value of the bytes passed |
| FrameCodec.RequestFrame.Serialize | sync-paxos/paxos-frame.cc:38-43 | exactly 12 bytes of the buffer change, to the time and then the value |
| FrameCodec.RequestFrame.Deserialize | sync-paxos/paxos-frame.cc:45-52 | the time is parsed from the first 8 of the 12 bytes, whose number is returned, and the value read from the last 4 |
| FrameCodec.PaxosFrame.Serialize | sync-paxos/paxos-frame.cc:99-114 | exactly 48 bytes of the buffer change, to the eight fields, each in its place |
| FrameCodec.PaxosFrame.Deserialize | sync-paxos/paxos-frame.cc:116-134 | each field is decoded from its place in the 48 bytes, whose number is returned |
| FrameCodec.Transmit | sync-paxos/paxos-frame.cc:87-134 | what one node serializes another deserializes to an equal frame, over GetSerializedSize bytes |
| WireFidelity.FramesSurvive | sync-paxos/paxos-frame.cc:99-134 | in every reachable world younger than 2^53 ns every frame in flight is read back exactly as sent |
| WireFidelity.RequestsSurvive | sync-paxos/paxos-frame.cc:38-52 | and every request |
| LoadOrder.DependencySorter.ModulesThatCanBeLoaded | ns-3.45/bindings/python/ns__init__.py:443-454 | the nested loops select exactly the pending modules whose dependencies are all current, in the order in which they are pending |
| LoadOrder.DependencySorter.LoadRound | ns-3.45/bindings/python/ns__init__.py:461-468 | a round moves them from pending to current and to its own step |
| LoadOrder.DependencySorter.DependencyOrder | ns-3.45/bindings/python/ns__init__.py:456-471 | on closed acyclic dependencies the recursion ends with nothing pending and every level filled |
| LoadOrder.SortToDependencies | ns-3.45/bindings/python/ns__init__.py:432-478 | the result lists every module once, after all its dependencies; a module is in step s if and only if its longest chain has s steps, and each step is in the order of the keys |
| LoadOrder.RoundKeeps | ns-3.45/bindings/python/ns__init__.py:456-471 | a round keeps dependencies first and step equal to longest chain |
| LoadOrder.LoadableInOrder | ns-3.45/bindings/python/ns__init__.py:443-454 | of two modules that a round loads, the one that was pending first comes first |
| LoadOrder.RemoveAllInOrder | ns-3.45/bindings/python/ns__init__.py:461-467 | and those that stay pending keep their order |
| LoadOrder.SomeLoadable | ns-3.45/bindings/python/ns__init__.py:443-454 | without cycles and missing modules every round loads something |
| LoadOrder.EndsExactly | ns-3.45/bindings/python/ns__init__.py:456-471 | the recursion ends if and only if the dependencies are closed and have no cycle |
| LargeTransfer.SameByte | ns-3.45/examples/tcp/tcp-large-transfer.cc:94-99 | a stream position and its place in the 1040-byte buffer carry the same byte |
| LargeTransfer.SliceContinues | ns-3.45/examples/tcp/tcp-large-transfer.cc:216-220 | the slice handed to the socket continues the stream where it stopped |
| LargeTransfer.Transfer.constructor | ns-3.45/examples/tcp/tcp-large-transfer.cc:94-99 | the filled buffer has 1040 bytes, of which byte i is letter i mod 26 |
| LargeTransfer.Transfer.WriteUntilBufferFull | ns-3.45/examples/tcp/tcp-large-transfer.cc:210-232 | whatever the socket answers, the bytes sent are the first currentTxBytes of the stream; every send follows an answer of some space and offers exactly the least of the rest of the buffer, the bytes left and the space reported; the method fails if and only if the last send did, and otherwise has sent everything, and closed the socket, or was last told of no space |
| BenchScheduler.Recurrence | ns-3.45/utils/bench-scheduler.cc:345-349 | one step of the update keeps the average the mean and the moment the sum of squared deviations from it |
| BenchScheduler.MeanIsBest | ns-3.45/utils/bench-scheduler.cc:329-336 | no other center has a smaller sum of squared deviations than the average that is computed |
| BenchScheduler.AccumulateRun | ns-3.45/utils/bench-scheduler.cc:338-359 | the same for all six fields of one run |
| BenchScheduler.BenchSuite.Log | ns-3.45/utils/bench-scheduler.cc:319-374 | with at least two runs every average is the mean and every variance the mean squared deviation, which is not negative; with fewer nothing is logged |
| BenchScheduler.FieldsDetermine | ns-3.45/utils/bench-scheduler.cc:338-372 | a result is determined by the fields so computed: none of its measurements is left out |

## Left out

- Full Paxos ballots, promises and leader change: the code has none, and agreement is per proposal id.
- Retransmission: the only call that would schedule `proposeTimerExpired` is commented out, so nothing is claimed about progress when messages are lost.
- ns-3 itself: sockets, the simulator, time arithmetic, buffers and routing appear as outputs, an agenda, natural numbers and byte arrays.
- Integer widths of ids, counters and times inside the servers: numbers are unbounded there. CounterIsQuorum bounds the counters by n, and WireFidelity states what fits the wire.
- The heap of the C++ library: a sequence that gives up its first minimum stands in for it. Which of several equal ids comes first is not determined by the original, and no reachable heap holds equal ids.
- Fields that no handler reads: `m_leaderState` outside the dead timer, `m_abandonedProposals`, `m_nextProposalId`, `m_currentProposal`, `m_numDecidedAck`, failure and loss rates.
- The plain setters and getters of the proposal record, which only assign or read one field, have contracts but no row.
- Topology construction, addresses, ports, command line, random values and the text of the log file.
- How the Python bindings find and filter the linked libraries; the dependency map is a parameter.
- LargeTransfer.Transfer.WriteUntilBufferFull: the socket's answers form a finite sequence, so a socket that accepts no byte for ever while reporting space, on which the original loops, is not captured.
- Negative times on the wire, which the original sends as their two's complement.
- Floating-point rounding, wall-clock timing, the square root and `Bench::Cb` of the scheduler benchmark.
