/** A run in which the asynchronous leader records its proposal too late for its own log. Every
    delivery takes as long as the bound allows; the proposal is broadcast exactly 4D + 10 ns before
    the stop. */
module LateAck {
  import opened PaxosData
  import opened DecisionLog
  import opened Handlers
  import opened Cluster
  import opened Runs
  import opened Completeness
  import opened Timing
  import opened Progress
  import opened ConcreteRuns

  const CFG: Config := Config(2, true, 0, 0, 10, 1, 1051, 5000, true, true, [0, 0])
  const REQ: Request := Request(1, 7)

  const STOP0: Item := Local(0, StopApplication, 1051)
  const STOP1: Item := Local(1, StopApplication, 1051)
  const FIRST: Item := Local(0, AsyncPropose, 1)
  const SECOND: Item := Local(0, AsyncPropose, 1001)
  const CLIENT: Item := ClientSend(5001)

  // ---------- What the servers hold ----------

  function Created(): Record { NewProposal(0, REQ, 11) }
  function InFlight(): Record { Proposed(0, Created(), 1001) }
  function Decided(): Record { InFlight().(numAck := 2, decisionTime := 1031, numDecisionAck := 1) }
  function Acknowledged(): Record { Decided().(numDecisionAck := 2, decisionAckTime := 1051) }
  function Proposal(): Frame { Frame(PROPOSAL, 0, 1, 7, 1001, 0, 0, 0) }
  function Answer(): Frame { Stamped(1, Proposal(), 1011) }
  function Vote(): Frame { AcceptFrame(1, Answer(), 1021) }
  function Decision(): Frame { DecisionFrame(Vote(), 1031) }
  function Ack(): Frame { DecisionAckFrame(1, Decision()) }

  function Waiting0(): Server { EMPTY_SERVER.(waiting := [Created()]) }
  function Flight0(): Server { EMPTY_SERVER.(proposals := map[1 := InFlight()]) }
  function Decided0(): Server { EMPTY_SERVER.(proposals := map[1 := Decided()]) }
  function Recorded0(): Server { EMPTY_SERVER.(decided := [Acknowledged()]) }
  function Accepted1(): Server { EMPTY_SERVER.(accepted := map[1 := AcceptedRecord(Proposal(), 1011)]) }
  function Learned1(): Server { Accepted1().(decided := [DecidedRecord(Decision())]) }
  function Written1(): Server { Accepted1().(log := [Row(0, 1, 0, 7, 1031)]) }

  function H1(): History { NoHistoryYet().(requests := map[1 := RequestInfo(7, 0)]) }
  function H2(): History { H1().(created := [[1], []]) }

  function H3(): History {
    H2().(issued := [[1], []], ballots := map[1 := Ballot(0, 7, 1001, 0)], acks := map[1 := {}], dacks := map[1 := {}])
  }

  function H4(): History { H3().(acks := map[1 := {1}], decisions := map[1 := 1031], announced := [1]) }
  function H5(): History { H4().(recorded := [[], [DecidedRecord(Decision())]]) }
  function H6(): History { H5().(cut := [0, 1]) }

  function H7(): History {
    H6().(dacks := map[1 := {1}], recorded := [[Acknowledged()], [DecidedRecord(Decision())]])
  }

  // ---------- The worlds of the run ----------

  function W0(): World {
    World(1, [EMPTY_SERVER, EMPTY_SERVER], map[0 := ClientSend(1), 1 := FIRST, 2 := STOP0, 3 := STOP1], 4, 1,
          NoHistoryYet())
  }

  /** The client has sent its request, to the leader. */
  function W1(): World {
    World(1, [EMPTY_SERVER, EMPTY_SERVER],
          map[1 := FIRST, 2 := STOP0, 3 := STOP1, 4 := RequestTo(0, REQ, 1), 5 := CLIENT], 6, 0, H1())
  }

  /** The leader has found nothing to do. */
  function W2(): World {
    World(1, [EMPTY_SERVER, EMPTY_SERVER],
          map[2 := STOP0, 3 := STOP1, 4 := RequestTo(0, REQ, 1), 5 := CLIENT, 6 := SECOND], 7, 0, H1())
  }

  /** The request has been delivered. */
  function W3(): World {
    World(1, [EMPTY_SERVER, EMPTY_SERVER],
          map[2 := STOP0, 3 := STOP1, 5 := CLIENT, 6 := SECOND, 7 := Local(0, CreateProposal(REQ), 11)], 8, 0, H1())
  }

  /** It has become a proposal. */
  function W4(): World {
    World(11, [Waiting0(), EMPTY_SERVER], map[2 := STOP0, 3 := STOP1, 5 := CLIENT, 6 := SECOND], 8, 0, H2())
  }

  /** The leader's second poll has broadcast it. */
  function W5(): World {
    World(1001, [Flight0(), EMPTY_SERVER],
          map[2 := STOP0, 3 := STOP1, 5 := CLIENT, 8 := FrameTo(1, Proposal(), 1001)], 9, 0, H3())
  }

  /** Server 1 has accepted it. */
  function W6(): World {
    World(1011, [Flight0(), Accepted1()],
          map[2 := STOP0, 3 := STOP1, 5 := CLIENT, 9 := Local(1, SendAccept(Answer()), 1021)], 10, 0, H3())
  }

  /** Server 1 has answered. */
  function W7(): World {
    World(1021, [Flight0(), Accepted1()],
          map[2 := STOP0, 3 := STOP1, 5 := CLIENT, 10 := FrameTo(0, Vote(), 1021)], 11, 0, H3())
  }

  /** The leader has decided. */
  function W8(): World {
    World(1031, [Decided0(), Accepted1()],
          map[2 := STOP0, 3 := STOP1, 5 := CLIENT, 11 := FrameTo(1, Decision(), 1031)], 12, 0, H4())
  }

  /** Server 1 has recorded the decision and acknowledged it. */
  function W9(): World {
    World(1041, [Decided0(), Learned1()],
          map[2 := STOP0, 3 := STOP1, 5 := CLIENT, 12 := FrameTo(0, Ack(), 1041)], 13, 0, H5())
  }

  /** The leader has stopped and written an empty log. */
  function W10(): World {
    World(1051, [Decided0(), Learned1()], map[3 := STOP1, 5 := CLIENT, 12 := FrameTo(0, Ack(), 1041)], 13, 0, H5())
  }

  /** Server 1 has stopped and written its decision. */
  function W11(): World {
    World(1051, [Decided0(), Written1()], map[5 := CLIENT, 12 := FrameTo(0, Ack(), 1041)], 13, 0, H6())
  }

  /** The leader has recorded the decision. */
  function W12(): World {
    World(1051, [Recorded0(), Written1()], map[5 := CLIENT], 13, 0, H7())
  }

  lemma FirstItems()
    ensures InitialItems(CFG) == [ClientSend(1), FIRST, STOP0, STOP1]
  {
    assert FirstProposals(CFG) == [FIRST];
    assert Stops(CFG) == [STOP0, STOP1];
  }

  lemma Start()
    ensures CFG.Valid() && Reached(CFG, W0())
  {
    FirstItems();
    PostFour(ClientSend(1), FIRST, STOP0, STOP1);
    TwoServers();
    NoHistory();
    StartsHere(CFG, 1);
    assert InitialWorld(CFG, 1) == W0();
  }

  // ---------- What each handler does ----------

  lemma IdlePoll()
    ensures HandleEvent(CFG, 0, EMPTY_SERVER, AsyncPropose, 1) == Effect(EMPTY_SERVER, [Schedule(1000, AsyncPropose)])
    ensures EventHistory(CFG, H1(), 0, EMPTY_SERVER, AsyncPropose, 1) == H1()
  {
  }

  lemma Creation()
    ensures HandleEvent(CFG, 0, EMPTY_SERVER, CreateProposal(REQ), 11) == Effect(Waiting0(), [])
    ensures EventHistory(CFG, H1(), 0, EMPTY_SERVER, CreateProposal(REQ), 11) == H2()
  {
    AppendFirst<nat>([], 1);
  }

  lemma BusyPoll()
    ensures HandleEvent(CFG, 0, Waiting0(), AsyncPropose, 1001) == Effect(Flight0(), [Send(1, Proposal())])
    ensures EventHistory(CFG, H2(), 0, Waiting0(), AsyncPropose, 1001) == H3()
  {
    OneOther(0, Proposal());
    AppendFirst<nat>([], 1);
  }

  lemma Acceptance()
    ensures ReceiveMessage(CFG, 1, EMPTY_SERVER, Proposal(), 1011) ==
            Effect(Accepted1(), [Schedule(HANDLING_DELAY, SendAccept(Answer()))])
    ensures MessageHistory(CFG, H3(), 1, EMPTY_SERVER, Proposal(), 1011) == H3()
  {
  }

  lemma Voting()
    ensures HandleEvent(CFG, 1, Accepted1(), SendAccept(Answer()), 1021) == Effect(Accepted1(), [Send(0, Vote())])
    ensures EventHistory(CFG, H3(), 1, Accepted1(), SendAccept(Answer()), 1021) == H3()
  {
  }

  lemma Majority()
    ensures ReceiveMessage(CFG, 0, Flight0(), Vote(), 1031) == Effect(Decided0(), [Send(1, Decision())])
    ensures MessageHistory(CFG, H3(), 0, Flight0(), Vote(), 1031) == H4()
  {
    OneOther(0, Decision());
    assert {} + {1} == {1};
  }

  lemma Learns()
    ensures ReceiveMessage(CFG, 1, Accepted1(), Decision(), 1041) == Effect(Learned1(), [Send(0, Ack())])
    ensures MessageHistory(CFG, H4(), 1, Accepted1(), Decision(), 1041) == H5()
  {
    AppendSecond([], DecidedRecord(Decision()));
  }

  lemma Halts()
    ensures HandleEvent(CFG, 0, Decided0(), StopApplication, 1051) == Effect(Decided0(), [])
    ensures EventHistory(CFG, H5(), 0, Decided0(), StopApplication, 1051) == H5()
  {
    assert H5().cut[0 := 0] == H5().cut;
  }

  lemma Writes()
    ensures HandleEvent(CFG, 1, Learned1(), StopApplication, 1051) == Effect(Written1(), [])
    ensures EventHistory(CFG, H5(), 1, Learned1(), StopApplication, 1051) == H6()
  {
    var r := DecidedRecord(Decision());
    assert RemoveAt([r], 0) == [];
    assert Drain([r]) == [r] + Drain([]);
    assert Rows([r]) == [Row(0, 1, 0, 7, 1031)];
  }

  lemma Completes()
    ensures ReceiveMessage(CFG, 0, Decided0(), Ack(), 1051) == Effect(Recorded0(), [])
    ensures MessageHistory(CFG, H6(), 0, Decided0(), Ack(), 1051) == H7()
  {
    AppendFirst([DecidedRecord(Decision())], Acknowledged());
    assert {} + {1} == {1};
  }

  // ---------- The run, step by step ----------

  lemma Run1()
    ensures Reached(CFG, W1())
  {
    hide Reached;
    Start();
    assert (W0().agenda - {0})[4 := RequestTo(0, REQ, 1)][5 := CLIENT] == W1().agenda;
    RunClient(CFG, W0(), 0, 7, W1());
  }

  lemma Run2()
    ensures Reached(CFG, W2())
  {
    hide Reached, Commit, HandleEvent, EventHistory, H1;
    Run1();
    IdlePoll();
    CommitOne(W1(), 1, 0, EMPTY_SERVER, Schedule(1000, AsyncPropose), H1());
    assert (W1().agenda - {1})[6 := SECOND] == W2().agenda;
    RunEvent(CFG, W1(), 1, 0, AsyncPropose, Effect(EMPTY_SERVER, [Schedule(1000, AsyncPropose)]), H1(), W2());
  }

  lemma Run3()
    ensures Reached(CFG, W3())
  {
    hide Reached, H1;
    Run2();
    assert (W2().agenda - {4})[7 := Local(0, CreateProposal(REQ), 11)] == W3().agenda;
    RunRequest(CFG, W2(), 4, 0, REQ, 1, W3());
  }

  lemma Run4()
    ensures Reached(CFG, W4())
  {
    hide Reached, Commit, HandleEvent, EventHistory, Waiting0, H1, H2;
    Run3();
    var w := W3().(now := 11);
    Tick(CFG, W3(), 11);
    Creation();
    CommitNone(w, 7, 0, Waiting0(), H2());
    assert w.agenda - {7} == W4().agenda && w.servers[0 := Waiting0()] == W4().servers;
    RunEvent(CFG, w, 7, 0, CreateProposal(REQ), Effect(Waiting0(), []), H2(), W4());
  }

  lemma Run5()
    ensures Reached(CFG, W5())
  {
    hide Reached, Commit, HandleEvent, EventHistory, Waiting0, Flight0, H2, H3;
    Run4();
    var w := W4().(now := 1001);
    Tick(CFG, W4(), 1001);
    BusyPoll();
    CommitOne(w, 6, 0, Flight0(), Send(1, Proposal()), H3());
    assert (w.agenda - {6})[8 := FrameTo(1, Proposal(), 1001)] == W5().agenda;
    assert w.servers[0 := Flight0()] == W5().servers;
    RunEvent(CFG, w, 6, 0, AsyncPropose, Effect(Flight0(), [Send(1, Proposal())]), H3(), W5());
  }

  lemma Run6()
    ensures Reached(CFG, W6())
  {
    hide Reached, Commit, ReceiveMessage, MessageHistory, Flight0, Accepted1, H3;
    Run5();
    var w, o := W5().(now := 1011), Schedule(HANDLING_DELAY, SendAccept(Answer()));
    Tick(CFG, W5(), 1011);
    Acceptance();
    CommitOne(w, 8, 1, Accepted1(), o, H3());
    assert (w.agenda - {8})[9 := Local(1, SendAccept(Answer()), 1021)] == W6().agenda;
    assert w.servers[1 := Accepted1()] == W6().servers;
    RunFrame(CFG, w, 8, 1, Proposal(), 1001, Effect(Accepted1(), [o]), H3(), W6());
  }

  lemma Run7()
    ensures Reached(CFG, W7())
  {
    hide Reached, Commit, HandleEvent, EventHistory, Flight0, Accepted1, H3;
    Run6();
    var w := W6().(now := 1021);
    Tick(CFG, W6(), 1021);
    Voting();
    CommitOne(w, 9, 1, Accepted1(), Send(0, Vote()), H3());
    assert (w.agenda - {9})[10 := FrameTo(0, Vote(), 1021)] == W7().agenda;
    assert w.servers[1 := Accepted1()] == W7().servers;
    RunEvent(CFG, w, 9, 1, SendAccept(Answer()), Effect(Accepted1(), [Send(0, Vote())]), H3(), W7());
  }

  lemma Run8()
    ensures Reached(CFG, W8())
  {
    hide Reached, Commit, ReceiveMessage, MessageHistory, Flight0, Decided0, Accepted1, H3, H4;
    Run7();
    var w := W7().(now := 1031);
    Tick(CFG, W7(), 1031);
    Majority();
    CommitOne(w, 10, 0, Decided0(), Send(1, Decision()), H4());
    assert (w.agenda - {10})[11 := FrameTo(1, Decision(), 1031)] == W8().agenda;
    assert w.servers[0 := Decided0()] == W8().servers;
    RunFrame(CFG, w, 10, 0, Vote(), 1021, Effect(Decided0(), [Send(1, Decision())]), H4(), W8());
  }

  lemma Run9()
    ensures Reached(CFG, W9())
  {
    hide Reached, Commit, ReceiveMessage, MessageHistory, Decided0, Accepted1, Learned1, H4, H5;
    Run8();
    var w := W8().(now := 1041);
    Tick(CFG, W8(), 1041);
    Learns();
    CommitOne(w, 11, 1, Learned1(), Send(0, Ack()), H5());
    assert (w.agenda - {11})[12 := FrameTo(0, Ack(), 1041)] == W9().agenda;
    assert w.servers[1 := Learned1()] == W9().servers;
    RunFrame(CFG, w, 11, 1, Decision(), 1031, Effect(Learned1(), [Send(0, Ack())]), H5(), W9());
  }

  lemma Run10()
    ensures Reached(CFG, W10())
  {
    hide Reached, Commit, HandleEvent, EventHistory, Decided0, Learned1, H5;
    Run9();
    var w := W9().(now := 1051);
    Tick(CFG, W9(), 1051);
    Halts();
    CommitNone(w, 2, 0, Decided0(), H5());
    assert w.agenda - {2} == W10().agenda && w.servers[0 := Decided0()] == W10().servers;
    RunEvent(CFG, w, 2, 0, StopApplication, Effect(Decided0(), []), H5(), W10());
  }

  lemma Run11()
    ensures Reached(CFG, W11())
  {
    hide Reached, Commit, HandleEvent, EventHistory, Decided0, Learned1, Written1, H5, H6;
    Run10();
    Writes();
    CommitNone(W10(), 3, 1, Written1(), H6());
    assert W10().agenda - {3} == W11().agenda && W10().servers[1 := Written1()] == W11().servers;
    RunEvent(CFG, W10(), 3, 1, StopApplication, Effect(Written1(), []), H6(), W11());
  }

  lemma Run12()
    ensures Reached(CFG, W12())
  {
    hide Reached, Commit, ReceiveMessage, MessageHistory, Decided0, Recorded0, Written1, H6, H7;
    Run11();
    Completes();
    CommitNone(W11(), 12, 0, Recorded0(), H7());
    assert W11().agenda - {12} == W12().agenda && W11().servers[0 := Recorded0()] == W12().servers;
    RunFrame(CFG, W11(), 12, 0, Ack(), 1041, Effect(Recorded0(), []), H7(), W12());
  }

  /** The asynchronous leader's bound cannot be improved either: the only proposal was broadcast
      exactly 4D + 10 ns before the stop, server 1 wrote it and the leader did not. */
  lemma LeaderBoundIsTight() returns (w: World)
    ensures Timely(CFG, w) && Quiet(w) && w.now > CFG.stop && w.h.ballots.Keys == {1}
    ensures w.h.ballots[1].proposeTime + Reach(CFG, CFG.leader) == CFG.stop
    ensures w.servers[0].log == [] && w.servers[1].log == [Row(0, 1, 0, 7, 1031)]
  {
    Run12();
    Tick(CFG, W12(), 1052);
    w := W12().(now := 1052);
  }
}
