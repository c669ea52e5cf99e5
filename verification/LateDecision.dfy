/** A run that decides one proposal too late for one of the two logs. Every delivery takes as long
    as the bound allows and the clocks are equal; the proposal is broadcast exactly 3D + 10 ns
    before the stop. */
module LateDecision {
  import opened PaxosData
  import opened Runs
  import opened ConcreteRuns
  import opened DecisionLog
  import opened Handlers
  import opened Cluster
  import opened Completeness
  import opened Timing
  import opened Progress

  const CFG: Config := Config(2, false, 0, 100, 10, 1, 251, 1000, true, true, [0, 0])
  const REQ: Request := Request(1, 7)

  // ---------- The run ----------

  const STOP0: Item := Local(0, StopApplication, 251)
  const STOP1: Item := Local(1, StopApplication, 251)
  const SLOT1: Item := Local(1, SyncPropose, 211)
  const LATER0: Item := Local(0, SyncPropose, 421)
  const LATER1: Item := Local(1, SyncPropose, 631)
  const CLIENT: Item := ClientSend(1001)

  function Created(): Record { NewProposal(1, REQ, 11) }
  function InFlight(): Record { Proposed(1, Created(), 211) }
  function Decided(): Record { InFlight().(numAck := 2, decisionTime := 241, numDecisionAck := 1) }
  function Proposal(): Frame { Frame(PROPOSAL, 1, 1, 7, 211, 0, 0, 0) }
  function Answer(): Frame { Stamped(0, Proposal(), 221) }
  function Vote(): Frame { AcceptFrame(0, Answer(), 231) }
  function Decision(): Frame { DecisionFrame(Vote(), 241) }

  function Waiting1(): Server { EMPTY_SERVER.(waiting := [Created()]) }
  function Flight1(): Server { EMPTY_SERVER.(proposals := map[1 := InFlight()]) }
  function Decided1(): Server { EMPTY_SERVER.(decided := [Decided()]) }
  function Written1(): Server { EMPTY_SERVER.(log := [Row(0, 1, 1, 7, 241)]) }
  function Accepted0(): Server { EMPTY_SERVER.(accepted := map[1 := AcceptedRecord(Proposal(), 221)]) }
  function Learned0(): Server { Accepted0().(decided := [DecidedRecord(Decision())]) }

  function H1(): History { NoHistoryYet().(requests := map[1 := RequestInfo(7, 1)]) }
  function H2(): History { H1().(rounds := [1, 0]) }
  function H3(): History { H2().(created := [[], [1]]) }

  function H4(): History {
    H3().(issued := [[], [1]], ballots := map[1 := Ballot(1, 7, 211, 0)], acks := map[1 := {}], dacks := map[1 := {}],
    rounds := [1, 1])
  }

  function H5(): History {
    H4().(acks := map[1 := {0}], decisions := map[1 := 241], announced := [1], recorded := [[], [Decided()]])
  }

  function H6(): History { H5().(cut := [0, 1]) }
  function H7(): History { H6().(recorded := [[DecidedRecord(Decision())], [Decided()]]) }

  function W0(): World {
    World(1, [EMPTY_SERVER, EMPTY_SERVER],
          map[0 := ClientSend(1), 1 := Local(0, SyncPropose, 1), 2 := SLOT1, 3 := STOP0, 4 := STOP1],
          5, 0, NoHistoryYet())
  }

  /** After the client has sent its request, to server 1. */
  function W1(): World {
    World(1, [EMPTY_SERVER, EMPTY_SERVER],
          map[1 := Local(0, SyncPropose, 1), 2 := SLOT1, 3 := STOP0, 4 := STOP1,
              5 := RequestTo(1, REQ, 1), 6 := CLIENT], 7, 1, H1())
  }

  /** After its delivery. */
  function W2(): World {
    World(1, [EMPTY_SERVER, EMPTY_SERVER],
          map[1 := Local(0, SyncPropose, 1), 2 := SLOT1, 3 := STOP0, 4 := STOP1, 6 := CLIENT,
              7 := Local(1, CreateProposal(REQ), 11)], 8, 1, H1())
  }

  /** After server 0's first turn, with nothing to propose. */
  function W3(): World {
    World(1, [EMPTY_SERVER, EMPTY_SERVER],
          map[2 := SLOT1, 3 := STOP0, 4 := STOP1, 6 := CLIENT, 7 := Local(1, CreateProposal(REQ), 11), 8 := LATER0],
          9, 1, H2())
  }

  /** After the request has become a proposal. */
  function W4(): World {
    World(11, [EMPTY_SERVER, Waiting1()],
          map[2 := SLOT1, 3 := STOP0, 4 := STOP1, 6 := CLIENT, 8 := LATER0], 9, 1, H3())
  }

  /** After its broadcast. */
  function W5(): World {
    World(211, [EMPTY_SERVER, Flight1()],
          map[3 := STOP0, 4 := STOP1, 6 := CLIENT, 8 := LATER0, 9 := FrameTo(0, Proposal(), 211), 10 := LATER1],
          11, 1, H4())
  }

  /** After server 0 has accepted it. */
  function W6(): World {
    World(221, [Accepted0(), Flight1()],
          map[3 := STOP0, 4 := STOP1, 6 := CLIENT, 8 := LATER0, 10 := LATER1,
              11 := Local(0, SendAccept(Answer()), 231)], 12, 1, H4())
  }

  /** After it has answered. */
  function W7(): World {
    World(231, [Accepted0(), Flight1()],
          map[3 := STOP0, 4 := STOP1, 6 := CLIENT, 8 := LATER0, 10 := LATER1, 12 := FrameTo(1, Vote(), 231)],
          13, 1, H4())
  }

  /** After server 1 has decided. */
  function W8(): World {
    World(241, [Accepted0(), Decided1()],
          map[3 := STOP0, 4 := STOP1, 6 := CLIENT, 8 := LATER0, 10 := LATER1, 13 := FrameTo(0, Decision(), 241)],
          14, 1, H5())
  }

  /** After server 0 has stopped and written an empty log. */
  function W9(): World {
    World(251, [Accepted0(), Decided1()],
          map[4 := STOP1, 6 := CLIENT, 8 := LATER0, 10 := LATER1, 13 := FrameTo(0, Decision(), 241)], 14, 1, H5())
  }

  /** After server 1 has stopped and written its decision. */
  function W10(): World {
    World(251, [Accepted0(), Written1()],
          map[6 := CLIENT, 8 := LATER0, 10 := LATER1, 13 := FrameTo(0, Decision(), 241)], 14, 1, H6())
  }

  /** After server 0 has learned of it. */
  function W11(): World {
    World(251, [Learned0(), Written1()], map[6 := CLIENT, 8 := LATER0, 10 := LATER1], 14, 1, H7())
  }

  lemma FirstItems()
    ensures InitialItems(CFG) == [ClientSend(1), Local(0, SyncPropose, 1), SLOT1, STOP0, STOP1]
  {
    assert FirstProposals(CFG) == [Local(0, SyncPropose, 1), SLOT1];
    assert Stops(CFG) == [STOP0, STOP1];
  }

  lemma Start()
    ensures CFG.Valid() && Reached(CFG, W0())
  {
    FirstItems();
    PostFive(ClientSend(1), Local(0, SyncPropose, 1), SLOT1, STOP0, STOP1);
    TwoServers();
    NoHistory();
    StartsHere(CFG, 0);
    assert InitialWorld(CFG, 0) == W0();
  }

  // ---------- What each handler does ----------

  lemma EmptyTurn()
    ensures HandleEvent(CFG, 0, EMPTY_SERVER, SyncPropose, 1) == Effect(EMPTY_SERVER, [Schedule(420, SyncPropose)])
    ensures EventHistory(CFG, H1(), 0, EMPTY_SERVER, SyncPropose, 1) == H2()
  {
  }

  lemma Creation()
    ensures HandleEvent(CFG, 1, EMPTY_SERVER, CreateProposal(REQ), 11) == Effect(Waiting1(), [])
    ensures EventHistory(CFG, H2(), 1, EMPTY_SERVER, CreateProposal(REQ), 11) == H3()
  {
    AppendSecond<nat>([], 1);
  }

  lemma Turn()
    ensures HandleEvent(CFG, 1, Waiting1(), SyncPropose, 211) ==
            Effect(Flight1(), [Send(0, Proposal()), Schedule(420, SyncPropose)])
    ensures EventHistory(CFG, H3(), 1, Waiting1(), SyncPropose, 211) == H4()
  {
    OneOther(1, Proposal());
    AppendSecond<nat>([], 1);
  }

  lemma Acceptance()
    ensures ReceiveMessage(CFG, 0, EMPTY_SERVER, Proposal(), 221) ==
            Effect(Accepted0(), [Schedule(HANDLING_DELAY, SendAccept(Answer()))])
    ensures MessageHistory(CFG, H4(), 0, EMPTY_SERVER, Proposal(), 221) == H4()
  {
  }

  lemma Voting()
    ensures HandleEvent(CFG, 0, Accepted0(), SendAccept(Answer()), 231) == Effect(Accepted0(), [Send(1, Vote())])
    ensures EventHistory(CFG, H4(), 0, Accepted0(), SendAccept(Answer()), 231) == H4()
  {
  }

  lemma Majority()
    ensures ReceiveMessage(CFG, 1, Flight1(), Vote(), 241) == Effect(Decided1(), [Send(0, Decision())])
    ensures MessageHistory(CFG, H4(), 1, Flight1(), Vote(), 241) == H5()
  {
    OneOther(1, Decision());
    AppendSecond([], Decided());
    assert {} + {0} == {0};
  }

  lemma Halts()
    ensures HandleEvent(CFG, 0, Accepted0(), StopApplication, 251) == Effect(Accepted0(), [])
    ensures EventHistory(CFG, H5(), 0, Accepted0(), StopApplication, 251) == H5()
  {
    assert H5().cut[0 := 0] == H5().cut;
  }

  lemma Writes()
    ensures HandleEvent(CFG, 1, Decided1(), StopApplication, 251) == Effect(Written1(), [])
    ensures EventHistory(CFG, H5(), 1, Decided1(), StopApplication, 251) == H6()
  {
    assert RemoveAt([Decided()], 0) == [];
    assert Drain([Decided()]) == [Decided()] + Drain([]);
    assert Rows([Decided()]) == [Row(0, 1, 1, 7, 241)];
  }

  lemma Learns()
    ensures ReceiveMessage(CFG, 0, Accepted0(), Decision(), 251) == Effect(Learned0(), [])
    ensures MessageHistory(CFG, H6(), 0, Accepted0(), Decision(), 251) == H7()
  {
    AppendFirst([Decided()], DecidedRecord(Decision()));
  }

  // ---------- The run, step by step ----------

  lemma Run1()
    ensures Reached(CFG, W1())
  {
    hide Reached;
    Start();
    assert (W0().agenda - {0})[5 := RequestTo(1, REQ, 1)][6 := CLIENT] == W1().agenda;
    RunClient(CFG, W0(), 0, 7, W1());
  }

  lemma Run2()
    ensures Reached(CFG, W2())
  {
    hide Reached, H1;
    Run1();
    assert (W1().agenda - {5})[7 := Local(1, CreateProposal(REQ), 11)] == W2().agenda;
    RunRequest(CFG, W1(), 5, 1, REQ, 1, W2());
  }

  lemma Run3()
    ensures Reached(CFG, W3())
  {
    hide Reached, Commit, HandleEvent, EventHistory, H1, H2;
    Run2();
    EmptyTurn();
    CommitOne(W2(), 1, 0, EMPTY_SERVER, Schedule(420, SyncPropose), H2());
    assert (W2().agenda - {1})[8 := LATER0] == W3().agenda;
    RunEvent(CFG, W2(), 1, 0, SyncPropose, Effect(EMPTY_SERVER, [Schedule(420, SyncPropose)]), H2(), W3());
  }

  lemma Run4()
    ensures Reached(CFG, W4())
  {
    hide Reached, Commit, HandleEvent, EventHistory, Waiting1, H2, H3;
    Run3();
    var w := W3().(now := 11);
    Tick(CFG, W3(), 11);
    Creation();
    CommitNone(w, 7, 1, Waiting1(), H3());
    assert w.agenda - {7} == W4().agenda && w.servers[1 := Waiting1()] == W4().servers;
    RunEvent(CFG, w, 7, 1, CreateProposal(REQ), Effect(Waiting1(), []), H3(), W4());
  }

  lemma Run5()
    ensures Reached(CFG, W5())
  {
    hide Reached, Commit, HandleEvent, EventHistory, Waiting1, Flight1, H3, H4;
    Run4();
    var w := W4().(now := 211);
    Tick(CFG, W4(), 211);
    Turn();
    CommitTwo(w, 2, 1, Flight1(), Send(0, Proposal()), Schedule(420, SyncPropose), H4());
    assert (w.agenda - {2})[9 := FrameTo(0, Proposal(), 211)][10 := LATER1] == W5().agenda;
    assert w.servers[1 := Flight1()] == W5().servers;
    RunEvent(CFG, w, 2, 1, SyncPropose, Effect(Flight1(), [Send(0, Proposal()), Schedule(420, SyncPropose)]),
             H4(), W5());
  }

  lemma Run6()
    ensures Reached(CFG, W6())
  {
    hide Reached, Commit, ReceiveMessage, MessageHistory, Flight1, Accepted0, H4;
    Run5();
    var w, o := W5().(now := 221), Schedule(HANDLING_DELAY, SendAccept(Answer()));
    Tick(CFG, W5(), 221);
    Acceptance();
    CommitOne(w, 9, 0, Accepted0(), o, H4());
    assert (w.agenda - {9})[11 := Local(0, SendAccept(Answer()), 231)] == W6().agenda;
    assert w.servers[0 := Accepted0()] == W6().servers;
    RunFrame(CFG, w, 9, 0, Proposal(), 211, Effect(Accepted0(), [o]), H4(), W6());
  }

  lemma Run7()
    ensures Reached(CFG, W7())
  {
    hide Reached, Commit, HandleEvent, EventHistory, Flight1, Accepted0, H4;
    Run6();
    var w := W6().(now := 231);
    Tick(CFG, W6(), 231);
    Voting();
    CommitOne(w, 11, 0, Accepted0(), Send(1, Vote()), H4());
    assert (w.agenda - {11})[12 := FrameTo(1, Vote(), 231)] == W7().agenda;
    assert w.servers[0 := Accepted0()] == W7().servers;
    RunEvent(CFG, w, 11, 0, SendAccept(Answer()), Effect(Accepted0(), [Send(1, Vote())]), H4(), W7());
  }

  lemma Run8()
    ensures Reached(CFG, W8())
  {
    hide Reached, Commit, ReceiveMessage, MessageHistory, Flight1, Decided1, Accepted0, H4, H5;
    Run7();
    var w := W7().(now := 241);
    Tick(CFG, W7(), 241);
    Majority();
    CommitOne(w, 12, 1, Decided1(), Send(0, Decision()), H5());
    assert (w.agenda - {12})[13 := FrameTo(0, Decision(), 241)] == W8().agenda;
    assert w.servers[1 := Decided1()] == W8().servers;
    RunFrame(CFG, w, 12, 1, Vote(), 231, Effect(Decided1(), [Send(0, Decision())]), H5(), W8());
  }

  lemma Run9()
    ensures Reached(CFG, W9())
  {
    hide Reached, Commit, HandleEvent, EventHistory, Decided1, Accepted0, H5;
    Run8();
    var w := W8().(now := 251);
    Tick(CFG, W8(), 251);
    Halts();
    CommitNone(w, 3, 0, Accepted0(), H5());
    assert w.agenda - {3} == W9().agenda && w.servers[0 := Accepted0()] == W9().servers;
    RunEvent(CFG, w, 3, 0, StopApplication, Effect(Accepted0(), []), H5(), W9());
  }

  lemma Run10()
    ensures Reached(CFG, W10())
  {
    hide Reached, Commit, HandleEvent, EventHistory, Decided1, Written1, Accepted0, H5, H6;
    Run9();
    Writes();
    CommitNone(W9(), 4, 1, Written1(), H6());
    assert W9().agenda - {4} == W10().agenda && W9().servers[1 := Written1()] == W10().servers;
    RunEvent(CFG, W9(), 4, 1, StopApplication, Effect(Written1(), []), H6(), W10());
  }

  lemma Run11()
    ensures Reached(CFG, W11())
  {
    hide Reached, Commit, ReceiveMessage, MessageHistory, Written1, Accepted0, Learned0, H6, H7;
    Run10();
    Learns();
    CommitNone(W10(), 13, 0, Learned0(), H7());
    assert W10().agenda - {13} == W11().agenda && W10().servers[0 := Learned0()] == W11().servers;
    RunFrame(CFG, W10(), 13, 0, Decision(), 241, Effect(Learned0(), []), H7(), W11());
  }

  /** The bound on early broadcasts cannot be improved by even one nanosecond: in this lossless,
      timely, quiet world the only proposal was broadcast exactly 3D + 10 ns before the stop, and
      the two written logs differ. */
  lemma BoundIsTight() returns (w: World)
    ensures Timely(CFG, w) && Quiet(w) && w.now > CFG.stop && w.h.ballots.Keys == {1}
    ensures w.h.ballots[1].proposeTime + Reach(CFG, 0) == CFG.stop
    ensures w.servers[0].log == [] && w.servers[1].log == [Row(0, 1, 1, 7, 241)]
  {
    Run11();
    Tick(CFG, W11(), 252);
    w := W11().(now := 252);
  }
}
