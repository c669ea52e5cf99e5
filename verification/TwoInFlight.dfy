/** When a server can have two proposals in flight: runs of two servers with equal clocks, for every
    delay and clock error for which a period is shorter than the longest exchange, so that a server's
    next turn comes before its votes. */
module TwoInFlight {
  import opened PaxosData
  import opened Handlers
  import opened Cluster
  import opened Runs
  import opened ConcreteRuns
  import opened Timing

  /** Two servers whose client sends once in a slot. */
  function Cfg(d: nat, e: nat): Config {
    Config(2, false, 0, e, d, 1, 1000 + 6 * (2 * e + d), 2 * e + d, true, true, [0, 0])
  }

  /** Slots leave time to handle a request, and periods no time for the longest exchange. */
  predicate Short(d: nat, e: nat) { Cfg(d, e).Slot() >= HANDLING_DELAY && !TurnsAreLong(Cfg(d, e)) }

  /** When the k-th slot starts. */
  function At(d: nat, e: nat, k: nat): nat { 1 + k * (2 * e + d) }

  lemma Times(d: nat, e: nat)
    requires Short(d, e)
    ensures e <= 2 && At(d, e, 0) == 1 && At(d, e, 1) == 1 + 2 * e + d && At(d, e, 2) == 1 + 4 * e + 2 * d
    ensures At(d, e, 3) == 1 + 6 * e + 3 * d && At(d, e, 4) == 1 + 8 * e + 4 * d && At(d, e, 5) == 1 + 10 * e + 5 * d
    ensures 11 <= At(d, e, 1) && Accepts(d, e) <= At(d, e, 2) <= Answers(d, e) <= At(d, e, 2) + 10 <= At(d, e, 3)
    ensures At(d, e, 3) <= Answers(d, e) + d && At(d, e, 3) < Cfg(d, e).stop && Cfg(d, e).Period() == 4 * e + 2 * d
  {
  }

  /** When server 0 accepts the first proposal, and when it answers. */
  function Accepts(d: nat, e: nat): nat { At(d, e, 1) + d }
  function Answers(d: nat, e: nat): nat { Accepts(d, e) + HANDLING_DELAY }

  const FIRST: Request := Request(1, 7)
  function Second(d: nat, e: nat): Request { Request(At(d, e, 1), 8) }
  function Third(d: nat, e: nat): Request { Request(At(d, e, 2), 9) }

  function Halt(d: nat, e: nat, i: nat): Item { Local(i, StopApplication, Cfg(d, e).stop) }
  function Turn(d: nat, e: nat, i: nat, k: nat): Item { Local(i, SyncPropose, At(d, e, k)) }

  // ---------- What the servers hold ----------

  function Created(): Record { NewProposal(1, FIRST, 11) }
  function InFlight(d: nat, e: nat): Record { Proposed(1, Created(), At(d, e, 1)) }
  function CreatedToo(d: nat, e: nat): Record { NewProposal(1, Third(d, e), At(d, e, 2) + 10) }
  function InFlightToo(d: nat, e: nat): Record { Proposed(1, CreatedToo(d, e), At(d, e, 3)) }
  function Proposal(d: nat, e: nat): Frame { Frame(PROPOSAL, 1, 1, 7, At(d, e, 1), 0, 0, 0) }
  function Answer(d: nat, e: nat): Frame { Stamped(0, Proposal(d, e), Accepts(d, e)) }
  function Vote(d: nat, e: nat): Frame { AcceptFrame(0, Answer(d, e), Answers(d, e)) }
  function ProposalToo(d: nat, e: nat): Frame { Frame(PROPOSAL, 1, At(d, e, 2), 9, At(d, e, 3), 0, 0, 0) }

  function Waiting1(): Server { EMPTY_SERVER.(waiting := [Created()]) }
  function Flight1(d: nat, e: nat): Server { EMPTY_SERVER.(proposals := map[1 := InFlight(d, e)]) }
  function Both1(d: nat, e: nat): Server { Flight1(d, e).(waiting := [CreatedToo(d, e)]) }

  function Two1(d: nat, e: nat): Server {
    EMPTY_SERVER.(proposals := map[1 := InFlight(d, e)][At(d, e, 2) := InFlightToo(d, e)])
  }

  function Accepted0(d: nat, e: nat): Server {
    EMPTY_SERVER.(accepted := map[1 := AcceptedRecord(Proposal(d, e), Accepts(d, e))])
  }

  function Waiting0(d: nat, e: nat): Server {
    Accepted0(d, e).(waiting := [NewProposal(0, Second(d, e), Answers(d, e))])
  }

  function H1(): History { NoHistoryYet().(requests := map[1 := RequestInfo(7, 1)]) }
  function H2(): History { H1().(rounds := [1, 0]) }
  function H3(): History { H2().(created := [[], [1]]) }

  function H4(d: nat, e: nat): History {
    H3().(issued := [[], [1]], ballots := map[1 := Ballot(1, 7, At(d, e, 1), 0)], acks := map[1 := {}],
    dacks := map[1 := {}], rounds := [1, 1])
  }

  function H5(d: nat, e: nat): History {
    H4(d, e).(requests := H4(d, e).requests[At(d, e, 1) := RequestInfo(8, 0)])
  }

  function H6(d: nat, e: nat): History { H5(d, e).(rounds := [2, 1]) }

  function H7(d: nat, e: nat): History {
    H6(d, e).(requests := H6(d, e).requests[At(d, e, 2) := RequestInfo(9, 1)])
  }

  function H8(d: nat, e: nat): History { H7(d, e).(created := [[At(d, e, 1)], [1]]) }
  function H9(d: nat, e: nat): History { H8(d, e).(created := [[At(d, e, 1)], [1, At(d, e, 2)]]) }

  function H10(d: nat, e: nat): History {
    H9(d, e).(issued := [[], [1, At(d, e, 2)]],
    ballots := H9(d, e).ballots[At(d, e, 2) := Ballot(1, 9, At(d, e, 3), 1)],
    acks := H9(d, e).acks[At(d, e, 2) := {}], dacks := H9(d, e).dacks[At(d, e, 2) := {}], rounds := [2, 2])
  }

  // ---------- The worlds of the run ----------

  function W0(d: nat, e: nat): World {
    World(1, [EMPTY_SERVER, EMPTY_SERVER],
          map[0 := ClientSend(1), 1 := Turn(d, e, 0, 0), 2 := Turn(d, e, 1, 1), 3 := Halt(d, e, 0), 4 := Halt(d, e, 1)],
          5, 0, NoHistoryYet())
  }

  /** The first request is sent, to server 1. */
  function W1(d: nat, e: nat): World {
    World(1, [EMPTY_SERVER, EMPTY_SERVER],
          map[1 := Turn(d, e, 0, 0), 2 := Turn(d, e, 1, 1), 3 := Halt(d, e, 0), 4 := Halt(d, e, 1),
              5 := RequestTo(1, FIRST, 1), 6 := ClientSend(At(d, e, 1))], 7, 1, H1())
  }

  /** It is delivered. */
  function W2(d: nat, e: nat): World {
    World(1, [EMPTY_SERVER, EMPTY_SERVER],
          map[1 := Turn(d, e, 0, 0), 2 := Turn(d, e, 1, 1), 3 := Halt(d, e, 0), 4 := Halt(d, e, 1),
              6 := ClientSend(At(d, e, 1)), 7 := Local(1, CreateProposal(FIRST), 11)], 8, 1, H1())
  }

  /** Server 0 has an empty turn. */
  function W3(d: nat, e: nat): World {
    World(1, [EMPTY_SERVER, EMPTY_SERVER],
          map[2 := Turn(d, e, 1, 1), 3 := Halt(d, e, 0), 4 := Halt(d, e, 1), 6 := ClientSend(At(d, e, 1)),
              7 := Local(1, CreateProposal(FIRST), 11), 8 := Turn(d, e, 0, 2)], 9, 1, H2())
  }

  /** The first proposal is created. */
  function W4(d: nat, e: nat): World {
    World(11, [EMPTY_SERVER, Waiting1()],
          map[2 := Turn(d, e, 1, 1), 3 := Halt(d, e, 0), 4 := Halt(d, e, 1), 6 := ClientSend(At(d, e, 1)),
              8 := Turn(d, e, 0, 2)], 9, 1, H3())
  }

  /** It is broadcast. */
  function W5(d: nat, e: nat): World {
    World(At(d, e, 1), [EMPTY_SERVER, Flight1(d, e)],
          map[3 := Halt(d, e, 0), 4 := Halt(d, e, 1), 6 := ClientSend(At(d, e, 1)), 8 := Turn(d, e, 0, 2),
              9 := FrameTo(0, Proposal(d, e), At(d, e, 1)), 10 := Turn(d, e, 1, 3)], 11, 1, H4(d, e))
  }

  /** The second request is sent, to server 0. */
  function W6(d: nat, e: nat): World {
    World(At(d, e, 1), [EMPTY_SERVER, Flight1(d, e)],
          map[3 := Halt(d, e, 0), 4 := Halt(d, e, 1), 8 := Turn(d, e, 0, 2),
              9 := FrameTo(0, Proposal(d, e), At(d, e, 1)), 10 := Turn(d, e, 1, 3),
              11 := RequestTo(0, Second(d, e), At(d, e, 1)), 12 := ClientSend(At(d, e, 2))], 13, 0, H5(d, e))
  }

  /** Server 0 accepts the first proposal. */
  function W7(d: nat, e: nat): World {
    World(Accepts(d, e), [Accepted0(d, e), Flight1(d, e)],
          map[3 := Halt(d, e, 0), 4 := Halt(d, e, 1), 8 := Turn(d, e, 0, 2), 10 := Turn(d, e, 1, 3),
              11 := RequestTo(0, Second(d, e), At(d, e, 1)), 12 := ClientSend(At(d, e, 2)),
              13 := Local(0, SendAccept(Answer(d, e)), Answers(d, e))], 14, 0, H5(d, e))
  }

  /** The second request is delivered. */
  function W8(d: nat, e: nat): World {
    World(Accepts(d, e), [Accepted0(d, e), Flight1(d, e)],
          map[3 := Halt(d, e, 0), 4 := Halt(d, e, 1), 8 := Turn(d, e, 0, 2), 10 := Turn(d, e, 1, 3),
              12 := ClientSend(At(d, e, 2)), 13 := Local(0, SendAccept(Answer(d, e)), Answers(d, e)),
              14 := Local(0, CreateProposal(Second(d, e)), Answers(d, e))], 15, 0, H5(d, e))
  }

  /** Server 0 has another empty turn. */
  function W9(d: nat, e: nat): World {
    World(At(d, e, 2), [Accepted0(d, e), Flight1(d, e)],
          map[3 := Halt(d, e, 0), 4 := Halt(d, e, 1), 10 := Turn(d, e, 1, 3), 12 := ClientSend(At(d, e, 2)),
              13 := Local(0, SendAccept(Answer(d, e)), Answers(d, e)),
              14 := Local(0, CreateProposal(Second(d, e)), Answers(d, e)), 15 := Turn(d, e, 0, 4)], 16, 0, H6(d, e))
  }

  /** The third request is sent, to server 1 again. */
  function W10(d: nat, e: nat): World {
    World(At(d, e, 2), [Accepted0(d, e), Flight1(d, e)],
          map[3 := Halt(d, e, 0), 4 := Halt(d, e, 1), 10 := Turn(d, e, 1, 3),
              13 := Local(0, SendAccept(Answer(d, e)), Answers(d, e)),
              14 := Local(0, CreateProposal(Second(d, e)), Answers(d, e)), 15 := Turn(d, e, 0, 4),
              16 := RequestTo(1, Third(d, e), At(d, e, 2)), 17 := ClientSend(At(d, e, 3))], 18, 1, H7(d, e))
  }

  /** It is delivered. */
  function W11(d: nat, e: nat): World {
    World(At(d, e, 2), [Accepted0(d, e), Flight1(d, e)],
          map[3 := Halt(d, e, 0), 4 := Halt(d, e, 1), 10 := Turn(d, e, 1, 3),
              13 := Local(0, SendAccept(Answer(d, e)), Answers(d, e)),
              14 := Local(0, CreateProposal(Second(d, e)), Answers(d, e)), 15 := Turn(d, e, 0, 4),
              17 := ClientSend(At(d, e, 3)), 18 := Local(1, CreateProposal(Third(d, e)), At(d, e, 2) + 10)],
          19, 1, H7(d, e))
  }

  /** Server 0 answers; the answer will take its time. */
  function W12(d: nat, e: nat): World {
    World(Answers(d, e), [Accepted0(d, e), Flight1(d, e)],
          map[3 := Halt(d, e, 0), 4 := Halt(d, e, 1), 10 := Turn(d, e, 1, 3),
              14 := Local(0, CreateProposal(Second(d, e)), Answers(d, e)), 15 := Turn(d, e, 0, 4),
              17 := ClientSend(At(d, e, 3)), 18 := Local(1, CreateProposal(Third(d, e)), At(d, e, 2) + 10),
              19 := FrameTo(1, Vote(d, e), Answers(d, e))], 20, 1, H7(d, e))
  }

  /** The second proposal is created. */
  function W13(d: nat, e: nat): World {
    World(Answers(d, e), [Waiting0(d, e), Flight1(d, e)],
          map[3 := Halt(d, e, 0), 4 := Halt(d, e, 1), 10 := Turn(d, e, 1, 3), 15 := Turn(d, e, 0, 4),
              17 := ClientSend(At(d, e, 3)), 18 := Local(1, CreateProposal(Third(d, e)), At(d, e, 2) + 10),
              19 := FrameTo(1, Vote(d, e), Answers(d, e))], 20, 1, H8(d, e))
  }

  /** And the third, in time for server 1's second turn. */
  function W14(d: nat, e: nat): World {
    World(At(d, e, 2) + 10, [Waiting0(d, e), Both1(d, e)],
          map[3 := Halt(d, e, 0), 4 := Halt(d, e, 1), 10 := Turn(d, e, 1, 3), 15 := Turn(d, e, 0, 4),
              17 := ClientSend(At(d, e, 3)), 19 := FrameTo(1, Vote(d, e), Answers(d, e))], 20, 1, H9(d, e))
  }

  /** It is broadcast as well. */
  function W15(d: nat, e: nat): World {
    World(At(d, e, 3), [Waiting0(d, e), Two1(d, e)],
          map[3 := Halt(d, e, 0), 4 := Halt(d, e, 1), 15 := Turn(d, e, 0, 4), 17 := ClientSend(At(d, e, 3)),
              19 := FrameTo(1, Vote(d, e), Answers(d, e)), 20 := FrameTo(0, ProposalToo(d, e), At(d, e, 3)),
              21 := Turn(d, e, 1, 5)], 22, 1, H10(d, e))
  }

  // ---------- What each handler does ----------

  lemma FirstItems(d: nat, e: nat)
    ensures InitialItems(Cfg(d, e)) ==
            [ClientSend(1), Turn(d, e, 0, 0), Turn(d, e, 1, 1), Halt(d, e, 0), Halt(d, e, 1)]
  {
    assert FirstProposals(Cfg(d, e)) == [Turn(d, e, 0, 0), Turn(d, e, 1, 1)];
    assert Stops(Cfg(d, e)) == [Halt(d, e, 0), Halt(d, e, 1)];
  }

  lemma EmptyTurn(d: nat, e: nat)
    requires Short(d, e)
    ensures HandleEvent(Cfg(d, e), 0, EMPTY_SERVER, SyncPropose, 1) ==
            Effect(EMPTY_SERVER, [Schedule(Cfg(d, e).Period(), SyncPropose)])
    ensures EventHistory(Cfg(d, e), H1(), 0, EMPTY_SERVER, SyncPropose, 1) == H2()
  {
  }

  lemma Creation(d: nat, e: nat)
    ensures HandleEvent(Cfg(d, e), 1, EMPTY_SERVER, CreateProposal(FIRST), 11) == Effect(Waiting1(), [])
    ensures EventHistory(Cfg(d, e), H2(), 1, EMPTY_SERVER, CreateProposal(FIRST), 11) == H3()
  {
    AppendSecond<nat>([], 1);
  }

  lemma FirstTurn(d: nat, e: nat)
    requires Short(d, e)
    ensures HandleEvent(Cfg(d, e), 1, Waiting1(), SyncPropose, At(d, e, 1)) ==
            Effect(Flight1(d, e), [Send(0, Proposal(d, e)), Schedule(Cfg(d, e).Period(), SyncPropose)])
    ensures EventHistory(Cfg(d, e), H3(), 1, Waiting1(), SyncPropose, At(d, e, 1)) == H4(d, e)
  {
    Times(d, e);
    OneOther(1, Proposal(d, e));
    AppendSecond<nat>([], 1);
  }

  lemma Acceptance(d: nat, e: nat)
    ensures ReceiveMessage(Cfg(d, e), 0, EMPTY_SERVER, Proposal(d, e), Accepts(d, e)) ==
            Effect(Accepted0(d, e), [Schedule(HANDLING_DELAY, SendAccept(Answer(d, e)))])
    ensures MessageHistory(Cfg(d, e), H5(d, e), 0, EMPTY_SERVER, Proposal(d, e), Accepts(d, e)) == H5(d, e)
  {
  }

  lemma EmptyTurnToo(d: nat, e: nat)
    requires Short(d, e)
    ensures HandleEvent(Cfg(d, e), 0, Accepted0(d, e), SyncPropose, At(d, e, 2)) ==
            Effect(Accepted0(d, e), [Schedule(Cfg(d, e).Period(), SyncPropose)])
    ensures EventHistory(Cfg(d, e), H5(d, e), 0, Accepted0(d, e), SyncPropose, At(d, e, 2)) == H6(d, e)
  {
    Times(d, e);
  }

  lemma Voting(d: nat, e: nat)
    ensures HandleEvent(Cfg(d, e), 0, Accepted0(d, e), SendAccept(Answer(d, e)), Answers(d, e)) ==
            Effect(Accepted0(d, e), [Send(1, Vote(d, e))])
    ensures EventHistory(Cfg(d, e), H7(d, e), 0, Accepted0(d, e), SendAccept(Answer(d, e)), Answers(d, e)) == H7(d, e)
  {
  }

  lemma CreationAt0(d: nat, e: nat)
    ensures HandleEvent(Cfg(d, e), 0, Accepted0(d, e), CreateProposal(Second(d, e)), Answers(d, e)) ==
            Effect(Waiting0(d, e), [])
    ensures EventHistory(Cfg(d, e), H7(d, e), 0, Accepted0(d, e), CreateProposal(Second(d, e)), Answers(d, e)) ==
            H8(d, e)
  {
    AppendFirst<nat>([1], At(d, e, 1));
  }

  lemma CreationToo(d: nat, e: nat)
    ensures HandleEvent(Cfg(d, e), 1, Flight1(d, e), CreateProposal(Third(d, e)), At(d, e, 2) + 10) ==
            Effect(Both1(d, e), [])
    ensures EventHistory(Cfg(d, e), H8(d, e), 1, Flight1(d, e), CreateProposal(Third(d, e)), At(d, e, 2) + 10) ==
            H9(d, e)
  {
    AppendToSecond([At(d, e, 1)], 1, At(d, e, 2));
  }

  lemma AppendToSecond(a: seq<nat>, x: nat, y: nat)
    ensures Append([a, [x]], 1, y) == [a, [x, y]]
  {
    assert [x] + [y] == [x, y];
  }

  lemma TurnToo(d: nat, e: nat)
    requires Short(d, e)
    ensures HandleEvent(Cfg(d, e), 1, Both1(d, e), SyncPropose, At(d, e, 3)) ==
            Effect(Two1(d, e), [Send(0, ProposalToo(d, e)), Schedule(Cfg(d, e).Period(), SyncPropose)])
    ensures EventHistory(Cfg(d, e), H9(d, e), 1, Both1(d, e), SyncPropose, At(d, e, 3)) == H10(d, e)
  {
    Times(d, e);
    OneOther(1, ProposalToo(d, e));
    AppendToSecond([], 1, At(d, e, 2));
  }

  // ---------- The run, step by step ----------

  lemma Start(d: nat, e: nat)
    requires Short(d, e)
    ensures Cfg(d, e).Valid() && Reached(Cfg(d, e), W0(d, e))
  {
    FirstItems(d, e);
    PostFive(ClientSend(1), Turn(d, e, 0, 0), Turn(d, e, 1, 1), Halt(d, e, 0), Halt(d, e, 1));
    TwoServers();
    NoHistory();
    StartsHere(Cfg(d, e), 0);
    assert InitialWorld(Cfg(d, e), 0) == W0(d, e);
  }

  lemma Run1(d: nat, e: nat)
    requires Short(d, e)
    ensures Reached(Cfg(d, e), W1(d, e))
  {
    hide Reached;
    Start(d, e);
    Times(d, e);
    assert (W0(d, e).agenda - {0})[5 := RequestTo(1, FIRST, 1)][6 := ClientSend(At(d, e, 1))] == W1(d, e).agenda;
    RunClient(Cfg(d, e), W0(d, e), 0, 7, W1(d, e));
  }

  lemma Run2(d: nat, e: nat)
    requires Short(d, e)
    ensures Reached(Cfg(d, e), W2(d, e))
  {
    hide Reached, H1;
    Run1(d, e);
    assert (W1(d, e).agenda - {5})[7 := Local(1, CreateProposal(FIRST), 11)] == W2(d, e).agenda;
    RunRequest(Cfg(d, e), W1(d, e), 5, 1, FIRST, 1, W2(d, e));
  }

  lemma Run3(d: nat, e: nat)
    requires Short(d, e)
    ensures Reached(Cfg(d, e), W3(d, e))
  {
    hide Reached, Commit, HandleEvent, EventHistory, H1, H2;
    Run2(d, e);
    Times(d, e);
    EmptyTurn(d, e);
    var o := Schedule(Cfg(d, e).Period(), SyncPropose);
    CommitOne(W2(d, e), 1, 0, EMPTY_SERVER, o, H2());
    assert (W2(d, e).agenda - {1})[8 := Turn(d, e, 0, 2)] == W3(d, e).agenda;
    RunEvent(Cfg(d, e), W2(d, e), 1, 0, SyncPropose, Effect(EMPTY_SERVER, [o]), H2(), W3(d, e));
  }

  lemma Run4(d: nat, e: nat)
    requires Short(d, e)
    ensures Reached(Cfg(d, e), W4(d, e))
  {
    hide Reached, Commit, HandleEvent, EventHistory, Waiting1, H2, H3;
    Run3(d, e);
    Times(d, e);
    var w := W3(d, e).(now := 11);
    Tick(Cfg(d, e), W3(d, e), 11);
    Creation(d, e);
    CommitNone(w, 7, 1, Waiting1(), H3());
    assert w.agenda - {7} == W4(d, e).agenda && w.servers[1 := Waiting1()] == W4(d, e).servers;
    RunEvent(Cfg(d, e), w, 7, 1, CreateProposal(FIRST), Effect(Waiting1(), []), H3(), W4(d, e));
  }

  lemma Run5(d: nat, e: nat)
    requires Short(d, e)
    ensures Reached(Cfg(d, e), W5(d, e))
  {
    hide Reached, Commit, HandleEvent, EventHistory, Waiting1, Flight1, H3, H4;
    Run4(d, e);
    Times(d, e);
    var w, o := W4(d, e).(now := At(d, e, 1)), Schedule(Cfg(d, e).Period(), SyncPropose);
    Tick(Cfg(d, e), W4(d, e), At(d, e, 1));
    FirstTurn(d, e);
    CommitTwo(w, 2, 1, Flight1(d, e), Send(0, Proposal(d, e)), o, H4(d, e));
    assert (w.agenda - {2})[9 := FrameTo(0, Proposal(d, e), At(d, e, 1))][10 := Turn(d, e, 1, 3)] == W5(d, e).agenda;
    assert w.servers[1 := Flight1(d, e)] == W5(d, e).servers;
    RunEvent(Cfg(d, e), w, 2, 1, SyncPropose, Effect(Flight1(d, e), [Send(0, Proposal(d, e)), o]), H4(d, e), W5(d, e));
  }

  lemma Run6(d: nat, e: nat)
    requires Short(d, e)
    ensures Reached(Cfg(d, e), W6(d, e))
  {
    hide Reached, Flight1, H4;
    Run5(d, e);
    Times(d, e);
    var r := RequestTo(0, Second(d, e), At(d, e, 1));
    assert (W5(d, e).agenda - {6})[11 := r][12 := ClientSend(At(d, e, 2))] == W6(d, e).agenda;
    RunClient(Cfg(d, e), W5(d, e), 6, 8, W6(d, e));
  }

  lemma Wait7(d: nat, e: nat)
    requires Short(d, e)
    ensures Reached(Cfg(d, e), W6(d, e).(now := Accepts(d, e)))
  {
    hide Reached, Flight1, H5;
    Run6(d, e);
    Times(d, e);
    Tick(Cfg(d, e), W6(d, e), Accepts(d, e));
  }

  lemma Run7(d: nat, e: nat)
    requires Short(d, e)
    ensures Reached(Cfg(d, e), W7(d, e))
  {
    hide Reached, Commit, ReceiveMessage, MessageHistory, Flight1, Accepted0, H5;
    Wait7(d, e);
    var w, o := W6(d, e).(now := Accepts(d, e)), Schedule(HANDLING_DELAY, SendAccept(Answer(d, e)));
    Acceptance(d, e);
    CommitOne(w, 9, 0, Accepted0(d, e), o, H5(d, e));
    assert (w.agenda - {9})[13 := Local(0, SendAccept(Answer(d, e)), Answers(d, e))] == W7(d, e).agenda;
    assert w.servers[0 := Accepted0(d, e)] == W7(d, e).servers;
    RunFrame(Cfg(d, e), w, 9, 0, Proposal(d, e), At(d, e, 1), Effect(Accepted0(d, e), [o]), H5(d, e), W7(d, e));
  }

  lemma Run8(d: nat, e: nat)
    requires Short(d, e)
    ensures Reached(Cfg(d, e), W8(d, e))
  {
    hide Reached, Accepted0, Flight1, H5;
    Run7(d, e);
    assert (W7(d, e).agenda - {11})[14 := Local(0, CreateProposal(Second(d, e)), Answers(d, e))] == W8(d, e).agenda;
    RunRequest(Cfg(d, e), W7(d, e), 11, 0, Second(d, e), At(d, e, 1), W8(d, e));
  }

  lemma Wait9(d: nat, e: nat)
    requires Short(d, e)
    ensures Reached(Cfg(d, e), W8(d, e).(now := At(d, e, 2)))
  {
    hide Reached, Accepted0, Flight1, H5;
    Run8(d, e);
    Times(d, e);
    Tick(Cfg(d, e), W8(d, e), At(d, e, 2));
  }

  lemma Run9(d: nat, e: nat)
    requires Short(d, e)
    ensures Reached(Cfg(d, e), W9(d, e))
  {
    hide Reached, Commit, HandleEvent, EventHistory, Accepted0, Flight1, H5, H6;
    Wait9(d, e);
    Times(d, e);
    var w, o := W8(d, e).(now := At(d, e, 2)), Schedule(Cfg(d, e).Period(), SyncPropose);
    EmptyTurnToo(d, e);
    CommitOne(w, 8, 0, Accepted0(d, e), o, H6(d, e));
    assert (w.agenda - {8})[15 := Turn(d, e, 0, 4)] == W9(d, e).agenda;
    assert w.servers[0 := Accepted0(d, e)] == W9(d, e).servers;
    RunEvent(Cfg(d, e), w, 8, 0, SyncPropose, Effect(Accepted0(d, e), [o]), H6(d, e), W9(d, e));
  }

  lemma Run10(d: nat, e: nat)
    requires Short(d, e)
    ensures Reached(Cfg(d, e), W10(d, e))
  {
    hide Reached, Accepted0, Flight1, H6;
    Run9(d, e);
    Times(d, e);
    var r := RequestTo(1, Third(d, e), At(d, e, 2));
    assert (W9(d, e).agenda - {12})[16 := r][17 := ClientSend(At(d, e, 3))] == W10(d, e).agenda;
    RunClient(Cfg(d, e), W9(d, e), 12, 9, W10(d, e));
  }

  lemma Run11(d: nat, e: nat)
    requires Short(d, e)
    ensures Reached(Cfg(d, e), W11(d, e))
  {
    hide Reached, Accepted0, Flight1, H7;
    Run10(d, e);
    var w := W10(d, e);
    assert (w.agenda - {16})[18 := Local(1, CreateProposal(Third(d, e)), At(d, e, 2) + 10)] == W11(d, e).agenda;
    RunRequest(Cfg(d, e), w, 16, 1, Third(d, e), At(d, e, 2), W11(d, e));
  }

  lemma Wait12(d: nat, e: nat)
    requires Short(d, e)
    ensures Reached(Cfg(d, e), W11(d, e).(now := Answers(d, e)))
  {
    hide Reached, Accepted0, Flight1, H7;
    Run11(d, e);
    Times(d, e);
    Tick(Cfg(d, e), W11(d, e), Answers(d, e));
  }

  lemma Run12(d: nat, e: nat)
    requires Short(d, e)
    ensures Reached(Cfg(d, e), W12(d, e))
  {
    hide Reached, Commit, HandleEvent, EventHistory, Accepted0, Flight1, H7;
    Wait12(d, e);
    var w, o := W11(d, e).(now := Answers(d, e)), Send(1, Vote(d, e));
    Voting(d, e);
    CommitOne(w, 13, 0, Accepted0(d, e), o, H7(d, e));
    assert (w.agenda - {13})[19 := FrameTo(1, Vote(d, e), Answers(d, e))] == W12(d, e).agenda;
    assert w.servers[0 := Accepted0(d, e)] == W12(d, e).servers;
    RunEvent(Cfg(d, e), w, 13, 0, SendAccept(Answer(d, e)), Effect(Accepted0(d, e), [o]), H7(d, e), W12(d, e));
  }

  lemma Run13(d: nat, e: nat)
    requires Short(d, e)
    ensures Reached(Cfg(d, e), W13(d, e))
  {
    hide Reached, Commit, HandleEvent, EventHistory, Accepted0, Waiting0, Flight1, H7, H8;
    Run12(d, e);
    CreationAt0(d, e);
    CommitNone(W12(d, e), 14, 0, Waiting0(d, e), H8(d, e));
    assert W12(d, e).agenda - {14} == W13(d, e).agenda && W12(d, e).servers[0 := Waiting0(d, e)] == W13(d, e).servers;
    RunEvent(Cfg(d, e), W12(d, e), 14, 0, CreateProposal(Second(d, e)), Effect(Waiting0(d, e), []),
             H8(d, e), W13(d, e));
  }

  lemma Wait14(d: nat, e: nat)
    requires Short(d, e)
    ensures Reached(Cfg(d, e), W13(d, e).(now := At(d, e, 2) + 10))
  {
    hide Reached, Waiting0, Flight1, H8;
    Run13(d, e);
    Times(d, e);
    Tick(Cfg(d, e), W13(d, e), At(d, e, 2) + 10);
  }

  lemma Run14(d: nat, e: nat)
    requires Short(d, e)
    ensures Reached(Cfg(d, e), W14(d, e))
  {
    hide Reached, Commit, HandleEvent, EventHistory, Waiting0, Flight1, Both1, H8, H9;
    Wait14(d, e);
    var w := W13(d, e).(now := At(d, e, 2) + 10);
    CreationToo(d, e);
    CommitNone(w, 18, 1, Both1(d, e), H9(d, e));
    assert w.agenda - {18} == W14(d, e).agenda && w.servers[1 := Both1(d, e)] == W14(d, e).servers;
    RunEvent(Cfg(d, e), w, 18, 1, CreateProposal(Third(d, e)), Effect(Both1(d, e), []), H9(d, e), W14(d, e));
  }

  lemma Wait15(d: nat, e: nat)
    requires Short(d, e)
    ensures Reached(Cfg(d, e), W14(d, e).(now := At(d, e, 3)))
  {
    hide Reached, Waiting0, Both1, H9;
    Run14(d, e);
    Times(d, e);
    Tick(Cfg(d, e), W14(d, e), At(d, e, 3));
  }

  lemma Run15(d: nat, e: nat)
    requires Short(d, e)
    ensures Reached(Cfg(d, e), W15(d, e))
  {
    hide Reached, Commit, HandleEvent, EventHistory, Waiting0, Both1, Two1, H9, H10;
    Wait15(d, e);
    Times(d, e);
    var w, o := W14(d, e).(now := At(d, e, 3)), Schedule(Cfg(d, e).Period(), SyncPropose);
    TurnToo(d, e);
    CommitTwo(w, 10, 1, Two1(d, e), Send(0, ProposalToo(d, e)), o, H10(d, e));
    assert (w.agenda - {10})[20 := FrameTo(0, ProposalToo(d, e), At(d, e, 3))][21 := Turn(d, e, 1, 5)] ==
           W15(d, e).agenda;
    assert w.servers[1 := Two1(d, e)] == W15(d, e).servers;
    RunEvent(Cfg(d, e), w, 10, 1, SyncPropose, Effect(Two1(d, e), [Send(0, ProposalToo(d, e)), o]),
             H10(d, e), W15(d, e));
  }

  lemma TwoHeld(d: nat, e: nat)
    requires Short(d, e)
    ensures |Two1(d, e).proposals| == 2
  {
    Times(d, e);
    assert Two1(d, e).proposals.Keys == {1, At(d, e, 2)};
  }

  /** The condition for one proposal in flight is needed: for every delay and clock error that break
      it, a timely lossless run of two servers reaches a world in which a server has a proposal in
      flight when its turn comes, and then one in which it has two. */
  lemma NeedsLongTurns(d: nat, e: nat) returns (w: World, w': World)
    requires Short(d, e)
    ensures Timely(Cfg(d, e), w) && Timely(Cfg(d, e), w')
    ensures 10 in w.agenda && w.agenda[10] == Local(1, SyncPropose, w.now) && 1 in w.servers[1].proposals
    ensures |w'.servers[1].proposals| == 2
  {
    hide Reached;
    Wait15(d, e);
    Run15(d, e);
    w, w' := W14(d, e).(now := At(d, e, 3)), W15(d, e);
    TwoHeld(d, e);
  }

  /** So for two servers whose slots leave time to handle a request, one proposal in flight at a time
      means exactly that a period is longer than the longest exchange. */
  lemma OneInFlightExactly(d: nat, e: nat)
    requires Cfg(d, e).Slot() >= HANDLING_DELAY
    ensures (forall w: World :: Timely(Cfg(d, e), w) ==> |w.servers[1].proposals| <= 1) <==> TurnsAreLong(Cfg(d, e))
  {
    if TurnsAreLong(Cfg(d, e)) {
      forall w: World | Timely(Cfg(d, e), w) ensures |w.servers[1].proposals| <= 1 { OneInFlight(Cfg(d, e), w, 1); }
    } else {
      var w, w' := NeedsLongTurns(d, e);
    }
  }
}
