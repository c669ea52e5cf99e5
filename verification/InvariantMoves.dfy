/** Every handler keeps the whole invariant. */
module InvariantMoves {
  import opened PaxosData
  import opened Cluster
  import opened Snapshots
  import opened Invariant
  import opened SafeMoves
  import opened FlowMoves

  lemma SettledKept(cfg: Config, s: Snapshot, s': Snapshot)
    requires Shape(cfg, s) && Shape(cfg, s') && Settled(cfg, s) && s'.h.decisions == s.h.decisions
    requires forall i :: 0 <= i < cfg.n ==> s'.servers[i].proposals == s.servers[i].proposals
    ensures Settled(cfg, s')
  {
  }

  lemma SlotsSame(cfg: Config, h: History, h': History)
    requires SlotsOk(cfg, h) && h'.ballots == h.ballots && h'.rounds == h.rounds
    ensures SlotsOk(cfg, h')
  {
  }

  /** Moves that leave proposals, ballots and counts alone and lose no message. */
  lemma QuietFlow(cfg: Config, s: Snapshot, s': Snapshot)
    requires Shape(cfg, s) && Shape(cfg, s') && Flow(cfg, s) && Settled(cfg, s) && s.now <= s'.now
    requires s'.h == s.h.(cut := s'.h.cut)
    requires forall i :: 0 <= i < cfg.n ==> s'.servers[i].proposals == s.servers[i].proposals
    requires cfg.lossless ==>
               forall t :: t in s.live && t.stage in {AtRequest, AtProposal, AtDecision, AtAck} ==> t in s'.live
    requires cfg.async ==> (Token(AtTimer, 0, cfg.leader) in s'.live <==> Token(AtTimer, 0, cfg.leader) in s.live)
    ensures Flow(cfg, s') && Settled(cfg, s')
  {
  }

  lemma ForgetInv(cfg: Config, s: Snapshot, t: Token)
    requires Inv(cfg, s)
    requires cfg.async ==> t != Token(AtTimer, 0, cfg.leader)
    requires cfg.lossless ==> t.stage in {AtTimer, AtClient, AtStop}
    ensures Inv(cfg, Forget(s, t))
  {
    ForgetSafe(cfg, s, t);
    QuietFlow(cfg, s, Forget(s, t));
  }

  lemma LateFlow(cfg: Config, s: Snapshot, t: Token)
    requires Shape(cfg, s) && Flow(cfg, s) && Settled(cfg, s) && t.stage in {AtProposal, AtAck}
    requires forall i :: 0 <= i < cfg.n ==> t.id !in s.servers[i].proposals
    ensures Shape(cfg, Forget(s, t)) && Flow(cfg, Forget(s, t)) && Settled(cfg, Forget(s, t))
  {
  }

  /** Even on a lossless network a vote may vanish when nobody waits for it any more. */
  lemma LateInv(cfg: Config, s: Snapshot, t: Token)
    requires Inv(cfg, s) && t.stage in {AtProposal, AtAck}
    requires forall i :: 0 <= i < cfg.n ==> t.id !in s.servers[i].proposals
    ensures Inv(cfg, Forget(s, t))
  {
    ForgetSafe(cfg, s, t);
    LateFlow(cfg, s, t);
  }

  lemma AdvanceInv(cfg: Config, s: Snapshot, t: nat)
    requires Inv(cfg, s) && s.now <= t
    ensures Inv(cfg, s.(now := t))
  {
    AdvanceSafe(cfg, s, t);
    QuietFlow(cfg, s, s.(now := t));
  }

  lemma AcceptInv(cfg: Config, s: Snapshot, a: nat, f: Frame)
    requires Inv(cfg, s) && a < cfg.n && a != f.proposerId
    requires SameBallot(s.h, f.proposalId, f.proposerId, f.value, f.proposeTime)
    ensures Inv(cfg, Accept(s, a, f))
  {
    hide ServerOk, HistoryOk, LiveOk, LeaderOk, NothingLost, SlotsOk;
    AcceptSafe(cfg, s, a, f);
    QuietFlow(cfg, s, Accept(s, a, f));
  }

  lemma HaltInv(cfg: Config, s: Snapshot, i: nat)
    requires Inv(cfg, s) && i < cfg.n && Token(AtStop, 0, i) in s.live
    ensures Inv(cfg, Halt(s, i))
  {
    HaltSafe(cfg, s, i);
    QuietFlow(cfg, s, Halt(s, i));
  }

  // ---------- Requests ----------

  lemma RejectFlow(cfg: Config, s: Snapshot, req: Request)
    requires Shape(cfg, s) && Flow(cfg, s) && Settled(cfg, s)
    ensures Shape(cfg, Reject(s, req)) && Flow(cfg, Reject(s, req)) && Settled(cfg, Reject(s, req))
  {
  }

  lemma RejectInv(cfg: Config, s: Snapshot, req: Request)
    requires Inv(cfg, s) && Token(AtRequest, req.timestamp, 0) in s.live
    ensures Inv(cfg, Reject(s, req))
  {
    RejectSafe(cfg, s, req);
    RejectFlow(cfg, s, req);
  }

  lemma CreateFlow(cfg: Config, s: Snapshot, i: nat, req: Request)
    requires Shape(cfg, s) && Flow(cfg, s) && Settled(cfg, s) && i < cfg.n
    requires req.timestamp in s.h.requests && s.h.requests[req.timestamp].dst == i
    ensures Shape(cfg, Create(s, i, req)) && Flow(cfg, Create(s, i, req)) && Settled(cfg, Create(s, i, req))
  {
    var s' := Create(s, i, req);
    SettledKept(cfg, s, s');
    if cfg.async { LeaderKept(cfg, s, s'); } else { SlotsSame(cfg, s.h, s'.h); }
    if cfg.lossless { CreateLost(cfg, s, i, req); }
  }

  lemma CreateInv(cfg: Config, s: Snapshot, i: nat, req: Request)
    requires Inv(cfg, s) && CanCreate(cfg, s, i, req)
    ensures Inv(cfg, Create(s, i, req))
  {
    CreateSafe(cfg, s, i, req);
    CreateFlow(cfg, s, i, req);
  }

  lemma SubmitFlow(cfg: Config, s: Snapshot, value: nat, dst: nat)
    requires Shape(cfg, s) && Flow(cfg, s) && Settled(cfg, s) && dst < cfg.n && s.now !in s.h.requests
    ensures Shape(cfg, Submit(s, value, dst))
    ensures Flow(cfg, Submit(s, value, dst)) && Settled(cfg, Submit(s, value, dst))
  {
  }

  lemma SubmitInv(cfg: Config, s: Snapshot, value: nat, dst: nat)
    requires Inv(cfg, s) && CanSubmit(cfg, s, dst)
    ensures Inv(cfg, Submit(s, value, dst))
  {
    SubmitSafe(cfg, s, value, dst);
    SubmitFlow(cfg, s, value, dst);
  }

  // ---------- Proposing ----------

  lemma IssueSettled(cfg: Config, s: Snapshot, i: nat)
    requires CanIssue(cfg, s, i) && Settled(cfg, s)
    ensures Settled(cfg, Issue(cfg, s, i))
  {
    var s' := Issue(cfg, s, i);
    HeadIsNew(cfg, s, i);
    forall j, id | 0 <= j < cfg.n && id in s'.servers[j].proposals
      ensures Pending(cfg, s', s'.servers[j].proposals[id], id)
    {
      if id in s.servers[j].proposals && id != s.servers[i].waiting[0].id {
        assert Pending(cfg, s, s.servers[j].proposals[id], id);
      }
    }
  }

  lemma TakeTurnInv(cfg: Config, s: Snapshot)
    requires cfg.async && Inv(cfg, s) && Token(AtTimer, 0, cfg.leader) in s.live
    ensures Inv(cfg, TakeTurn(cfg, s, cfg.leader))
  {
    var t := Forget(s, Token(AtTimer, 0, cfg.leader));
    TakeTurnSafe(cfg, s, cfg.leader);
    TakeTurnLeader(cfg, s);
    ForgetSafe(cfg, s, Token(AtTimer, 0, cfg.leader));
    SettledKept(cfg, s, t);
    if cfg.lossless { LostKept(cfg, s, t); }
    if s.now < cfg.stop && s.servers[cfg.leader].waiting != [] {
      IssueSettled(cfg, t, cfg.leader);
      if cfg.lossless { IssueLost(cfg, t, cfg.leader); }
    }
  }

  lemma TakeSlotInv(cfg: Config, s: Snapshot, i: nat)
    requires !cfg.async && Inv(cfg, s) && i < cfg.n
    requires s.now == cfg.TurnStart(i, s.h.rounds[i])
    ensures Inv(cfg, TakeSlot(cfg, s, i))
  {
    TakeSlotSafe(cfg, s, i);
    TakeSlotSlots(cfg, s, i);
    TakeSlotRest(cfg, s, i);
  }

  lemma TakeSlotRest(cfg: Config, s: Snapshot, i: nat)
    requires !cfg.async && Inv(cfg, s) && i < cfg.n
    ensures Shape(cfg, TakeSlot(cfg, s, i)) && Settled(cfg, TakeSlot(cfg, s, i))
    ensures cfg.lossless ==> NothingLost(cfg, TakeSlot(cfg, s, i))
  {
    var s' := TakeSlot(cfg, s, i);
    if s.now >= cfg.stop || s.servers[i].waiting == [] {
      SettledKept(cfg, s, s');
      if cfg.lossless { LostKept(cfg, s, s'); }
    } else {
      var t := Issue(cfg, s, i);
      IssueSettled(cfg, s, i);
      SettledKept(cfg, t, s');
      if cfg.lossless {
        IssueLost(cfg, s, i);
        LostKept(cfg, t, s');
      }
    }
  }

  // ---------- Counting ----------

  lemma CountAckFlow(cfg: Config, s: Snapshot, i: nat, id: nat, a: nat)
    requires Shape(cfg, s) && Flow(cfg, s) && i < cfg.n && id in s.servers[i].proposals
    ensures Shape(cfg, CountAck(s, i, id, a)) && Flow(cfg, CountAck(s, i, id, a))
  {
    if cfg.async { CountAckLeader(cfg, s, i, id, a); }
    if cfg.lossless { CountAckLost(cfg, s, i, id, a); }
  }

  lemma DecideFlow(cfg: Config, s: Snapshot, i: nat, id: nat)
    requires CanDecide(cfg, s, i, id) && Flow(cfg, s)
    ensures Flow(cfg, Decide(cfg, s, i, id))
  {
    IsUndecided(cfg, s, i, id);
    if cfg.async { DecideLeader(cfg, s, i, id); }
    if cfg.lossless { DecideLost(cfg, s, i, id); }
  }

  lemma CompleteFlow(cfg: Config, s: Snapshot, i: nat, p: Record)
    requires CanComplete(cfg, s, i, p) && Flow(cfg, s)
    ensures Flow(cfg, Complete(cfg, s, i, p))
  {
    var s' := Complete(cfg, s, i, p);
    if cfg.async { CompleteLeader(cfg, s, p); } else { SlotsSame(cfg, s.h, s'.h); }
    if cfg.lossless {
      forall j | 0 <= j < cfg.n && j != i ensures p.id !in s.servers[j].proposals {
        FlightFacts(cfg, s, i, p.id);
        if p.id in s.servers[j].proposals { FlightFacts(cfg, s, j, p.id); }
      }
      CompleteLost(cfg, s, i, p);
    }
  }

  lemma OnlyProposer(cfg: Config, s: Snapshot, i: nat, id: nat)
    requires Safe(cfg, s) && i < cfg.n && id in s.servers[i].proposals
    ensures forall j :: 0 <= j < cfg.n && j != i ==> id !in s.servers[j].proposals
  {
    forall j | 0 <= j < cfg.n && j != i ensures id !in s.servers[j].proposals {
      FlightFacts(cfg, s, i, id);
      if id in s.servers[j].proposals { FlightFacts(cfg, s, j, id); }
    }
  }

  lemma OnAcceptFlow(cfg: Config, s: Snapshot, i: nat, id: nat, a: nat)
    requires Inv(cfg, s) && CanCountAck(cfg, s, i, id, a)
    ensures Safe(cfg, OnAccept(cfg, s, i, id, a)) && Flow(cfg, OnAccept(cfg, s, i, id, a))
  {
    var s1 := CountAck(s, i, id, a);
    CountAckFlow(cfg, s, i, id, a);
    CountAckSafe(cfg, s, i, id, a);
    var p := s1.servers[i].proposals[id];
    if p.numAck > cfg.n / 2 && p.decisionTime == 0 {
      assert a in s1.h.acks[id];
      DecideStep(cfg, s1, i, id);
    }
  }

  lemma DecideStep(cfg: Config, s: Snapshot, i: nat, id: nat)
    requires CanDecide(cfg, s, i, id) && Flow(cfg, s)
    ensures Safe(cfg, Decide(cfg, s, i, id)) && Flow(cfg, Decide(cfg, s, i, id))
    ensures var s' := Decide(cfg, s, i, id);
      !cfg.async ==> Safe(cfg, Complete(cfg, s', i, s'.servers[i].proposals[id])) &&
                     Flow(cfg, Complete(cfg, s', i, s'.servers[i].proposals[id]))
  {
    DecideSafe(cfg, s, i, id);
    DecideFlow(cfg, s, i, id);
    if !cfg.async {
      var s' := Decide(cfg, s, i, id);
      FlightFacts(cfg, s, i, id);
      CompleteSafe(cfg, s', i, s'.servers[i].proposals[id]);
      CompleteFlow(cfg, s', i, s'.servers[i].proposals[id]);
    }
  }

  lemma OnAcceptSettled(cfg: Config, s: Snapshot, i: nat, id: nat, a: nat)
    requires Shape(cfg, s) && i < cfg.n && a < cfg.n && a != i && id in s.servers[i].proposals && Settled(cfg, s)
    requires forall j :: 0 <= j < cfg.n && j != i ==> id !in s.servers[j].proposals
    requires FlightRecord(cfg, s.h, i, id, s.servers[i].proposals[id])
    requires id in s.h.decisions ==> s.h.decisions[id] > 0
    ensures Shape(cfg, OnAccept(cfg, s, i, id, a)) && Settled(cfg, OnAccept(cfg, s, i, id, a))
  {
    var s' := OnAccept(cfg, s, i, id, a);
    forall j, x | 0 <= j < cfg.n && x in s'.servers[j].proposals
      ensures Pending(cfg, s', s'.servers[j].proposals[x], x)
    {
      assert Pending(cfg, s, s.servers[j].proposals[x], x);
    }
  }

  lemma OnAcceptInv(cfg: Config, s: Snapshot, i: nat, id: nat, a: nat)
    requires Inv(cfg, s) && CanCountAck(cfg, s, i, id, a)
    ensures Inv(cfg, OnAccept(cfg, s, i, id, a))
  {
    OnAcceptFlow(cfg, s, i, id, a);
    OnlyProposer(cfg, s, i, id);
    FlightFacts(cfg, s, i, id);
    assert LiveOk(cfg, s, Token(AtProposal, id, a)) && DecisionOk(cfg, s, id);
    OnAcceptSettled(cfg, s, i, id, a);
  }

  lemma LearnInv(cfg: Config, s: Snapshot, a: nat, f: Frame)
    requires Inv(cfg, s) && CanLearn(cfg, s, a, f)
    ensures Inv(cfg, Learn(cfg, s, a, f))
  {
    LearnSafe(cfg, s, a, f);
    if cfg.async {
      assert LiveOk(cfg, s, Token(AtDecision, f.proposalId, a));
      LeaderBallots(cfg, s, f.proposalId);
    }
    LearnFlow(cfg, s, a, f);
  }

  lemma LearnFlow(cfg: Config, s: Snapshot, a: nat, f: Frame)
    requires Shape(cfg, s) && Flow(cfg, s) && Settled(cfg, s) && a < cfg.n && (cfg.async ==> a != cfg.leader)
    ensures Shape(cfg, Learn(cfg, s, a, f)) && Flow(cfg, Learn(cfg, s, a, f)) && Settled(cfg, Learn(cfg, s, a, f))
  {
    var s' := Learn(cfg, s, a, f);
    SettledKept(cfg, s, s');
    if cfg.async { LearnLeader(cfg, s, a, f); } else { SlotsSame(cfg, s.h, s'.h); }
    if cfg.lossless { LearnLost(cfg, s, a, f); }
  }

  lemma CountDecisionAckFlow(cfg: Config, s: Snapshot, i: nat, id: nat, a: nat)
    requires Shape(cfg, s) && Flow(cfg, s) && i < cfg.n && id in s.servers[i].proposals
    ensures Shape(cfg, CountDecisionAck(s, i, id, a)) && Flow(cfg, CountDecisionAck(s, i, id, a))
  {
    if cfg.async { CountDecisionAckLeader(cfg, s, i, id, a); }
    if cfg.lossless { CountDecisionAckLost(cfg, s, i, id, a); }
  }

  lemma CompleteSettled(cfg: Config, s: Snapshot, i: nat, id: nat, a: nat, p: Record)
    requires Shape(cfg, s) && i < cfg.n && id in s.servers[i].proposals && Settled(cfg, s) && p.id == id
    requires forall j :: 0 <= j < cfg.n && j != i ==> id !in s.servers[j].proposals
    ensures Shape(cfg, Complete(cfg, CountDecisionAck(s, i, id, a), i, p))
    ensures Settled(cfg, Complete(cfg, CountDecisionAck(s, i, id, a), i, p))
  {
  }

  lemma CountDecisionAckSettled(cfg: Config, s: Snapshot, i: nat, id: nat, a: nat)
    requires Shape(cfg, s) && i < cfg.n && id in s.servers[i].proposals && Settled(cfg, s) && cfg.async
    requires forall j :: 0 <= j < cfg.n && j != i ==> id !in s.servers[j].proposals
    requires id in s.h.decisions && s.servers[i].proposals[id].numDecisionAck + 1 <= cfg.n / 2
    ensures Shape(cfg, CountDecisionAck(s, i, id, a)) && Settled(cfg, CountDecisionAck(s, i, id, a))
  {
  }

  /** What counting the acknowledgement needs to know about its proposal. */
  lemma AckFacts(cfg: Config, s: Snapshot, i: nat, id: nat, a: nat)
    requires Inv(cfg, s) && CanCountDecisionAck(cfg, s, i, id, a)
    ensures InFlight(s, i, id) && s.servers[i].proposals[id].id == id && s.servers[i].proposals[id].decisionAckTime == 0
    ensures cfg.async && i == cfg.leader && id in s.h.decisions
    ensures forall j :: 0 <= j < cfg.n && j != i ==> id !in s.servers[j].proposals
  {
    FlightFacts(cfg, s, i, id);
    OnlyProposer(cfg, s, i, id);
    assert LiveOk(cfg, s, Token(AtAck, id, a));
    LeaderBallots(cfg, s, id);
  }

  lemma AckCases(cfg: Config, s: Snapshot, i: nat, id: nat, a: nat)
    requires InFlight(s, i, id) && s.servers[i].proposals[id].decisionAckTime == 0
    ensures var s1 := CountDecisionAck(s, i, id, a);
      OnDecisionAck(cfg, s, i, id, a) ==
      if s.servers[i].proposals[id].numDecisionAck + 1 > cfg.n / 2
      then TakeTurn(cfg, Complete(cfg, s1, i, s1.servers[i].proposals[id].(decisionAckTime := s.now)), i) else s1
  {
  }

  lemma OnDecisionAckInv(cfg: Config, s: Snapshot, i: nat, id: nat, a: nat)
    requires Inv(cfg, s) && CanCountDecisionAck(cfg, s, i, id, a)
    ensures Inv(cfg, OnDecisionAck(cfg, s, i, id, a))
  {
    hide Inv, Safe, OnDecisionAck;
    AckFacts(cfg, s, i, id, a);
    AckCases(cfg, s, i, id, a);
    if s.servers[i].proposals[id].numDecisionAck + 1 > cfg.n / 2 {
      AckCompletes(cfg, s, i, id, a);
    } else {
      AckPending(cfg, s, i, id, a);
    }
  }

  lemma AckPending(cfg: Config, s: Snapshot, i: nat, id: nat, a: nat)
    requires Inv(cfg, s) && CanCountDecisionAck(cfg, s, i, id, a)
    requires s.servers[i].proposals[id].numDecisionAck + 1 <= cfg.n / 2
    ensures Inv(cfg, CountDecisionAck(s, i, id, a))
  {
    AckFacts(cfg, s, i, id, a);
    CountDecisionAckSafe(cfg, s, i, id, a);
    CountDecisionAckFlow(cfg, s, i, id, a);
    CountDecisionAckSettled(cfg, s, i, id, a);
  }

  lemma AckRecords(cfg: Config, s: Snapshot, i: nat, id: nat, a: nat)
    requires Inv(cfg, s) && CanCountDecisionAck(cfg, s, i, id, a)
    requires s.servers[i].proposals[id].numDecisionAck + 1 > cfg.n / 2
    ensures var s1 := CountDecisionAck(s, i, id, a);
      Inv(cfg, Complete(cfg, s1, i, s1.servers[i].proposals[id].(decisionAckTime := s.now)))
  {
    var s1 := CountDecisionAck(s, i, id, a);
    AckFacts(cfg, s, i, id, a);
    CountDecisionAckSafe(cfg, s, i, id, a);
    CountDecisionAckFlow(cfg, s, i, id, a);
    var d := s1.servers[i].proposals[id].(decisionAckTime := s.now);
    CompleteSafe(cfg, s1, i, d);
    CompleteFlow(cfg, s1, i, d);
    CompleteSettled(cfg, s, i, id, a, d);
  }

  lemma AckCompletes(cfg: Config, s: Snapshot, i: nat, id: nat, a: nat)
    requires Inv(cfg, s) && CanCountDecisionAck(cfg, s, i, id, a)
    requires s.servers[i].proposals[id].numDecisionAck + 1 > cfg.n / 2
    ensures var s1 := CountDecisionAck(s, i, id, a);
      Inv(cfg, TakeTurn(cfg, Complete(cfg, s1, i, s1.servers[i].proposals[id].(decisionAckTime := s.now)), i))
  {
    var s1 := CountDecisionAck(s, i, id, a);
    AckRecords(cfg, s, i, id, a);
    AckFacts(cfg, s, i, id, a);
    TakeTurnInv(cfg, Complete(cfg, s1, i, s1.servers[i].proposals[id].(decisionAckTime := s.now)));
  }
}
