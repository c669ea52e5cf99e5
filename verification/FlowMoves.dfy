/** Every move keeps the leader's single flight, the completeness of a lossless run and the
    slot schedule. */
module FlowMoves {
  import opened PaxosData
  import opened DecisionLog
  import opened Handlers
  import opened Cluster
  import opened Snapshots
  import opened Invariant
  import opened SafeMoves

  // ---------- Single flight ----------

  lemma LeaderKept(cfg: Config, s: Snapshot, s': Snapshot)
    requires Shape(cfg, s) && Shape(cfg, s') && LeaderOk(cfg, s) && s.now <= s'.now
    requires s'.servers[cfg.leader].proposals.Keys == s.servers[cfg.leader].proposals.Keys
    requires s'.h.issued[cfg.leader] == s.h.issued[cfg.leader] && s'.h.recorded[cfg.leader] == s.h.recorded[cfg.leader]
    requires Token(AtTimer, 0, cfg.leader) in s'.live <==> Token(AtTimer, 0, cfg.leader) in s.live
    ensures LeaderOk(cfg, s')
  {
  }

  lemma TakeTurnLeader(cfg: Config, s: Snapshot)
    requires Safe(cfg, s) && LeaderOk(cfg, s) && Token(AtTimer, 0, cfg.leader) in s.live
    ensures LeaderOk(cfg, TakeTurn(cfg, s, cfg.leader))
  {
    var l := cfg.leader;
    assert s.servers[l].proposals == map[];
    if s.now < cfg.stop && s.servers[l].waiting != [] {
      var s' := TakeTurn(cfg, s, l);
      var id := s.servers[l].waiting[0].id;
      assert id in s'.servers[l].proposals;
      assert s'.servers[l].proposals.Keys == {id};
      assert s'.h.issued[l][..|s'.h.issued[l]| - 1] == s.h.issued[l];
    }
  }

  lemma CompleteLeader(cfg: Config, s: Snapshot, p: Record)
    requires Shape(cfg, s) && cfg.async && LeaderOk(cfg, s) && p.id in s.servers[cfg.leader].proposals
    ensures Shape(cfg, Complete(cfg, s, cfg.leader, p)) && LeaderOk(cfg, Complete(cfg, s, cfg.leader, p))
  {
  }

  lemma CountAckLeader(cfg: Config, s: Snapshot, i: nat, id: nat, a: nat)
    requires Shape(cfg, s) && i < cfg.n && id in s.servers[i].proposals && LeaderOk(cfg, s)
    ensures Shape(cfg, CountAck(s, i, id, a)) && LeaderOk(cfg, CountAck(s, i, id, a))
  {
  }

  lemma DecideLeader(cfg: Config, s: Snapshot, i: nat, id: nat)
    requires Shape(cfg, s) && i < cfg.n && id in s.servers[i].proposals && LeaderOk(cfg, s)
    ensures Shape(cfg, Decide(cfg, s, i, id)) && LeaderOk(cfg, Decide(cfg, s, i, id))
  {
  }

  lemma CountDecisionAckLeader(cfg: Config, s: Snapshot, i: nat, id: nat, a: nat)
    requires Shape(cfg, s) && i < cfg.n && id in s.servers[i].proposals && LeaderOk(cfg, s)
    ensures Shape(cfg, CountDecisionAck(s, i, id, a)) && LeaderOk(cfg, CountDecisionAck(s, i, id, a))
  {
  }

  lemma LearnLeader(cfg: Config, s: Snapshot, a: nat, f: Frame)
    requires Shape(cfg, s) && a < cfg.n && a != cfg.leader && LeaderOk(cfg, s)
    ensures Shape(cfg, Learn(cfg, s, a, f)) && LeaderOk(cfg, Learn(cfg, s, a, f))
  {
  }

  /** In asynchronous mode every ballot is the leader's. */
  lemma LeaderBallots(cfg: Config, s: Snapshot, id: nat)
    requires Safe(cfg, s) && cfg.async && id in s.h.ballots
    ensures s.h.ballots[id].proposer == cfg.leader
  {
    BallotCreator(cfg, s, id);
  }

  // ---------- Slots ----------

  lemma RoundSlots(cfg: Config, h: History, i: nat)
    requires SlotsOk(cfg, h) && i < |h.rounds|
    ensures SlotsOk(cfg, NoteRound(h, i))
  {
  }

  lemma IssueSlots(cfg: Config, h: History, i: nat, v: Server, now: nat)
    requires SlotsOk(cfg, h) && i < |h.rounds| && i < |h.issued| && v.waiting != []
    requires now == cfg.TurnStart(i, h.rounds[i])
    requires v.waiting[0].id !in h.ballots
    ensures SlotsOk(cfg, NoteRound(NoteIssue(h, i, v, now), i))
  {
  }

  lemma TakeSlotSlots(cfg: Config, s: Snapshot, i: nat)
    requires Safe(cfg, s) && SlotsOk(cfg, s.h) && i < cfg.n
    requires s.now == cfg.TurnStart(i, s.h.rounds[i])
    ensures SlotsOk(cfg, TakeSlot(cfg, s, i).h)
  {
    if s.now < cfg.stop {
      if s.servers[i].waiting == [] {
        RoundSlots(cfg, s.h, i);
      } else {
        HeadIsNew(cfg, s, i);
        IssueSlots(cfg, s.h, i, s.servers[i], s.now);
      }
    }
  }

  // ---------- Completeness ----------

  lemma LostKept(cfg: Config, s: Snapshot, s': Snapshot)
    requires Shape(cfg, s) && Shape(cfg, s') && NothingLost(cfg, s)
    requires s'.h.requests == s.h.requests && s'.h.rejected == s.h.rejected && s'.h.created == s.h.created
    requires s'.h.decisions == s.h.decisions && s'.h.ballots == s.h.ballots && s'.h.recorded == s.h.recorded
    requires s'.h.acks == s.h.acks && s'.h.dacks == s.h.dacks
    requires forall i :: 0 <= i < cfg.n ==> s'.servers[i].proposals.Keys <= s.servers[i].proposals.Keys
    requires forall t :: t in s.live && t.stage in {AtRequest, AtProposal, AtDecision, AtAck} ==> t in s'.live
    ensures NothingLost(cfg, s')
  {
  }

  lemma SpreadKept(cfg: Config, s: Snapshot, s': Snapshot)
    requires Shape(cfg, s) && Shape(cfg, s') && s'.h.decisions == s.h.decisions && s'.h.ballots == s.h.ballots
    requires forall x :: x in s.h.decisions ==> Spread(cfg, s, x)
    requires forall a :: 0 <= a < cfg.n ==> Ids(s.h.recorded[a]) <= Ids(s'.h.recorded[a])
    requires forall t :: t in s.live && t.stage == AtDecision && t.peer < cfg.n ==>
                           t in s'.live || t.id in Ids(s'.h.recorded[t.peer])
    ensures forall x :: x in s.h.decisions ==> Spread(cfg, s', x)
  {
  }

  lemma RoutedKept(cfg: Config, s: Snapshot, s': Snapshot)
    requires Shape(cfg, s) && Shape(cfg, s') && s'.h.requests == s.h.requests
    requires s'.h.rejected == s.h.rejected && s'.h.created == s.h.created
    requires forall ts :: ts in s.h.requests ==> Routed(cfg, s, ts)
    requires forall t :: t in s.live && t.stage == AtRequest ==> t in s'.live
    ensures forall ts :: ts in s.h.requests ==> Routed(cfg, s', ts)
  {
  }

  lemma CompleteAnswered(cfg: Config, s: Snapshot, i: nat, p: Record, j: nat, x: nat)
    requires Shape(cfg, s) && i < cfg.n && j < cfg.n && Answered(cfg, s, j, x) && x != p.id
    ensures Shape(cfg, Complete(cfg, s, i, p)) && Answered(cfg, Complete(cfg, s, i, p), j, x)
  {
  }

  lemma LearnAnswered(cfg: Config, s: Snapshot, a: nat, f: Frame, j: nat, x: nat)
    requires Shape(cfg, s) && a < cfg.n && j < cfg.n && Answered(cfg, s, j, x)
    requires cfg.async || x !in s.h.decisions
    ensures Shape(cfg, Learn(cfg, s, a, f)) && Answered(cfg, Learn(cfg, s, a, f), j, x)
  {
  }

  lemma CreateLost(cfg: Config, s: Snapshot, i: nat, req: Request)
    requires Shape(cfg, s) && i < cfg.n && NothingLost(cfg, s)
    requires req.timestamp in s.h.requests && s.h.requests[req.timestamp].dst == i
    ensures Shape(cfg, Create(s, i, req)) && NothingLost(cfg, Create(s, i, req))
  {
  }

  lemma IssueLost(cfg: Config, s: Snapshot, i: nat)
    requires CanIssue(cfg, s, i) && NothingLost(cfg, s)
    ensures NothingLost(cfg, Issue(cfg, s, i))
  {
    var s' := Issue(cfg, s, i);
    HeadIsNew(cfg, s, i);
    var head := s.servers[i].waiting[0].id;
    assert DecisionOk(cfg, s, head);
    forall j, id | 0 <= j < cfg.n && id in s'.servers[j].proposals ensures Answered(cfg, s', j, id) {
      if id != head { assert Answered(cfg, s, j, id); }
    }
    forall id | id in s.h.decisions ensures Spread(cfg, s', id) { assert Spread(cfg, s, id); }
    forall ts | ts in s.h.requests ensures Routed(cfg, s', ts) { assert Routed(cfg, s, ts); }
  }

  lemma CountAckLost(cfg: Config, s: Snapshot, i: nat, id: nat, a: nat)
    requires Shape(cfg, s) && NothingLost(cfg, s) && i < cfg.n && id in s.servers[i].proposals
    ensures Shape(cfg, CountAck(s, i, id, a)) && NothingLost(cfg, CountAck(s, i, id, a))
  {
  }

  lemma DecideLost(cfg: Config, s: Snapshot, i: nat, id: nat)
    requires Shape(cfg, s) && i < cfg.n && id in s.servers[i].proposals && NothingLost(cfg, s)
    requires id in s.h.ballots && s.h.ballots[id].proposer == i && id !in s.h.decisions
    requires forall j :: 0 <= j < cfg.n ==> id !in Ids(s.h.recorded[j])
    ensures Shape(cfg, Decide(cfg, s, i, id)) && NothingLost(cfg, Decide(cfg, s, i, id))
  {
  }

  lemma CountDecisionAckLost(cfg: Config, s: Snapshot, i: nat, id: nat, a: nat)
    requires Shape(cfg, s) && NothingLost(cfg, s) && i < cfg.n && id in s.servers[i].proposals
    ensures Shape(cfg, CountDecisionAck(s, i, id, a)) && NothingLost(cfg, CountDecisionAck(s, i, id, a))
  {
  }

  lemma CompleteLost(cfg: Config, s: Snapshot, i: nat, p: Record)
    requires Shape(cfg, s) && i < cfg.n && NothingLost(cfg, s)
    requires forall j :: 0 <= j < cfg.n && j != i ==> p.id !in s.servers[j].proposals
    ensures Shape(cfg, Complete(cfg, s, i, p)) && NothingLost(cfg, Complete(cfg, s, i, p))
  {
    var s' := Complete(cfg, s, i, p);
    PushId(s.h.recorded[i], p);
    forall j, x | 0 <= j < cfg.n && x in s'.servers[j].proposals ensures Answered(cfg, s', j, x) {
      CompleteAnswered(cfg, s, i, p, j, x);
    }
    SpreadKept(cfg, s, s');
    RoutedKept(cfg, s, s');
  }

  lemma LearnLost(cfg: Config, s: Snapshot, a: nat, f: Frame)
    requires Shape(cfg, s) && a < cfg.n && NothingLost(cfg, s) && Settled(cfg, s)
    ensures Shape(cfg, Learn(cfg, s, a, f)) && NothingLost(cfg, Learn(cfg, s, a, f))
  {
    var s' := Learn(cfg, s, a, f);
    PushId(s.h.recorded[a], DecidedRecord(f));
    forall j, x | 0 <= j < cfg.n && x in s'.servers[j].proposals ensures Answered(cfg, s', j, x) {
      assert Pending(cfg, s, s.servers[j].proposals[x], x);
      LearnAnswered(cfg, s, a, f, j, x);
    }
    SpreadKept(cfg, s, s');
    RoutedKept(cfg, s, s');
  }
}
