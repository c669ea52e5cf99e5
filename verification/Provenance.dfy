/** Where the times on frames, records and log rows come from. */
module Provenance {
  import opened PaxosData
  import opened RoundRobin
  import opened Handlers
  import opened Cluster
  import opened AgendaInvariant
  import opened Runs
  import opened Agreement

  // ---------- Frames ----------

  /** Which of the eight fields of a frame in flight are set, and to what: a PROPOSAL (kind 100) carries
      the time of its broadcast, an ACCEPT (101) its acceptor and the time at which it was sent, a
      DECISION (102) the time of the decision, which is when it was sent, and a DECISION_ACK (103)
      nothing of its own but its sender. */
  lemma FrameStamps(cfg: Config, w: World, u: nat)
    requires Reached(cfg, w) && u in w.agenda && w.agenda[u].FrameTo?
    ensures var f, sentAt := w.agenda[u].frame, w.agenda[u].sentAt;
      && f.proposalId in w.h.ballots && f.value == w.h.ballots[f.proposalId].value
      && f.proposeTime == w.h.ballots[f.proposalId].proposeTime && 100 <= f.kind <= 103
      && (f.kind != 103 ==> f.proposerId == w.h.ballots[f.proposalId].proposer)
      && (f.kind == 100 ==> f.proposeTime == sentAt && f.acceptorId == f.acceptTime == f.decisionTime == 0)
      && (f.kind == 101 ==> f.acceptTime == sentAt && f.acceptorId in Acceptors(cfg, w, f.proposalId)
                            && f.decisionTime == 0 && w.agenda[u].dst == f.proposerId)
      && (f.kind == 102 ==> f.proposalId in w.h.decisions && f.decisionTime == w.h.decisions[f.proposalId] == sentAt)
      && (f.kind == 103 ==> f.proposerId in Holders(cfg, w, f.proposalId)
                            && f.acceptorId == f.acceptTime == f.decisionTime == 0
                            && w.agenda[u].dst == w.h.ballots[f.proposalId].proposer)
  {
    ItemHolds(cfg, w, u);
    TokenHolds(cfg, w, u);
  }

  /** An acceptance still to be sent waits on the server that accepted, for 10 ns after it did. */
  lemma AnswerStamps(cfg: Config, w: World, u: nat)
    requires Reached(cfg, w) && u in w.agenda && w.agenda[u].Local? && w.agenda[u].event.SendAccept?
    ensures var f, i := w.agenda[u].event.frame, w.agenda[u].server;
      && f.acceptorId == i < cfg.n && f.acceptTime + 10 == w.agenda[u].due && f.kind == 100 && f.decisionTime == 0
      && i in Acceptors(cfg, w, f.proposalId)
  {
    ItemHolds(cfg, w, u);
  }

  // ---------- Records ----------

  /** What the four kinds of records say: waiting, in flight, accepted for another and decided. */
  lemma WaitingFields(cfg: Config, w: World, i: nat, r: Record)
    requires Reached(cfg, w) && i < cfg.n && r in w.servers[i].waiting
    ensures r.id in w.h.requests && w.h.requests[r.id].value == r.value
    ensures r == Record(r.id, i, i, r.value, r.id, r.receiveTime, 0, 0, 0, 0, 0, 0, ToBeProposed)
  {
    ServerFacts(cfg, w, i);
  }

  lemma FlightFields(cfg: Config, w: World, i: nat, id: nat)
    requires Reached(cfg, w) && i < cfg.n && id in w.servers[i].proposals
    ensures var p := w.servers[i].proposals[id];
      && id in w.h.ballots && w.h.ballots[id].proposer == i && id in w.h.acks
      && p == Record(id, i, i, w.h.ballots[id].value, id, p.receiveTime, w.h.ballots[id].proposeTime, 0,
                     if id in w.h.decisions then w.h.decisions[id] else 0, 0,
                     1 + |w.h.acks[id]|, p.numDecisionAck, ToBeAccepted)
  {
    FlightHolds(cfg, w, i, id);
    ServerFacts(cfg, w, i);
  }

  lemma AcceptedFields(cfg: Config, w: World, i: nat, id: nat)
    requires Reached(cfg, w) && i < cfg.n && id in w.servers[i].accepted
    ensures var r := w.servers[i].accepted[id];
      && r.id == id && id in w.h.ballots && r.nodeId == w.h.ballots[id].proposer != i
      && r.value == w.h.ballots[id].value && r.proposeTime == w.h.ballots[id].proposeTime
      && 0 < r.acceptTime <= w.now && r.decisionTime == r.numAck == 0
  {
    ServerFacts(cfg, w, i);
  }

  lemma DecidedFields(cfg: Config, w: World, i: nat, r: Record)
    requires Reached(cfg, w) && i < cfg.n && r in w.h.recorded[i]
    ensures r.id in w.h.ballots && r.nodeId == r.proposerId == w.h.ballots[r.id].proposer
    ensures r.value == w.h.ballots[r.id].value && r.proposeTime == w.h.ballots[r.id].proposeTime
    ensures r.id in w.h.decisions && r.decisionTime == w.h.decisions[r.id]
    ensures r.nodeId == i ==> r.createTime == r.id && r.acceptTime == 0
    ensures r.nodeId != i ==> r.createTime == r.decisionAckTime == r.numAck == r.numDecisionAck == 0
  {
    RecordHolds(cfg, w, i, r);
  }

  /** Row k of a log is numbered k and names the proposer, the value and the decision time of the
      proposal whose id it carries. */
  lemma RowFields(cfg: Config, w: World, i: nat, k: nat)
    requires Reached(cfg, w) && i < cfg.n && k < |w.servers[i].log|
    ensures var row := w.servers[i].log[k];
      && row.index == k && row.proposalId in w.h.decisions && row.proposalId in w.h.ballots
      && row.decidedTime == w.h.decisions[row.proposalId]
      && row.proposerId == w.h.ballots[row.proposalId].proposer && row.value == w.h.ballots[row.proposalId].value
  {
    var r := RowRecord(cfg, w, i, k);
    DecidedFields(cfg, w, i, r);
  }

  // ---------- Moments of a run ----------

  /** The world after the first k steps. */
  ghost function WorldAt(cfg: Config, w: World, steps: seq<Step>, k: nat): World
    requires cfg.n > 0 && Legal(cfg, w, steps) && k <= |steps|
    decreases k
  {
    if k == 0 then w else WorldAt(cfg, Apply(cfg, w, steps[0]), steps[1..], k - 1)
  }

  lemma {:induction false} WorldNext(cfg: Config, w: World, steps: seq<Step>, k: nat)
    requires Reached(cfg, w) && Legal(cfg, w, steps) && k < |steps|
    ensures Reached(cfg, WorldAt(cfg, w, steps, k)) && Enabled(cfg, WorldAt(cfg, w, steps, k), steps[k])
    ensures WorldAt(cfg, w, steps, k + 1) == Apply(cfg, WorldAt(cfg, w, steps, k), steps[k])
    decreases k
  {
    if k > 0 {
      var w' := Apply(cfg, w, steps[0]);
      Next(cfg, w, steps[0], w');
      WorldNext(cfg, w', steps[1..], k - 1);
    }
  }

  lemma {:induction false} WorldAtEnd(cfg: Config, w: World, steps: seq<Step>)
    requires cfg.n > 0 && Legal(cfg, w, steps)
    ensures WorldAt(cfg, w, steps, |steps|) == Exec(cfg, w, steps)
    decreases |steps|
  {
    if steps != [] { WorldAtEnd(cfg, Apply(cfg, w, steps[0]), steps[1..]); }
  }

  /** This step counts the vote that makes the majority: an ACCEPT sent by that acceptor at that time is
      handled, and the decision is announced for the first time. */
  ghost predicate MajorityAt(cfg: Config, v: World, step: Step, id: nat, acceptor: nat, acceptTime: nat, now: nat) {
    && Reached(cfg, v) && Enabled(cfg, v, step) && step.Fire? && v.now == now
    && v.agenda[step.uid].FrameTo? && v.agenda[step.uid].sentAt == acceptTime
    && v.agenda[step.uid].frame.kind == 101 && v.agenda[step.uid].frame.proposalId == id
    && v.agenda[step.uid].frame.acceptorId == acceptor
    && id !in v.h.announced && Apply(cfg, v, step).h.announced == v.h.announced + [id]
  }

  ghost predicate MajorityBefore(cfg: Config, w: World, steps: seq<Step>, k: nat, id: nat, acceptor: nat,
                                 acceptTime: nat, now: nat)
    requires cfg.n > 0 && Legal(cfg, w, steps) && k <= |steps|
  {
    exists j: nat :: j < k && MajorityAt(cfg, WorldAt(cfg, w, steps, j), steps[j], id, acceptor, acceptTime, now)
  }

  lemma StillBefore(cfg: Config, w: World, steps: seq<Step>, k: nat, id: nat, a: nat, t: nat, now: nat)
    requires cfg.n > 0 && Legal(cfg, w, steps) && k < |steps| && MajorityBefore(cfg, w, steps, k, id, a, t, now)
    ensures MajorityBefore(cfg, w, steps, k + 1, id, a, t, now)
  {
  }

  // ---------- Decisions ----------

  lemma DecisionOutput(cfg: Config, i: nat, v: Server, f: Frame, now: nat, k: nat)
    requires i < cfg.n && k < |ReceiveMessage(cfg, i, v, f, now).outputs|
    requires Announces(ReceiveMessage(cfg, i, v, f, now).outputs[k])
    ensures var g := ReceiveMessage(cfg, i, v, f, now).outputs[k].frame;
      && f.kind == 101 && g.proposalId == f.proposalId && g.acceptorId == f.acceptorId
      && g.acceptTime == f.acceptTime && g.decisionTime == now
  {
    if f.kind == DECISION_ACK && |ReceivedDecisionAck(cfg, i, v, f, now).outputs| > k {
      var id := f.proposalId;
      var p := v.proposals[id].(numDecisionAck := v.proposals[id].numDecisionAck + 1);
      var v' := v.(proposals := v.proposals - {id}, decided := v.decided + [p.(decisionAckTime := now)]);
      ProposeAnnouncesNothing(cfg, i, v', now, k);
    }
  }

  /** A DECISION that appears carries the vote that is being handled. */
  lemma NewDecision(cfg: Config, w: World, step: Step, x: nat)
    requires Reached(cfg, w) && Enabled(cfg, w, step)
    requires x in Apply(cfg, w, step).agenda && x !in w.agenda
    requires Apply(cfg, w, step).agenda[x].FrameTo? && Apply(cfg, w, step).agenda[x].frame.kind == DECISION
    ensures var f := Apply(cfg, w, step).agenda[x].frame;
      MajorityAt(cfg, w, step, f.proposalId, f.acceptorId, f.acceptTime, f.decisionTime)
  {
    BroadcastOnce(cfg, w, step, x);
    NewFromMessage(cfg, w, step, x);
    ItemHolds(cfg, w, step.uid);
  }

  lemma NewFromMessage(cfg: Config, w: World, step: Step, x: nat)
    requires cfg.n > 0 && Enabled(cfg, w, step) && x in Apply(cfg, w, step).agenda && x !in w.agenda
    requires Apply(cfg, w, step).agenda[x].FrameTo? && Apply(cfg, w, step).agenda[x].frame.kind == DECISION
    ensures step.Fire? && w.agenda[step.uid].FrameTo? && w.agenda[step.uid].frame.kind == 101
    ensures var f, g := w.agenda[step.uid].frame, Apply(cfg, w, step).agenda[x].frame;
      && g.proposalId == f.proposalId && g.acceptorId == f.acceptorId && g.acceptTime == f.acceptTime
      && g.decisionTime == w.now
  {
    hide ReceiveMessage, HandleEvent, MessageHistory, EventHistory;
    var u := step.uid;
    match w.agenda[u]
    case FrameTo(i, f, _) =>
      var e := ReceiveMessage(cfg, i, w.servers[i], f, w.now);
      CommittedItem(w, u, i, e, MessageHistory(cfg, w.h, i, w.servers[i], f, w.now), x);
      DecisionOutput(cfg, i, w.servers[i], f, w.now, x - w.nextUid);
    case Local(i, ev, _) => EventBroadcast(cfg, w, u, i, ev, x);
    case _ =>
  }

  /** Whatever stays on the agenda stays as it is. */
  lemma ItemUnchanged(cfg: Config, w: World, step: Step, x: nat)
    requires Reached(cfg, w) && Enabled(cfg, w, step) && x in w.agenda && x in Apply(cfg, w, step).agenda
    ensures Apply(cfg, w, step).agenda[x] == w.agenda[x]
  {
    hide ReceiveRequest, ReceiveMessage, HandleEvent, MessageHistory, EventHistory, RequestHistory, Reachable;
    BelowNext(cfg, w, x);
  }

  lemma BelowNext(cfg: Config, w: World, x: nat)
    requires Reached(cfg, w) && x in w.agenda
    ensures x < w.nextUid
  {
    ReachableHolds(cfg, w);
  }

  // ---------- Records of decisions ----------

  /** The record that a step adds to what a server learned from others. */
  ghost predicate Learned(h: History, h': History, f: Frame, i: nat) {
    && i < |h.recorded| && |h'.recorded| == |h.recorded|
    && (forall j :: 0 <= j < |h.recorded| && j != i ==> h'.recorded[j] == h.recorded[j])
    && (h'.recorded[i] == h.recorded[i]
        || exists r :: h'.recorded[i] == h.recorded[i] + [r] && (r.nodeId != i ==>
             f.kind == 102 && r.id == f.proposalId && r.acceptTime == f.acceptTime && r.decisionTime == f.decisionTime))
  }

  lemma MessageLearns(cfg: Config, h: History, i: nat, v: Server, f: Frame, now: nat)
    requires i < cfg.n && i < |h.recorded| && i < |h.issued| && i < |h.rounds|
    requires f.proposalId in v.proposals ==> v.proposals[f.proposalId].nodeId == i
    ensures Learned(h, MessageHistory(cfg, h, i, v, f, now), f, i)
  {
    if f.kind == ACCEPT {
      AcceptLearns(cfg, h, i, v, f, now);
    } else if f.kind == DECISION {
      assert MessageHistory(cfg, h, i, v, f, now).recorded[i] == h.recorded[i] + [DecidedRecord(f)];
    } else if f.kind == DECISION_ACK {
      AckLearns(cfg, h, i, v, f, now);
    }
  }

  lemma AcceptLearns(cfg: Config, h: History, i: nat, v: Server, f: Frame, now: nat)
    requires i < cfg.n && i < |h.recorded|
    requires f.proposalId in v.proposals ==> v.proposals[f.proposalId].nodeId == i
    ensures Learned(h, AcceptHistory(cfg, h, i, v, f, now), f, i)
  {
  }

  lemma IssueLearnsNothing(h: History, i: nat, v: Server, now: nat)
    requires i < |h.issued| && i < |h.rounds|
    ensures NoteIssue(h, i, v, now).recorded == h.recorded
  {
  }

  lemma AckLearns(cfg: Config, h: History, i: nat, v: Server, f: Frame, now: nat)
    requires i < cfg.n && i < |h.recorded| && i < |h.issued| && i < |h.rounds|
    requires f.proposalId in v.proposals ==> v.proposals[f.proposalId].nodeId == i
    ensures Learned(h, DecisionAckHistory(cfg, h, i, v, f, now), f, i)
  {
    hide NoteIssue;
    if cfg.async && f.proposalId in v.proposals {
      var p := v.proposals[f.proposalId].(numDecisionAck := v.proposals[f.proposalId].numDecisionAck + 1);
      var d := p.(decisionAckTime := now);
      var h2 := NoteRecord(NoteDecisionAck(h, f.proposalId, f.proposerId), i, d);
      IssueLearnsNothing(h2, i, v, now);
      assert h2.recorded[i] == h.recorded[i] + [d];
    }
  }

  lemma RecordFrom(cfg: Config, w: World, step: Step, i: nat, r: Record)
    requires Reached(cfg, w) && Enabled(cfg, w, step) && i < cfg.n
    requires i < |Apply(cfg, w, step).h.recorded| && r in Apply(cfg, w, step).h.recorded[i] && r !in w.h.recorded[i]
    ensures step.Fire? && w.agenda[step.uid].FrameTo?
    ensures r.nodeId != i ==>
              var f := w.agenda[step.uid].frame;
              f.kind == 102 && r.id == f.proposalId && r.acceptTime == f.acceptTime && r.decisionTime == f.decisionTime
  {
    hide ReceiveMessage, HandleEvent, MessageHistory, EventHistory, Reachable;
    match step
    case Fire(u, _) => {
      match w.agenda[u]
      case FrameTo(j, f, _) =>
        OwnNode(cfg, w, j, f.proposalId);
        MessageLearns(cfg, w.h, j, w.servers[j], f, w.now);
      case Local(j, e, _) => EventLearnsNothing(cfg, w.h, j, w.servers[j], e, w.now);
      case _ =>
    }
    case _ =>
  }

  lemma OwnNode(cfg: Config, w: World, i: nat, id: nat)
    requires Reached(cfg, w) && i < cfg.n
    ensures id in w.servers[i].proposals ==> w.servers[i].proposals[id].nodeId == i
  {
    if id in w.servers[i].proposals { FlightHolds(cfg, w, i, id); }
  }

  lemma EventLearnsNothing(cfg: Config, h: History, i: nat, v: Server, e: Event, now: nat)
    requires i < cfg.n && i < |h.recorded| && i < |h.issued| && i < |h.rounds| && i < |h.created| && i < |h.cut|
    ensures EventHistory(cfg, h, i, v, e, now).recorded == h.recorded
  {
    hide NoteIssue;
    IssueLearnsNothing(h, i, v, now);
  }

  // ---------- Every decision has its vote ----------

  ghost predicate FramesSourced(cfg: Config, w: World, steps: seq<Step>, k: nat)
    requires cfg.n > 0 && Legal(cfg, w, steps) && k <= |steps|
  {
    var agenda := WorldAt(cfg, w, steps, k).agenda;
    forall x :: x in agenda && agenda[x].FrameTo? && agenda[x].frame.kind == DECISION ==>
      var f := agenda[x].frame;
      MajorityBefore(cfg, w, steps, k, f.proposalId, f.acceptorId, f.acceptTime, f.decisionTime)
  }

  ghost predicate RecordSourced(cfg: Config, w: World, steps: seq<Step>, k: nat, r: Record)
    requires cfg.n > 0 && Legal(cfg, w, steps) && k <= |steps|
  {
    exists a :: MajorityBefore(cfg, w, steps, k, r.id, a, r.acceptTime, r.decisionTime)
  }

  ghost predicate RecordsSourced(cfg: Config, w: World, steps: seq<Step>, k: nat)
    requires cfg.n > 0 && Legal(cfg, w, steps) && k <= |steps|
  {
    var recorded := WorldAt(cfg, w, steps, k).h.recorded;
    forall i, r :: 0 <= i < cfg.n && i < |recorded| && r in recorded[i] && r.nodeId != i ==>
      RecordSourced(cfg, w, steps, k, r)
  }

  lemma FramesNext(cfg: Config, w: World, steps: seq<Step>, k: nat)
    requires Reached(cfg, w) && Legal(cfg, w, steps) && k < |steps| && FramesSourced(cfg, w, steps, k)
    ensures FramesSourced(cfg, w, steps, k + 1)
  {
    WorldNext(cfg, w, steps, k);
    hide Reached, MajorityAt, WorldAt;
    var v, v' := WorldAt(cfg, w, steps, k), WorldAt(cfg, w, steps, k + 1);
    forall x | x in v'.agenda && v'.agenda[x].FrameTo? && v'.agenda[x].frame.kind == DECISION
      ensures var f := v'.agenda[x].frame;
        MajorityBefore(cfg, w, steps, k + 1, f.proposalId, f.acceptorId, f.acceptTime, f.decisionTime)
    {
      if x in v.agenda { ItemUnchanged(cfg, v, steps[k], x); } else { NewDecision(cfg, v, steps[k], x); }
    }
  }

  lemma RecordsNext(cfg: Config, w: World, steps: seq<Step>, k: nat)
    requires Reached(cfg, w) && Legal(cfg, w, steps) && k < |steps|
    requires FramesSourced(cfg, w, steps, k) && RecordsSourced(cfg, w, steps, k)
    ensures RecordsSourced(cfg, w, steps, k + 1)
  {
    WorldNext(cfg, w, steps, k);
    var next := k + 1;
    var v' := WorldAt(cfg, w, steps, next);
    hide MajorityAt, WorldAt, Reachable, MajorityBefore, RecordSourced, FramesSourced;
    forall i, r | 0 <= i < cfg.n && i < |v'.h.recorded| && r in v'.h.recorded[i] && r.nodeId != i
      ensures RecordSourced(cfg, w, steps, next, r)
    {
      RecordNext(cfg, w, steps, k, i, r);
    }
  }

  lemma RecordNext(cfg: Config, w: World, steps: seq<Step>, k: nat, i: nat, r: Record)
    requires Reached(cfg, w) && Legal(cfg, w, steps) && k < |steps|
    requires FramesSourced(cfg, w, steps, k) && RecordsSourced(cfg, w, steps, k)
    requires i < cfg.n && i < |WorldAt(cfg, w, steps, k + 1).h.recorded| && r.nodeId != i
    requires r in WorldAt(cfg, w, steps, k + 1).h.recorded[i]
    ensures RecordSourced(cfg, w, steps, k + 1, r)
  {
    hide Reached, WorldAt, MajorityBefore, FramesSourced, RecordsSourced;
    var a := SourceOf(cfg, w, steps, k, i, r);
    StillBefore(cfg, w, steps, k, r.id, a, r.acceptTime, r.decisionTime);
  }

  lemma SourceOf(cfg: Config, w: World, steps: seq<Step>, k: nat, i: nat, r: Record) returns (a: nat)
    requires Reached(cfg, w) && Legal(cfg, w, steps) && k < |steps|
    requires FramesSourced(cfg, w, steps, k) && RecordsSourced(cfg, w, steps, k)
    requires i < cfg.n && i < |WorldAt(cfg, w, steps, k + 1).h.recorded| && r.nodeId != i
    requires r in WorldAt(cfg, w, steps, k + 1).h.recorded[i]
    ensures MajorityBefore(cfg, w, steps, k, r.id, a, r.acceptTime, r.decisionTime)
  {
    WorldNext(cfg, w, steps, k);
    var v := WorldAt(cfg, w, steps, k);
    hide MajorityBefore, WorldAt, Reachable;
    if r in v.h.recorded[i] {
      assert RecordSourced(cfg, w, steps, k, r);
      a :| MajorityBefore(cfg, w, steps, k, r.id, a, r.acceptTime, r.decisionTime);
    } else {
      RecordFrom(cfg, v, steps[k], i, r);
      a := v.agenda[steps[k].uid].frame.acceptorId;
    }
  }

  lemma {:induction false} RunSourced(cfg: Config, w: World, steps: seq<Step>, k: nat)
    requires Reached(cfg, w) && Legal(cfg, w, steps) && k <= |steps|
    requires FramesSourced(cfg, w, steps, 0) && RecordsSourced(cfg, w, steps, 0)
    ensures FramesSourced(cfg, w, steps, k) && RecordsSourced(cfg, w, steps, k)
  {
    hide FramesSourced, RecordsSourced;
    if k > 0 {
      RunSourced(cfg, w, steps, k - 1);
      FramesNext(cfg, w, steps, k - 1);
      RecordsNext(cfg, w, steps, k - 1);
    }
  }

  /** The run of a reachable world, with the votes behind its decisions. */
  lemma SourcedRun(cfg: Config, w: World) returns (w0: World, steps: seq<Step>)
    requires Reached(cfg, w)
    ensures Reached(cfg, w0) && Legal(cfg, w0, steps) && w == WorldAt(cfg, w0, steps, |steps|)
    ensures FramesSourced(cfg, w0, steps, |steps|) && RecordsSourced(cfg, w0, steps, |steps|)
  {
    var last: nat, run: seq<Step> :|
      last < WIDTH && Legal(cfg, InitialWorld(cfg, last), run) && w == Exec(cfg, InitialWorld(cfg, last), run);
    w0, steps := InitialWorld(cfg, last), run;
    StartsHere(cfg, last);
    NothingDecidedYet(cfg, last, steps);
    RunSourced(cfg, w0, steps, |steps|);
    WorldAtEnd(cfg, w0, steps);
  }

  lemma NothingDecidedYet(cfg: Config, last: nat, steps: seq<Step>)
    requires cfg.Valid() && Legal(cfg, InitialWorld(cfg, last), steps)
    ensures FramesSourced(cfg, InitialWorld(cfg, last), steps, 0)
    ensures RecordsSourced(cfg, InitialWorld(cfg, last), steps, 0)
  {
    var w := InitialWorld(cfg, last);
    forall u | u in w.agenda ensures !w.agenda[u].FrameTo? {
      PostedItem(map[], 0, InitialItems(cfg), u);
      InitialItem(cfg, u);
    }
  }

  /** The step j of this run counts the vote that made the majority. */
  ghost predicate Turning(cfg: Config, w0: World, steps: seq<Step>, j: nat, id: nat, acceptor: nat, acceptTime: nat,
                          now: nat)
  {
    && cfg.n > 0 && Legal(cfg, w0, steps) && j < |steps|
    && MajorityAt(cfg, WorldAt(cfg, w0, steps, j), steps[j], id, acceptor, acceptTime, now)
  }

  /** Every DECISION in flight names the acceptor whose vote made the majority, when that vote was sent
      and when it was counted: there is such a step in the run. */
  lemma DecisionIsVote(cfg: Config, w: World, u: nat) returns (w0: World, steps: seq<Step>, j: nat)
    requires Reached(cfg, w) && u in w.agenda && w.agenda[u].FrameTo? && w.agenda[u].frame.kind == DECISION
    ensures Reached(cfg, w0) && Legal(cfg, w0, steps) && Exec(cfg, w0, steps) == w
    ensures var f := w.agenda[u].frame;
      Turning(cfg, w0, steps, j, f.proposalId, f.acceptorId, f.acceptTime, f.decisionTime)
  {
    w0, steps := SourcedRun(cfg, w);
    WorldAtEnd(cfg, w0, steps);
    hide Reached, MajorityAt, WorldAt;
    var f := w.agenda[u].frame;
    j :| j < |steps| && MajorityAt(cfg, WorldAt(cfg, w0, steps, j), steps[j], f.proposalId, f.acceptorId, f.acceptTime,
                                   f.decisionTime);
  }

  /** And every decision a server has learned from another carries the same two times. */
  lemma RecordIsVote(cfg: Config, w: World, i: nat, r: Record)
    returns (w0: World, steps: seq<Step>, j: nat, acceptor: nat)
    requires Reached(cfg, w) && i < cfg.n && r in w.h.recorded[i] && r.nodeId != i
    ensures Reached(cfg, w0) && Legal(cfg, w0, steps) && Exec(cfg, w0, steps) == w
    ensures Turning(cfg, w0, steps, j, r.id, acceptor, r.acceptTime, r.decisionTime)
  {
    w0, steps := SourcedRun(cfg, w);
    WorldAtEnd(cfg, w0, steps);
    hide MajorityAt, WorldAt, Reachable;
    assert RecordSourced(cfg, w0, steps, |steps|, r);
    acceptor :| MajorityBefore(cfg, w0, steps, |steps|, r.id, acceptor, r.acceptTime, r.decisionTime);
    j :| j < |steps| && MajorityAt(cfg, WorldAt(cfg, w0, steps, j), steps[j], r.id, acceptor, r.acceptTime,
                                   r.decisionTime);
  }
}
