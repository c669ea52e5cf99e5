/** Every step of the cluster is one of the moves, so it keeps the invariant. */
module Steps {
  import opened PaxosData
  import opened DecisionLog
  import opened Handlers
  import opened RoundRobin
  import opened Cluster
  import opened Snapshots
  import opened Invariant
  import opened SafeMoves
  import opened InvariantMoves
  import opened AgendaInvariant

  // ---------- Broadcasts ----------

  function BroadcastItems(n: nat, i: nat, f: Frame, now: nat): seq<Item>
    requires i < n
  {
    ItemsOf(i, now, Broadcast(n, i, f))
  }

  lemma BroadcastItem(n: nat, i: nat, f: Frame, now: nat, k: nat)
    requires i < n && k < n - 1
    ensures |BroadcastItems(n, i, f, now)| == n - 1 && BroadcastItems(n, i, f, now)[k] == FrameTo(Peer(i, k), f, now)
  {
  }

  /** A broadcast reaches every other server exactly once. */
  lemma BroadcastTokens(n: nat, i: nat, f: Frame, now: nat, stage: Stage)
    requires i < n
    requires (f.kind == PROPOSAL && stage == AtProposal) || (f.kind == DECISION && stage == AtDecision)
    ensures |BroadcastItems(n, i, f, now)| == n - 1
    ensures TokensOfSeq(BroadcastItems(n, i, f, now)) == Wave(stage, f.proposalId, n, i)
    ensures forall j, k :: 0 <= j < k < n - 1 ==>
              TokenOf(BroadcastItems(n, i, f, now)[j]) != TokenOf(BroadcastItems(n, i, f, now)[k])
  {
    var items := BroadcastItems(n, i, f, now);
    forall k | 0 <= k < n - 1 ensures items[k] == FrameTo(Peer(i, k), f, now) { BroadcastItem(n, i, f, now, k); }
    forall t ensures t in TokensOfSeq(items) <==> t in Wave(stage, f.proposalId, n, i) {
      if t in Wave(stage, f.proposalId, n, i) {
        var k := if t.peer < i then t.peer else t.peer - 1;
        assert TokenOf(items[k]) == t;
      }
    }
  }

  // ---------- One fired item ----------

  ghost predicate OthersClock(s: Snapshot, m: Snapshot, agenda: map<nat, Item>, u: nat) {
    forall v :: v in agenda && v != u ==> ClockKept(s, m, agenda[v])
  }

  ghost predicate NewItemsOk(cfg: Config, m: Snapshot, items: seq<Item>) {
    forall k :: 0 <= k < |items| ==> ItemOk(cfg, m, items[k]) && InTime(cfg, m.now, items[k])
  }

  /** The committed world is the moved snapshot with its new items. */
  lemma Fired(cfg: Config, w: World, u: nat, i: nat, e: Effect, h: History, m: Snapshot)
    requires WorldInv(cfg, w) && u in w.agenda && i < |w.servers|
    requires m.now == w.now && m.servers == w.servers[i := e.server] && m.h == h && Inv(cfg, m)
    requires m.live == View(w).live - {TokenOf(w.agenda[u])} + TokensOfSeq(ItemsOf(i, w.now, e.outputs))
    requires Remembers(View(w), m) && OthersClock(View(w), m, w.agenda, u)
    requires NewItemsOk(cfg, m, ItemsOf(i, w.now, e.outputs))
    requires FreshTokens(w.agenda, u, ItemsOf(i, w.now, e.outputs)) && DecidedInTime(cfg, h)
    ensures WorldInv(cfg, Commit(w, u, i, e, h)) && View(Commit(w, u, i, e, h)) == m
  {
    hide Inv, OneToken;
    var items := ItemsOf(i, w.now, e.outputs);
    CommitTokens(w.agenda, w.nextUid, u, items);
    CommitItems(cfg, View(w), m, w.agenda, w.nextUid, u, items);
    Rebuilt(cfg, Commit(w, u, i, e, h), m);
  }

  lemma Rebuilt(cfg: Config, w: World, m: Snapshot)
    requires w.now == m.now && w.servers == m.servers && w.h == m.h && TokensOf(w.agenda) == m.live
    requires Inv(cfg, m) && ItemsOk(cfg, m, w.agenda, w.nextUid) && OneToken(w.agenda) && DecidedInTime(cfg, w.h)
    ensures WorldInv(cfg, w) && View(w) == m
  {
  }

  lemma AllLive(cfg: Config, s: Snapshot)
    requires Safe(cfg, s)
    ensures Shape(cfg, s) && forall t :: t in s.live ==> LiveOk(cfg, s, t)
  {
  }

  lemma OtherToken(cfg: Config, w: World, u: nat, v: nat)
    requires WorldInv(cfg, w) && u in w.agenda && v in w.agenda && u != v
    ensures TokenOf(w.agenda[v]) != TokenOf(w.agenda[u])
  {
  }

  lemma LiveToken(cfg: Config, w: World, u: nat)
    requires WorldInv(cfg, w) && u in w.agenda
    ensures TokenOf(w.agenda[u]) in View(w).live && LiveOk(cfg, View(w), TokenOf(w.agenda[u]))
    ensures ItemOk(cfg, View(w), w.agenda[u]) && InTime(cfg, w.now, w.agenda[u]) && u < w.nextUid
    ensures Safe(cfg, View(w)) && Shape(cfg, View(w))
  {
  }

  /** Moves that leave the round counts and the requests alone keep every clock. */
  lemma ClocksSame(s: Snapshot, m: Snapshot, agenda: map<nat, Item>, u: nat)
    requires m.h.rounds == s.h.rounds && m.h.requests == s.h.requests
    ensures OthersClock(s, m, agenda, u)
  {
  }

  /** A handler that sends and schedules nothing. */
  lemma FiredSilently(cfg: Config, w: World, u: nat, i: nat, e: Effect, m: Snapshot)
    requires WorldInv(cfg, w) && u in w.agenda && i < |w.servers| && e.outputs == [] && Inv(cfg, m)
    requires m.now == w.now && m.servers == w.servers[i := e.server]
    requires m.live == View(w).live - {TokenOf(w.agenda[u])} && Remembers(View(w), m)
    requires m.h.rounds == w.h.rounds && m.h.requests == w.h.requests && m.h.decisions == w.h.decisions
    ensures WorldInv(cfg, Commit(w, u, i, e, m.h))
  {
    hide Inv, ItemsOk, OneToken;
    assert TokensOfSeq(ItemsOf(i, w.now, e.outputs)) == {};
    ClocksSame(View(w), m, w.agenda, u);
    NoteIssueBallots(cfg, w.h, m.h);
    Fired(cfg, w, u, i, e, m.h, m);
  }

  /** A handler that leaves one new item. */
  lemma FiredOne(cfg: Config, w: World, u: nat, i: nat, e: Effect, m: Snapshot, it: Item)
    requires WorldInv(cfg, w) && u in w.agenda && i < |w.servers| && Inv(cfg, m)
    requires ItemsOf(i, w.now, e.outputs) == [it] && TokenOf(it) == TokenOf(w.agenda[u])
    requires m.now == w.now && m.servers == w.servers[i := e.server]
    requires m.live == View(w).live && Remembers(View(w), m) && ItemOk(cfg, m, it) && InTime(cfg, m.now, it)
    requires m.h == w.h && TokenOf(it) in View(w).live
    ensures WorldInv(cfg, Commit(w, u, i, e, m.h))
  {
    hide Inv, ItemsOk, OneToken;
    assert TokensOfSeq([it]) == {TokenOf([it][0])};
    ClocksSame(View(w), m, w.agenda, u);
    Fired(cfg, w, u, i, e, m.h, m);
  }

  // ---------- Requests ----------

  lemma FireRequest(cfg: Config, w: World, u: nat, i: nat, req: Request, t: nat)
    requires WorldInv(cfg, w) && u in w.agenda && w.agenda[u] == RequestTo(i, req, t) && i < cfg.n
    ensures WorldInv(cfg, Commit(w, u, i, ReceiveRequest(cfg, i, w.servers[i], req), RequestHistory(cfg, w.h, i, req)))
  {
    hide Inv, Safe, ItemsOk, OneToken;
    LiveToken(cfg, w, u);
    var s := View(w);
    var e := ReceiveRequest(cfg, i, w.servers[i], req);
    if cfg.async && i != cfg.leader {
      RejectInv(cfg, s, req);
      FiredSilently(cfg, w, u, i, e, Reject(s, req));
    } else {
      FiredOne(cfg, w, u, i, e, s, Local(i, CreateProposal(req), w.now + HANDLING_DELAY));
    }
  }

  lemma FireCreate(cfg: Config, w: World, u: nat, i: nat, req: Request, t: nat)
    requires WorldInv(cfg, w) && u in w.agenda && w.agenda[u] == Local(i, CreateProposal(req), t) && i < cfg.n
    ensures WorldInv(cfg, Commit(w, u, i, CreateFromRequest(i, w.servers[i], req, w.now),
                                 EventHistory(cfg, w.h, i, w.servers[i], CreateProposal(req), w.now)))
  {
    hide Inv, Safe, ItemsOk, OneToken;
    LiveToken(cfg, w, u);
    var s, v := View(w), w.servers[i];
    var e := CreateFromRequest(i, v, req, w.now);
    if |v.waiting| > QUEUE_LIMIT {
      RejectInv(cfg, s, req);
      FiredSilently(cfg, w, u, i, e, Reject(s, req));
    } else {
      CreateInv(cfg, s, i, req);
      FiredSilently(cfg, w, u, i, e, Create(s, i, req));
    }
  }

  // ---------- Accepting ----------

  lemma AcceptRemembers(s: Snapshot, i: nat, f: Frame)
    requires HasServer(s, i)
    ensures Remembers(s, Accept(s, i, f)) && HasAccepted(Accept(s, i, f), i, f.proposalId)
  {
  }

  lemma FireProposal(cfg: Config, w: World, u: nat, i: nat, f: Frame, t: nat)
    requires WorldInv(cfg, w) && u in w.agenda && w.agenda[u] == FrameTo(i, f, t) && i < cfg.n && f.kind == PROPOSAL
    ensures WorldInv(cfg, Commit(w, u, i, ReceivedProposal(i, w.servers[i], f, w.now), w.h))
  {
    hide Inv, Safe, ItemsOk, OneToken;
    LiveToken(cfg, w, u);
    var s := View(w);
    AcceptInv(cfg, s, i, f);
    AcceptRemembers(s, i, f);
    var e := ReceivedProposal(i, w.servers[i], f, w.now);
    FiredOne(cfg, w, u, i, e, Accept(s, i, f), Local(i, SendAccept(Stamped(i, f, w.now)), w.now + HANDLING_DELAY));
  }

  lemma FireSendAccept(cfg: Config, w: World, u: nat, i: nat, f: Frame)
    requires WorldInv(cfg, w) && u in w.agenda && w.agenda[u] == Local(i, SendAccept(f), w.now) && i < cfg.n
    ensures WorldInv(cfg, Commit(w, u, i, SendAcceptMessage(i, w.servers[i], f, w.now), w.h))
  {
    hide Inv, Safe, ItemsOk, OneToken;
    LiveToken(cfg, w, u);
    var s := View(w);
    var e := SendAcceptMessage(i, w.servers[i], f, w.now);
    BallotFact(cfg, s, f.proposalId);
    FiredOne(cfg, w, u, i, e, s, FrameTo(f.proposerId, AcceptFrame(i, f, w.now), w.now));
  }

  // ---------- Counting ACCEPTs ----------

  /** A vote for a proposal that is no longer in flight is late everywhere. */
  lemma LateEverywhere(cfg: Config, s: Snapshot, i: nat, id: nat)
    requires Safe(cfg, s) && i < cfg.n && id in s.h.ballots && s.h.ballots[id].proposer == i
    requires id !in s.servers[i].proposals
    ensures forall j :: 0 <= j < cfg.n ==> id !in s.servers[j].proposals
  {
    forall j | 0 <= j < cfg.n ensures id !in s.servers[j].proposals {
      if id in s.servers[j].proposals { FlightFacts(cfg, s, j, id); }
    }
  }

  lemma FireLate(cfg: Config, w: World, u: nat, i: nat, id: nat)
    requires WorldInv(cfg, w) && u in w.agenda && i < cfg.n && TokenOf(w.agenda[u]).id == id
    requires TokenOf(w.agenda[u]).stage in {AtProposal, AtAck}
    requires id in w.h.ballots && w.h.ballots[id].proposer == i && id !in w.servers[i].proposals
    ensures WorldInv(cfg, Commit(w, u, i, Effect(w.servers[i], []), w.h))
  {
    hide Inv, Safe, ItemsOk, OneToken;
    var s := View(w);
    LiveToken(cfg, w, u);
    LateEverywhere(cfg, s, i, id);
    LateInv(cfg, s, TokenOf(w.agenda[u]));
    FiredSilently(cfg, w, u, i, Effect(w.servers[i], []), Forget(s, TokenOf(w.agenda[u])));
  }

  lemma OnAcceptRemembers(cfg: Config, s: Snapshot, i: nat, id: nat, a: nat)
    requires InFlight(s, i, id) && (id in s.h.decisions ==> s.servers[i].proposals[id].decisionTime != 0)
    ensures Remembers(s, OnAccept(cfg, s, i, id, a))
    ensures OnAccept(cfg, s, i, id, a).h.rounds == s.h.rounds && OnAccept(cfg, s, i, id, a).h.requests == s.h.requests
  {
    hide Remembers;
    var s1 := CountAck(s, i, id, a);
    CountAckRemembers(s, i, id, a);
    var p := s1.servers[i].proposals[id];
    if p.numAck > cfg.n / 2 && p.decisionTime == 0 {
      var s2 := Decide(cfg, s1, i, id);
      DecideRemembers(cfg, s1, i, id);
      RemembersTransitive(s, s1, s2);
      if !cfg.async {
        CompleteRemembers(cfg, s2, i, s2.servers[i].proposals[id]);
        RemembersTransitive(s, s2, Complete(cfg, s2, i, s2.servers[i].proposals[id]));
      }
    }
  }

  lemma RemembersTransitive(a: Snapshot, b: Snapshot, c: Snapshot)
    requires Remembers(a, b) && Remembers(b, c)
    ensures Remembers(a, c)
  {
  }

  lemma CountAckRemembers(s: Snapshot, i: nat, id: nat, a: nat)
    requires InFlight(s, i, id)
    ensures Remembers(s, CountAck(s, i, id, a))
  {
  }

  lemma DecideRemembers(cfg: Config, s: Snapshot, i: nat, id: nat)
    requires InFlight(s, i, id) && id !in s.h.decisions
    ensures Remembers(s, Decide(cfg, s, i, id))
  {
  }

  lemma CompleteRemembers(cfg: Config, s: Snapshot, i: nat, p: Record)
    requires HasServer(s, i)
    ensures Remembers(s, Complete(cfg, s, i, p))
  {
  }

  /** The composed moves do exactly what the handler does. */
  lemma OnAcceptMatches(cfg: Config, s: Snapshot, i: nat, f: Frame)
    requires InFlight(s, i, f.proposalId) && i < cfg.n && f.proposerId == i
    requires s.servers[i].proposals[f.proposalId].id == f.proposalId
    requires f.proposalId in s.h.acks
    ensures var m, e := OnAccept(cfg, s, i, f.proposalId, f.acceptorId), ReceivedAccept(cfg, i, s.servers[i], f, s.now);
      m.servers == s.servers[i := e.server] && m.h == AcceptHistory(cfg, s.h, i, s.servers[i], f, s.now)
  {
    var id := f.proposalId;
    var m, e := OnAccept(cfg, s, i, id, f.acceptorId), ReceivedAccept(cfg, i, s.servers[i], f, s.now);
    var p := s.servers[i].proposals[id].(numAck := s.servers[i].proposals[id].numAck + 1);
    assert m.servers[i].waiting == e.server.waiting && m.servers[i].accepted == e.server.accepted;
    assert m.servers[i].decided == e.server.decided && m.servers[i].log == e.server.log;
    if p.numAck > cfg.n / 2 && p.decisionTime == 0 {
      var d := p.(decisionTime := s.now, numDecisionAck := 1);
      assert s.servers[i].proposals[id := p][id := d] == s.servers[i].proposals[id := d];
      assert s.servers[i].proposals[id := d] - {id} == s.servers[i].proposals - {id};
    }
    assert m.servers[i] == e.server;
    assert m.servers == s.servers[i := e.server];
  }

  lemma OnAcceptLive(cfg: Config, s: Snapshot, i: nat, f: Frame)
    requires InFlight(s, i, f.proposalId) && i < cfg.n && f.proposerId == i && (cfg.async || f.kind == ACCEPT)
    ensures var m, e := OnAccept(cfg, s, i, f.proposalId, f.acceptorId), ReceivedAccept(cfg, i, s.servers[i], f, s.now);
      m.live == s.live - {Token(AtProposal, f.proposalId, f.acceptorId)} + TokensOfSeq(ItemsOf(i, s.now, e.outputs))
  {
    var id := f.proposalId;
    var p := s.servers[i].proposals[id].(numAck := s.servers[i].proposals[id].numAck + 1);
    var e := ReceivedAccept(cfg, i, s.servers[i], f, s.now);
    if p.numAck > cfg.n / 2 && p.decisionTime == 0 {
      BroadcastTokens(cfg.n, i, DecisionFrame(f, s.now), s.now, AtDecision);
      assert ItemsOf(i, s.now, e.outputs) == BroadcastItems(cfg.n, i, DecisionFrame(f, s.now), s.now);
    } else {
      assert TokensOfSeq(ItemsOf(i, s.now, e.outputs)) == {};
    }
  }

  /** A deciding ACCEPT makes the DECISION it sends true. */
  lemma OnAcceptDecides(cfg: Config, s: Snapshot, i: nat, f: Frame)
    requires InFlight(s, i, f.proposalId) && i < cfg.n && f.proposerId == i && FromBallot(s.h, f)
    requires f.proposalId in s.h.decisions ==> s.servers[i].proposals[f.proposalId].decisionTime != 0
    ensures var m := OnAccept(cfg, s, i, f.proposalId, f.acceptorId);
      var outs := ReceivedAccept(cfg, i, s.servers[i], f, s.now).outputs;
      && m.now == s.now && (outs == [] || outs == Broadcast(cfg.n, i, DecisionFrame(f, s.now)))
      && (outs != [] ==> FromBallot(m.h, f) && f.proposalId in m.h.decisions && m.h.decisions[f.proposalId] == s.now)
  {
  }

  lemma OnAcceptItems(cfg: Config, s: Snapshot, i: nat, f: Frame)
    requires InFlight(s, i, f.proposalId) && i < cfg.n && f.proposerId == i && FromBallot(s.h, f) && Shape(cfg, s)
    requires f.proposalId in s.h.decisions ==> s.servers[i].proposals[f.proposalId].decisionTime != 0
    requires Stamps(cfg, s, f)
    ensures NewItemsOk(cfg, OnAccept(cfg, s, i, f.proposalId, f.acceptorId),
                       ItemsOf(i, s.now, ReceivedAccept(cfg, i, s.servers[i], f, s.now).outputs))
  {
    hide OnAccept, ReceivedAccept;
    OnAcceptDecides(cfg, s, i, f);
    var m := OnAccept(cfg, s, i, f.proposalId, f.acceptorId);
    var items := ItemsOf(i, s.now, ReceivedAccept(cfg, i, s.servers[i], f, s.now).outputs);
    forall k | 0 <= k < |items| ensures ItemOk(cfg, m, items[k]) && InTime(cfg, m.now, items[k]) {
      BroadcastItem(cfg.n, i, DecisionFrame(f, s.now), s.now, k);
    }
  }

  /** The decision of an ACCEPT that arrives in time is itself in time. */
  lemma OnAcceptInTime(cfg: Config, s: Snapshot, i: nat, f: Frame)
    requires InFlight(s, i, f.proposalId) && DecidedInTime(cfg, s.h) && FromBallot(s.h, f)
    requires cfg.bounded ==> s.now <= AnswerBy(cfg, f) + cfg.delay
    ensures DecidedInTime(cfg, OnAccept(cfg, s, i, f.proposalId, f.acceptorId).h)
  {
  }

  lemma OnAcceptFresh(cfg: Config, w: World, u: nat, i: nat, f: Frame)
    requires InFlight(View(w), i, f.proposalId) && i < cfg.n && f.proposerId == i && u in w.agenda
    requires Shape(cfg, View(w))
    requires forall t :: t in View(w).live ==> LiveOk(cfg, View(w), t)
    requires f.proposalId in w.h.decisions ==> w.servers[i].proposals[f.proposalId].decisionTime != 0
    ensures FreshTokens(w.agenda, u, ItemsOf(i, w.now, ReceivedAccept(cfg, i, w.servers[i], f, w.now).outputs))
  {
  }

  lemma FireAccept(cfg: Config, w: World, u: nat, i: nat, f: Frame, t: nat)
    requires WorldInv(cfg, w) && u in w.agenda && w.agenda[u] == FrameTo(i, f, t) && i < cfg.n && f.kind == ACCEPT
    ensures WorldInv(cfg, Commit(w, u, i, ReceivedAccept(cfg, i, w.servers[i], f, w.now),
                                 AcceptHistory(cfg, w.h, i, w.servers[i], f, w.now)))
  {
    hide Inv, Safe, ItemsOk, OneToken;
    LiveToken(cfg, w, u);
    var id := f.proposalId;
    if id !in w.servers[i].proposals {
      FireLate(cfg, w, u, i, id);
    } else {
      FireCounted(cfg, w, u, i, f, t);
    }
  }

  lemma FireCounted(cfg: Config, w: World, u: nat, i: nat, f: Frame, t: nat)
    requires WorldInv(cfg, w) && u in w.agenda && w.agenda[u] == FrameTo(i, f, t) && i < cfg.n && f.kind == ACCEPT
    requires f.proposalId in w.servers[i].proposals
    ensures WorldInv(cfg, Commit(w, u, i, ReceivedAccept(cfg, i, w.servers[i], f, w.now),
                                 AcceptHistory(cfg, w.h, i, w.servers[i], f, w.now)))
  {
    hide Inv, Safe, ItemsOk, OneToken;
    LiveToken(cfg, w, u);
    var s, id, a := View(w), f.proposalId, f.acceptorId;
    FlightFacts(cfg, s, i, id);
    DecisionFact(cfg, s, id);
    OnAcceptInv(cfg, s, i, id, a);
    var m := OnAccept(cfg, s, i, id, a);
    OnAcceptMatches(cfg, s, i, f);
    OnAcceptLive(cfg, s, i, f);
    OnAcceptItems(cfg, s, i, f);
    OnAcceptRemembers(cfg, s, i, id, a);
    OnAcceptInTime(cfg, s, i, f);
    OnAcceptFresh(cfg, w, u, i, f);
    ClocksSame(s, m, w.agenda, u);
    Fired(cfg, w, u, i, ReceivedAccept(cfg, i, w.servers[i], f, w.now), m.h, m);
  }

  // ---------- Learning ----------

  lemma LearnMatches(cfg: Config, s: Snapshot, a: nat, f: Frame)
    requires HasServer(s, a) && f.kind == DECISION
    ensures var m, e := Learn(cfg, s, a, f), ReceivedDecision(cfg, a, s.servers[a], f);
      && m.servers == s.servers[a := e.server] && m.h == NoteRecord(s.h, a, DecidedRecord(f))
      && m.live == s.live - {Token(AtDecision, f.proposalId, a)} + TokensOfSeq(ItemsOf(a, s.now, e.outputs))
      && Remembers(s, m)
  {
    var e := ReceivedDecision(cfg, a, s.servers[a], f);
    var items := ItemsOf(a, s.now, e.outputs);
    if cfg.async {
      assert items == [FrameTo(f.proposerId, DecisionAckFrame(a, f), s.now)];
      assert TokensOfSeq(items) == {TokenOf(items[0])};
    } else {
      assert TokensOfSeq(items) == {};
    }
  }

  lemma LearnFresh(cfg: Config, w: World, u: nat, a: nat, f: Frame)
    requires Shape(cfg, View(w)) && u in w.agenda && a < cfg.n && f.kind == DECISION
    requires f.proposalId !in Ids(w.h.recorded[a])
    requires forall t :: t in View(w).live ==> LiveOk(cfg, View(w), t)
    ensures FreshTokens(w.agenda, u, ItemsOf(a, w.now, ReceivedDecision(cfg, a, w.servers[a], f).outputs))
  {
  }

  lemma LearnItems(cfg: Config, s: Snapshot, a: nat, f: Frame)
    requires Shape(cfg, s) && a < cfg.n && f.kind == DECISION && FromBallot(s.h, f) && f.proposerId < cfg.n
    requires f.proposalId in s.h.decisions && (cfg.bounded ==> s.now <= s.h.decisions[f.proposalId] + cfg.delay)
    ensures Shape(cfg, Learn(cfg, s, a, f))
    ensures NewItemsOk(cfg, Learn(cfg, s, a, f), ItemsOf(a, s.now, ReceivedDecision(cfg, a, s.servers[a], f).outputs))
  {
  }

  lemma FireDecision(cfg: Config, w: World, u: nat, a: nat, f: Frame, t: nat)
    requires WorldInv(cfg, w) && u in w.agenda && w.agenda[u] == FrameTo(a, f, t) && a < cfg.n && f.kind == DECISION
    ensures WorldInv(cfg, Commit(w, u, a, ReceivedDecision(cfg, a, w.servers[a], f),
                                 NoteRecord(w.h, a, DecidedRecord(f))))
  {
    hide Inv, Safe, ItemsOk, OneToken;
    LiveToken(cfg, w, u);
    var s := View(w);
    BallotFact(cfg, s, f.proposalId);
    LearnInv(cfg, s, a, f);
    LearnMatches(cfg, s, a, f);
    var m := Learn(cfg, s, a, f);
    LearnFresh(cfg, w, u, a, f);
    LearnItems(cfg, s, a, f);
    ClocksSame(s, m, w.agenda, u);
    Fired(cfg, w, u, a, ReceivedDecision(cfg, a, w.servers[a], f), m.h, m);
  }

  // ---------- Proposing ----------

  lemma IssueItems(cfg: Config, s: Snapshot, i: nat)
    requires Shape(cfg, s) && i < cfg.n && s.servers[i].waiting != [] && s.servers[i].waiting[0].id !in s.h.ballots
    ensures Shape(cfg, Issue(cfg, s, i)) && Remembers(s, Issue(cfg, s, i))
    ensures var e := DoPropose(cfg, i, s.servers[i], s.now);
      && Issue(cfg, s, i).live == s.live + TokensOfSeq(ItemsOf(i, s.now, e.outputs))
      && NewItemsOk(cfg, Issue(cfg, s, i), ItemsOf(i, s.now, e.outputs))
      && forall j, k :: 0 <= j < k < |e.outputs| ==>
           TokenOf(ItemsOf(i, s.now, e.outputs)[j]) != TokenOf(ItemsOf(i, s.now, e.outputs)[k])
  {
    var m := Issue(cfg, s, i);
    var p := Proposed(i, s.servers[i].waiting[0], s.now);
    var f := ProposalFrame(i, p, s.now);
    var items := BroadcastItems(cfg.n, i, f, s.now);
    BroadcastTokens(cfg.n, i, f, s.now, AtProposal);
    forall k | 0 <= k < |items| ensures ItemOk(cfg, m, items[k]) && InTime(cfg, m.now, items[k]) {
      BroadcastItem(cfg.n, i, f, s.now, k);
    }
  }

  /** What a leader's turn does to its server, its history and the tokens, `t` being its own. */
  lemma TurnMatches(cfg: Config, s: Snapshot, i: nat)
    requires Shape(cfg, s) && i < cfg.n && cfg.async && i == cfg.leader && Token(AtTimer, 0, i) in s.live
    requires s.servers[i].waiting != [] ==> s.servers[i].waiting[0].id !in s.h.ballots
    ensures var m, e := TakeTurn(cfg, s, i), DoAsyncPropose(cfg, i, s.servers[i], s.now);
      && Shape(cfg, m) && m.now == s.now && m.servers == s.servers[i := e.server]
      && m.h == (if s.now >= cfg.stop then s.h else NoteIssue(s.h, i, s.servers[i], s.now))
      && m.live == s.live - {Token(AtTimer, 0, i)} + TokensOfSeq(ItemsOf(i, s.now, e.outputs))
      && Remembers(s, m) && NewItemsOk(cfg, m, ItemsOf(i, s.now, e.outputs))
      && forall j, k :: 0 <= j < k < |e.outputs| ==>
           TokenOf(ItemsOf(i, s.now, e.outputs)[j]) != TokenOf(ItemsOf(i, s.now, e.outputs)[k])
  {
    var e := DoAsyncPropose(cfg, i, s.servers[i], s.now);
    var items := ItemsOf(i, s.now, e.outputs);
    var rest := Forget(s, Token(AtTimer, 0, i));
    if s.now >= cfg.stop {
      assert TokensOfSeq(items) == {};
    } else if s.servers[i].waiting == [] {
      assert items == [Local(i, AsyncPropose, s.now + POLL_DELAY)];
      assert TokensOfSeq(items) == {TokenOf(items[0])};
    } else {
      IssueItems(cfg, rest, i);
    }
  }

  lemma IssueInTime(cfg: Config, h: History, i: nat, v: Server, now: nat)
    requires i < |h.issued| && i < |h.rounds| && DecidedInTime(cfg, h)
    requires v.waiting != [] ==> v.waiting[0].id !in h.ballots
    ensures DecidedInTime(cfg, NoteIssue(h, i, v, now))
  {
  }

  lemma TurnFresh(cfg: Config, s: Snapshot, i: nat)
    requires Shape(cfg, s) && i < cfg.n && (forall t :: t in s.live ==> LiveOk(cfg, s, t))
    requires s.servers[i].waiting != [] ==> s.servers[i].waiting[0].id !in s.h.ballots
    ensures var items := ItemsOf(i, s.now, DoAsyncPropose(cfg, i, s.servers[i], s.now).outputs);
      forall k :: 0 <= k < |items| ==>
        || TokenOf(items[k]) == Token(AtTimer, 0, i)
        || (TokenOf(items[k]).stage == AtProposal && TokenOf(items[k]) !in s.live)
  {
  }

  lemma FireAsync(cfg: Config, w: World, u: nat, i: nat)
    requires WorldInv(cfg, w) && u in w.agenda && w.agenda[u] == Local(i, AsyncPropose, w.now) && i < cfg.n
    ensures WorldInv(cfg, Commit(w, u, i, DoAsyncPropose(cfg, i, w.servers[i], w.now),
                                 EventHistory(cfg, w.h, i, w.servers[i], AsyncPropose, w.now)))
  {
    hide Inv, Safe, ItemsOk, OneToken, Remembers, NewItemsOk, DecidedInTime, OthersClock;
    LiveToken(cfg, w, u);
    var s := View(w);
    if s.servers[i].waiting != [] { HeadIsNew(cfg, s, i); }
    TakeTurnInv(cfg, s);
    TurnMatches(cfg, s, i);
    TurnFresh(cfg, s, i);
    IssueInTime(cfg, w.h, i, w.servers[i], w.now);
    var m := TakeTurn(cfg, s, i);
    ClocksSame(s, m, w.agenda, u);
    Fired(cfg, w, u, i, DoAsyncPropose(cfg, i, w.servers[i], w.now), m.h, m);
  }

  // ---------- Counting DECISION_ACKs ----------

  /** The state in which the completing acknowledgement hands the leader its next turn. */
  ghost function Completed(cfg: Config, s: Snapshot, i: nat, id: nat, a: nat): Snapshot
    requires InFlight(s, i, id)
  {
    var s1 := CountDecisionAck(s, i, id, a);
    Complete(cfg, s1, i, s1.servers[i].proposals[id].(decisionAckTime := s.now))
  }

  ghost predicate LastAck(cfg: Config, s: Snapshot, i: nat, id: nat)
    requires InFlight(s, i, id)
  {
    var p := s.servers[i].proposals[id];
    p.numDecisionAck + 1 > cfg.n / 2 && p.decisionAckTime == 0
  }

  lemma CompletedShape(cfg: Config, s: Snapshot, i: nat, f: Frame)
    requires InFlight(s, i, f.proposalId) && i < cfg.n && cfg.async && Shape(cfg, s)
    requires s.servers[i].proposals[f.proposalId].id == f.proposalId && f.proposalId in s.h.dacks
    requires Token(AtTimer, 0, i) !in s.live
    ensures var id, a, v := f.proposalId, f.proposerId, s.servers[i];
      var s2 := Completed(cfg, s, i, id, a);
      var d := v.proposals[id].(numDecisionAck := v.proposals[id].numDecisionAck + 1, decisionAckTime := s.now);
      && Shape(cfg, s2) && s2.now == s.now && Remembers(s, s2)
      && s2.servers == s.servers[i := v.(proposals := v.proposals - {id}, decided := v.decided + [d])]
      && s2.h == NoteRecord(NoteDecisionAck(s.h, id, a), i, d)
      && s2.live == s.live - {Token(AtAck, id, a)} + {Token(AtTimer, 0, i)}
  {
    var id, a, v := f.proposalId, f.proposerId, s.servers[i];
    var s1 := CountDecisionAck(s, i, id, a);
    var s2 := Completed(cfg, s, i, id, a);
    assert s1.servers[i].proposals - {id} == v.proposals - {id};
    assert s2.servers == s.servers[i := s2.servers[i]];
  }

  lemma CompletedTurn(cfg: Config, s: Snapshot, i: nat, f: Frame)
    requires InFlight(s, i, f.proposalId) && i < cfg.n && cfg.async && i == cfg.leader && Shape(cfg, s)
    requires s.servers[i].proposals[f.proposalId].id == f.proposalId && f.proposalId in s.h.dacks
    requires Token(AtTimer, 0, i) !in s.live && LastAck(cfg, s, i, f.proposalId)
    requires s.servers[i].waiting != [] ==> s.servers[i].waiting[0].id !in s.h.ballots
    ensures var m := OnDecisionAck(cfg, s, i, f.proposalId, f.proposerId);
      var e := ReceivedDecisionAck(cfg, i, s.servers[i], f, s.now);
      && m.servers == s.servers[i := e.server] && m.now == s.now
      && m.h == DecisionAckHistory(cfg, s.h, i, s.servers[i], f, s.now)
      && m.live == s.live - {Token(AtAck, f.proposalId, f.proposerId)} + TokensOfSeq(ItemsOf(i, s.now, e.outputs))
      && Remembers(s, m) && NewItemsOk(cfg, m, ItemsOf(i, s.now, e.outputs))
      && m.h.rounds == s.h.rounds && m.h.requests == s.h.requests
      && forall j, k :: 0 <= j < k < |e.outputs| ==>
           TokenOf(ItemsOf(i, s.now, e.outputs)[j]) != TokenOf(ItemsOf(i, s.now, e.outputs)[k])
  {
    hide Remembers, NewItemsOk, TokensOfSeq;
    var s2 := Completed(cfg, s, i, f.proposalId, f.proposerId);
    CompletedShape(cfg, s, i, f);
    TurnMatches(cfg, s2, i);
    RemembersTransitive(s, s2, TakeTurn(cfg, s2, i));
  }

  lemma CompletedFresh(cfg: Config, w: World, u: nat, i: nat, f: Frame)
    requires InFlight(View(w), i, f.proposalId) && i < cfg.n && cfg.async && LastAck(cfg, View(w), i, f.proposalId)
    requires Shape(cfg, View(w)) && (forall t :: t in View(w).live ==> LiveOk(cfg, View(w), t))
    requires w.servers[i].waiting != [] ==> w.servers[i].waiting[0].id !in w.h.ballots
    requires u in w.agenda && Token(AtTimer, 0, i) !in View(w).live
    requires var items := ItemsOf(i, w.now, ReceivedDecisionAck(cfg, i, w.servers[i], f, w.now).outputs);
      forall j, k :: 0 <= j < k < |items| ==> TokenOf(items[j]) != TokenOf(items[k])
    ensures FreshTokens(w.agenda, u, ItemsOf(i, w.now, ReceivedDecisionAck(cfg, i, w.servers[i], f, w.now).outputs))
  {
  }

  /** All that is needed of an invariant state to complete a proposal. */
  lemma CompletingFacts(cfg: Config, w: World, u: nat, i: nat, f: Frame, t: nat)
    requires WorldInv(cfg, w) && u in w.agenda && w.agenda[u] == FrameTo(i, f, t) && i < cfg.n && f.kind == DECISION_ACK
    requires InFlight(View(w), i, f.proposalId)
    ensures Inv(cfg, OnDecisionAck(cfg, View(w), i, f.proposalId, f.proposerId))
    ensures Shape(cfg, View(w)) && forall t :: t in View(w).live ==> LiveOk(cfg, View(w), t)
    ensures cfg.async && i == cfg.leader && Token(AtTimer, 0, i) !in View(w).live && f.proposalId in w.h.dacks
    ensures w.servers[i].proposals[f.proposalId].id == f.proposalId
    ensures w.servers[i].waiting != [] ==> w.servers[i].waiting[0].id !in w.h.ballots
  {
    hide Inv, Safe, ItemsOk, OneToken;
    LiveToken(cfg, w, u);
    AllLive(cfg, View(w));
    var s, id := View(w), f.proposalId;
    FlightFacts(cfg, s, i, id);
    LeaderBusy(cfg, s, i, id);
    if s.servers[i].waiting != [] { HeadIsNew(cfg, s, i); }
    OnDecisionAckInv(cfg, s, i, id, f.proposerId);
  }

  lemma NoteIssueBallots(cfg: Config, h: History, h': History)
    requires DecidedInTime(cfg, h) && h'.decisions == h.decisions
    requires forall x :: x in h.ballots ==> x in h'.ballots && h'.ballots[x] == h.ballots[x]
    ensures DecidedInTime(cfg, h')
  {
  }

  /** The completing acknowledgement changes no clock and decides nothing. */
  lemma CompletedClocks(cfg: Config, w: World, u: nat, i: nat, f: Frame, m: Snapshot)
    requires DecidedInTime(cfg, w.h) && InFlight(View(w), i, f.proposalId) && i < cfg.n
    requires m.h == DecisionAckHistory(cfg, w.h, i, w.servers[i], f, w.now)
    requires m.h.rounds == w.h.rounds && m.h.requests == w.h.requests && Remembers(View(w), m)
    ensures DecidedInTime(cfg, m.h) && OthersClock(View(w), m, w.agenda, u)
  {
    AckDecidesNothing(cfg, w.h, i, w.servers[i], f, w.now);
    hide DecisionAckHistory;
  }

  lemma AckDecidesNothing(cfg: Config, h: History, i: nat, v: Server, f: Frame, now: nat)
    requires i < cfg.n && i < |h.recorded| && i < |h.issued| && i < |h.rounds|
    ensures DecisionAckHistory(cfg, h, i, v, f, now).decisions == h.decisions
  {
    IssueDecidesNothing(h, i, v, now);
  }

  lemma IssueDecidesNothing(h: History, i: nat, v: Server, now: nat)
    requires i < |h.issued| && i < |h.rounds|
    ensures NoteIssue(h, i, v, now).decisions == h.decisions
  {
  }

  lemma FireCompleting(cfg: Config, w: World, u: nat, i: nat, f: Frame, t: nat)
    requires WorldInv(cfg, w) && u in w.agenda && w.agenda[u] == FrameTo(i, f, t) && i < cfg.n && f.kind == DECISION_ACK
    requires InFlight(View(w), i, f.proposalId) && LastAck(cfg, View(w), i, f.proposalId)
    ensures WorldInv(cfg, Commit(w, u, i, ReceivedDecisionAck(cfg, i, w.servers[i], f, w.now),
                                 DecisionAckHistory(cfg, w.h, i, w.servers[i], f, w.now)))
  {
    hide Inv, Safe, ItemsOk, OneToken, Remembers, NewItemsOk, DecidedInTime, OthersClock;
    var m := OnDecisionAck(cfg, View(w), i, f.proposalId, f.proposerId);
    CompletingFacts(cfg, w, u, i, f, t);
    CompletingMatches(cfg, w, u, i, f);
    CompletedClocks(cfg, w, u, i, f, m);
    Fired(cfg, w, u, i, ReceivedDecisionAck(cfg, i, w.servers[i], f, w.now), m.h, m);
  }

  /** The move and the handler agree, and the new tokens are new. */
  lemma CompletingMatches(cfg: Config, w: World, u: nat, i: nat, f: Frame)
    requires Shape(cfg, View(w)) && (forall t :: t in View(w).live ==> LiveOk(cfg, View(w), t))
    requires u in w.agenda && InFlight(View(w), i, f.proposalId) && LastAck(cfg, View(w), i, f.proposalId)
    requires i < cfg.n && cfg.async && i == cfg.leader && Token(AtTimer, 0, i) !in View(w).live
    requires w.servers[i].proposals[f.proposalId].id == f.proposalId && f.proposalId in w.h.dacks
    requires w.servers[i].waiting != [] ==> w.servers[i].waiting[0].id !in w.h.ballots
    ensures var s, m, e := View(w), OnDecisionAck(cfg, View(w), i, f.proposalId, f.proposerId),
      ReceivedDecisionAck(cfg, i, w.servers[i], f, w.now);
      && m.servers == s.servers[i := e.server] && m.now == s.now
      && m.h == DecisionAckHistory(cfg, s.h, i, s.servers[i], f, s.now)
      && m.live == s.live - {Token(AtAck, f.proposalId, f.proposerId)} + TokensOfSeq(ItemsOf(i, s.now, e.outputs))
      && Remembers(s, m) && NewItemsOk(cfg, m, ItemsOf(i, s.now, e.outputs))
      && m.h.rounds == s.h.rounds && m.h.requests == s.h.requests
      && FreshTokens(w.agenda, u, ItemsOf(i, w.now, e.outputs))
  {
    hide Inv, Safe, ItemsOk, OneToken;
    CompletedTurn(cfg, View(w), i, f);
    CompletedFresh(cfg, w, u, i, f);
  }

  /** A leader with a proposal in flight owes no turn. */
  lemma LeaderBusy(cfg: Config, s: Snapshot, i: nat, id: nat)
    requires Inv(cfg, s) && cfg.async && i < cfg.n && id in s.servers[i].proposals
    ensures i == cfg.leader && Token(AtTimer, 0, i) !in s.live
  {
    FlightFacts(cfg, s, i, id);
    BallotCreator(cfg, s, id);
  }

  lemma CountDecisionAckMatches(cfg: Config, s: Snapshot, i: nat, f: Frame)
    requires InFlight(s, i, f.proposalId) && i < cfg.n && cfg.async && f.proposalId in s.h.dacks
    requires !LastAck(cfg, s, i, f.proposalId)
    ensures var m := OnDecisionAck(cfg, s, i, f.proposalId, f.proposerId);
      var e := ReceivedDecisionAck(cfg, i, s.servers[i], f, s.now);
      && m.servers == s.servers[i := e.server] && m.now == s.now && e.outputs == [] && Remembers(s, m)
      && m.h == DecisionAckHistory(cfg, s.h, i, s.servers[i], f, s.now)
      && m.live == s.live - {Token(AtAck, f.proposalId, f.proposerId)}
      && m.h.rounds == s.h.rounds && m.h.requests == s.h.requests && m.h.ballots == s.h.ballots
      && m.h.decisions == s.h.decisions
  {
  }

  lemma FireUncounted(cfg: Config, w: World, u: nat, i: nat, f: Frame, t: nat)
    requires WorldInv(cfg, w) && u in w.agenda && w.agenda[u] == FrameTo(i, f, t) && i < cfg.n && f.kind == DECISION_ACK
    requires InFlight(View(w), i, f.proposalId) && !LastAck(cfg, View(w), i, f.proposalId)
    ensures WorldInv(cfg, Commit(w, u, i, ReceivedDecisionAck(cfg, i, w.servers[i], f, w.now),
                                 DecisionAckHistory(cfg, w.h, i, w.servers[i], f, w.now)))
  {
    hide Inv, Safe, ItemsOk, OneToken;
    var s := View(w);
    CompletingFacts(cfg, w, u, i, f, t);
    CountDecisionAckMatches(cfg, s, i, f);
    FiredSilently(cfg, w, u, i, ReceivedDecisionAck(cfg, i, w.servers[i], f, w.now),
                  OnDecisionAck(cfg, s, i, f.proposalId, f.proposerId));
  }

  lemma FireDecisionAck(cfg: Config, w: World, u: nat, i: nat, f: Frame, t: nat)
    requires WorldInv(cfg, w) && u in w.agenda && w.agenda[u] == FrameTo(i, f, t) && i < cfg.n && f.kind == DECISION_ACK
    ensures WorldInv(cfg, Commit(w, u, i, ReceivedDecisionAck(cfg, i, w.servers[i], f, w.now),
                                 DecisionAckHistory(cfg, w.h, i, w.servers[i], f, w.now)))
  {
    hide Inv, Safe, ItemsOk, OneToken;
    LiveToken(cfg, w, u);
    if f.proposalId !in w.servers[i].proposals {
      FireLate(cfg, w, u, i, f.proposalId);
    } else if LastAck(cfg, View(w), i, f.proposalId) {
      FireCompleting(cfg, w, u, i, f, t);
    } else {
      FireUncounted(cfg, w, u, i, f, t);
    }
  }

  // ---------- Synchronous rounds ----------

  lemma NextTurn(cfg: Config, i: nat, r: nat)
    ensures cfg.TurnStart(i, r) + cfg.Period() == cfg.TurnStart(i, r + 1)
  {
    OneRoundLater(i, r, cfg.n, cfg.Slot());
  }

  lemma OneRoundLater(i: nat, r: nat, n: nat, slot: nat)
    ensures (i + r * n) * slot + slot * n == (i + (r + 1) * n) * slot
  {
    assert (r + 1) * n == r * n + n;
    assert (i + r * n + n) * slot == (i + r * n) * slot + n * slot;
  }

  lemma NoTokens()
    ensures TokensOfSeq([]) == {}
  {
  }

  lemma ForgetTimerRemembers(s: Snapshot, i: nat)
    ensures Remembers(s, Forget(s, Token(AtTimer, 0, i)))
  {
  }

  lemma RoundRemembers(s: Snapshot, m: Snapshot, i: nat)
    requires i < |m.h.rounds| && (m == s || Remembers(s, m))
    ensures Remembers(s, m.(h := NoteRound(m.h, i)))
  {
  }

  lemma SlotMatches(cfg: Config, s: Snapshot, i: nat)
    requires Shape(cfg, s) && i < cfg.n && !cfg.async && Token(AtTimer, 0, i) in s.live
    requires s.servers[i].waiting != [] ==> s.servers[i].waiting[0].id !in s.h.ballots
    ensures var m, e := TakeSlot(cfg, s, i), DoSyncPropose(cfg, i, s.servers[i], s.now);
      && Shape(cfg, m) && m.now == s.now && m.servers == s.servers[i := e.server]
      && m.h == EventHistory(cfg, s.h, i, s.servers[i], SyncPropose, s.now)
      && m.live == s.live - {Token(AtTimer, 0, i)} + TokensOfSeq(ItemsOf(i, s.now, e.outputs))
      && Remembers(s, m)
  {
    hide Remembers, TokensOfSeq;
    var e := DoSyncPropose(cfg, i, s.servers[i], s.now);
    var items := ItemsOf(i, s.now, e.outputs);
    var timer := Local(i, SyncPropose, s.now + cfg.Period());
    if s.now >= cfg.stop {
      assert items == [];
      NoTokens();
      ForgetTimerRemembers(s, i);
    } else {
      var first := ItemsOf(i, s.now, DoPropose(cfg, i, s.servers[i], s.now).outputs);
      assert items == first + [timer];
      TokensOfLast(first, timer);
      if s.servers[i].waiting == [] {
        assert first == [] && items == [timer];
        NoTokens();
        RoundRemembers(s, s, i);
      } else {
        IssueItems(cfg, s, i);
        RoundRemembers(s, Issue(cfg, s, i), i);
      }
    }
  }

  lemma TokensOfLast(items: seq<Item>, it: Item)
    ensures TokensOfSeq(items + [it]) == TokensOfSeq(items) + {TokenOf(it)}
  {
    forall t ensures t in TokensOfSeq(items + [it]) <==> t in TokensOfSeq(items) + {TokenOf(it)} {
      if t in TokensOfSeq(items) {
        var k :| 0 <= k < |items| && TokenOf(items[k]) == t;
        assert TokenOf((items + [it])[k]) == t;
      }
      assert (items + [it])[|items|] == it;
    }
  }

  lemma SlotItems(cfg: Config, s: Snapshot, i: nat)
    requires Shape(cfg, s) && i < cfg.n && !cfg.async
    requires s.now == cfg.TurnStart(i, s.h.rounds[i])
    requires s.servers[i].waiting != [] ==> s.servers[i].waiting[0].id !in s.h.ballots
    ensures NewItemsOk(cfg, TakeSlot(cfg, s, i), ItemsOf(i, s.now, DoSyncPropose(cfg, i, s.servers[i], s.now).outputs))
  {
    hide Inv, Safe, ItemsOk, OneToken, Remembers, TokensOfSeq;
    var m := TakeSlot(cfg, s, i);
    var items := ItemsOf(i, s.now, DoSyncPropose(cfg, i, s.servers[i], s.now).outputs);
    if s.now < cfg.stop {
      var first := ItemsOf(i, s.now, DoPropose(cfg, i, s.servers[i], s.now).outputs);
      assert items == first + [Local(i, SyncPropose, s.now + cfg.Period())];
      NextTurn(cfg, i, s.h.rounds[i]);
      if s.servers[i].waiting != [] {
        IssueItems(cfg, s, i);
        IssueStays(cfg, Issue(cfg, s, i), m, first);
      }
    }
  }

  lemma IssueStays(cfg: Config, s: Snapshot, m: Snapshot, items: seq<Item>)
    requires NewItemsOk(cfg, s, items) && m == s.(h := s.h.(rounds := m.h.rounds))
    requires forall k :: 0 <= k < |items| ==> items[k].FrameTo?
    ensures NewItemsOk(cfg, m, items)
  {
  }

  /** Every other timer belongs to another server. */
  lemma OtherTimers(cfg: Config, w: World, u: nat, i: nat, m: Snapshot)
    requires OneToken(w.agenda) && u in w.agenda && TokenOf(w.agenda[u]) == Token(AtTimer, 0, i)
    requires m.h.requests == w.h.requests && |m.h.rounds| == |w.h.rounds|
    requires forall j :: 0 <= j < |w.h.rounds| && j != i ==> m.h.rounds[j] == w.h.rounds[j]
    ensures OthersClock(View(w), m, w.agenda, u)
  {
  }

  lemma SlotFresh(cfg: Config, s: Snapshot, i: nat)
    requires Shape(cfg, s) && i < cfg.n && (forall t :: t in s.live ==> LiveOk(cfg, s, t))
    requires s.servers[i].waiting != [] ==> s.servers[i].waiting[0].id !in s.h.ballots
    ensures var items := ItemsOf(i, s.now, DoSyncPropose(cfg, i, s.servers[i], s.now).outputs);
      && (forall k :: 0 <= k < |items| ==>
            TokenOf(items[k]) == Token(AtTimer, 0, i) || TokenOf(items[k]) !in s.live)
      && (forall j, k :: 0 <= j < k < |items| ==> TokenOf(items[j]) != TokenOf(items[k]))
  {
  }

  lemma FireSync(cfg: Config, w: World, u: nat, i: nat)
    requires WorldInv(cfg, w) && u in w.agenda && w.agenda[u] == Local(i, SyncPropose, w.now) && i < cfg.n
    ensures WorldInv(cfg, Commit(w, u, i, DoSyncPropose(cfg, i, w.servers[i], w.now),
                                 EventHistory(cfg, w.h, i, w.servers[i], SyncPropose, w.now)))
  {
    hide Inv, Safe, ItemsOk, OneToken, Remembers, NewItemsOk, DecidedInTime, OthersClock;
    LiveToken(cfg, w, u);
    var s := View(w);
    if s.servers[i].waiting != [] { HeadIsNew(cfg, s, i); }
    TakeSlotInv(cfg, s, i);
    SlotMatches(cfg, s, i);
    SlotItems(cfg, s, i);
    SlotFresh(cfg, s, i);
    var m := TakeSlot(cfg, s, i);
    NoteIssueBallots(cfg, w.h, m.h);
    OtherTimers(cfg, w, u, i, m);
    Fired(cfg, w, u, i, DoSyncPropose(cfg, i, w.servers[i], w.now), m.h, m);
  }

  // ---------- Stopping ----------

  lemma FireStop(cfg: Config, w: World, u: nat, i: nat, t: nat)
    requires WorldInv(cfg, w) && u in w.agenda && w.agenda[u] == Local(i, StopApplication, t) && i < cfg.n
    ensures WorldInv(cfg, Commit(w, u, i, Stop(w.servers[i]),
                                 EventHistory(cfg, w.h, i, w.servers[i], StopApplication, w.now)))
  {
    hide Inv, Safe, ItemsOk, OneToken;
    LiveToken(cfg, w, u);
    HaltInv(cfg, View(w), i);
    FiredSilently(cfg, w, u, i, Stop(w.servers[i]), Halt(View(w), i));
  }

  // ---------- The client ----------

  lemma NewTimestamp(cfg: Config, s: Snapshot)
    requires Safe(cfg, s) && s.now !in s.h.requests
    ensures s.now !in s.h.rejected && forall i :: 0 <= i < cfg.n ==> s.now !in s.h.created[i]
  {
    forall i | 0 <= i < cfg.n ensures s.now !in s.h.created[i] {
      assert ServerOk(cfg, s, i);
      assert s.now in s.h.created[i] ==> CreatedBy(cfg, s.h, i, s.now);
    }
  }

  lemma ClientItems(cfg: Config, w: World, u: nat, value: nat, items: seq<Item>, m: Snapshot)
    requires WorldInv(cfg, w) && u in w.agenda && w.agenda[u] == ClientSend(w.now) && w.now !in w.h.requests
    requires var dst := NextServer(w.lastServerId, cfg.n);
      && items == [RequestTo(dst, Request(w.now, value), w.now), ClientSend(w.now + cfg.interval)]
      && m == Submit(View(w), value, dst)
    requires Shape(cfg, m)
    ensures ItemsOk(cfg, m, Post(w.agenda - {u}, w.nextUid, items), w.nextUid + 2)
  {
    hide Inv, Safe, ItemsOk, OneToken;
    LiveToken(cfg, w, u);
    assert ItemOk(cfg, View(w), w.agenda[u]);
    forall v | v in w.agenda && v != u ensures ClockKept(View(w), m, w.agenda[v]) {
      OtherToken(cfg, w, u, v);
    }
    CommitItems(cfg, View(w), m, w.agenda, w.nextUid, u, items);
  }

  lemma ClientTokens(cfg: Config, w: World, u: nat, items: seq<Item>)
    requires WorldInv(cfg, w) && u in w.agenda && w.agenda[u] == ClientSend(w.now) && w.now !in w.h.requests
    requires |items| == 2 && items[0].RequestTo? && items[0].request.timestamp == w.now && items[1].ClientSend?
    ensures OneToken(Post(w.agenda - {u}, w.nextUid, items))
    ensures TokensOf(Post(w.agenda - {u}, w.nextUid, items)) == View(w).live + {Token(AtRequest, w.now, 0)}
  {
    hide Inv, Safe, OneToken;
    hide LiveOk, TokensOfSeq;
    LiveToken(cfg, w, u);
    NoSuchRequest(cfg, w);
    assert TokenOf(items[0]) == Token(AtRequest, w.now, 0) && TokenOf(items[1]) == TokenOf(w.agenda[u]);
    CommitTokens(w.agenda, w.nextUid, u, items);
    PairTokens(items);
  }

  lemma NoSuchRequest(cfg: Config, w: World)
    requires WorldInv(cfg, w) && w.now !in w.h.requests
    ensures Token(AtRequest, w.now, 0) !in View(w).live
  {
    assert Token(AtRequest, w.now, 0) in View(w).live ==> LiveOk(cfg, View(w), Token(AtRequest, w.now, 0));
  }

  lemma PairTokens(items: seq<Item>)
    requires |items| == 2
    ensures TokensOfSeq(items) == {TokenOf(items[0]), TokenOf(items[1])}
  {
  }

  lemma ClientMoves(cfg: Config, w: World, value: nat, dst: nat)
    requires WorldInv(cfg, w) && w.now !in w.h.requests && dst < cfg.n
    ensures Inv(cfg, Submit(View(w), value, dst)) && DecidedInTime(cfg, Submit(View(w), value, dst).h)
  {
    NewTimestamp(cfg, View(w));
    SubmitInv(cfg, View(w), value, dst);
    NoteIssueBallots(cfg, w.h, Submit(View(w), value, dst).h);
  }

  lemma ClientFacts(cfg: Config, w: World, u: nat)
    requires WorldInv(cfg, w) && u in w.agenda && w.agenda[u] == ClientSend(w.now)
    ensures Shape(cfg, View(w)) && w.now !in w.h.requests
  {
  }

  lemma SubmitMatches(cfg: Config, w: World, u: nat, value: nat)
    requires Shape(cfg, View(w)) && w.now < cfg.stop
    ensures var dst, w' := NextServer(w.lastServerId, cfg.n), FireClient(cfg, w, u, value);
      var m := Submit(View(w), value, dst);
      var items := [RequestTo(dst, Request(w.now, value), w.now), ClientSend(w.now + cfg.interval)];
      && w'.now == m.now && w'.servers == m.servers && w'.h == m.h
      && w'.agenda == Post(w.agenda - {u}, w.nextUid, items) && w'.nextUid == w.nextUid + 2
      && m.live == View(w).live + {Token(AtRequest, w.now, 0)}
  {
  }

  lemma FireSubmit(cfg: Config, w: World, u: nat, value: nat)
    requires WorldInv(cfg, w) && u in w.agenda && w.agenda[u] == ClientSend(w.now) && w.now < cfg.stop
    ensures cfg.n > 0 && WorldInv(cfg, FireClient(cfg, w, u, value))
  {
    hide Inv, Safe, ItemsOk, OneToken;
    ClientFacts(cfg, w, u);
    var dst := NextServer(w.lastServerId, cfg.n);
    var items := [RequestTo(dst, Request(w.now, value), w.now), ClientSend(w.now + cfg.interval)];
    var m := Submit(View(w), value, dst);
    SubmitMatches(cfg, w, u, value);
    ClientMoves(cfg, w, value, dst);
    ClientItems(cfg, w, u, value, items, m);
    ClientTokens(cfg, w, u, items);
    Rebuilt(cfg, FireClient(cfg, w, u, value), m);
  }

  lemma FireClientKeeps(cfg: Config, w: World, u: nat, value: nat)
    requires WorldInv(cfg, w) && u in w.agenda && w.agenda[u] == ClientSend(w.now)
    ensures cfg.n > 0 && WorldInv(cfg, FireClient(cfg, w, u, value))
  {
    if w.now >= cfg.stop {
      DropToken(cfg, w, u);
    } else {
      FireSubmit(cfg, w, u, value);
    }
  }

  lemma ItemsKept(cfg: Config, s: Snapshot, s': Snapshot, agenda: map<nat, Item>, agenda': map<nat, Item>, next: nat)
    requires ItemsOk(cfg, s, agenda, next) && Remembers(s, s')
    requires forall v :: v in agenda' ==> v in agenda && agenda'[v] == agenda[v]
    requires forall v :: v in agenda' ==> ClockKept(s, s', agenda[v]) && InTime(cfg, s'.now, agenda[v])
    ensures ItemsOk(cfg, s', agenda', next)
  {
    forall v | v in agenda' ensures v < next && ItemOk(cfg, s', agenda'[v]) && InTime(cfg, s'.now, agenda'[v]) {
      ItemKept(cfg, s, s', agenda[v]);
    }
  }

  lemma ForgetRemembers(s: Snapshot, t: Token, agenda: map<nat, Item>)
    ensures Remembers(s, Forget(s, t)) && forall v :: v in agenda ==> ClockKept(s, Forget(s, t), agenda[v])
  {
  }

  lemma StillInTime(cfg: Config, w: World)
    requires ItemsOk(cfg, View(w), w.agenda, w.nextUid)
    ensures forall v :: v in w.agenda ==> InTime(cfg, w.now, w.agenda[v])
  {
  }

  /** An item may vanish if it is a packet on a lossy network or the client's last event. */
  lemma DropToken(cfg: Config, w: World, u: nat)
    requires WorldInv(cfg, w) && u in w.agenda
    requires w.agenda[u].ClientSend? || (!cfg.lossless && Packet(w.agenda[u]))
    ensures WorldInv(cfg, w.(agenda := w.agenda - {u}))
  {
    hide Inv, Safe, ItemsOk, OneToken, Remembers, ClockKept, InTime;
    var s, t := View(w), TokenOf(w.agenda[u]);
    LiveToken(cfg, w, u);
    ForgetInv(cfg, s, t);
    RemoveTokens(w.agenda, u);
    ForgetRemembers(s, t, w.agenda);
    StillInTime(cfg, w);
    ItemsKept(cfg, s, Forget(s, t), w.agenda, w.agenda - {u}, w.nextUid);
    Rebuilt(cfg, w.(agenda := w.agenda - {u}), Forget(s, t));
  }

  lemma AdvanceRemembers(s: Snapshot, t: nat, agenda: map<nat, Item>)
    requires s.now <= t
    ensures Remembers(s, s.(now := t)) && forall v :: v in agenda ==> ClockKept(s, s.(now := t), agenda[v])
  {
  }

  lemma AdvanceKeeps(cfg: Config, w: World, t: nat)
    requires WorldInv(cfg, w) && w.now <= t && forall u :: u in w.agenda ==> InTime(cfg, t, w.agenda[u])
    ensures WorldInv(cfg, w.(now := t))
  {
    hide Inv, Safe, ItemsOk, OneToken, Remembers, ClockKept, InTime;
    var s := View(w);
    AdvanceInv(cfg, s, t);
    AdvanceRemembers(s, t, w.agenda);
    ItemsKept(cfg, s, s.(now := t), w.agenda, w.agenda, w.nextUid);
    Rebuilt(cfg, w.(now := t), s.(now := t));
  }

  // ---------- Every step ----------

  lemma FirePacket(cfg: Config, w: World, u: nat, i: nat, f: Frame, t: nat)
    requires WorldInv(cfg, w) && u in w.agenda && w.agenda[u] == FrameTo(i, f, t) && i < cfg.n
    ensures Shape(cfg, View(w))
    ensures WorldInv(cfg, Commit(w, u, i, ReceiveMessage(cfg, i, w.servers[i], f, w.now),
                                 MessageHistory(cfg, w.h, i, w.servers[i], f, w.now)))
  {
    LiveToken(cfg, w, u);
    if f.kind == PROPOSAL { FireProposal(cfg, w, u, i, f, t); }
    else if f.kind == ACCEPT { FireAccept(cfg, w, u, i, f, t); }
    else if f.kind == DECISION { FireDecision(cfg, w, u, i, f, t); }
    else { FireDecisionAck(cfg, w, u, i, f, t); }
  }

  lemma FireLocal(cfg: Config, w: World, u: nat, i: nat, e: Event)
    requires WorldInv(cfg, w) && u in w.agenda && w.agenda[u] == Local(i, e, w.now) && i < cfg.n
    ensures Shape(cfg, View(w))
    ensures WorldInv(cfg, Commit(w, u, i, HandleEvent(cfg, i, w.servers[i], e, w.now),
                                 EventHistory(cfg, w.h, i, w.servers[i], e, w.now)))
  {
    match e
    case CreateProposal(req) => FireCreate(cfg, w, u, i, req, w.now);
    case SendAccept(f) => FireSendAccept(cfg, w, u, i, f);
    case AsyncPropose => FireAsync(cfg, w, u, i);
    case SyncPropose => FireSync(cfg, w, u, i);
    case StopApplication => FireStop(cfg, w, u, i, w.now);
  }

  /** No step of the cluster breaks the invariant. */
  lemma StepKeeps(cfg: Config, w: World, step: Step)
    requires cfg.n > 0 && WorldInv(cfg, w) && Enabled(cfg, w, step)
    ensures WorldInv(cfg, Apply(cfg, w, step))
  {
    match step
    case Fire(u, value) => {
      match w.agenda[u]
      case RequestTo(i, req, t) => FireRequest(cfg, w, u, i, req, t);
      case FrameTo(i, f, t) => FirePacket(cfg, w, u, i, f, t);
      case Local(i, e, _) => FireLocal(cfg, w, u, i, e);
      case ClientSend(_) => FireClientKeeps(cfg, w, u, value);
    }
    case Drop(u) => DropToken(cfg, w, u);
    case Advance(t) => AdvanceKeeps(cfg, w, t);
  }
}
