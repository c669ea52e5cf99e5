/** Every reachable world satisfies the invariant, and what a run has recorded it never revises. */
module Runs {
  import opened PaxosData
  import opened Handlers
  import opened RoundRobin
  import opened Cluster
  import opened Snapshots
  import opened Invariant
  import opened SafeMoves
  import opened AgendaInvariant
  import opened Steps

  // ---------- The beginning ----------

  lemma InitialItem(cfg: Config, k: nat)
    requires cfg.Valid() && k < |InitialItems(cfg)|
    ensures var it := InitialItems(cfg)[k];
      && (it == ClientSend(cfg.start)
          || (cfg.async && it == Local(cfg.leader, AsyncPropose, cfg.start))
          || (!cfg.async && 1 <= k <= cfg.n && it == Local(k - 1, SyncPropose, cfg.TurnStart(k - 1, 0)))
          || (it.Local? && it.server < cfg.n && it.event == StopApplication && it.due == cfg.stop))
  {
  }

  /** The first events on the agenda are those the servers schedule when they are started; the
      asynchronous leader's first turn is its first event. */
  lemma StartsAsScheduled(cfg: Config, i: nat)
    requires cfg.Valid() && i < cfg.n
    ensures !cfg.async ==>
              ItemsOf(i, cfg.start + cfg.Lag(i), StartProposer(cfg, i, EMPTY_SERVER, cfg.start).outputs) ==
              [FirstProposals(cfg)[i]]
    ensures !cfg.async ==>
              FirstProposals(cfg)[i] ==
              Local(i, SyncPropose, cfg.start + cfg.lag[i] + i * (2 * cfg.clockError + cfg.delay))
    ensures cfg.async ==> FirstProposals(cfg) == [Local(cfg.leader, AsyncPropose, cfg.start)]
    ensures cfg.async && i == cfg.leader ==>
              StartProposer(cfg, i, EMPTY_SERVER, cfg.start) ==
              HandleEvent(cfg, i, EMPTY_SERVER, AsyncPropose, cfg.start)
    ensures cfg.async && i != cfg.leader ==> StartProposer(cfg, i, EMPTY_SERVER, cfg.start) == Effect(EMPTY_SERVER, [])
  {
  }

  lemma InitialTokens(cfg: Config, j: nat, k: nat)
    requires cfg.Valid() && j < k < |InitialItems(cfg)|
    ensures TokenOf(InitialItems(cfg)[j]) != TokenOf(InitialItems(cfg)[k])
  {
  }

  lemma InitialSnapshot(cfg: Config, last: nat)
    requires cfg.Valid()
    ensures Safe(cfg, View(InitialWorld(cfg, last)).(live := {}))
  {
  }

  lemma InitialLive(cfg: Config, last: nat)
    requires cfg.Valid()
    ensures OneToken(InitialWorld(cfg, last).agenda)
    ensures TokensOf(InitialWorld(cfg, last).agenda) == TokensOfSeq(InitialItems(cfg))
  {
    var items := InitialItems(cfg);
    forall j, k | 0 <= j < k < |items| ensures TokenOf(items[j]) != TokenOf(items[k]) { InitialTokens(cfg, j, k); }
    PostTokens(map[], 0, items);
    assert TokensOf(map[]) + TokensOfSeq(items) == TokensOfSeq(items);
  }

  /** Each initial item is justified before anything has happened. */
  lemma InitialItemOk(cfg: Config, s: Snapshot, it: Item, k: nat)
    requires Shape(cfg, s) && k < |InitialItems(cfg)| && it == InitialItems(cfg)[k]
    requires s.now == cfg.start && s.h.requests == map[] && (forall i :: 0 <= i < cfg.n ==> s.h.rounds[i] == 0)
    ensures ItemOk(cfg, s, it) && InTime(cfg, s.now, it)
  {
    hide InitialItems;
    InitialItem(cfg, k);
  }

  lemma InitialItemLive(cfg: Config, s: Snapshot, it: Item, k: nat)
    requires Shape(cfg, s) && k < |InitialItems(cfg)| && it == InitialItems(cfg)[k]
    requires s.now == cfg.start && s.h.requests == map[]
    ensures LiveOk(cfg, s, TokenOf(it))
  {
    hide InitialItems;
    InitialItem(cfg, k);
  }

  lemma InitialItemsOk(cfg: Config, last: nat)
    requires cfg.Valid() && Shape(cfg, View(InitialWorld(cfg, last)))
    ensures ItemsOk(cfg, View(InitialWorld(cfg, last)), InitialWorld(cfg, last).agenda, |InitialItems(cfg)|)
  {
    var items, w := InitialItems(cfg), InitialWorld(cfg, last);
    forall u | u in w.agenda
      ensures u < |items| && ItemOk(cfg, View(w), w.agenda[u]) && InTime(cfg, w.now, w.agenda[u])
    {
      PostedItem(map[], 0, items, u);
      InitialItemOk(cfg, View(w), w.agenda[u], u);
    }
  }

  lemma InitialFlow(cfg: Config, last: nat)
    requires cfg.Valid()
    ensures Shape(cfg, View(InitialWorld(cfg, last)))
    ensures Flow(cfg, View(InitialWorld(cfg, last))) && Settled(cfg, View(InitialWorld(cfg, last)))
  {
    var w := InitialWorld(cfg, last);
    var s := View(w);
    assert forall i :: 0 <= i < cfg.n ==> s.servers[i] == EMPTY_SERVER;
    InitialLive(cfg, last);
    if cfg.async {
      assert InitialItems(cfg)[1] == Local(cfg.leader, AsyncPropose, cfg.start);
      assert TokenOf(InitialItems(cfg)[1]) == Token(AtTimer, 0, cfg.leader);
    }
  }

  lemma InitialLiveOk(cfg: Config, last: nat, t: Token)
    requires cfg.Valid() && t in View(InitialWorld(cfg, last)).live && Shape(cfg, View(InitialWorld(cfg, last)))
    ensures LiveOk(cfg, View(InitialWorld(cfg, last)), t)
  {
    InitialLive(cfg, last);
    var k :| 0 <= k < |InitialItems(cfg)| && TokenOf(InitialItems(cfg)[k]) == t;
    InitialItemLive(cfg, View(InitialWorld(cfg, last)), InitialItems(cfg)[k], k);
  }

  lemma InitialHolds(cfg: Config, last: nat)
    requires cfg.Valid()
    ensures WorldInv(cfg, InitialWorld(cfg, last))
  {
    var w := InitialWorld(cfg, last);
    InitialFlow(cfg, last);
    InitialSnapshot(cfg, last);
    InitialLive(cfg, last);
    InitialItemsOk(cfg, last);
    forall i | 0 <= i < cfg.n ensures ServerOk(cfg, View(w), i) {
      assert ServerOk(cfg, View(w).(live := {}), i);
    }
    forall t | t in View(w).live ensures LiveOk(cfg, View(w), t) { InitialLiveOk(cfg, last, t); }
  }

  // ---------- Every run ----------

  lemma {:induction false} RunKeeps(cfg: Config, w: World, steps: seq<Step>)
    requires cfg.n > 0 && WorldInv(cfg, w) && Legal(cfg, w, steps)
    ensures WorldInv(cfg, Exec(cfg, w, steps))
    decreases |steps|
  {
    if steps != [] {
      StepKeeps(cfg, w, steps[0]);
      RunKeeps(cfg, Apply(cfg, w, steps[0]), steps[1..]);
    }
  }

  /** The invariant holds in every world any run reaches. */
  lemma ReachableHolds(cfg: Config, w: World)
    requires cfg.Valid() && Reachable(cfg, w)
    ensures WorldInv(cfg, w)
  {
    var last: nat, steps: seq<Step> :|
      last < WIDTH && Legal(cfg, InitialWorld(cfg, last), steps) && w == Exec(cfg, InitialWorld(cfg, last), steps);
    InitialHolds(cfg, last);
    RunKeeps(cfg, InitialWorld(cfg, last), steps);
  }

  lemma ReachableSized(cfg: Config, w: World)
    requires cfg.Valid() && Reachable(cfg, w)
    ensures Reached(cfg, w)
  {
    ReachableHolds(cfg, w);
  }

  lemma {:induction false} LegalJoins(cfg: Config, w: World, a: seq<Step>, b: seq<Step>)
    requires cfg.n > 0 && Legal(cfg, w, a) && Legal(cfg, Exec(cfg, w, a), b)
    ensures Legal(cfg, w, a + b) && Exec(cfg, w, a + b) == Exec(cfg, Exec(cfg, w, a), b)
    decreases |a|
  {
    if a == [] {
      assert a + b == b;
    } else {
      LegalJoins(cfg, Apply(cfg, w, a[0]), a[1..], b);
      assert (a + b)[0] == a[0] && (a + b)[1..] == a[1..] + b;
    }
  }

  /** Runs go on from wherever a run ends. */
  lemma ReachedLater(cfg: Config, w: World, steps: seq<Step>)
    requires Reached(cfg, w) && Legal(cfg, w, steps)
    ensures Reached(cfg, Exec(cfg, w, steps))
  {
    var last: nat, before: seq<Step> :|
      last < WIDTH && Legal(cfg, InitialWorld(cfg, last), before) && w == Exec(cfg, InitialWorld(cfg, last), before);
    LegalJoins(cfg, InitialWorld(cfg, last), before, steps);
    assert Reachable(cfg, Exec(cfg, w, steps));
    ReachableSized(cfg, Exec(cfg, w, steps));
  }

  lemma Next(cfg: Config, w: World, step: Step, w': World)
    requires Reached(cfg, w) && Enabled(cfg, w, step) && w' == Apply(cfg, w, step)
    ensures Reached(cfg, w')
  {
    var none: seq<Step> := [];
    assert Legal(cfg, w', none) && Exec(cfg, w', none) == w';
    assert [step][1..] == none;
    ReachedLater(cfg, w, [step]);
  }

  lemma StartsHere(cfg: Config, last: nat)
    requires cfg.Valid() && last < WIDTH
    ensures Reached(cfg, InitialWorld(cfg, last))
  {
    var w, none: seq<Step> := InitialWorld(cfg, last), [];
    assert Legal(cfg, w, none) && Exec(cfg, w, none) == w;
    assert Reachable(cfg, w);
    ReachableSized(cfg, w);
  }

  // ---------- What the invariant says of one thing ----------

  lemma ItemHolds(cfg: Config, w: World, u: nat)
    requires Reached(cfg, w) && u in w.agenda
    ensures ItemOk(cfg, View(w), w.agenda[u]) && InTime(cfg, w.now, w.agenda[u])
  {
    ReachableHolds(cfg, w);
  }

  lemma BallotHolds(cfg: Config, w: World, id: nat)
    requires Reached(cfg, w) && id in w.h.ballots
    ensures Shape(cfg, View(w)) && BallotOk(cfg, View(w), id) && (!cfg.async ==> SlotOk(cfg, w.h, id))
  {
    ReachableHolds(cfg, w);
  }

  lemma RoundsDiffer(cfg: Config, w: World, x: nat, y: nat)
    requires Reached(cfg, w) && !cfg.async && x in w.h.ballots && y in w.h.ballots && x != y
    ensures w.h.ballots[x].proposer != w.h.ballots[y].proposer || w.h.ballots[x].round != w.h.ballots[y].round
  {
    ReachableHolds(cfg, w);
  }

  // ---------- What a run never revises ----------

  /** Later histories only append. */
  ghost predicate Appends(h: History, h': History) {
    && |h.recorded| == |h'.recorded| && |h.issued| == |h'.issued| && |h.created| == |h'.created|
    && (forall i :: 0 <= i < |h.recorded| ==> h.recorded[i] <= h'.recorded[i])
    && (forall i :: 0 <= i < |h.issued| ==> h.issued[i] <= h'.issued[i])
    && (forall i :: 0 <= i < |h.created| ==> h.created[i] <= h'.created[i])
    && h.announced <= h'.announced
    && (forall x :: x in h.ballots ==> x in h'.ballots && h'.ballots[x] == h.ballots[x])
    && (forall x :: x in h.decisions ==> x in h'.decisions && h'.decisions[x] == h.decisions[x])
  }

  lemma AppendsTransitive(a: History, b: History, c: History)
    requires Appends(a, b) && Appends(b, c)
    ensures Appends(a, c)
  {
  }

  lemma AppendsReflexive(h: History)
    ensures Appends(h, h)
  {
  }

  /** The head of the queue is new and an undecided proposal has no decision: the two facts that
      keep the ballot and decision maps from being overwritten. */
  ghost predicate NewKeys(h: History, i: nat, v: Server) {
    && (v.waiting != [] ==> v.waiting[0].id !in h.ballots)
    && (forall id :: id in v.proposals && v.proposals[id].decisionTime == 0 ==> id !in h.decisions)
  }

  lemma NewKeysHold(cfg: Config, s: Snapshot, i: nat)
    requires Safe(cfg, s) && i < cfg.n
    ensures NewKeys(s.h, i, s.servers[i])
  {
    if s.servers[i].waiting != [] { HeadIsNew(cfg, s, i); }
    forall id | id in s.servers[i].proposals && s.servers[i].proposals[id].decisionTime == 0
      ensures id !in s.h.decisions
    {
      FlightFacts(cfg, s, i, id);
      assert DecisionOk(cfg, s, id);
    }
  }

  lemma RecordAppends(h: History, i: nat, r: Record)
    requires i < |h.recorded|
    ensures Appends(h, NoteRecord(h, i, r))
  {
  }

  lemma VoteAppends(h: History, id: nat, a: nat)
    ensures Appends(h, NoteDecisionAck(h, id, a))
  {
  }

  lemma IssueAppends(h: History, i: nat, v: Server, now: nat)
    requires i < |h.issued| && i < |h.rounds| && NewKeys(h, i, v)
    ensures Appends(h, NoteIssue(h, i, v, now))
  {
  }

  lemma AckAppends(h: History, id: nat, a: nat)
    ensures Appends(h, NoteAck(h, id, a))
  {
  }

  lemma DecideAppends(h: History, id: nat, now: nat)
    requires id !in h.decisions
    ensures Appends(h, NoteDecision(h, id, now))
  {
  }

  lemma AcceptAppends(cfg: Config, h: History, i: nat, v: Server, f: Frame, now: nat)
    requires i < cfg.n && i < |h.recorded| && NewKeys(h, i, v)
    ensures Appends(h, AcceptHistory(cfg, h, i, v, f, now))
  {
    hide Appends;
    var h1 := NoteAck(h, f.proposalId, f.acceptorId);
    var h2 := NoteDecision(h1, f.proposalId, now);
    AppendsReflexive(h);
    AckAppends(h, f.proposalId, f.acceptorId);
    if f.proposalId in v.proposals && v.proposals[f.proposalId].decisionTime == 0 {
      var p := v.proposals[f.proposalId].(numAck := v.proposals[f.proposalId].numAck + 1);
      DecideAppends(h1, f.proposalId, now);
      AppendsTransitive(h, h1, h2);
      RecordAppends(h2, i, p.(decisionTime := now, numDecisionAck := 1));
      AppendsTransitive(h, h2, NoteRecord(h2, i, p.(decisionTime := now, numDecisionAck := 1)));
    }
  }

  lemma DecisionAckAppends(cfg: Config, h: History, i: nat, v: Server, f: Frame, now: nat)
    requires i < cfg.n && i < |h.recorded| && i < |h.issued| && i < |h.rounds| && NewKeys(h, i, v)
    ensures Appends(h, DecisionAckHistory(cfg, h, i, v, f, now))
  {
    if cfg.async && f.proposalId in v.proposals {
      var h1 := NoteDecisionAck(h, f.proposalId, f.proposerId);
      var p := v.proposals[f.proposalId].(numDecisionAck := v.proposals[f.proposalId].numDecisionAck + 1);
      var h2 := NoteRecord(h1, i, p.(decisionAckTime := now));
      VoteAppends(h, f.proposalId, f.proposerId);
      RecordAppends(h1, i, p.(decisionAckTime := now));
      AppendsTransitive(h, h1, h2);
      assert NewKeys(h2, i, v);
      IssueAppends(h2, i, v, now);
      AppendsTransitive(h, h2, NoteIssue(h2, i, v, now));
    }
  }

  lemma MessageAppends(cfg: Config, h: History, i: nat, v: Server, f: Frame, now: nat)
    requires i < cfg.n && i < |h.recorded| && i < |h.issued| && i < |h.rounds| && NewKeys(h, i, v)
    ensures Appends(h, MessageHistory(cfg, h, i, v, f, now))
  {
    hide Appends, NewKeys;
    AppendsReflexive(h);
    if f.kind == ACCEPT { AcceptAppends(cfg, h, i, v, f, now); }
    else if f.kind == DECISION { RecordAppends(h, i, DecidedRecord(f)); }
    else if f.kind == DECISION_ACK { DecisionAckAppends(cfg, h, i, v, f, now); }
  }

  lemma CreateAppends(h: History, i: nat, req: Request)
    requires i < |h.created|
    ensures Appends(h, NoteCreate(h, i, req)) && Appends(h, NoteReject(h, req))
  {
  }

  lemma RoundAppends(h: History, i: nat)
    requires i < |h.rounds|
    ensures Appends(h, NoteRound(h, i))
  {
  }

  lemma CutAppends(h: History, i: nat, c: nat)
    requires i < |h.cut|
    ensures Appends(h, h.(cut := h.cut[i := c]))
  {
  }

  lemma EventAppends(cfg: Config, h: History, i: nat, v: Server, e: Event, now: nat)
    requires i < cfg.n && i < |h.recorded| && i < |h.issued| && i < |h.rounds| && i < |h.created| && i < |h.cut|
    requires NewKeys(h, i, v)
    ensures Appends(h, EventHistory(cfg, h, i, v, e, now))
  {
    hide Appends;
    AppendsReflexive(h);
    IssueAppends(h, i, v, now);
    match e
    case CreateProposal(req) => CreateAppends(h, i, req);
    case SyncPropose =>
      RoundAppends(NoteIssue(h, i, v, now), i);
      AppendsTransitive(h, NoteIssue(h, i, v, now), NoteRound(NoteIssue(h, i, v, now), i));
    case StopApplication => CutAppends(h, i, |h.recorded[i]|);
    case _ =>
  }

  /** What firing an item needs to know of the server it is addressed to. */
  lemma Addressee(cfg: Config, w: World, u: nat, i: nat)
    requires cfg.n > 0 && WorldInv(cfg, w) && u in w.agenda
    requires (w.agenda[u].FrameTo? && w.agenda[u].dst == i) || (w.agenda[u].Local? && w.agenda[u].server == i)
    ensures i < cfg.n && Sized(cfg, w) && NewKeys(w.h, i, w.servers[i])
  {
    assert ItemOk(cfg, View(w), w.agenda[u]);
    NewKeysHold(cfg, View(w), i);
  }

  lemma FireAppends(cfg: Config, w: World, u: nat, value: nat)
    requires cfg.n > 0 && WorldInv(cfg, w) && Sized(cfg, w) && u in w.agenda && Ready(cfg, w, w.agenda[u])
    ensures Appends(w.h, FireItem(cfg, w, u, value).h)
  {
    hide WorldInv, Appends, NewKeys;
    match w.agenda[u]
    case FrameTo(i, f, _) =>
      Addressee(cfg, w, u, i);
      MessageAppends(cfg, w.h, i, w.servers[i], f, w.now);
    case Local(i, e, _) =>
      Addressee(cfg, w, u, i);
      EventAppends(cfg, w.h, i, w.servers[i], e, w.now);
    case RequestTo(i, req, _) => RequestAppends(cfg, w.h, i, req);
    case ClientSend(_) => SendAppends(cfg, w, u, value);
  }

  lemma RequestAppends(cfg: Config, h: History, i: nat, req: Request)
    ensures Appends(h, RequestHistory(cfg, h, i, req))
  {
  }

  lemma SendAppends(cfg: Config, w: World, u: nat, value: nat)
    requires cfg.n > 0
    ensures Appends(w.h, FireClient(cfg, w, u, value).h)
  {
  }

  lemma StepAppends(cfg: Config, w: World, step: Step)
    requires cfg.n > 0 && WorldInv(cfg, w) && Enabled(cfg, w, step)
    ensures Appends(w.h, Apply(cfg, w, step).h)
  {
    hide WorldInv, Appends;
    AppendsReflexive(w.h);
    if step.Fire? { FireAppends(cfg, w, step.uid, step.value); }
  }

  /** Along any run every server's record of decisions only grows at its end, no ballot and no
      decision time is ever revised, and the list of DECISION broadcasts only gains new ids. */
  lemma {:induction false} RunAppends(cfg: Config, w: World, steps: seq<Step>)
    requires cfg.n > 0 && WorldInv(cfg, w) && Legal(cfg, w, steps)
    ensures Appends(w.h, Exec(cfg, w, steps).h)
    decreases |steps|
  {
    if steps != [] {
      var w1 := Apply(cfg, w, steps[0]);
      StepKeeps(cfg, w, steps[0]);
      StepAppends(cfg, w, steps[0]);
      RunAppends(cfg, w1, steps[1..]);
      AppendsTransitive(w.h, w1.h, Exec(cfg, w, steps).h);
    }
  }

  // ---------- One DECISION broadcast per proposal ----------

  ghost predicate Announces(o: Output) {
    o.Send? && o.frame.kind == DECISION
  }

  lemma ProposeAnnouncesNothing(cfg: Config, i: nat, v: Server, now: nat, k: nat)
    requires i < cfg.n && k < |DoAsyncPropose(cfg, i, v, now).outputs|
    ensures !Announces(DoAsyncPropose(cfg, i, v, now).outputs[k])
  {
  }

  /** Only the handler of an ACCEPT sends DECISION frames, and it notes that it did. */
  lemma MessageAnnounces(cfg: Config, h: History, i: nat, v: Server, f: Frame, now: nat, k: nat)
    requires i < cfg.n && i < |h.recorded| && i < |h.issued| && i < |h.rounds| && NewKeys(h, i, v)
    requires k < |ReceiveMessage(cfg, i, v, f, now).outputs| && Announces(ReceiveMessage(cfg, i, v, f, now).outputs[k])
    ensures var id := ReceiveMessage(cfg, i, v, f, now).outputs[k].frame.proposalId;
      MessageHistory(cfg, h, i, v, f, now).announced == h.announced + [id] && id !in h.decisions
  {
    if f.kind == DECISION_ACK && |ReceivedDecisionAck(cfg, i, v, f, now).outputs| > k {
      var id := f.proposalId;
      var p := v.proposals[id].(numDecisionAck := v.proposals[id].numDecisionAck + 1);
      var v' := v.(proposals := v.proposals - {id}, decided := v.decided + [p.(decisionAckTime := now)]);
      ProposeAnnouncesNothing(cfg, i, v', now, k);
    }
  }

  lemma CommittedItem(w: World, u: nat, i: nat, e: Effect, h: History, x: nat)
    requires i < |w.servers| && x in Commit(w, u, i, e, h).agenda && x !in w.agenda
    ensures w.nextUid <= x < w.nextUid + |e.outputs|
    ensures Commit(w, u, i, e, h).agenda[x] == ItemOf(i, w.now, e.outputs[x - w.nextUid])
  {
  }

  lemma MessageBroadcast(cfg: Config, w: World, u: nat, i: nat, f: Frame, x: nat)
    requires Sized(cfg, w) && i < cfg.n && NewKeys(w.h, i, w.servers[i]) && AnnouncedOk(w.h)
    requires var w' := Commit(w, u, i, ReceiveMessage(cfg, i, w.servers[i], f, w.now),
                              MessageHistory(cfg, w.h, i, w.servers[i], f, w.now));
      x in w'.agenda && x !in w.agenda && w'.agenda[x].FrameTo? && w'.agenda[x].frame.kind == DECISION
    ensures var w' := Commit(w, u, i, ReceiveMessage(cfg, i, w.servers[i], f, w.now),
                             MessageHistory(cfg, w.h, i, w.servers[i], f, w.now));
      var id := w'.agenda[x].frame.proposalId;
      w'.h.announced == w.h.announced + [id] && id !in w.h.announced
  {
    hide ReceiveMessage, MessageHistory, NewKeys;
    var e := ReceiveMessage(cfg, i, w.servers[i], f, w.now);
    CommittedItem(w, u, i, e, MessageHistory(cfg, w.h, i, w.servers[i], f, w.now), x);
    MessageAnnounces(cfg, w.h, i, w.servers[i], f, w.now, x - w.nextUid);
  }

  lemma EventBroadcast(cfg: Config, w: World, u: nat, i: nat, ev: Event, x: nat)
    requires Sized(cfg, w) && i < cfg.n
    requires var w' := Commit(w, u, i, HandleEvent(cfg, i, w.servers[i], ev, w.now),
                              EventHistory(cfg, w.h, i, w.servers[i], ev, w.now));
      x in w'.agenda && x !in w.agenda
    ensures var w' := Commit(w, u, i, HandleEvent(cfg, i, w.servers[i], ev, w.now),
                             EventHistory(cfg, w.h, i, w.servers[i], ev, w.now));
      !(w'.agenda[x].FrameTo? && w'.agenda[x].frame.kind == DECISION)
  {
    var e := HandleEvent(cfg, i, w.servers[i], ev, w.now);
    CommittedItem(w, u, i, e, EventHistory(cfg, w.h, i, w.servers[i], ev, w.now), x);
    hide EventHistory, Commit;
    assert !Announces(e.outputs[x - w.nextUid]);
  }

  lemma FireBroadcast(cfg: Config, w: World, u: nat, value: nat, x: nat)
    requires cfg.n > 0 && Sized(cfg, w) && u in w.agenda && Ready(cfg, w, w.agenda[u]) && AnnouncedOk(w.h)
    requires forall i :: 0 <= i < cfg.n ==> NewKeys(w.h, i, w.servers[i])
    requires x in FireItem(cfg, w, u, value).agenda && x !in w.agenda
    requires FireItem(cfg, w, u, value).agenda[x].FrameTo?
    requires FireItem(cfg, w, u, value).agenda[x].frame.kind == DECISION
    ensures var id := FireItem(cfg, w, u, value).agenda[x].frame.proposalId;
      FireItem(cfg, w, u, value).h.announced == w.h.announced + [id] && id !in w.h.announced
  {
    match w.agenda[u]
    case FrameTo(i, f, _) => MessageBroadcast(cfg, w, u, i, f, x);
    case Local(i, ev, _) => EventBroadcast(cfg, w, u, i, ev, x);
    case _ =>
  }

  lemma BroadcastFacts(cfg: Config, w: World)
    requires Reached(cfg, w)
    ensures AnnouncedOk(w.h) && forall i :: 0 <= i < cfg.n ==> NewKeys(w.h, i, w.servers[i])
  {
    ReachableHolds(cfg, w);
    forall i | 0 <= i < cfg.n ensures NewKeys(w.h, i, w.servers[i]) { NewKeysHold(cfg, View(w), i); }
  }

  /** A DECISION frame that a step puts on the network belongs to a broadcast noted in that step,
      for an id that was never broadcast before. */
  lemma BroadcastOnce(cfg: Config, w: World, step: Step, x: nat)
    requires Reached(cfg, w) && Enabled(cfg, w, step)
    requires x in Apply(cfg, w, step).agenda && x !in w.agenda
    requires Apply(cfg, w, step).agenda[x].FrameTo? && Apply(cfg, w, step).agenda[x].frame.kind == DECISION
    ensures var id := Apply(cfg, w, step).agenda[x].frame.proposalId;
      Apply(cfg, w, step).h.announced == w.h.announced + [id] && id !in w.h.announced
  {
    BroadcastFacts(cfg, w);
    match step
    case Fire(u, value) => FireBroadcast(cfg, w, u, value, x);
    case _ =>
  }
}
