/** What stays on the agenda until it fires, and what that says of late decisions, of rounds and of
    the place of a request in its queue. */
module Progress {
  import opened PaxosData
  import opened RoundRobin
  import opened Handlers
  import opened Cluster
  import opened Snapshots
  import opened SafeMoves
  import opened FlowMoves
  import opened AgendaInvariant
  import opened Steps
  import opened Runs

  // ---------- One step ----------

  /** Whatever does not fire stays, unless it is a packet that is dropped. */
  lemma ItemStays(cfg: Config, w: World, step: Step, v: nat)
    requires cfg.n > 0 && WorldInv(cfg, w) && Enabled(cfg, w, step) && v in w.agenda && !Packet(w.agenda[v])
    requires step.Fire? ==> step.uid != v
    ensures v in Apply(cfg, w, step).agenda && Apply(cfg, w, step).agenda[v] == w.agenda[v]
  {
    hide WorldInv, ReceiveRequest, ReceiveMessage, HandleEvent;
    LiveToken(cfg, w, v);
  }

  /** Only server i's record may have grown, by at most one entry, of this proposal, and only if
      `may`; no round and no cut has moved. */
  ghost predicate Pushes(h: History, h': History, i: nat, id: nat, may: bool) {
    && h'.rounds == h.rounds && h'.cut == h.cut && |h'.recorded| == |h.recorded|
    && (forall j :: 0 <= j < |h.recorded| && j != i ==> h'.recorded[j] == h.recorded[j])
    && (i < |h.recorded| ==> PushesOne(h.recorded[i], h'.recorded[i], id, may))
  }

  ghost predicate PushesOne(rs: seq<Record>, rs': seq<Record>, id: nat, may: bool) {
    rs' == rs || (may && |rs'| == |rs| + 1 && rs' == rs + [rs'[|rs|]] && rs'[|rs|].id == id)
  }

  ghost predicate KeyIsId(v: Server, id: nat) {
    id in v.proposals ==> v.proposals[id].id == id
  }

  lemma AcceptPushes(cfg: Config, h: History, i: nat, v: Server, f: Frame, now: nat)
    requires i < cfg.n && i < |h.recorded| && KeyIsId(v, f.proposalId)
    ensures Pushes(h, AcceptHistory(cfg, h, i, v, f, now), i, f.proposalId, !cfg.async)
  {
  }

  lemma IssuePushesNothing(h: History, i: nat, v: Server, now: nat)
    requires i < |h.issued| && i < |h.rounds|
    ensures NoteIssue(h, i, v, now).recorded == h.recorded && NoteIssue(h, i, v, now).rounds == h.rounds
    ensures NoteIssue(h, i, v, now).cut == h.cut
  {
  }

  lemma AckPushes(cfg: Config, h: History, i: nat, v: Server, f: Frame, now: nat)
    requires i < cfg.n && i < |h.recorded| && i < |h.issued| && i < |h.rounds| && KeyIsId(v, f.proposalId)
    ensures Pushes(h, DecisionAckHistory(cfg, h, i, v, f, now), i, f.proposalId, cfg.async)
  {
    if cfg.async && f.proposalId in v.proposals {
      var id := f.proposalId;
      var d := v.proposals[id].(numDecisionAck := v.proposals[id].numDecisionAck + 1, decisionAckTime := now);
      IssuePushesNothing(NoteRecord(NoteDecisionAck(h, id, f.proposerId), i, d), i, v, now);
    }
  }

  predicate MayPush(cfg: Config, f: Frame) {
    (f.kind == ACCEPT && !cfg.async) || f.kind == DECISION || (f.kind == DECISION_ACK && cfg.async)
  }

  lemma MessagePushes(cfg: Config, h: History, i: nat, v: Server, f: Frame, now: nat)
    requires i < cfg.n && i < |h.recorded| && i < |h.issued| && i < |h.rounds| && KeyIsId(v, f.proposalId)
    ensures Pushes(h, MessageHistory(cfg, h, i, v, f, now), i, f.proposalId, MayPush(cfg, f))
  {
    if f.kind == ACCEPT { AcceptPushes(cfg, h, i, v, f, now); }
    else if f.kind == DECISION_ACK { AckPushes(cfg, h, i, v, f, now); }
  }

  lemma EventElsewhere(cfg: Config, h: History, j: nat, v: Server, e: Event, now: nat)
    requires j < cfg.n && j < |h.recorded| && j < |h.issued| && j < |h.rounds| && j < |h.created| && j < |h.cut|
    ensures var h' := EventHistory(cfg, h, j, v, e, now);
      && h'.recorded == h.recorded && |h'.rounds| == |h.rounds| && |h'.cut| == |h.cut|
      && (forall i :: 0 <= i < |h.cut| && !(i == j && e == StopApplication) ==> h'.cut[i] == h.cut[i])
      && (forall i :: 0 <= i < |h.rounds| && !(i == j && e == SyncPropose) ==> h'.rounds[i] == h.rounds[i])
  {
    hide NoteIssue;
    IssuePushesNothing(h, j, v, now);
  }

  // ---------- Late decisions ----------

  /** The longest a decision takes to be recorded on server i after its broadcast. */
  function Reach(cfg: Config, i: nat): nat {
    if cfg.async && i == cfg.leader then 4 * cfg.delay + HANDLING_DELAY else 3 * cfg.delay + HANDLING_DELAY
  }

  ghost predicate Late(cfg: Config, h: History, i: nat, id: nat, t: nat) {
    id in h.ballots && t <= h.ballots[id].proposeTime + Reach(cfg, i)
  }

  lemma FrameInTime(cfg: Config, s: Snapshot, i: nat, f: Frame, t: nat)
    requires cfg.bounded && FrameOk(cfg, s, i, f, t) && s.now <= t + cfg.delay && DecidedInTime(cfg, s.h)
    requires MayPush(cfg, f)
    requires cfg.async && f.proposalId in s.h.ballots ==> s.h.ballots[f.proposalId].proposer == cfg.leader
    ensures Late(cfg, s.h, i, f.proposalId, s.now)
  {
  }

  /** What a frame that is handled may push on a bounded network is recorded in time. */
  lemma FramePushes(cfg: Config, w: World, u: nat, i: nat, f: Frame, t: nat)
    requires WorldInv(cfg, w) && u in w.agenda && w.agenda[u] == FrameTo(i, f, t) && i < cfg.n
    ensures KeyIsId(w.servers[i], f.proposalId)
    ensures cfg.bounded && MayPush(cfg, f) ==> Late(cfg, w.h, i, f.proposalId, w.now)
  {
    LiveToken(cfg, w, u);
    if f.proposalId in w.servers[i].proposals { FlightFacts(cfg, View(w), i, f.proposalId); }
    if cfg.async && f.proposalId in w.h.ballots { LeaderBallots(cfg, View(w), f.proposalId); }
    if cfg.bounded && MayPush(cfg, f) { FrameInTime(cfg, View(w), i, f, t); }
  }

  ghost predicate StopPending(cfg: Config, w: World, i: nat) {
    exists u :: u in w.agenda && w.agenda[u] == Local(i, StopApplication, cfg.stop)
  }

  /** Everything on the heap of a server that has written its log was broadcast too late for it. */
  ghost predicate LateAfterCut(cfg: Config, h: History, i: nat) {
    i < |h.recorded| && i < |h.cut| &&
    forall k :: h.cut[i] <= k < |h.recorded[i]| ==> Late(cfg, h, i, h.recorded[i][k].id, cfg.stop)
  }

  ghost predicate StopOk(cfg: Config, w: World, i: nat) {
    StopPending(cfg, w, i) || (cfg.stop <= w.now && (cfg.bounded ==> LateAfterCut(cfg, w.h, i)))
  }

  ghost predicate SameBallots(h: History, h': History) {
    forall x :: x in h.ballots ==> x in h'.ballots && h'.ballots[x] == h.ballots[x]
  }

  lemma LateKept(cfg: Config, h: History, h': History, i: nat, id: nat, may: bool, now: nat)
    requires LateAfterCut(cfg, h, i) && SameBallots(h, h') && cfg.stop <= now
    requires |h'.recorded| == |h.recorded| && |h'.cut| == |h.cut| && h'.cut[i] == h.cut[i]
    requires PushesOne(h.recorded[i], h'.recorded[i], id, may) && (may ==> Late(cfg, h, i, id, now))
    ensures LateAfterCut(cfg, h', i)
  {
  }

  lemma LateFrame(cfg: Config, w: World, u: nat, j: nat, f: Frame, t: nat, i: nat)
    requires WorldInv(cfg, w) && u in w.agenda && w.agenda[u] == FrameTo(j, f, t) && j < cfg.n && i < cfg.n
    requires Sized(cfg, w) && cfg.bounded && LateAfterCut(cfg, w.h, i) && cfg.stop <= w.now
    requires SameBallots(w.h, MessageHistory(cfg, w.h, j, w.servers[j], f, w.now))
    ensures LateAfterCut(cfg, MessageHistory(cfg, w.h, j, w.servers[j], f, w.now), i)
  {
    FramePushes(cfg, w, u, j, f, t);
    MessagePushes(cfg, w.h, j, w.servers[j], f, w.now);
    var h' := MessageHistory(cfg, w.h, j, w.servers[j], f, w.now);
    LateKept(cfg, w.h, h', i, f.proposalId, i == j && MayPush(cfg, f), w.now);
  }

  lemma LateEvent(cfg: Config, w: World, u: nat, j: nat, e: Event, due: nat, i: nat)
    requires WorldInv(cfg, w) && u in w.agenda && w.agenda[u] == Local(j, e, due) && j < cfg.n && i < cfg.n
    requires Sized(cfg, w) && LateAfterCut(cfg, w.h, i) && cfg.stop <= w.now && !StopPending(cfg, w, i)
    requires SameBallots(w.h, EventHistory(cfg, w.h, j, w.servers[j], e, w.now))
    ensures LateAfterCut(cfg, EventHistory(cfg, w.h, j, w.servers[j], e, w.now), i)
  {
    LiveToken(cfg, w, u);
    EventElsewhere(cfg, w.h, j, w.servers[j], e, w.now);
    LateKept(cfg, w.h, EventHistory(cfg, w.h, j, w.servers[j], e, w.now), i, 0, false, w.now);
  }

  lemma LateFire(cfg: Config, w: World, u: nat, value: nat, i: nat)
    requires cfg.n > 0 && WorldInv(cfg, w) && Enabled(cfg, w, Fire(u, value)) && i < cfg.n && cfg.bounded
    requires LateAfterCut(cfg, w.h, i) && cfg.stop <= w.now && !StopPending(cfg, w, i)
    requires SameBallots(w.h, FireItem(cfg, w, u, value).h)
    ensures LateAfterCut(cfg, FireItem(cfg, w, u, value).h, i)
  {
    hide WorldInv, StopPending, ReceiveRequest, ReceiveMessage, HandleEvent;
    match w.agenda[u]
    case FrameTo(j, f, t) => LateFrame(cfg, w, u, j, f, t, i);
    case Local(j, e, due) => LateEvent(cfg, w, u, j, e, due, i);
    case _ =>
  }

  lemma LateStep(cfg: Config, w: World, step: Step, i: nat)
    requires cfg.n > 0 && WorldInv(cfg, w) && Enabled(cfg, w, step) && i < cfg.n && cfg.bounded
    requires LateAfterCut(cfg, w.h, i) && cfg.stop <= w.now && !StopPending(cfg, w, i)
    ensures LateAfterCut(cfg, Apply(cfg, w, step).h, i)
  {
    StepAppends(cfg, w, step);
    if step.Fire? { LateFire(cfg, w, step.uid, step.value, i); }
  }

  lemma StopFires(cfg: Config, w: World, u: nat, value: nat, i: nat)
    requires cfg.n > 0 && Enabled(cfg, w, Fire(u, value)) && w.agenda[u] == Local(i, StopApplication, cfg.stop)
    ensures StopOk(cfg, Apply(cfg, w, Fire(u, value)), i)
  {
  }

  lemma StopStep(cfg: Config, w: World, step: Step, i: nat)
    requires cfg.n > 0 && WorldInv(cfg, w) && Enabled(cfg, w, step) && i < cfg.n && StopOk(cfg, w, i)
    ensures StopOk(cfg, Apply(cfg, w, step), i)
  {
    if StopPending(cfg, w, i) {
      var u :| u in w.agenda && w.agenda[u] == Local(i, StopApplication, cfg.stop);
      if step.Fire? && step.uid == u { StopFires(cfg, w, u, step.value, i); } else { ItemStays(cfg, w, step, u); }
    } else {
      TimeGrows(cfg, w, step);
      if cfg.bounded { LateStep(cfg, w, step, i); }
    }
  }

  lemma TimeGrows(cfg: Config, w: World, step: Step)
    requires cfg.n > 0 && Enabled(cfg, w, step)
    ensures w.now <= Apply(cfg, w, step).now
  {
  }

  // ---------- Rounds ----------

  ghost predicate FiresTimer(w: World, step: Step, i: nat) {
    step.Fire? && step.uid in w.agenda && w.agenda[step.uid].Local? && w.agenda[step.uid].server == i
    && w.agenda[step.uid].event == SyncPropose
  }

  ghost predicate TimerArmed(cfg: Config, w: World, i: nat)
    requires i < |w.h.rounds|
  {
    exists u :: u in w.agenda && w.agenda[u] == Local(i, SyncPropose, cfg.TurnStart(i, w.h.rounds[i]))
  }

  /** A synchronous server has had its last turn, and its next one is armed or comes too late. */
  ghost predicate RoundOk(cfg: Config, w: World, i: nat) {
    && i < |w.h.rounds| && cfg.start <= w.now
    && (w.h.rounds[i] > 0 ==> cfg.TurnStart(i, w.h.rounds[i] - 1) <= w.now)
    && (TimerArmed(cfg, w, i) || cfg.stop <= cfg.TurnStart(i, w.h.rounds[i]))
  }

  lemma MessageRounds(cfg: Config, h: History, i: nat, v: Server, f: Frame, now: nat)
    requires i < cfg.n && i < |h.recorded| && i < |h.issued| && i < |h.rounds|
    ensures MessageHistory(cfg, h, i, v, f, now).rounds == h.rounds
  {
    AcceptRounds(cfg, h, i, v, f, now);
    AckRounds(cfg, h, i, v, f, now);
  }

  lemma AcceptRounds(cfg: Config, h: History, i: nat, v: Server, f: Frame, now: nat)
    requires i < cfg.n && i < |h.recorded|
    ensures AcceptHistory(cfg, h, i, v, f, now).rounds == h.rounds
  {
  }

  lemma AckRounds(cfg: Config, h: History, i: nat, v: Server, f: Frame, now: nat)
    requires i < cfg.n && i < |h.recorded| && i < |h.issued| && i < |h.rounds|
    ensures DecisionAckHistory(cfg, h, i, v, f, now).rounds == h.rounds
  {
  }

  /** Only its own timer moves a server's rounds. */
  lemma RoundsElsewhere(cfg: Config, w: World, step: Step, i: nat)
    requires cfg.n > 0 && Enabled(cfg, w, step) && i < cfg.n && !FiresTimer(w, step, i)
    ensures i < |Apply(cfg, w, step).h.rounds| && Apply(cfg, w, step).h.rounds[i] == w.h.rounds[i]
  {
    match step
    case Fire(u, _) => {
      match w.agenda[u]
      case FrameTo(j, f, _) => MessageRounds(cfg, w.h, j, w.servers[j], f, w.now);
      case Local(j, e, _) => EventElsewhere(cfg, w.h, j, w.servers[j], e, w.now);
      case _ =>
    }
    case _ =>
  }

  /** The next timer is the last thing a round leaves on the agenda. */
  lemma TimerReset(cfg: Config, w: World, u: nat, i: nat, h: History)
    requires Sized(cfg, w) && i < cfg.n && w.now < cfg.stop
    ensures var w' := Commit(w, u, i, DoSyncPropose(cfg, i, w.servers[i], w.now), h);
      exists x :: x in w'.agenda && w'.agenda[x] == Local(i, SyncPropose, w.now + cfg.Period())
  {
    var e := DoSyncPropose(cfg, i, w.servers[i], w.now);
    var w' := Commit(w, u, i, e, h);
    var x := w.nextUid + |e.outputs| - 1;
    PostedItem(w.agenda - {u}, w.nextUid, ItemsOf(i, w.now, e.outputs), x);
    assert w'.agenda[x] == ItemOf(i, w.now, e.outputs[|e.outputs| - 1]);
  }

  lemma RoundNoted(cfg: Config, w: World, u: nat, value: nat, i: nat)
    requires cfg.n > 0 && Enabled(cfg, w, Fire(u, value)) && i < cfg.n && w.agenda[u] == Local(i, SyncPropose, w.now)
    ensures var w' := Apply(cfg, w, Fire(u, value));
      && w' == Commit(w, u, i, DoSyncPropose(cfg, i, w.servers[i], w.now), w'.h) && i < |w'.h.rounds|
      && w'.h.rounds[i] == w.h.rounds[i] + if w.now < cfg.stop then 1 else 0
  {
  }

  lemma RoundFires(cfg: Config, w: World, u: nat, value: nat, i: nat)
    requires cfg.n > 0 && Enabled(cfg, w, Fire(u, value)) && i < cfg.n && RoundOk(cfg, w, i)
    requires w.agenda[u] == Local(i, SyncPropose, w.now) && w.now == cfg.TurnStart(i, w.h.rounds[i])
    ensures RoundOk(cfg, Apply(cfg, w, Fire(u, value)), i)
  {
    RoundNoted(cfg, w, u, value, i);
    if w.now < cfg.stop {
      TimerReset(cfg, w, u, i, Apply(cfg, w, Fire(u, value)).h);
      NextTurn(cfg, i, w.h.rounds[i]);
    }
  }

  lemma TimerDue(cfg: Config, w: World, step: Step, i: nat)
    requires WorldInv(cfg, w) && Enabled(cfg, w, step) && FiresTimer(w, step, i)
    ensures i < cfg.n && w.agenda[step.uid] == Local(i, SyncPropose, w.now) && w.now == cfg.TurnStart(i, w.h.rounds[i])
  {
    LiveToken(cfg, w, step.uid);
  }

  lemma RoundRests(cfg: Config, w: World, step: Step, i: nat)
    requires cfg.n > 0 && WorldInv(cfg, w) && Enabled(cfg, w, step) && i < cfg.n && RoundOk(cfg, w, i)
    requires !FiresTimer(w, step, i)
    ensures RoundOk(cfg, Apply(cfg, w, step), i)
  {
    TimeGrows(cfg, w, step);
    RoundsElsewhere(cfg, w, step, i);
    if TimerArmed(cfg, w, i) {
      var u :| u in w.agenda && w.agenda[u] == Local(i, SyncPropose, cfg.TurnStart(i, w.h.rounds[i]));
      ItemStays(cfg, w, step, u);
    }
  }

  lemma RoundStep(cfg: Config, w: World, step: Step, i: nat)
    requires cfg.n > 0 && WorldInv(cfg, w) && Enabled(cfg, w, step) && i < cfg.n && RoundOk(cfg, w, i)
    ensures RoundOk(cfg, Apply(cfg, w, step), i)
  {
    if FiresTimer(w, step, i) {
      TimerDue(cfg, w, step, i);
      RoundFires(cfg, w, step.uid, step.value, i);
    } else {
      RoundRests(cfg, w, step, i);
    }
  }

  // ---------- Places in the queue ----------

  ghost predicate WaitsAt(w: World, i: nat, id: nat, turn: nat, k: nat)
    requires i < |w.servers| && i < |w.h.rounds|
  {
    k < |w.servers[i].waiting| && w.servers[i].waiting[k].id == id && w.h.rounds[i] + k == turn
  }

  ghost predicate HadTurn(w: World, i: nat, id: nat, turn: nat) {
    id in w.h.ballots && w.h.ballots[id].proposer == i && w.h.ballots[id].round == turn
  }

  /** The proposal has had this turn of its server, or its place in the queue gives it this turn. */
  ghost predicate Queued(w: World, i: nat, id: nat, turn: nat) {
    i < |w.servers| && i < |w.h.rounds| && (HadTurn(w, i, id, turn) || exists k :: WaitsAt(w, i, id, turn, k))
  }

  lemma MessageWaiting(cfg: Config, i: nat, v: Server, f: Frame, now: nat)
    requires i < cfg.n && !cfg.async
    ensures ReceiveMessage(cfg, i, v, f, now).server.waiting == v.waiting
  {
  }

  lemma EventWaiting(cfg: Config, i: nat, v: Server, e: Event, now: nat)
    requires i < cfg.n && e != SyncPropose && e != AsyncPropose
    ensures v.waiting <= HandleEvent(cfg, i, v, e, now).server.waiting
  {
  }

  /** In synchronous mode only its own timer takes anything off a server's queue. */
  lemma WaitingElsewhere(cfg: Config, w: World, step: Step, i: nat)
    requires cfg.n > 0 && Enabled(cfg, w, step) && i < cfg.n && !FiresTimer(w, step, i) && !cfg.async
    requires step.Fire? && w.agenda[step.uid].Local? ==> w.agenda[step.uid].event != AsyncPropose
    ensures i < |Apply(cfg, w, step).servers| && w.servers[i].waiting <= Apply(cfg, w, step).servers[i].waiting
  {
    match step
    case Fire(u, _) => {
      match w.agenda[u]
      case FrameTo(j, f, _) => MessageWaiting(cfg, j, w.servers[j], f, w.now);
      case Local(j, e, _) => if i == j { EventWaiting(cfg, j, w.servers[j], e, w.now); }
      case _ =>
    }
    case _ =>
  }

  lemma TurnTaken(cfg: Config, w: World, u: nat, value: nat, i: nat, id: nat, turn: nat, k: nat)
    requires cfg.n > 0 && Enabled(cfg, w, Fire(u, value)) && i < cfg.n && WaitsAt(w, i, id, turn, k)
    requires w.agenda[u] == Local(i, SyncPropose, w.now)
    ensures var w' := Apply(cfg, w, Fire(u, value));
      && i < |w'.servers| && i < |w'.h.rounds|
      && (w.now < cfg.stop && k == 0 ==> HadTurn(w', i, id, turn))
      && (w.now < cfg.stop && k > 0 ==> WaitsAt(w', i, id, turn, k - 1))
      && (w.now >= cfg.stop ==> WaitsAt(w', i, id, turn, k))
  {
  }

  lemma QueueStep(cfg: Config, w: World, step: Step, i: nat, id: nat, turn: nat)
    requires cfg.n > 0 && WorldInv(cfg, w) && Enabled(cfg, w, step) && i < cfg.n && !cfg.async && Queued(w, i, id, turn)
    ensures Queued(Apply(cfg, w, step), i, id, turn)
  {
    StepKeeps(cfg, w, step);
    StepAppends(cfg, w, step);
    if !HadTurn(w, i, id, turn) {
      var k :| WaitsAt(w, i, id, turn, k);
      WaitStep(cfg, w, step, i, id, turn, k);
    }
  }

  lemma WaitStep(cfg: Config, w: World, step: Step, i: nat, id: nat, turn: nat, k: nat)
    requires cfg.n > 0 && WorldInv(cfg, w) && Enabled(cfg, w, step) && i < cfg.n && !cfg.async
    requires WaitsAt(w, i, id, turn, k)
    ensures Queued(Apply(cfg, w, step), i, id, turn)
  {
    if step.Fire? { LiveToken(cfg, w, step.uid); }
    if FiresTimer(w, step, i) {
      TurnTaken(cfg, w, step.uid, step.value, i, id, turn, k);
    } else {
      RoundsElsewhere(cfg, w, step, i);
      WaitingElsewhere(cfg, w, step, i);
      assert WaitsAt(Apply(cfg, w, step), i, id, turn, k);
    }
  }

  // ---------- Whole runs ----------

  ghost predicate Scheduled(cfg: Config, w: World) {
    forall i :: 0 <= i < cfg.n ==> StopOk(cfg, w, i) && (!cfg.async ==> RoundOk(cfg, w, i))
  }

  lemma InitialStop(cfg: Config, last: nat, i: nat)
    requires cfg.Valid() && i < cfg.n
    ensures StopOk(cfg, InitialWorld(cfg, last), i)
  {
    var u := 1 + |FirstProposals(cfg)| + i;
    assert InitialItems(cfg)[u] == Local(i, StopApplication, cfg.stop);
    PostedItem(map[], 0, InitialItems(cfg), u);
  }

  lemma InitialRound(cfg: Config, last: nat, i: nat)
    requires cfg.Valid() && i < cfg.n && !cfg.async
    ensures RoundOk(cfg, InitialWorld(cfg, last), i)
  {
    assert InitialItems(cfg)[1 + i] == Local(i, SyncPropose, cfg.TurnStart(i, 0));
    PostedItem(map[], 0, InitialItems(cfg), 1 + i);
  }

  lemma {:induction false} RunScheduled(cfg: Config, w: World, steps: seq<Step>)
    requires cfg.n > 0 && WorldInv(cfg, w) && Legal(cfg, w, steps) && Scheduled(cfg, w)
    ensures Scheduled(cfg, Exec(cfg, w, steps))
    decreases |steps|
  {
    if steps != [] {
      var w' := Apply(cfg, w, steps[0]);
      StepKeeps(cfg, w, steps[0]);
      forall i | 0 <= i < cfg.n ensures StopOk(cfg, w', i) && (!cfg.async ==> RoundOk(cfg, w', i)) {
        StopStep(cfg, w, steps[0], i);
        if !cfg.async { RoundStep(cfg, w, steps[0], i); }
      }
      RunScheduled(cfg, w', steps[1..]);
    }
  }

  /** In every reachable world a server's stop event still waits or its stop time has come and, on a
      bounded network, everything recorded since was late; and every synchronous server's next turn
      is armed or comes too late. */
  lemma ReachableScheduled(cfg: Config, w: World)
    requires Reached(cfg, w)
    ensures Scheduled(cfg, w)
  {
    var last: nat, steps: seq<Step> :|
      last < WIDTH && Legal(cfg, InitialWorld(cfg, last), steps) && w == Exec(cfg, InitialWorld(cfg, last), steps);
    var w0 := InitialWorld(cfg, last);
    InitialHolds(cfg, last);
    forall i | 0 <= i < cfg.n ensures StopOk(cfg, w0, i) && (!cfg.async ==> RoundOk(cfg, w0, i)) {
      InitialStop(cfg, last, i);
      if !cfg.async { InitialRound(cfg, last, i); }
    }
    RunScheduled(cfg, w0, steps);
  }

  /** First come, first served: a proposal that waits at position k when its server has run r rounds
      is broadcast in round r + k, if at all. */
  lemma {:induction false} RunQueued(cfg: Config, w: World, steps: seq<Step>, i: nat, id: nat, turn: nat)
    requires cfg.n > 0 && WorldInv(cfg, w) && Legal(cfg, w, steps) && !cfg.async && i < cfg.n && Queued(w, i, id, turn)
    ensures Queued(Exec(cfg, w, steps), i, id, turn)
    decreases |steps|
  {
    if steps != [] {
      StepKeeps(cfg, w, steps[0]);
      QueueStep(cfg, w, steps[0], i, id, turn);
      RunQueued(cfg, Apply(cfg, w, steps[0]), steps[1..], i, id, turn);
    }
  }
}
