/** How long a proposal takes in asynchronous mode, where the leader has one in flight at a time. */
module LeaderTurns {
  import opened PaxosData
  import opened DecisionLog
  import opened RoundRobin
  import opened Handlers
  import opened Cluster
  import opened AgendaInvariant
  import opened Steps
  import opened Runs
  import opened Agreement
  import opened Timing
  import opened Progress
  import opened Requests

  /** The longest the leader needs from one broadcast to the next. */
  function Exchange(cfg: Config): nat { 4 * cfg.delay + HANDLING_DELAY }

  predicate Poll(it: Item) { it.Local? && it.event == AsyncPropose }

  // ---------- Polls ----------

  ghost predicate PollsSoon(w: World) {
    forall u :: u in w.agenda && Poll(w.agenda[u]) ==> w.agenda[u].due <= w.now + POLL_DELAY
  }

  lemma MessagePolls(cfg: Config, i: nat, v: Server, f: Frame, now: nat)
    requires i < cfg.n
    ensures forall o :: o in ReceiveMessage(cfg, i, v, f, now).outputs && o.Schedule? && o.event == AsyncPropose ==>
              o.delay == POLL_DELAY
  {
  }

  lemma EventPolls(cfg: Config, i: nat, v: Server, e: Event, now: nat)
    requires i < cfg.n
    ensures forall o :: o in HandleEvent(cfg, i, v, e, now).outputs && o.Schedule? && o.event == AsyncPropose ==>
              o.delay == POLL_DELAY
  {
  }

  lemma CommitPolls(w: World, u: nat, i: nat, e: Effect, h: History)
    requires i < |w.servers| && PollsSoon(w)
    requires forall o :: o in e.outputs && o.Schedule? && o.event == AsyncPropose ==> o.delay == POLL_DELAY
    ensures PollsSoon(Commit(w, u, i, e, h))
  {
    var w' := Commit(w, u, i, e, h);
    forall x | x in w'.agenda && Poll(w'.agenda[x]) ensures w'.agenda[x].due <= w'.now + POLL_DELAY {
      PostedItem(w.agenda - {u}, w.nextUid, ItemsOf(i, w.now, e.outputs), x);
      if w.nextUid <= x < w.nextUid + |e.outputs| { assert e.outputs[x - w.nextUid] in e.outputs; }
    }
  }

  lemma PollsStep(cfg: Config, w: World, step: Step)
    requires cfg.n > 0 && Enabled(cfg, w, step) && PollsSoon(w)
    ensures PollsSoon(Apply(cfg, w, step))
  {
    hide ReceiveMessage, HandleEvent, MessageHistory, EventHistory;
    match step
    case Fire(u, value) => {
      match w.agenda[u]
      case RequestTo(i, req, _) =>
        CommitPolls(w, u, i, ReceiveRequest(cfg, i, w.servers[i], req), RequestHistory(cfg, w.h, i, req));
      case FrameTo(i, f, _) =>
        MessagePolls(cfg, i, w.servers[i], f, w.now);
        CommitPolls(w, u, i, ReceiveMessage(cfg, i, w.servers[i], f, w.now),
                    MessageHistory(cfg, w.h, i, w.servers[i], f, w.now));
      case Local(i, e, _) =>
        EventPolls(cfg, i, w.servers[i], e, w.now);
        CommitPolls(w, u, i, HandleEvent(cfg, i, w.servers[i], e, w.now),
                    EventHistory(cfg, w.h, i, w.servers[i], e, w.now));
      case ClientSend(_) => ClientPolls(cfg, w, u, value);
    }
    case _ =>
  }

  lemma ClientPolls(cfg: Config, w: World, u: nat, value: nat)
    requires cfg.n > 0 && PollsSoon(w)
    ensures PollsSoon(FireClient(cfg, w, u, value))
  {
  }

  lemma {:induction false} RunPolls(cfg: Config, w: World, steps: seq<Step>)
    requires cfg.n > 0 && Legal(cfg, w, steps) && PollsSoon(w)
    ensures PollsSoon(Exec(cfg, w, steps))
    decreases |steps|
  {
    if steps != [] {
      PollsStep(cfg, w, steps[0]);
      RunPolls(cfg, Apply(cfg, w, steps[0]), steps[1..]);
    }
  }

  lemma ReachablePolls(cfg: Config, w: World)
    requires Reached(cfg, w)
    ensures PollsSoon(w)
  {
    var last: nat, steps: seq<Step> :|
      last < WIDTH && Legal(cfg, InitialWorld(cfg, last), steps) && w == Exec(cfg, InitialWorld(cfg, last), steps);
    var w0 := InitialWorld(cfg, last);
    forall u | u in w0.agenda && Poll(w0.agenda[u]) ensures w0.agenda[u].due <= w0.now + POLL_DELAY {
      PostedItem(map[], 0, InitialItems(cfg), u);
      InitialItem(cfg, u);
    }
    RunPolls(cfg, w0, steps);
  }

  // ---------- When the leader is free ----------

  ghost predicate FlightEnds(cfg: Config, w: World, id: nat, s: nat) {
    && cfg.leader < |w.servers| && id in w.servers[cfg.leader].proposals
    && id in w.h.ballots && w.h.ballots[id].proposeTime + Exchange(cfg) <= s
  }

  /** By this time the leader's exchange has ended or its poll has come. */
  ghost predicate FreeBy(cfg: Config, w: World, s: nat) {
    || (exists id :: FlightEnds(cfg, w, id, s))
    || (exists u :: u in w.agenda && Poll(w.agenda[u]) && w.agenda[u].due <= s)
  }

  lemma NotRecordedYet(cfg: Config, w: World, id: nat)
    requires Reached(cfg, w) && cfg.async && id in w.servers[cfg.leader].proposals
    ensures id !in Ids(w.h.recorded[cfg.leader])
  {
    ServerFacts(cfg, w, cfg.leader);
  }

  /** That time has not passed. */
  lemma NotFreeYet(cfg: Config, w: World, s: nat)
    requires Timely(cfg, w) && cfg.async && FreeBy(cfg, w, s)
    ensures w.now <= s
  {
    if id :| FlightEnds(cfg, w, id, s) {
      NotRecordedYet(cfg, w, id);
      if w.now > s { LeaderLatency(cfg, w, id); }
    } else {
      var u :| u in w.agenda && Poll(w.agenda[u]) && w.agenda[u].due <= s;
      ItemHolds(cfg, w, u);
    }
  }

  /** How long that is at most. */
  function Wait(cfg: Config, v: Server): nat { if v.proposals == map[] then POLL_DELAY else Exchange(cfg) }

  lemma FlightSent(cfg: Config, w: World, id: nat)
    requires Reached(cfg, w) && cfg.async && id in w.servers[cfg.leader].proposals
    ensures id in w.h.ballots && w.h.ballots[id].proposeTime <= w.now
  {
    FlightHolds(cfg, w, cfg.leader, id);
    BallotHolds(cfg, w, id);
  }

  lemma FreeSoon(cfg: Config, w: World)
    requires Reached(cfg, w) && cfg.async && w.now < cfg.stop
    ensures FreeBy(cfg, w, w.now + Wait(cfg, w.servers[cfg.leader]))
  {
    if id :| id in w.servers[cfg.leader].proposals {
      FlightSent(cfg, w, id);
      assert FlightEnds(cfg, w, id, w.now + Exchange(cfg));
    } else {
      assert w.servers[cfg.leader].proposals == map[];
      var u := SomePoll(cfg, w);
      ReachablePolls(cfg, w);
    }
  }

  lemma SomePoll(cfg: Config, w: World) returns (u: nat)
    requires Reached(cfg, w) && cfg.async && w.now < cfg.stop && w.servers[cfg.leader].proposals == map[]
    ensures u in w.agenda && Poll(w.agenda[u])
  {
    SingleFlight(cfg, w);
    assert Polls(w) != {};
    u :| u in Polls(w);
  }

  // ---------- One step ----------

  ghost predicate Rests(v: Server, v': Server) {
    v'.proposals.Keys == v.proposals.Keys && v.waiting <= v'.waiting
  }

  /** The head of the queue is broadcast. */
  ghost predicate Issues(cfg: Config, w: World, w': World) {
    var l := cfg.leader;
    && l < |w.servers| && l < |w'.servers| && w.servers[l].waiting != []
    && var id := w.servers[l].waiting[0].id;
      && w'.servers[l].waiting == w.servers[l].waiting[1..] && id in w'.servers[l].proposals
      && id in w'.h.ballots && w'.h.ballots[id].proposeTime == w.now && w'.now == w.now
  }

  ghost predicate Completes(cfg: Config, v: Server, f: Frame) {
    && f.kind == DECISION_ACK && f.proposalId in v.proposals
    && v.proposals[f.proposalId].numDecisionAck + 1 > cfg.n / 2 && v.proposals[f.proposalId].decisionAckTime == 0
  }

  lemma MessageRests(cfg: Config, i: nat, v: Server, f: Frame, now: nat)
    requires i < cfg.n && cfg.async && !Completes(cfg, v, f)
    ensures Rests(v, ReceiveMessage(cfg, i, v, f, now).server)
  {
  }

  lemma EventRests(cfg: Config, i: nat, v: Server, e: Event, now: nat)
    requires i < cfg.n && e != AsyncPropose && e != SyncPropose
    ensures Rests(v, HandleEvent(cfg, i, v, e, now).server)
  {
  }

  lemma CompletionIssues(cfg: Config, w: World, u: nat, value: nat)
    requires cfg.n > 0 && Enabled(cfg, w, Fire(u, value)) && cfg.async && cfg.leader < cfg.n && w.now < cfg.stop
    requires w.agenda[u].FrameTo? && w.agenda[u].dst == cfg.leader
    requires Completes(cfg, w.servers[cfg.leader], w.agenda[u].frame) && w.servers[cfg.leader].waiting != []
    ensures Issues(cfg, w, FireItem(cfg, w, u, value))
  {
  }

  lemma PollIssues(cfg: Config, w: World, u: nat, value: nat)
    requires cfg.n > 0 && Enabled(cfg, w, Fire(u, value)) && cfg.async && cfg.leader < cfg.n && w.now < cfg.stop
    requires w.agenda[u] == Local(cfg.leader, AsyncPropose, w.now) && w.servers[cfg.leader].waiting != []
    ensures Issues(cfg, w, FireItem(cfg, w, u, value))
  {
  }

  lemma FireRests(cfg: Config, w: World, u: nat, value: nat)
    requires cfg.n > 0 && Enabled(cfg, w, Fire(u, value)) && cfg.async && cfg.leader < cfg.n
    requires w.agenda[u].Local? ==> w.agenda[u].event != SyncPropose && w.agenda[u].event != AsyncPropose
    requires w.agenda[u].FrameTo? && w.agenda[u].dst == cfg.leader ==>
               !Completes(cfg, w.servers[cfg.leader], w.agenda[u].frame)
    ensures cfg.leader < |FireItem(cfg, w, u, value).servers|
    ensures Rests(w.servers[cfg.leader], FireItem(cfg, w, u, value).servers[cfg.leader])
  {
    hide ReceiveMessage, HandleEvent, MessageHistory, EventHistory;
    match w.agenda[u]
    case FrameTo(i, f, _) => if i == cfg.leader { MessageRests(cfg, i, w.servers[i], f, w.now); }
    case Local(i, e, _) => if i == cfg.leader { EventRests(cfg, i, w.servers[i], e, w.now); }
    case _ =>
  }

  lemma PollHolds(cfg: Config, w: World, u: nat)
    requires WorldInv(cfg, w) && cfg.async && u in w.agenda && w.agenda[u].Local?
    ensures w.agenda[u].event != SyncPropose && (w.agenda[u].event == AsyncPropose ==> w.agenda[u].server == cfg.leader)
  {
    LiveToken(cfg, w, u);
  }

  /** The leader looks for work: its poll has come or its exchange ends. */
  ghost predicate TakesTurn(cfg: Config, w: World, step: Step) {
    && step.Fire? && step.uid in w.agenda && cfg.leader < |w.servers|
    && (|| Poll(w.agenda[step.uid])
        || (w.agenda[step.uid].FrameTo? && w.agenda[step.uid].dst == cfg.leader
            && Completes(cfg, w.servers[cfg.leader], w.agenda[step.uid].frame)))
  }

  ghost predicate PollsStay(w: World, w': World) {
    forall u :: u in w.agenda && Poll(w.agenda[u]) ==> u in w'.agenda && w'.agenda[u] == w.agenda[u]
  }

  /** Any other step leaves the leader as it is: with the same proposals in flight, at least the same
      queue, and its poll. */
  lemma LeaderRests(cfg: Config, w: World, step: Step)
    requires WorldInv(cfg, w) && cfg.n > 0 && cfg.leader < cfg.n && Enabled(cfg, w, step) && cfg.async
    requires !TakesTurn(cfg, w, step)
    ensures var w' := Apply(cfg, w, step);
      cfg.leader < |w'.servers| && Rests(w.servers[cfg.leader], w'.servers[cfg.leader]) && PollsStay(w, w')
  {
    hide WorldInv, FireItem, Completes, Rests;
    var w' := Apply(cfg, w, step);
    StillRests(w.servers[cfg.leader]);
    if step.Fire? {
      if w.agenda[step.uid].Local? { PollHolds(cfg, w, step.uid); }
      FireRests(cfg, w, step.uid, step.value);
    }
    forall u | u in w.agenda && Poll(w.agenda[u]) ensures u in w'.agenda && w'.agenda[u] == w.agenda[u] {
      ItemStays(cfg, w, step, u);
    }
  }

  /** A turn with work waiting broadcasts the head of the queue. */
  lemma TurnIssues(cfg: Config, w: World, step: Step)
    requires WorldInv(cfg, w) && cfg.n > 0 && cfg.leader < cfg.n && Enabled(cfg, w, step) && cfg.async
    requires w.now < cfg.stop && TakesTurn(cfg, w, step) && w.servers[cfg.leader].waiting != []
    ensures Issues(cfg, w, Apply(cfg, w, step))
  {
    hide WorldInv, FireItem, Completes, Issues;
    if Poll(w.agenda[step.uid]) {
      PollHolds(cfg, w, step.uid);
      PollIssues(cfg, w, step.uid, step.value);
    } else {
      CompletionIssues(cfg, w, step.uid, step.value);
    }
  }

  lemma StillRests(v: Server)
    ensures Rests(v, v)
  {
  }

  // ---------- In line ----------

  ghost predicate Place(cfg: Config, w: World, id: nat, k: nat, s: nat) {
    && cfg.leader < |w.servers| && k < |w.servers[cfg.leader].waiting| && w.servers[cfg.leader].waiting[k].id == id
    && FreeBy(cfg, w, s)
  }

  ghost predicate Broadcasted(cfg: Config, h: History, id: nat, t: nat) {
    id in h.ballots && h.ballots[id].proposeTime + Exchange(cfg) <= t
  }

  /** The proposal has been broadcast, or its place in the queue is such, that its exchange ends by
      this time. */
  ghost predicate InLine(cfg: Config, w: World, id: nat, t: nat) {
    Broadcasted(cfg, w.h, id, t) || exists k: nat, s: nat :: Place(cfg, w, id, k, s) && LineEnd(cfg, s, k) <= t
  }

  /** When the last of k + 1 exchanges has ended. */
  function LineEnd(cfg: Config, s: nat, k: nat): nat { s + (k + 1) * Exchange(cfg) }

  lemma LineNext(cfg: Config, s: nat, k: nat)
    ensures LineEnd(cfg, s, k) == s + k * Exchange(cfg) + Exchange(cfg)
    ensures k > 0 ==> LineEnd(cfg, s + Exchange(cfg), k - 1) == LineEnd(cfg, s, k)
  {
  }

  lemma LineOpen(cfg: Config, s: nat, k: nat)
    requires LineEnd(cfg, s, k) < cfg.stop + Exchange(cfg)
    ensures s < cfg.stop
  {
    LineNext(cfg, s, k);
  }

  lemma LineEarlier(cfg: Config, r: nat, s: nat, k: nat)
    requires r <= s
    ensures LineEnd(cfg, r, k) <= LineEnd(cfg, s, k)
  {
  }

  lemma MovesUp(cfg: Config, w: World, w': World, id: nat, t: nat, k: nat, s: nat)
    requires Place(cfg, w, id, k, s) && LineEnd(cfg, s, k) <= t && w.now <= s && Issues(cfg, w, w')
    ensures InLine(cfg, w', id, t)
  {
    var head := w.servers[cfg.leader].waiting[0].id;
    LineNext(cfg, s, k);
    LineNext(cfg, w.now, k);
    LineEarlier(cfg, w.now, s, k);
    hide LineEnd;
    if k > 0 {
      assert FlightEnds(cfg, w', head, w.now + Exchange(cfg));
      assert Place(cfg, w', id, k - 1, w.now + Exchange(cfg));
    }
  }

  lemma StaysFree(cfg: Config, w: World, w': World, s: nat)
    requires FreeBy(cfg, w, s) && Appends(w.h, w'.h)
    requires cfg.leader < |w.servers| && cfg.leader < |w'.servers|
    requires Rests(w.servers[cfg.leader], w'.servers[cfg.leader]) && PollsStay(w, w')
    ensures FreeBy(cfg, w', s)
  {
    if x :| FlightEnds(cfg, w, x, s) { assert FlightEnds(cfg, w', x, s); }
  }

  lemma SamePlace(v: Server, v': Server, k: nat)
    requires Rests(v, v') && k < |v.waiting|
    ensures k < |v'.waiting| && v'.waiting[k] == v.waiting[k]
  {
  }

  lemma PlaceStep(cfg: Config, w: World, step: Step, id: nat, t: nat, k: nat, s: nat)
    requires WorldInv(cfg, w) && cfg.n > 0 && cfg.leader < cfg.n && cfg.async && Enabled(cfg, w, step)
    requires Place(cfg, w, id, k, s) && LineEnd(cfg, s, k) <= t && w.now <= s && s < cfg.stop
    ensures InLine(cfg, Apply(cfg, w, step), id, t)
  {
    hide WorldInv, Issues, Rests, LineEnd, Appends;
    var w' := Apply(cfg, w, step);
    if TakesTurn(cfg, w, step) {
      TurnIssues(cfg, w, step);
      MovesUp(cfg, w, w', id, t, k, s);
    } else {
      StepAppends(cfg, w, step);
      LeaderRests(cfg, w, step);
      StaysFree(cfg, w, w', s);
      SamePlace(w.servers[cfg.leader], w'.servers[cfg.leader], k);
      assert Place(cfg, w', id, k, s);
    }
  }

  lemma StaysBroadcasted(cfg: Config, h: History, h': History, id: nat, t: nat)
    requires Broadcasted(cfg, h, id, t) && Appends(h, h')
    ensures Broadcasted(cfg, h', id, t)
  {
  }

  lemma LineStep(cfg: Config, w: World, step: Step, id: nat, t: nat)
    requires Timely(cfg, w) && cfg.async && Enabled(cfg, w, step) && InLine(cfg, w, id, t)
    requires t < cfg.stop + Exchange(cfg)
    ensures InLine(cfg, Apply(cfg, w, step), id, t)
  {
    hide WorldInv, LineEnd, Broadcasted, Place, Appends;
    ReachableHolds(cfg, w);
    if Broadcasted(cfg, w.h, id, t) {
      StepAppends(cfg, w, step);
      StaysBroadcasted(cfg, w.h, Apply(cfg, w, step).h, id, t);
    } else {
      var k: nat, s: nat :| Place(cfg, w, id, k, s) && LineEnd(cfg, s, k) <= t;
      PlaceIsFree(cfg, w, id, k, s);
      LineNext(cfg, s, k);
      PlaceStep(cfg, w, step, id, t, k, s);
    }
  }

  lemma PlaceIsFree(cfg: Config, w: World, id: nat, k: nat, s: nat)
    requires Timely(cfg, w) && cfg.async && Place(cfg, w, id, k, s)
    ensures w.now <= s
  {
    NotFreeYet(cfg, w, s);
  }

  lemma {:induction false} RunInLine(cfg: Config, w: World, steps: seq<Step>, id: nat, t: nat)
    requires Timely(cfg, w) && cfg.async && Legal(cfg, w, steps) && InLine(cfg, w, id, t)
    requires t < cfg.stop + Exchange(cfg)
    ensures InLine(cfg, Exec(cfg, w, steps), id, t)
    decreases |steps|
  {
    hide InLine;
    if steps != [] {
      LineStep(cfg, w, steps[0], id, t);
      Next(cfg, w, steps[0], Apply(cfg, w, steps[0]));
      RunInLine(cfg, Apply(cfg, w, steps[0]), steps[1..], id, t);
    }
  }

  /** Nobody is still in line when the time has passed. */
  lemma LineEnds(cfg: Config, w: World, id: nat, t: nat)
    requires Timely(cfg, w) && cfg.async && InLine(cfg, w, id, t) && t < w.now
    ensures Broadcasted(cfg, w.h, id, t)
  {
    hide Broadcasted, Place, Reached, LineEnd;
    if !Broadcasted(cfg, w.h, id, t) {
      var k: nat, s: nat :| Place(cfg, w, id, k, s) && LineEnd(cfg, s, k) <= t;
      PlaceIsFree(cfg, w, id, k, s);
      LineNext(cfg, s, k);
    }
  }

  /** End to end in asynchronous mode: on a bounded lossless cluster a proposal that waits behind q
      others at the leader is on every server within q + 1 exchanges of 4D + 10 ns, plus one poll if
      the leader is idle and one more exchange if it is not, unless the stop comes before its turn. */
  lemma LeaderServes(cfg: Config, w: World, steps: seq<Step>, q: nat, id: nat, a: nat)
    requires Timely(cfg, w) && cfg.async && Legal(cfg, w, steps) && a < cfg.n
    requires q < |w.servers[cfg.leader].waiting| && w.servers[cfg.leader].waiting[q].id == id
    requires var end := LineEnd(cfg, w.now + Wait(cfg, w.servers[cfg.leader]), q);
      end < cfg.stop + Exchange(cfg) && end < Exec(cfg, w, steps).now
    ensures a < |Exec(cfg, w, steps).h.recorded| && id in Ids(Exec(cfg, w, steps).h.recorded[a])
  {
    hide LineEnd;
    var s := w.now + Wait(cfg, w.servers[cfg.leader]);
    LineOpen(cfg, s, q);
    JoinsLine(cfg, w, q, id, s);
    LineServes(cfg, w, steps, id, LineEnd(cfg, s, q), a);
  }

  lemma LineServes(cfg: Config, w: World, steps: seq<Step>, id: nat, t: nat, a: nat)
    requires Timely(cfg, w) && cfg.async && Legal(cfg, w, steps) && a < cfg.n
    requires InLine(cfg, w, id, t) && t < cfg.stop + Exchange(cfg) && t < Exec(cfg, w, steps).now
    ensures a < |Exec(cfg, w, steps).h.recorded| && id in Ids(Exec(cfg, w, steps).h.recorded[a])
  {
    hide Reached, InLine, Broadcasted;
    RunInLine(cfg, w, steps, id, t);
    ReachedLater(cfg, w, steps);
    LineEnds(cfg, Exec(cfg, w, steps), id, t);
    ExchangeEnds(cfg, Exec(cfg, w, steps), id, t, a);
  }

  lemma JoinsLine(cfg: Config, w: World, q: nat, id: nat, s: nat)
    requires Reached(cfg, w) && cfg.async && w.now < cfg.stop && s == w.now + Wait(cfg, w.servers[cfg.leader])
    requires q < |w.servers[cfg.leader].waiting| && w.servers[cfg.leader].waiting[q].id == id
    ensures InLine(cfg, w, id, LineEnd(cfg, s, q))
  {
    FreeSoon(cfg, w);
    assert Place(cfg, w, id, q, s);
  }

  lemma ExchangeEnds(cfg: Config, w: World, id: nat, t: nat, a: nat)
    requires Timely(cfg, w) && cfg.async && Broadcasted(cfg, w.h, id, t) && t < w.now && a < cfg.n
    ensures a < |w.h.recorded| && id in Ids(w.h.recorded[a])
  {
    if a == cfg.leader {
      LeaderLatency(cfg, w, id);
    } else {
      LeaderProposes(cfg, w, id);
      ClusterLatency(cfg, w, id, a);
    }
  }

  lemma JoinedLeader(cfg: Config, w: World, i: nat, ts: nat)
    requires Reached(cfg, w) && cfg.async && JustJoined(cfg, w, i, ts)
    ensures i == cfg.leader
  {
    QueueHolds(cfg, w, i);
    assert w.h.created[i][|w.h.issued[i]| + |w.servers[i].waiting| - 1] == ts;
    CreationHolds(cfg, w, i, ts);
  }

  /** End to end, from the client's send: in asynchronous mode a request whose place in the leader's
      queue is q is on every server q + 1 exchanges later, plus one poll or one exchange, unless the
      stop comes before its turn. */
  lemma LeaderServesRequest(cfg: Config, w: World, ts: nat) returns (v: World, after: seq<Step>)
    requires Timely(cfg, w) && cfg.async && ts in w.h.requests && ts !in w.h.rejected
    requires w.now > ts + cfg.delay + HANDLING_DELAY
    ensures Reached(cfg, v) && Legal(cfg, v, after) && Exec(cfg, v, after) == w && JustJoined(cfg, v, cfg.leader, ts)
    ensures var l, joined := v.servers[cfg.leader], ts + cfg.delay + HANDLING_DELAY;
      var end := LineEnd(cfg, joined + Wait(cfg, l), |l.waiting| - 1);
      end < cfg.stop + Exchange(cfg) && end < w.now ==>
        forall a :: 0 <= a < cfg.n ==> ts in Ids(w.h.recorded[a])
  {
    var i;
    i, v, after := JoinsInTime(cfg, w, ts);
    JoinedLeader(cfg, v, i, ts);
    hide Reached, LineEnd;
    var l, joined := v.servers[cfg.leader], ts + cfg.delay + HANDLING_DELAY;
    var end := LineEnd(cfg, joined + Wait(cfg, l), |l.waiting| - 1);
    if end < cfg.stop + Exchange(cfg) && end < w.now {
      LineEarlier(cfg, v.now + Wait(cfg, l), joined + Wait(cfg, l), |l.waiting| - 1);
      forall a | 0 <= a < cfg.n ensures ts in Ids(w.h.recorded[a]) {
        LeaderServes(cfg, v, after, |l.waiting| - 1, ts, a);
      }
    }
  }
}
