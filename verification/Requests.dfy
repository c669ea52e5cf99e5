/** A request from the moment the client sends it. */
module Requests {
  import opened PaxosData
  import opened DecisionLog
  import opened RoundRobin
  import opened Cluster
  import opened Snapshots
  import opened Invariant
  import opened AgendaInvariant
  import opened Steps
  import opened Runs
  import opened Agreement
  import opened Timing
  import opened Deadlines

  // ---------- Which steps create or turn away ----------

  lemma MessageCreates(cfg: Config, h: History, i: nat, v: Server, f: Frame, now: nat)
    requires i < cfg.n && i < |h.recorded| && i < |h.issued| && i < |h.rounds|
    ensures var h' := MessageHistory(cfg, h, i, v, f, now); h'.created == h.created && h'.rejected == h.rejected
  {
    AcceptCreates(cfg, h, i, v, f, now);
    AckCreates(cfg, h, i, v, f, now);
  }

  lemma AcceptCreates(cfg: Config, h: History, i: nat, v: Server, f: Frame, now: nat)
    requires i < cfg.n && i < |h.recorded|
    ensures var h' := AcceptHistory(cfg, h, i, v, f, now); h'.created == h.created && h'.rejected == h.rejected
  {
  }

  lemma AckCreates(cfg: Config, h: History, i: nat, v: Server, f: Frame, now: nat)
    requires i < cfg.n && i < |h.recorded| && i < |h.issued| && i < |h.rounds|
    ensures var h' := DecisionAckHistory(cfg, h, i, v, f, now); h'.created == h.created && h'.rejected == h.rejected
  {
    hide NoteIssue;
    if f.proposalId in v.proposals {
      var p := v.proposals[f.proposalId].(numDecisionAck := v.proposals[f.proposalId].numDecisionAck + 1);
      var h1 := NoteRecord(NoteDecisionAck(h, f.proposalId, f.proposerId), i, p.(decisionAckTime := now));
      IssueCreates(h1, i, v, now);
    }
  }

  lemma IssueCreates(h: History, i: nat, v: Server, now: nat)
    requires i < |h.issued| && i < |h.rounds|
    ensures var h' := NoteIssue(h, i, v, now); h'.created == h.created && h'.rejected == h.rejected
  {
  }

  lemma EventCreates(cfg: Config, h: History, i: nat, v: Server, e: Event, now: nat)
    requires i < cfg.n && i < |h.recorded| && i < |h.issued| && i < |h.rounds| && i < |h.created| && i < |h.cut|
    requires !e.CreateProposal?
    ensures var h' := EventHistory(cfg, h, i, v, e, now); h'.created == h.created && h'.rejected == h.rejected
  {
  }

  ghost predicate FiresCreation(w: World, step: Step) {
    step.Fire? && step.uid in w.agenda && w.agenda[step.uid].Local? && w.agenda[step.uid].event.CreateProposal?
  }

  /** An asynchronous server that does not lead turns requests away. */
  ghost predicate FiresRefusal(cfg: Config, w: World, step: Step) {
    && cfg.async && step.Fire? && step.uid in w.agenda
    && w.agenda[step.uid].RequestTo? && w.agenda[step.uid].dst != cfg.leader
  }

  lemma Refusal(cfg: Config, w: World, step: Step)
    requires cfg.n > 0 && Enabled(cfg, w, step) && FiresRefusal(cfg, w, step)
    ensures var h := Apply(cfg, w, step).h;
      h.created == w.h.created && h.rejected == w.h.rejected + {w.agenda[step.uid].request.timestamp}
  {
  }

  /** Otherwise a request becomes a proposal, or is turned away, only when its creation is due. */
  lemma OthersCreateNothing(cfg: Config, w: World, step: Step)
    requires cfg.n > 0 && Enabled(cfg, w, step) && !FiresRefusal(cfg, w, step) && !FiresCreation(w, step)
    ensures Apply(cfg, w, step).h.created == w.h.created && Apply(cfg, w, step).h.rejected == w.h.rejected
  {
    match step
    case Fire(u, _) => {
      match w.agenda[u]
      case FrameTo(i, f, _) => MessageCreates(cfg, w.h, i, w.servers[i], f, w.now);
      case Local(i, e, _) => EventCreates(cfg, w.h, i, w.servers[i], e, w.now);
      case _ =>
    }
    case _ =>
  }

  // ---------- Until it joins a queue ----------

  /** Neither turned away nor, yet, a proposal. */
  ghost predicate Unserved(h: History, ts: nat) {
    ts !in h.rejected && forall i :: 0 <= i < |h.created| ==> ts !in h.created[i]
  }

  /** The request is now the last in the queue of the server it was sent to, and in time. */
  ghost predicate JustJoined(cfg: Config, w: World, i: nat, ts: nat) {
    && i < cfg.n && i < |w.servers| && 0 < |w.servers[i].waiting| <= 1001
    && w.servers[i].waiting[|w.servers[i].waiting| - 1].id == ts
    && ts in w.h.requests && w.h.requests[ts].dst == i
    && (cfg.bounded ==> w.now <= ts + cfg.delay + HANDLING_DELAY)
  }

  /** A request joins the end of a queue of at most 1000 as a new proposal, and is turned away by a
      longer one. */
  lemma CreationFires(cfg: Config, w: World, u: nat, value: nat, i: nat, req: Request)
    requires cfg.n > 0 && Enabled(cfg, w, Fire(u, value)) && i < cfg.n
    requires w.agenda[u] == Local(i, CreateProposal(req), w.now)
    ensures var w', v := Apply(cfg, w, Fire(u, value)), w.servers[i];
      var r := Record(req.timestamp, i, i, req.value, req.timestamp, w.now, 0, 0, 0, 0, 0, 0, ToBeProposed);
      && w'.now == w.now && w'.h.requests == w.h.requests && |w'.servers| == |w.servers|
      && if |v.waiting| > 1000
         then w'.h.created == w.h.created && w'.h.rejected == w.h.rejected + {req.timestamp} && w'.servers == w.servers
         else w'.h.created == Append(w.h.created, i, req.timestamp) && w'.h.rejected == w.h.rejected
              && w'.servers == w.servers[i := v.(waiting := v.waiting + [r])]
  {
  }

  lemma CreationFacts(cfg: Config, w: World, u: nat, i: nat, req: Request)
    requires WorldInv(cfg, w) && u in w.agenda && w.agenda[u].Local? && w.agenda[u].server == i
    requires w.agenda[u].event == CreateProposal(req) && w.agenda[u].due == w.now
    ensures i < cfg.n && req.timestamp in w.h.requests && w.h.requests[req.timestamp].dst == i
    ensures cfg.bounded ==> w.now <= req.timestamp + cfg.delay + HANDLING_DELAY
  {
    LiveToken(cfg, w, u);
  }

  /** One step leaves a request unserved, turns it away or lets it join its queue. */
  lemma ServeStep(cfg: Config, w: World, step: Step, ts: nat) returns (i: nat)
    requires cfg.n > 0 && WorldInv(cfg, w) && Enabled(cfg, w, step) && Unserved(w.h, ts)
    ensures var w' := Apply(cfg, w, step); Unserved(w'.h, ts) || ts in w'.h.rejected || JustJoined(cfg, w', i, ts)
  {
    hide WorldInv;
    i := 0;
    if FiresCreation(w, step) {
      var it := w.agenda[step.uid];
      i := it.server;
      CreationFacts(cfg, w, step.uid, i, it.event.request);
      CreationFires(cfg, w, step.uid, step.value, i, it.event.request);
    } else if FiresRefusal(cfg, w, step) {
      Refusal(cfg, w, step);
    } else {
      OthersCreateNothing(cfg, w, step);
    }
  }

  lemma RejectedGrows(cfg: Config, w: World, step: Step)
    requires cfg.n > 0 && WorldInv(cfg, w) && Enabled(cfg, w, step)
    ensures w.h.rejected <= Apply(cfg, w, step).h.rejected
  {
    hide WorldInv;
    if FiresCreation(w, step) {
      var it := w.agenda[step.uid];
      CreationFacts(cfg, w, step.uid, it.server, it.event.request);
      CreationFires(cfg, w, step.uid, step.value, it.server, it.event.request);
    } else if FiresRefusal(cfg, w, step) {
      Refusal(cfg, w, step);
    } else {
      OthersCreateNothing(cfg, w, step);
    }
  }

  lemma {:induction false} RejectedForGood(cfg: Config, w: World, steps: seq<Step>)
    requires cfg.n > 0 && WorldInv(cfg, w) && Legal(cfg, w, steps)
    ensures w.h.rejected <= Exec(cfg, w, steps).h.rejected
    decreases |steps|
  {
    if steps != [] {
      StepKeeps(cfg, w, steps[0]);
      RejectedGrows(cfg, w, steps[0]);
      RejectedForGood(cfg, Apply(cfg, w, steps[0]), steps[1..]);
    }
  }

  /** A run leaves a request unserved, or turns it away, or passes the world in which it joins its
      queue. */
  lemma {:induction false} Joins(cfg: Config, w: World, steps: seq<Step>, ts: nat)
    returns (i: nat, v: World, after: seq<Step>)
    requires cfg.n > 0 && WorldInv(cfg, w) && Legal(cfg, w, steps) && Unserved(w.h, ts)
    requires Reached(cfg, w)
    ensures Reached(cfg, v) && Legal(cfg, v, after) && Exec(cfg, v, after) == Exec(cfg, w, steps)
    ensures Unserved(Exec(cfg, w, steps).h, ts) || ts in Exec(cfg, w, steps).h.rejected || JustJoined(cfg, v, i, ts)
    decreases |steps|
  {
    i, v, after := 0, w, steps;
    if steps != [] {
      var w' := Apply(cfg, w, steps[0]);
      StepKeeps(cfg, w, steps[0]);
      i := ServeStep(cfg, w, steps[0], ts);
      Next(cfg, w, steps[0], w');
      v, after := w', steps[1..];
      if ts in w'.h.rejected {
        RejectedForGood(cfg, w', steps[1..]);
      } else if Unserved(w'.h, ts) {
        i, v, after := Joins(cfg, w', steps[1..], ts);
      }
    }
  }

  // ---------- On a network that loses nothing ----------

  lemma StillTravelling(cfg: Config, w: World, ts: nat) returns (u: nat)
    requires Reached(cfg, w) && cfg.lossless && ts in w.h.requests && Unserved(w.h, ts)
    ensures u in w.agenda && TokenOf(w.agenda[u]) == Token(AtRequest, ts, 0)
  {
    hide Safe, Settled, ItemsOk, OneToken, DecidedInTime;
    ReachableHolds(cfg, w);
    RequestHolds(cfg, View(w), ts);
    assert Routed(cfg, View(w), ts);
    u :| u in w.agenda && TokenOf(w.agenda[u]) == Token(AtRequest, ts, 0);
  }

  lemma RequestHolds(cfg: Config, s: Snapshot, ts: nat)
    requires Safe(cfg, s) && ts in s.h.requests
    ensures Shape(cfg, s) && RequestOk(cfg, s, ts)
  {
  }

  /** A request on its way is in time. */
  lemma RequestDeadline(cfg: Config, w: World, u: nat, ts: nat)
    requires Reached(cfg, w) && cfg.bounded && u in w.agenda && TokenOf(w.agenda[u]) == Token(AtRequest, ts, 0)
    ensures w.now <= ts + cfg.delay + HANDLING_DELAY
  {
    ItemHolds(cfg, w, u);
  }

  lemma ServedInTime(cfg: Config, w: World, ts: nat)
    requires Reached(cfg, w) && cfg.lossless && cfg.bounded && ts in w.h.requests && Unserved(w.h, ts)
    ensures w.now <= ts + cfg.delay + HANDLING_DELAY
  {
    var u := StillTravelling(cfg, w, ts);
    RequestDeadline(cfg, w, u, ts);
  }

  /** A proposal stays the proposal of the server the request was sent to. */
  lemma JoinedHere(cfg: Config, v: World, after: seq<Step>, i: nat, ts: nat)
    requires Reached(cfg, v) && Legal(cfg, v, after) && JustJoined(cfg, v, i, ts) && Reached(cfg, Exec(cfg, v, after))
    ensures ts in Exec(cfg, v, after).h.requests && Exec(cfg, v, after).h.requests[ts].dst == i
  {
    var q := |v.h.issued[i]| + |v.servers[i].waiting| - 1;
    QueueHolds(cfg, v, i);
    assert v.h.created[i][q] == ts;
    CreatedForGood(cfg, v, after, i);
    assert Exec(cfg, v, after).h.created[i][q] == ts;
    CreationHolds(cfg, Exec(cfg, v, after), i, ts);
  }

  lemma CreatedForGood(cfg: Config, v: World, after: seq<Step>, i: nat)
    requires Reached(cfg, v) && Legal(cfg, v, after) && i < cfg.n
    ensures i < |v.h.created| && i < |Exec(cfg, v, after).h.created|
    ensures v.h.created[i] <= Exec(cfg, v, after).h.created[i]
  {
    hide WorldInv;
    ReachableHolds(cfg, v);
    RunAppends(cfg, v, after);
  }

  lemma CreationHolds(cfg: Config, w: World, i: nat, id: nat)
    requires Reached(cfg, w) && i < cfg.n && id in w.h.created[i]
    ensures CreatedBy(cfg, w.h, i, id)
  {
    ServerFacts(cfg, w, i);
  }

  /** On a bounded lossless cluster, in either mode, a request that is not turned away joins the end
      of its server's queue within D + 10 ns. */
  lemma JoinsInTime(cfg: Config, w: World, ts: nat) returns (i: nat, v: World, after: seq<Step>)
    requires Reached(cfg, w) && cfg.lossless && cfg.bounded && ts in w.h.requests && ts !in w.h.rejected
    requires w.now > ts + cfg.delay + HANDLING_DELAY
    ensures Reached(cfg, v) && Legal(cfg, v, after) && Exec(cfg, v, after) == w && JustJoined(cfg, v, i, ts)
    ensures i == w.h.requests[ts].dst
  {
    var last: nat, steps: seq<Step> :|
      last < WIDTH && Legal(cfg, InitialWorld(cfg, last), steps) && w == Exec(cfg, InitialWorld(cfg, last), steps);
    var w0 := InitialWorld(cfg, last);
    InitialHolds(cfg, last);
    StartsHere(cfg, last);
    hide WorldInv, Reached, JustJoined;
    i, v, after := Joins(cfg, w0, steps, ts);
    if Unserved(w.h, ts) { ServedInTime(cfg, w, ts); }
    JoinedHere(cfg, v, after, i, ts);
  }

  /** End to end, from the client's send: in synchronous mode a request whose place in the queue it
      joins is q is on every server q + 1 periods and 3D + 10 ns later, unless the stop comes before
      its turn. */
  lemma RequestServed(cfg: Config, w: World, ts: nat) returns (i: nat, v: World, after: seq<Step>)
    requires Timely(cfg, w) && !cfg.async && ts in w.h.requests && ts !in w.h.rejected
    requires w.now > ts + cfg.delay + HANDLING_DELAY
    ensures Reached(cfg, v) && Legal(cfg, v, after) && Exec(cfg, v, after) == w && JustJoined(cfg, v, i, ts)
    ensures i == w.h.requests[ts].dst
    ensures var turn := ts + cfg.delay + HANDLING_DELAY + |v.servers[i].waiting| * cfg.Period();
      turn < cfg.stop && turn + 3 * cfg.delay + HANDLING_DELAY < w.now ==>
        forall a :: 0 <= a < cfg.n ==> ts in Ids(w.h.recorded[a])
  {
    i, v, after := JoinsInTime(cfg, w, ts);
    hide Reached, JustJoined;
    var turn := ts + cfg.delay + HANDLING_DELAY + |v.servers[i].waiting| * cfg.Period();
    if turn < cfg.stop && turn + 3 * cfg.delay + HANDLING_DELAY < w.now {
      forall a | 0 <= a < cfg.n ensures ts in Ids(w.h.recorded[a]) { JoinedIsServed(cfg, v, after, i, ts, a); }
    }
  }

  lemma JoinedIsServed(cfg: Config, v: World, after: seq<Step>, i: nat, ts: nat, a: nat)
    requires Timely(cfg, v) && !cfg.async && Legal(cfg, v, after) && JustJoined(cfg, v, i, ts) && a < cfg.n
    requires var turn := ts + cfg.delay + HANDLING_DELAY + |v.servers[i].waiting| * cfg.Period();
      turn < cfg.stop && turn + 3 * cfg.delay + HANDLING_DELAY < Exec(cfg, v, after).now
    ensures a < |Exec(cfg, v, after).h.recorded| && ts in Ids(Exec(cfg, v, after).h.recorded[a])
  {
    hide Reached;
    RequestLatency(cfg, v, after, i, |v.servers[i].waiting| - 1, ts, a);
  }
}
