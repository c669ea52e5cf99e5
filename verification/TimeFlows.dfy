/** Time never stops: at every instant only finitely much can happen. */
module TimeFlows {
  import opened Division
  import opened PaxosData
  import opened Handlers
  import opened Cluster
  import opened Runs
  import opened Progress
  import opened Deadlines
  import opened Timing

  // ---------- What must happen now ----------

  /** How much can still follow from this item at the instant at which it is handled, if packets arrive
      at once. */
  function Rank(n: nat, it: Item): nat {
    match it
    case RequestTo(_, _, _) => 1
    case FrameTo(_, f, _) => FrameRank(n, f.kind)
    case Local(_, e, _) => EventRank(n, e)
    case ClientSend(_) => 2
  }

  function FrameRank(n: nat, kind: nat): nat {
    if kind == ACCEPT then n * (n + 1) + 1
    else if kind == DECISION then n + 1
    else if kind == DECISION_ACK then n
    else 1
  }

  function EventRank(n: nat, e: Event): nat {
    match e
    case SendAccept(_) => n * (n + 1) + 2
    case AsyncPropose => n
    case SyncPropose => n
    case _ => 1
  }

  /** Only what cannot wait for the next nanosecond counts. */
  ghost function Weight(cfg: Config, now: nat, it: Item): nat {
    if InTime(cfg, now + 1, it) then 0 else Rank(cfg.n, it)
  }

  ghost function Sum(cfg: Config, now: nat, items: seq<Item>): nat {
    if items == [] then 0
    else Sum(cfg, now, items[..|items| - 1]) + Weight(cfg, now, items[|items| - 1])
  }

  /** The weight of everything with a number below `next`. */
  ghost function Total(cfg: Config, now: nat, agenda: map<nat, Item>, next: nat): nat {
    if next == 0 then 0
    else Total(cfg, now, agenda, next - 1) + if next - 1 in agenda then Weight(cfg, now, agenda[next - 1]) else 0
  }

  lemma {:induction false} TotalSame(cfg: Config, now: nat, a: map<nat, Item>, b: map<nat, Item>, next: nat)
    requires forall u :: 0 <= u < next ==> (u in a <==> u in b) && (u in a ==> a[u] == b[u])
    ensures Total(cfg, now, a, next) == Total(cfg, now, b, next)
  {
    if next > 0 { TotalSame(cfg, now, a, b, next - 1); }
  }

  lemma {:induction false} TotalLess(cfg: Config, now: nat, agenda: map<nat, Item>, next: nat, u: nat)
    requires u in agenda && u < next
    ensures Total(cfg, now, agenda - {u}, next) + Weight(cfg, now, agenda[u]) == Total(cfg, now, agenda, next)
  {
    if u == next - 1 {
      TotalSame(cfg, now, agenda - {u}, agenda, u);
    } else {
      TotalLess(cfg, now, agenda, next - 1, u);
    }
  }

  lemma {:induction false} TotalPost(cfg: Config, now: nat, agenda: map<nat, Item>, next: nat, items: seq<Item>)
    requires forall u :: u in agenda ==> u < next
    ensures Total(cfg, now, Post(agenda, next, items), next + |items|) ==
            Total(cfg, now, agenda, next) + Sum(cfg, now, items)
    decreases |items|
  {
    var all := Post(agenda, next, items);
    if items == [] {
      TotalSame(cfg, now, all, agenda, next);
    } else {
      var last := |items| - 1;
      TotalPost(cfg, now, agenda, next, items[..last]);
      SamePosts(agenda, next, items);
      TotalSame(cfg, now, all, Post(agenda, next, items[..last]), next + last);
    }
  }

  lemma SamePosts(agenda: map<nat, Item>, next: nat, items: seq<Item>)
    requires items != [] && forall u :: u in agenda ==> u < next
    ensures var a, b, last := Post(agenda, next, items), Post(agenda, next, items[..|items| - 1]), next + |items| - 1;
      && (forall u :: 0 <= u < last ==> (u in a <==> u in b) && (u in a ==> a[u] == b[u]))
      && last in a && a[last] == items[|items| - 1]
  {
    var a, b, last := Post(agenda, next, items), Post(agenda, next, items[..|items| - 1]), next + |items| - 1;
    assert a[last] == Numbered(items, next, last);
    forall u | 0 <= u < last ensures (u in a <==> u in b) && (u in a ==> a[u] == b[u]) {
      if next <= u {
        assert a[u] == Numbered(items, next, u) && b[u] == Numbered(items[..|items| - 1], next, u);
      }
    }
  }

  lemma {:induction false} SumBound(cfg: Config, now: nat, items: seq<Item>, most: nat)
    requires forall k :: 0 <= k < |items| ==> Weight(cfg, now, items[k]) <= most
    ensures Sum(cfg, now, items) <= |items| * most
  {
    if items != [] {
      SumBound(cfg, now, items[..|items| - 1], most);
      assert |items| * most == (|items| - 1) * most + most;
    }
  }

  lemma SumLast(cfg: Config, now: nat, items: seq<Item>, it: Item)
    ensures Sum(cfg, now, items + [it]) == Sum(cfg, now, items) + Weight(cfg, now, it)
  {
    assert (items + [it])[..|items|] == items;
  }

  // ---------- What each handler leaves for now ----------

  /** What is scheduled after a delay can wait. */
  lemma LaterWaits(cfg: Config, i: nat, now: nat, d: nat, e: Event)
    requires d > 0
    ensures Sum(cfg, now, ItemsOf(i, now, [Schedule(d, e)])) == 0
  {
    assert ItemsOf(i, now, [Schedule(d, e)]) == [] + [Local(i, e, now + d)];
    SumLast(cfg, now, [], Local(i, e, now + d));
  }

  lemma NothingLeft(cfg: Config, i: nat, now: nat)
    ensures Sum(cfg, now, ItemsOf(i, now, [])) == 0
  {
  }

  lemma OneSent(cfg: Config, i: nat, now: nat, dst: nat, f: Frame)
    ensures Sum(cfg, now, ItemsOf(i, now, [Send(dst, f)])) <= FrameRank(cfg.n, f.kind)
  {
    assert ItemsOf(i, now, [Send(dst, f)]) == [] + [FrameTo(dst, f, now)];
    SumLast(cfg, now, [], FrameTo(dst, f, now));
  }

  lemma BroadcastSum(cfg: Config, i: nat, now: nat, f: Frame)
    requires i < cfg.n
    ensures Sum(cfg, now, ItemsOf(i, now, Broadcast(cfg.n, i, f))) <= (cfg.n - 1) * FrameRank(cfg.n, f.kind)
  {
    SumBound(cfg, now, ItemsOf(i, now, Broadcast(cfg.n, i, f)), FrameRank(cfg.n, f.kind));
  }

  lemma ProposeSum(cfg: Config, i: nat, v: Server, now: nat)
    requires i < cfg.n
    ensures Sum(cfg, now, ItemsOf(i, now, DoPropose(cfg, i, v, now).outputs)) < cfg.n
  {
    NothingLeft(cfg, i, now);
    if v.waiting != [] { BroadcastSum(cfg, i, now, ProposalFrame(i, Proposed(i, v.waiting[0], now), now)); }
  }

  lemma AsyncSum(cfg: Config, i: nat, v: Server, now: nat)
    requires i < cfg.n
    ensures Sum(cfg, now, ItemsOf(i, now, DoAsyncPropose(cfg, i, v, now).outputs)) < cfg.n
  {
    NothingLeft(cfg, i, now);
    ProposeSum(cfg, i, v, now);
    LaterWaits(cfg, i, now, POLL_DELAY, AsyncPropose);
  }

  lemma ItemsAppend(i: nat, now: nat, outs: seq<Output>, o: Output)
    ensures ItemsOf(i, now, outs + [o]) == ItemsOf(i, now, outs) + [ItemOf(i, now, o)]
  {
  }

  lemma SyncSum(cfg: Config, i: nat, v: Server, now: nat)
    requires i < cfg.n && (cfg.Period() > 0 || cfg.stop <= now)
    ensures Sum(cfg, now, ItemsOf(i, now, DoSyncPropose(cfg, i, v, now).outputs)) < cfg.n
  {
    hide DoPropose, Sum, ItemsOf;
    NothingLeft(cfg, i, now);
    ProposeSum(cfg, i, v, now);
    if now < cfg.stop {
      var first := DoPropose(cfg, i, v, now).outputs;
      var timer := Local(i, SyncPropose, now + cfg.Period());
      ItemsAppend(i, now, first, Schedule(cfg.Period(), SyncPropose));
      SumLast(cfg, now, ItemsOf(i, now, first), timer);
    }
  }

  lemma AcceptSum(cfg: Config, i: nat, v: Server, f: Frame, now: nat)
    requires i < cfg.n
    ensures Sum(cfg, now, ItemsOf(i, now, ReceivedAccept(cfg, i, v, f, now).outputs)) < FrameRank(cfg.n, ACCEPT)
  {
    NothingLeft(cfg, i, now);
    BroadcastSum(cfg, i, now, DecisionFrame(f, now));
    assert (cfg.n - 1) * (cfg.n + 1) <= cfg.n * (cfg.n + 1) by { Monotone(cfg.n - 1, cfg.n, cfg.n + 1); }
  }

  lemma AckSum(cfg: Config, i: nat, v: Server, f: Frame, now: nat)
    requires i < cfg.n
    ensures Sum(cfg, now, ItemsOf(i, now, ReceivedDecisionAck(cfg, i, v, f, now).outputs)) < cfg.n
  {
    NothingLeft(cfg, i, now);
    if cfg.async && f.proposalId in v.proposals {
      var id := f.proposalId;
      var d := v.proposals[id].(numDecisionAck := v.proposals[id].numDecisionAck + 1, decisionAckTime := now);
      AsyncSum(cfg, i, v.(proposals := v.proposals - {id}, decided := v.decided + [d]), now);
    }
  }

  lemma MessageSum(cfg: Config, i: nat, v: Server, f: Frame, now: nat)
    requires i < cfg.n
    ensures Sum(cfg, now, ItemsOf(i, now, ReceiveMessage(cfg, i, v, f, now).outputs)) < FrameRank(cfg.n, f.kind)
  {
    NothingLeft(cfg, i, now);
    if f.kind == PROPOSAL {
      LaterWaits(cfg, i, now, HANDLING_DELAY, SendAccept(Stamped(i, f, now)));
    } else if f.kind == ACCEPT {
      AcceptSum(cfg, i, v, f, now);
    } else if f.kind == DECISION {
      OneSent(cfg, i, now, f.proposerId, DecisionAckFrame(i, f));
    } else if f.kind == DECISION_ACK {
      AckSum(cfg, i, v, f, now);
    }
  }

  lemma EventSum(cfg: Config, i: nat, v: Server, e: Event, now: nat)
    requires i < cfg.n && (e == SyncPropose ==> cfg.Period() > 0 || cfg.stop <= now)
    ensures Sum(cfg, now, ItemsOf(i, now, HandleEvent(cfg, i, v, e, now).outputs)) < EventRank(cfg.n, e)
  {
    NothingLeft(cfg, i, now);
    match e
    case SendAccept(f) => OneSent(cfg, i, now, f.proposerId, AcceptFrame(i, f, now));
    case AsyncPropose => AsyncSum(cfg, i, v, now);
    case SyncPropose => SyncSum(cfg, i, v, now);
    case _ =>
  }

  // ---------- One step ----------

  lemma CommitTotal(cfg: Config, w: World, u: nat, i: nat, e: Effect, h: History)
    requires i < |w.servers| && u in w.agenda && forall v :: v in w.agenda ==> v < w.nextUid
    requires Sum(cfg, w.now, ItemsOf(i, w.now, e.outputs)) < Weight(cfg, w.now, w.agenda[u])
    ensures var w' := Commit(w, u, i, e, h); w'.now == w.now && Left(cfg, w') < Left(cfg, w)
  {
    TotalLess(cfg, w.now, w.agenda, w.nextUid, u);
    TotalPost(cfg, w.now, w.agenda - {u}, w.nextUid, ItemsOf(i, w.now, e.outputs));
  }

  ghost function Left(cfg: Config, w: World): nat { Total(cfg, w.now, w.agenda, w.nextUid) }

  lemma ClientTotal(cfg: Config, w: World, u: nat, value: nat)
    requires cfg.n > 0 && cfg.interval > 0 && u in w.agenda && w.agenda[u] == ClientSend(w.now)
    requires forall v :: v in w.agenda ==> v < w.nextUid
    ensures var w' := FireClient(cfg, w, u, value); w'.now == w.now && Left(cfg, w') < Left(cfg, w)
  {
    TotalLess(cfg, w.now, w.agenda, w.nextUid, u);
    if w.now < cfg.stop {
      var items := ClientOutputs(cfg, w.lastServerId, w.now, value);
      TotalPost(cfg, w.now, w.agenda - {u}, w.nextUid, items);
      assert items == [] + [items[0]] + [items[1]];
      SumLast(cfg, w.now, [] + [items[0]], items[1]);
      SumLast(cfg, w.now, [], items[0]);
    }
  }

  /** Time can pass in this configuration: not if it is synchronous with slots of no length. */
  predicate Flowing(cfg: Config) { cfg.async || cfg.Slot() > 0 || cfg.start == cfg.stop }

  lemma NumberedBelow(cfg: Config, w: World)
    requires Reached(cfg, w)
    ensures forall v :: v in w.agenda ==> v < w.nextUid
  {
    ReachableHolds(cfg, w);
  }

  /** What cannot wait may be handled now. */
  lemma UrgentIsReady(cfg: Config, w: World, u: nat)
    requires Reached(cfg, w) && u in w.agenda && !InTime(cfg, w.now + 1, w.agenda[u])
    ensures Enabled(cfg, w, Fire(u, 0)) && (w.agenda[u].ClientSend? ==> w.agenda[u] == ClientSend(w.now))
    ensures w.agenda[u].Local? && w.agenda[u].event == SyncPropose ==> !cfg.async
  {
    ItemHolds(cfg, w, u);
  }

  lemma PeriodPasses(cfg: Config, w: World)
    requires Reached(cfg, w) && !cfg.async && Flowing(cfg)
    ensures cfg.Period() > 0 || cfg.stop <= w.now
  {
    ReachableScheduled(cfg, w);
    assert RoundOk(cfg, w, 0);
    Monotone(1, cfg.n, cfg.Slot());
  }

  /** Handling it leaves less for this instant. */
  lemma UrgentFires(cfg: Config, w: World, u: nat)
    requires Reached(cfg, w) && Flowing(cfg) && u in w.agenda && !InTime(cfg, w.now + 1, w.agenda[u])
    ensures Enabled(cfg, w, Fire(u, 0))
    ensures var w' := Apply(cfg, w, Fire(u, 0)); w'.now == w.now && Left(cfg, w') < Left(cfg, w)
  {
    UrgentIsReady(cfg, w, u);
    NumberedBelow(cfg, w);
    hide ReceiveMessage, HandleEvent, MessageHistory, EventHistory, Left, Total, Sum, FireClient, Commit;
    match w.agenda[u]
    case RequestTo(i, req, _) =>
      RequestSum(cfg, i, w.servers[i], req, w.now);
      CommitTotal(cfg, w, u, i, ReceiveRequest(cfg, i, w.servers[i], req), RequestHistory(cfg, w.h, i, req));
    case FrameTo(i, f, _) =>
      MessageSum(cfg, i, w.servers[i], f, w.now);
      CommitTotal(cfg, w, u, i, ReceiveMessage(cfg, i, w.servers[i], f, w.now),
                  MessageHistory(cfg, w.h, i, w.servers[i], f, w.now));
    case Local(i, e, _) =>
      if e == SyncPropose { PeriodPasses(cfg, w); }
      EventSum(cfg, i, w.servers[i], e, w.now);
      CommitTotal(cfg, w, u, i, HandleEvent(cfg, i, w.servers[i], e, w.now),
                  EventHistory(cfg, w.h, i, w.servers[i], e, w.now));
    case ClientSend(_) => ClientTotal(cfg, w, u, 0);
  }

  lemma RequestSum(cfg: Config, i: nat, v: Server, req: Request, now: nat)
    ensures Sum(cfg, now, ItemsOf(i, now, ReceiveRequest(cfg, i, v, req).outputs)) == 0
  {
    NothingLeft(cfg, i, now);
    LaterWaits(cfg, i, now, HANDLING_DELAY, CreateProposal(req));
  }

  // ---------- Runs ----------

  /** No packet is lost on the way. */
  ghost predicate NoDrops(steps: seq<Step>) { forall k :: 0 <= k < |steps| ==> !steps[k].Drop? }

  /** After finitely many steps nothing is left to do at this instant. */
  lemma {:induction false} Settles(cfg: Config, w: World) returns (steps: seq<Step>)
    requires Reached(cfg, w) && Flowing(cfg)
    ensures Legal(cfg, w, steps) && NoDrops(steps) && Reached(cfg, Exec(cfg, w, steps))
    ensures var w' := Exec(cfg, w, steps);
      w'.now == w.now && forall u :: u in w'.agenda ==> InTime(cfg, w.now + 1, w'.agenda[u])
    decreases Left(cfg, w)
  {
    hide Reachable, FireItem, NoDrops;
    if u :| u in w.agenda && !InTime(cfg, w.now + 1, w.agenda[u]) {
      UrgentFires(cfg, w, u);
      var w' := Apply(cfg, w, Fire(u, 0));
      Next(cfg, w, Fire(u, 0), w');
      var rest := Settles(cfg, w');
      steps := [Fire(u, 0)] + rest;
      FirstThen(cfg, w, Fire(u, 0), rest);
    } else {
      steps := [];
      NoneDropped();
    }
  }

  lemma NoneDropped()
    ensures NoDrops([])
  {
  }

  lemma FirstThen(cfg: Config, w: World, step: Step, rest: seq<Step>)
    requires cfg.n > 0 && Enabled(cfg, w, step) && Legal(cfg, Apply(cfg, w, step), rest) && !step.Drop? && NoDrops(rest)
    ensures Legal(cfg, w, [step] + rest) && NoDrops([step] + rest)
    ensures Exec(cfg, w, [step] + rest) == Exec(cfg, Apply(cfg, w, step), rest)
  {
    assert ([step] + rest)[1..] == rest;
  }

  lemma Ticks(cfg: Config, w: World) returns (steps: seq<Step>)
    requires Reached(cfg, w) && Flowing(cfg)
    ensures Legal(cfg, w, steps) && NoDrops(steps) && Reached(cfg, Exec(cfg, w, steps))
    ensures Exec(cfg, w, steps).now == w.now + 1
  {
    var first := Settles(cfg, w);
    var v, tick := Exec(cfg, w, first), Advance(w.now + 1);
    var v' := Apply(cfg, v, tick);
    Next(cfg, v, tick, v');
    var none: seq<Step> := [];
    assert [tick][1..] == none;
    assert Legal(cfg, v', none) && Exec(cfg, v', none) == v';
    assert Legal(cfg, v, [tick]) && Exec(cfg, v, [tick]) == v';
    LegalJoins(cfg, w, first, [tick]);
    steps := first + [tick];
  }

  /** Unless slots have no length, every run can be continued, without losing a packet, to any later
      time: no instant blocks it, and none goes on for ever. */
  lemma {:induction false} TimeGoesOn(cfg: Config, w: World, t: nat) returns (steps: seq<Step>)
    requires Reached(cfg, w) && Flowing(cfg) && w.now <= t
    ensures Legal(cfg, w, steps) && NoDrops(steps) && Reached(cfg, Exec(cfg, w, steps)) && Exec(cfg, w, steps).now == t
    decreases t - w.now
  {
    if w.now == t {
      steps := [];
    } else {
      var first := Ticks(cfg, w);
      var rest := TimeGoesOn(cfg, Exec(cfg, w, first), t);
      LegalJoins(cfg, w, first, rest);
      steps := first + rest;
    }
  }

  // ---------- Exactly when ----------

  ghost predicate Attained(cfg: Config, t: nat) {
    exists w: World :: Reached(cfg, w) && t <= w.now
  }

  lemma StandsAtStart(cfg: Config, w: World)
    requires Reached(cfg, w) && !Flowing(cfg)
    ensures w.now == cfg.start
  {
    ReachableScheduled(cfg, w);
    assert RoundOk(cfg, w, 0);
    hide Reachable;
    StillArmed(cfg, w, 0);
    LagBound(cfg, 0);
    assert cfg.TurnStart(0, w.h.rounds[0]) == cfg.start;
  }

  /** Simulated time reaches every instant exactly in these configurations; in the others it stays at
      the start for ever. */
  lemma FlowsExactly(cfg: Config)
    requires cfg.Valid()
    ensures (forall t: nat :: Attained(cfg, t)) <==> Flowing(cfg)
  {
    StartsHere(cfg, 0);
    var w := InitialWorld(cfg, 0);
    if Flowing(cfg) {
      forall t: nat ensures Attained(cfg, t) {
        if w.now < t {
          var steps := TimeGoesOn(cfg, w, t);
          assert Reached(cfg, Exec(cfg, w, steps));
        }
      }
    } else if Attained(cfg, cfg.start + 1) {
      var v: World :| Reached(cfg, v) && cfg.start + 1 <= v.now;
      StandsAtStart(cfg, v);
    }
  }
}
