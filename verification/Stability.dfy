/** When the queues of the synchronous mode stay short: the client's round robin, the delivery bound
    and the slot schedule taken together. */
module Stability {
  import opened Division
  import opened PaxosData
  import opened DecisionLog
  import opened RoundRobin
  import opened Handlers
  import opened Cluster
  import opened Snapshots
  import opened Invariant
  import opened SafeMoves
  import opened AgendaInvariant
  import opened Steps
  import opened Runs
  import opened Agreement
  import opened Timing
  import opened Progress
  import opened Deadlines
  import opened Requests
  import opened PaxosClient
  import opened ClientClock

  // ---------- The load of a server ----------

  /** A request on its way to server i, or one that i is about to turn into a proposal. */
  predicate Carries(it: Item, i: nat) {
    (it.RequestTo? && it.dst == i) || (it.Local? && it.server == i && it.event.CreateProposal?)
  }

  function StampOf(it: Item): nat {
    match it
    case RequestTo(_, req, _) => req.timestamp
    case Local(_, CreateProposal(req), _) => req.timestamp
    case _ => 0
  }

  ghost function Carried(agenda: map<nat, Item>, i: nat): set<nat> {
    set u | u in agenda && Carries(agenda[u], i)
  }

  /** What waits at server i or is on its way there. */
  ghost function Load(w: World, i: nat): nat
    requires i < |w.servers|
  {
    |w.servers[i].waiting| + |Carried(w.agenda, i)|
  }

  ghost predicate Lighter(w: World, w': World, i: nat) {
    && i < |w.servers| && i < |w'.servers| && i < |w.h.rounds| && i < |w'.h.rounds|
    && w'.h.rounds[i] == w.h.rounds[i] && Load(w', i) <= Load(w, i)
    && forall ts :: ts in w.h.requests ==> ts in w'.h.requests && w'.h.requests[ts] == w.h.requests[ts]
  }

  // ---------- Steps that add no load ----------

  ghost predicate NoCreations(outs: seq<Output>) {
    forall k :: 0 <= k < |outs| ==> !(outs[k].Schedule? && outs[k].event.CreateProposal?)
  }

  lemma MessageOutputs(cfg: Config, i: nat, v: Server, f: Frame, now: nat)
    requires i < cfg.n
    ensures NoCreations(ReceiveMessage(cfg, i, v, f, now).outputs)
  {
  }

  lemma EventOutputs(cfg: Config, i: nat, v: Server, e: Event, now: nat)
    requires i < cfg.n
    ensures NoCreations(HandleEvent(cfg, i, v, e, now).outputs)
  {
  }

  lemma CommitCarries(w: World, u: nat, j: nat, e: Effect, h: History, i: nat)
    requires j < |w.servers| && NoCreations(e.outputs)
    ensures Carried(Commit(w, u, j, e, h).agenda, i) <= Carried(w.agenda, i) - {u}
  {
    var items := ItemsOf(j, w.now, e.outputs);
    forall x | x in Carried(Commit(w, u, j, e, h).agenda, i) ensures x in Carried(w.agenda, i) - {u} {
      PostedItem(w.agenda - {u}, w.nextUid, items, x);
    }
  }

  lemma LighterFrame(cfg: Config, w: World, u: nat, value: nat, i: nat)
    requires cfg.n > 0 && Enabled(cfg, w, Fire(u, value)) && i < cfg.n && w.agenda[u].FrameTo?
    requires w.agenda[u].dst == i ==>
               ReceiveMessage(cfg, i, w.servers[i], w.agenda[u].frame, w.now).server.waiting == w.servers[i].waiting
    ensures Lighter(w, FireItem(cfg, w, u, value), i)
  {
    hide ReceiveMessage, MessageHistory;
    var j, f := w.agenda[u].dst, w.agenda[u].frame;
    MessageOutputs(cfg, j, w.servers[j], f, w.now);
    MessageRounds(cfg, w.h, j, w.servers[j], f, w.now);
    MessageRequests(cfg, w.h, j, w.servers[j], f, w.now);
    CommitCarries(w, u, j, ReceiveMessage(cfg, j, w.servers[j], f, w.now), w.h, i);
    CardinalityGrows(Carried(FireItem(cfg, w, u, value).agenda, i), Carried(w.agenda, i));
  }

  lemma WaitingSame(cfg: Config, i: nat, v: Server, e: Event, now: nat)
    requires i < cfg.n && !e.CreateProposal? && e != SyncPropose && e != AsyncPropose
    ensures HandleEvent(cfg, i, v, e, now).server.waiting == v.waiting
  {
  }

  lemma LighterEvent(cfg: Config, w: World, u: nat, value: nat, i: nat)
    requires cfg.n > 0 && Enabled(cfg, w, Fire(u, value)) && i < cfg.n && w.agenda[u].Local?
    requires !w.agenda[u].event.CreateProposal? && w.agenda[u].event != AsyncPropose
    requires w.agenda[u].event == SyncPropose ==> w.agenda[u].server != i
    ensures Lighter(w, FireItem(cfg, w, u, value), i)
  {
    hide HandleEvent, EventHistory;
    var j, e := w.agenda[u].server, w.agenda[u].event;
    if i == j { WaitingSame(cfg, j, w.servers[j], e, w.now); }
    EventOutputs(cfg, j, w.servers[j], e, w.now);
    EventElsewhere(cfg, w.h, j, w.servers[j], e, w.now);
    EventRequests(cfg, w.h, j, w.servers[j], e, w.now);
    CommitCarries(w, u, j, HandleEvent(cfg, j, w.servers[j], e, w.now), w.h, i);
    CardinalityGrows(Carried(FireItem(cfg, w, u, value).agenda, i), Carried(w.agenda, i));
  }

  lemma LighterCreation(cfg: Config, w: World, u: nat, value: nat, i: nat)
    requires cfg.n > 0 && Enabled(cfg, w, Fire(u, value)) && i < cfg.n && FiresCreation(w, Fire(u, value))
    ensures Lighter(w, FireItem(cfg, w, u, value), i)
  {
    hide HandleEvent, EventHistory;
    var j, e := w.agenda[u].server, w.agenda[u].event;
    CreationFires(cfg, w, u, value, j, e.request);
    EventOutputs(cfg, j, w.servers[j], e, w.now);
    EventElsewhere(cfg, w.h, j, w.servers[j], e, w.now);
    CommitCarries(w, u, j, HandleEvent(cfg, j, w.servers[j], e, w.now), w.h, i);
    CardinalityGrows(Carried(FireItem(cfg, w, u, value).agenda, i), Carried(w.agenda, i) - {u});
    assert j == i ==> u in Carried(w.agenda, i);
  }

  /** A delivered request stays on its way for the handling delay. */
  lemma LighterRequest(cfg: Config, w: World, u: nat, value: nat, i: nat)
    requires cfg.n > 0 && Enabled(cfg, w, Fire(u, value)) && i < cfg.n && w.agenda[u].RequestTo?
    ensures Lighter(w, FireItem(cfg, w, u, value), i)
  {
    var j, req := w.agenda[u].dst, w.agenda[u].request;
    RequestCarried(w, u, j, ReceiveRequest(cfg, j, w.servers[j], req), w.h, i);
    assert w.servers[j := w.servers[j]] == w.servers;
  }

  lemma RequestCarried(w: World, u: nat, j: nat, e: Effect, h: History, i: nat)
    requires j < |w.servers| && |e.outputs| <= 1 && u in w.agenda && w.agenda[u].RequestTo? && w.agenda[u].dst == j
    ensures |Carried(Commit(w, u, j, e, h).agenda, i)| <= |Carried(w.agenda, i)|
  {
    var agenda, kept := Commit(w, u, j, e, h).agenda, Carried(w.agenda, i) - {u};
    forall x | x in Carried(agenda, i) ensures x in kept || (i == j && x == w.nextUid) {
      PostedItem(w.agenda - {u}, w.nextUid, ItemsOf(j, w.now, e.outputs), x);
    }
    if i == j {
      CardinalityGrows(Carried(agenda, i), kept + {w.nextUid});
      assert u in Carried(w.agenda, i);
    } else {
      CardinalityGrows(Carried(agenda, i), Carried(w.agenda, i));
    }
  }

  lemma LighterClient(cfg: Config, w: World, u: nat, value: nat, i: nat)
    requires cfg.n > 0 && Enabled(cfg, w, Fire(u, value)) && i < cfg.n && w.agenda[u] == ClientSend(w.now)
    requires w.now < cfg.stop ==> NextServer(w.lastServerId, cfg.n) != i && w.now !in w.h.requests
    ensures Lighter(w, FireItem(cfg, w, u, value), i)
  {
    var w' := FireItem(cfg, w, u, value);
    forall x | x in Carried(w'.agenda, i) ensures x in Carried(w.agenda, i) {
      if w.now < cfg.stop {
        PostedItem(w.agenda - {u}, w.nextUid, ClientOutputs(cfg, w.lastServerId, w.now, value), x);
      }
    }
    CardinalityGrows(Carried(w'.agenda, i), Carried(w.agenda, i));
  }

  /** The client's next request goes to this server. */
  ghost predicate SendsTo(cfg: Config, w: World, step: Step, i: nat)
    requires cfg.n > 0
  {
    && step.Fire? && step.uid in w.agenda && w.agenda[step.uid].ClientSend? && w.now < cfg.stop
    && NextServer(w.lastServerId, cfg.n) == i
  }

  lemma LighterDrop(cfg: Config, w: World, u: nat, i: nat)
    requires Sized(cfg, w) && i < cfg.n
    ensures Lighter(w, w.(agenda := w.agenda - {u}), i)
  {
    CardinalityGrows(Carried(w.agenda - {u}, i), Carried(w.agenda, i));
  }

  /** Only the client adds to the load of a server, and only its own turn changes its rounds. */
  lemma LighterStep(cfg: Config, w: World, step: Step, i: nat)
    requires cfg.n > 0 && WorldInv(cfg, w) && Enabled(cfg, w, step) && i < cfg.n && !cfg.async
    requires !SendsTo(cfg, w, step, i) && !FiresTimer(w, step, i)
    ensures Lighter(w, Apply(cfg, w, step), i)
  {
    hide WorldInv, Lighter, FireItem;
    match step
    case Fire(u, value) => {
      NotAsync(cfg, w, u);
      match w.agenda[u]
      case RequestTo(_, _, _) => LighterRequest(cfg, w, u, value, i);
      case FrameTo(j, f, _) =>
        MessageWaiting(cfg, j, w.servers[j], f, w.now);
        LighterFrame(cfg, w, u, value, i);
      case Local(_, e, _) =>
        if e.CreateProposal? { LighterCreation(cfg, w, u, value, i); } else { LighterEvent(cfg, w, u, value, i); }
      case ClientSend(_) => {
        ClientFacts(cfg, w, u);
        LighterClient(cfg, w, u, value, i);
      }
    }
    case Drop(u) => LighterDrop(cfg, w, u, i);
    case Advance(_) => LighterWait(cfg, w, step.time, i);
  }

  lemma LighterWait(cfg: Config, w: World, t: nat, i: nat)
    requires Sized(cfg, w) && i < cfg.n
    ensures Lighter(w, w.(now := t), i)
  {
  }

  lemma NotAsync(cfg: Config, w: World, u: nat)
    requires WorldInv(cfg, w) && u in w.agenda && !cfg.async
    ensures !(w.agenda[u].Local? && w.agenda[u].event == AsyncPropose)
  {
    LiveToken(cfg, w, u);
  }

  // ---------- Every server keeps up ----------

  /** Once the whole load has had its turn, it is little later than this request. */
  ghost predicate Behind(cfg: Config, w: World, i: nat, m: nat)
    requires i < |w.servers| && i < |w.h.rounds| && Load(w, i) > 0
  {
    && m in w.h.requests && w.h.requests[m].dst == i
    && cfg.TurnStart(i, w.h.rounds[i] + Load(w, i) - 1) <= m + cfg.Period() + cfg.delay + HANDLING_DELAY
  }

  ghost predicate KeepsUp(cfg: Config, w: World, i: nat) {
    i < |w.servers| && i < |w.h.rounds| && (Load(w, i) > 0 ==> exists m :: Behind(cfg, w, i, m))
  }

  lemma LighterKeepsUp(cfg: Config, w: World, w': World, i: nat)
    requires KeepsUp(cfg, w, i) && Lighter(w, w', i)
    ensures KeepsUp(cfg, w', i)
  {
    if Load(w', i) > 0 {
      var m :| Behind(cfg, w, i, m);
      LaterTurn(cfg, i, w.h.rounds[i] + Load(w', i) - 1, w.h.rounds[i] + Load(w, i) - 1);
      assert Behind(cfg, w', i, m);
    }
  }

  /** How long the client takes for one round of all the servers. */
  function Lap(cfg: Config): nat { cfg.n * cfg.interval }

  /** The client can keep no server busier than its turns allow. */
  predicate ClientIsSlow(cfg: Config) { cfg.Period() <= Lap(cfg) }

  lemma SendAdds(cfg: Config, w: World, u: nat, value: nat, i: nat)
    requires cfg.n > 0 && Enabled(cfg, w, Fire(u, value)) && i < cfg.n && w.agenda[u] == ClientSend(w.now)
    requires w.now < cfg.stop && NextServer(w.lastServerId, cfg.n) == i && w.now !in w.h.requests
    ensures var w' := FireItem(cfg, w, u, value);
      && i < |w'.servers| && i < |w'.h.rounds| && w'.h.rounds[i] == w.h.rounds[i] && Load(w', i) <= Load(w, i) + 1
      && w'.h.requests == w.h.requests[w.now := RequestInfo(value, i)]
  {
    var w' := FireItem(cfg, w, u, value);
    forall x | x in Carried(w'.agenda, i) ensures x in Carried(w.agenda, i) + {w.nextUid} {
      PostedItem(w.agenda - {u}, w.nextUid, ClientOutputs(cfg, w.lastServerId, w.now, value), x);
    }
    CardinalityGrows(Carried(w'.agenda, i), Carried(w.agenda, i) + {w.nextUid});
  }

  /** A request finds its server idle, or comes a whole round after the one before. */
  lemma SendKeepsUp(cfg: Config, w: World, u: nat, value: nat, i: nat)
    requires Reached(cfg, w) && Enabled(cfg, w, Fire(u, value)) && i < cfg.n && w.agenda[u] == ClientSend(w.now)
    requires !cfg.async && cfg.n <= WIDTH && ClientIsSlow(cfg) && KeepsUp(cfg, w, i)
    requires w.now < cfg.stop && NextServer(w.lastServerId, cfg.n) == i
    ensures KeepsUp(cfg, FireItem(cfg, w, u, value), i)
  {
    hide Reached, FireItem;
    var w', load, r := FireItem(cfg, w, u, value), Load(w, i), w.h.rounds[i];
    NotSentYet(cfg, w, u);
    SendAdds(cfg, w, u, value, i);
    if load == 0 {
      TurnNear(cfg, w, i, 0);
    } else {
      var m :| Behind(cfg, w, i, m);
      NextReached(cfg, w, u, value);
      SentBefore(cfg, w, m);
      RequestsApart(cfg, w', m, w.now);
      NextTurn(cfg, i, r + load - 1);
    }
    if Load(w', i) > 0 {
      LaterTurn(cfg, i, r + Load(w', i) - 1, r + load);
      assert Behind(cfg, w', i, w.now);
    }
  }

  lemma NotSentYet(cfg: Config, w: World, u: nat)
    requires Reached(cfg, w) && u in w.agenda && w.agenda[u] == ClientSend(w.now)
    ensures w.now !in w.h.requests
  {
    ReachableHolds(cfg, w);
    ClientFacts(cfg, w, u);
  }

  lemma NextReached(cfg: Config, w: World, u: nat, value: nat)
    requires Reached(cfg, w) && Enabled(cfg, w, Fire(u, value))
    ensures Reached(cfg, FireItem(cfg, w, u, value))
  {
    Next(cfg, w, Fire(u, value), FireItem(cfg, w, u, value));
  }

  lemma SentBefore(cfg: Config, w: World, ts: nat)
    requires Reached(cfg, w) && ts in w.h.requests
    ensures cfg.start <= ts <= w.now && ts < cfg.stop
  {
    ReachableHolds(cfg, w);
    RequestHolds(cfg, View(w), ts);
    var last := KeepsTime(cfg, w);
    var j: nat :| SentAs(cfg, w.h.requests, last, ts, j);
  }

  // ---------- A turn ----------

  lemma {:induction false} Least(us: set<nat>, key: map<nat, nat>) returns (u: nat)
    requires us != {} && us <= key.Keys
    ensures u in us && forall v :: v in us ==> key[u] <= key[v]
  {
    var x :| x in us;
    if us == {x} {
      u := x;
    } else {
      u := Least(us - {x}, key);
      if key[x] < key[u] { u := x; }
    }
  }

  /** Among instants that are all a gap apart, one is many gaps after the bound on the first. */
  lemma {:induction false} LateOne(us: set<nat>, key: map<nat, nat>, from: int, gap: nat) returns (u: nat)
    requires us != {} && us <= key.Keys && forall v :: v in us ==> from <= key[v]
    requires forall v, x :: v in us && x in us && v != x && key[v] <= key[x] ==> key[v] + gap <= key[x]
    ensures u in us && from + (|us| - 1) * gap <= key[u]
  {
    u := Least(us, key);
    var others := us - {u};
    if others == {} {
      assert us == {u};
    } else {
      assert |us| == |others| + 1 && |others| > 0;
      AboveFloor(|us| - 1, gap);
      u := LateOne(others, key, from + gap, gap);
    }
  }

  lemma CarriedHolds(cfg: Config, w: World, i: nat, u: nat)
    requires Reached(cfg, w) && u in Carried(w.agenda, i) && cfg.bounded
    ensures var ts := StampOf(w.agenda[u]);
      ts in w.h.requests && w.h.requests[ts].dst == i && w.now <= ts + cfg.delay + HANDLING_DELAY
  {
    ItemHolds(cfg, w, u);
  }

  lemma CarriedDiffer(cfg: Config, w: World, i: nat, u: nat, v: nat)
    requires Reached(cfg, w) && u in Carried(w.agenda, i) && v in Carried(w.agenda, i) && u != v
    ensures StampOf(w.agenda[u]) != StampOf(w.agenda[v])
  {
    hide Inv, ItemsOk, DecidedInTime;
    ReachableHolds(cfg, w);
    assert TokenOf(w.agenda[u]) != TokenOf(w.agenda[v]);
  }

  /** What is on its way to a server was sent lately and a round of the client apart. */
  lemma LatestCarried(cfg: Config, w: World, i: nat) returns (m: nat)
    requires Reached(cfg, w) && cfg.bounded && cfg.n <= WIDTH && Carried(w.agenda, i) != {}
    ensures m in w.h.requests && w.h.requests[m].dst == i
    ensures w.now + (|Carried(w.agenda, i)| - 1) * Lap(cfg) <= m + cfg.delay + HANDLING_DELAY
  {
    hide Reached, Lap;
    var us, key := Carried(w.agenda, i), map u | u in Carried(w.agenda, i) :: StampOf(w.agenda[u]);
    var gap := Lap(cfg);
    forall u | u in us ensures w.now - cfg.delay - HANDLING_DELAY <= key[u] { CarriedHolds(cfg, w, i, u); }
    forall u, v | u in us && v in us && u != v && key[u] <= key[v] ensures key[u] + gap <= key[v] {
      CarriedApart(cfg, w, i, u, v);
    }
    var u := LateOne(us, key, w.now - cfg.delay - HANDLING_DELAY, gap);
    CarriedHolds(cfg, w, i, u);
    m := key[u];
  }

  lemma CarriedApart(cfg: Config, w: World, i: nat, u: nat, v: nat)
    requires Reached(cfg, w) && cfg.bounded && cfg.n <= WIDTH && u != v
    requires u in Carried(w.agenda, i) && v in Carried(w.agenda, i)
    requires StampOf(w.agenda[u]) <= StampOf(w.agenda[v])
    ensures StampOf(w.agenda[u]) + Lap(cfg) <= StampOf(w.agenda[v])
  {
    hide Reached;
    CarriedHolds(cfg, w, i, u);
    CarriedHolds(cfg, w, i, v);
    CarriedDiffer(cfg, w, i, u, v);
    RequestsApart(cfg, w, StampOf(w.agenda[u]), StampOf(w.agenda[v]));
  }

  lemma TurnServes(cfg: Config, w: World, u: nat, value: nat, i: nat)
    requires cfg.n > 0 && Enabled(cfg, w, Fire(u, value)) && i < cfg.n && w.agenda[u] == Local(i, SyncPropose, w.now)
    ensures var w', v := FireItem(cfg, w, u, value), w.servers[i];
      && i < |w'.servers| && i < |w'.h.rounds| && w'.h.requests == w.h.requests
      && Carried(w'.agenda, i) <= Carried(w.agenda, i)
      && if w.now >= cfg.stop then w'.h.rounds[i] == w.h.rounds[i] && w'.servers[i].waiting == v.waiting
         else w'.h.rounds[i] == w.h.rounds[i] + 1
              && w'.servers[i].waiting == if v.waiting == [] then [] else v.waiting[1..]
  {
    EventOutputs(cfg, i, w.servers[i], SyncPropose, w.now);
    CommitCarries(w, u, i, HandleEvent(cfg, i, w.servers[i], SyncPropose, w.now), w.h, i);
  }

  lemma IdleTurn(cfg: Config, w: World, i: nat) returns (m: nat)
    requires Reached(cfg, w) && cfg.bounded && cfg.n <= WIDTH && ClientIsSlow(cfg) && i < cfg.n
    requires Carried(w.agenda, i) != {} && w.now == cfg.TurnStart(i, w.h.rounds[i])
    ensures m in w.h.requests && w.h.requests[m].dst == i
    ensures cfg.TurnStart(i, w.h.rounds[i] + |Carried(w.agenda, i)|) <= m + cfg.Period() + cfg.delay + HANDLING_DELAY
  {
    var k := |Carried(w.agenda, i)|;
    m := LatestCarried(cfg, w, i);
    TurnsLater(cfg, i, w.h.rounds[i], k);
    Gaps(k, cfg.Period(), Lap(cfg));
  }

  lemma Gaps(k: nat, period: nat, gap: nat)
    requires k > 0 && period <= gap
    ensures k * period <= (k - 1) * gap + period
  {
    AboveFloor(k, period);
    assert (k - 1) * gap >= (k - 1) * period by { MonotoneRight(k - 1, period, gap); }
  }

  lemma {:induction false} MonotoneRight(k: nat, a: nat, b: nat)
    requires a <= b
    ensures k * a <= k * b
  {
    if k > 0 {
      MonotoneRight(k - 1, a, b);
      assert k * a == (k - 1) * a + a && k * b == (k - 1) * b + b;
    }
  }

  /** A turn takes one off the queue; if there is none, what is still to come was sent lately. */
  lemma TurnKeepsUp(cfg: Config, w: World, u: nat, value: nat, i: nat)
    requires Reached(cfg, w) && Enabled(cfg, w, Fire(u, value)) && i < cfg.n
    requires w.agenda[u] == Local(i, SyncPropose, w.now)
    requires !cfg.async && cfg.bounded && cfg.n <= WIDTH && ClientIsSlow(cfg) && KeepsUp(cfg, w, i)
    requires w.now == cfg.TurnStart(i, w.h.rounds[i])
    ensures KeepsUp(cfg, FireItem(cfg, w, u, value), i)
  {
    hide Reached, FireItem, Carried;
    var w' := FireItem(cfg, w, u, value);
    TurnServes(cfg, w, u, value, i);
    CardinalityGrows(Carried(w'.agenda, i), Carried(w.agenda, i));
    if Load(w', i) > 0 {
      var m;
      if w.now < cfg.stop && w.servers[i].waiting == [] {
        m := IdleTurn(cfg, w, i);
        LaterTurn(cfg, i, w'.h.rounds[i] + Load(w', i) - 1, w.h.rounds[i] + |Carried(w.agenda, i)|);
      } else {
        m :| Behind(cfg, w, i, m);
        LaterTurn(cfg, i, w'.h.rounds[i] + Load(w', i) - 1, w.h.rounds[i] + Load(w, i) - 1);
      }
      assert Behind(cfg, w', i, m);
    }
  }

  // ---------- Every reachable world ----------

  lemma StepKeepsUp(cfg: Config, w: World, step: Step, i: nat)
    requires Reached(cfg, w) && Enabled(cfg, w, step) && i < cfg.n && KeepsUp(cfg, w, i)
    requires !cfg.async && cfg.bounded && cfg.n <= WIDTH && ClientIsSlow(cfg)
    ensures KeepsUp(cfg, Apply(cfg, w, step), i)
  {
    hide WorldInv, KeepsUp, FireItem;
    ReachableHolds(cfg, w);
    if SendsTo(cfg, w, step, i) {
      SendKeepsUp(cfg, w, step.uid, step.value, i);
    } else if FiresTimer(w, step, i) {
      TimerDue(cfg, w, step, i);
      TurnKeepsUp(cfg, w, step.uid, step.value, i);
    } else {
      LighterStep(cfg, w, step, i);
      LighterKeepsUp(cfg, w, Apply(cfg, w, step), i);
    }
  }

  lemma {:induction false} RunKeepsUp(cfg: Config, w: World, steps: seq<Step>, i: nat)
    requires Reached(cfg, w) && Legal(cfg, w, steps) && i < cfg.n && KeepsUp(cfg, w, i)
    requires !cfg.async && cfg.bounded && cfg.n <= WIDTH && ClientIsSlow(cfg)
    ensures KeepsUp(cfg, Exec(cfg, w, steps), i)
    decreases |steps|
  {
    hide KeepsUp;
    if steps != [] {
      StepKeepsUp(cfg, w, steps[0], i);
      Next(cfg, w, steps[0], Apply(cfg, w, steps[0]));
      RunKeepsUp(cfg, Apply(cfg, w, steps[0]), steps[1..], i);
    }
  }

  lemma InitialLoad(cfg: Config, last: nat, i: nat)
    requires cfg.Valid() && i < cfg.n
    ensures KeepsUp(cfg, InitialWorld(cfg, last), i)
  {
    var w := InitialWorld(cfg, last);
    forall u | u in w.agenda ensures !Carries(w.agenda[u], i) {
      PostedItem(map[], 0, InitialItems(cfg), u);
      InitialItem(cfg, u);
    }
    assert Carried(w.agenda, i) == {};
  }

  lemma ReachableKeepsUp(cfg: Config, w: World, i: nat)
    requires Reached(cfg, w) && i < cfg.n && !cfg.async && cfg.bounded && cfg.n <= WIDTH && ClientIsSlow(cfg)
    ensures KeepsUp(cfg, w, i)
  {
    var last: nat, steps: seq<Step> :|
      last < WIDTH && Legal(cfg, InitialWorld(cfg, last), steps) && w == Exec(cfg, InitialWorld(cfg, last), steps);
    StartsHere(cfg, last);
    InitialLoad(cfg, last, i);
    RunKeepsUp(cfg, InitialWorld(cfg, last), steps, i);
  }

  /** If a server's turns come at least as often as the client's requests to it, its queue, with all
      that is still on the way to it, is never longer than one entry and what the client sends it in
      one period, one delivery and 10 ns. */
  lemma ShortQueue(cfg: Config, w: World, i: nat)
    requires Reached(cfg, w) && i < cfg.n && !cfg.async && cfg.bounded && cfg.n <= WIDTH && ClientIsSlow(cfg)
    ensures i < |w.servers| && (Load(w, i) - 1) * cfg.Period() <= cfg.Period() + cfg.delay + HANDLING_DELAY
  {
    ReachableKeepsUp(cfg, w, i);
    hide Reached;
    if Load(w, i) > 0 {
      var m :| Behind(cfg, w, i, m);
      SentBefore(cfg, w, m);
      StillArmed(cfg, w, i);
      TurnsLater(cfg, i, w.h.rounds[i], Load(w, i) - 1);
    }
  }

  // ---------- No request is turned away ----------

  /** With slots of no length at all, time stands still. */
  lemma StandsStill(cfg: Config, w: World, ts: nat)
    requires Reached(cfg, w) && !cfg.async && cfg.Slot() == 0 && ts in w.h.requests
    ensures ts == cfg.start
  {
    SentBefore(cfg, w, ts);
    StillArmed(cfg, w, 0);
    LagBound(cfg, 0);
    assert cfg.TurnStart(0, w.h.rounds[0]) == cfg.start;
  }

  lemma OneWaits(cfg: Config, w: World, i: nat)
    requires Reached(cfg, w) && !cfg.async && cfg.Slot() == 0 && i < cfg.n
    ensures |w.servers[i].waiting| <= 1
  {
    QueueHolds(cfg, w, i);
    var created, k := w.h.created[i], |w.h.issued[i]|;
    if |w.servers[i].waiting| > 1 {
      CreationHolds(cfg, w, i, created[k]);
      CreationHolds(cfg, w, i, created[k + 1]);
      StandsStill(cfg, w, created[k]);
      StandsStill(cfg, w, created[k + 1]);
    }
  }

  /** The queue has room for every request still to come. */
  lemma HasRoom(cfg: Config, w: World, i: nat)
    requires Reached(cfg, w) && i < cfg.n && !cfg.async && cfg.bounded && cfg.n <= WIDTH && ClientIsSlow(cfg)
    requires Carried(w.agenda, i) != {}
    ensures |w.servers[i].waiting| <= 1000
  {
    if cfg.Slot() == 0 {
      OneWaits(cfg, w, i);
    } else {
      ShortQueue(cfg, w, i);
      hide Reached;
      if |w.servers[i].waiting| > 1000 {
        Monotone(1001, Load(w, i) - 1, cfg.Period());
        Monotone(1, cfg.n, cfg.Slot());
      }
    }
  }

  lemma CreationRoom(cfg: Config, w: World, step: Step)
    requires Reached(cfg, w) && Enabled(cfg, w, step) && FiresCreation(w, step)
    requires !cfg.async && cfg.bounded && cfg.n <= WIDTH && ClientIsSlow(cfg)
    ensures Apply(cfg, w, step).h.rejected == w.h.rejected
  {
    var i := w.agenda[step.uid].server;
    assert step.uid in Carried(w.agenda, i);
    HasRoom(cfg, w, i);
    CreationFires(cfg, w, step.uid, step.value, i, w.agenda[step.uid].event.request);
  }

  lemma {:induction false} RunTurnsNoneAway(cfg: Config, w: World, steps: seq<Step>)
    requires Reached(cfg, w) && Legal(cfg, w, steps) && w.h.rejected == {}
    requires !cfg.async && cfg.bounded && cfg.n <= WIDTH && ClientIsSlow(cfg)
    ensures Exec(cfg, w, steps).h.rejected == {}
    decreases |steps|
  {
    if steps != [] {
      Next(cfg, w, steps[0], Apply(cfg, w, steps[0]));
      if FiresCreation(w, steps[0]) { CreationRoom(cfg, w, steps[0]); } else { OthersCreateNothing(cfg, w, steps[0]); }
      RunTurnsNoneAway(cfg, Apply(cfg, w, steps[0]), steps[1..]);
    }
  }

  /** If a server's turns come at least as often as the client's requests to it, no request is ever
      turned away. */
  lemma NoneTurnedAway(cfg: Config, w: World)
    requires Reached(cfg, w) && !cfg.async && cfg.bounded && cfg.n <= WIDTH && ClientIsSlow(cfg)
    ensures w.h.rejected == {}
  {
    var last: nat, steps: seq<Step> :|
      last < WIDTH && Legal(cfg, InitialWorld(cfg, last), steps) && w == Exec(cfg, InitialWorld(cfg, last), steps);
    StartsHere(cfg, last);
    RunTurnsNoneAway(cfg, InitialWorld(cfg, last), steps);
  }

  /** Then, if nothing is lost, every request is on every server two periods, five deliveries and
      30 ns after it was sent, unless the stop comes before its turn. */
  lemma EveryRequestServed(cfg: Config, w: World, ts: nat, a: nat)
    requires Timely(cfg, w) && !cfg.async && cfg.n <= WIDTH && ClientIsSlow(cfg) && ts in w.h.requests && a < cfg.n
    requires ts + 2 * cfg.Period() + 2 * cfg.delay + 2 * HANDLING_DELAY < cfg.stop
    requires w.now > ts + 2 * cfg.Period() + 5 * cfg.delay + 3 * HANDLING_DELAY
    ensures ts in Ids(w.h.recorded[a])
  {
    NoneTurnedAway(cfg, w);
    var i, v, after := RequestServed(cfg, w, ts);
    ShortQueue(cfg, v, i);
    Monotone(|v.servers[i].waiting| - 1, if Load(v, i) > 0 then Load(v, i) - 1 else 0, cfg.Period());
    AboveFloor(|v.servers[i].waiting|, cfg.Period());
  }
}
