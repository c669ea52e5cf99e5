/** When the queue of the asynchronous leader stays short. */
module LeaderLoad {
  import opened Division
  import opened PaxosData
  import opened DecisionLog
  import opened RoundRobin
  import opened Handlers
  import opened Cluster
  import opened SafeMoves
  import opened AgendaInvariant
  import opened Steps
  import opened Runs
  import opened Timing
  import opened Progress
  import opened Requests
  import opened LeaderTurns
  import opened PaxosClient
  import opened ClientClock
  import opened Stability
  import opened Overload

  /** The client sends the leader at most one request in an exchange. */
  predicate LeaderIsFast(cfg: Config) { Exchange(cfg) <= Lap(cfg) }

  /** Two exchanges and a poll. */
  function Allowance(cfg: Config): nat { 2 * Exchange(cfg) + POLL_DELAY }

  // ---------- Steps that add no load ----------

  lemma MessageWaits(cfg: Config, i: nat, v: Server, f: Frame, now: nat)
    requires i < cfg.n && cfg.async && !Completes(cfg, v, f)
    ensures ReceiveMessage(cfg, i, v, f, now).server.waiting == v.waiting
  {
  }

  /** Only the client adds to the leader's load, and only the leader's turn can lose it its poll. */
  lemma LighterLeader(cfg: Config, w: World, step: Step)
    requires WorldInv(cfg, w) && cfg.n > 0 && cfg.leader < cfg.n && Enabled(cfg, w, step) && cfg.async
    requires !TakesTurn(cfg, w, step) && !SendsTo(cfg, w, step, cfg.leader)
    ensures Lighter(w, Apply(cfg, w, step), cfg.leader)
  {
    hide WorldInv, Lighter, FireItem, Completes;
    var l := cfg.leader;
    match step
    case Fire(u, value) => {
      match w.agenda[u]
      case RequestTo(_, _, _) => LighterRequest(cfg, w, u, value, l);
      case FrameTo(j, f, _) =>
        if j == l { MessageWaits(cfg, l, w.servers[l], f, w.now); }
        LighterFrame(cfg, w, u, value, l);
      case Local(_, e, _) =>
        PollHolds(cfg, w, u);
        if e.CreateProposal? { LighterCreation(cfg, w, u, value, l); } else { LighterEvent(cfg, w, u, value, l); }
      case ClientSend(_) => {
        ClientFacts(cfg, w, u);
        LighterClient(cfg, w, u, value, l);
      }
    }
    case Drop(u) => LighterDrop(cfg, w, u, l);
    case Advance(_) => LighterWait(cfg, w, step.time, l);
  }

  // ---------- The leader's turn ----------

  /** What a turn does to the load. */
  ghost predicate Turned(w: World, w': World, i: nat) {
    && i < |w.servers| && i < |w'.servers| && w'.now == w.now && Carried(w'.agenda, i) <= Carried(w.agenda, i)
    && (forall ts :: ts in w.h.requests ==> ts in w'.h.requests && w'.h.requests[ts] == w.h.requests[ts])
    && |w'.servers[i].waiting| <= |w.servers[i].waiting|
  }

  lemma PollTurn(cfg: Config, w: World, u: nat, value: nat)
    requires cfg.n > 0 && Enabled(cfg, w, Fire(u, value)) && cfg.async && cfg.leader < cfg.n
    requires w.agenda[u] == Local(cfg.leader, AsyncPropose, w.now)
    ensures Turned(w, FireItem(cfg, w, u, value), cfg.leader)
  {
    var l := cfg.leader;
    EventOutputs(cfg, l, w.servers[l], AsyncPropose, w.now);
    CommitCarries(w, u, l, HandleEvent(cfg, l, w.servers[l], AsyncPropose, w.now), w.h, l);
    EventRequests(cfg, w.h, l, w.servers[l], AsyncPropose, w.now);
  }

  lemma CompletionTurn(cfg: Config, w: World, u: nat, value: nat)
    requires cfg.n > 0 && Enabled(cfg, w, Fire(u, value)) && cfg.async && cfg.leader < cfg.n
    requires w.agenda[u].FrameTo? && w.agenda[u].dst == cfg.leader
    ensures Turned(w, FireItem(cfg, w, u, value), cfg.leader)
  {
    var l, f := cfg.leader, w.agenda[u].frame;
    MessageOutputs(cfg, l, w.servers[l], f, w.now);
    CommitCarries(w, u, l, ReceiveMessage(cfg, l, w.servers[l], f, w.now), w.h, l);
    MessageRequests(cfg, w.h, l, w.servers[l], f, w.now);
    MessageShortens(cfg, l, w.servers[l], f, w.now);
  }

  lemma MessageShortens(cfg: Config, i: nat, v: Server, f: Frame, now: nat)
    requires i < cfg.n
    ensures |ReceiveMessage(cfg, i, v, f, now).server.waiting| <= |v.waiting|
  {
  }

  lemma TurnTurns(cfg: Config, w: World, step: Step)
    requires WorldInv(cfg, w) && cfg.n > 0 && cfg.leader < cfg.n && Enabled(cfg, w, step) && cfg.async
    requires TakesTurn(cfg, w, step)
    ensures Turned(w, Apply(cfg, w, step), cfg.leader)
  {
    hide WorldInv, Turned, FireItem, Completes;
    if Poll(w.agenda[step.uid]) {
      PollHolds(cfg, w, step.uid);
      PollTurn(cfg, w, step.uid, step.value);
    } else {
      CompletionTurn(cfg, w, step.uid, step.value);
    }
  }

  /** With no work waiting the leader polls again. */
  lemma PollPosted(w: World, u: nat, i: nat, v: Server, h: History)
    requires i < |w.servers|
    ensures var w' := Commit(w, u, i, Effect(v, [Schedule(POLL_DELAY, AsyncPropose)]), h);
      w.nextUid in w'.agenda && w'.agenda[w.nextUid] == Local(i, AsyncPropose, w.now + POLL_DELAY)
  {
    var items := ItemsOf(i, w.now, [Schedule(POLL_DELAY, AsyncPropose)]);
    assert Post(w.agenda - {u}, w.nextUid, items)[w.nextUid] == Numbered(items, w.nextUid, w.nextUid);
  }

  lemma IdleOutputs(cfg: Config, i: nat, v: Server, f: Frame, now: nat)
    requires i < cfg.n && cfg.async && v.waiting == [] && now < cfg.stop
    ensures HandleEvent(cfg, i, v, AsyncPropose, now).outputs == [Schedule(POLL_DELAY, AsyncPropose)]
    ensures Completes(cfg, v, f) ==>
              ReceiveMessage(cfg, i, v, f, now).outputs == [Schedule(POLL_DELAY, AsyncPropose)]
  {
  }

  lemma IdlePolls(cfg: Config, w: World, step: Step)
    requires WorldInv(cfg, w) && cfg.n > 0 && cfg.leader < cfg.n && Enabled(cfg, w, step) && cfg.async
    requires TakesTurn(cfg, w, step) && w.now < cfg.stop && w.servers[cfg.leader].waiting == []
    ensures FreeBy(cfg, Apply(cfg, w, step), w.now + POLL_DELAY)
  {
    var l, u, it := cfg.leader, step.uid, w.agenda[step.uid];
    var v := w.servers[l];
    if Poll(it) {
      PollHolds(cfg, w, u);
      IdleOutputs(cfg, l, v, Frame(0, 0, 0, 0, 0, 0, 0, 0), w.now);
      IdleCommits(cfg, w, u, HandleEvent(cfg, l, v, AsyncPropose, w.now),
                  EventHistory(cfg, w.h, l, v, AsyncPropose, w.now));
    } else {
      IdleOutputs(cfg, l, v, it.frame, w.now);
      IdleCommits(cfg, w, u, ReceiveMessage(cfg, l, v, it.frame, w.now),
                  MessageHistory(cfg, w.h, l, v, it.frame, w.now));
    }
  }

  lemma IdleCommits(cfg: Config, w: World, u: nat, e: Effect, h: History)
    requires cfg.leader < |w.servers| && e.outputs == [Schedule(POLL_DELAY, AsyncPropose)]
    ensures FreeBy(cfg, Commit(w, u, cfg.leader, e, h), w.now + POLL_DELAY)
  {
    PollPosted(w, u, cfg.leader, e.server, h);
    assert Poll(Commit(w, u, cfg.leader, e, h).agenda[w.nextUid]);
  }

  // ---------- The leader keeps up ----------

  /** Once the whole load has had its exchange, it is little later than this request. */
  ghost predicate LeaderBehind(cfg: Config, w: World, m: nat, s: nat)
    requires cfg.leader < |w.servers| && Load(w, cfg.leader) > 0
  {
    && m in w.h.requests && w.h.requests[m].dst == cfg.leader && FreeBy(cfg, w, s)
    && LineEnd(cfg, s, Load(w, cfg.leader) - 1) <= m + Allowance(cfg)
  }

  ghost predicate LeaderKeepsUp(cfg: Config, w: World) {
    && cfg.leader < |w.servers| && cfg.leader < |w.h.rounds|
    && (Load(w, cfg.leader) > 0 ==>
          && (w.now < cfg.stop ==> exists m: nat, s: nat :: LeaderBehind(cfg, w, m, s))
          && LineEnd(cfg, 0, Load(w, cfg.leader) - 1) <= Allowance(cfg))
  }

  lemma LineShifts(cfg: Config, s: nat, k: nat)
    ensures LineEnd(cfg, s, k) == s + LineEnd(cfg, 0, k)
  {
  }

  lemma LineShorter(cfg: Config, s: nat, j: nat, k: nat)
    requires j <= k
    ensures LineEnd(cfg, s, j) <= LineEnd(cfg, s, k)
  {
    Monotone(j + 1, k + 1, Exchange(cfg));
  }

  /** The load is bounded because the leader is not free before now. */
  lemma LoadBound(cfg: Config, w: World, m: nat, s: nat)
    requires Timely(cfg, w) && cfg.async && Load(w, cfg.leader) > 0 && LeaderBehind(cfg, w, m, s)
    ensures LeaderKeepsUp(cfg, w)
  {
    NotFreeYet(cfg, w, s);
    SentBefore(cfg, w, m);
    LineShifts(cfg, s, Load(w, cfg.leader) - 1);
  }

  lemma LighterLoad(cfg: Config, w: World, w': World)
    requires LeaderKeepsUp(cfg, w) && Lighter(w, w', cfg.leader) && w.now <= w'.now
    requires forall s: nat :: FreeBy(cfg, w, s) ==> FreeBy(cfg, w', s)
    ensures LeaderKeepsUp(cfg, w')
  {
    hide LineEnd, FreeBy, Allowance;
    if Load(w', cfg.leader) > 0 {
      LineShorter(cfg, 0, Load(w', cfg.leader) - 1, Load(w, cfg.leader) - 1);
      if w'.now < cfg.stop {
        var m: nat, s: nat :| LeaderBehind(cfg, w, m, s);
        LineShorter(cfg, s, Load(w', cfg.leader) - 1, Load(w, cfg.leader) - 1);
        assert LeaderBehind(cfg, w', m, s);
      }
    }
  }

  lemma RestStep(cfg: Config, w: World, step: Step)
    requires Timely(cfg, w) && cfg.async && Enabled(cfg, w, step) && LeaderKeepsUp(cfg, w)
    requires !TakesTurn(cfg, w, step) && !SendsTo(cfg, w, step, cfg.leader)
    ensures LeaderKeepsUp(cfg, Apply(cfg, w, step))
  {
    hide WorldInv, LeaderKeepsUp, Lighter;
    var w' := Apply(cfg, w, step);
    ReachableHolds(cfg, w);
    LighterLeader(cfg, w, step);
    TimeGrows(cfg, w, step);
    forall s: nat | FreeBy(cfg, w, s) ensures FreeBy(cfg, w', s) { FreeStep(cfg, w, step, s); }
    LighterLoad(cfg, w, w');
  }

  lemma FreeStep(cfg: Config, w: World, step: Step, s: nat)
    requires WorldInv(cfg, w) && cfg.n > 0 && cfg.leader < cfg.n && Enabled(cfg, w, step) && cfg.async
    requires !TakesTurn(cfg, w, step) && FreeBy(cfg, w, s)
    ensures FreeBy(cfg, Apply(cfg, w, step), s)
  {
    hide WorldInv, FreeBy, TakesTurn, Appends;
    StepAppends(cfg, w, step);
    LeaderRests(cfg, w, step);
    StaysFree(cfg, w, Apply(cfg, w, step), s);
  }

  /** The client's step adds at most one to the leader's load and leaves the leader as it is. */
  lemma SendFacts(cfg: Config, w: World, step: Step)
    requires Reached(cfg, w) && cfg.async && Enabled(cfg, w, step) && SendsTo(cfg, w, step, cfg.leader)
    ensures var w', l := Apply(cfg, w, step), cfg.leader;
      && Reached(cfg, w') && w'.now == w.now && w.now !in w.h.requests
      && l < |w'.h.rounds| && Load(w', l) <= Load(w, l) + 1
      && w'.h.requests == w.h.requests[w.now := RequestInfo(step.value, l)]
  {
    ClientDue(cfg, w, step.uid);
    NotSentYet(cfg, w, step.uid);
    SendAdds(cfg, w, step.uid, step.value, cfg.leader);
    NextReached(cfg, w, step.uid, step.value);
  }

  lemma FreeAfter(cfg: Config, w: World, step: Step, s: nat)
    requires Reached(cfg, w) && cfg.async && Enabled(cfg, w, step) && !TakesTurn(cfg, w, step) && FreeBy(cfg, w, s)
    ensures FreeBy(cfg, Apply(cfg, w, step), s)
  {
    hide WorldInv;
    ReachableHolds(cfg, w);
    FreeStep(cfg, w, step, s);
  }

  lemma SendIsNoTurn(cfg: Config, w: World, step: Step)
    requires cfg.n > 0 && SendsTo(cfg, w, step, cfg.leader)
    ensures !TakesTurn(cfg, w, step)
  {
  }

  /** A request finds the leader with nothing to do, or comes a whole round after the one before. */
  lemma SendStep(cfg: Config, w: World, step: Step)
    requires Timely(cfg, w) && cfg.async && Enabled(cfg, w, step) && LeaderKeepsUp(cfg, w)
    requires SendsTo(cfg, w, step, cfg.leader) && cfg.n <= WIDTH && LeaderIsFast(cfg)
    ensures LeaderKeepsUp(cfg, Apply(cfg, w, step))
  {
    hide LineEnd, FireItem, Load, FreeBy, Reachable;
    var w', l := Apply(cfg, w, step), cfg.leader;
    SendFacts(cfg, w, step);
    SendIsNoTurn(cfg, w, step);
    if Load(w', l) > 0 {
      var s := NextPlace(cfg, w, w');
      FreeAfter(cfg, w, step, s);
      assert LeaderBehind(cfg, w', w.now, s);
      LoadBound(cfg, w', w.now, s);
    }
  }

  /** Where the new request stands in line. */
  lemma NextPlace(cfg: Config, w: World, w': World) returns (s: nat)
    requires Timely(cfg, w) && cfg.async && Reached(cfg, w') && LeaderKeepsUp(cfg, w) && w.now < cfg.stop
    requires 0 < Load(w', cfg.leader) <= Load(w, cfg.leader) + 1 && cfg.n <= WIDTH && LeaderIsFast(cfg)
    requires w.now !in w.h.requests
    requires exists value :: w'.h.requests == w.h.requests[w.now := RequestInfo(value, cfg.leader)]
    ensures FreeBy(cfg, w, s) && LineEnd(cfg, s, Load(w', cfg.leader) - 1) <= w.now + Allowance(cfg)
  {
    hide LineEnd, FreeBy, Reachable;
    if Load(w, cfg.leader) == 0 {
      FreeSoon(cfg, w);
      s := w.now + Wait(cfg, w.servers[cfg.leader]);
      FirstInLine(cfg, w, w', s);
    } else {
      var m: nat;
      m, s :| LeaderBehind(cfg, w, m, s);
      SentBefore(cfg, w, m);
      NextInLine(cfg, w, w', m, s);
    }
  }

  lemma ClientDue(cfg: Config, w: World, u: nat)
    requires Reached(cfg, w) && u in w.agenda && w.agenda[u].ClientSend? && Ready(cfg, w, w.agenda[u])
    ensures w.agenda[u] == ClientSend(w.now)
  {
  }

  lemma FirstInLine(cfg: Config, w: World, w': World, s: nat)
    requires cfg.leader < |w.servers| && cfg.leader < |w'.servers| && s <= w.now + Exchange(cfg) + POLL_DELAY
    requires 0 < Load(w', cfg.leader) <= 1
    ensures LineEnd(cfg, s, Load(w', cfg.leader) - 1) <= w.now + Allowance(cfg)
  {
    LineNext(cfg, s, 0);
  }

  lemma NextInLine(cfg: Config, w: World, w': World, m: nat, s: nat)
    requires Reached(cfg, w') && cfg.leader < |w.servers| && cfg.leader < |w'.servers| && Load(w, cfg.leader) > 0
    requires LeaderBehind(cfg, w, m, s) && 0 < Load(w', cfg.leader) <= Load(w, cfg.leader) + 1
    requires cfg.n <= WIDTH && LeaderIsFast(cfg) && m < w.now && w.now in w'.h.requests && m in w'.h.requests
    requires w'.h.requests[m].dst == w'.h.requests[w.now].dst
    ensures LineEnd(cfg, s, Load(w', cfg.leader) - 1) <= w.now + Allowance(cfg)
  {
    RequestsApart(cfg, w', m, w.now);
    hide Reached;
    LineShorter(cfg, s, Load(w', cfg.leader) - 1, Load(w, cfg.leader));
    LineGrows(cfg, s, Load(w, cfg.leader));
  }

  lemma LineGrows(cfg: Config, s: nat, k: nat)
    requires k > 0
    ensures LineEnd(cfg, s, k) == LineEnd(cfg, s, k - 1) + Exchange(cfg)
  {
    LineNext(cfg, s, k);
  }

  // ---------- Turns ----------

  /** A turn with work waiting starts the next exchange, no later than the line allows. */
  lemma BusyTurn(cfg: Config, w: World, w': World, m: nat, s: nat)
    requires cfg.leader < |w.servers| && Load(w, cfg.leader) > 0 && LeaderBehind(cfg, w, m, s) && w.now <= s
    requires Issues(cfg, w, w') && Turned(w, w', cfg.leader) && Load(w', cfg.leader) > 0
    ensures LeaderBehind(cfg, w', m, w.now + Exchange(cfg))
  {
    var l, head := cfg.leader, w.servers[cfg.leader].waiting[0].id;
    CardinalityGrows(Carried(w'.agenda, l), Carried(w.agenda, l));
    assert FlightEnds(cfg, w', head, w.now + Exchange(cfg));
    hide LineEnd;
    LineNext(cfg, w.now, Load(w, l) - 1);
    LineEarlier(cfg, w.now, s, Load(w, l) - 1);
    LineShorter(cfg, w.now + Exchange(cfg), Load(w', l) - 1, Load(w, l) - 2);
  }

  /** A turn with none finds that whatever is still to come was sent lately. */
  lemma IdleTurnLoad(cfg: Config, w: World, w': World) returns (m: nat)
    requires Reached(cfg, w) && cfg.bounded && cfg.n <= WIDTH && LeaderIsFast(cfg)
    requires Turned(w, w', cfg.leader) && w.servers[cfg.leader].waiting == [] && Load(w', cfg.leader) > 0
    requires FreeBy(cfg, w', w.now + POLL_DELAY)
    ensures LeaderBehind(cfg, w', m, w.now + POLL_DELAY)
  {
    var l := cfg.leader;
    CardinalityGrows(Carried(w'.agenda, l), Carried(w.agenda, l));
    m := LatestCarried(cfg, w, l);
    hide Reached, FreeBy, Lap;
    IdleLine(cfg, w.now, |Carried(w.agenda, l)|, Load(w', l), m);
  }

  lemma IdleLine(cfg: Config, now: nat, k: nat, load: nat, m: nat)
    requires 0 < load <= k && LeaderIsFast(cfg) && now + (k - 1) * Lap(cfg) <= m + cfg.delay + HANDLING_DELAY
    ensures LineEnd(cfg, now + POLL_DELAY, load - 1) <= m + Allowance(cfg)
  {
    LineShorter(cfg, now + POLL_DELAY, load - 1, k - 1);
    MonotoneRight(k - 1, Exchange(cfg), Lap(cfg));
    LineNext(cfg, now + POLL_DELAY, k - 1);
  }

  lemma TurnFacts(cfg: Config, w: World, step: Step)
    requires Reached(cfg, w) && cfg.async && Enabled(cfg, w, step) && TakesTurn(cfg, w, step)
    ensures var w', l := Apply(cfg, w, step), cfg.leader;
      && Reached(cfg, w') && w'.now == w.now && Turned(w, w', l) && Load(w', l) <= Load(w, l)
      && (w.now < cfg.stop && w.servers[l].waiting != [] ==> Issues(cfg, w, w'))
      && (w.now < cfg.stop && w.servers[l].waiting == [] ==> FreeBy(cfg, w', w.now + POLL_DELAY))
  {
    hide WorldInv, TakesTurn, Issues, FreeBy;
    var w', l := Apply(cfg, w, step), cfg.leader;
    ReachableHolds(cfg, w);
    TurnTurns(cfg, w, step);
    Next(cfg, w, step, w');
    CardinalityGrows(Carried(w'.agenda, l), Carried(w.agenda, l));
    if w.now < cfg.stop {
      if w.servers[l].waiting != [] { TurnIssues(cfg, w, step); } else { IdlePolls(cfg, w, step); }
    }
  }

  lemma TurnStep(cfg: Config, w: World, step: Step)
    requires Timely(cfg, w) && cfg.async && Enabled(cfg, w, step) && LeaderKeepsUp(cfg, w)
    requires TakesTurn(cfg, w, step) && cfg.n <= WIDTH && LeaderIsFast(cfg) && w.now < cfg.stop
    ensures LeaderKeepsUp(cfg, Apply(cfg, w, step))
  {
    hide LineEnd, FreeBy, TakesTurn, Issues, Reachable, FireItem, Turned, LeaderBehind;
    var w', l := Apply(cfg, w, step), cfg.leader;
    TurnFacts(cfg, w, step);
    if Load(w', l) > 0 {
      var m: nat, s: nat;
      if w.servers[l].waiting != [] {
        m, s :| LeaderBehind(cfg, w, m, s);
        BehindIsAhead(cfg, w, m, s);
        BusyTurn(cfg, w, w', m, s);
        s := w.now + Exchange(cfg);
      } else {
        m := IdleTurnLoad(cfg, w, w');
        s := w.now + POLL_DELAY;
      }
      LoadBound(cfg, w', m, s);
    } else {
      NoLoad(cfg, w');
    }
  }

  lemma BehindIsAhead(cfg: Config, w: World, m: nat, s: nat)
    requires Timely(cfg, w) && cfg.async && Load(w, cfg.leader) > 0 && LeaderBehind(cfg, w, m, s)
    ensures w.now <= s
  {
    NotFreeYet(cfg, w, s);
  }

  lemma NoLoad(cfg: Config, w: World)
    requires Reached(cfg, w) && Load(w, cfg.leader) == 0
    ensures LeaderKeepsUp(cfg, w)
  {
  }

  /** After the stop nothing is added. */
  lemma LateTurn(cfg: Config, w: World, step: Step)
    requires Reached(cfg, w) && cfg.async && Enabled(cfg, w, step) && LeaderKeepsUp(cfg, w)
    requires TakesTurn(cfg, w, step) && cfg.stop <= w.now
    ensures LeaderKeepsUp(cfg, Apply(cfg, w, step))
  {
    hide LineEnd, TakesTurn, FireItem, Turned, Issues, FreeBy, Load, Allowance, Reachable;
    var w', l := Apply(cfg, w, step), cfg.leader;
    TurnFacts(cfg, w, step);
    if Load(w', l) > 0 { LineShorter(cfg, 0, Load(w', l) - 1, Load(w, l) - 1); }
  }

  // ---------- Every reachable world ----------

  lemma LoadStep(cfg: Config, w: World, step: Step)
    requires Timely(cfg, w) && cfg.async && Enabled(cfg, w, step) && LeaderKeepsUp(cfg, w)
    requires cfg.n <= WIDTH && LeaderIsFast(cfg)
    ensures LeaderKeepsUp(cfg, Apply(cfg, w, step))
  {
    hide Reached, LeaderKeepsUp;
    if TakesTurn(cfg, w, step) {
      if w.now < cfg.stop { TurnStep(cfg, w, step); } else { LateTurn(cfg, w, step); }
    } else if SendsTo(cfg, w, step, cfg.leader) {
      SendStep(cfg, w, step);
    } else {
      RestStep(cfg, w, step);
    }
  }

  lemma {:induction false} RunLoad(cfg: Config, w: World, steps: seq<Step>)
    requires Timely(cfg, w) && cfg.async && Legal(cfg, w, steps) && LeaderKeepsUp(cfg, w)
    requires cfg.n <= WIDTH && LeaderIsFast(cfg)
    ensures LeaderKeepsUp(cfg, Exec(cfg, w, steps))
    decreases |steps|
  {
    hide LeaderKeepsUp;
    if steps != [] {
      LoadStep(cfg, w, steps[0]);
      Next(cfg, w, steps[0], Apply(cfg, w, steps[0]));
      RunLoad(cfg, Apply(cfg, w, steps[0]), steps[1..]);
    }
  }

  lemma InitialLeaderLoad(cfg: Config, last: nat)
    requires cfg.Valid()
    ensures LeaderKeepsUp(cfg, InitialWorld(cfg, last))
  {
    var w := InitialWorld(cfg, last);
    forall u | u in w.agenda ensures !Carries(w.agenda[u], cfg.leader) {
      PostedItem(map[], 0, InitialItems(cfg), u);
      InitialItem(cfg, u);
    }
    assert Carried(w.agenda, cfg.leader) == {};
  }

  /** If an exchange takes no longer than the client's round of all the servers, the leader's queue, with
      all that is on the way to it, never takes longer than two exchanges and a poll. */
  lemma LeaderQueueShort(cfg: Config, w: World)
    requires Timely(cfg, w) && cfg.async && cfg.n <= WIDTH && LeaderIsFast(cfg)
    ensures Load(w, cfg.leader) * Exchange(cfg) <= 2 * Exchange(cfg) + POLL_DELAY
  {
    var last: nat, steps: seq<Step> :|
      last < WIDTH && Legal(cfg, InitialWorld(cfg, last), steps) && w == Exec(cfg, InitialWorld(cfg, last), steps);
    StartsHere(cfg, last);
    InitialLeaderLoad(cfg, last);
    RunLoad(cfg, InitialWorld(cfg, last), steps);
  }

  lemma LeaderHasRoom(cfg: Config, w: World)
    requires Timely(cfg, w) && cfg.async && cfg.n <= WIDTH && LeaderIsFast(cfg) && Carried(w.agenda, cfg.leader) != {}
    ensures |w.servers[cfg.leader].waiting| <= 1000
  {
    LeaderQueueShort(cfg, w);
    hide Reached;
    if |w.servers[cfg.leader].waiting| > 1000 {
      Monotone(1002, Load(w, cfg.leader), Exchange(cfg));
    }
  }

  /** The leader keeps every request, whoever else does not. */
  lemma LeaderCreates(cfg: Config, w: World, step: Step)
    requires Timely(cfg, w) && cfg.async && cfg.n <= WIDTH && LeaderIsFast(cfg)
    requires Enabled(cfg, w, step) && FiresCreation(w, step)
    ensures Apply(cfg, w, step).h.rejected == w.h.rejected
  {
    var u := step.uid;
    ItemHolds(cfg, w, u);
    assert u in Carried(w.agenda, cfg.leader);
    LeaderHasRoom(cfg, w);
    CreationFires(cfg, w, u, step.value, cfg.leader, w.agenda[u].event.request);
  }

  lemma LeaderKeepsStep(cfg: Config, w: World, step: Step)
    requires Timely(cfg, w) && cfg.async && cfg.n <= WIDTH && LeaderIsFast(cfg)
    requires Enabled(cfg, w, step) && TurnedAway(w.h, cfg.leader) == {}
    ensures TurnedAway(Apply(cfg, w, step).h, cfg.leader) == {}
  {
    RequestsGrow(cfg, w, step, cfg.leader);
    if FiresCreation(w, step) {
      LeaderCreates(cfg, w, step);
    } else if FiresRefusal(cfg, w, step) {
      RefusedElsewhere(cfg, w, step, cfg.leader);
    } else {
      OthersCreateNothing(cfg, w, step);
    }
  }

  lemma {:induction false} RunKeepsAll(cfg: Config, w: World, steps: seq<Step>)
    requires Timely(cfg, w) && cfg.async && cfg.n <= WIDTH && LeaderIsFast(cfg)
    requires Legal(cfg, w, steps) && TurnedAway(w.h, cfg.leader) == {}
    ensures TurnedAway(Exec(cfg, w, steps).h, cfg.leader) == {}
    decreases |steps|
  {
    if steps != [] {
      LeaderKeepsStep(cfg, w, steps[0]);
      Next(cfg, w, steps[0], Apply(cfg, w, steps[0]));
      RunKeepsAll(cfg, Apply(cfg, w, steps[0]), steps[1..]);
    }
  }

  /** Then the leader turns no request away. */
  lemma LeaderTurnsNoneAway(cfg: Config, w: World)
    requires Timely(cfg, w) && cfg.async && cfg.n <= WIDTH && LeaderIsFast(cfg)
    ensures TurnedAway(w.h, cfg.leader) == {}
  {
    var last: nat, steps: seq<Step> :|
      last < WIDTH && Legal(cfg, InitialWorld(cfg, last), steps) && w == Exec(cfg, InitialWorld(cfg, last), steps);
    StartsHere(cfg, last);
    RunKeepsAll(cfg, InitialWorld(cfg, last), steps);
  }

  /** And every request sent to it is on every server D + 10 ns, three exchanges and two polls after it
      was sent, unless the stop comes before its turn. */
  lemma EveryLeaderRequestServed(cfg: Config, w: World, ts: nat, a: nat)
    requires Timely(cfg, w) && cfg.async && cfg.n <= WIDTH && LeaderIsFast(cfg) && a < cfg.n
    requires ts in w.h.requests && w.h.requests[ts].dst == cfg.leader
    requires var done := ts + cfg.delay + HANDLING_DELAY + 3 * Exchange(cfg) + 2 * POLL_DELAY;
      done < cfg.stop + Exchange(cfg) && done < w.now
    ensures ts in Ids(w.h.recorded[a])
  {
    LeaderTurnsNoneAway(cfg, w);
    assert ts !in TurnedAway(w.h, cfg.leader);
    var v, after := LeaderServesRequest(cfg, w, ts);
    LeaderQueueShort(cfg, v);
    hide Reached;
    var k := |v.servers[cfg.leader].waiting|;
    Monotone(k, Load(v, cfg.leader), Exchange(cfg));
  }
}
