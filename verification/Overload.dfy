/** What happens when the client is faster than the turns of a server, and so when exactly requests
    are turned away. */
module Overload {
  import opened Division
  import opened PaxosData
  import opened RoundRobin
  import opened Cluster
  import opened Snapshots
  import opened Invariant
  import opened SafeMoves
  import opened Runs
  import opened Agreement
  import opened Timing
  import opened Progress
  import opened Deadlines
  import opened Requests
  import opened PaxosClient
  import opened ClientClock
  import opened Stability

  /** The requests to this server that were turned away. */
  ghost function TurnedAway(h: History, i: nat): set<nat> {
    Addressed(h, i) * h.rejected
  }

  ghost function Stamps(agenda: map<nat, Item>, i: nat): set<nat> {
    set u | u in Carried(agenda, i) :: StampOf(agenda[u])
  }

  // ---------- Counting ----------

  lemma {:induction false} FewMembers(q: seq<nat>)
    ensures |SetOf(q)| <= |q|
  {
    if q != [] {
      var last := |q| - 1;
      FewMembers(q[..last]);
      assert SetOf(q) == SetOf(q[..last]) + {q[last]};
    }
  }

  ghost function Image(us: set<nat>, key: map<nat, nat>): set<nat>
    requires us <= key.Keys
  {
    set u | u in us :: key[u]
  }

  lemma {:induction false} FewImages(us: set<nat>, key: map<nat, nat>)
    requires us <= key.Keys
    ensures |Image(us, key)| <= |us|
  {
    if u :| u in us {
      FewImages(us - {u}, key);
      assert Image(us, key) == Image(us - {u}, key) + {key[u]};
    }
  }

  lemma FewStamps(agenda: map<nat, Item>, i: nat)
    ensures |Stamps(agenda, i)| <= |Carried(agenda, i)|
  {
    var key := map u | u in Carried(agenda, i) :: StampOf(agenda[u]);
    FewImages(Carried(agenda, i), key);
    assert Stamps(agenda, i) == Image(Carried(agenda, i), key);
  }

  lemma IssuedHolds(cfg: Config, w: World, i: nat, id: nat)
    requires Reached(cfg, w) && i < cfg.n && id in w.h.issued[i]
    ensures id in w.h.ballots && w.h.ballots[id].proposer == i
  {
    ServerFacts(cfg, w, i);
  }

  /** A server broadcasts at most one proposal in each of its rounds. */
  lemma OnePerRound(cfg: Config, w: World, i: nat)
    requires Reached(cfg, w) && !cfg.async && i < cfg.n
    ensures |SetOf(w.h.issued[i])| <= w.h.rounds[i]
  {
    var ids, round := SetOf(w.h.issued[i]), map x | x in w.h.ballots :: w.h.ballots[x].round;
    forall x | x in ids ensures x in round && round[x] < w.h.rounds[i] {
      IssuedHolds(cfg, w, i, x);
      BallotSlot(cfg, w, x);
    }
    forall x, y | x in ids && y in ids && x != y ensures round[x] != round[y] {
      IssuedHolds(cfg, w, i, x);
      IssuedHolds(cfg, w, i, y);
      RoundsDiffer(cfg, w, x, y);
    }
    Pigeons(ids, round, 0, w.h.rounds[i]);
  }

  lemma RouteHolds(cfg: Config, w: World, ts: nat)
    requires Reached(cfg, w) && cfg.lossless && ts in w.h.requests
    ensures Shape(cfg, View(w)) && Routed(cfg, View(w), ts) && w.h.requests[ts].dst < cfg.n
  {
    ReachableHolds(cfg, w);
    RequestHolds(cfg, View(w), ts);
  }

  lemma StampHolds(cfg: Config, w: World, u: nat, ts: nat)
    requires Reached(cfg, w) && u in w.agenda && TokenOf(w.agenda[u]) == Token(AtRequest, ts, 0) && ts in w.h.requests
    ensures ts in Stamps(w.agenda, w.h.requests[ts].dst)
  {
    ItemHolds(cfg, w, u);
    assert u in Carried(w.agenda, w.h.requests[ts].dst) && StampOf(w.agenda[u]) == ts;
  }

  /** Where a request can be: nothing is lost. */
  lemma SomewhereHere(cfg: Config, w: World, i: nat, ts: nat)
    requires Reached(cfg, w) && cfg.lossless && i < cfg.n && ts in Addressed(w.h, i)
    ensures ts in TurnedAway(w.h, i) || ts in SetOf(w.h.created[i]) || ts in Stamps(w.agenda, i)
  {
    RouteHolds(cfg, w, ts);
    if Token(AtRequest, ts, 0) in View(w).live {
      var u :| u in w.agenda && TokenOf(w.agenda[u]) == Token(AtRequest, ts, 0);
      StampHolds(cfg, w, u, ts);
    }
  }

  lemma CreatedCount(cfg: Config, w: World, i: nat)
    requires Reached(cfg, w) && !cfg.async && i < cfg.n
    ensures |SetOf(w.h.created[i])| <= w.h.rounds[i] + 1001
  {
    var waiting := IdsInOrder(w.servers[i].waiting);
    OnePerRound(cfg, w, i);
    QueueHolds(cfg, w, i);
    FewMembers(waiting);
    assert SetOf(w.h.created[i]) == SetOf(w.h.issued[i]) + SetOf(waiting);
  }

  /** Conservation of requests: what is sent to a server is turned away, has had one of its rounds,
      waits there or is on its way. */
  lemma Accounted(cfg: Config, w: World, i: nat)
    requires Reached(cfg, w) && !cfg.async && cfg.lossless && i < cfg.n
    ensures |Addressed(w.h, i)| <= |TurnedAway(w.h, i)| + w.h.rounds[i] + 1001 + |Carried(w.agenda, i)|
  {
    var all := TurnedAway(w.h, i) + SetOf(w.h.created[i]) + Stamps(w.agenda, i);
    forall ts | ts in Addressed(w.h, i) ensures ts in all { SomewhereHere(cfg, w, i, ts); }
    CardinalityGrows(Addressed(w.h, i), all);
    CreatedCount(cfg, w, i);
    FewStamps(w.agenda, i);
  }

  // ---------- Rates ----------

  /** How many requests can be on the way to one server: as many as it is sent in one delivery and
      10 ns, and one more. */
  lemma FewCarried(cfg: Config, w: World, i: nat)
    requires Reached(cfg, w) && cfg.bounded && cfg.n <= WIDTH
    ensures Lap(cfg) > 0 && |Carried(w.agenda, i)| <= (cfg.delay + HANDLING_DELAY) / Lap(cfg) + 1
  {
    LapIsPositive(cfg);
    hide Lap, Reached;
    if Carried(w.agenda, i) != {} {
      var m := LatestCarried(cfg, w, i);
      SentBefore(cfg, w, m);
      WholeLaps(|Carried(w.agenda, i)| - 1, Lap(cfg), cfg.delay + HANDLING_DELAY);
    }
  }

  lemma LapIsPositive(cfg: Config)
    requires cfg.Valid()
    ensures Lap(cfg) > 0
  {
    Monotone(1, cfg.n, cfg.interval);
  }

  lemma WholeLaps(k: nat, lap: nat, t: nat)
    requires lap > 0 && k * lap <= t
    ensures k <= t / lap
  {
    Quotient(t, lap);
    if k > t / lap { Multiples(t / lap, k, lap); }
  }

  lemma FewRounds(cfg: Config, w: World, i: nat)
    requires Reached(cfg, w) && !cfg.async && i < cfg.n
    ensures cfg.start + w.h.rounds[i] * cfg.Period() <= w.now + cfg.Period()
  {
    LastTurn(cfg, w, i);
    hide Reached;
    if w.h.rounds[i] > 0 { RoundsSoFar(cfg, i, w.h.rounds[i], w.now); }
  }

  lemma RoundsSoFar(cfg: Config, i: nat, r: nat, now: nat)
    requires r > 0 && cfg.TurnStart(i, r - 1) <= now
    ensures cfg.start + r * cfg.Period() <= now + cfg.Period()
  {
    TurnsLater(cfg, i, 0, r - 1);
    AboveFloor(r, cfg.Period());
  }

  lemma LastTurn(cfg: Config, w: World, i: nat)
    requires Reached(cfg, w) && !cfg.async && i < cfg.n
    ensures i < |w.h.rounds| && cfg.start <= w.now
    ensures (w.h.rounds[i] > 0 ==> cfg.TurnStart(i, w.h.rounds[i] - 1) <= w.now)
  {
    ReachableScheduled(cfg, w);
    assert RoundOk(cfg, w, i);
  }

  /** The client's pace, as seen by one server. */
  lemma ManyAddressed(cfg: Config, w: World, i: nat)
    requires Reached(cfg, w) && cfg.n <= WIDTH && i < cfg.n && w.now < cfg.stop
    ensures w.now <= cfg.start + (|Addressed(w.h, i)| + 1) * Lap(cfg)
  {
    NeverIdle(cfg, w);
    RequestsBalanced(cfg, w, i);
    hide Reached;
    RoundPace(|w.h.requests|, |Addressed(w.h, i)|, cfg.n, cfg.interval);
  }

  lemma RoundPace(k: nat, c: nat, n: nat, interval: nat)
    requires n > 0 && k / n <= c
    ensures k * interval <= (c + 1) * (n * interval)
  {
    Quotient(k, n);
    Monotone(k / n, c, n);
    Monotone(k, c * n + n, interval);
    assert (c * n + n) * interval == (c + 1) * (n * interval);
  }

  /** Rates that differ part: what comes every `gap` and is served every `period` outgrows any slack,
      by the difference of the two. */
  lemma Diverges(c: nat, r: nat, t: nat, gap: nat, period: nat, slack: nat)
    requires gap < period && c <= r + slack && t <= (c + 1) * gap && r * period <= t + period
    ensures t * (period - gap) <= (slack + 2) * (period * gap)
  {
    Monotone(c + 1, r + slack + 1, gap);
    Monotone(t, (r + slack + 1) * gap, period);
    Monotone(r * period, t + period, gap);
    Rearranged(r, t, gap, period, slack);
  }

  lemma Rearranged(r: nat, t: nat, gap: nat, period: nat, slack: nat)
    requires gap < period
    ensures (r + slack + 1) * gap * period == r * period * gap + (slack + 1) * (period * gap)
    ensures (t + period) * gap == t * gap + period * gap
    ensures t * (period - gap) == t * period - t * gap
    ensures (slack + 2) * (period * gap) == (slack + 1) * (period * gap) + period * gap
  {
    assert (r + slack + 1) * gap * period == (r + slack + 1) * (period * gap);
    assert (r + slack + 1) * (period * gap) == r * (period * gap) + (slack + 1) * (period * gap);
  }

  // ---------- Turned away ----------

  /** By this time after the start, what comes faster than it is served has overflowed a queue. */
  ghost predicate Overdue(cfg: Config, t: nat)
    requires cfg.Valid()
  {
    LapIsPositive(cfg);
    t * (cfg.Period() - Lap(cfg)) >
    (1004 + (cfg.delay + 10) / Lap(cfg)) * (cfg.Period() * Lap(cfg))
  }

  lemma OverdueIsFast(cfg: Config, t: nat)
    requires cfg.Valid() && Overdue(cfg, t)
    ensures !ClientIsSlow(cfg)
  {
    LapIsPositive(cfg);
    hide Lap;
    NotGaining(t, cfg.Period(), Lap(cfg), 1004 + (cfg.delay + 10) / Lap(cfg));
  }

  lemma NotGaining(t: nat, period: nat, lap: nat, k: nat)
    requires t * (period - lap) > k * (period * lap)
    ensures period > lap
  {
  }

  /** If the client's requests come faster than a server's turns, then in every lossless run every
      server turns requests away once the difference has filled its queue. */
  lemma Overloaded(cfg: Config, w: World, i: nat)
    requires Reached(cfg, w) && !cfg.async && cfg.lossless && cfg.bounded && cfg.n <= WIDTH && i < cfg.n
    requires cfg.start <= w.now < cfg.stop && Overdue(cfg, w.now - cfg.start)
    ensures TurnedAway(w.h, i) != {}
  {
    if TurnedAway(w.h, i) == {} {
      Accounted(cfg, w, i);
      FewCarried(cfg, w, i);
      FewRounds(cfg, w, i);
      ManyAddressed(cfg, w, i);
      OverdueIsFast(cfg, w.now - cfg.start);
      hide Reached, Lap;
      Diverges(|Addressed(w.h, i)|, w.h.rounds[i], w.now - cfg.start, Lap(cfg), cfg.Period(),
               1002 + (cfg.delay + 10) / Lap(cfg));
    }
  }

  // ---------- Not before ----------

  /** A request to server i is turned away only because its queue is full. */
  ghost predicate Takes(cfg: Config, i: nat) { i < cfg.n && (cfg.async ==> i == cfg.leader) }

  /** Nothing was turned away while a full queue and one more had not been sent. */
  ghost predicate FullFirst(h: History, i: nat) {
    TurnedAway(h, i) != {} ==> |Addressed(h, i)| >= 1002
  }

  lemma {:induction false} AllMembers(q: seq<nat>)
    requires Distinct(q)
    ensures |SetOf(q)| == |q|
  {
    if q != [] {
      var last := |q| - 1;
      AllMembers(q[..last]);
      assert SetOf(q) == SetOf(q[..last]) + {q[last]};
      assert q[last] !in q[..last];
    }
  }

  lemma CreatedAddressed(cfg: Config, w: World, i: nat)
    requires Reached(cfg, w) && i < cfg.n
    ensures SetOf(w.h.created[i]) <= Addressed(w.h, i) && |SetOf(w.h.created[i])| >= |w.servers[i].waiting|
  {
    forall id | id in SetOf(w.h.created[i]) ensures id in Addressed(w.h, i) { CreationHolds(cfg, w, i, id); }
    QueueHolds(cfg, w, i);
    AllMembers(w.h.created[i]);
  }

  lemma DueHolds(cfg: Config, w: World, u: nat, i: nat, req: Request)
    requires Reached(cfg, w) && i < cfg.n && u in w.agenda && w.agenda[u].Local? && w.agenda[u].server == i
    requires w.agenda[u].event == CreateProposal(req)
    ensures req.timestamp in Addressed(w.h, i) && req.timestamp !in SetOf(w.h.created[i])
  {
    ItemHolds(cfg, w, u);
    TokenHolds(cfg, w, u);
  }

  /** A request that finds the queue full is at least the 1002nd to its server. */
  lemma FullQueue(cfg: Config, w: World, u: nat, i: nat, req: Request)
    requires Reached(cfg, w) && i < cfg.n && u in w.agenda && w.agenda[u].Local? && w.agenda[u].server == i
    requires w.agenda[u].event == CreateProposal(req) && |w.servers[i].waiting| > 1000
    ensures |Addressed(w.h, i)| >= 1002
  {
    DueHolds(cfg, w, u, i, req);
    CreatedAddressed(cfg, w, i);
    CardinalityGrows(SetOf(w.h.created[i]) + {req.timestamp}, Addressed(w.h, i));
  }

  /** Requests are remembered, and a new one has not been turned away. */
  lemma RequestsGrow(cfg: Config, w: World, step: Step, i: nat)
    requires Reached(cfg, w) && Enabled(cfg, w, step)
    ensures var h := Apply(cfg, w, step).h;
      && Addressed(w.h, i) <= Addressed(h, i)
      && (h.rejected == w.h.rejected ==> TurnedAway(h, i) == TurnedAway(w.h, i))
  {
    if step.Fire? && w.agenda[step.uid].ClientSend? {
      NotSentYet(cfg, w, step.uid);
      NotRejectedYet(cfg, w);
    } else {
      OthersSendNone(cfg, w, step);
    }
  }

  lemma NotRejectedYet(cfg: Config, w: World)
    requires Reached(cfg, w)
    ensures w.h.rejected <= w.h.requests.Keys
  {
    ReachableHolds(cfg, w);
  }

  lemma RefusedElsewhere(cfg: Config, w: World, step: Step, i: nat)
    requires Reached(cfg, w) && Enabled(cfg, w, step) && FiresRefusal(cfg, w, step) && Takes(cfg, i)
    ensures TurnedAway(Apply(cfg, w, step).h, i) == TurnedAway(w.h, i)
  {
    Refusal(cfg, w, step);
    ItemHolds(cfg, w, step.uid);
    OthersSendNone(cfg, w, step);
  }

  lemma CreationFull(cfg: Config, w: World, step: Step, i: nat)
    requires Reached(cfg, w) && Enabled(cfg, w, step) && FiresCreation(w, step) && FullFirst(w.h, i) && i < cfg.n
    ensures FullFirst(Apply(cfg, w, step).h, i)
  {
    var it := w.agenda[step.uid];
    ItemHolds(cfg, w, step.uid);
    CreationFires(cfg, w, step.uid, step.value, it.server, it.event.request);
    if it.server == i && |w.servers[i].waiting| > 1000 { FullQueue(cfg, w, step.uid, i, it.event.request); }
  }

  lemma FullStep(cfg: Config, w: World, step: Step, i: nat)
    requires Reached(cfg, w) && Enabled(cfg, w, step) && Takes(cfg, i) && FullFirst(w.h, i)
    ensures FullFirst(Apply(cfg, w, step).h, i)
  {
    hide Reached;
    RequestsGrow(cfg, w, step, i);
    CardinalityGrows(Addressed(w.h, i), Addressed(Apply(cfg, w, step).h, i));
    if FiresCreation(w, step) {
      CreationFull(cfg, w, step, i);
    } else if FiresRefusal(cfg, w, step) {
      RefusedElsewhere(cfg, w, step, i);
    } else {
      OthersCreateNothing(cfg, w, step);
    }
  }

  lemma {:induction false} RunFull(cfg: Config, w: World, steps: seq<Step>, i: nat)
    requires Reached(cfg, w) && Legal(cfg, w, steps) && Takes(cfg, i) && FullFirst(w.h, i)
    ensures FullFirst(Exec(cfg, w, steps).h, i)
    decreases |steps|
  {
    if steps != [] {
      FullStep(cfg, w, steps[0], i);
      Next(cfg, w, steps[0], Apply(cfg, w, steps[0]));
      RunFull(cfg, Apply(cfg, w, steps[0]), steps[1..], i);
    }
  }

  lemma ReachableFull(cfg: Config, w: World, i: nat)
    requires Reached(cfg, w) && Takes(cfg, i)
    ensures FullFirst(w.h, i)
  {
    var last: nat, steps: seq<Step> :|
      last < WIDTH && Legal(cfg, InitialWorld(cfg, last), steps) && w == Exec(cfg, InitialWorld(cfg, last), steps);
    StartsHere(cfg, last);
    RunFull(cfg, InitialWorld(cfg, last), steps, i);
  }

  lemma SameServer(cfg: Config, w: World, i: nat, x: nat, y: nat)
    requires Reached(cfg, w) && cfg.n <= WIDTH && x in Addressed(w.h, i) && y in Addressed(w.h, i) && x < y
    ensures x + Lap(cfg) <= y
  {
    RequestsApart(cfg, w, x, y);
  }

  /** k + 1 requests to one server take k laps of the client. */
  lemma LapsTaken(cfg: Config, w: World, i: nat)
    requires Reached(cfg, w) && cfg.n <= WIDTH && Addressed(w.h, i) != {}
    ensures cfg.start + (|Addressed(w.h, i)| - 1) * Lap(cfg) <= w.now
  {
    hide Reached, Lap;
    var all, key := Addressed(w.h, i), map ts | ts in Addressed(w.h, i) :: ts;
    forall ts | ts in all ensures cfg.start <= key[ts] <= w.now { SentBefore(cfg, w, ts); }
    forall x, y | x in all && y in all && x != y && key[x] <= key[y] ensures key[x] + Lap(cfg) <= key[y] {
      SameServer(cfg, w, i, x, y);
    }
    var u := LateOne(all, key, cfg.start, Lap(cfg));
  }

  /** Whatever the rates, losses and delays, no server that takes requests turns one away before the
      client has gone round 1001 times. */
  lemma NotBefore(cfg: Config, w: World, i: nat)
    requires Reached(cfg, w) && Takes(cfg, i) && cfg.n <= WIDTH && TurnedAway(w.h, i) != {}
    ensures |Addressed(w.h, i)| >= 1002 && cfg.start + 1001 * Lap(cfg) <= w.now
  {
    ReachableFull(cfg, w, i);
    LapsTaken(cfg, w, i);
    Monotone(1001, |Addressed(w.h, i)| - 1, Lap(cfg));
  }

  // ---------- Both sides ----------

  /** A lossless run has turned no request away, however long it has gone on, if the client's round of
      all the servers takes at least a period; and otherwise only until it is overdue. */
  lemma StableExactly(cfg: Config, w: World)
    requires Reached(cfg, w) && !cfg.async && cfg.lossless && cfg.bounded && cfg.n <= WIDTH
    requires cfg.start <= w.now < cfg.stop
    requires ClientIsSlow(cfg) || Overdue(cfg, w.now - cfg.start)
    ensures w.h.rejected == {} <==> cfg.Period() <= cfg.n * cfg.interval
  {
    if ClientIsSlow(cfg) {
      NoneTurnedAway(cfg, w);
    } else {
      Overloaded(cfg, w, 0);
      assert w.h.rejected != {};
    }
  }

  // ---------- The program's own client ----------

  /** The interval that the topology gives the synchronous client: a tenth of the delay, in 32 bits. */
  predicate Wired(cfg: Config) { cfg.interval == (cfg.delay / 10) % WIDTH }

  /** It is always too fast: the client sends each server at least ten requests in a period. */
  lemma WiredIsFast(cfg: Config)
    requires cfg.Valid() && Wired(cfg)
    ensures 10 * Lap(cfg) <= cfg.Period() && !ClientIsSlow(cfg)
  {
    LapIsPositive(cfg);
    Tenth(cfg.delay);
    Monotone(10 * cfg.interval, cfg.Slot(), cfg.n);
    assert 10 * cfg.interval * cfg.n == 10 * Lap(cfg);
  }

  lemma Tenth(d: nat)
    ensures 10 * ((d / 10) % WIDTH) <= d
  {
  }

  lemma WiredOverdue(cfg: Config, t: nat)
    requires cfg.Valid() && Wired(cfg)
    requires 9 * t > 10040 * Lap(cfg) + 10 * (cfg.delay + 10)
    ensures Overdue(cfg, t)
  {
    WiredIsFast(cfg);
    LapIsPositive(cfg);
    hide Lap, Wired;
    var lap, period, q := Lap(cfg), cfg.Period(), (cfg.delay + 10) / Lap(cfg);
    Quotient(cfg.delay + 10, lap);
    assert 9 * t > 10 * ((1004 + q) * lap);
    NineTenths(t, lap, period, 1004 + q);
  }

  lemma NineTenths(t: nat, lap: nat, period: nat, k: nat)
    requires 0 < 10 * lap <= period && 9 * t > 10 * (k * lap)
    ensures t * (period - lap) > k * (period * lap)
  {
    MonotoneRight(t, 9 * period, 10 * (period - lap));
    Multiples(10 * (k * lap), 9 * t, period);
    assert t * (10 * (period - lap)) == 10 * (t * (period - lap));
    assert t * (9 * period) == 9 * t * period;
    assert 10 * (k * lap) * period == 10 * (k * (period * lap));
  }

  /** So in every lossless run with the program's own interval, each server begins to turn requests
      away between 1001 laps of the client after the start and about a ninth more. */
  lemma WiredOverloads(cfg: Config, w: World, i: nat)
    requires Reached(cfg, w) && !cfg.async && cfg.lossless && cfg.bounded && cfg.n <= WIDTH && i < cfg.n && Wired(cfg)
    ensures TurnedAway(w.h, i) != {} ==> cfg.start + 1001 * Lap(cfg) <= w.now
    ensures var most := 10040 * Lap(cfg) + 10 * (cfg.delay + 10);
      cfg.start <= w.now < cfg.stop && 9 * (w.now - cfg.start) > most ==> TurnedAway(w.h, i) != {}
  {
    hide Overdue;
    WiredIsFast(cfg);
    LapIsPositive(cfg);
    if TurnedAway(w.h, i) != {} { NotBefore(cfg, w, i); }
    var most := 10040 * Lap(cfg) + 10 * (cfg.delay + 10);
    if cfg.start <= w.now < cfg.stop && 9 * (w.now - cfg.start) > most {
      WiredOverdue(cfg, w.now - cfg.start);
      Overloaded(cfg, w, i);
    }
  }
}
