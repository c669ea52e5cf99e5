/** When the client sends, and how far apart the requests to one server are. */
module ClientClock {
  import opened Division
  import opened PaxosData
  import opened RoundRobin
  import opened Handlers
  import opened Cluster
  import opened Invariant
  import opened AgendaInvariant
  import opened Steps
  import opened Runs
  import opened Progress
  import opened PaxosClient

  /** When the client sends its j-th request, counted from 0. */
  function SendTime(cfg: Config, j: nat): nat { cfg.start + j * cfg.interval }

  /** The request with this timestamp was the j-th. */
  ghost predicate SentAs(cfg: Config, requests: map<nat, RequestInfo>, last: nat, ts: nat, j: nat)
    requires cfg.n > 0
  {
    && j < |requests| && ts == SendTime(cfg, j) && ts < cfg.stop
    && ts in requests && requests[ts].dst == LastAfter(last, cfg.n, j + 1)
  }

  ghost predicate Paced(cfg: Config, requests: map<nat, RequestInfo>, last: nat)
    requires cfg.n > 0
  {
    && (forall ts :: ts in requests ==> exists j: nat :: SentAs(cfg, requests, last, ts, j))
    && (forall j: nat :: j < |requests| ==> SentAs(cfg, requests, last, SendTime(cfg, j), j))
  }

  /** The client has sent one request each interval, in turn, and its timer stands for the next. */
  ghost predicate OnTheClock(cfg: Config, w: World, last: nat)
    requires cfg.n > 0
  {
    && w.lastServerId == LastAfter(last, cfg.n, |w.h.requests|) && Paced(cfg, w.h.requests, last)
    && (forall u :: u in w.agenda && w.agenda[u].ClientSend? ==> w.agenda[u].due == SendTime(cfg, |w.h.requests|))
  }

  // ---------- One step ----------

  /** No server ever sets the client's timer. */
  lemma OthersSetNoTimer(cfg: Config, w: World, step: Step, x: nat)
    requires cfg.n > 0 && Enabled(cfg, w, step) && !(step.Fire? && w.agenda[step.uid].ClientSend?)
    requires x in Apply(cfg, w, step).agenda && Apply(cfg, w, step).agenda[x].ClientSend?
    ensures x in w.agenda && w.agenda[x] == Apply(cfg, w, step).agenda[x]
  {
    hide ReceiveRequest, ReceiveMessage, HandleEvent;
  }

  lemma PacedMore(cfg: Config, requests: map<nat, RequestInfo>, last: nat, ts: nat, r: RequestInfo)
    requires cfg.n > 0 && Paced(cfg, requests, last) && ts !in requests && ts < cfg.stop
    requires ts == SendTime(cfg, |requests|) && r.dst == LastAfter(last, cfg.n, |requests| + 1)
    ensures Paced(cfg, requests[ts := r], last)
  {
    MoreRequests(requests, ts, r);
    var more := requests[ts := r];
    forall x | x in more ensures exists j: nat :: SentAs(cfg, more, last, x, j) {
      if x == ts {
        assert SentAs(cfg, more, last, ts, |requests|);
      } else {
        var j: nat :| SentAs(cfg, requests, last, x, j);
        assert SentAs(cfg, more, last, x, j);
      }
    }
    forall j: nat | j < |more| ensures SentAs(cfg, more, last, SendTime(cfg, j), j) {
      if j < |requests| { assert SentAs(cfg, requests, last, SendTime(cfg, j), j); }
    }
  }

  lemma NextDue(cfg: Config, k: nat)
    ensures SendTime(cfg, k) + cfg.interval == SendTime(cfg, k + 1)
  {
  }

  lemma ClientStep(cfg: Config, w: World, u: nat, value: nat, last: nat)
    requires cfg.n > 0 && WorldInv(cfg, w) && u in w.agenda && w.agenda[u] == ClientSend(w.now)
    requires OnTheClock(cfg, w, last) && w.now < cfg.stop
    ensures OnTheClock(cfg, FireClient(cfg, w, u, value), last)
  {
    hide WorldInv, Paced, LastAfter, SendTime;
    var dst := NextServer(w.lastServerId, cfg.n);
    ClientFacts(cfg, w, u);
    LastIsSent(last, cfg.n, |w.h.requests|);
    MoreRequests(w.h.requests, w.now, RequestInfo(value, dst));
    PacedMore(cfg, w.h.requests, last, w.now, RequestInfo(value, dst));
    NextDue(cfg, |w.h.requests|);
    OneClient(cfg, w, u, value);
  }

  lemma MoreRequests(requests: map<nat, RequestInfo>, ts: nat, r: RequestInfo)
    requires ts !in requests
    ensures |requests[ts := r]| == |requests| + 1
  {
    assert requests[ts := r].Keys == requests.Keys + {ts};
  }

  /** The timer that the client sets is the only one. */
  lemma OneClient(cfg: Config, w: World, u: nat, value: nat)
    requires cfg.n > 0 && WorldInv(cfg, w) && u in w.agenda && w.agenda[u] == ClientSend(w.now) && w.now < cfg.stop
    ensures var agenda := FireClient(cfg, w, u, value).agenda;
      forall x :: x in agenda && agenda[x].ClientSend? ==> agenda[x].due == w.now + cfg.interval
  {
    hide Inv, ItemsOk;
    var w' := FireClient(cfg, w, u, value);
    forall x | x in w'.agenda && w'.agenda[x].ClientSend? ensures w'.agenda[x].due == w.now + cfg.interval {
      PostedItem(w.agenda - {u}, w.nextUid, ClientOutputs(cfg, w.lastServerId, w.now, value), x);
    }
  }

  lemma ClockStep(cfg: Config, w: World, step: Step, last: nat)
    requires cfg.n > 0 && WorldInv(cfg, w) && Enabled(cfg, w, step) && OnTheClock(cfg, w, last)
    ensures OnTheClock(cfg, Apply(cfg, w, step), last)
  {
    hide WorldInv, Paced, SendTime;
    var w' := Apply(cfg, w, step);
    if step.Fire? && w.agenda[step.uid].ClientSend? {
      if w.now < cfg.stop { ClientStep(cfg, w, step.uid, step.value, last); }
    } else {
      OthersSendNone(cfg, w, step);
      forall x | x in w'.agenda && w'.agenda[x].ClientSend?
        ensures w'.agenda[x].due == SendTime(cfg, |w'.h.requests|)
      {
        OthersSetNoTimer(cfg, w, step, x);
      }
    }
  }

  /** The client has its timer set until its next send would come after the stop. */
  ghost predicate Armed(cfg: Config, w: World) {
    cfg.stop <= SendTime(cfg, |w.h.requests|) || exists u :: u in w.agenda && w.agenda[u].ClientSend?
  }

  lemma ClientRearms(cfg: Config, w: World, u: nat, value: nat)
    requires cfg.n > 0 && u in w.agenda && w.agenda[u] == ClientSend(w.now) && w.now == SendTime(cfg, |w.h.requests|)
    ensures Armed(cfg, FireClient(cfg, w, u, value))
  {
    if w.now < cfg.stop {
      var items, x := ClientOutputs(cfg, w.lastServerId, w.now, value), w.nextUid + 1;
      assert Post(w.agenda - {u}, w.nextUid, items)[x] == Numbered(items, w.nextUid, x) == items[1];
    }
  }

  lemma ArmedStep(cfg: Config, w: World, step: Step, last: nat)
    requires cfg.n > 0 && WorldInv(cfg, w) && Enabled(cfg, w, step) && OnTheClock(cfg, w, last) && Armed(cfg, w)
    ensures Armed(cfg, Apply(cfg, w, step))
  {
    hide WorldInv, SendTime, Paced;
    if step.Fire? && w.agenda[step.uid].ClientSend? {
      ClientRearms(cfg, w, step.uid, step.value);
    } else {
      OthersSendNone(cfg, w, step);
      if SendTime(cfg, |w.h.requests|) < cfg.stop {
        var u :| u in w.agenda && w.agenda[u].ClientSend?;
        ItemStays(cfg, w, step, u);
      }
    }
  }

  lemma {:induction false} RunOnTheClock(cfg: Config, w: World, steps: seq<Step>, last: nat)
    requires cfg.n > 0 && WorldInv(cfg, w) && Legal(cfg, w, steps) && OnTheClock(cfg, w, last) && Armed(cfg, w)
    ensures OnTheClock(cfg, Exec(cfg, w, steps), last) && Armed(cfg, Exec(cfg, w, steps))
    decreases |steps|
  {
    if steps != [] {
      StepKeeps(cfg, w, steps[0]);
      ClockStep(cfg, w, steps[0], last);
      ArmedStep(cfg, w, steps[0], last);
      RunOnTheClock(cfg, Apply(cfg, w, steps[0]), steps[1..], last);
    }
  }

  // ---------- Every reachable world ----------

  lemma InitialClock(cfg: Config, last: nat)
    requires cfg.Valid()
    ensures OnTheClock(cfg, InitialWorld(cfg, last), last) && Armed(cfg, InitialWorld(cfg, last))
  {
    var w := InitialWorld(cfg, last);
    assert w.agenda[0] == Numbered(InitialItems(cfg), 0, 0) == ClientSend(cfg.start);
    forall u | u in w.agenda && w.agenda[u].ClientSend? ensures w.agenda[u].due == SendTime(cfg, 0) {
      PostedItem(map[], 0, InitialItems(cfg), u);
      InitialItem(cfg, u);
    }
  }

  /** The client keeps time: in every reachable world it has sent its requests at start, start plus
      one interval, and so on, all before the stop, each to the next server in turn. */
  lemma KeepsTime(cfg: Config, w: World) returns (last: nat)
    requires Reached(cfg, w)
    ensures last < WIDTH && OnTheClock(cfg, w, last) && Armed(cfg, w)
  {
    var first: nat, steps: seq<Step> :|
      first < WIDTH && Legal(cfg, InitialWorld(cfg, first), steps) && w == Exec(cfg, InitialWorld(cfg, first), steps);
    InitialHolds(cfg, first);
    InitialClock(cfg, first);
    RunOnTheClock(cfg, InitialWorld(cfg, first), steps, first);
    last := first;
  }

  /** So no interval passes without a request before the stop. */
  lemma NeverIdle(cfg: Config, w: World)
    requires Reached(cfg, w)
    ensures w.now <= SendTime(cfg, |w.h.requests|) || cfg.stop <= SendTime(cfg, |w.h.requests|)
  {
    var last := KeepsTime(cfg, w);
    if SendTime(cfg, |w.h.requests|) < cfg.stop {
      var u :| u in w.agenda && w.agenda[u].ClientSend?;
      ItemHolds(cfg, w, u);
    }
  }

  /** The same server comes up again only after a whole round. */
  lemma RoundApart(last: nat, n: nat, j: nat, k: nat)
    requires 0 < n <= WIDTH && j < k && LastAfter(last, n, j + 1) == LastAfter(last, n, k + 1)
    ensures j + n <= k
  {
    var first := NextServer(last, n);
    LastIsTurn(last, n, j);
    LastIsTurn(last, n, k);
    TurnOffset(first, n, j);
    TurnOffset(first, n, k);
    SameRemainder(j, k, n);
  }

  lemma SameRemainder(j: nat, k: nat, n: nat)
    requires n > 0 && j < k && j % n == k % n
    ensures j + n <= k
  {
    if j / n < k / n { Multiples(j / n, k / n, n); } else { Monotone(k / n, j / n, n); }
  }

  /** Two requests to the same server are at least n intervals apart. */
  lemma RequestsApart(cfg: Config, w: World, x: nat, y: nat)
    requires Reached(cfg, w) && cfg.n <= WIDTH && x in w.h.requests && y in w.h.requests && x < y
    requires w.h.requests[x].dst == w.h.requests[y].dst
    ensures x + cfg.n * cfg.interval <= y
  {
    hide Reached;
    var last := KeepsTime(cfg, w);
    var j: nat :| SentAs(cfg, w.h.requests, last, x, j);
    var k: nat :| SentAs(cfg, w.h.requests, last, y, k);
    if k <= j { Monotone(k, j, cfg.interval); }
    RoundApart(last, cfg.n, j, k);
    LaterBy(j, k, cfg.n, cfg.interval);
  }

  lemma LaterBy(j: nat, k: nat, n: nat, interval: nat)
    requires j + n <= k
    ensures j * interval + n * interval <= k * interval
  {
    Monotone(j + n, k, interval);
    assert (j + n) * interval == j * interval + n * interval;
  }
}
