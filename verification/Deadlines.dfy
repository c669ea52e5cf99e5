/** What is certain by when: which decisions make it into every log, and how long a request takes. */
module Deadlines {
  import opened Division
  import opened PaxosData
  import opened DecisionLog
  import opened Cluster
  import opened Snapshots
  import opened Steps
  import opened Runs
  import opened Agreement
  import opened Timing
  import opened Progress

  // ---------- The logs ----------

  lemma StoppedServer(cfg: Config, w: World, i: nat)
    requires Reached(cfg, w) && cfg.bounded && i < cfg.n && w.now > cfg.stop
    ensures LateAfterCut(cfg, w.h, i)
  {
    ReachableScheduled(cfg, w);
    assert StopOk(cfg, w, i);
    if StopPending(cfg, w, i) {
      var u :| u in w.agenda && w.agenda[u] == Local(i, StopApplication, cfg.stop);
      ItemHolds(cfg, w, u);
    }
  }

  /** When a proposal is certain to be on a server. */
  lemma RecordedBy(cfg: Config, w: World, id: nat, a: nat)
    requires Timely(cfg, w) && id in w.h.ballots && a < cfg.n
    requires w.now > w.h.ballots[id].proposeTime + Reach(cfg, a)
    ensures id in Ids(w.h.recorded[a])
  {
    if cfg.async && a == cfg.leader { LeaderLatency(cfg, w, id); } else { NotLeader(cfg, w, id, a); }
  }

  lemma NotLeader(cfg: Config, w: World, id: nat, a: nat)
    requires Timely(cfg, w) && id in w.h.ballots && a < cfg.n && (cfg.async ==> a != cfg.leader)
    requires w.now > w.h.ballots[id].proposeTime + 3 * cfg.delay + HANDLING_DELAY
    ensures id in Ids(w.h.recorded[a])
  {
    ClusterLatency(cfg, w, id, a);
    if cfg.async { LeaderProposes(cfg, w, id); }
  }

  /** Whatever else was lost to the stop, on a bounded lossless network every log has every proposal
      broadcast more than 3D + 10 ns before it, the asynchronous leader's 4D + 10 ns. */
  lemma EarlyIsWritten(cfg: Config, w: World, id: nat, a: nat)
    requires Timely(cfg, w) && w.now > cfg.stop && id in w.h.ballots && a < cfg.n
    requires w.h.ballots[id].proposeTime + Reach(cfg, a) < cfg.stop
    ensures id in IdsOfRows(w.servers[a].log)
  {
    RecordedBy(cfg, w, id, a);
    StoppedServer(cfg, w, a);
    LogSorted(cfg, w, a);
    var rs, c := w.h.recorded[a], w.h.cut[a];
    var k :| 0 <= k < |rs| && rs[k].id == id;
    assert k < c && rs[..c][k].id == id;
  }

  ghost predicate AllEarly(cfg: Config, w: World, i: nat) {
    forall id :: id in w.h.ballots ==> w.h.ballots[id].proposeTime + Reach(cfg, i) < cfg.stop
  }

  /** If every broadcast was early enough, a log misses nothing and nothing is left over. */
  lemma LogComplete(cfg: Config, w: World, i: nat)
    requires Timely(cfg, w) && w.now > cfg.stop && i < cfg.n && AllEarly(cfg, w, i)
    ensures IdsOfRows(w.servers[i].log) == w.h.ballots.Keys && w.servers[i].decided == []
  {
    DecidedIsRecorded(cfg, w, i);
    StoppedServer(cfg, w, i);
    LogSorted(cfg, w, i);
    var rs, c := w.h.recorded[i], w.h.cut[i];
    assert c < |rs| ==> Late(cfg, w.h, i, rs[c].id, cfg.stop);
    assert rs[..c] == rs;
    forall id ensures id in IdsOfRows(w.servers[i].log) <==> id in w.h.ballots {
      if id in w.h.ballots { EarlyIsWritten(cfg, w, id, i); }
      if id in Ids(rs) { RecordIsBallot(cfg, w, i, id); }
    }
  }

  lemma RecordIsBallot(cfg: Config, w: World, i: nat, id: nat)
    requires Reached(cfg, w) && i < cfg.n && id in Ids(w.h.recorded[i])
    ensures id in w.h.ballots
  {
    var k :| 0 <= k < |w.h.recorded[i]| && w.h.recorded[i][k].id == id;
    RecordHolds(cfg, w, i, w.h.recorded[i][k]);
  }

  /** And two such logs are identical, row for row. */
  lemma LogsIdentical(cfg: Config, w: World, i: nat, j: nat)
    requires Timely(cfg, w) && w.now > cfg.stop && i < cfg.n && j < cfg.n && AllEarly(cfg, w, i) && AllEarly(cfg, w, j)
    ensures w.servers[i].log == w.servers[j].log
  {
    LogComplete(cfg, w, i);
    LogComplete(cfg, w, j);
    DecidedIsRecorded(cfg, w, i);
    DecidedIsRecorded(cfg, w, j);
    LogIds(cfg, w, i);
    LogIds(cfg, w, j);
    ReachableHolds(cfg, w);
    RecordsAgree(cfg, View(w), i, j);
    SameRows(w.h.recorded[i], w.h.recorded[j]);
  }

  /** A log with nothing left over is the drained record. */
  lemma LogIds(cfg: Config, w: World, i: nat)
    requires Reached(cfg, w) && i < cfg.n && w.servers[i].decided == []
    ensures w.servers[i].log == Rows(Drain(w.h.recorded[i])) && IdsOfRows(w.servers[i].log) == Ids(w.h.recorded[i])
  {
    DecidedIsRecorded(cfg, w, i);
    var rs, c := w.h.recorded[i], w.h.cut[i];
    assert rs[..c] == rs;
    DrainIds(rs);
    RowIds(Drain(rs));
  }

  // ---------- A request ----------

  lemma {:induction false} TurnsLater(cfg: Config, i: nat, r: nat, m: nat)
    ensures cfg.TurnStart(i, r + m) == cfg.TurnStart(i, r) + m * cfg.Period()
    decreases m
  {
    if m > 0 {
      TurnsLater(cfg, i, r, m - 1);
      NextTurn(cfg, i, r + m - 1);
      AboveFloor(m, cfg.Period());
    }
  }

  lemma FirstTurn(cfg: Config, i: nat)
    requires cfg.Valid() && i < cfg.n
    ensures cfg.TurnStart(i, 0) <= cfg.start + cfg.Period()
  {
    Multiples(i, cfg.n, cfg.Slot());
    LagBound(cfg, i);
  }

  /** A server's next turn is never more than a period away. */
  lemma TurnNear(cfg: Config, w: World, i: nat, q: nat)
    requires Reached(cfg, w) && !cfg.async && i < cfg.n
    ensures cfg.TurnStart(i, w.h.rounds[i] + q) <= w.now + (q + 1) * cfg.Period()
  {
    ReachableScheduled(cfg, w);
    assert RoundOk(cfg, w, i);
    var r := w.h.rounds[i];
    if r == 0 {
      FirstTurn(cfg, i);
      TurnsLater(cfg, i, 0, q);
      AboveFloor(q + 1, cfg.Period());
    } else {
      TurnsLater(cfg, i, r - 1, q + 1);
    }
  }

  /** A proposal whose turn has passed was broadcast in it, unless the stop came first. */
  lemma TurnHad(cfg: Config, w: World, i: nat, id: nat, turn: nat)
    requires Reached(cfg, w) && !cfg.async && i < cfg.n && Queued(w, i, id, turn)
    requires cfg.TurnStart(i, turn) < w.now && cfg.TurnStart(i, turn) < cfg.stop
    ensures HadTurn(w, i, id, turn) && w.h.ballots[id].proposeTime == cfg.TurnStart(i, turn)
  {
    if !HadTurn(w, i, id, turn) {
      var k :| WaitsAt(w, i, id, turn, k);
      LaterTurn(cfg, i, w.h.rounds[i], turn);
      StillArmed(cfg, w, i);
    }
    BallotHolds(cfg, w, id);
  }

  lemma StillArmed(cfg: Config, w: World, i: nat)
    requires Reached(cfg, w) && !cfg.async && i < cfg.n
    ensures w.now <= cfg.TurnStart(i, w.h.rounds[i]) || cfg.stop <= cfg.TurnStart(i, w.h.rounds[i])
  {
    ReachableScheduled(cfg, w);
    assert RoundOk(cfg, w, i);
    if TimerArmed(cfg, w, i) {
      var u :| u in w.agenda && w.agenda[u] == Local(i, SyncPropose, cfg.TurnStart(i, w.h.rounds[i]));
      ItemHolds(cfg, w, u);
    }
  }

  /** A proposal that waits behind q others is broadcast at one instant, which is known in advance:
      the start of its server's q-th turn from now, unless the stop comes first. */
  lemma BroadcastInTurn(cfg: Config, w: World, steps: seq<Step>, i: nat, q: nat, id: nat)
    requires Reached(cfg, w) && !cfg.async && i < cfg.n && Legal(cfg, w, steps)
    requires q < |w.servers[i].waiting| && w.servers[i].waiting[q].id == id
    requires cfg.TurnStart(i, w.h.rounds[i] + q) < cfg.stop
    requires cfg.TurnStart(i, w.h.rounds[i] + q) < Exec(cfg, w, steps).now
    ensures var h := Exec(cfg, w, steps).h;
      id in h.ballots && h.ballots[id].proposer == i && h.ballots[id].proposeTime == cfg.TurnStart(i, w.h.rounds[i] + q)
  {
    var turn := w.h.rounds[i] + q;
    assert WaitsAt(w, i, id, turn, q);
    ReachableHolds(cfg, w);
    RunQueued(cfg, w, steps, i, id, turn);
    ReachedLater(cfg, w, steps);
    TurnHad(cfg, Exec(cfg, w, steps), i, id, turn);
  }

  /** End to end: on a bounded lossless synchronous cluster a proposal that waits behind q others is
      decided on every server within q + 1 periods and 3D + 10 ns, unless the stop comes before its
      turn does. */
  lemma RequestLatency(cfg: Config, w: World, steps: seq<Step>, i: nat, q: nat, id: nat, a: nat)
    requires Timely(cfg, w) && !cfg.async && i < cfg.n && a < cfg.n && Legal(cfg, w, steps)
    requires q < |w.servers[i].waiting| && w.servers[i].waiting[q].id == id
    requires w.now + (q + 1) * cfg.Period() < cfg.stop
    requires w.now + (q + 1) * cfg.Period() + 3 * cfg.delay + HANDLING_DELAY < Exec(cfg, w, steps).now
    ensures a < |Exec(cfg, w, steps).h.recorded| && id in Ids(Exec(cfg, w, steps).h.recorded[a])
  {
    TurnNear(cfg, w, i, q);
    BroadcastInTurn(cfg, w, steps, i, q, id);
    ReachedLater(cfg, w, steps);
    RecordedBy(cfg, Exec(cfg, w, steps), id, a);
  }
}
