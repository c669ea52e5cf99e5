/** What the logs of a synchronous cluster say, known from the configuration alone: with a client slow
    enough for the slots they list every request sent early enough, in the order of sending. */
module WrittenLogs {
  import opened Division
  import opened PaxosData
  import opened DecisionLog
  import opened RoundRobin
  import opened Cluster
  import opened Agreement
  import opened Timing
  import opened Deadlines
  import opened Requests
  import opened ClientClock
  import opened Stability

  /** A bounded lossless synchronous cluster whose client is slow enough. */
  ghost predicate Calm(cfg: Config, w: World) {
    Timely(cfg, w) && !cfg.async && cfg.n <= WIDTH && ClientIsSlow(cfg)
  }

  /** How long after its send a request is broadcast at the latest, and how long until every server
      has it. */
  function ToBroadcast(cfg: Config): nat { 2 * cfg.Period() + 2 * cfg.delay + 2 * HANDLING_DELAY }
  function ToRecord(cfg: Config): nat { ToBroadcast(cfg) + 3 * cfg.delay + HANDLING_DELAY }

  // ---------- Each early request is in every log ----------

  lemma TurnComesSoon(cfg: Config, v: World, i: nat, ts: nat)
    requires Calm(cfg, v) && JustJoined(cfg, v, i, ts)
    ensures cfg.TurnStart(i, v.h.rounds[i] + |v.servers[i].waiting| - 1) <= ts + ToBroadcast(cfg)
  {
    TurnNear(cfg, v, i, |v.servers[i].waiting| - 1);
    ShortQueue(cfg, v, i);
    Monotone(|v.servers[i].waiting| - 1, Load(v, i) - 1, cfg.Period());
    AboveFloor(|v.servers[i].waiting|, cfg.Period());
  }

  /** Every request is broadcast within 2 periods + 2D + 20 ns of its send. */
  lemma BroadcastSoon(cfg: Config, w: World, ts: nat)
    requires Calm(cfg, w) && ts in w.h.requests && ts + ToBroadcast(cfg) < cfg.stop && ts + ToBroadcast(cfg) < w.now
    ensures ts in w.h.ballots && w.h.ballots[ts].proposeTime <= ts + ToBroadcast(cfg)
  {
    NoneTurnedAway(cfg, w);
    hide Reached;
    var i, v, after := RequestServed(cfg, w, ts);
    TurnComesSoon(cfg, v, i, ts);
    BroadcastInTurn(cfg, v, after, i, |v.servers[i].waiting| - 1, ts);
  }

  /** So every log has every request sent more than 2 periods + 5D + 30 ns before the stop. */
  lemma EarlyRequestWritten(cfg: Config, w: World, ts: nat, a: nat)
    requires Calm(cfg, w) && w.now > cfg.stop && a < cfg.n && ts in w.h.requests && ts + ToRecord(cfg) < cfg.stop
    ensures ts in IdsOfRows(w.servers[a].log)
  {
    BroadcastSoon(cfg, w, ts);
    EarlyIsWritten(cfg, w, ts, a);
  }

  // ---------- Logs begin alike ----------

  /** The requests sent early enough. */
  ghost function EarlyOnes(cfg: Config, h: History): set<nat> {
    set ts | ts in h.requests && ts + ToRecord(cfg) < cfg.stop
  }

  ghost predicate Increasing(rows: seq<Row>) {
    forall j, k :: 0 <= j < k < |rows| ==> rows[j].proposalId < rows[k].proposalId
  }

  /** A set of ids that contains every id of the rows below one of its own is a prefix of them. */
  lemma {:induction false} SmallestFirst(rows: seq<Row>, ids: set<nat>)
    requires Increasing(rows) && ids <= IdsOfRows(rows)
    requires forall j, k :: 0 <= j < k < |rows| && rows[k].proposalId in ids ==> rows[j].proposalId in ids
    ensures |ids| <= |rows| && forall k :: 0 <= k < |rows| ==> (rows[k].proposalId in ids <==> k < |ids|)
  {
    if rows == [] {
      assert ids == {};
    } else {
      var last := |rows| - 1;
      LastRow(rows);
      if rows[last].proposalId in ids {
        AllRowsIn(rows, ids);
      } else {
        SmallestFirst(rows[..last], ids);
        assert rows == rows[..last] + [rows[last]];
      }
    }
  }

  lemma AllRowsIn(rows: seq<Row>, ids: set<nat>)
    requires Increasing(rows) && ids <= IdsOfRows(rows) && rows != [] && rows[|rows| - 1].proposalId in ids
    requires forall j, k :: 0 <= j < k < |rows| && rows[k].proposalId in ids ==> rows[j].proposalId in ids
    ensures |ids| == |rows| && forall k :: 0 <= k < |rows| ==> rows[k].proposalId in ids
  {
    forall k | 0 <= k < |rows| ensures rows[k].proposalId in ids {
      if k < |rows| - 1 { assert rows[|rows| - 1].proposalId in ids; }
    }
    assert ids == IdsOfRows(rows);
    CountIds(rows);
  }

  lemma {:induction false} CountIds(rows: seq<Row>)
    requires Increasing(rows)
    ensures |IdsOfRows(rows)| == |rows|
  {
    if rows != [] {
      LastRow(rows);
      CountIds(rows[..|rows| - 1]);
    }
  }

  lemma LastRow(rows: seq<Row>)
    requires rows != []
    ensures IdsOfRows(rows) == IdsOfRows(rows[..|rows| - 1]) + {rows[|rows| - 1].proposalId}
  {
    forall id | id in IdsOfRows(rows) ensures id in IdsOfRows(rows[..|rows| - 1]) + {rows[|rows| - 1].proposalId} {
      var k :| 0 <= k < |rows| && rows[k].proposalId == id;
      if k < |rows| - 1 { assert rows[..|rows| - 1][k] == rows[k]; }
    }
    assert forall k :: 0 <= k < |rows| - 1 ==> rows[..|rows| - 1][k] == rows[k];
  }

  /** The ids of a log are requests, in the order of sending. */
  lemma LogIsRequests(cfg: Config, w: World, i: nat)
    requires Reached(cfg, w) && i < cfg.n
    ensures Increasing(w.servers[i].log) && IdsOfRows(w.servers[i].log) <= w.h.requests.Keys
  {
    LogSorted(cfg, w, i);
    forall k | 0 <= k < |w.servers[i].log| ensures w.servers[i].log[k].proposalId in w.h.requests {
      LogValidity(cfg, w, i, k);
    }
  }

  /** Every log begins with exactly the early requests. */
  lemma BeginsEarly(cfg: Config, w: World, i: nat)
    requires Calm(cfg, w) && w.now > cfg.stop && i < cfg.n
    ensures var early, log := EarlyOnes(cfg, w.h), w.servers[i].log;
      && Increasing(log) && |early| <= |log|
      && forall k :: 0 <= k < |log| ==> (log[k].proposalId in early <==> k < |early|)
  {
    var early, log := EarlyOnes(cfg, w.h), w.servers[i].log;
    LogIsRequests(cfg, w, i);
    hide Reached;
    forall ts | ts in early ensures ts in IdsOfRows(log) { EarlyRequestWritten(cfg, w, ts, i); }
    forall k | 0 <= k < |log| ensures log[k].proposalId in w.h.requests { assert log[k].proposalId in IdsOfRows(log); }
    SmallestFirst(log, early);
  }

  ghost predicate Rising(q: seq<nat>) {
    forall j, k :: 0 <= j < k < |q| ==> q[j] < q[k]
  }

  /** Two increasing sequences of the same numbers are equal. */
  lemma {:induction false} RisingUnique(p: seq<nat>, q: seq<nat>)
    requires Rising(p) && Rising(q) && SetOf(p) == SetOf(q)
    ensures p == q
  {
    if p == [] {
      if q != [] { HasMember(q); }
    } else {
      var m, l := |p| - 1, |q| - 1;
      assert p[m] in SetOf(q);
      assert p[m] in q && q[l] in SetOf(p);
      DropLast(p);
      DropLast(q);
      RisingUnique(p[..m], q[..l]);
      assert p == p[..m] + [p[m]] && q == q[..l] + [q[l]];
    }
  }

  lemma HasMember(q: seq<nat>)
    requires q != []
    ensures SetOf(q) != {}
  {
    assert q[0] in SetOf(q);
  }

  lemma DropLast(p: seq<nat>)
    requires Rising(p) && p != []
    ensures SetOf(p[..|p| - 1]) == SetOf(p) - {p[|p| - 1]}
  {
    assert p == p[..|p| - 1] + [p[|p| - 1]];
  }

  function IdsInRows(rows: seq<Row>): (q: seq<nat>)
    ensures |q| == |rows| && forall k :: 0 <= k < |q| ==> q[k] == rows[k].proposalId
  {
    seq(|rows|, k requires 0 <= k < |rows| => rows[k].proposalId)
  }

  lemma PrefixIds(rows: seq<Row>, ids: set<nat>)
    requires Increasing(rows) && ids <= IdsOfRows(rows) && |ids| <= |rows|
    requires forall k :: 0 <= k < |rows| ==> (rows[k].proposalId in ids <==> k < |ids|)
    ensures Rising(IdsInRows(rows[..|ids|])) && SetOf(IdsInRows(rows[..|ids|])) == ids
  {
    forall x | x in ids ensures x in IdsInRows(rows[..|ids|]) {
      var k :| 0 <= k < |rows| && rows[k].proposalId == x;
      assert IdsInRows(rows[..|ids|])[k] == x;
    }
  }

  /** Whatever the stop cuts off, all logs begin with the same rows: exactly the requests sent more than
      2 periods + 5D + 30 ns before it. */
  lemma LogsBeginAlike(cfg: Config, w: World, i: nat, j: nat)
    requires Calm(cfg, w) && w.now > cfg.stop && i < cfg.n && j < cfg.n
    ensures var m := |EarlyOnes(cfg, w.h)|;
      && m <= |w.servers[i].log| && m <= |w.servers[j].log| && w.servers[i].log[..m] == w.servers[j].log[..m]
      && IdsOfRows(w.servers[i].log[..m]) == EarlyOnes(cfg, w.h)
  {
    var early, a, b := EarlyOnes(cfg, w.h), w.servers[i].log, w.servers[j].log;
    var m := |early|;
    PrefixHolds(cfg, w, i);
    PrefixHolds(cfg, w, j);
    RisingUnique(IdsInRows(a[..m]), IdsInRows(b[..m]));
    forall k | 0 <= k < m ensures a[k] == b[k] {
      assert IdsInRows(a[..m])[k] == IdsInRows(b[..m])[k];
      SameRow(cfg, w, i, j, k);
    }
    assert IdsOfRows(a[..m]) == early by { PrefixSet(a[..m], early); }
  }

  lemma PrefixSet(rows: seq<Row>, ids: set<nat>)
    requires SetOf(IdsInRows(rows)) == ids
    ensures IdsOfRows(rows) == ids
  {
    forall x ensures x in IdsOfRows(rows) <==> x in ids {
      if x in ids { assert x in IdsInRows(rows); }
      if x in IdsOfRows(rows) {
        var k :| 0 <= k < |rows| && rows[k].proposalId == x;
        assert IdsInRows(rows)[k] == x;
      }
    }
  }

  lemma PrefixHolds(cfg: Config, w: World, i: nat)
    requires Calm(cfg, w) && w.now > cfg.stop && i < cfg.n
    ensures var early, log := EarlyOnes(cfg, w.h), w.servers[i].log;
      |early| <= |log| && Rising(IdsInRows(log[..|early|])) && SetOf(IdsInRows(log[..|early|])) == early
  {
    var early, log := EarlyOnes(cfg, w.h), w.servers[i].log;
    BeginsEarly(cfg, w, i);
    hide Reached;
    forall ts | ts in early ensures ts in IdsOfRows(log) { EarlyRequestWritten(cfg, w, ts, i); }
    PrefixIds(log, early);
  }

  lemma SameRow(cfg: Config, w: World, i: nat, j: nat, k: nat)
    requires Reached(cfg, w) && i < cfg.n && j < cfg.n && k < |w.servers[i].log| && k < |w.servers[j].log|
    requires w.servers[i].log[k].proposalId == w.servers[j].log[k].proposalId
    ensures w.servers[i].log[k] == w.servers[j].log[k]
  {
    LogsAgree(cfg, w, i, j, k, k);
    var r := RowRecord(cfg, w, j, k);
  }

  // ---------- Logs known in advance ----------

  /** How many requests the client sends before the stop. */
  function SendCount(cfg: Config): nat
    requires cfg.Valid()
  {
    if cfg.start == cfg.stop then 0 else (cfg.stop - 1 - cfg.start) / cfg.interval + 1
  }

  lemma SendsBeforeStop(cfg: Config, j: nat)
    requires cfg.Valid()
    ensures SendTime(cfg, j) < cfg.stop <==> j < SendCount(cfg)
  {
    if cfg.start < cfg.stop {
      var q := (cfg.stop - 1 - cfg.start) / cfg.interval;
      Quotient(cfg.stop - 1 - cfg.start, cfg.interval);
      if j <= q { Monotone(j, q, cfg.interval); } else { Multiples(q, j, cfg.interval); }
    }
  }

  /** After the stop exactly these requests have been sent. */
  lemma AllSent(cfg: Config, w: World) returns (last: nat)
    requires Reached(cfg, w) && w.now > cfg.stop
    ensures last < WIDTH && |w.h.requests| == SendCount(cfg) && Paced(cfg, w.h.requests, last)
  {
    last := KeepsTime(cfg, w);
    NeverIdle(cfg, w);
    hide Reached, SendTime;
    var k := |w.h.requests|;
    SendsBeforeStop(cfg, k);
    if k > 0 {
      assert SentAs(cfg, w.h.requests, last, SendTime(cfg, k - 1), k - 1);
      SendsBeforeStop(cfg, k - 1);
    }
  }

  lemma TimesRise(cfg: Config, j: nat, k: nat)
    requires cfg.Valid() && j < k
    ensures SendTime(cfg, j) < SendTime(cfg, k)
  {
    Multiples(j, k, cfg.interval);
  }

  /** The last send is early enough. */
  ghost predicate EndsEarly(cfg: Config)
    requires cfg.Valid()
  {
    SendCount(cfg) > 0 ==> SendTime(cfg, SendCount(cfg) - 1) + ToRecord(cfg) < cfg.stop
  }

  lemma AllAreEarly(cfg: Config, w: World, last: nat)
    requires Reached(cfg, w) && |w.h.requests| == SendCount(cfg) && Paced(cfg, w.h.requests, last) && EndsEarly(cfg)
    ensures EarlyOnes(cfg, w.h) == w.h.requests.Keys
  {
    forall ts | ts in w.h.requests ensures ts + ToRecord(cfg) < cfg.stop {
      RequestIsEarly(cfg, w.h.requests, last, ts);
    }
  }

  lemma RequestIsEarly(cfg: Config, requests: map<nat, RequestInfo>, last: nat, ts: nat)
    requires cfg.Valid() && |requests| == SendCount(cfg) && Paced(cfg, requests, last) && EndsEarly(cfg)
    requires ts in requests
    ensures ts + ToRecord(cfg) < cfg.stop
  {
    hide SendTime, ToRecord, SendCount;
    var j: nat :| SentAs(cfg, requests, last, ts, j);
    if j < SendCount(cfg) - 1 { TimesRise(cfg, j, SendCount(cfg) - 1); }
  }

  ghost function SendTimes(cfg: Config, n: nat): (q: seq<nat>)
    ensures |q| == n && forall j :: 0 <= j < n ==> q[j] == SendTime(cfg, j)
  {
    seq(n, j requires 0 <= j < n => SendTime(cfg, j))
  }

  lemma TimesAreRequests(cfg: Config, requests: map<nat, RequestInfo>, last: nat)
    requires cfg.Valid() && Paced(cfg, requests, last)
    ensures Rising(SendTimes(cfg, |requests|)) && SetOf(SendTimes(cfg, |requests|)) == requests.Keys
  {
    hide SendTime;
    var q := SendTimes(cfg, |requests|);
    forall j, k | 0 <= j < k < |q| ensures q[j] < q[k] { TimesRise(cfg, j, k); }
    forall x | x in requests ensures x in q {
      var j: nat :| SentAs(cfg, requests, last, x, j);
      assert q[j] == x;
    }
    forall x | x in q ensures x in requests {
      var j :| 0 <= j < |q| && q[j] == x;
      assert SentAs(cfg, requests, last, SendTime(cfg, j), j);
    }
  }

  lemma NothingMore(rows: seq<Row>, ids: set<nat>)
    requires IdsOfRows(rows) <= ids && |ids| <= |rows|
    requires forall k :: 0 <= k < |rows| ==> (rows[k].proposalId in ids <==> k < |ids|)
    ensures |rows| == |ids|
  {
    if |ids| < |rows| { RowBelongs(rows, |ids|); }
  }

  lemma RowBelongs(rows: seq<Row>, k: nat)
    requires k < |rows|
    ensures rows[k].proposalId in IdsOfRows(rows)
  {
  }

  /** The rows of a log that lists them all. */
  lemma AllRows(cfg: Config, w: World, i: nat, last: nat)
    requires Calm(cfg, w) && w.now > cfg.stop && i < cfg.n && EarlyOnes(cfg, w.h) == w.h.requests.Keys
    requires Paced(cfg, w.h.requests, last)
    ensures IdsInRows(w.servers[i].log) == SendTimes(cfg, |w.h.requests|)
  {
    var log, m := w.servers[i].log, |w.h.requests|;
    BeginsEarly(cfg, w, i);
    LogIsRequests(cfg, w, i);
    PrefixHolds(cfg, w, i);
    hide Reached;
    assert |w.h.requests.Keys| == m;
    NothingMore(log, w.h.requests.Keys);
    assert log[..m] == log;
    TimesAreRequests(cfg, w.h.requests, last);
    RisingUnique(IdsInRows(log), SendTimes(cfg, m));
  }

  /** If the last send is early enough, the logs are known before the run: each server's row k is the
      k-th request of the client, proposed by the k-th server in turn, and there are no others. */
  lemma LogsInAdvance(cfg: Config, w: World) returns (last: nat)
    requires Calm(cfg, w) && w.now > cfg.stop && EndsEarly(cfg)
    ensures last < WIDTH
    ensures forall i :: 0 <= i < cfg.n ==> |w.servers[i].log| == SendCount(cfg)
    ensures forall i, k :: 0 <= i < cfg.n && 0 <= k < SendCount(cfg) ==>
              && w.servers[i].log[k].proposalId == SendTime(cfg, k)
              && w.servers[i].log[k].proposerId == LastAfter(last, cfg.n, k + 1)
    ensures forall i, j :: 0 <= i < cfg.n && 0 <= j < cfg.n ==> w.servers[i].log == w.servers[j].log
  {
    last := AllSent(cfg, w);
    AllAreEarly(cfg, w, last);
    forall i | 0 <= i < cfg.n ensures |w.servers[i].log| == SendCount(cfg) {
      AllRows(cfg, w, i, last);
      assert |IdsInRows(w.servers[i].log)| == |w.servers[i].log|;
    }
    forall i, k | 0 <= i < cfg.n && 0 <= k < SendCount(cfg)
      ensures w.servers[i].log[k].proposalId == SendTime(cfg, k)
      ensures w.servers[i].log[k].proposerId == LastAfter(last, cfg.n, k + 1)
    {
      AllRows(cfg, w, i, last);
      RowInAdvance(cfg, w, i, k, last);
    }
    forall i, j | 0 <= i < cfg.n && 0 <= j < cfg.n ensures w.servers[i].log == w.servers[j].log {
      AllRows(cfg, w, i, last);
      AllRows(cfg, w, j, last);
      SameLogs(cfg, w, i, j);
    }
  }

  lemma SameLogs(cfg: Config, w: World, i: nat, j: nat)
    requires Reached(cfg, w) && i < cfg.n && j < cfg.n && IdsInRows(w.servers[i].log) == IdsInRows(w.servers[j].log)
    ensures w.servers[i].log == w.servers[j].log
  {
    var a, b := w.servers[i].log, w.servers[j].log;
    assert |a| == |IdsInRows(a)| == |b|;
    forall k | 0 <= k < |a| ensures a[k] == b[k] {
      assert IdsInRows(a)[k] == IdsInRows(b)[k];
      SameRow(cfg, w, i, j, k);
    }
  }

  lemma RowInAdvance(cfg: Config, w: World, i: nat, k: nat, last: nat)
    requires Reached(cfg, w) && i < cfg.n && k < |w.h.requests| && Paced(cfg, w.h.requests, last)
    requires IdsInRows(w.servers[i].log) == SendTimes(cfg, |w.h.requests|)
    ensures |w.servers[i].log| == |w.h.requests| && w.servers[i].log[k].proposalId == SendTime(cfg, k)
    ensures w.servers[i].log[k].proposerId == LastAfter(last, cfg.n, k + 1)
  {
    assert |w.servers[i].log| == |IdsInRows(w.servers[i].log)| == |w.h.requests|;
    assert IdsInRows(w.servers[i].log)[k] == SendTimes(cfg, |w.h.requests|)[k];
    LogValidity(cfg, w, i, k);
    assert SentAs(cfg, w.h.requests, last, SendTime(cfg, k), k);
  }
}
