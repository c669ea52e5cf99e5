/** Safety theorems: they hold in every reachable world, with messages lost and reordered. */
module Agreement {
  import opened PaxosData
  import opened DecisionLog
  import opened Cluster
  import opened Snapshots
  import opened Invariant
  import opened SafeMoves
  import opened FlowMoves
  import opened AgendaInvariant
  import opened Steps
  import opened Runs

  lemma ServerFacts(cfg: Config, w: World, i: nat)
    requires Reached(cfg, w) && i < cfg.n
    ensures Safe(cfg, View(w)) && ServerOk(cfg, View(w), i)
  {
    ReachableHolds(cfg, w);
  }

  // ---------- What a server has decided ----------

  /** `recorded[i]` is everything ever pushed on the heap of server i: what was pushed before the
      stop handler ran has been written to the log, the rest is still on the heap. */
  lemma DecidedIsRecorded(cfg: Config, w: World, i: nat)
    requires Reached(cfg, w) && i < cfg.n
    ensures var rs, c := w.h.recorded[i], w.h.cut[i];
      && c <= |rs| && DistinctIds(rs) && w.servers[i].decided == rs[c..] && w.servers[i].log == Rows(Drain(rs[..c]))
  {
    ServerFacts(cfg, w, i);
  }

  /** Every row of a log comes from a record. */
  lemma RowRecord(cfg: Config, w: World, i: nat, k: nat) returns (r: Record)
    requires Reached(cfg, w) && i < cfg.n && k < |w.servers[i].log|
    ensures r in w.h.recorded[i] && w.servers[i].log[k] == RowOf(k, r)
  {
    DecidedIsRecorded(cfg, w, i);
    var written := w.h.recorded[i][..w.h.cut[i]];
    r := Drain(written)[k];
    DrainMembers(written);
    assert r in Drain(written);
  }

  lemma RecordHolds(cfg: Config, w: World, i: nat, r: Record)
    requires Reached(cfg, w) && i < cfg.n && r in w.h.recorded[i]
    ensures DecidedRow(cfg, w.h, i, r) && r.id in w.h.announced
  {
    ServerFacts(cfg, w, i);
  }

  lemma RecordsAgree(cfg: Config, s: Snapshot, i: nat, j: nat)
    requires Safe(cfg, s) && i < cfg.n && j < cfg.n
    ensures Agree(s.h.recorded[i], s.h.recorded[j])
  {
    assert ServerOk(cfg, s, i) && ServerOk(cfg, s, j);
    forall r, q | r in s.h.recorded[i] && q in s.h.recorded[j] && r.id == q.id ensures SameEntry(r, q) {
      assert DecidedRow(cfg, s.h, i, r) && DecidedRow(cfg, s.h, j, q);
    }
  }

  // ---------- Agreement ----------

  /** Records of the same proposal, on whatever servers, written or not, name the same proposer,
      value, propose time and decision time. */
  lemma DecidedAgree(cfg: Config, w: World, i: nat, j: nat, r: Record, q: Record)
    requires Reached(cfg, w) && i < cfg.n && j < cfg.n
    requires r in w.h.recorded[i] && q in w.h.recorded[j] && r.id == q.id
    ensures SameEntry(r, q) && r.proposeTime == q.proposeTime
  {
    RecordHolds(cfg, w, i, r);
    RecordHolds(cfg, w, j, q);
  }

  /** Two written logs agree on every proposal they share. */
  lemma LogsAgree(cfg: Config, w: World, i: nat, j: nat, a: nat, b: nat)
    requires Reached(cfg, w) && i < cfg.n && j < cfg.n
    requires a < |w.servers[i].log| && b < |w.servers[j].log|
    requires w.servers[i].log[a].proposalId == w.servers[j].log[b].proposalId
    ensures w.servers[i].log[a] == w.servers[j].log[b].(index := a)
  {
    var r := RowRecord(cfg, w, i, a);
    var q := RowRecord(cfg, w, j, b);
    DecidedAgree(cfg, w, i, j, r, q);
  }

  /** Two written logs list the proposals they share in the same order. */
  lemma LogsOrdered(cfg: Config, w: World, i: nat, j: nat, a: nat, b: nat, c: nat, d: nat)
    requires Reached(cfg, w) && i < cfg.n && j < cfg.n
    requires a < |w.servers[i].log| && b < |w.servers[i].log| && c < |w.servers[j].log| && d < |w.servers[j].log|
    requires w.servers[i].log[a].proposalId == w.servers[j].log[c].proposalId
    requires w.servers[i].log[b].proposalId == w.servers[j].log[d].proposalId
    ensures a < b <==> c < d
  {
    LogSorted(cfg, w, i);
    LogSorted(cfg, w, j);
    RowsOrdered(w.servers[i].log, a, b);
    RowsOrdered(w.servers[j].log, c, d);
  }

  lemma RowsOrdered(rows: seq<Row>, a: nat, b: nat)
    requires forall j, k :: 0 <= j < k < |rows| ==> rows[j].proposalId < rows[k].proposalId
    requires a < |rows| && b < |rows|
    ensures a < b <==> rows[a].proposalId < rows[b].proposalId
  {
  }

  lemma StrictRows(rs: seq<Record>)
    requires Strict(rs)
    ensures forall a, b :: 0 <= a < b < |Rows(rs)| ==> Rows(rs)[a].proposalId < Rows(rs)[b].proposalId
  {
  }

  lemma DistinctPrefix(rs: seq<Record>, c: nat)
    requires DistinctIds(rs) && c <= |rs|
    ensures DistinctIds(rs[..c]) && forall r :: r in rs[c..] ==> r.id !in Ids(rs[..c])
  {
    forall r | r in rs[c..] ensures r.id !in Ids(rs[..c]) {
      var k :| 0 <= k < |rs[c..]| && rs[c..][k] == r;
      assert rs[c + k] == r;
    }
  }

  /** A written log is a permutation of what was decided on that server before it stopped, numbered
      from 0 and in strictly increasing order of proposal ids. */
  lemma LogSorted(cfg: Config, w: World, i: nat)
    requires Reached(cfg, w) && i < cfg.n
    ensures w.h.cut[i] <= |w.h.recorded[i]|
    ensures var written := w.h.recorded[i][..w.h.cut[i]];
      && w.servers[i].log == Rows(Drain(written)) && multiset(Drain(written)) == multiset(written)
      && |w.servers[i].log| == w.h.cut[i] && IdsOfRows(w.servers[i].log) == Ids(written)
    ensures forall a, b :: 0 <= a < b < |w.servers[i].log| ==>
              w.servers[i].log[a].proposalId < w.servers[i].log[b].proposalId
  {
    DecidedIsRecorded(cfg, w, i);
    var written := w.h.recorded[i][..w.h.cut[i]];
    DistinctPrefix(w.h.recorded[i], w.h.cut[i]);
    DrainPermutes(written);
    DrainStrict(written);
    StrictRows(Drain(written));
    RowIds(Drain(written));
  }

  // ---------- Exactly once ----------

  /** No server decides a proposal twice, whether it is still in the heap or already written,
      and every decision was broadcast exactly once. */
  lemma ExactlyOnce(cfg: Config, w: World, i: nat)
    requires Reached(cfg, w) && i < cfg.n
    ensures DistinctIds(w.h.recorded[i])
    ensures forall r :: r in w.servers[i].decided ==> r.id !in IdsOfRows(w.servers[i].log)
    ensures Distinct(w.h.announced) && forall r :: r in w.h.recorded[i] ==> r.id in w.h.announced
  {
    DecidedIsRecorded(cfg, w, i);
    LogSorted(cfg, w, i);
    DistinctPrefix(w.h.recorded[i], w.h.cut[i]);
    forall r | r in w.h.recorded[i] ensures r.id in w.h.announced { RecordHolds(cfg, w, i, r); }
    BroadcastFacts(cfg, w);
  }

  // ---------- Quorums ----------

  ghost function Acceptors(cfg: Config, w: World, id: nat): set<nat> {
    set a | 0 <= a < cfg.n && a < |w.servers| && id in w.servers[a].accepted
  }

  ghost function Holders(cfg: Config, w: World, id: nat): set<nat> {
    set a | 0 <= a < cfg.n && a < |w.h.recorded| && id in Ids(w.h.recorded[a])
  }

  ghost function UpTo(n: nat): (r: set<nat>)
    ensures forall a :: a in r <==> 0 <= a < n
  {
    if n == 0 then {} else UpTo(n - 1) + {n - 1}
  }

  lemma {:induction false} UpToCount(n: nat)
    ensures |UpTo(n)| == n
  {
    if n > 0 { UpToCount(n - 1); }
  }

  /** A set of servers that leaves one out. */
  lemma FewerThanAll(a: set<nat>, i: nat, n: nat)
    requires i < n && forall x :: x in a ==> x < n && x != i
    ensures 1 + |a| <= n
  {
    UpToCount(n);
    CardinalityGrows(a, UpTo(n) - {i});
  }

  /** The acceptors counted for a ballot, and the learners. */
  lemma BallotVoters(cfg: Config, w: World, id: nat)
    requires Reached(cfg, w) && id in w.h.ballots
    ensures w.h.ballots[id].proposer < cfg.n && id in w.h.acks && id in w.h.dacks
    ensures w.h.ballots[id].proposer !in w.h.acks[id] && w.h.acks[id] <= Acceptors(cfg, w, id)
    ensures w.h.ballots[id].proposer !in w.h.dacks[id] && w.h.dacks[id] <= Holders(cfg, w, id)
  {
    BallotHolds(cfg, w, id);
    assert forall a :: a in w.h.acks[id] ==> Acceptor(cfg, View(w), id, a);
    assert forall a :: a in w.h.dacks[id] ==> Learner(cfg, View(w), id, a);
  }

  lemma FlightHolds(cfg: Config, w: World, i: nat, id: nat)
    requires Reached(cfg, w) && i < cfg.n && id in w.servers[i].proposals
    ensures FlightRecord(cfg, w.h, i, id, w.servers[i].proposals[id])
  {
    ServerFacts(cfg, w, i);
  }

  /** While a proposal is in flight its counter is one more than the number of distinct servers
      whose ACCEPT was counted; it can never pass `n`, so 32 bits hold it. */
  lemma CounterIsQuorum(cfg: Config, w: World, i: nat, id: nat)
    requires Reached(cfg, w) && i < cfg.n && id in w.servers[i].proposals
    ensures id in w.h.acks && w.servers[i].proposals[id].numAck == 1 + |w.h.acks[id]| <= cfg.n
    ensures i !in w.h.acks[id] && w.h.acks[id] <= Acceptors(cfg, w, id)
  {
    FlightHolds(cfg, w, i, id);
    BallotVoters(cfg, w, id);
    FewerThanAll(w.h.acks[id], i, cfg.n);
  }

  /** Once its decision is broadcast, the second counter is one more than the number of distinct
      servers whose DECISION_ACK was counted, each of which has recorded the decision. */
  lemma DecisionCounterIsQuorum(cfg: Config, w: World, i: nat, id: nat)
    requires Reached(cfg, w) && i < cfg.n && id in w.servers[i].proposals && id in w.h.announced
    ensures id in w.h.dacks && w.servers[i].proposals[id].numDecisionAck == 1 + |w.h.dacks[id]| <= cfg.n
    ensures i !in w.h.dacks[id] && w.h.dacks[id] <= Holders(cfg, w, id)
  {
    FlightHolds(cfg, w, i, id);
    BroadcastFacts(cfg, w);
    BallotVoters(cfg, w, id);
    FewerThanAll(w.h.dacks[id], i, cfg.n);
  }

  /** Every decision ever broadcast rests on a majority: its proposer and at least floor(n/2) others
      that have accepted it. */
  lemma AnnouncedQuorum(cfg: Config, w: World, id: nat)
    requires Reached(cfg, w) && id in w.h.announced
    ensures id in w.h.ballots && w.h.ballots[id].proposer < cfg.n
    ensures w.h.ballots[id].proposer !in Acceptors(cfg, w, id) && |Acceptors(cfg, w, id)| >= cfg.n / 2
  {
    DecisionHolds(cfg, w, id);
    BallotVoters(cfg, w, id);
    CardinalityGrows(w.h.acks[id], Acceptors(cfg, w, id));
    NotAccepted(cfg, w, id);
  }

  lemma DecisionHolds(cfg: Config, w: World, id: nat)
    requires Reached(cfg, w) && id in w.h.announced
    ensures id in w.h.decisions && DecisionOk(cfg, View(w), id)
  {
    ReachableHolds(cfg, w);
  }

  lemma NotAccepted(cfg: Config, w: World, id: nat)
    requires Reached(cfg, w) && id in w.h.ballots
    ensures w.h.ballots[id].proposer !in Acceptors(cfg, w, id)
  {
    BallotHolds(cfg, w, id);
    ServerFacts(cfg, w, w.h.ballots[id].proposer);
  }

  /** So does everything a server has decided, written or not. */
  lemma DecisionQuorum(cfg: Config, w: World, i: nat, r: Record)
    requires Reached(cfg, w) && i < cfg.n && r in w.h.recorded[i]
    ensures r.nodeId < cfg.n && r.nodeId !in Acceptors(cfg, w, r.id)
    ensures |Acceptors(cfg, w, r.id)| >= cfg.n / 2
  {
    RecordHolds(cfg, w, i, r);
    AnnouncedQuorum(cfg, w, r.id);
  }

  /** And every row of every log. */
  lemma LogQuorum(cfg: Config, w: World, i: nat, k: nat)
    requires Reached(cfg, w) && i < cfg.n && k < |w.servers[i].log|
    ensures var row := w.servers[i].log[k];
      && row.proposerId < cfg.n && row.proposerId !in Acceptors(cfg, w, row.proposalId)
      && |Acceptors(cfg, w, row.proposalId)| >= cfg.n / 2
  {
    var r := RowRecord(cfg, w, i, k);
    DecisionQuorum(cfg, w, i, r);
  }

  /** And every DECISION still in flight, which carries the ballot it decides. */
  lemma FrameQuorum(cfg: Config, w: World, u: nat)
    requires Reached(cfg, w) && u in w.agenda && w.agenda[u].FrameTo? && w.agenda[u].frame.kind == DECISION
    ensures var f := w.agenda[u].frame;
      && f.proposalId in w.h.announced && SameBallot(w.h, f.proposalId, f.proposerId, f.value, f.proposeTime)
      && f.proposerId < cfg.n && f.proposerId !in Acceptors(cfg, w, f.proposalId)
      && |Acceptors(cfg, w, f.proposalId)| >= cfg.n / 2
  {
    ItemHolds(cfg, w, u);
    BroadcastFacts(cfg, w);
    AnnouncedQuorum(cfg, w, w.agenda[u].frame.proposalId);
  }

  ghost function Quorum(cfg: Config, w: World, id: nat): set<nat>
    requires id in w.h.ballots
  {
    Acceptors(cfg, w, id) + {w.h.ballots[id].proposer}
  }

  lemma QuorumIsMajority(cfg: Config, w: World, id: nat)
    requires Reached(cfg, w) && id in w.h.announced
    ensures id in w.h.ballots && 2 * |Quorum(cfg, w, id)| > cfg.n && Quorum(cfg, w, id) <= UpTo(cfg.n)
  {
    AnnouncedQuorum(cfg, w, id);
  }

  lemma MajoritiesMeet(a: set<nat>, b: set<nat>, n: nat)
    requires a <= UpTo(n) && b <= UpTo(n) && 2 * |a| > n && 2 * |b| > n
    ensures a * b != {}
  {
    UpToCount(n);
    CardinalityGrows(a + b, UpTo(n));
    assert |a + b| == |a| + |b| - |a * b|;
  }

  /** Any two decided proposals share a server that proposed or accepted both. */
  lemma QuorumsIntersect(cfg: Config, w: World, x: nat, y: nat)
    requires Reached(cfg, w) && x in w.h.announced && y in w.h.announced
    ensures x in w.h.ballots && y in w.h.ballots && Quorum(cfg, w, x) * Quorum(cfg, w, y) != {}
  {
    QuorumIsMajority(cfg, w, x);
    QuorumIsMajority(cfg, w, y);
    MajoritiesMeet(Quorum(cfg, w, x), Quorum(cfg, w, y), cfg.n);
  }

  // ---------- Durability ----------

  lemma LeaderProposes(cfg: Config, w: World, id: nat)
    requires Reached(cfg, w) && cfg.async && id in w.h.ballots
    ensures w.h.ballots[id].proposer == cfg.leader
  {
    ReachableHolds(cfg, w);
    LeaderBallots(cfg, View(w), id);
  }

  lemma HolderAgrees(cfg: Config, w: World, i: nat, r: Record, j: nat)
    requires Reached(cfg, w) && i < cfg.n && r in w.h.recorded[i] && j in Holders(cfg, w, r.id)
    ensures exists q :: q in w.h.recorded[j] && q.id == r.id && SameEntry(r, q)
  {
    var k :| 0 <= k < |w.h.recorded[j]| && w.h.recorded[j][k].id == r.id;
    assert w.h.recorded[j][k] in w.h.recorded[j];
    DecidedAgree(cfg, w, i, j, r, w.h.recorded[j][k]);
  }

  /** Asynchronous durability: what the leader has decided, written or not, at least floor(n/2)
      other servers have decided too, and identically. */
  lemma LeaderDurable(cfg: Config, w: World, r: Record)
    requires Reached(cfg, w) && cfg.async && r in w.h.recorded[cfg.leader]
    ensures |Holders(cfg, w, r.id) - {cfg.leader}| >= cfg.n / 2
    ensures forall j :: j in Holders(cfg, w, r.id) ==>
              exists q :: q in w.h.recorded[j] && q.id == r.id && SameEntry(r, q)
  {
    RecordHolds(cfg, w, cfg.leader, r);
    LeaderProposes(cfg, w, r.id);
    BallotVoters(cfg, w, r.id);
    CardinalityGrows(w.h.dacks[r.id], Holders(cfg, w, r.id) - {cfg.leader});
    forall j | j in Holders(cfg, w, r.id) ensures exists q :: q in w.h.recorded[j] && q.id == r.id && SameEntry(r, q) {
      HolderAgrees(cfg, w, cfg.leader, r, j);
    }
  }

  /** In particular every row of the leader's log. */
  lemma LogDurable(cfg: Config, w: World, k: nat)
    requires Reached(cfg, w) && cfg.async && k < |w.servers[cfg.leader].log|
    ensures |Holders(cfg, w, w.servers[cfg.leader].log[k].proposalId) - {cfg.leader}| >= cfg.n / 2
    ensures forall j :: j in Holders(cfg, w, w.servers[cfg.leader].log[k].proposalId) ==>
              exists q :: q in w.h.recorded[j] && RowOf(k, q) == w.servers[cfg.leader].log[k]
  {
    var r := RowRecord(cfg, w, cfg.leader, k);
    LeaderDurable(cfg, w, r);
    forall j | j in Holders(cfg, w, r.id)
      ensures exists q :: q in w.h.recorded[j] && RowOf(k, q) == w.servers[cfg.leader].log[k]
    {
      var q :| q in w.h.recorded[j] && q.id == r.id && SameEntry(r, q);
    }
  }

  // ---------- Conservation ----------

  ghost function OwnRecords(h: History, i: nat): set<nat>
    requires i < |h.recorded|
  {
    set k | 0 <= k < |h.recorded[i]| && h.recorded[i][k].nodeId == i :: h.recorded[i][k].id
  }

  ghost function SetOf(q: seq<nat>): set<nat> { set x | x in q }

  lemma IssuedOnce(cfg: Config, s: Snapshot, i: nat, id: nat)
    requires Safe(cfg, s) && i < cfg.n
    ensures id in s.h.issued[i] <==> id in s.servers[i].proposals || id in OwnRecords(s.h, i)
    ensures !(id in s.servers[i].proposals && id in OwnRecords(s.h, i))
  {
    if id in s.servers[i].proposals { FlightIsIssued(cfg, s, i, id); }
    if id in OwnRecords(s.h, i) { RecordIsIssued(cfg, s, i, id); }
    if id in s.h.issued[i] && id !in s.servers[i].proposals { IssuedIsRecorded(cfg, s, i, id); }
  }

  lemma FlightIsIssued(cfg: Config, s: Snapshot, i: nat, id: nat)
    requires Safe(cfg, s) && i < cfg.n && id in s.servers[i].proposals
    ensures id in s.h.issued[i] && id !in OwnRecords(s.h, i)
  {
    FlightFacts(cfg, s, i, id);
    BallotCreator(cfg, s, id);
  }

  lemma RecordIsIssued(cfg: Config, s: Snapshot, i: nat, id: nat)
    requires Safe(cfg, s) && i < cfg.n && id in OwnRecords(s.h, i)
    ensures id in s.h.issued[i]
  {
    var k :| 0 <= k < |s.h.recorded[i]| && s.h.recorded[i][k].nodeId == i && s.h.recorded[i][k].id == id;
    assert ServerOk(cfg, s, i) && DecidedRow(cfg, s.h, i, s.h.recorded[i][k]);
    BallotCreator(cfg, s, id);
  }

  lemma IssuedIsRecorded(cfg: Config, s: Snapshot, i: nat, id: nat)
    requires Safe(cfg, s) && i < cfg.n && id in s.h.issued[i] && id !in s.servers[i].proposals
    ensures id in OwnRecords(s.h, i)
  {
    assert ServerOk(cfg, s, i) && BallotOk(cfg, s, id);
    var k :| 0 <= k < |s.h.recorded[i]| && s.h.recorded[i][k].id == id;
    assert DecidedRow(cfg, s.h, i, s.h.recorded[i][k]);
  }

  lemma QueueHolds(cfg: Config, w: World, i: nat)
    requires Reached(cfg, w) && i < cfg.n
    ensures w.h.created[i] == w.h.issued[i] + IdsInOrder(w.servers[i].waiting) && Distinct(w.h.created[i])
    ensures |w.servers[i].waiting| <= 1001
  {
    ServerFacts(cfg, w, i);
  }

  /** Whatever a server created is waiting, in flight or decided by it, in exactly one of the
      three; creation order is issue order followed by queue order. */
  lemma Conservation(cfg: Config, w: World, i: nat)
    requires Reached(cfg, w) && i < cfg.n
    ensures w.h.created[i] == w.h.issued[i] + IdsInOrder(w.servers[i].waiting) && Distinct(w.h.created[i])
    ensures SetOf(w.h.issued[i]) == w.servers[i].proposals.Keys + OwnRecords(w.h, i)
    ensures w.servers[i].proposals.Keys !! OwnRecords(w.h, i)
    ensures |w.servers[i].waiting| <= 1001
  {
    QueueHolds(cfg, w, i);
    ReachableHolds(cfg, w);
    forall id
      ensures id in w.h.issued[i] <==> id in w.servers[i].proposals || id in OwnRecords(w.h, i)
      ensures !(id in w.servers[i].proposals && id in OwnRecords(w.h, i))
    {
      IssuedOnce(cfg, View(w), i, id);
    }
  }

  // ---------- Validity ----------

  lemma BallotIsRequest(cfg: Config, w: World, id: nat)
    requires Reached(cfg, w) && id in w.h.ballots
    ensures id in w.h.requests && w.h.requests[id] == RequestInfo(w.h.ballots[id].value, w.h.ballots[id].proposer)
    ensures cfg.async ==> w.h.ballots[id].proposer == cfg.leader
  {
    ReachableHolds(cfg, w);
    BallotCreator(cfg, View(w), id);
  }

  /** Everything a server has decided, written or not, carries the timestamp and value of a request
      the client sent to the very server recorded as its proposer, which in asynchronous mode is
      the leader. */
  lemma Validity(cfg: Config, w: World, i: nat, r: Record)
    requires Reached(cfg, w) && i < cfg.n && r in w.h.recorded[i]
    ensures r.id in w.h.requests && w.h.requests[r.id] == RequestInfo(r.value, r.nodeId)
    ensures cfg.async ==> r.nodeId == cfg.leader
  {
    RecordHolds(cfg, w, i, r);
    BallotIsRequest(cfg, w, r.id);
    BallotHolds(cfg, w, r.id);
  }

  /** So does every row of every log. */
  lemma LogValidity(cfg: Config, w: World, i: nat, k: nat)
    requires Reached(cfg, w) && i < cfg.n && k < |w.servers[i].log|
    ensures var row := w.servers[i].log[k];
      && row.proposalId in w.h.requests && w.h.requests[row.proposalId] == RequestInfo(row.value, row.proposerId)
      && (cfg.async ==> row.proposerId == cfg.leader)
  {
    var r := RowRecord(cfg, w, i, k);
    Validity(cfg, w, i, r);
  }

  /** And every DECISION in flight. */
  lemma FrameValidity(cfg: Config, w: World, u: nat)
    requires Reached(cfg, w) && u in w.agenda && w.agenda[u].FrameTo? && w.agenda[u].frame.kind == DECISION
    ensures var f := w.agenda[u].frame;
      && f.proposalId in w.h.requests && w.h.requests[f.proposalId] == RequestInfo(f.value, f.proposerId)
      && (cfg.async ==> f.proposerId == cfg.leader)
  {
    FrameQuorum(cfg, w, u);
    BallotIsRequest(cfg, w, w.agenda[u].frame.proposalId);
  }

  // ---------- Nothing fatal ----------

  lemma TokenHolds(cfg: Config, w: World, u: nat)
    requires Reached(cfg, w) && u in w.agenda
    ensures Shape(cfg, View(w)) && LiveOk(cfg, View(w), TokenOf(w.agenda[u]))
  {
    ReachableHolds(cfg, w);
    LiveToken(cfg, w, u);
  }

  /** No frame of unknown kind ever arises, and whatever a frame in flight or an answer still to be
      sent uses as an index into the node list is one. */
  lemma NoFatalFrame(cfg: Config, w: World, u: nat)
    requires Reached(cfg, w) && u in w.agenda
    ensures w.agenda[u].FrameTo? ==>
              var f := w.agenda[u].frame;
              && w.agenda[u].dst < cfg.n && f.kind in {PROPOSAL, ACCEPT, DECISION, DECISION_ACK}
              && f.acceptorId < cfg.n && f.proposerId < cfg.n
    ensures w.agenda[u].Local? && w.agenda[u].event.SendAccept? ==>
              var f := w.agenda[u].event.frame;
              w.agenda[u].server < cfg.n && f.acceptorId < cfg.n && f.proposerId < cfg.n
  {
    ItemHolds(cfg, w, u);
    if w.agenda[u].FrameTo? {
      var f := w.agenda[u].frame;
      if f.kind == DECISION_ACK { TokenHolds(cfg, w, u); } else { BallotHolds(cfg, w, f.proposalId); }
    }
    if w.agenda[u].Local? && w.agenda[u].event.SendAccept? { BallotHolds(cfg, w, w.agenda[u].event.frame.proposalId); }
  }

  // ---------- Single flight ----------

  ghost function Polls(w: World): set<nat> {
    set u | u in w.agenda && w.agenda[u].Local? && w.agenda[u].event == AsyncPropose
  }

  /** The asynchronous leader has one thing to do at a time: its pending polls and proposals in
      flight add up to exactly one until the stop time, and to at most one afterwards. */
  lemma SingleFlight(cfg: Config, w: World)
    requires Reached(cfg, w) && cfg.async
    ensures |Polls(w)| + |w.servers[cfg.leader].proposals| <= 1
    ensures w.now < cfg.stop ==> |Polls(w)| + |w.servers[cfg.leader].proposals| == 1
  {
    ReachableHolds(cfg, w);
    var s, l := View(w), cfg.leader;
    PollCount(cfg, w);
    if w.servers[l].proposals == map[] {
      assert |w.servers[l].proposals| == 0;
    } else {
      assert |w.servers[l].proposals.Keys| == 1;
    }
  }

  lemma PollCount(cfg: Config, w: World)
    requires WorldInv(cfg, w) && cfg.async
    ensures |Polls(w)| == if Token(AtTimer, 0, cfg.leader) in View(w).live then 1 else 0
  {
    var t := Token(AtTimer, 0, cfg.leader);
    forall u | u in Polls(w) ensures TokenOf(w.agenda[u]) == t { assert ItemOk(cfg, View(w), w.agenda[u]); }
    if t in View(w).live {
      var u :| u in w.agenda && TokenOf(w.agenda[u]) == t;
      assert ItemOk(cfg, View(w), w.agenda[u]);
      assert Polls(w) == {u};
    } else {
      assert forall u :: u in w.agenda ==> TokenOf(w.agenda[u]) in View(w).live;
      assert Polls(w) == {};
    }
  }

  ghost predicate LeaderOrder(cfg: Config, w: World, flight: seq<nat>)
    requires cfg.leader < |w.h.created| && cfg.leader < |w.h.recorded| && cfg.leader < |w.servers|
  {
    && |flight| <= 1 && SetOf(flight) == w.servers[cfg.leader].proposals.Keys
    && w.h.created[cfg.leader] ==
         IdsInOrder(w.h.recorded[cfg.leader]) + flight + IdsInOrder(w.servers[cfg.leader].waiting)
  }

  lemma FlightOrder(cfg: Config, s: Snapshot) returns (flight: seq<nat>)
    requires Shape(cfg, s) && LeaderOk(cfg, s)
    ensures |flight| <= 1 && SetOf(flight) == s.servers[cfg.leader].proposals.Keys
    ensures s.h.issued[cfg.leader] == IdsInOrder(s.h.recorded[cfg.leader]) + flight
  {
    var issued := s.h.issued[cfg.leader];
    flight := if s.servers[cfg.leader].proposals == map[] then [] else [issued[|issued| - 1]];
  }

  /** The leader decides in the order in which it created: decided, then the one in flight, then
      the waiting queue. */
  lemma LeaderFifo(cfg: Config, w: World)
    requires Reached(cfg, w) && cfg.async
    ensures exists flight :: LeaderOrder(cfg, w, flight)
  {
    ReachableHolds(cfg, w);
    var flight := FlightOrder(cfg, View(w));
    Conservation(cfg, w, cfg.leader);
    assert LeaderOrder(cfg, w, flight);
  }
}
