/** What a lossless network guarantees once it is quiet. */
module Completeness {
  import opened PaxosData
  import opened DecisionLog
  import opened Cluster
  import opened Snapshots
  import opened Invariant
  import opened SafeMoves
  import opened Runs
  import opened Agreement

  /** No frame is in flight and no acceptance waits to be sent. */
  ghost predicate Quiet(w: World) {
    forall u :: u in w.agenda ==> !w.agenda[u].FrameTo? && !(w.agenda[u].Local? && w.agenda[u].event.SendAccept?)
  }

  /** No request is in flight or waits to be turned into a proposal. */
  ghost predicate NoRequests(w: World) {
    forall u :: u in w.agenda ==> !w.agenda[u].RequestTo? && !(w.agenda[u].Local? && w.agenda[u].event.CreateProposal?)
  }

  lemma QuietTokens(w: World, t: Token)
    requires Quiet(w) && t in View(w).live
    ensures t.stage !in {AtProposal, AtDecision, AtAck}
  {
  }

  lemma NoRequestTokens(w: World, t: Token)
    requires NoRequests(w) && Quiet(w) && t in View(w).live
    ensures t.stage != AtRequest
  {
  }

  /** Everybody else has answered. */
  lemma AllAnswered(cfg: Config, w: World, i: nat, id: nat)
    requires Inv(cfg, View(w)) && Quiet(w) && cfg.lossless && i < cfg.n && id in w.servers[i].proposals
    ensures id in w.h.acks && id in w.h.dacks && UpTo(cfg.n) - {i} <= w.h.acks[id]
    ensures id in w.h.decisions ==> UpTo(cfg.n) - {i} <= w.h.dacks[id]
  {
    var s := View(w);
    assert Answered(cfg, s, i, id);
    FlightFacts(cfg, s, i, id);
    forall a | a in UpTo(cfg.n) - {i} ensures a in w.h.acks[id] && (id in w.h.decisions ==> a in w.h.dacks[id]) {
      if Token(AtProposal, id, a) in s.live { QuietTokens(w, Token(AtProposal, id, a)); }
      if Token(AtAck, id, a) in s.live { QuietTokens(w, Token(AtAck, id, a)); }
      if id in w.h.decisions { QuietSpread(cfg, w, id, a); }
    }
  }

  lemma QuietSpread(cfg: Config, w: World, id: nat, a: nat)
    requires Inv(cfg, View(w)) && Quiet(w) && cfg.lossless && id in w.h.decisions && a < cfg.n
    requires id in w.h.ballots && a != w.h.ballots[id].proposer
    ensures id in Ids(w.h.recorded[a])
  {
    assert Spread(cfg, View(w), id);
    if Token(AtDecision, id, a) in View(w).live { QuietTokens(w, Token(AtDecision, id, a)); }
  }

  lemma AllCounted(cfg: Config, w: World, i: nat, id: nat)
    requires Inv(cfg, View(w)) && Quiet(w) && cfg.lossless && i < cfg.n && id in w.servers[i].proposals
    ensures w.servers[i].proposals[id].numAck >= cfg.n
    ensures id in w.h.decisions ==> w.servers[i].proposals[id].numDecisionAck >= cfg.n
  {
    AllAnswered(cfg, w, i, id);
    FlightFacts(cfg, View(w), i, id);
    UpToCount(cfg.n);
    CardinalityGrows(UpTo(cfg.n) - {i}, w.h.acks[id]);
    if id in w.h.decisions { CardinalityGrows(UpTo(cfg.n) - {i}, w.h.dacks[id]); }
  }

  lemma StillPending(cfg: Config, w: World, i: nat, id: nat)
    requires Inv(cfg, View(w)) && i < cfg.n && id in w.servers[i].proposals
    ensures Pending(cfg, View(w), w.servers[i].proposals[id], id)
  {
  }

  /** Nothing stays in flight, unless the server is alone. */
  lemma QuietFlight(cfg: Config, w: World, i: nat)
    requires Inv(cfg, View(w)) && Quiet(w) && cfg.lossless && cfg.n > 1 && i < cfg.n
    ensures w.servers[i].proposals == map[]
  {
    forall id ensures id !in w.servers[i].proposals {
      if id in w.servers[i].proposals {
        StillPending(cfg, w, i, id);
        AllCounted(cfg, w, i, id);
      }
    }
  }

  lemma QuietHolders(cfg: Config, w: World, i: nat, id: nat)
    requires Inv(cfg, View(w)) && Quiet(w) && cfg.lossless && cfg.n > 1 && i < cfg.n
    ensures id in w.h.ballots <==> id in Ids(w.h.recorded[i])
  {
    var s := View(w);
    if id in w.h.ballots {
      assert BallotOk(cfg, s, id);
      var p := w.h.ballots[id].proposer;
      QuietFlight(cfg, w, p);
      RecordedFacts(cfg, s, p, id);
      if i != p { QuietSpread(cfg, w, id, i); }
    }
    if id in Ids(w.h.recorded[i]) { RecordedFacts(cfg, s, i, id); }
  }

  /** Log equality: in a lossless run, in either mode, whenever no frame and no acceptance is
      pending, nothing is in flight anywhere and every server has decided exactly the proposals
      ever broadcast, so servers that have not stopped would write identical logs. */
  lemma LogEquality(cfg: Config, w: World, i: nat, j: nat)
    requires Reached(cfg, w) && Quiet(w) && cfg.lossless && cfg.n > 1 && i < cfg.n && j < cfg.n
    ensures w.servers[i].proposals == map[]
    ensures Ids(w.h.recorded[i]) == w.h.ballots.Keys
    ensures w.h.cut[i] == w.h.cut[j] == 0 ==>
              && w.servers[i].decided == w.h.recorded[i]
              && Rows(Drain(w.servers[i].decided)) == Rows(Drain(w.servers[j].decided))
  {
    ReachableHolds(cfg, w);
    QuietFlight(cfg, w, i);
    forall id ensures id in Ids(w.h.recorded[i]) <==> id in w.h.ballots { QuietHolders(cfg, w, i, id); }
    forall id ensures id in Ids(w.h.recorded[j]) <==> id in w.h.ballots { QuietHolders(cfg, w, j, id); }
    RecordsAgree(cfg, View(w), i, j);
    assert ServerOk(cfg, View(w), i) && ServerOk(cfg, View(w), j);
    SameRows(w.h.recorded[i], w.h.recorded[j]);
  }

  lemma SplitIds(rs: seq<Record>, c: nat)
    requires c <= |rs| && DistinctIds(rs)
    ensures Ids(rs[..c]) == Ids(rs) - Ids(rs[c..]) && Ids(rs[c..]) <= Ids(rs) && DistinctIds(rs[..c])
  {
    forall id | id in Ids(rs[c..]) ensures id in Ids(rs) {
      var k :| 0 <= k < |rs[c..]| && rs[c..][k].id == id;
      assert rs[c + k].id == id;
    }
  }

  /** The written logs of two servers are identical, row for row, exactly when the decisions that
      reached them after they had written are the same: the two heaps hold the same ids. */
  lemma WrittenLogsEqual(cfg: Config, w: World, i: nat, j: nat)
    requires Reached(cfg, w) && Quiet(w) && cfg.lossless && cfg.n > 1 && i < cfg.n && j < cfg.n
    ensures w.servers[i].log == w.servers[j].log <==> Ids(w.servers[i].decided) == Ids(w.servers[j].decided)
  {
    LogEquality(cfg, w, i, j);
    LogEquality(cfg, w, j, i);
    LogSplit(cfg, w, i);
    LogSplit(cfg, w, j);
    AgreeBeforeCuts(cfg, w, i, j);
    SameRows(w.h.recorded[i][..w.h.cut[i]], w.h.recorded[j][..w.h.cut[j]]);
  }

  lemma AgreeBeforeCuts(cfg: Config, w: World, i: nat, j: nat)
    requires Reached(cfg, w) && i < cfg.n && j < cfg.n && w.h.cut[i] <= |w.h.recorded[i]|
    requires w.h.cut[j] <= |w.h.recorded[j]|
    ensures Agree(w.h.recorded[i][..w.h.cut[i]], w.h.recorded[j][..w.h.cut[j]])
  {
    hide Safe, Flow, Settled;
    ReachableHolds(cfg, w);
    RecordsAgree(cfg, View(w), i, j);
  }

  lemma LogSplit(cfg: Config, w: World, i: nat)
    requires Reached(cfg, w) && i < cfg.n
    ensures var rs, c := w.h.recorded[i], w.h.cut[i];
      && c <= |rs| && DistinctIds(rs[..c]) && w.servers[i].log == Rows(Drain(rs[..c]))
      && Ids(rs[..c]) == Ids(rs) - Ids(w.servers[i].decided) && Ids(w.servers[i].decided) <= Ids(rs)
  {
    ServerFacts(cfg, w, i);
    var rs, c := w.h.recorded[i], w.h.cut[i];
    SplitIds(rs, c);
  }

  /** No accepted request is lost: once the cluster has no traffic and no waiting proposals, every
      server has decided exactly the requests that were not turned away. */
  lemma AllRequestsDecided(cfg: Config, w: World, i: nat)
    requires Reached(cfg, w) && Quiet(w) && NoRequests(w) && cfg.lossless && cfg.n > 1 && i < cfg.n
    requires forall j :: 0 <= j < cfg.n ==> w.servers[j].waiting == []
    ensures Ids(w.h.recorded[i]) == w.h.requests.Keys - w.h.rejected
  {
    ReachableHolds(cfg, w);
    LogEquality(cfg, w, i, i);
    forall ts ensures ts in w.h.ballots <==> ts in w.h.requests && ts !in w.h.rejected {
      if ts in w.h.requests && ts !in w.h.rejected { RequestIssued(cfg, w, ts); }
      if ts in w.h.ballots { BallotCreator(cfg, View(w), ts); }
    }
  }

  lemma RequestIssued(cfg: Config, w: World, ts: nat)
    requires Inv(cfg, View(w)) && Quiet(w) && NoRequests(w) && cfg.lossless
    requires forall j :: 0 <= j < cfg.n ==> w.servers[j].waiting == []
    requires ts in w.h.requests && ts !in w.h.rejected
    ensures ts in w.h.ballots
  {
    var s := View(w);
    assert Routed(cfg, s, ts) && RequestOk(cfg, s, ts);
    if Token(AtRequest, ts, 0) in s.live { NoRequestTokens(w, Token(AtRequest, ts, 0)); }
    var d := w.h.requests[ts].dst;
    assert ServerOk(cfg, s, d);
    assert w.h.created[d] == w.h.issued[d] + [];
  }

  lemma SomeMember(q: seq<nat>)
    ensures q == [] || exists x :: x in q
  {
    if q != [] { assert q[0] in q; }
  }

  /** A lone server never decides anything: it hears no ACCEPT. */
  lemma AloneNeverDecides(cfg: Config, w: World)
    requires Reached(cfg, w) && cfg.n == 1
    ensures w.h.announced == [] && w.servers[0].decided == [] && w.servers[0].log == []
  {
    hide Safe, Flow, Settled;
    ReachableHolds(cfg, w);
    NothingDecided(cfg, View(w));
    NothingRecorded(cfg, View(w));
  }

  lemma NothingDecided(cfg: Config, s: Snapshot)
    requires Safe(cfg, s) && cfg.n == 1
    ensures s.h.announced == [] && forall id :: id !in s.h.decisions
  {
    forall id ensures id !in s.h.decisions {
      DecisionFact(cfg, s, id);
      if id in s.h.decisions { NoVoteAlone(cfg, s, id); }
    }
    SomeMember(s.h.announced);
  }

  lemma NoVoteAlone(cfg: Config, s: Snapshot, id: nat)
    requires Safe(cfg, s) && cfg.n == 1 && id in s.h.ballots
    ensures id in s.h.acks && s.h.acks[id] == {}
  {
    BallotFact(cfg, s, id);
    assert forall a :: a in s.h.acks[id] ==> Acceptor(cfg, s, id, a);
  }

  lemma NothingRecorded(cfg: Config, s: Snapshot)
    requires Safe(cfg, s) && forall id :: id !in s.h.decisions
    ensures s.h.recorded[0] == [] && s.servers[0].log == [] && s.servers[0].decided == []
  {
    assert ServerOk(cfg, s, 0);
    assert |s.h.recorded[0]| > 0 ==> DecidedRow(cfg, s.h, 0, s.h.recorded[0][0]);
  }
}
