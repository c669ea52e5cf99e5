/** What every move keeps. */
module Invariant {
  import opened PaxosData
  import opened DecisionLog
  import opened Cluster
  import opened Snapshots

  ghost predicate Distinct(q: seq<nat>) {
    forall j, k :: 0 <= j < k < |q| ==> q[j] != q[k]
  }

  function IdsInOrder(rs: seq<Record>): seq<nat> {
    seq(|rs|, k requires 0 <= k < |rs| => rs[k].id)
  }

  ghost predicate Shape(cfg: Config, s: Snapshot) {
    && cfg.Valid() && 0 < s.now
    && |s.servers| == cfg.n
    && |s.h.created| == |s.h.issued| == |s.h.recorded| == |s.h.cut| == |s.h.rounds| == cfg.n
  }

  // ---------- Requests, creation, waiting ----------

  ghost predicate RequestOk(cfg: Config, s: Snapshot, ts: nat) {
    ts in s.h.requests ==> ts <= s.now && s.h.requests[ts].dst < cfg.n
  }

  ghost predicate CreatedBy(cfg: Config, h: History, i: nat, id: nat) {
    id in h.requests && h.requests[id].dst == i && id !in h.rejected && (cfg.async ==> i == cfg.leader)
  }

  ghost predicate CreatedOk(cfg: Config, h: History, i: nat)
    requires i < |h.created|
  {
    Distinct(h.created[i]) && forall id :: id in h.created[i] ==> CreatedBy(cfg, h, i, id)
  }

  /** Made from the request of that timestamp and value, by server i, and nothing done with it yet. */
  ghost predicate WaitingRecord(h: History, i: nat, r: Record) {
    && r.id in h.requests && h.requests[r.id].value == r.value && r.nodeId == i && r.proposerId == i
    && r.createTime == r.id && r.proposeTime == 0 && r.acceptTime == 0
    && r.decisionTime == 0 && r.decisionAckTime == 0 && r.numAck == 0 && r.numDecisionAck == 0
    && r.state == ToBeProposed
  }

  ghost predicate WaitingOk(s: Snapshot, i: nat)
    requires HasServer(s, i)
  {
    var waiting := s.servers[i].waiting;
    && s.h.created[i] == s.h.issued[i] + IdsInOrder(waiting)
    && |waiting| <= QUEUE_LIMIT + 1
    && forall r :: r in waiting ==> WaitingRecord(s.h, i, r)
  }

  ghost predicate IssuedOk(h: History, i: nat)
    requires i < |h.issued|
  {
    forall id :: id in h.issued[i] ==> id in h.ballots && h.ballots[id].proposer == i
  }

  // ---------- Proposals in flight ----------

  ghost predicate SameBallot(h: History, id: nat, proposer: nat, value: nat, proposeTime: nat) {
    && id in h.ballots && id in h.acks && id in h.dacks
    && h.ballots[id].proposer == proposer && h.ballots[id].value == value && h.ballots[id].proposeTime == proposeTime
  }

  ghost predicate FlightRecord(cfg: Config, h: History, i: nat, id: nat, p: Record) {
    && p.id == id && SameBallot(h, id, p.nodeId, p.value, p.proposeTime) && p.nodeId == i && p.proposerId == i
    && p.createTime == id && p.acceptTime == 0 && p.state == ToBeAccepted
    && p.numAck == 1 + |h.acks[id]|
    && p.decisionAckTime == 0
    && p.decisionTime == (if id in h.decisions then h.decisions[id] else 0)
    && (id in h.decisions ==> p.numDecisionAck == 1 + |h.dacks[id]|)
  }

  ghost predicate FlightOk(cfg: Config, s: Snapshot, i: nat)
    requires HasServer(s, i)
  {
    forall id :: id in s.servers[i].proposals ==>
      && FlightRecord(cfg, s.h, i, id, s.servers[i].proposals[id])
      && id !in Ids(s.h.recorded[i])
  }

  // ---------- Ballots ----------

  ghost predicate Acceptor(cfg: Config, s: Snapshot, id: nat, a: nat)
    requires id in s.h.ballots
  {
    a < cfg.n && a < |s.servers| && a != s.h.ballots[id].proposer && id in s.servers[a].accepted
  }

  ghost predicate Learner(cfg: Config, s: Snapshot, id: nat, a: nat)
    requires id in s.h.ballots
  {
    a < cfg.n && a < |s.h.recorded| && a != s.h.ballots[id].proposer && id in Ids(s.h.recorded[a])
  }

  ghost predicate BallotOk(cfg: Config, s: Snapshot, id: nat)
    requires Shape(cfg, s)
  {
    id in s.h.ballots ==>
      var b := s.h.ballots[id];
      && b.proposer < cfg.n && id in s.h.issued[b.proposer]
      && id in s.h.requests && s.h.requests[id].value == b.value
      && b.proposeTime <= s.now
      && id in s.h.acks && id in s.h.dacks
      && (forall a :: a in s.h.acks[id] ==> Acceptor(cfg, s, id, a))
      && (forall a :: a in s.h.dacks[id] ==> Learner(cfg, s, id, a))
      && (id !in s.h.decisions ==> s.h.dacks[id] == {})
      && (id in s.servers[b.proposer].proposals || id in Ids(s.h.recorded[b.proposer]))
  }

  ghost predicate DecisionOk(cfg: Config, s: Snapshot, id: nat) {
    id in s.h.decisions ==>
      && id in s.h.ballots && id in s.h.acks
      && |s.h.acks[id]| + 1 > cfg.n / 2 && s.h.acks[id] != {}
      && s.h.ballots[id].proposeTime <= s.h.decisions[id] <= s.now
      && 0 < s.h.decisions[id]
  }

  ghost predicate AnnouncedOk(h: History) {
    Distinct(h.announced) && forall id :: id in h.announced <==> id in h.decisions
  }

  // ---------- Records ----------

  ghost predicate DecidedRow(cfg: Config, h: History, i: nat, r: Record) {
    && SameBallot(h, r.id, r.nodeId, r.value, r.proposeTime)
    && r.id in h.decisions && r.decisionTime == h.decisions[r.id] && r.proposerId == r.nodeId
    && (if r.nodeId == i then r.createTime == r.id && r.acceptTime == 0 && r.state == ToBeAccepted
        else r.createTime == 0 && r.decisionAckTime == 0 && r.numAck == 0 && r.numDecisionAck == 0)
    && (r.nodeId == i && cfg.async ==> |h.dacks[r.id]| + 1 > cfg.n / 2)
  }

  ghost predicate RecordedOk(cfg: Config, s: Snapshot, i: nat)
    requires HasServer(s, i)
  {
    && DistinctIds(s.h.recorded[i])
    && forall r :: r in s.h.recorded[i] ==> DecidedRow(cfg, s.h, i, r)
  }

  ghost predicate AcceptedOk(s: Snapshot, i: nat)
    requires HasServer(s, i)
  {
    forall id :: id in s.servers[i].accepted ==>
      var r := s.servers[i].accepted[id];
      && r.id == id && SameBallot(s.h, id, r.nodeId, r.value, r.proposeTime) && r.nodeId != i
      && r.numAck == 0 && r.decisionTime == 0 && 0 < r.acceptTime <= s.now
  }

  /** The heap holds what was pushed since the stop handler ran; the log what was pushed before. */
  ghost predicate HeapOk(s: Snapshot, i: nat)
    requires HasServer(s, i)
  {
    && s.h.cut[i] <= |s.h.recorded[i]|
    && s.servers[i].decided == s.h.recorded[i][s.h.cut[i]..]
    && s.servers[i].log == Rows(Drain(s.h.recorded[i][..s.h.cut[i]]))
    && (Token(AtStop, 0, i) in s.live ==> s.h.cut[i] == 0)
  }

  // ---------- Tokens ----------

  ghost predicate LiveOk(cfg: Config, s: Snapshot, t: Token)
    requires Shape(cfg, s)
  {
    match t.stage
    case AtRequest =>
      && t.peer == 0 && t.id in s.h.requests && t.id !in s.h.rejected
      && s.h.requests[t.id].dst < cfg.n && t.id !in s.h.created[s.h.requests[t.id].dst]
    case AtProposal =>
      && t.id in s.h.ballots && t.id in s.h.acks && t.peer < cfg.n && t.peer != s.h.ballots[t.id].proposer
      && t.peer !in s.h.acks[t.id]
    case AtDecision =>
      && t.id in s.h.decisions && t.id in s.h.ballots && t.peer < cfg.n && t.peer != s.h.ballots[t.id].proposer
      && t.id !in Ids(s.h.recorded[t.peer])
    case AtAck =>
      && cfg.async && t.id in s.h.decisions && t.id in s.h.ballots && t.id in s.h.dacks
      && t.peer < cfg.n && t.peer != s.h.ballots[t.id].proposer
      && t.id in Ids(s.h.recorded[t.peer]) && t.peer !in s.h.dacks[t.id]
    case AtTimer => t.id == 0 && t.peer < cfg.n && (cfg.async ==> t.peer == cfg.leader)
    case AtClient => t.id == 0 && t.peer == 0
    case AtStop => t.id == 0 && t.peer < cfg.n
    case AtUnknown => false
  }

  // ---------- Single flight ----------

  /** The asynchronous leader either owes a turn and has nothing in flight, or has exactly the
      latest issued proposal in flight; everything before that is recorded, in issue order. */
  ghost predicate LeaderOk(cfg: Config, s: Snapshot)
    requires Shape(cfg, s)
  {
    var l := cfg.leader;
    var issued, recorded := s.h.issued[l], IdsInOrder(s.h.recorded[l]);
    var turn := Token(AtTimer, 0, l) in s.live;
    if s.servers[l].proposals == map[] then
      issued == recorded && (s.now < cfg.stop ==> turn)
    else
      && !turn && issued != [] && s.servers[l].proposals.Keys == {issued[|issued| - 1]}
      && issued[..|issued| - 1] == recorded
  }

  // ---------- Nothing is lost on a lossless network ----------

  ghost predicate Answered(cfg: Config, s: Snapshot, i: nat, id: nat)
    requires Shape(cfg, s) && i < cfg.n
  {
    id in s.h.acks && id in s.h.dacks &&
    forall a :: 0 <= a < cfg.n && a != i ==>
      && (a in s.h.acks[id] || Token(AtProposal, id, a) in s.live)
      && (id in s.h.decisions && id in Ids(s.h.recorded[a]) ==> a in s.h.dacks[id] || Token(AtAck, id, a) in s.live)
  }

  ghost predicate Spread(cfg: Config, s: Snapshot, id: nat)
    requires Shape(cfg, s)
  {
    id in s.h.decisions ==>
      && id in s.h.ballots
      && forall a :: 0 <= a < cfg.n && a != s.h.ballots[id].proposer ==>
           id in Ids(s.h.recorded[a]) || Token(AtDecision, id, a) in s.live
  }

  ghost predicate Routed(cfg: Config, s: Snapshot, ts: nat)
    requires Shape(cfg, s)
  {
    ts in s.h.requests && s.h.requests[ts].dst < cfg.n ==>
      || Token(AtRequest, ts, 0) in s.live
      || ts in s.h.rejected
      || ts in s.h.created[s.h.requests[ts].dst]
  }

  ghost predicate NothingLost(cfg: Config, s: Snapshot)
    requires Shape(cfg, s)
  {
    && (forall i, id :: 0 <= i < cfg.n && id in s.servers[i].proposals ==> Answered(cfg, s, i, id))
    && (forall id :: id in s.h.decisions ==> Spread(cfg, s, id))
    && (forall ts :: ts in s.h.requests ==> Routed(cfg, s, ts))
  }

  // ---------- Synchronous slots ----------

  ghost predicate SlotOk(cfg: Config, h: History, id: nat) {
    id in h.ballots ==>
      var b := h.ballots[id];
      && b.proposer < |h.rounds| && b.round < h.rounds[b.proposer]
      && b.proposeTime == cfg.TurnStart(b.proposer, b.round)
  }

  ghost predicate OneBallotPerRound(h: History) {
    forall x, y :: x in h.ballots && y in h.ballots && x != y ==>
      h.ballots[x].proposer != h.ballots[y].proposer || h.ballots[x].round != h.ballots[y].round
  }

  // ---------- All together ----------

  ghost predicate ServerOk(cfg: Config, s: Snapshot, i: nat)
    requires Shape(cfg, s) && i < cfg.n
  {
    && CreatedOk(cfg, s.h, i) && WaitingOk(s, i) && IssuedOk(s.h, i) && FlightOk(cfg, s, i)
    && RecordedOk(cfg, s, i) && AcceptedOk(s, i) && HeapOk(s, i)
  }

  ghost predicate HistoryOk(cfg: Config, s: Snapshot)
    requires Shape(cfg, s)
  {
    && s.h.rejected <= s.h.requests.Keys
    && (forall ts :: ts in s.h.requests ==> RequestOk(cfg, s, ts))
    && (forall id :: id in s.h.ballots ==> BallotOk(cfg, s, id))
    && (forall id :: id in s.h.decisions ==> DecisionOk(cfg, s, id))
    && AnnouncedOk(s.h)
  }

  ghost predicate Safe(cfg: Config, s: Snapshot) {
    && Shape(cfg, s)
    && (forall i :: 0 <= i < cfg.n ==> ServerOk(cfg, s, i))
    && HistoryOk(cfg, s)
    && (forall t :: t in s.live ==> LiveOk(cfg, s, t))
  }

  /** Between handlers no proposal sits above a threshold (a lone server, which hears nobody, is
      the exception), and in synchronous mode none is both decided and in flight. */
  ghost predicate Settled(cfg: Config, s: Snapshot) {
    forall i, id :: 0 <= i < cfg.n && i < |s.servers| && id in s.servers[i].proposals ==>
      Pending(cfg, s, s.servers[i].proposals[id], id)
  }

  ghost predicate Pending(cfg: Config, s: Snapshot, p: Record, id: nat) {
    if id in s.h.decisions then cfg.async && p.numDecisionAck <= cfg.n / 2
    else cfg.n > 1 ==> p.numAck <= cfg.n / 2
  }

  ghost predicate SlotsOk(cfg: Config, h: History) {
    (forall id :: id in h.ballots ==> SlotOk(cfg, h, id)) && OneBallotPerRound(h)
  }

  /** Kept by every single move. */
  ghost predicate Flow(cfg: Config, s: Snapshot)
    requires Shape(cfg, s)
  {
    && (cfg.async ==> LeaderOk(cfg, s))
    && (cfg.lossless ==> NothingLost(cfg, s))
    && (!cfg.async ==> SlotsOk(cfg, s.h))
  }

  /** Kept by every handler. */
  ghost predicate Inv(cfg: Config, s: Snapshot) {
    Safe(cfg, s) && Flow(cfg, s) && Settled(cfg, s)
  }
}
