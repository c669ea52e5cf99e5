/** The cluster model hands frames over by value; on every run short enough for its times to be
    parsed exactly, the bytes on the wire say the same. */
module WireFidelity {
  import opened PaxosData
  import opened Cluster
  import opened Snapshots
  import opened Invariant
  import opened AgendaInvariant
  import opened Runs
  import opened Agreement
  import FrameCodec

  /** Server ids and request values have 32 bits, and the run is less than 2^53 nanoseconds old. */
  ghost predicate Narrow(cfg: Config, w: World) {
    && cfg.n <= FrameCodec.U32 && w.now < FrameCodec.EXACT
    && forall ts :: ts in w.h.requests ==> w.h.requests[ts].value < FrameCodec.U32
  }

  lemma BallotFacts(cfg: Config, w: World, id: nat)
    requires Reached(cfg, w) && id in w.h.ballots
    ensures var b := w.h.ballots[id];
      && b.proposer < cfg.n && b.proposeTime <= w.now && id <= w.now
      && id in w.h.requests && w.h.requests[id].value == b.value
  {
    ReachableHolds(cfg, w);
    assert BallotOk(cfg, View(w), id) && RequestOk(cfg, View(w), id);
  }

  lemma FrameFields(cfg: Config, s: Snapshot, dst: nat, f: Frame, sentAt: nat)
    requires FrameOk(cfg, s, dst, f, sentAt) && Stamps(cfg, s, f)
    ensures f.kind < 104 && f.acceptorId < cfg.n && f.acceptTime <= s.now && f.decisionTime <= s.now
    ensures f.proposalId in s.h.ballots
    ensures f.value == s.h.ballots[f.proposalId].value && f.proposeTime == s.h.ballots[f.proposalId].proposeTime
    ensures f.kind == DECISION_ACK || f.proposerId == s.h.ballots[f.proposalId].proposer
  {
  }

  lemma FrameNarrow(cfg: Config, w: World, u: nat)
    requires Reached(cfg, w) && u in w.agenda && w.agenda[u].FrameTo?
    ensures var f := w.agenda[u].frame;
      && f.kind < 104 && f.proposerId < cfg.n && f.acceptorId < cfg.n
      && f.proposalId in w.h.ballots && f.value == w.h.ballots[f.proposalId].value
      && f.proposeTime == w.h.ballots[f.proposalId].proposeTime && f.acceptTime <= w.now && f.decisionTime <= w.now
  {
    NoFatalFrame(cfg, w, u);
    ItemHolds(cfg, w, u);
    FrameFields(cfg, View(w), w.agenda[u].dst, w.agenda[u].frame, w.agenda[u].sentAt);
  }

  /** Every frame in flight is read back exactly as it was sent. */
  lemma FramesSurvive(cfg: Config, w: World, u: nat, parse: FrameCodec.TimeParser)
    requires Reached(cfg, w) && Narrow(cfg, w) && FrameCodec.ExactParser(parse)
    requires u in w.agenda && w.agenda[u].FrameTo?
    ensures FrameCodec.DecodeFrame(FrameCodec.EncodeFrame(w.agenda[u].frame), parse) == w.agenda[u].frame
  {
    FrameNarrow(cfg, w, u);
    BallotFacts(cfg, w, w.agenda[u].frame.proposalId);
    FrameCodec.FrameRoundTrip(w.agenda[u].frame, parse);
  }

  /** And every request. */
  lemma RequestsSurvive(cfg: Config, w: World, u: nat, parse: FrameCodec.TimeParser)
    requires Reached(cfg, w) && Narrow(cfg, w) && FrameCodec.ExactParser(parse)
    requires u in w.agenda && w.agenda[u].RequestTo?
    ensures FrameCodec.DecodeRequest(FrameCodec.EncodeRequest(w.agenda[u].request), parse) == w.agenda[u].request
  {
    ReachableHolds(cfg, w);
    var s, r := View(w), w.agenda[u].request;
    assert ItemOk(cfg, s, w.agenda[u]) && RequestOk(cfg, s, r.timestamp);
    FrameCodec.RequestRoundTrip(r, [], parse);
    assert FrameCodec.EncodeRequest(r) + [] == FrameCodec.EncodeRequest(r);
  }
}
