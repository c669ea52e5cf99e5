/** The cluster as its invariants see it: server contents, history, and for everything on the
    agenda a token saying which hop of which exchange it is. Every handler is a composition of
    the small moves below. */
module Snapshots {
  import opened PaxosData
  import opened Handlers
  import opened Cluster

  datatype Stage = AtRequest | AtProposal | AtDecision | AtAck | AtTimer | AtClient | AtStop | AtUnknown

  /** `id` is the proposal and `peer` the server on the other end of the exchange. */
  datatype Token = Token(stage: Stage, id: nat, peer: nat)

  datatype Snapshot = Snapshot(now: nat, servers: seq<Server>, live: set<Token>, h: History)

  function TokenOf(it: Item): Token {
    match it
    case RequestTo(_, req, _) => Token(AtRequest, req.timestamp, 0)
    case FrameTo(dst, f, _) =>
      if f.kind == PROPOSAL then Token(AtProposal, f.proposalId, dst)
      else if f.kind == ACCEPT then Token(AtProposal, f.proposalId, f.acceptorId)
      else if f.kind == DECISION then Token(AtDecision, f.proposalId, dst)
      else if f.kind == DECISION_ACK then Token(AtAck, f.proposalId, f.proposerId)
      else Token(AtUnknown, f.proposalId, dst)
    case Local(i, e, _) => (
      match e
      case CreateProposal(req) => Token(AtRequest, req.timestamp, 0)
      case SendAccept(f) => Token(AtProposal, f.proposalId, i)
      case AsyncPropose => Token(AtTimer, 0, i)
      case SyncPropose => Token(AtTimer, 0, i)
      case StopApplication => Token(AtStop, 0, i)
    )
    case ClientSend(_) => Token(AtClient, 0, 0)
  }

  ghost function TokensOf(agenda: map<nat, Item>): set<Token> {
    set u | u in agenda :: TokenOf(agenda[u])
  }

  ghost function View(w: World): Snapshot {
    Snapshot(w.now, w.servers, TokensOf(w.agenda), w.h)
  }

  /** The tokens of one broadcast. */
  ghost function Wave(stage: Stage, id: nat, n: nat, i: nat): set<Token> {
    set a | 0 <= a < n && a != i :: Token(stage, id, a)
  }

  // ---------- Moves ----------

  ghost predicate HasServer(s: Snapshot, i: nat) {
    i < |s.servers| && i < |s.h.created| && i < |s.h.issued| && i < |s.h.recorded| && i < |s.h.cut| && i < |s.h.rounds|
  }

  /** A request is dropped. */
  ghost function Reject(s: Snapshot, req: Request): Snapshot {
    s.(live := s.live - {Token(AtRequest, req.timestamp, 0)}, h := NoteReject(s.h, req))
  }

  /** A request joins the waiting queue. */
  ghost function Create(s: Snapshot, i: nat, req: Request): Snapshot
    requires HasServer(s, i)
  {
    s.(live := s.live - {Token(AtRequest, req.timestamp, 0)}, h := NoteCreate(s.h, i, req),
    servers := s.servers[i := s.servers[i].(waiting := s.servers[i].waiting + [NewProposal(i, req, s.now)])])
  }

  /** The head of the waiting queue is broadcast and becomes in flight. */
  ghost function Issue(cfg: Config, s: Snapshot, i: nat): Snapshot
    requires HasServer(s, i) && s.servers[i].waiting != []
  {
    var v := s.servers[i];
    var p := Proposed(i, v.waiting[0], s.now);
    s.(servers := s.servers[i := v.(waiting := v.waiting[1..], proposals := v.proposals[p.id := p])],
    live := s.live + Wave(AtProposal, p.id, cfg.n, i), h := NoteIssue(s.h, i, v, s.now))
  }

  /** The asynchronous leader looks for work, using up its turn if it finds some or is too late. */
  ghost function TakeTurn(cfg: Config, s: Snapshot, i: nat): Snapshot
    requires HasServer(s, i)
  {
    if s.now >= cfg.stop then s.(live := s.live - {Token(AtTimer, 0, i)})
    else if s.servers[i].waiting == [] then s
    else Issue(cfg, s.(live := s.live - {Token(AtTimer, 0, i)}), i)
  }

  /** One synchronous round. */
  ghost function TakeSlot(cfg: Config, s: Snapshot, i: nat): Snapshot
    requires HasServer(s, i)
  {
    if s.now >= cfg.stop then s.(live := s.live - {Token(AtTimer, 0, i)})
    else
      var s1 := if s.servers[i].waiting == [] then s else Issue(cfg, s, i);
      s1.(h := NoteRound(s1.h, i))
  }

  ghost function Accept(s: Snapshot, a: nat, f: Frame): Snapshot
    requires HasServer(s, a)
  {
    var v := s.servers[a];
    s.(servers := s.servers[a := v.(accepted := v.accepted[f.proposalId := AcceptedRecord(f, s.now)])])
  }

  /** A late or lost message disappears without effect. */
  ghost function Forget(s: Snapshot, t: Token): Snapshot {
    s.(live := s.live - {t})
  }

  ghost predicate InFlight(s: Snapshot, i: nat, id: nat) {
    HasServer(s, i) && id in s.servers[i].proposals
  }

  ghost function CountAck(s: Snapshot, i: nat, id: nat, a: nat): Snapshot
    requires InFlight(s, i, id)
  {
    var p := s.servers[i].proposals[id];
    s.(servers := s.servers[i := s.servers[i].(proposals := s.servers[i].proposals[id := p.(numAck := p.numAck + 1)])],
    live := s.live - {Token(AtProposal, id, a)}, h := NoteAck(s.h, id, a))
  }

  ghost function Decide(cfg: Config, s: Snapshot, i: nat, id: nat): Snapshot
    requires InFlight(s, i, id)
  {
    var p := s.servers[i].proposals[id].(decisionTime := s.now, numDecisionAck := 1);
    s.(servers := s.servers[i := s.servers[i].(proposals := s.servers[i].proposals[id := p])],
    live := s.live + Wave(AtDecision, id, cfg.n, i), h := NoteDecision(s.h, id, s.now))
  }

  ghost function CountDecisionAck(s: Snapshot, i: nat, id: nat, a: nat): Snapshot
    requires InFlight(s, i, id)
  {
    var p := s.servers[i].proposals[id];
    s.(servers := s.servers[i := s.servers[i].(proposals :=
    s.servers[i].proposals[id := p.(numDecisionAck := p.numDecisionAck + 1)])],
    live := s.live - {Token(AtAck, id, a)}, h := NoteDecisionAck(s.h, id, a))
  }

  /** The proposer records its own decided proposal; the asynchronous leader earns a turn. */
  ghost function Complete(cfg: Config, s: Snapshot, i: nat, p: Record): Snapshot
    requires HasServer(s, i)
  {
    var v := s.servers[i];
    s.(servers := s.servers[i := v.(proposals := v.proposals - {p.id}, decided := v.decided + [p])],
    live := if cfg.async then s.live + {Token(AtTimer, 0, i)} else s.live, h := NoteRecord(s.h, i, p))
  }

  /** Another server learns a decision; it acknowledges in asynchronous mode. */
  ghost function Learn(cfg: Config, s: Snapshot, a: nat, f: Frame): Snapshot
    requires HasServer(s, a)
  {
    var v := s.servers[a];
    var rest := s.live - {Token(AtDecision, f.proposalId, a)};
    s.(servers := s.servers[a := v.(decided := v.decided + [DecidedRecord(f)])],
    live := if cfg.async then rest + {Token(AtAck, f.proposalId, a)} else rest,
    h := NoteRecord(s.h, a, DecidedRecord(f)))
  }

  ghost function Halt(s: Snapshot, i: nat): Snapshot
    requires HasServer(s, i)
  {
    s.(servers := s.servers[i := Stop(s.servers[i]).server], live := s.live - {Token(AtStop, 0, i)},
    h := s.h.(cut := s.h.cut[i := |s.h.recorded[i]|]))
  }

  ghost function Submit(s: Snapshot, value: nat, dst: nat): Snapshot {
    s.(live := s.live + {Token(AtRequest, s.now, 0)},
    h := s.h.(requests := s.h.requests[s.now := RequestInfo(value, dst)]))
  }

  // ---------- Whole handlers ----------

  /** An ACCEPT for a proposal still in flight: counted, and the last one needed decides. */
  ghost function OnAccept(cfg: Config, s: Snapshot, i: nat, id: nat, a: nat): Snapshot
    requires InFlight(s, i, id)
  {
    var s1 := CountAck(s, i, id, a);
    var p := s1.servers[i].proposals[id];
    if p.numAck > cfg.n / 2 && p.decisionTime == 0 then
      var s2 := Decide(cfg, s1, i, id);
      if cfg.async then s2 else Complete(cfg, s2, i, s2.servers[i].proposals[id])
    else s1
  }

  /** A DECISION_ACK for a proposal still in flight: counted, and the last one needed records
      the proposal and lets the leader propose again. */
  ghost function OnDecisionAck(cfg: Config, s: Snapshot, i: nat, id: nat, a: nat): Snapshot
    requires InFlight(s, i, id)
  {
    var s1 := CountDecisionAck(s, i, id, a);
    var p := s1.servers[i].proposals[id];
    if p.numDecisionAck > cfg.n / 2 && p.decisionAckTime == 0 then
      TakeTurn(cfg, Complete(cfg, s1, i, p.(decisionAckTime := s.now)), i)
    else s1
  }
}
