/** What every handler of a Paxos server does, as functions on the server's contents.
    `i` is the server's own id, `now` the simulated time of the call. */
module Handlers {
  import opened PaxosData
  import opened DecisionLog

  /** The k-th node other than `i`, in node order. */
  function Peer(i: nat, k: nat): nat {
    if k < i then k else k + 1
  }

  /** One copy of the frame for every node but the sender, in node order. */
  function Broadcast(n: nat, i: nat, f: Frame): (outs: seq<Output>)
    requires i < n
  {
    seq(n - 1, k requires 0 <= k < n - 1 => Send(Peer(i, k), f))
  }

  function ReceiveRequest(cfg: Config, i: nat, s: Server, req: Request): Effect {
    if cfg.async && i != cfg.leader then Effect(s, [])
    else Effect(s, [Schedule(HANDLING_DELAY, CreateProposal(req))])
  }

  function NewProposal(i: nat, req: Request, now: nat): Record {
    BLANK.(id := req.timestamp, proposerId := i, nodeId := i, value := req.value,
    createTime := req.timestamp, receiveTime := now, state := ToBeProposed)
  }

  function CreateFromRequest(i: nat, s: Server, req: Request, now: nat): Effect {
    if |s.waiting| > QUEUE_LIMIT then Effect(s, [])
    else Effect(s.(waiting := s.waiting + [NewProposal(i, req, now)]), [])
  }

  function Proposed(i: nat, p: Record, now: nat): Record {
    p.(nodeId := i, proposeTime := now, numAck := 1, state := ToBeAccepted, numDecisionAck := 1)
  }

  function ProposalFrame(i: nat, p: Record, now: nat): Frame {
    Frame(PROPOSAL, i, p.id, p.value, now, 0, 0, 0)
  }

  function DoPropose(cfg: Config, i: nat, s: Server, now: nat): Effect
    requires i < cfg.n
  {
    if s.waiting == [] then Effect(s, [])
    else
      var p := Proposed(i, s.waiting[0], now);
      Effect(
        s.(waiting := s.waiting[1..], proposals := s.proposals[p.id := p]),
        Broadcast(cfg.n, i, ProposalFrame(i, p, now)))
  }

  function DoSyncPropose(cfg: Config, i: nat, s: Server, now: nat): Effect
    requires i < cfg.n
  {
    if now >= cfg.stop then Effect(s, [])
    else
      var e := DoPropose(cfg, i, s, now);
      e.(outputs := e.outputs + [Schedule(cfg.Period(), SyncPropose)])
  }

  function DoAsyncPropose(cfg: Config, i: nat, s: Server, now: nat): Effect
    requires i < cfg.n
  {
    if now >= cfg.stop then Effect(s, [])
    else if s.waiting != [] then DoPropose(cfg, i, s, now)
    else Effect(s, [Schedule(POLL_DELAY, AsyncPropose)])
  }

  function StartProposer(cfg: Config, i: nat, s: Server, now: nat): Effect
    requires i < cfg.n
  {
    if !cfg.async then Effect(s, [Schedule(i * cfg.Slot(), SyncPropose)])
    else if i == cfg.leader then DoAsyncPropose(cfg, i, s, now)
    else Effect(s, [])
  }

  function Stamped(i: nat, f: Frame, now: nat): Frame {
    f.(acceptorId := i, acceptTime := now)
  }

  function AcceptedRecord(f: Frame, now: nat): Record {
    BLANK.(id := f.proposalId, nodeId := f.proposerId, value := f.value,
    proposeTime := f.proposeTime, numAck := 0, acceptTime := now)
  }

  function ReceivedProposal(i: nat, s: Server, f: Frame, now: nat): Effect {
    Effect(
      s.(accepted := s.accepted[f.proposalId := AcceptedRecord(f, now)]),
      [Schedule(HANDLING_DELAY, SendAccept(Stamped(i, f, now)))])
  }

  function AcceptFrame(i: nat, f: Frame, now: nat): Frame {
    Stamped(i, f.(kind := ACCEPT), now)
  }

  function SendAcceptMessage(i: nat, s: Server, f: Frame, now: nat): Effect {
    Effect(s, [Send(f.proposerId, AcceptFrame(i, f, now))])
  }

  function DecisionFrame(f: Frame, now: nat): Frame {
    f.(kind := DECISION, decisionTime := now)
  }

  function ReceivedAccept(cfg: Config, i: nat, s: Server, f: Frame, now: nat): Effect
    requires i < cfg.n
  {
    if f.proposerId != i || f.proposalId !in s.proposals then Effect(s, [])
    else
      var id := f.proposalId;
      var p := s.proposals[id].(numAck := s.proposals[id].numAck + 1);
      if p.numAck > cfg.n / 2 && p.decisionTime == 0 then
        var d := p.(decisionTime := now, numDecisionAck := 1);
        Effect(
          if cfg.async then s.(proposals := s.proposals[id := d])
          else s.(proposals := s.proposals - {id}, decided := s.decided + [d]),
          Broadcast(cfg.n, i, DecisionFrame(f, now)))
      else
        Effect(s.(proposals := s.proposals[id := p]), [])
  }

  function DecidedRecord(f: Frame): Record {
    BLANK.(id := f.proposalId, proposerId := f.proposerId, nodeId := f.proposerId, value := f.value,
    proposeTime := f.proposeTime, acceptTime := f.acceptTime, decisionTime := f.decisionTime)
  }

  /** The acknowledgement carries the acknowledging server in its proposer field. */
  function DecisionAckFrame(i: nat, f: Frame): Frame {
    Frame(DECISION_ACK, i, f.proposalId, f.value, f.proposeTime, 0, 0, 0)
  }

  function ReceivedDecision(cfg: Config, i: nat, s: Server, f: Frame): Effect {
    Effect(
      s.(decided := s.decided + [DecidedRecord(f)]),
      if cfg.async then [Send(f.proposerId, DecisionAckFrame(i, f))] else [])
  }

  function ReceivedDecisionAck(cfg: Config, i: nat, s: Server, f: Frame, now: nat): Effect
    requires i < cfg.n
  {
    if !cfg.async || f.proposalId !in s.proposals then Effect(s, [])
    else
      var id := f.proposalId;
      var p := s.proposals[id].(numDecisionAck := s.proposals[id].numDecisionAck + 1);
      if p.numDecisionAck > cfg.n / 2 && p.decisionAckTime == 0 then
        var d := p.(decisionAckTime := now);
        DoAsyncPropose(cfg, i, s.(proposals := s.proposals - {id}, decided := s.decided + [d]), now)
      else
        Effect(s.(proposals := s.proposals[id := p]), [])
  }

  /** Message dispatch by kind; a frame of unknown kind is fatal and changes nothing. */
  function ReceiveMessage(cfg: Config, i: nat, s: Server, f: Frame, now: nat): Effect
    requires i < cfg.n
  {
    if f.kind == PROPOSAL then ReceivedProposal(i, s, f, now)
    else if f.kind == ACCEPT then ReceivedAccept(cfg, i, s, f, now)
    else if f.kind == DECISION then ReceivedDecision(cfg, i, s, f)
    else if f.kind == DECISION_ACK then ReceivedDecisionAck(cfg, i, s, f, now)
    else Effect(s, [])
  }

  /** The heap is written out in order and left empty. */
  function Stop(s: Server): Effect {
    Effect(s.(log := Rows(Drain(s.decided)), decided := []), [])
  }

  function HandleEvent(cfg: Config, i: nat, s: Server, e: Event, now: nat): Effect
    requires i < cfg.n
  {
    match e
    case CreateProposal(req) => CreateFromRequest(i, s, req, now)
    case SendAccept(f) => SendAcceptMessage(i, s, f, now)
    case AsyncPropose => DoAsyncPropose(cfg, i, s, now)
    case SyncPropose => DoSyncPropose(cfg, i, s, now)
    case StopApplication => Stop(s)
  }
}
