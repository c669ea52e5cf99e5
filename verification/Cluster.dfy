/** The whole cluster as a discrete-event simulation: server contents, one agenda holding
    every packet in flight and every scheduled event, the client, and a history that no step
    ever reads. One step fires one agenda item atomically. */
module Cluster {
  import opened PaxosData
  import opened Handlers
  import opened RoundRobin

  datatype Item =
    | RequestTo(dst: nat, request: Request, sentAt: nat)
    | FrameTo(dst: nat, frame: Frame, sentAt: nat)
    | Local(server: nat, event: Event, due: nat)
    | ClientSend(due: nat)

  datatype RequestInfo = RequestInfo(value: nat, dst: nat)
  datatype Ballot = Ballot(proposer: nat, value: nat, proposeTime: nat, round: nat)

  /** What has happened so far.
      requests   every request the client sent, by timestamp
      rejected   requests dropped by a non-leader or by a full queue
      created    per server, ids of the proposals it created, oldest first
      issued     per server, ids it broadcast, oldest first
      ballots    the one broadcast made for an id
      acks       per id, the acceptors whose ACCEPT was counted
      decisions  per id, when its DECISION was broadcast; `announced` lists the broadcasts
      dacks      per id, the servers whose DECISION_ACK was counted
      recorded   per server, everything ever pushed on its decided heap, in push order
      cut        per server, how many of these the stop handler had to write out
      rounds     per server, how many synchronous propose rounds ran */
  datatype History = History(
    requests: map<nat, RequestInfo>, rejected: set<nat>,
    created: seq<seq<nat>>, issued: seq<seq<nat>>, ballots: map<nat, Ballot>,
    acks: map<nat, set<nat>>, decisions: map<nat, nat>, announced: seq<nat>,
    dacks: map<nat, set<nat>>, recorded: seq<seq<Record>>, cut: seq<nat>, rounds: seq<nat>)

  datatype World = World(
    now: nat, servers: seq<Server>, agenda: map<nat, Item>, nextUid: nat,
    lastServerId: nat, h: History)

  // ---------- Effects on the agenda ----------

  function ItemOf(i: nat, now: nat, o: Output): Item {
    match o
    case Send(dst, f) => FrameTo(dst, f, now)
    case Schedule(d, e) => Local(i, e, now + d)
  }

  function ItemsOf(i: nat, now: nat, outs: seq<Output>): seq<Item> {
    seq(|outs|, k requires 0 <= k < |outs| => ItemOf(i, now, outs[k]))
  }

  function Numbered(items: seq<Item>, next: nat, u: nat): Item
    requires next <= u < next + |items|
  {
    items[u - next]
  }

  /** Adds the items under fresh identifiers. */
  function Post(agenda: map<nat, Item>, next: nat, items: seq<Item>): map<nat, Item> {
    agenda + (map u | next <= u < next + |items| :: Numbered(items, next, u))
  }

  /** Item `u` has been handled by server `i` with effect `e`. */
  function Commit(w: World, u: nat, i: nat, e: Effect, h: History): World
    requires i < |w.servers|
  {
    var items := ItemsOf(i, w.now, e.outputs);
    w.(servers := w.servers[i := e.server], agenda := Post(w.agenda - {u}, w.nextUid, items),
    nextUid := w.nextUid + |items|, h := h)
  }

  // ---------- History ----------

  ghost predicate Sized(cfg: Config, w: World) {
    && |w.servers| == cfg.n
    && |w.h.created| == |w.h.issued| == |w.h.recorded| == |w.h.cut| == |w.h.rounds| == cfg.n
  }

  function Append<T>(s: seq<seq<T>>, i: nat, x: T): seq<seq<T>>
    requires i < |s|
  {
    s[i := s[i] + [x]]
  }

  /** Server `i` broadcasts the head of its waiting queue, if there is one. */
  function NoteIssue(h: History, i: nat, s: Server, now: nat): History
    requires i < |h.issued| && i < |h.rounds|
  {
    if s.waiting == [] then h
    else
      var p := s.waiting[0];
      h.(issued := Append(h.issued, i, p.id),
      ballots := h.ballots[p.id := Ballot(i, p.value, now, h.rounds[i])],
      acks := h.acks[p.id := {}], dacks := h.dacks[p.id := {}])
  }

  function NoteRound(h: History, i: nat): History
    requires i < |h.rounds|
  {
    h.(rounds := h.rounds[i := h.rounds[i] + 1])
  }

  function NoteAck(h: History, id: nat, a: nat): History {
    h.(acks := h.acks[id := (if id in h.acks then h.acks[id] else {}) + {a}])
  }

  function NoteDecision(h: History, id: nat, now: nat): History {
    h.(decisions := h.decisions[id := now], announced := h.announced + [id])
  }

  function NoteDecisionAck(h: History, id: nat, a: nat): History {
    h.(dacks := h.dacks[id := (if id in h.dacks then h.dacks[id] else {}) + {a}])
  }

  function NoteRecord(h: History, i: nat, r: Record): History
    requires i < |h.recorded|
  {
    h.(recorded := Append(h.recorded, i, r))
  }

  function NoteCreate(h: History, i: nat, req: Request): History
    requires i < |h.created|
  {
    h.(created := Append(h.created, i, req.timestamp))
  }

  function NoteReject(h: History, req: Request): History {
    h.(rejected := h.rejected + {req.timestamp})
  }

  function AcceptHistory(cfg: Config, h: History, i: nat, s: Server, f: Frame, now: nat): History
    requires i < cfg.n && i < |h.recorded|
  {
    if f.proposerId != i || f.proposalId !in s.proposals then h
    else
      var id := f.proposalId;
      var h1 := NoteAck(h, id, f.acceptorId);
      var p := s.proposals[id].(numAck := s.proposals[id].numAck + 1);
      if p.numAck > cfg.n / 2 && p.decisionTime == 0 then
        var h2 := NoteDecision(h1, id, now);
        if cfg.async then h2
        else NoteRecord(h2, i, p.(decisionTime := now, numDecisionAck := 1))
      else h1
  }

  function DecisionAckHistory(cfg: Config, h: History, i: nat, s: Server, f: Frame, now: nat): History
    requires i < cfg.n && i < |h.recorded| && i < |h.issued| && i < |h.rounds|
  {
    if !cfg.async || f.proposalId !in s.proposals then h
    else
      var id := f.proposalId;
      var h1 := NoteDecisionAck(h, id, f.proposerId);
      var p := s.proposals[id].(numDecisionAck := s.proposals[id].numDecisionAck + 1);
      if p.numDecisionAck > cfg.n / 2 && p.decisionAckTime == 0 then
        var h2 := NoteRecord(h1, i, p.(decisionAckTime := now));
        if now >= cfg.stop then h2 else NoteIssue(h2, i, s, now)
      else h1
  }

  function MessageHistory(cfg: Config, h: History, i: nat, s: Server, f: Frame, now: nat): History
    requires i < cfg.n && i < |h.recorded| && i < |h.issued| && i < |h.rounds|
  {
    if f.kind == PROPOSAL then h
    else if f.kind == ACCEPT then AcceptHistory(cfg, h, i, s, f, now)
    else if f.kind == DECISION then NoteRecord(h, i, DecidedRecord(f))
    else if f.kind == DECISION_ACK then DecisionAckHistory(cfg, h, i, s, f, now)
    else h
  }

  function EventHistory(cfg: Config, h: History, i: nat, s: Server, e: Event, now: nat): History
    requires i < cfg.n && i < |h.recorded| && i < |h.issued| && i < |h.rounds| && i < |h.created| && i < |h.cut|
  {
    match e
    case CreateProposal(req) => if |s.waiting| > QUEUE_LIMIT then NoteReject(h, req) else NoteCreate(h, i, req)
    case SendAccept(f) => h
    case AsyncPropose => if now >= cfg.stop then h else NoteIssue(h, i, s, now)
    case SyncPropose => if now >= cfg.stop then h else NoteRound(NoteIssue(h, i, s, now), i)
    case StopApplication => h.(cut := h.cut[i := |h.recorded[i]|])
  }

  // ---------- Steps ----------

  datatype Step =
    | Fire(uid: nat, value: nat)
    | Drop(uid: nat)
    | Advance(time: nat)

  /** Events run exactly when due; packets arrive at any time after they were sent. */
  ghost predicate Ready(cfg: Config, w: World, it: Item) {
    match it
    case RequestTo(dst, _, _) => dst < cfg.n
    case FrameTo(dst, _, _) => dst < cfg.n
    case Local(i, _, due) => i < cfg.n && due == w.now
    case ClientSend(due) => due == w.now
  }

  predicate Packet(it: Item) { it.RequestTo? || it.FrameTo? }

  /** Time never passes a scheduled event, nor, on a bounded network, a delivery deadline. */
  ghost predicate InTime(cfg: Config, now: nat, it: Item) {
    match it
    case Local(_, _, due) => now <= due
    case ClientSend(due) => now <= due
    case RequestTo(_, _, sentAt) => cfg.bounded ==> now <= sentAt + cfg.delay
    case FrameTo(_, _, sentAt) => cfg.bounded ==> now <= sentAt + cfg.delay
  }

  ghost predicate Enabled(cfg: Config, w: World, step: Step) {
    && Sized(cfg, w)
    && match step
       case Fire(u, _) => u in w.agenda && Ready(cfg, w, w.agenda[u])
       case Drop(u) => !cfg.lossless && u in w.agenda && Packet(w.agenda[u])
       case Advance(t) => w.now <= t && forall u :: u in w.agenda ==> InTime(cfg, t, w.agenda[u])
  }

  /** What the client puts on the agenda: one request and its own timer. */
  function ClientOutputs(cfg: Config, last: nat, now: nat, value: nat): seq<Item>
    requires cfg.n > 0
  {
    if now >= cfg.stop then []
    else [RequestTo(NextServer(last, cfg.n), Request(now, value), now), ClientSend(now + cfg.interval)]
  }

  function FireClient(cfg: Config, w: World, u: nat, value: nat): World
    requires cfg.n > 0
  {
    if w.now >= cfg.stop then w.(agenda := w.agenda - {u})
    else
      var dst := NextServer(w.lastServerId, cfg.n);
      var items := ClientOutputs(cfg, w.lastServerId, w.now, value);
      w.(agenda := Post(w.agenda - {u}, w.nextUid, items), nextUid := w.nextUid + |items|, lastServerId := dst,
      h := w.h.(requests := w.h.requests[w.now := RequestInfo(value, dst)]))
  }

  function RequestHistory(cfg: Config, h: History, i: nat, req: Request): History {
    if cfg.async && i != cfg.leader then NoteReject(h, req) else h
  }

  ghost function FireItem(cfg: Config, w: World, u: nat, value: nat): World
    requires Sized(cfg, w) && u in w.agenda && Ready(cfg, w, w.agenda[u]) && cfg.n > 0
  {
    match w.agenda[u]
    case RequestTo(i, req, _) =>
      Commit(w, u, i, ReceiveRequest(cfg, i, w.servers[i], req), RequestHistory(cfg, w.h, i, req))
    case FrameTo(i, f, _) =>
      Commit(w, u, i, ReceiveMessage(cfg, i, w.servers[i], f, w.now),
             MessageHistory(cfg, w.h, i, w.servers[i], f, w.now))
    case Local(i, e, _) =>
      Commit(w, u, i, HandleEvent(cfg, i, w.servers[i], e, w.now),
             EventHistory(cfg, w.h, i, w.servers[i], e, w.now))
    case ClientSend(_) => FireClient(cfg, w, u, value)
  }

  ghost function Apply(cfg: Config, w: World, step: Step): World
    requires cfg.n > 0 && Enabled(cfg, w, step)
  {
    match step
    case Fire(u, value) => FireItem(cfg, w, u, value)
    case Drop(u) => w.(agenda := w.agenda - {u})
    case Advance(t) => w.(now := t)
  }

  // ---------- Runs ----------

  const EMPTY_SERVER: Server := Server([], map[], map[], [], [])

  function Repeat<T>(n: nat, x: T): seq<T> { seq(n, _ => x) }

  const NO_HISTORY: History := History(map[], {}, [], [], map[], map[], map[], [], map[], [], [], [])

  function EmptyHistory(n: nat): History {
    NO_HISTORY.(created := Repeat(n, []), issued := Repeat(n, []), recorded := Repeat(n, []),
    cut := Repeat(n, 0), rounds := Repeat(n, 0))
  }

  function FirstProposals(cfg: Config): seq<Item> {
    if cfg.async then [Local(cfg.leader, AsyncPropose, cfg.start)]
    else seq(cfg.n, i requires 0 <= i < cfg.n => Local(i, SyncPropose, cfg.TurnStart(i, 0)))
  }

  function Stops(cfg: Config): seq<Item> {
    seq(cfg.n, i requires 0 <= i < cfg.n => Local(i, StopApplication, cfg.stop))
  }

  function InitialItems(cfg: Config): seq<Item> {
    [ClientSend(cfg.start)] + FirstProposals(cfg) + Stops(cfg)
  }

  /** Every server starts at `start`, a synchronous one by its own clock: it arms its first slot;
      the asynchronous leader proposes at once; each will be stopped at `stop`, and the client sends at once.
      The client's last-server field starts with any 32-bit value. */
  function InitialWorld(cfg: Config, lastServerId: nat): World {
    var items := InitialItems(cfg);
    World(cfg.start, Repeat(cfg.n, EMPTY_SERVER), Post(map[], 0, items), |items|, lastServerId, EmptyHistory(cfg.n))
  }

  ghost predicate Legal(cfg: Config, w: World, steps: seq<Step>)
    requires cfg.n > 0
    decreases |steps|
  {
    steps == [] || (Enabled(cfg, w, steps[0]) && Legal(cfg, Apply(cfg, w, steps[0]), steps[1..]))
  }

  ghost function Exec(cfg: Config, w: World, steps: seq<Step>): World
    requires cfg.n > 0 && Legal(cfg, w, steps)
    decreases |steps|
  {
    if steps == [] then w else Exec(cfg, Apply(cfg, w, steps[0]), steps[1..])
  }

  /** Some run from an initial world ends here. */
  ghost predicate Reachable(cfg: Config, w: World)
    requires cfg.n > 0
  {
    exists last: nat, steps: seq<Step> ::
      last < WIDTH && Legal(cfg, InitialWorld(cfg, last), steps) && w == Exec(cfg, InitialWorld(cfg, last), steps)
  }

  /** A reachable world, with as many servers as its configuration says (module Runs proves that
      every reachable world has). */
  ghost predicate Reached(cfg: Config, w: World) {
    cfg.Valid() && Sized(cfg, w) && Reachable(cfg, w)
  }
}
