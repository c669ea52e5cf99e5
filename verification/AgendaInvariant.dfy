/** What every packet and every scheduled event on the agenda carries, and that no two of them
    are the same hop of the same exchange. */
module AgendaInvariant {
  import opened PaxosData
  import opened Cluster
  import opened Snapshots
  import opened Invariant

  // ---------- Provenance ----------

  ghost predicate FromBallot(h: History, f: Frame) {
    SameBallot(h, f.proposalId, f.proposerId, f.value, f.proposeTime)
  }

  ghost predicate HasAccepted(s: Snapshot, a: nat, id: nat) {
    a < |s.servers| && id in s.servers[a].accepted
  }

  /** The latest an acceptor answers a proposal when every delivery meets the bound. */
  function AnswerBy(cfg: Config, f: Frame): nat { f.proposeTime + cfg.delay + HANDLING_DELAY }

  /** No acceptor has stamped the frame yet, and no decision. */
  ghost predicate Unstamped(f: Frame) { f.acceptorId == 0 && f.acceptTime == 0 && f.decisionTime == 0 }

  /** Whatever an acceptor stamped on a frame, it stamped in the past. */
  ghost predicate Stamps(cfg: Config, s: Snapshot, f: Frame) {
    f.acceptorId < cfg.n && f.acceptTime <= s.now && f.decisionTime <= s.now
  }

  ghost predicate FrameOk(cfg: Config, s: Snapshot, dst: nat, f: Frame, sentAt: nat) {
    if f.kind == PROPOSAL then
      FromBallot(s.h, f) && dst != f.proposerId && sentAt == f.proposeTime && Unstamped(f)
    else if f.kind == ACCEPT then
      && FromBallot(s.h, f) && dst == f.proposerId && HasAccepted(s, f.acceptorId, f.proposalId)
      && f.acceptTime == sentAt && f.decisionTime == 0
      && (cfg.bounded ==> sentAt <= AnswerBy(cfg, f))
    else if f.kind == DECISION then
      && FromBallot(s.h, f) && dst != f.proposerId && sentAt == f.decisionTime
      && f.proposalId in s.h.decisions && s.h.decisions[f.proposalId] == f.decisionTime
    else
      && f.kind == DECISION_ACK && cfg.async && Unstamped(f)
      && f.proposalId in s.h.ballots && dst == s.h.ballots[f.proposalId].proposer
      && f.value == s.h.ballots[f.proposalId].value && f.proposeTime == s.h.ballots[f.proposalId].proposeTime
      && f.proposalId in s.h.decisions && (cfg.bounded ==> sentAt <= s.h.decisions[f.proposalId] + cfg.delay)
  }

  ghost predicate EventOk(cfg: Config, s: Snapshot, i: nat, e: Event, due: nat) {
    match e
    case CreateProposal(req) =>
      && req.timestamp in s.h.requests && s.h.requests[req.timestamp] == RequestInfo(req.value, i)
      && (cfg.async ==> i == cfg.leader)
      && (cfg.bounded ==> due <= req.timestamp + cfg.delay + HANDLING_DELAY)
    case SendAccept(f) =>
      && FromBallot(s.h, f) && i != f.proposerId && HasAccepted(s, i, f.proposalId) && Stamps(cfg, s, f)
      && f.kind == PROPOSAL && f.acceptorId == i && f.acceptTime + 10 == due && f.decisionTime == 0
      && (cfg.bounded ==> due <= AnswerBy(cfg, f))
    case AsyncPropose => cfg.async && i == cfg.leader
    case SyncPropose =>
      !cfg.async && i < |s.h.rounds| && due == cfg.TurnStart(i, s.h.rounds[i])
    case StopApplication => due == cfg.stop
  }

  ghost predicate ItemOk(cfg: Config, s: Snapshot, it: Item) {
    match it
    case RequestTo(dst, req, sentAt) =>
      && dst < cfg.n && sentAt == req.timestamp
      && req.timestamp in s.h.requests && s.h.requests[req.timestamp] == RequestInfo(req.value, dst)
    case FrameTo(dst, f, sentAt) => dst < cfg.n && FrameOk(cfg, s, dst, f, sentAt) && Stamps(cfg, s, f)
    case Local(i, e, due) => i < cfg.n && EventOk(cfg, s, i, e, due)
    case ClientSend(due) => forall ts :: ts in s.h.requests ==> ts < due
  }

  ghost predicate ItemsOk(cfg: Config, s: Snapshot, agenda: map<nat, Item>, next: nat) {
    forall u :: u in agenda ==> u < next && ItemOk(cfg, s, agenda[u]) && InTime(cfg, s.now, agenda[u])
  }

  ghost predicate OneToken(agenda: map<nat, Item>) {
    forall u, v :: u in agenda && v in agenda && u != v ==> TokenOf(agenda[u]) != TokenOf(agenda[v])
  }

  /** On a bounded network every decision is taken two deliveries after the broadcast. */
  ghost predicate DecidedInTime(cfg: Config, h: History) {
    cfg.bounded ==> forall id :: id in h.decisions ==>
      id in h.ballots && h.decisions[id] <= h.ballots[id].proposeTime + 2 * cfg.delay + HANDLING_DELAY
  }

  ghost predicate WorldInv(cfg: Config, w: World) {
    && Inv(cfg, View(w))
    && ItemsOk(cfg, View(w), w.agenda, w.nextUid)
    && OneToken(w.agenda)
    && DecidedInTime(cfg, w.h)
  }

  // ---------- What later states remember ----------

  ghost predicate Remembers(s: Snapshot, s': Snapshot) {
    && s.now <= s'.now
    && (forall x :: x in s.h.requests ==> x in s'.h.requests && s'.h.requests[x] == s.h.requests[x])
    && (forall x :: x in s.h.ballots ==> x in s'.h.ballots && s'.h.ballots[x] == s.h.ballots[x])
    && (forall x :: x in s.h.ballots && x in s.h.acks ==> x in s'.h.acks)
    && (forall x :: x in s.h.ballots && x in s.h.dacks ==> x in s'.h.dacks)
    && (forall x :: x in s.h.decisions ==> x in s'.h.decisions && s'.h.decisions[x] == s.h.decisions[x])
    && |s.servers| <= |s'.servers|
    && (forall a :: 0 <= a < |s.servers| ==> s.servers[a].accepted.Keys <= s'.servers[a].accepted.Keys)
  }

  /** A synchronous timer depends on its server's round count, the client's on the requests. */
  ghost predicate ClockKept(s: Snapshot, s': Snapshot, it: Item) {
    match it
    case Local(i, SyncPropose, _) => i < |s.h.rounds| ==> i < |s'.h.rounds| && s'.h.rounds[i] == s.h.rounds[i]
    case ClientSend(_) => s'.h.requests == s.h.requests
    case _ => true
  }

  lemma ItemKept(cfg: Config, s: Snapshot, s': Snapshot, it: Item)
    requires ItemOk(cfg, s, it) && Remembers(s, s') && ClockKept(s, s', it)
    ensures ItemOk(cfg, s', it)
  {
  }

  // ---------- Removing and posting ----------

  ghost predicate FreshTokens(agenda: map<nat, Item>, u: nat, items: seq<Item>)
    requires u in agenda
  {
    && (forall j, k :: 0 <= j < k < |items| ==> TokenOf(items[j]) != TokenOf(items[k]))
    && (forall k :: 0 <= k < |items| ==>
          TokenOf(items[k]) == TokenOf(agenda[u]) || TokenOf(items[k]) !in TokensOf(agenda))
  }

  ghost function TokensOfSeq(items: seq<Item>): set<Token> {
    set k | 0 <= k < |items| :: TokenOf(items[k])
  }

  lemma RemoveTokens(agenda: map<nat, Item>, u: nat)
    requires OneToken(agenda) && u in agenda
    ensures OneToken(agenda - {u}) && TokensOf(agenda - {u}) == TokensOf(agenda) - {TokenOf(agenda[u])}
  {
    var rest := agenda - {u};
    forall t ensures t in TokensOf(rest) <==> t in TokensOf(agenda) - {TokenOf(agenda[u])} {
      if t in TokensOf(agenda) && t != TokenOf(agenda[u]) {
        var v :| v in agenda && TokenOf(agenda[v]) == t;
        assert v in rest && rest[v] == agenda[v];
      }
      if t in TokensOf(rest) {
        var v :| v in rest && TokenOf(rest[v]) == t;
        assert v in agenda && v != u && rest[v] == agenda[v];
      }
    }
  }

  lemma PostedItem(agenda: map<nat, Item>, next: nat, items: seq<Item>, v: nat)
    requires v in Post(agenda, next, items)
    ensures next <= v < next + |items| ==> Post(agenda, next, items)[v] == items[v - next]
    ensures !(next <= v < next + |items|) ==> v in agenda && Post(agenda, next, items)[v] == agenda[v]
  {
  }

  lemma PostTokens(agenda: map<nat, Item>, next: nat, items: seq<Item>)
    requires OneToken(agenda) && forall v :: v in agenda ==> v < next
    requires forall j, k :: 0 <= j < k < |items| ==> TokenOf(items[j]) != TokenOf(items[k])
    requires forall k :: 0 <= k < |items| ==> TokenOf(items[k]) !in TokensOf(agenda)
    ensures OneToken(Post(agenda, next, items))
    ensures TokensOf(Post(agenda, next, items)) == TokensOf(agenda) + TokensOfSeq(items)
  {
    PostTokenSet(agenda, next, items);
    var all := Post(agenda, next, items);
    forall v, x | v in all && x in all && v < x ensures TokenOf(all[v]) != TokenOf(all[x]) {
      PostedItem(agenda, next, items, v);
      PostedItem(agenda, next, items, x);
      if v < next <= x { assert TokenOf(agenda[v]) in TokensOf(agenda); }
    }
  }

  lemma PostTokenSet(agenda: map<nat, Item>, next: nat, items: seq<Item>)
    requires forall v :: v in agenda ==> v < next
    ensures TokensOf(Post(agenda, next, items)) == TokensOf(agenda) + TokensOfSeq(items)
  {
    var all := Post(agenda, next, items);
    forall t ensures t in TokensOf(all) <==> t in TokensOf(agenda) + TokensOfSeq(items) {
      if t in TokensOf(agenda) {
        var v :| v in agenda && TokenOf(agenda[v]) == t;
        assert v in all && all[v] == agenda[v];
      }
      if t in TokensOfSeq(items) {
        var k :| 0 <= k < |items| && TokenOf(items[k]) == t;
        assert next + k in all && Numbered(items, next, next + k) == items[k] == all[next + k];
      }
      if t in TokensOf(all) {
        var v :| v in all && TokenOf(all[v]) == t;
        PostedItem(agenda, next, items, v);
      }
    }
  }

  /** Handling one item: the rest of the agenda keeps its provenance, the new items bring theirs. */
  lemma CommitItems(cfg: Config, s: Snapshot, s': Snapshot, agenda: map<nat, Item>, next: nat, u: nat, items: seq<Item>)
    requires ItemsOk(cfg, s, agenda, next) && u in agenda && Remembers(s, s') && s'.now == s.now
    requires forall v :: v in agenda && v != u ==> ClockKept(s, s', agenda[v])
    requires forall k :: 0 <= k < |items| ==> ItemOk(cfg, s', items[k]) && InTime(cfg, s'.now, items[k])
    ensures ItemsOk(cfg, s', Post(agenda - {u}, next, items), next + |items|)
  {
    var rest := agenda - {u};
    var all := Post(rest, next, items);
    forall v | v in all ensures v < next + |items| && ItemOk(cfg, s', all[v]) && InTime(cfg, s'.now, all[v]) {
      PostedItem(rest, next, items, v);
      if v in rest && !(next <= v < next + |items|) { ItemKept(cfg, s, s', agenda[v]); }
    }
  }

  lemma CommitTokens(agenda: map<nat, Item>, next: nat, u: nat, items: seq<Item>)
    requires OneToken(agenda) && u in agenda && (forall v :: v in agenda ==> v < next) && FreshTokens(agenda, u, items)
    ensures OneToken(Post(agenda - {u}, next, items))
    ensures TokensOf(Post(agenda - {u}, next, items)) == TokensOf(agenda) - {TokenOf(agenda[u])} + TokensOfSeq(items)
  {
    RemoveTokens(agenda, u);
    PostTokens(agenda - {u}, next, items);
  }
}
