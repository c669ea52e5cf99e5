/** One Paxos server as the object it is: its queue, maps and heap hold proposal objects that the
    handlers change in place. Every handler is proved to do to the contents exactly what module
    Handlers says. */
module PaxosServer {
  import opened PaxosData
  import opened DecisionLog
  import opened Handlers
  import opened ProposalObject

  ghost function Views(ps: seq<Proposal>): (rs: seq<Record>)
    reads ps
    ensures |rs| == |ps| && forall k :: 0 <= k < |ps| ==> rs[k] == ps[k].View()
  {
    seq(|ps|, k requires 0 <= k < |ps| reads ps => ps[k].View())
  }

  ghost function ViewOf(ps: map<nat, Proposal>): (rs: map<nat, Record>)
    reads ps.Values
    ensures rs.Keys == ps.Keys && forall id :: id in ps ==> rs[id] == ps[id].View()
  {
    map id | id in ps :: ps[id].View()
  }

  /** Contents depend on the objects alone. */
  twostate lemma ViewsSame(ps: seq<Proposal>)
    requires forall k :: 0 <= k < |ps| ==> allocated(ps[k]) && unchanged(ps[k])
    ensures Views(ps) == old(Views(ps))
  {
  }

  twostate lemma ViewOfSame(ps: map<nat, Proposal>)
    requires forall id :: id in ps ==> allocated(ps[id]) && unchanged(ps[id])
    ensures ViewOf(ps) == old(ViewOf(ps))
  {
  }

  lemma ViewsTail(ps: seq<Proposal>)
    requires ps != []
    ensures Views(ps[1..]) == Views(ps)[1..]
  {
  }

  lemma ViewsMore(ps: seq<Proposal>, p: Proposal)
    ensures Views(ps + [p]) == Views(ps) + [p.View()]
  {
  }

  lemma ViewOfMore(ps: map<nat, Proposal>, id: nat, p: Proposal)
    ensures ViewOf(ps[id := p]) == ViewOf(ps)[id := p.View()]
  {
  }

  lemma ViewOfLess(ps: map<nat, Proposal>, id: nat)
    ensures ViewOf(ps - {id}) == ViewOf(ps) - {id}
  {
  }

  lemma HeadViews(waiting: seq<Proposal>, proposals: map<nat, Proposal>, id: nat)
    requires waiting != []
    ensures Views(waiting[1..]) == Views(waiting)[1..]
    ensures ViewOf(proposals[id := waiting[0]]) == ViewOf(proposals)[id := Views(waiting)[0]]
    ensures Views(waiting)[0].id == waiting[0].proposalId
  {
    ViewsTail(waiting);
    ViewOfMore(proposals, id, waiting[0]);
  }

  lemma CloseViews(proposals: map<nat, Proposal>, decided: seq<Proposal>, id: nat)
    requires id in proposals
    ensures ViewOf(proposals - {id}) == ViewOf(proposals) - {id}
    ensures Views(decided + [proposals[id]]) == Views(decided) + [ViewOf(proposals)[id]]
  {
    ViewOfLess(proposals, id);
    ViewsMore(decided, proposals[id]);
  }

  predicate KnownKind(f: Frame) {
    f.kind == PROPOSAL || f.kind == ACCEPT || f.kind == DECISION || f.kind == DECISION_ACK
  }

  /** What a server is called for. */
  datatype Call = OnEvent(event: Event, now: nat) | OnFrame(frame: Frame, now: nat)

  /** The effect of several packets handled in order. */
  function ReceiveAll(cfg: Config, i: nat, s: Server, packets: seq<Frame>, now: nat): Effect
    requires i < cfg.n
    decreases |packets|
  {
    if packets == [] then Effect(s, [])
    else
      var e := ReceiveMessage(cfg, i, s, packets[0], now);
      var rest := ReceiveAll(cfg, i, e.server, packets[1..], now);
      Effect(rest.server, e.outputs + rest.outputs)
  }

  /** No packet is passed over: whatever came before, one more at the end is handled last, on what the
      others have left, and its outputs come last. */
  lemma {:induction false} ReceiveLast(cfg: Config, i: nat, s: Server, packets: seq<Frame>, f: Frame, now: nat)
    requires i < cfg.n
    ensures ReceiveAll(cfg, i, s, [], now) == Effect(s, [])
    ensures var before := ReceiveAll(cfg, i, s, packets, now);
      var last := ReceiveMessage(cfg, i, before.server, f, now);
      ReceiveAll(cfg, i, s, packets + [f], now) == Effect(last.server, before.outputs + last.outputs)
    decreases |packets|
  {
    hide ReceiveMessage;
    if packets != [] {
      assert (packets + [f])[1..] == packets[1..] + [f];
      ReceiveLast(cfg, i, ReceiveMessage(cfg, i, s, packets[0], now).server, packets[1..], f, now);
    } else {
      assert ReceiveAll(cfg, i, ReceiveMessage(cfg, i, s, f, now).server, [], now).outputs == [];
      assert (packets + [f])[1..] == [];
    }
  }

  lemma ReceiveFirst(cfg: Config, i: nat, s: Server, packets: seq<Frame>, next: nat, now: nat)
    requires i < cfg.n && next < |packets|
    ensures var e := ReceiveMessage(cfg, i, s, packets[next], now);
      var all := ReceiveAll(cfg, i, s, packets[next..], now);
      var rest := ReceiveAll(cfg, i, e.server, packets[next + 1..], now);
      all.server == rest.server && all.outputs == e.outputs + rest.outputs
  {
    assert packets[next..][1..] == packets[next + 1..];
  }

  /** No proposal that a handler may still change, waiting or in flight, is held twice. In
      particular none is on the heap: with the `modifies` clauses below, which name open proposals
      only, nothing that was pushed on the heap is ever changed. */
  ghost predicate Separate(waiting: seq<Proposal>, proposals: map<nat, Proposal>, accepted: map<nat, Proposal>,
                           decided: seq<Proposal>)
  {
    && (forall j, k :: 0 <= j < k < |waiting| ==> waiting[j] != waiting[k])
    && (forall x, y :: x in proposals && y in proposals && x != y ==> proposals[x] != proposals[y])
    && (forall k, x :: 0 <= k < |waiting| && x in proposals ==> waiting[k] != proposals[x])
    && (forall k :: 0 <= k < |waiting| ==> waiting[k] !in decided && waiting[k] !in accepted.Values)
    && (forall x :: x in proposals ==> proposals[x] !in decided && proposals[x] !in accepted.Values)
  }

  lemma JoinsWaiting(waiting: seq<Proposal>, proposals: map<nat, Proposal>, accepted: map<nat, Proposal>,
                     decided: seq<Proposal>, p: Proposal)
    requires Separate(waiting, proposals, accepted, decided)
    requires p !in waiting && p !in proposals.Values && p !in accepted.Values && p !in decided
    ensures Separate(waiting + [p], proposals, accepted, decided)
  {
  }

  lemma JoinsAccepted(waiting: seq<Proposal>, proposals: map<nat, Proposal>, accepted: map<nat, Proposal>,
                      decided: seq<Proposal>, p: Proposal, id: nat)
    requires Separate(waiting, proposals, accepted, decided)
    requires p !in waiting && p !in proposals.Values && p !in accepted.Values && p !in decided
    ensures Separate(waiting, proposals, accepted[id := p], decided)
  {
  }

  lemma JoinsDecided(waiting: seq<Proposal>, proposals: map<nat, Proposal>, accepted: map<nat, Proposal>,
                     decided: seq<Proposal>, p: Proposal)
    requires Separate(waiting, proposals, accepted, decided)
    requires p !in waiting && p !in proposals.Values && p !in accepted.Values && p !in decided
    ensures Separate(waiting, proposals, accepted, decided + [p])
  {
  }

  ghost function OpenSet(waiting: seq<Proposal>, proposals: map<nat, Proposal>): set<Proposal> {
    (set p | p in waiting) + proposals.Values
  }

  lemma HeadMoves(waiting: seq<Proposal>, proposals: map<nat, Proposal>, accepted: map<nat, Proposal>,
                  decided: seq<Proposal>, id: nat)
    requires waiting != [] && Separate(waiting, proposals, accepted, decided)
    ensures Separate(waiting[1..], proposals[id := waiting[0]], accepted, decided)
    ensures OpenSet(waiting[1..], proposals[id := waiting[0]]) <= OpenSet(waiting, proposals)
  {
  }

  lemma FlightCloses(waiting: seq<Proposal>, proposals: map<nat, Proposal>, accepted: map<nat, Proposal>,
                     decided: seq<Proposal>, id: nat)
    requires id in proposals && Separate(waiting, proposals, accepted, decided)
    ensures Separate(waiting, proposals - {id}, accepted, decided + [proposals[id]])
    ensures OpenSet(waiting, proposals - {id}) <= OpenSet(waiting, proposals)
  {
  }

  /** What is on the heap is not open. */
  lemma NotOpen(waiting: seq<Proposal>, proposals: map<nat, Proposal>, accepted: map<nat, Proposal>,
                decided: seq<Proposal>, p: Proposal)
    requires p in decided && Separate(waiting, proposals, accepted, decided)
    ensures p !in OpenSet(waiting, proposals)
  {
  }

  lemma HeadApart(waiting: seq<Proposal>, proposals: map<nat, Proposal>, accepted: map<nat, Proposal>,
                  decided: seq<Proposal>, id: nat)
    requires id in proposals && waiting != [] && Separate(waiting, proposals, accepted, decided)
    ensures waiting[0] != proposals[id]
  {
  }

  lemma FewerDecided(waiting: seq<Proposal>, proposals: map<nat, Proposal>, accepted: map<nat, Proposal>,
                     decided: seq<Proposal>, k: nat)
    requires k < |decided| && Separate(waiting, proposals, accepted, decided)
    ensures Separate(waiting, proposals, accepted, RemoveAt(decided, k))
  {
  }

  /** What counting an ACCEPT comes to, in the two steps in which the object takes it. */
  ghost function Counted(cfg: Config, v: Server, id: nat, now: nat, enough: bool): Server
    requires id in v.proposals
  {
    var p := v.proposals[id].(numAck := v.proposals[id].numAck + 1);
    var d := p.(decisionTime := now, numDecisionAck := 1);
    if !enough then v.(proposals := v.proposals[id := p])
    else if cfg.async then v.(proposals := v.proposals[id := p][id := d])
    else v.(proposals := v.proposals[id := p][id := d] - {id}, decided := v.decided + [d])
  }

  lemma AcceptMatches(cfg: Config, i: nat, v: Server, f: Frame, now: nat, enough: bool)
    requires i < cfg.n && f.proposerId == i && f.proposalId in v.proposals
    requires var p := v.proposals[f.proposalId]; enough == (p.numAck + 1 > cfg.n / 2 && p.decisionTime == 0)
    ensures ReceivedAccept(cfg, i, v, f, now) ==
            Effect(Counted(cfg, v, f.proposalId, now, enough),
                   if enough then Broadcast(cfg.n, i, DecisionFrame(f, now)) else [])
  {
  }

  /** What counting a DECISION_ACK comes to. */
  ghost function Settled(cfg: Config, i: nat, v: Server, id: nat, now: nat, enough: bool): Effect
    requires id in v.proposals && i < cfg.n
  {
    var p := v.proposals[id].(numDecisionAck := v.proposals[id].numDecisionAck + 1);
    var d := p.(decisionAckTime := now);
    if !enough then Effect(v.(proposals := v.proposals[id := p]), [])
    else DoAsyncPropose(cfg, i, v.(proposals := v.proposals[id := p][id := d] - {id}, decided := v.decided + [d]), now)
  }

  lemma AckMatches(cfg: Config, i: nat, v: Server, f: Frame, now: nat, enough: bool)
    requires i < cfg.n && cfg.async && f.proposalId in v.proposals
    requires var p := v.proposals[f.proposalId]; enough == (p.numDecisionAck + 1 > cfg.n / 2 && p.decisionAckTime == 0)
    ensures ReceivedDecisionAck(cfg, i, v, f, now) == Settled(cfg, i, v, f.proposalId, now, enough)
  {
  }

  /** One more row of the drained heap. */
  lemma DrainStep(rs: seq<Record>, all: seq<Record>, i: nat)
    requires i < |all| && all[i..] == Drain(rs)
    ensures rs != [] && all[i] == rs[MinIndex(rs)] && all[i + 1..] == Drain(RemoveAt(rs, MinIndex(rs)))
    ensures Rows(all[..i + 1]) == Rows(all[..i]) + [RowOf(i, all[i])]
  {
    assert all[i] == all[i..][0] && all[i + 1..] == all[i..][1..];
  }

  /** The log `rows` has one row for every record of the heap `rs`, in the order `d`, which is that of
      the ids, numbered from 0. */
  ghost predicate ListsHeap(rows: seq<Row>, d: seq<Record>, rs: seq<Record>) {
    && |rows| == |d| && multiset(d) == multiset(rs) && (forall j, k :: 0 <= j < k < |d| ==> d[j].id <= d[k].id)
    && forall k :: 0 <= k < |d| ==> rows[k] == Row(k, d[k].id, d[k].nodeId, d[k].value, d[k].decisionTime)
  }

  lemma DrainListsHeap(rs: seq<Record>)
    ensures ListsHeap(Rows(Drain(rs)), Drain(rs), rs)
  {
    DrainPermutes(rs);
    DrainSorted(rs);
  }

  /** What a proposal object prints at this place of the log. */
  ghost predicate Prints(row: Row, k: nat, p: Proposal)
    reads p
  {
    row == Row(k, p.proposalId, p.nodeId, p.value, p.decisionTime)
  }

  lemma RowPrinted(heap: seq<Proposal>, rows: seq<Row>, d: seq<Record>, k: nat) returns (p: Proposal)
    requires ListsHeap(rows, d, Views(heap)) && k < |rows|
    ensures p in heap && Prints(rows[k], k, p)
  {
    assert d[k] in multiset(d);
    assert d[k] in Views(heap);
    var j :| 0 <= j < |heap| && Views(heap)[j] == d[k];
    p := heap[j];
  }

  class PaxosAppServer {
    const cfg: Config
    const nodeId: nat
    var waiting: seq<Proposal>
    var proposals: map<nat, Proposal>
    var accepted: map<nat, Proposal>
    var decided: seq<Proposal>
    var log: seq<Row>
    var proposePeriod: nat

    /** The proposals a handler may still change. */
    ghost function Open(): set<Proposal>
      reads this`waiting, this`proposals
    {
      OpenSet(waiting, proposals)
    }

    ghost predicate Valid()
      reads this`waiting, this`proposals, this`accepted, this`decided
    {
      nodeId < cfg.n && Separate(waiting, proposals, accepted, decided)
    }

    ghost function View(): (v: Server)
      reads this`waiting, this`proposals, this`accepted, this`decided, this`log
      reads waiting, proposals.Values, accepted.Values, decided
      ensures |v.waiting| == |waiting| && |v.decided| == |decided| && v.proposals.Keys == proposals.Keys
    {
      Server(Views(waiting), ViewOf(proposals), ViewOf(accepted), Views(decided), log)
    }

    /** A proposal that is nowhere in this server, such as a new one. */
    ghost predicate Unheld(p: Proposal)
      reads this`waiting, this`proposals, this`accepted, this`decided
    {
      p !in waiting && p !in proposals.Values && p !in accepted.Values && p !in decided
    }

    constructor (cfg: Config, selfId: nat)
      requires selfId < cfg.n
      ensures Valid() && this.cfg == cfg && nodeId == selfId
      ensures View() == Server([], map[], map[], [], [])
    {
      this.cfg, nodeId := cfg, selfId;
      waiting, proposals, accepted, decided, log := [], map[], map[], [], [];
      proposePeriod := 0;
    }

    /** One copy of this frame to every other node, in node order, and nothing else. */
    ghost predicate SentToOthers(outs: seq<Output>, f: Frame) {
      |outs| + 1 == cfg.n && forall k :: 0 <= k < |outs| ==> outs[k] == Send(if k < nodeId then k else k + 1, f)
    }

    // ---------- Network ----------

    /** One copy to every node but this one. */
    method SendToOthers(f: Frame) returns (outs: seq<Output>)
      requires nodeId < cfg.n
      ensures outs == Broadcast(cfg.n, nodeId, f)
      ensures |outs| == cfg.n - 1
      ensures forall k :: 0 <= k < cfg.n - 1 ==> outs[k] == Send(if k < nodeId then k else k + 1, f)
    {
      outs := [];
      var node := 0;
      ghost var all := Broadcast(cfg.n, nodeId, f);
      while node < cfg.n
        invariant 0 <= node <= cfg.n
        invariant var sent := if node <= nodeId then node else node - 1; sent <= |all| && outs == all[..sent]
      {
        if node != nodeId {
          outs := outs + [Send(node, f)];
          assert all[if node < nodeId then node else node - 1] == Send(node, f);
        }
        node := node + 1;
      }
    }

    method SendDecisionMessage(f: Frame, now: nat) returns (outs: seq<Output>)
      requires nodeId < cfg.n
      ensures outs == Broadcast(cfg.n, nodeId, DecisionFrame(f, now))
      ensures SentToOthers(outs, f.(kind := 102, decisionTime := now))
    {
      outs := SendToOthers(f.(kind := DECISION, decisionTime := now));
    }

    // ---------- Listener ----------

    /** One creation is scheduled for every packet, unless this server takes no requests. */
    method ReceiveRequest(packets: seq<Request>) returns (outs: seq<Output>)
      ensures cfg.async && nodeId != cfg.leader ==> outs == []
      ensures !(cfg.async && nodeId != cfg.leader) ==>
                && |outs| == |packets|
                && forall k :: 0 <= k < |packets| ==> outs[k] == Schedule(10, CreateProposal(packets[k]))
      ensures |packets| == 1 ==> forall s :: Handlers.ReceiveRequest(cfg, nodeId, s, packets[0]) == Effect(s, outs)
    {
      outs := [];
      var next := 0;
      while next < |packets|
        invariant 0 <= next <= |packets|
        invariant |outs| == if cfg.async && nodeId != cfg.leader then 0 else next
        invariant forall k :: 0 <= k < |outs| ==> outs[k] == Schedule(10, CreateProposal(packets[k]))
      {
        if !(cfg.async && nodeId != cfg.leader) {
          outs := outs + [Schedule(HANDLING_DELAY, CreateProposal(packets[next]))];
        }
        next := next + 1;
      }
    }

    method Enqueue(p: Proposal)
      requires Valid() && Unheld(p)
      modifies this`waiting
      ensures Valid() && Open() == old(Open()) + {p} && waiting == old(waiting) + [p]
      ensures View() == old(View()).(waiting := old(View()).waiting + [p.View()])
    {
      hide Separate, Views, ViewOf;
      ghost var v := View();
      JoinsWaiting(waiting, proposals, accepted, decided, p);
      ViewsMore(waiting, p);
      waiting := waiting + [p];
      ViewOfSame(proposals);
      ViewOfSame(accepted);
      ViewsSame(decided);
      assert ViewOf(proposals) == v.proposals && ViewOf(accepted) == v.accepted && Views(decided) == v.decided;
    }

    /** A request that finds more than 1000 waiting is dropped; otherwise it joins the end as a new
        proposal, to be proposed. */
    method CreateProposalFromRequest(req: Request, now: nat)
      requires Valid()
      modifies this`waiting
      ensures old(|waiting|) > 1000 ==> waiting == old(waiting)
      ensures old(|waiting|) <= 1000 ==>
                && |waiting| == old(|waiting|) + 1 && waiting[..old(|waiting|)] == old(waiting)
                && fresh(waiting[old(|waiting|)])
                && waiting[old(|waiting|)].View() == Record(req.timestamp, nodeId, nodeId, req.value, req.timestamp,
                                                            now, 0, 0, 0, 0, 0, 0, ToBeProposed)
      ensures Valid() && View() == CreateFromRequest(nodeId, old(View()), req, now).server
      ensures fresh(Open() - old(Open()))
    {
      hide View, Separate;
      if |waiting| > QUEUE_LIMIT { return; }
      var p := FromRequest(nodeId, req, now);
      Enqueue(p);
    }

    // ---------- Proposer ----------

    /** The head of the waiting queue is changed in place; nothing else is. */
    method MarkHead(now: nat)
      requires Valid() && waiting != []
      modifies waiting[0]
      ensures waiting[0].View() == old(waiting[0].View()).(nodeId := nodeId, proposeTime := now, numAck := 1,
                                                           numDecisionAck := 1, state := ToBeAccepted)
      ensures View() == old(View()).(waiting := old(View()).waiting[0 := Proposed(nodeId, old(View()).waiting[0], now)])
    {
      hide Views, ViewOf, OpenSet;
      MarkProposed(waiting[0], nodeId, now);
      assert Views(waiting) == old(Views(waiting))[0 := waiting[0].View()];
      assert ViewOf(proposals) == old(ViewOf(proposals));
    }

    /** The head of the waiting queue becomes in flight. */
    method MoveHead() returns (id: nat)
      requires Valid() && waiting != []
      modifies this`waiting, this`proposals
      ensures Valid() && Open() <= old(Open())
      ensures id == old(waiting)[0].proposalId && waiting == old(waiting)[1..]
      ensures proposals == old(proposals)[id := old(waiting)[0]]
      ensures var v := old(View());
        id == v.waiting[0].id && View() == v.(waiting := v.waiting[1..], proposals := v.proposals[id := v.waiting[0]])
    {
      hide Separate, Views, ViewOf, OpenSet;
      ghost var v := View();
      var p := waiting[0];
      id := p.proposalId;
      HeadMoves(waiting, proposals, accepted, decided, id);
      HeadViews(waiting, proposals, id);
      proposals, waiting := proposals[id := p], waiting[1..];
      ViewOfSame(accepted);
      ViewsSame(decided);
      assert ViewOf(accepted) == v.accepted && Views(decided) == v.decided;
    }

    /** The first of the queue `q`, which is `p` and had these contents, is in flight, changed in place,
        and every other node has been sent a PROPOSAL of it. */
    ghost predicate Proposes(p: Proposal, q: seq<Proposal>, flight: map<nat, Proposal>, was: Record,
                             outs: seq<Output>, now: nat)
      requires q != []
      reads this`waiting, this`proposals, p
    {
      && p == q[0] && waiting == q[1..] && proposals == flight[was.id := p]
      && p.View() == was.(nodeId := nodeId, proposeTime := now, numAck := 1, numDecisionAck := 1, state := ToBeAccepted)
      && SentToOthers(outs, Frame(100, nodeId, was.id, was.value, now, 0, 0, 0))
    }

    /** The contents of the first waiting proposal, if there is one. */
    ghost function HeadView(): Record
      reads this`waiting, if waiting == [] then {} else {waiting[0]}
    {
      if waiting == [] then BLANK else waiting[0].View()
    }

    /** A turn of the leader whose queue was `q`: a proposal if one waits, and otherwise another look
        after 1000 ns; nothing once stopped. */
    ghost predicate LooksForWork(q: seq<Proposal>, flight: map<nat, Proposal>, was: Record, outs: seq<Output>, now: nat)
      reads this`waiting, this`proposals, if q == [] then {} else {q[0]}
    {
      if now >= cfg.stop then outs == [] && waiting == q && proposals == flight
      else if q == [] then outs == [Schedule(1000, AsyncPropose)] && waiting == q && proposals == flight
      else Proposes(q[0], q, flight, was, outs, now)
    }

    method DoPropose(now: nat) returns (id: nat, outs: seq<Output>)
      requires Valid()
      modifies this`waiting, this`proposals, Open()
      ensures old(waiting) == [] ==> outs == [] && waiting == [] && proposals == old(proposals)
      ensures old(waiting) != [] ==>
                Proposes(old(waiting)[0], old(waiting), old(proposals), old(waiting[0].View()), outs, now)
      ensures Valid() && Effect(View(), outs) == Handlers.DoPropose(cfg, nodeId, old(View()), now)
      ensures Open() <= old(Open()) && id == if old(waiting) == [] then 0 else old(waiting[0].proposalId)
    {
      if |waiting| == 0 { return 0, []; }
      MarkHead(now);
      outs := SendToOthers(Frame(PROPOSAL, nodeId, waiting[0].proposalId, waiting[0].value, now, 0, 0, 0));
      id := MoveHead();
    }

    /** This server's turn comes as many slots from now as its number says. */
    ghost predicate ArmsFirstTurn(outs: seq<Output>) {
      && |outs| == 1 && outs[0].Schedule? && outs[0].event == SyncPropose
      && outs[0].delay == nodeId * (2 * cfg.clockError + cfg.delay)
    }

    method StartApplication(now: nat) returns (outs: seq<Output>)
      requires Valid()
      modifies this`waiting, this`proposals, this`proposePeriod, Open()
      ensures Valid() && proposePeriod == cfg.Period() == cfg.Slot() * cfg.n
      ensures !cfg.async ==> ArmsFirstTurn(outs)
      ensures Effect(View(), outs) == StartProposer(cfg, nodeId, old(View()), now)
      ensures Open() <= old(Open())
    {
      hide View, Separate;
      proposePeriod := cfg.Slot() * cfg.n;
      outs := StartProposerThread(now);
    }

    /** A synchronous server arms its first slot, the asynchronous leader takes its first turn. */
    method StartProposerThread(now: nat) returns (outs: seq<Output>)
      requires Valid()
      modifies this`waiting, this`proposals, Open()
      ensures Valid() && Effect(View(), outs) == StartProposer(cfg, nodeId, old(View()), now)
      ensures !cfg.async ==> ArmsFirstTurn(outs)
      ensures cfg.async && nodeId != cfg.leader ==> outs == []
      ensures !cfg.async || nodeId != cfg.leader ==> waiting == old(waiting) && proposals == old(proposals)
      ensures Open() <= old(Open())
    {
      hide View, Separate;
      outs := [];
      if cfg.async {
        if nodeId == cfg.leader { outs := DoAsyncPropose(now); }
      } else {
        outs := [Schedule(nodeId * cfg.Slot(), SyncPropose)];
      }
    }

    method DoSyncPropose(now: nat) returns (outs: seq<Output>)
      requires Valid() && proposePeriod == cfg.Period()
      modifies this`waiting, this`proposals, Open()
      ensures now >= cfg.stop ==> outs == [] && waiting == old(waiting) && proposals == old(proposals)
      ensures now < cfg.stop ==>
                var last := |outs| - 1;
                && last >= 0 && outs[last] == Schedule(cfg.Slot() * cfg.n, SyncPropose)
                && cfg.Slot() == 2 * cfg.clockError + cfg.delay
                && if old(waiting) == [] then last == 0 && waiting == [] && proposals == old(proposals)
                   else Proposes(old(waiting)[0], old(waiting), old(proposals), old(HeadView()), outs[..last], now)
      ensures Valid() && Effect(View(), outs) == Handlers.DoSyncPropose(cfg, nodeId, old(View()), now)
      ensures Open() <= old(Open())
    {
      hide View, Separate;
      if now >= cfg.stop { return []; }
      var _, sent := DoPropose(now);
      outs := sent + [Schedule(proposePeriod, SyncPropose)];
    }

    method DoAsyncPropose(now: nat) returns (outs: seq<Output>)
      requires Valid()
      modifies this`waiting, this`proposals, Open()
      ensures LooksForWork(old(waiting), old(proposals), old(HeadView()), outs, now)
      ensures Valid() && Effect(View(), outs) == Handlers.DoAsyncPropose(cfg, nodeId, old(View()), now)
      ensures Open() <= old(Open())
    {
      hide View, Separate;
      if now >= cfg.stop { return []; }
      if |waiting| > 0 {
        var _, sent := DoPropose(now);
        outs := sent;
      } else {
        outs := [Schedule(POLL_DELAY, AsyncPropose)];
      }
    }

    // ---------- Acceptor ----------

    method Keep(id: nat, p: Proposal)
      requires Valid() && Unheld(p)
      modifies this`accepted
      ensures accepted == old(accepted)[id := p]
      ensures Valid() && View() == old(View()).(accepted := old(View()).accepted[id := p.View()])
    {
      hide Separate, Views, ViewOf;
      ghost var w0, p0: map<nat, Record>, a0, d0 := Views(waiting), ViewOf(proposals), ViewOf(accepted), Views(decided);
      JoinsAccepted(waiting, proposals, accepted, decided, p, id);
      ViewOfMore(accepted, id, p);
      accepted := accepted[id := p];
      ViewsSame(waiting);
      ViewOfSame(proposals);
      ViewsSame(decided);
      assert ViewOf(accepted) == a0[id := p.View()];
      assert Views(waiting) == w0 && ViewOf(proposals) == p0 && Views(decided) == d0;
    }

    method DoReceivedProposalMessage(f: Frame, now: nat) returns (outs: seq<Output>)
      requires Valid()
      modifies this`accepted
      ensures f.proposalId in accepted && accepted == old(accepted)[f.proposalId := accepted[f.proposalId]]
      ensures fresh(accepted[f.proposalId])
      ensures accepted[f.proposalId].View() ==
              Record(f.proposalId, f.proposerId, 0, f.value, 0, 0, f.proposeTime, now, 0, 0, 0, 0, Unset)
      ensures outs == [Schedule(10, SendAccept(Frame(f.kind, f.proposerId, f.proposalId, f.value, f.proposeTime,
                                                     nodeId, now, f.decisionTime)))]
      ensures Valid() && Effect(View(), outs) == ReceivedProposal(nodeId, old(View()), f, now)
    {
      hide View, Separate;
      var p := FromProposal(f, now);
      Keep(f.proposalId, p);
      outs := [Schedule(HANDLING_DELAY, SendAccept(f.(acceptorId := nodeId, acceptTime := now)))];
    }

    method SendAcceptMessage(f: Frame, now: nat) returns (outs: seq<Output>)
      requires Valid()
      ensures outs == [Send(f.proposerId, Frame(101, f.proposerId, f.proposalId, f.value, f.proposeTime, nodeId, now,
                                                f.decisionTime))]
      ensures outs == Handlers.SendAcceptMessage(nodeId, View(), f, now).outputs
    {
      outs := [Send(f.proposerId, f.(kind := ACCEPT, acceptorId := nodeId, acceptTime := now))];
    }

    // ---------- Counting ----------

    /** One proposal in flight is changed in place; nothing else is. */
    method CountAck(id: nat) returns (enough: bool)
      requires Valid() && id in proposals
      modifies proposals[id]
      ensures proposals[id].View() == old(proposals[id].View()).(numAck := old(proposals[id].numAck) + 1)
      ensures enough == (old(proposals[id].numAck) + 1 > cfg.n / 2 && old(proposals[id].decisionTime) == 0)
      ensures var v := old(View());
        var p := v.proposals[id].(numAck := v.proposals[id].numAck + 1);
        View() == v.(proposals := v.proposals[id := p]) && enough == (p.numAck > cfg.n / 2 && p.decisionTime == 0)
    {
      hide Views, ViewOf;
      var p := proposals[id];
      p.IncrementNumAck();
      assert Views(waiting) == old(Views(waiting));
      assert ViewOf(proposals) == old(ViewOf(proposals))[id := p.View()];
      return p.numAck > cfg.n / 2 && p.decisionTime == 0;
    }

    method CountDecisionAck(id: nat) returns (enough: bool)
      requires Valid() && id in proposals
      modifies proposals[id]
      ensures var was := old(proposals[id].View());
        proposals[id].View() == was.(numDecisionAck := was.numDecisionAck + 1)
      ensures enough == (old(proposals[id].numDecisionAck) + 1 > cfg.n / 2
                         && old(proposals[id].decisionAckTime) == 0)
      ensures var v := old(View());
        var p := v.proposals[id].(numDecisionAck := v.proposals[id].numDecisionAck + 1);
        && View() == v.(proposals := v.proposals[id := p])
        && enough == (p.numDecisionAck > cfg.n / 2 && p.decisionAckTime == 0)
    {
      hide Views, ViewOf;
      var p := proposals[id];
      p.IncrementNumDecisionAck();
      assert Views(waiting) == old(Views(waiting));
      assert ViewOf(proposals) == old(ViewOf(proposals))[id := p.View()];
      return p.numDecisionAck > cfg.n / 2 && p.decisionAckTime == 0;
    }

    method MarkDecided(id: nat, now: nat)
      requires Valid() && id in proposals
      modifies proposals[id]
      ensures proposals[id].View() == old(proposals[id].View()).(decisionTime := now, numDecisionAck := 1)
      ensures var v := old(View());
        View() == v.(proposals := v.proposals[id := v.proposals[id].(decisionTime := now, numDecisionAck := 1)])
    {
      hide Views, ViewOf;
      Stamp(proposals[id], now);
      assert Views(waiting) == old(Views(waiting));
      assert ViewOf(proposals) == old(ViewOf(proposals))[id := proposals[id].View()];
    }

    method MarkAcknowledged(id: nat, now: nat)
      requires Valid() && id in proposals
      modifies proposals[id]
      ensures proposals[id].View() == old(proposals[id].View()).(decisionAckTime := now)
      ensures var v := old(View());
        View() == v.(proposals := v.proposals[id := v.proposals[id].(decisionAckTime := now)])
    {
      hide Views, ViewOf;
      proposals[id].SetDecisionAckTime(now);
      assert Views(waiting) == old(Views(waiting));
      assert ViewOf(proposals) == old(ViewOf(proposals))[id := proposals[id].View()];
    }

    /** A proposal in flight is pushed on the heap, where no handler changes it again. */
    method Close(id: nat)
      requires Valid() && id in proposals
      modifies this`proposals, this`decided
      ensures Valid() && Open() <= old(Open())
      ensures proposals == old(proposals) - {id} && decided == old(decided) + [old(proposals)[id]]
      ensures var v := old(View());
        View() == v.(proposals := v.proposals - {id}, decided := v.decided + [v.proposals[id]])
    {
      hide Separate, Views, ViewOf, OpenSet;
      FlightCloses(waiting, proposals, accepted, decided, id);
      CloseViews(proposals, decided, id);
      ghost var v := View();
      var p := proposals[id];
      decided := decided + [p];
      proposals := proposals - {id};
      ViewsSame(waiting);
      ViewsSame(decided);
      ViewOfSame(proposals);
      ViewOfSame(accepted);
      assert Views(waiting) == v.waiting && ViewOf(accepted) == v.accepted;
    }

    /** The object in flight under this id has moved to the heap, or not. */
    ghost predicate Moved(flight: map<nat, Proposal>, heap: seq<Proposal>, id: nat, moved: bool)
      requires id in flight
      reads this`proposals, this`decided
    {
      if moved then proposals == flight - {id} && decided == heap + [flight[id]]
      else proposals == flight && decided == heap
    }

    /** The last ACCEPT needed: the proposal is decided, and in synchronous mode recorded. */
    method Decide(id: nat, now: nat)
      requires Valid() && id in proposals
      modifies this`proposals, this`decided, proposals[id]
      ensures Valid() && Open() <= old(Open())
      ensures old(proposals)[id].View() == old(proposals[id].View()).(decisionTime := now, numDecisionAck := 1)
      ensures Moved(old(proposals), old(decided), id, !cfg.async)
      ensures var v := old(View());
        var d := v.proposals[id].(decisionTime := now, numDecisionAck := 1);
        && (cfg.async ==> View() == v.(proposals := v.proposals[id := d]))
        && (!cfg.async ==> View() == v.(proposals := v.proposals[id := d] - {id}, decided := v.decided + [d]))
    {
      hide View, Separate;
      MarkDecided(id, now);
      if !cfg.async { Close(id); }
    }

    method CountAndDecide(id: nat, now: nat) returns (enough: bool)
      requires Valid() && id in proposals
      modifies this`proposals, this`decided, proposals[id]
      ensures Valid() && Open() <= old(Open())
      ensures enough == (old(proposals[id].numAck) + 1 > cfg.n / 2 && old(proposals[id].decisionTime) == 0)
      ensures var was := old(proposals[id].View());
        old(proposals)[id].View() ==
        if enough then was.(numAck := was.numAck + 1, decisionTime := now, numDecisionAck := 1)
        else was.(numAck := was.numAck + 1)
      ensures Moved(old(proposals), old(decided), id, enough && !cfg.async)
      ensures View() == Counted(cfg, old(View()), id, now, enough)
      ensures var p := old(View()).proposals[id]; enough == (p.numAck + 1 > cfg.n / 2 && p.decisionTime == 0)
    {
      hide View, Separate;
      enough := CountAck(id);
      if enough { Decide(id, now); }
    }

    /** What one ACCEPT does to the proposal `p` in flight, which had these contents: it is counted, and
        the vote that makes more than n / 2 decides, tells every other node and, in synchronous mode,
        moves the proposal to the heap. */
    ghost predicate CountsVote(p: Proposal, was: Record, flight: map<nat, Proposal>, heap: seq<Proposal>,
                               outs: seq<Output>, f: Frame, now: nat)
      requires f.proposalId in flight
      reads this`proposals, this`decided, p
    {
      if was.numAck + 1 > cfg.n / 2 && was.decisionTime == 0 then
        && p.View() == was.(numAck := was.numAck + 1, decisionTime := now, numDecisionAck := 1)
        && Moved(flight, heap, f.proposalId, !cfg.async)
        && SentToOthers(outs, Frame(102, f.proposerId, f.proposalId, f.value, f.proposeTime, f.acceptorId,
                                    f.acceptTime, now))
      else p.View() == was.(numAck := was.numAck + 1) && Moved(flight, heap, f.proposalId, false) && outs == []
    }

    method DoReceivedAcceptMessage(f: Frame, now: nat) returns (outs: seq<Output>)
      requires Valid()
      modifies this`proposals, this`decided, Open()
      ensures f.proposerId != nodeId || f.proposalId !in old(proposals) ==> outs == [] && View() == old(View())
      ensures f.proposerId == nodeId && f.proposalId in old(proposals) ==>
                CountsVote(old(proposals)[f.proposalId], old(proposals[f.proposalId].View()), old(proposals),
                           old(decided), outs, f, now)
      ensures Valid() && Effect(View(), outs) == ReceivedAccept(cfg, nodeId, old(View()), f, now)
      ensures Open() <= old(Open())
    {
      hide View, Separate;
      if f.proposerId != nodeId { return []; }
      if f.proposalId !in proposals { return []; }
      ghost var v := View();
      var enough := CountAndDecide(f.proposalId, now);
      AcceptMatches(cfg, nodeId, v, f, now, enough);
      outs := [];
      if enough { outs := SendDecisionMessage(f, now); }
    }

    /** What one DECISION_ACK does to the proposal `p` in flight: it is counted, and the one that makes more
        than n / 2 moves it to the heap, after which the leader, whose queue was `q`, looks for work. */
    ghost predicate CountsAck(p: Proposal, was: Record, flight: map<nat, Proposal>, heap: seq<Proposal>,
                              q: seq<Proposal>, head: Record, outs: seq<Output>, id: nat, now: nat)
      requires id in flight
      reads this`waiting, this`proposals, this`decided, p, if q == [] then {} else {q[0]}
    {
      if was.numDecisionAck + 1 > cfg.n / 2 && was.decisionAckTime == 0 then
        && p.View() == was.(numDecisionAck := was.numDecisionAck + 1, decisionAckTime := now)
        && decided == heap + [p] && LooksForWork(q, flight - {id}, head, outs, now)
      else
        && p.View() == was.(numDecisionAck := was.numDecisionAck + 1)
        && waiting == q && proposals == flight && decided == heap && outs == []
    }

    /** The acknowledged proposal is pushed on the heap; nothing else is changed. */
    method CloseAcknowledged(id: nat, now: nat)
      requires Valid() && id in proposals
      modifies this`proposals, this`decided, proposals[id]
      ensures Valid() && Open() <= old(Open()) && old(proposals)[id] !in Open()
      ensures old(proposals)[id].View() == old(proposals[id].View()).(decisionAckTime := now)
      ensures proposals == old(proposals) - {id} && decided == old(decided) + [old(proposals)[id]]
      ensures HeadView() == old(HeadView())
      ensures var v := old(View());
        var d := v.proposals[id].(decisionAckTime := now);
        View() == v.(proposals := v.proposals[id := d] - {id}, decided := v.decided + [d])
    {
      hide View, Separate, OpenSet;
      if waiting != [] { HeadApart(waiting, proposals, accepted, decided, id); }
      MarkAcknowledged(id, now);
      Close(id);
      NotOpen(waiting, proposals, accepted, decided, old(proposals)[id]);
    }

    /** The last DECISION_ACK needed: the leader records the proposal and takes its next turn. */
    method Complete(id: nat, now: nat) returns (outs: seq<Output>)
      requires Valid() && id in proposals
      modifies this`waiting, this`proposals, this`decided, Open()
      ensures Valid() && Open() <= old(Open())
      ensures old(proposals)[id].View() == old(proposals[id].View()).(decisionAckTime := now)
      ensures decided == old(decided) + [old(proposals)[id]]
      ensures LooksForWork(old(waiting), old(proposals) - {id}, old(HeadView()), outs, now)
      ensures var v := old(View());
        var d := v.proposals[id].(decisionAckTime := now);
        var done := v.(proposals := v.proposals[id := d] - {id}, decided := v.decided + [d]);
        Effect(View(), outs) == Handlers.DoAsyncPropose(cfg, nodeId, done, now)
    {
      hide View, Separate;
      CloseAcknowledged(id, now);
      outs := DoAsyncPropose(now);
    }

    method CountAndComplete(id: nat, now: nat) returns (ghost enough: bool, outs: seq<Output>)
      requires Valid() && id in proposals
      modifies this`waiting, this`proposals, this`decided, Open()
      ensures Valid() && Open() <= old(Open())
      ensures CountsAck(old(proposals)[id], old(proposals[id].View()), old(proposals), old(decided), old(waiting),
                        old(HeadView()), outs, id, now)
      ensures Effect(View(), outs) == Settled(cfg, nodeId, old(View()), id, now, enough)
      ensures var p := old(View()).proposals[id]; enough == (p.numDecisionAck + 1 > cfg.n / 2 && p.decisionAckTime == 0)
    {
      hide View, Separate, LooksForWork, Handlers.DoAsyncPropose;
      if waiting != [] { HeadApart(waiting, proposals, accepted, decided, id); }
      var last := CountDecisionAck(id);
      assert HeadView() == old(HeadView());
      enough, outs := last, [];
      if last { outs := Complete(id, now); }
    }

    method DoReceivedDecisionAckMessage(f: Frame, now: nat) returns (outs: seq<Output>)
      requires Valid()
      modifies this`waiting, this`proposals, this`decided, Open()
      ensures !cfg.async || f.proposalId !in old(proposals) ==> outs == [] && View() == old(View())
      ensures cfg.async && f.proposalId in old(proposals) ==>
                CountsAck(old(proposals)[f.proposalId], old(proposals[f.proposalId].View()), old(proposals),
                          old(decided), old(waiting), old(HeadView()), outs, f.proposalId, now)
      ensures Valid() && Effect(View(), outs) == ReceivedDecisionAck(cfg, nodeId, old(View()), f, now)
      ensures Open() <= old(Open())
    {
      hide View, Separate;
      if !cfg.async { return []; }
      if f.proposalId !in proposals { return []; }
      ghost var v := View();
      ghost var enough;
      enough, outs := CountAndComplete(f.proposalId, now);
      AckMatches(cfg, nodeId, v, f, now, enough);
    }

    // ---------- Learner ----------

    method Push(p: Proposal)
      requires Valid() && Unheld(p)
      modifies this`decided
      ensures decided == old(decided) + [p]
      ensures Valid() && View() == old(View()).(decided := old(View()).decided + [p.View()])
    {
      hide Separate, Views, ViewOf;
      ghost var w0, p0: map<nat, Record>, a0, d0 := Views(waiting), ViewOf(proposals), ViewOf(accepted), Views(decided);
      JoinsDecided(waiting, proposals, accepted, decided, p);
      ViewsMore(decided, p);
      decided := decided + [p];
      ViewsSame(waiting);
      ViewOfSame(proposals);
      ViewOfSame(accepted);
      assert Views(decided) == d0 + [p.View()];
      assert Views(waiting) == w0 && ViewOf(proposals) == p0 && ViewOf(accepted) == a0;
    }

    method DoReceivedDecisionMessage(f: Frame) returns (outs: seq<Output>)
      requires Valid()
      modifies this`decided
      ensures |decided| == old(|decided|) + 1 && decided[..old(|decided|)] == old(decided)
      ensures fresh(decided[old(|decided|)])
      ensures decided[old(|decided|)].View() == Record(f.proposalId, f.proposerId, f.proposerId, f.value, 0, 0,
                                                       f.proposeTime, f.acceptTime, f.decisionTime, 0, 0, 0, Unset)
      ensures !cfg.async ==> outs == []
      ensures cfg.async ==>
                outs == [Send(f.proposerId, Frame(103, nodeId, f.proposalId, f.value, f.proposeTime, 0, 0, 0))]
      ensures Valid() && Effect(View(), outs) == ReceivedDecision(cfg, nodeId, old(View()), f)
    {
      hide View, Separate;
      var p := FromDecision(f);
      outs := [];
      if cfg.async {
        outs := [Send(f.proposerId, Frame(DECISION_ACK, nodeId, f.proposalId, f.value, f.proposeTime, 0, 0, 0))];
      }
      Push(p);
    }

    // ---------- The log ----------

    /** The top of the heap: no other record comes before it. */
    method Top() returns (m: nat)
      requires decided != []
      ensures m < |decided| && m == MinIndex(Views(decided))
    {
      m := 0;
      var k := 1;
      while k < |decided|
        invariant 0 <= m < k <= |decided|
        invariant forall j :: 0 <= j < k ==> decided[m].proposalId <= decided[j].proposalId
        invariant forall j :: 0 <= j < m ==> decided[m].proposalId < decided[j].proposalId
      {
        if decided[m].After(decided[k]) { m := k; }
        k := k + 1;
      }
      FirstMinimum(Views(decided), m);
    }

    method WriteRow(row: Row)
      requires Valid()
      modifies this`log
      ensures View() == old(View()).(log := old(View()).log + [row])
    {
      hide Views, ViewOf;
      ghost var v := View();
      log := log + [row];
      ViewsSame(waiting);
      ViewOfSame(proposals);
      ViewOfSame(accepted);
      ViewsSame(decided);
    }

    method Pop(top: nat)
      requires Valid() && top < |decided|
      modifies this`decided
      ensures Valid() && |decided| + 1 == old(|decided|)
      ensures View() == old(View()).(decided := RemoveAt(old(View()).decided, top))
    {
      hide Separate, Views, ViewOf;
      ghost var v := View();
      var fewer := RemoveAt(decided, top);
      FewerDecided(waiting, proposals, accepted, decided, top);
      assert Views(fewer) == RemoveAt(v.decided, top);
      decided := fewer;
      ViewsSame(waiting);
      ViewOfSame(proposals);
      ViewOfSame(accepted);
      assert Views(waiting) == v.waiting && ViewOf(proposals) == v.proposals && ViewOf(accepted) == v.accepted;
    }

    /** The top of the heap becomes one row of the log. */
    method WriteTop(index: nat)
      requires Valid() && decided != []
      modifies this`log, this`decided
      ensures Valid() && |decided| + 1 == old(|decided|)
      ensures var v := old(View());
        View() == v.(log := v.log + [RowOf(index, v.decided[MinIndex(v.decided)])],
                     decided := RemoveAt(v.decided, MinIndex(v.decided)))
    {
      var top := Top();
      var p := decided[top];
      WriteRow(Row(index, p.proposalId, p.nodeId, p.value, p.decisionTime));
      Pop(top);
    }

    method TruncateLog()
      requires Valid()
      modifies this`log
      ensures View() == old(View()).(log := [])
    {
      hide Views, ViewOf;
      ghost var v := View();
      log := [];
      ViewsSame(waiting);
      ViewOfSame(proposals);
      ViewOfSame(accepted);
      ViewsSame(decided);
    }

    /** Row i of the log; `v` and `all` are the contents and the drained heap at the start. */
    method WriteNext(i: nat, ghost v: Server, ghost all: seq<Record>)
      requires Valid() && i < |all| && decided != [] && all[i..] == Drain(View().decided)
      requires View() == v.(log := Rows(all[..i]), decided := View().decided)
      modifies this`log, this`decided
      ensures Valid() && |decided| + 1 == old(|decided|) && all[i + 1..] == Drain(View().decided)
      ensures View() == v.(log := Rows(all[..i + 1]), decided := View().decided)
    {
      hide View, Separate;
      DrainStep(View().decided, all, i);
      WriteTop(i);
    }

    /** The heap is written out from its top and left empty. */
    method StopApplication()
      requires Valid()
      modifies this`log, this`decided
      ensures decided == [] && ListsHeap(log, Drain(old(View()).decided), old(View()).decided)
      ensures forall k :: 0 <= k < |log| ==> exists p :: p in old(decided) && Prints(log[k], k, p)
      ensures Valid() && View() == Stop(old(View())).server
    {
      DrainListsHeap(View().decided);
      WriteOut();
      forall k | 0 <= k < |log| ensures exists p :: p in old(decided) && Prints(log[k], k, p) {
        var p := RowPrinted(old(decided), log, Drain(old(View()).decided), k);
      }
    }

    /** Empties the log, then takes the heap's top off and writes it, as often as the heap was long. */
    method WriteOut()
      requires Valid()
      modifies this`log, this`decided
      ensures Valid() && View() == Stop(old(View())).server
    {
      hide View, Separate;
      var length := |decided|;
      ghost var v := View();
      ghost var all := Drain(v.decided);
      TruncateLog();
      var i := 0;
      while i < length
        invariant Valid() && 0 <= i <= length == |all| && |decided| == length - i
        invariant all[i..] == Drain(View().decided)
        invariant View() == v.(log := Rows(all[..i]), decided := View().decided)
      {
        WriteNext(i, v, all);
        i := i + 1;
      }
      assert all[..length] == all;
    }

    // ---------- Dispatch ----------

    method ReceiveFrame(f: Frame, now: nat) returns (outs: seq<Output>)
      requires Valid() && KnownKind(f)
      modifies this`waiting, this`proposals, this`accepted, this`decided, Open()
      ensures Valid() && Effect(View(), outs) == Handlers.ReceiveMessage(cfg, nodeId, old(View()), f, now)
      ensures Open() <= old(Open())
    {
      hide View, Separate;
      if f.kind == PROPOSAL {
        outs := DoReceivedProposalMessage(f, now);
      } else if f.kind == ACCEPT {
        outs := DoReceivedAcceptMessage(f, now);
      } else if f.kind == DECISION {
        outs := DoReceivedDecisionMessage(f);
      } else {
        outs := DoReceivedDecisionAckMessage(f, now);
      }
    }

    /** Schedules the handler of every packet that has arrived, in order, for this instant. A packet of
        unknown kind is fatal: it ends the program, before any of these handlers runs. */
    method ReceiveMessage(packets: seq<Frame>) returns (fatal: bool, scheduled: seq<Frame>)
      ensures scheduled <= packets && forall k :: 0 <= k < |scheduled| ==> KnownKind(scheduled[k])
      ensures !fatal ==> scheduled == packets
      ensures fatal ==> |scheduled| < |packets| && !KnownKind(packets[|scheduled|])
      ensures fatal <==> exists k :: 0 <= k < |packets| && packets[k].kind !in {100, 101, 102, 103}
    {
      scheduled := [];
      var next := 0;
      while next < |packets|
        invariant 0 <= next <= |packets| && scheduled == packets[..next]
        invariant forall k :: 0 <= k < next ==> KnownKind(packets[k])
      {
        if !KnownKind(packets[next]) { return true, scheduled; }
        scheduled := scheduled + [packets[next]];
        next := next + 1;
      }
      return false, scheduled;
    }

    method RunNext(packets: seq<Frame>, next: nat, now: nat) returns (outs: seq<Output>)
      requires Valid() && next < |packets| && KnownKind(packets[next])
      modifies this`waiting, this`proposals, this`accepted, this`decided, Open()
      ensures Valid() && Open() <= old(Open())
      ensures var all := ReceiveAll(cfg, nodeId, old(View()), packets[next..], now);
        var rest := ReceiveAll(cfg, nodeId, View(), packets[next + 1..], now);
        all.server == rest.server && all.outputs == outs + rest.outputs
    {
      hide View, Separate;
      ReceiveFirst(cfg, nodeId, View(), packets, next, now);
      outs := ReceiveFrame(packets[next], now);
    }

    /** The handlers scheduled for this instant, in order. */
    method RunScheduled(packets: seq<Frame>, now: nat) returns (outs: seq<Output>)
      requires Valid() && forall k :: 0 <= k < |packets| ==> KnownKind(packets[k])
      modifies this`waiting, this`proposals, this`accepted, this`decided, Open()
      ensures Valid() && Effect(View(), outs) == ReceiveAll(cfg, nodeId, old(View()), packets, now)
      ensures Open() <= old(Open())
    {
      hide View, Separate, Handlers.ReceiveMessage;
      outs := [];
      var next := 0;
      ghost var all := ReceiveAll(cfg, nodeId, View(), packets, now);
      assert packets[0..] == packets;
      while next < |packets|
        invariant Valid() && 0 <= next <= |packets| && Open() <= old(Open())
        invariant var rest := ReceiveAll(cfg, nodeId, View(), packets[next..], now);
          all.server == rest.server && all.outputs == outs + rest.outputs
      {
        var sent := RunNext(packets, next, now);
        outs := outs + sent;
        next := next + 1;
      }
    }

    /** Runs one event of the simulator. */
    method HandleEvent(e: Event, now: nat) returns (outs: seq<Output>)
      requires Valid() && proposePeriod == cfg.Period()
      modifies this`waiting, this`proposals, this`decided, this`log, Open()
      ensures Valid() && Effect(View(), outs) == Handlers.HandleEvent(cfg, nodeId, old(View()), e, now)
      ensures fresh(Open() - old(Open()))
    {
      hide View, Separate;
      outs := [];
      match e
      case CreateProposal(req) => CreateProposalFromRequest(req, now);
      case SendAccept(f) => outs := SendAcceptMessage(f, now);
      case AsyncPropose => outs := DoAsyncPropose(now);
      case SyncPropose => outs := DoSyncPropose(now);
      case StopApplication => StopApplication();
    }

    /** Whatever the simulator and the network ask of a server, in whatever order: no proposal on its
        heap, and none it has accepted, is ever changed again, not even once the log is written. */
    method Serve(calls: seq<Call>)
      requires Valid() && proposePeriod == cfg.Period()
      requires forall k :: 0 <= k < |calls| && calls[k].OnFrame? ==> KnownKind(calls[k].frame)
      modifies this`waiting, this`proposals, this`accepted, this`decided, this`log, Open()
      ensures Valid() && fresh(Open() - old(Open()))
      ensures forall p :: p in old(decided) || p in old(accepted.Values) ==> unchanged(p)
    {
      hide View;
      var next := 0;
      while next < |calls|
        invariant Valid() && 0 <= next <= |calls| && fresh(Open() - old(Open()))
      {
        match calls[next] {
          case OnEvent(e, now) => var _ := HandleEvent(e, now);
          case OnFrame(f, now) => var _ := ReceiveFrame(f, now);
        }
        next := next + 1;
      }
    }
  }

  method Stamp(p: Proposal, now: nat)
    modifies p
    ensures p.View() == old(p.View()).(decisionTime := now, numDecisionAck := 1)
  {
    p.SetDecisionTime(now);
    p.SetNumDecisionAck(1);
  }

  method FromRequest(server: nat, req: Request, now: nat) returns (p: Proposal)
    ensures fresh(p) && p.View() == NewProposal(server, req, now)
    ensures p.View() == Record(req.timestamp, server, server, req.value, req.timestamp, now, 0, 0, 0, 0, 0, 0,
                               ToBeProposed)
  {
    p := new Proposal();
    p.SetProposalId(req.timestamp);
    p.SetProposerId(server);
    p.SetNodeId(server);
    p.SetValue(req.value);
    p.SetCreateTime(req.timestamp);
    p.SetReceiveTime(now);
    p.SetPropState(ToBeProposed);
  }

  method MarkProposed(p: Proposal, server: nat, now: nat)
    modifies p
    ensures p.View() == Proposed(server, old(p.View()), now)
    ensures p.View() == old(p.View()).(nodeId := server, proposeTime := now, numAck := 1, numDecisionAck := 1,
                                       state := ToBeAccepted)
  {
    p.SetNodeId(server);
    p.SetProposeTime(now);
    p.SetNumAck(1);
    p.SetPropState(ToBeAccepted);
    p.SetNumDecisionAck(1);
  }

  method FromProposal(f: Frame, now: nat) returns (p: Proposal)
    ensures fresh(p) && p.View() == AcceptedRecord(f, now)
    ensures p.View() == Record(f.proposalId, f.proposerId, 0, f.value, 0, 0, f.proposeTime, now, 0, 0, 0, 0, Unset)
  {
    p := new Proposal();
    p.SetProposalId(f.proposalId);
    p.SetNodeId(f.proposerId);
    p.SetValue(f.value);
    p.SetProposeTime(f.proposeTime);
    p.SetNumAck(0);
    p.SetAcceptTime(now);
  }

  method FromDecision(f: Frame) returns (p: Proposal)
    ensures fresh(p) && p.View() == DecidedRecord(f)
    ensures p.View() == Record(f.proposalId, f.proposerId, f.proposerId, f.value, 0, 0, f.proposeTime, f.acceptTime,
                               f.decisionTime, 0, 0, 0, Unset)
  {
    p := new Proposal();
    p.SetProposalId(f.proposalId);
    p.SetProposerId(f.proposerId);
    p.SetNodeId(f.proposerId);
    p.SetValue(f.value);
    p.SetProposeTime(f.proposeTime);
    p.SetAcceptTime(f.acceptTime);
    p.SetDecisionTime(f.decisionTime);
  }
}
