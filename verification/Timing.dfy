/** Latency on a bounded lossless network, and the slots of the synchronous mode. */
module Timing {
  import opened Division
  import opened PaxosData
  import opened DecisionLog
  import opened Cluster
  import opened Snapshots
  import opened Invariant
  import opened SafeMoves
  import opened FlowMoves
  import opened AgendaInvariant
  import opened Steps
  import opened Runs
  import opened Agreement

  ghost predicate Timely(cfg: Config, w: World) {
    Reached(cfg, w) && cfg.lossless && cfg.bounded && cfg.n > 1
  }

  // ---------- Latency ----------

  /** A vote still travelling bounds the present. */
  lemma VoteDeadline(cfg: Config, w: World, id: nat, a: nat)
    requires WorldInv(cfg, w) && cfg.bounded && Token(AtProposal, id, a) in View(w).live
    ensures id in w.h.ballots && w.now <= w.h.ballots[id].proposeTime + 2 * cfg.delay + HANDLING_DELAY
  {
    var u :| u in w.agenda && TokenOf(w.agenda[u]) == Token(AtProposal, id, a);
    assert ItemOk(cfg, View(w), w.agenda[u]) && InTime(cfg, w.now, w.agenda[u]);
  }

  lemma DecisionDeadline(cfg: Config, w: World, id: nat, a: nat)
    requires WorldInv(cfg, w) && cfg.bounded && Token(AtDecision, id, a) in View(w).live
    ensures id in w.h.decisions && w.now <= w.h.decisions[id] + cfg.delay
  {
    var u :| u in w.agenda && TokenOf(w.agenda[u]) == Token(AtDecision, id, a);
    assert ItemOk(cfg, View(w), w.agenda[u]) && InTime(cfg, w.now, w.agenda[u]);
  }

  lemma AckDeadline(cfg: Config, w: World, id: nat, a: nat)
    requires WorldInv(cfg, w) && cfg.bounded && Token(AtAck, id, a) in View(w).live
    ensures id in w.h.decisions && w.now <= w.h.decisions[id] + 2 * cfg.delay
  {
    var u :| u in w.agenda && TokenOf(w.agenda[u]) == Token(AtAck, id, a);
    assert ItemOk(cfg, View(w), w.agenda[u]) && InTime(cfg, w.now, w.agenda[u]);
  }

  /** Too few votes leave a voter out. */
  lemma MissingVoter(votes: set<nat>, n: nat, i: nat) returns (a: nat)
    requires i < n && n > 1 && 1 + |votes| <= n / 2
    ensures a < n && a != i && a !in votes
  {
    UpToCount(n);
    if UpTo(n) - {i} <= votes { CardinalityGrows(UpTo(n) - {i}, votes); }
    a :| a in UpTo(n) - {i} && a !in votes;
  }

  lemma DecidedBy(cfg: Config, w: World, id: nat)
    requires WorldInv(cfg, w) && cfg.lossless && cfg.bounded && cfg.n > 1 && id in w.h.ballots
    requires w.now > w.h.ballots[id].proposeTime + 2 * cfg.delay + HANDLING_DELAY
    ensures id in w.h.decisions
  {
    var s, p := View(w), w.h.ballots[id].proposer;
    assert BallotOk(cfg, s, id);
    if id in w.servers[p].proposals && id !in w.h.decisions {
      FlightFacts(cfg, s, p, id);
      assert Pending(cfg, s, w.servers[p].proposals[id], id) && Answered(cfg, s, p, id);
      var a := MissingVoter(w.h.acks[id], cfg.n, p);
      VoteDeadline(cfg, w, id, a);
    }
    if id in Ids(w.h.recorded[p]) { RecordedFacts(cfg, s, p, id); }
  }

  /** A proposal broadcast at T is decided within two deliveries and one handling delay; in
      synchronous mode its proposer then has it in its decided heap. */
  lemma ProposerLatency(cfg: Config, w: World, id: nat)
    requires Timely(cfg, w) && id in w.h.ballots
    requires w.now > w.h.ballots[id].proposeTime + 2 * cfg.delay + HANDLING_DELAY
    ensures id in w.h.decisions && w.h.decisions[id] <= w.h.ballots[id].proposeTime + 2 * cfg.delay + HANDLING_DELAY
    ensures w.h.ballots[id].proposer < cfg.n
    ensures !cfg.async ==> id in Ids(w.h.recorded[w.h.ballots[id].proposer])
  {
    ReachableHolds(cfg, w);
    var s, p := View(w), w.h.ballots[id].proposer;
    DecidedBy(cfg, w, id);
    assert BallotOk(cfg, s, id);
    if id in w.servers[p].proposals { assert Pending(cfg, s, w.servers[p].proposals[id], id); }
  }

  /** One more delivery and every other server has it as well. */
  lemma ClusterLatency(cfg: Config, w: World, id: nat, a: nat)
    requires Timely(cfg, w) && id in w.h.ballots && a < cfg.n
    requires w.now > w.h.ballots[id].proposeTime + 3 * cfg.delay + HANDLING_DELAY
    ensures a != w.h.ballots[id].proposer || !cfg.async ==> id in Ids(w.h.recorded[a])
  {
    ProposerLatency(cfg, w, id);
    ReachableHolds(cfg, w);
    if a != w.h.ballots[id].proposer {
      assert Spread(cfg, View(w), id);
      if Token(AtDecision, id, a) in View(w).live { DecisionDeadline(cfg, w, id, a); }
    }
  }

  /** The asynchronous leader records its proposal two deliveries after deciding it. */
  lemma LeaderLatency(cfg: Config, w: World, id: nat)
    requires Timely(cfg, w) && cfg.async && id in w.h.ballots
    requires w.now > w.h.ballots[id].proposeTime + 4 * cfg.delay + HANDLING_DELAY
    ensures id in Ids(w.h.recorded[cfg.leader])
  {
    ProposerLatency(cfg, w, id);
    ReachableHolds(cfg, w);
    var s, l := View(w), cfg.leader;
    LeaderBallots(cfg, s, id);
    assert BallotOk(cfg, s, id);
    if id in w.servers[l].proposals {
      FlightFacts(cfg, s, l, id);
      assert Pending(cfg, s, w.servers[l].proposals[id], id) && Answered(cfg, s, l, id);
      var a := MissingVoter(w.h.dacks[id], cfg.n, l);
      ClusterLatency(cfg, w, id, a);
      AckDeadline(cfg, w, id, a);
    }
  }

  // ---------- The schedule ----------

  /** The number of a slot: slot k of the cluster belongs to server k modulo n. */
  function SlotNumber(cfg: Config, b: Ballot): nat { b.proposer + b.round * cfg.n }

  /** When slot k starts, by the clock of its owner. */
  function SlotStart(cfg: Config, k: nat): nat
    requires cfg.n > 0
  {
    cfg.start + cfg.Lag(k % cfg.n) + k * cfg.Slot()
  }

  lemma TurnIsSlot(cfg: Config, i: nat, r: nat)
    requires i < cfg.n
    ensures (i + r * cfg.n) % cfg.n == i && cfg.TurnStart(i, r) == SlotStart(cfg, i + r * cfg.n)
  {
    Unique(i + r * cfg.n, cfg.n, r, i);
  }

  /** Every armed timer is due at the start of a slot of its own server, the one after the rounds
      it has run. */
  lemma TimerSlot(cfg: Config, w: World, u: nat, i: nat, due: nat)
    requires Reached(cfg, w) && u in w.agenda && w.agenda[u] == Local(i, SyncPropose, due)
    ensures !cfg.async && i < cfg.n && due == SlotStart(cfg, i + w.h.rounds[i] * cfg.n)
  {
    hide SlotStart, Reachable;
    ItemHolds(cfg, w, u);
    TurnIsSlot(cfg, i, w.h.rounds[i]);
  }

  /** Every broadcast was made at the start of one of its proposer's earlier slots. */
  lemma BallotSlot(cfg: Config, w: World, id: nat)
    requires Reached(cfg, w) && !cfg.async && id in w.h.ballots
    ensures var b := w.h.ballots[id];
      && b.proposer < cfg.n && b.round < w.h.rounds[b.proposer] && b.proposeTime <= w.now
      && SlotNumber(cfg, b) % cfg.n == b.proposer && b.proposeTime == SlotStart(cfg, SlotNumber(cfg, b))
  {
    hide SlotStart;
    BallotHolds(cfg, w, id);
    TurnIsSlot(cfg, w.h.ballots[id].proposer, w.h.ballots[id].round);
  }

  lemma SplitSlot(n: nat, p: nat, q: nat, x: nat, y: nat)
    requires p < n && q < n && p + x * n == q + y * n
    ensures p == q && x == y
  {
    if x < y { Multiples(x, y, n); }
    if y < x { Multiples(y, x, n); }
  }

  lemma OneSlotOneBallot(cfg: Config, w: World, x: nat, y: nat)
    requires Reached(cfg, w) && !cfg.async && x in w.h.ballots && y in w.h.ballots && x != y
    ensures SlotNumber(cfg, w.h.ballots[x]) != SlotNumber(cfg, w.h.ballots[y])
  {
    BallotSlot(cfg, w, x);
    BallotSlot(cfg, w, y);
    RoundsDiffer(cfg, w, x, y);
    var b, c := w.h.ballots[x], w.h.ballots[y];
    if SlotNumber(cfg, b) == SlotNumber(cfg, c) { SplitSlot(cfg.n, b.proposer, c.proposer, b.round, c.round); }
  }

  lemma LagBound(cfg: Config, i: nat)
    requires cfg.Valid() && i < cfg.n
    ensures cfg.Lag(i) <= 2 * cfg.clockError
  {
  }

  /** Slots of different numbers start a whole slot apart by their owners' clocks, and at least the
      delivery bound apart in fact. */
  lemma SlotsApart(cfg: Config, j: nat, k: nat)
    requires cfg.Valid() && j < k
    ensures SlotStart(cfg, j) + cfg.Lag(k % cfg.n) + cfg.Slot() <= SlotStart(cfg, k) + cfg.Lag(j % cfg.n)
    ensures SlotStart(cfg, j) + cfg.delay <= SlotStart(cfg, k)
  {
    Multiples(j, k, cfg.Slot());
    LagBound(cfg, j % cfg.n);
  }

  /** Each slot has one owner and one proposal: different proposals are a whole slot apart by their
      proposers' clocks, and at least the delivery bound apart in fact. */
  lemma SlotsDistinct(cfg: Config, w: World, x: nat, y: nat)
    requires Reached(cfg, w) && !cfg.async && x in w.h.ballots && y in w.h.ballots && x != y
    ensures SlotNumber(cfg, w.h.ballots[x]) != SlotNumber(cfg, w.h.ballots[y])
    ensures var b, c := w.h.ballots[x], w.h.ballots[y];
      && (b.proposeTime + cfg.delay <= c.proposeTime || c.proposeTime + cfg.delay <= b.proposeTime)
      && (cfg.Lag(b.proposer) == cfg.Lag(c.proposer) ==>
            b.proposeTime + cfg.Slot() <= c.proposeTime || c.proposeTime + cfg.Slot() <= b.proposeTime)
  {
    OneSlotOneBallot(cfg, w, x, y);
    BallotSlot(cfg, w, x);
    BallotSlot(cfg, w, y);
    var j, k := SlotNumber(cfg, w.h.ballots[x]), SlotNumber(cfg, w.h.ballots[y]);
    if j < k { SlotsApart(cfg, j, k); } else { SlotsApart(cfg, k, j); }
  }

  /** Distinct numbers in a range of size m are at most m. */
  lemma {:induction false} Pigeons(ids: set<nat>, hole: map<nat, nat>, lo: nat, m: nat)
    requires forall x :: x in ids ==> x in hole && lo <= hole[x] < lo + m
    requires forall x, y :: x in ids && y in ids && x != y ==> hole[x] != hole[y]
    ensures |ids| <= m
  {
    if m == 0 {
      assert ids == {};
    } else if x :| x in ids && hole[x] == lo + m - 1 {
      Pigeons(ids - {x}, hole, lo, m - 1);
    } else {
      Pigeons(ids, hole, lo, m - 1);
    }
  }

  /** The servers' lags differ by at most `skew`. */
  ghost predicate Skewed(cfg: Config, base: nat, skew: nat) {
    forall i :: 0 <= i < cfg.n ==> base <= cfg.Lag(i) <= base + skew
  }

  /** No window of length L sees more than floor((L + skew) / slot) + 1 broadcast rounds; with equal
      clocks that is floor(L / slot) + 1. */
  lemma BroadcastRate(cfg: Config, w: World, from: nat, length: nat, ids: set<nat>, base: nat, skew: nat)
    requires Reached(cfg, w) && !cfg.async && cfg.Slot() > 0 && Skewed(cfg, base, skew)
    requires forall x :: x in ids ==> x in w.h.ballots && from <= w.h.ballots[x].proposeTime <= from + length
    ensures |ids| <= (length + skew) / cfg.Slot() + 1
  {
    hide FirstSlot, Skewed;
    var slots := map x | x in w.h.ballots :: SlotNumber(cfg, w.h.ballots[x]);
    var lo := FirstSlot(from - cfg.start - base - skew, cfg.Slot());
    forall x | x in ids ensures lo <= slots[x] < lo + ((length + skew) / cfg.Slot() + 1) {
      InWindow(cfg, w, from, length, x, base, skew);
    }
    forall x, y | x in ids && y in ids && x != y ensures slots[x] != slots[y] { OneSlotOneBallot(cfg, w, x, y); }
    Pigeons(ids, slots, lo, (length + skew) / cfg.Slot() + 1);
  }

  lemma InWindow(cfg: Config, w: World, from: nat, length: nat, x: nat, base: nat, skew: nat)
    requires Reached(cfg, w) && !cfg.async && cfg.Slot() > 0 && Skewed(cfg, base, skew)
    requires x in w.h.ballots && from <= w.h.ballots[x].proposeTime <= from + length
    ensures var lo := FirstSlot(from - cfg.start - base - skew, cfg.Slot());
      lo <= SlotNumber(cfg, w.h.ballots[x]) < lo + ((length + skew) / cfg.Slot() + 1)
  {
    hide FirstSlot;
    BallotSlot(cfg, w, x);
    SlotRange(from - cfg.start - base - skew, length + skew, SlotNumber(cfg, w.h.ballots[x]), cfg.Slot());
  }

  /** The first slot that starts no earlier than `gap` after the first one. */
  function FirstSlot(gap: int, slot: nat): nat
    requires slot > 0
  {
    if gap <= 0 then 0 else (gap - 1) / slot + 1
  }

  /** `c` whole slots fit before `gap`, so a slot that starts no earlier comes after. */
  lemma RangeLow(c: nat, k: nat, slot: nat, gap: nat)
    requires c * slot < gap <= k * slot
    ensures c + 1 <= k
  {
    if k < c { Multiples(k, c, slot); }
  }

  lemma RangeHigh(c: nat, q: nat, k: nat, slot: nat, reach: nat)
    requires k * slot <= reach < c * slot + q * slot + slot
    ensures k <= c + q
  {
    if k > c + q { AfterWindow(c, q, k, slot); }
  }

  lemma AfterWindow(c: nat, q: nat, k: nat, slot: nat)
    requires k > c + q
    ensures k * slot >= c * slot + q * slot + slot
  {
    Multiples(c + q, k, slot);
    assert (c + q) * slot == c * slot + q * slot;
  }

  lemma SlotRange(gap: int, length: nat, k: nat, slot: nat)
    requires slot > 0 && gap <= k * slot <= gap + length
    ensures FirstSlot(gap, slot) <= k < FirstSlot(gap, slot) + (length / slot + 1)
  {
    Quotient(length, slot);
    if gap <= 0 {
      RangeHigh(0, length / slot, k, slot, k * slot);
    } else {
      Quotient(gap - 1, slot);
      Window((gap - 1) / slot, length / slot, gap, length, k, slot);
    }
  }

  lemma Window(c: nat, q: nat, gap: nat, length: nat, k: nat, slot: nat)
    requires c * slot < gap <= c * slot + slot && length < q * slot + slot && gap <= k * slot <= gap + length
    ensures c + 1 <= k <= c + 1 + q
  {
    RangeLow(c, k, slot, gap);
    AboveFloor(c + 1, slot);
    RangeHigh(c + 1, q, k, slot, k * slot);
  }

  lemma AboveFloor(c: nat, slot: nat)
    requires c > 0
    ensures c * slot == (c - 1) * slot + slot
  {
  }

  // ---------- One proposal at a time ----------

  /** A round trip of the whole exchange fits between two turns of the same server. */
  predicate TurnsAreLong(cfg: Config) { cfg.Period() > 2 * cfg.delay + HANDLING_DELAY }

  /** Three servers and a delay above the handling delay suffice. */
  lemma ThreeServersSuffice(cfg: Config)
    requires cfg.n >= 3 && cfg.delay > HANDLING_DELAY
    ensures TurnsAreLong(cfg)
  {
  }

  lemma EarlierTurn(cfg: Config, i: nat, r: nat, k: nat)
    requires r < k
    ensures cfg.TurnStart(i, r) + cfg.Period() <= cfg.TurnStart(i, k)
  {
    NextTurn(cfg, i, r);
    if r + 1 < k { LaterTurn(cfg, i, r + 1, k); }
  }

  lemma LaterTurn(cfg: Config, i: nat, r: nat, k: nat)
    requires r <= k
    ensures cfg.TurnStart(i, r) <= cfg.TurnStart(i, k)
  {
    if r < k {
      Multiples(r, k, cfg.n);
      if i + r * cfg.n < i + k * cfg.n { Multiples(i + r * cfg.n, i + k * cfg.n, cfg.Slot()); }
    }
  }

  /** Whatever a server still has in flight was proposed less than a period ago. */
  lemma FlightIsYoung(cfg: Config, w: World, i: nat, id: nat)
    requires Timely(cfg, w) && !cfg.async && i < cfg.n && id in w.servers[i].proposals
    ensures id in w.h.ballots && w.h.ballots[id].proposer == i
    ensures w.now <= w.h.ballots[id].proposeTime + 2 * cfg.delay + HANDLING_DELAY
  {
    ReachableHolds(cfg, w);
    FlightFacts(cfg, View(w), i, id);
    assert Pending(cfg, View(w), w.servers[i].proposals[id], id);
    if w.now > w.h.ballots[id].proposeTime + 2 * cfg.delay + HANDLING_DELAY { DecidedBy(cfg, w, id); }
  }

  /** At each of its propose instants a server has nothing in flight. */
  lemma EmptyAtTurn(cfg: Config, w: World, u: nat, i: nat)
    requires Timely(cfg, w) && TurnsAreLong(cfg) && u in w.agenda && w.agenda[u] == Local(i, SyncPropose, w.now)
    ensures i < cfg.n && w.servers[i].proposals == map[]
  {
    ItemHolds(cfg, w, u);
    forall id ensures id !in w.servers[i].proposals {
      if id in w.servers[i].proposals {
        FlightIsYoung(cfg, w, i, id);
        BallotHolds(cfg, w, id);
        EarlierTurn(cfg, i, w.h.ballots[id].round, w.h.rounds[i]);
      }
    }
  }

  /** So it never has two. */
  lemma OneInFlight(cfg: Config, w: World, i: nat)
    requires Timely(cfg, w) && TurnsAreLong(cfg) && !cfg.async && i < cfg.n
    ensures |w.servers[i].proposals| <= 1
  {
    var keys := w.servers[i].proposals.Keys;
    forall x, y | x in keys && y in keys ensures x == y {
      FlightIsYoung(cfg, w, i, x);
      FlightIsYoung(cfg, w, i, y);
      BallotHolds(cfg, w, x);
      BallotHolds(cfg, w, y);
      var b, c := w.h.ballots[x], w.h.ballots[y];
      if b.round < c.round { EarlierTurn(cfg, i, b.round, c.round); }
      if c.round < b.round { EarlierTurn(cfg, i, c.round, b.round); }
      if x != y { RoundsDiffer(cfg, w, x, y); }
    }
    AtMostOne(keys);
  }

  lemma AtMostOne(s: set<nat>)
    requires forall x, y :: x in s && y in s ==> x == y
    ensures |s| <= 1
  {
    if x :| x in s { assert s == {x}; }
  }

  // ---------- Slots do not overlap ----------

  /** Whatever the clocks, within their error: a PROPOSAL of one slot that is still in flight is
      in flight no later than any later slot starts by its own owner's clock. */
  lemma ProposalsArrive(cfg: Config, w: World, v: nat, k: nat)
    requires Reached(cfg, w) && !cfg.async && cfg.bounded && v in w.agenda
    requires w.agenda[v].FrameTo? && w.agenda[v].frame.kind == PROPOSAL
    ensures var id := w.agenda[v].frame.proposalId;
      id in w.h.ballots && (SlotNumber(cfg, w.h.ballots[id]) < k ==> w.now <= SlotStart(cfg, k))
  {
    ProposalSent(cfg, w, v);
    var id := w.agenda[v].frame.proposalId;
    BallotSlot(cfg, w, id);
    if SlotNumber(cfg, w.h.ballots[id]) < k { SlotsApart(cfg, SlotNumber(cfg, w.h.ballots[id]), k); }
  }

  /** So when a server starts its turn, no PROPOSAL of another slot is in flight, unless it arrives
      at that very instant and the two clocks are as far apart as the error bound allows. */
  lemma SlotsDoNotOverlap(cfg: Config, w: World, u: nat, v: nat, i: nat)
    requires Reached(cfg, w) && cfg.bounded && u in w.agenda && v in w.agenda
    requires w.agenda[u] == Local(i, SyncPropose, w.now)
    requires w.agenda[v].FrameTo? && w.agenda[v].frame.kind == PROPOSAL
    ensures w.now == w.agenda[v].sentAt + cfg.delay && w.agenda[v].frame.proposalId in w.h.ballots && i < cfg.n
    ensures var p := w.h.ballots[w.agenda[v].frame.proposalId].proposer;
      cfg.Lag(p) == cfg.Lag(i) + 2 * cfg.clockError || cfg.Lag(i) == cfg.Lag(p) + 2 * cfg.clockError
  {
    var k := TurnSlot(cfg, w, u, i);
    hide SlotStart;
    ProposalSent(cfg, w, v);
    var id := w.agenda[v].frame.proposalId;
    BallotSlot(cfg, w, id);
    EarlierSlot(cfg, w, id, i);
    SlotsMeet(cfg, SlotNumber(cfg, w.h.ballots[id]), k);
  }

  /** The number of the slot that starts when this timer is due. */
  lemma TurnSlot(cfg: Config, w: World, u: nat, i: nat) returns (k: nat)
    requires Reached(cfg, w) && u in w.agenda && w.agenda[u] == Local(i, SyncPropose, w.now)
    ensures !cfg.async && i < cfg.n && k == i + w.h.rounds[i] * cfg.n && k % cfg.n == i && w.now == SlotStart(cfg, k)
  {
    hide SlotStart;
    TimerSlot(cfg, w, u, i, w.now);
    k := SlotOf(cfg.n, i, w.h.rounds[i]);
  }

  lemma SlotOf(n: nat, i: nat, r: nat) returns (k: nat)
    requires i < n
    ensures k == i + r * n && k % n == i
  {
    k := i + r * n;
    Unique(k, n, r, i);
  }

  lemma EarlierSlot(cfg: Config, w: World, id: nat, i: nat)
    requires Reached(cfg, w) && !cfg.async && id in w.h.ballots && i < cfg.n
    ensures SlotNumber(cfg, w.h.ballots[id]) != i + w.h.rounds[i] * cfg.n
  {
    BallotSlot(cfg, w, id);
    NotThisSlot(cfg.n, w.h.ballots[id].proposer, i, w.h.ballots[id].round, w.h.rounds[i]);
  }

  lemma NotThisSlot(n: nat, p: nat, i: nat, round: nat, rounds: nat)
    requires p < n && i < n && (p == i ==> round < rounds)
    ensures p + round * n != i + rounds * n
  {
    if p + round * n == i + rounds * n { SplitSlot(n, p, i, round, rounds); }
  }

  /** Different slots that start within one delivery of each other. */
  lemma SlotsMeet(cfg: Config, j: nat, k: nat)
    requires cfg.Valid() && j != k && SlotStart(cfg, j) <= SlotStart(cfg, k) <= SlotStart(cfg, j) + cfg.delay
    ensures SlotStart(cfg, k) == SlotStart(cfg, j) + cfg.delay
    ensures var p, q := cfg.Lag(j % cfg.n), cfg.Lag(k % cfg.n);
      p == q + 2 * cfg.clockError || q == p + 2 * cfg.clockError
  {
    hide SlotStart;
    LagBound(cfg, j % cfg.n);
    LagBound(cfg, k % cfg.n);
    if j < k { SlotsApart(cfg, j, k); } else { SlotsApart(cfg, k, j); }
  }

  lemma ProposalSent(cfg: Config, w: World, v: nat)
    requires Reached(cfg, w) && cfg.bounded && v in w.agenda
    requires w.agenda[v].FrameTo? && w.agenda[v].frame.kind == PROPOSAL
    ensures w.agenda[v].frame.proposalId in w.h.ballots && w.now <= w.agenda[v].sentAt + cfg.delay
    ensures w.agenda[v].sentAt == w.h.ballots[w.agenda[v].frame.proposalId].proposeTime
  {
    ItemHolds(cfg, w, v);
  }
}
