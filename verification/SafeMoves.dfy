/** Every move keeps `Safe`. Each move concerns one server `i`; what it cannot touch is kept by
    the general lemmas of the first part, what it changes is argued in the second. */
module SafeMoves {
  import opened PaxosData
  import opened DecisionLog
  import opened Handlers
  import opened Cluster
  import opened Snapshots
  import opened Invariant

  // ---------- What a move of server i can change ----------

  /** Nothing known is forgotten, and only ballots of proposer `i` gain votes or decisions. */
  ghost predicate HistoryGrows(h: History, h': History, i: nat) {
    && (forall x :: x in h.requests ==> x in h'.requests && h'.requests[x] == h.requests[x])
    && h'.rejected == h.rejected
    && (forall x :: x in h.ballots ==> x in h'.ballots && h'.ballots[x] == h.ballots[x])
    && (forall x :: x in h.ballots && x in h.acks ==> x in h'.acks && h.acks[x] <= h'.acks[x])
    && (forall x :: x in h.ballots && x in h.dacks ==> x in h'.dacks && h.dacks[x] <= h'.dacks[x])
    && (forall x :: x in h.decisions ==> x in h'.decisions && h'.decisions[x] == h.decisions[x])
    && (forall x :: x in h.ballots && h.ballots[x].proposer != i ==>
          && (x in h.acks ==> h'.acks[x] == h.acks[x])
          && (x in h.dacks ==> h'.dacks[x] == h.dacks[x])
          && (x in h'.decisions ==> x in h.decisions))
  }

  ghost predicate SameServer(s: Snapshot, s': Snapshot, j: nat)
    requires HasServer(s, j) && HasServer(s', j)
  {
    && s'.servers[j] == s.servers[j] && s'.h.created[j] == s.h.created[j] && s'.h.issued[j] == s.h.issued[j]
    && s'.h.recorded[j] == s.h.recorded[j] && s'.h.cut[j] == s.h.cut[j]
    && (Token(AtStop, 0, j) in s'.live ==> Token(AtStop, 0, j) in s.live)
  }

  ghost predicate ServerGrows(s: Snapshot, s': Snapshot, j: nat)
    requires HasServer(s, j) && HasServer(s', j)
  {
    && s.servers[j].accepted.Keys <= s'.servers[j].accepted.Keys
    && s.h.issued[j] <= s'.h.issued[j]
    && Ids(s.h.recorded[j]) <= Ids(s'.h.recorded[j])
    && forall x :: x in s.servers[j].proposals ==> x in s'.servers[j].proposals || x in Ids(s'.h.recorded[j])
  }

  ghost predicate Grows(cfg: Config, s: Snapshot, s': Snapshot, i: nat) {
    && Shape(cfg, s) && Shape(cfg, s') && s.now <= s'.now
    && HistoryGrows(s.h, s'.h, i)
    && (forall j :: 0 <= j < cfg.n && j != i ==> SameServer(s, s', j))
    && (forall j :: 0 <= j < cfg.n ==> ServerGrows(s, s', j))
  }

  lemma PushId(rs: seq<Record>, r: Record)
    ensures Ids(rs + [r]) == Ids(rs) + {r.id}
  {
    forall id ensures id in Ids(rs + [r]) <==> id in Ids(rs) + {r.id} {
      if id in Ids(rs) {
        var k :| 0 <= k < |rs| && rs[k].id == id;
        assert (rs + [r])[k].id == id;
      }
      assert (rs + [r])[|rs|].id == r.id;
    }
  }

  // ---------- What growth keeps ----------

  lemma QueueKept(cfg: Config, s: Snapshot, s': Snapshot, i: nat, j: nat)
    requires Grows(cfg, s, s', i) && j < cfg.n && CreatedOk(cfg, s.h, j) && WaitingOk(s, j) && IssuedOk(s.h, j)
    requires s'.h.created[j] == s.h.created[j] && s'.h.issued[j] == s.h.issued[j]
    requires s'.servers[j].waiting == s.servers[j].waiting
    ensures CreatedOk(cfg, s'.h, j) && WaitingOk(s', j) && IssuedOk(s'.h, j)
  {
  }

  lemma AcceptedKept(cfg: Config, s: Snapshot, s': Snapshot, i: nat, j: nat)
    requires Grows(cfg, s, s', i) && j < cfg.n && AcceptedOk(s, j)
    requires s'.servers[j].accepted == s.servers[j].accepted
    ensures AcceptedOk(s', j)
  {
  }

  lemma FlightKept(cfg: Config, s: Snapshot, s': Snapshot, i: nat, j: nat)
    requires Grows(cfg, s, s', i) && j < cfg.n && FlightOk(cfg, s, j)
    requires j != i || (s'.h.acks == s.h.acks && s'.h.dacks == s.h.dacks && s'.h.decisions == s.h.decisions)
    requires s'.servers[j].proposals == s.servers[j].proposals && s'.h.recorded[j] == s.h.recorded[j]
    ensures FlightOk(cfg, s', j)
  {
  }

  lemma RowKept(cfg: Config, h: History, h': History, i: nat, j: nat, r: Record)
    requires HistoryGrows(h, h', i) && DecidedRow(cfg, h, j, r)
    ensures DecidedRow(cfg, h', j, r)
  {
    CardinalityGrows(h.dacks[r.id], h'.dacks[r.id]);
  }

  lemma CardinalityGrows(a: set<nat>, b: set<nat>)
    requires a <= b
    ensures |a| <= |b|
  {
    assert |b| == |a| + |b - a| by { assert b == a + (b - a); }
  }

  lemma RecordedKept(cfg: Config, s: Snapshot, s': Snapshot, i: nat, j: nat)
    requires Grows(cfg, s, s', i) && j < cfg.n && RecordedOk(cfg, s, j)
    requires s'.h.recorded[j] == s.h.recorded[j]
    ensures RecordedOk(cfg, s', j)
  {
    forall r | r in s.h.recorded[j] ensures DecidedRow(cfg, s'.h, j, r) { RowKept(cfg, s.h, s'.h, i, j, r); }
  }

  lemma OtherServer(cfg: Config, s: Snapshot, s': Snapshot, i: nat, j: nat)
    requires Grows(cfg, s, s', i) && j < cfg.n && j != i && ServerOk(cfg, s, j)
    ensures ServerOk(cfg, s', j)
  {
    assert SameServer(s, s', j);
    QueueKept(cfg, s, s', i, j);
    FlightKept(cfg, s, s', i, j);
    RecordedKept(cfg, s, s', i, j);
    AcceptedKept(cfg, s, s', i, j);
  }

  /** The heap of a server that pushes one record, or none. */
  lemma HeapPushed(s: Snapshot, s': Snapshot, i: nat, r: Record)
    requires HasServer(s, i) && HasServer(s', i) && HeapOk(s, i)
    requires s'.servers[i].decided == s.servers[i].decided + [r] && s'.servers[i].log == s.servers[i].log
    requires s'.h.recorded[i] == s.h.recorded[i] + [r] && s'.h.cut[i] == s.h.cut[i]
    requires Token(AtStop, 0, i) in s'.live ==> Token(AtStop, 0, i) in s.live
    ensures HeapOk(s', i)
  {
    var rs, c := s.h.recorded[i], s.h.cut[i];
    assert (rs + [r])[c..] == rs[c..] + [r];
    assert (rs + [r])[..c] == rs[..c];
  }

  /** A known ballot keeps its justification if every new voter has one. */
  lemma BallotKept(cfg: Config, s: Snapshot, s': Snapshot, i: nat, x: nat)
    requires Grows(cfg, s, s', i) && x in s.h.ballots && BallotOk(cfg, s, x)
    requires forall a :: a in s'.h.acks[x] && a !in s.h.acks[x] ==> Acceptor(cfg, s', x, a)
    requires forall a :: a in s'.h.dacks[x] && a !in s.h.dacks[x] ==> Learner(cfg, s', x, a)
    requires x !in s'.h.decisions ==> s'.h.dacks[x] == {}
    ensures BallotOk(cfg, s', x)
  {
    var p := s.h.ballots[x].proposer;
    assert ServerGrows(s, s', p);
    forall a | a in s'.h.acks[x] ensures Acceptor(cfg, s', x, a) {
      if a in s.h.acks[x] { assert Acceptor(cfg, s, x, a) && ServerGrows(s, s', a); }
    }
    forall a | a in s'.h.dacks[x] ensures Learner(cfg, s', x, a) {
      if a in s.h.dacks[x] { assert Learner(cfg, s, x, a) && ServerGrows(s, s', a); }
    }
  }

  lemma BallotsKept(cfg: Config, s: Snapshot, s': Snapshot, i: nat)
    requires Grows(cfg, s, s', i) && s'.h.ballots == s.h.ballots && s'.h.acks == s.h.acks && s'.h.dacks == s.h.dacks
    requires forall x :: x in s.h.ballots ==> BallotOk(cfg, s, x)
    ensures forall x :: x in s.h.ballots ==> BallotOk(cfg, s', x)
  {
    forall x | x in s.h.ballots ensures BallotOk(cfg, s', x) {
      assert BallotOk(cfg, s, x);
      BallotKept(cfg, s, s', i, x);
    }
  }

  lemma DecisionKept(cfg: Config, s: Snapshot, s': Snapshot, i: nat, x: nat)
    requires Grows(cfg, s, s', i) && x in s.h.decisions && DecisionOk(cfg, s, x)
    ensures DecisionOk(cfg, s', x)
  {
    CardinalityGrows(s.h.acks[x], s'.h.acks[x]);
  }

  lemma HistoryKept(cfg: Config, s: Snapshot, s': Snapshot, i: nat)
    requires Grows(cfg, s, s', i) && HistoryOk(cfg, s)
    requires s'.h.requests == s.h.requests && s'.h.decisions == s.h.decisions && s'.h.announced == s.h.announced
    requires forall x :: x in s'.h.ballots ==> BallotOk(cfg, s', x)
    ensures HistoryOk(cfg, s')
  {
    forall x | x in s.h.decisions ensures DecisionOk(cfg, s', x) {
      assert DecisionOk(cfg, s, x);
      DecisionKept(cfg, s, s', i, x);
    }
    forall ts | ts in s.h.requests ensures RequestOk(cfg, s', ts) { assert RequestOk(cfg, s, ts); }
  }

  /** A token that is still live keeps its meaning if what it announces has not happened. */
  lemma LiveKept(cfg: Config, s: Snapshot, s': Snapshot, i: nat, t: Token)
    requires Grows(cfg, s, s', i) && LiveOk(cfg, s, t)
    requires t.stage == AtRequest ==> t.id !in s'.h.created[s.h.requests[t.id].dst]
    requires t.stage == AtProposal ==> t.peer !in s'.h.acks[t.id]
    requires t.stage == AtDecision ==> t.id !in Ids(s'.h.recorded[t.peer])
    requires t.stage == AtAck ==> t.peer !in s'.h.dacks[t.id]
    ensures LiveOk(cfg, s', t)
  {
    if t.stage == AtAck { assert ServerGrows(s, s', t.peer); }
  }

  /** A move that creates nothing, counts nothing and records nothing keeps every token. */
  lemma AllLiveKept(cfg: Config, s: Snapshot, s': Snapshot, i: nat)
    requires Grows(cfg, s, s', i) && (forall t :: t in s.live ==> LiveOk(cfg, s, t)) && s'.live <= s.live
    requires s'.h.created == s.h.created && s'.h.acks == s.h.acks && s'.h.dacks == s.h.dacks
    requires s'.h.recorded == s.h.recorded
    ensures forall t :: t in s'.live ==> LiveOk(cfg, s', t)
  {
  }

  lemma Assemble(cfg: Config, s: Snapshot, s': Snapshot, i: nat)
    requires Safe(cfg, s) && Grows(cfg, s, s', i) && (i < cfg.n ==> ServerOk(cfg, s', i))
    requires HistoryOk(cfg, s') && forall t :: t in s'.live ==> LiveOk(cfg, s', t)
    ensures Safe(cfg, s')
  {
    forall j | 0 <= j < cfg.n ensures ServerOk(cfg, s', j) {
      assert ServerOk(cfg, s, j);
      if j != i { OtherServer(cfg, s, s', i, j); }
    }
  }

  // ---------- Facts about one proposal ----------

  lemma FlightFacts(cfg: Config, s: Snapshot, i: nat, id: nat)
    requires Safe(cfg, s) && i < cfg.n && id in s.servers[i].proposals
    ensures FlightRecord(cfg, s.h, i, id, s.servers[i].proposals[id])
    ensures id in s.h.ballots && s.h.ballots[id].proposer == i && id !in Ids(s.h.recorded[i])
  {
    assert ServerOk(cfg, s, i);
  }

  lemma RecordedFacts(cfg: Config, s: Snapshot, i: nat, id: nat)
    requires Safe(cfg, s) && i < cfg.n && id in Ids(s.h.recorded[i])
    ensures id in s.h.decisions && id in s.h.ballots
  {
    assert ServerOk(cfg, s, i);
    var k :| 0 <= k < |s.h.recorded[i]| && s.h.recorded[i][k].id == id;
    assert DecidedRow(cfg, s.h, i, s.h.recorded[i][k]);
  }

  lemma BallotFact(cfg: Config, s: Snapshot, id: nat)
    requires Safe(cfg, s) && id in s.h.ballots
    ensures BallotOk(cfg, s, id)
  {
  }

  lemma DecisionFact(cfg: Config, s: Snapshot, id: nat)
    requires Safe(cfg, s)
    ensures DecisionOk(cfg, s, id)
  {
    assert id in s.h.decisions ==> DecisionOk(cfg, s, id);
  }

  lemma BallotCreator(cfg: Config, s: Snapshot, id: nat)
    requires Safe(cfg, s) && id in s.h.ballots
    ensures s.h.ballots[id].proposer < cfg.n && CreatedBy(cfg, s.h, s.h.ballots[id].proposer, id)
    ensures id in s.h.issued[s.h.ballots[id].proposer]
    ensures id in s.h.created[s.h.ballots[id].proposer]
  {
    assert BallotOk(cfg, s, id);
    var p := s.h.ballots[id].proposer;
    assert ServerOk(cfg, s, p);
    var k :| 0 <= k < |s.h.issued[p]| && s.h.issued[p][k] == id;
    assert s.h.created[p][k] == id;
  }

  lemma HeadIsCreated(cfg: Config, s: Snapshot, i: nat)
    requires Safe(cfg, s) && i < cfg.n && s.servers[i].waiting != []
    ensures CreatedBy(cfg, s.h, i, s.servers[i].waiting[0].id)
    ensures WaitingRecord(s.h, i, s.servers[i].waiting[0])
    ensures s.servers[i].waiting[0].id !in s.h.issued[i]
  {
    assert ServerOk(cfg, s, i);
    var created, k := s.h.created[i], |s.h.issued[i]|;
    assert created[k] == s.servers[i].waiting[0].id;
    forall j | 0 <= j < k ensures s.h.issued[i][j] != created[k] { assert created[j] == s.h.issued[i][j]; }
  }

  /** The head of a waiting queue has never been broadcast, so nothing is known about its id. */
  lemma HeadIsNew(cfg: Config, s: Snapshot, i: nat)
    requires Safe(cfg, s) && i < cfg.n && s.servers[i].waiting != []
    ensures CreatedBy(cfg, s.h, i, s.servers[i].waiting[0].id)
    ensures WaitingRecord(s.h, i, s.servers[i].waiting[0])
    ensures s.servers[i].waiting[0].id !in s.h.ballots && s.servers[i].waiting[0].id !in s.h.decisions
    ensures forall j :: 0 <= j < cfg.n ==> s.servers[i].waiting[0].id !in s.servers[j].proposals
    ensures forall j :: 0 <= j < cfg.n ==> s.servers[i].waiting[0].id !in Ids(s.h.recorded[j])
  {
    var id := s.servers[i].waiting[0].id;
    HeadIsCreated(cfg, s, i);
    if id in s.h.ballots { BallotCreator(cfg, s, id); }
    assert DecisionOk(cfg, s, id);
    forall j | 0 <= j < cfg.n ensures id !in s.servers[j].proposals && id !in Ids(s.h.recorded[j]) {
      if id in s.servers[j].proposals { FlightFacts(cfg, s, j, id); }
      if id in Ids(s.h.recorded[j]) { RecordedFacts(cfg, s, j, id); }
    }
  }

  // ---------- Moves that only lose or gain a token ----------

  lemma ForgetSafe(cfg: Config, s: Snapshot, t: Token)
    requires Safe(cfg, s)
    ensures Safe(cfg, Forget(s, t))
  {
    Unmoved(cfg, s, Forget(s, t));
  }

  lemma AdvanceSafe(cfg: Config, s: Snapshot, t: nat)
    requires Safe(cfg, s) && s.now <= t
    ensures Safe(cfg, s.(now := t))
  {
    Unmoved(cfg, s, s.(now := t));
  }

  lemma RoundSafe(cfg: Config, s: Snapshot, i: nat)
    requires Safe(cfg, s) && i < cfg.n
    ensures Safe(cfg, s.(h := NoteRound(s.h, i)))
  {
    Unmoved(cfg, s, s.(h := NoteRound(s.h, i)));
  }

  /** No server moves: at most time passes, tokens vanish and rounds are counted. */
  lemma Unmoved(cfg: Config, s: Snapshot, s': Snapshot)
    requires Safe(cfg, s) && s.now <= s'.now && s'.servers == s.servers && s'.live <= s.live
    requires |s'.h.rounds| == cfg.n && s'.h == s.h.(rounds := s'.h.rounds)
    ensures Safe(cfg, s')
  {
    UnmovedGrows(cfg, s, s');
    hide ServerOk, BallotOk, DecisionOk, RequestOk, LiveOk, AnnouncedOk, Grows;
    BallotsKept(cfg, s, s', cfg.n);
    HistoryKept(cfg, s, s', cfg.n);
    AllLiveKept(cfg, s, s', cfg.n);
    Assemble(cfg, s, s', cfg.n);
  }

  lemma UnmovedGrows(cfg: Config, s: Snapshot, s': Snapshot)
    requires Shape(cfg, s) && s.now <= s'.now && s'.servers == s.servers && s'.live <= s.live
    requires |s'.h.rounds| == cfg.n && s'.h == s.h.(rounds := s'.h.rounds)
    ensures Grows(cfg, s, s', cfg.n)
  {
  }

  lemma RejectServer(cfg: Config, s: Snapshot, req: Request, i: nat)
    requires Shape(cfg, s) && i < cfg.n && ServerOk(cfg, s, i)
    requires forall j :: 0 <= j < cfg.n ==> req.timestamp !in s.h.created[j]
    ensures Shape(cfg, Reject(s, req)) && ServerOk(cfg, Reject(s, req), i)
  {
  }

  lemma RejectHistory(cfg: Config, s: Snapshot, req: Request)
    requires Shape(cfg, s) && HistoryOk(cfg, s) && req.timestamp in s.h.requests
    ensures Shape(cfg, Reject(s, req)) && HistoryOk(cfg, Reject(s, req))
  {
    var s' := Reject(s, req);
    forall id | id in s.h.ballots ensures BallotOk(cfg, s', id) { assert BallotOk(cfg, s, id); }
    forall id | id in s.h.decisions ensures DecisionOk(cfg, s', id) { assert DecisionOk(cfg, s, id); }
    forall ts | ts in s.h.requests ensures RequestOk(cfg, s', ts) { assert RequestOk(cfg, s, ts); }
  }

  lemma RejectSafe(cfg: Config, s: Snapshot, req: Request)
    requires Safe(cfg, s) && Token(AtRequest, req.timestamp, 0) in s.live
    ensures Safe(cfg, Reject(s, req))
  {
    hide ServerOk, HistoryOk;
    var s' := Reject(s, req);
    assert LiveOk(cfg, s, Token(AtRequest, req.timestamp, 0));
    NotYetCreated(cfg, s, req.timestamp);
    forall i | 0 <= i < cfg.n ensures ServerOk(cfg, s', i) { RejectServer(cfg, s, req, i); }
    RejectHistory(cfg, s, req);
  }

  /** Only the server a request is addressed to ever creates its proposal. */
  lemma NotYetCreated(cfg: Config, s: Snapshot, ts: nat)
    requires Safe(cfg, s) && Token(AtRequest, ts, 0) in s.live
    ensures forall j :: 0 <= j < cfg.n ==> ts !in s.h.created[j]
  {
    assert LiveOk(cfg, s, Token(AtRequest, ts, 0));
    forall j | 0 <= j < cfg.n ensures ts !in s.h.created[j] {
      assert ServerOk(cfg, s, j);
      assert ts in s.h.created[j] ==> CreatedBy(cfg, s.h, j, ts);
    }
  }

  ghost predicate CanSubmit(cfg: Config, s: Snapshot, dst: nat) {
    && Safe(cfg, s) && dst < cfg.n && s.now !in s.h.requests
    && (forall i :: 0 <= i < cfg.n ==> s.now !in s.h.created[i]) && s.now !in s.h.rejected
  }

  lemma SubmitGrows(cfg: Config, s: Snapshot, value: nat, dst: nat)
    requires Shape(cfg, s) && dst < cfg.n && s.now !in s.h.requests
    ensures Grows(cfg, s, Submit(s, value, dst), cfg.n)
  {
  }

  lemma SubmitLive(cfg: Config, s: Snapshot, value: nat, dst: nat)
    requires Shape(cfg, s) && dst < cfg.n && s.now !in s.h.requests
    requires forall i :: 0 <= i < cfg.n ==> s.now !in s.h.created[i]
    requires s.now !in s.h.rejected && forall t :: t in s.live ==> LiveOk(cfg, s, t)
    ensures Shape(cfg, Submit(s, value, dst))
    ensures forall t :: t in Submit(s, value, dst).live ==> LiveOk(cfg, Submit(s, value, dst), t)
  {
  }

  lemma SubmitHistory(cfg: Config, s: Snapshot, value: nat, dst: nat)
    requires Shape(cfg, s) && dst < cfg.n && HistoryOk(cfg, s) && Grows(cfg, s, Submit(s, value, dst), cfg.n)
    ensures HistoryOk(cfg, Submit(s, value, dst))
  {
    var s' := Submit(s, value, dst);
    BallotsKept(cfg, s, s', cfg.n);
    forall x | x in s.h.decisions ensures DecisionOk(cfg, s', x) { assert DecisionOk(cfg, s, x); }
    forall ts | ts in s'.h.requests ensures RequestOk(cfg, s', ts) { assert RequestOk(cfg, s, ts); }
  }

  lemma SubmitSafe(cfg: Config, s: Snapshot, value: nat, dst: nat)
    requires CanSubmit(cfg, s, dst)
    ensures Safe(cfg, Submit(s, value, dst))
  {
    SubmitGrows(cfg, s, value, dst);
    SubmitLive(cfg, s, value, dst);
    SubmitHistory(cfg, s, value, dst);
    Assemble(cfg, s, Submit(s, value, dst), cfg.n);
  }

  // ---------- Creating ----------

  ghost predicate CanCreate(cfg: Config, s: Snapshot, i: nat, req: Request) {
    && Safe(cfg, s) && i < cfg.n && Token(AtRequest, req.timestamp, 0) in s.live
    && req.timestamp in s.h.requests && s.h.requests[req.timestamp] == RequestInfo(req.value, i)
    && (cfg.async ==> i == cfg.leader) && |s.servers[i].waiting| <= QUEUE_LIMIT
  }

  lemma CreateGrows(cfg: Config, s: Snapshot, i: nat, req: Request)
    requires Shape(cfg, s) && i < cfg.n
    ensures Grows(cfg, s, Create(s, i, req), i)
  {
  }

  lemma CreateOwn(cfg: Config, s: Snapshot, i: nat, req: Request)
    requires Shape(cfg, s) && i < cfg.n && ServerOk(cfg, s, i) && LiveOk(cfg, s, Token(AtRequest, req.timestamp, 0))
    requires s.h.requests[req.timestamp] == RequestInfo(req.value, i)
    requires (cfg.async ==> i == cfg.leader) && |s.servers[i].waiting| <= QUEUE_LIMIT
    ensures Shape(cfg, Create(s, i, req)) && ServerOk(cfg, Create(s, i, req), i)
  {
  }

  lemma CreateSafe(cfg: Config, s: Snapshot, i: nat, req: Request)
    requires CanCreate(cfg, s, i, req)
    ensures Safe(cfg, Create(s, i, req))
  {
    hide ServerOk, BallotOk;
    var s' := Create(s, i, req);
    CreateGrows(cfg, s, i, req);
    assert ServerOk(cfg, s, i) && LiveOk(cfg, s, Token(AtRequest, req.timestamp, 0));
    CreateOwn(cfg, s, i, req);
    BallotsKept(cfg, s, s', i);
    HistoryKept(cfg, s, s', i);
    forall t | t in s'.live ensures LiveOk(cfg, s', t) {
      assert LiveOk(cfg, s, t);
      LiveKept(cfg, s, s', i, t);
    }
    Assemble(cfg, s, s', i);
  }

  // ---------- Issuing ----------

  ghost predicate CanIssue(cfg: Config, s: Snapshot, i: nat) {
    Safe(cfg, s) && i < cfg.n && s.servers[i].waiting != []
  }

  lemma IssueHistoryGrows(h: History, i: nat, v: Server, now: nat)
    requires i < |h.issued| && i < |h.rounds| && (v.waiting != [] ==> v.waiting[0].id !in h.ballots)
    ensures HistoryGrows(h, NoteIssue(h, i, v, now), i)
  {
  }

  lemma IssueGrows(cfg: Config, s: Snapshot, i: nat)
    requires Shape(cfg, s) && i < cfg.n && s.servers[i].waiting != []
    requires s.servers[i].waiting[0].id !in s.h.ballots
    ensures Grows(cfg, s, Issue(cfg, s, i), i)
  {
    hide HistoryGrows;
    IssueHistoryGrows(s.h, i, s.servers[i], s.now);
  }

  lemma IssueOwnFlight(cfg: Config, s: Snapshot, i: nat)
    requires CanIssue(cfg, s, i)
    ensures FlightOk(cfg, Issue(cfg, s, i), i)
  {
    HeadIsNew(cfg, s, i);
    var s' := Issue(cfg, s, i);
    assert WaitingRecord(s.h, i, s.servers[i].waiting[0]);
    forall id | id in s'.servers[i].proposals
      ensures FlightRecord(cfg, s'.h, i, id, s'.servers[i].proposals[id]) && id !in Ids(s.h.recorded[i])
    {
      if id in s.servers[i].proposals { FlightFacts(cfg, s, i, id); }
    }
  }

  lemma IssueOwnQueue(cfg: Config, s: Snapshot, i: nat)
    requires Shape(cfg, s) && i < cfg.n && s.servers[i].waiting != []
    requires CreatedOk(cfg, s.h, i) && WaitingOk(s, i) && IssuedOk(s.h, i)
    requires s.servers[i].waiting[0].id !in s.h.ballots
    ensures Shape(cfg, Issue(cfg, s, i)) && CreatedOk(cfg, Issue(cfg, s, i).h, i)
    ensures WaitingOk(Issue(cfg, s, i), i) && IssuedOk(Issue(cfg, s, i).h, i)
  {
    var s' := Issue(cfg, s, i);
    var v := s.servers[i];
    assert IdsInOrder(v.waiting) == [v.waiting[0].id] + IdsInOrder(v.waiting[1..]);
    forall r | r in v.waiting[1..] ensures WaitingRecord(s'.h, i, r) { assert WaitingRecord(s.h, i, r); }
    forall id | id in s'.h.created[i] ensures CreatedBy(cfg, s'.h, i, id) { assert CreatedBy(cfg, s.h, i, id); }
  }

  lemma IssueOwn(cfg: Config, s: Snapshot, i: nat)
    requires CanIssue(cfg, s, i)
    ensures ServerOk(cfg, Issue(cfg, s, i), i)
  {
    var s' := Issue(cfg, s, i);
    HeadIsNew(cfg, s, i);
    IssueGrows(cfg, s, i);
    assert ServerOk(cfg, s, i);
    IssueOwnFlight(cfg, s, i);
    IssueOwnQueue(cfg, s, i);
    RecordedKept(cfg, s, s', i, i);
    AcceptedKept(cfg, s, s', i, i);
  }

  lemma IssueBallots(cfg: Config, s: Snapshot, i: nat)
    requires CanIssue(cfg, s, i)
    ensures forall x :: x in Issue(cfg, s, i).h.ballots ==> BallotOk(cfg, Issue(cfg, s, i), x)
  {
    var s' := Issue(cfg, s, i);
    HeadIsNew(cfg, s, i);
    IssueGrows(cfg, s, i);
    forall x | x in s'.h.ballots ensures BallotOk(cfg, s', x) {
      if x in s.h.ballots {
        assert BallotOk(cfg, s, x);
        BallotKept(cfg, s, s', i, x);
      } else {
        assert s'.h.issued[i][|s.h.issued[i]|] == x;
      }
    }
  }

  lemma IssueLive(cfg: Config, s: Snapshot, i: nat)
    requires CanIssue(cfg, s, i)
    ensures forall t :: t in Issue(cfg, s, i).live ==> LiveOk(cfg, Issue(cfg, s, i), t)
  {
    var s' := Issue(cfg, s, i);
    HeadIsNew(cfg, s, i);
    IssueGrows(cfg, s, i);
    forall t | t in s'.live ensures LiveOk(cfg, s', t) {
      if t in s.live {
        assert LiveOk(cfg, s, t);
        LiveKept(cfg, s, s', i, t);
      }
    }
  }

  lemma IssueSafe(cfg: Config, s: Snapshot, i: nat)
    requires CanIssue(cfg, s, i)
    ensures Safe(cfg, Issue(cfg, s, i))
  {
    var s' := Issue(cfg, s, i);
    HeadIsNew(cfg, s, i);
    IssueGrows(cfg, s, i);
    IssueOwn(cfg, s, i);
    IssueBallots(cfg, s, i);
    HistoryKept(cfg, s, s', i);
    IssueLive(cfg, s, i);
    Assemble(cfg, s, s', i);
  }

  lemma TakeTurnSafe(cfg: Config, s: Snapshot, i: nat)
    requires Safe(cfg, s) && i < cfg.n
    ensures Safe(cfg, TakeTurn(cfg, s, i))
  {
    ForgetSafe(cfg, s, Token(AtTimer, 0, i));
    if s.now < cfg.stop && s.servers[i].waiting != [] {
      IssueSafe(cfg, Forget(s, Token(AtTimer, 0, i)), i);
    }
  }

  lemma TakeSlotSafe(cfg: Config, s: Snapshot, i: nat)
    requires Safe(cfg, s) && i < cfg.n
    ensures Safe(cfg, TakeSlot(cfg, s, i))
  {
    if s.now >= cfg.stop {
      ForgetSafe(cfg, s, Token(AtTimer, 0, i));
    } else if s.servers[i].waiting == [] {
      RoundSafe(cfg, s, i);
    } else {
      IssueSafe(cfg, s, i);
      RoundSafe(cfg, Issue(cfg, s, i), i);
    }
  }

  // ---------- Accepting ----------

  lemma AcceptSafe(cfg: Config, s: Snapshot, a: nat, f: Frame)
    requires Safe(cfg, s) && a < cfg.n && a != f.proposerId
    requires SameBallot(s.h, f.proposalId, f.proposerId, f.value, f.proposeTime)
    ensures Safe(cfg, Accept(s, a, f))
  {
    var s' := Accept(s, a, f);
    assert ServerOk(cfg, s, a);
    AcceptGrows(cfg, s, a, f);
    QueueKept(cfg, s, s', a, a);
    FlightKept(cfg, s, s', a, a);
    RecordedKept(cfg, s, s', a, a);
    BallotsKept(cfg, s, s', a);
    HistoryKept(cfg, s, s', a);
    AllLiveKept(cfg, s, s', a);
    Assemble(cfg, s, s', a);
  }

  lemma AcceptGrows(cfg: Config, s: Snapshot, a: nat, f: Frame)
    requires Shape(cfg, s) && a < cfg.n
    ensures Grows(cfg, s, Accept(s, a, f), a)
  {
  }

  // ---------- Counting an ACCEPT ----------

  ghost predicate CanCountAck(cfg: Config, s: Snapshot, i: nat, id: nat, a: nat) {
    && Safe(cfg, s) && i < cfg.n && id in s.servers[i].proposals
    && Token(AtProposal, id, a) in s.live && a < cfg.n && id in s.servers[a].accepted
  }

  lemma CountAckGrows(cfg: Config, s: Snapshot, i: nat, id: nat, a: nat)
    requires Shape(cfg, s) && i < cfg.n && id in s.servers[i].proposals
    requires id in s.h.ballots && s.h.ballots[id].proposer == i && id in s.h.acks
    ensures Grows(cfg, s, CountAck(s, i, id, a), i)
  {
  }

  lemma CountAckFlight(cfg: Config, s: Snapshot, i: nat, id: nat, a: nat)
    requires Shape(cfg, s) && i < cfg.n && id in s.servers[i].proposals && FlightOk(cfg, s, i)
    requires id in s.h.acks && a !in s.h.acks[id]
    ensures Shape(cfg, CountAck(s, i, id, a)) && FlightOk(cfg, CountAck(s, i, id, a), i)
  {
    var s' := CountAck(s, i, id, a);
    forall x | x in s'.servers[i].proposals ensures FlightRecord(cfg, s'.h, i, x, s'.servers[i].proposals[x]) {
      assert FlightRecord(cfg, s.h, i, x, s.servers[i].proposals[x]);
    }
  }

  /** Counting touches nothing of the server but its proposals in flight. */
  lemma CountedOwn(cfg: Config, s: Snapshot, s': Snapshot, i: nat)
    requires Grows(cfg, s, s', i) && i < cfg.n && ServerOk(cfg, s, i) && FlightOk(cfg, s', i)
    requires s'.servers[i] == s.servers[i].(proposals := s'.servers[i].proposals)
    requires (Token(AtStop, 0, i) in s'.live ==> Token(AtStop, 0, i) in s.live)
    requires s'.h.created == s.h.created && s'.h.issued == s.h.issued && s'.h.recorded == s.h.recorded
    requires s'.h.cut == s.h.cut
    ensures ServerOk(cfg, s', i)
  {
    QueueKept(cfg, s, s', i, i);
    RecordedKept(cfg, s, s', i, i);
    AcceptedKept(cfg, s, s', i, i);
  }

  lemma CountAckOwn(cfg: Config, s: Snapshot, i: nat, id: nat, a: nat)
    requires Shape(cfg, s) && i < cfg.n && id in s.servers[i].proposals && ServerOk(cfg, s, i)
    requires id in s.h.ballots && s.h.ballots[id].proposer == i && id in s.h.acks && a !in s.h.acks[id]
    ensures Shape(cfg, CountAck(s, i, id, a)) && ServerOk(cfg, CountAck(s, i, id, a), i)
  {
    CountAckGrows(cfg, s, i, id, a);
    CountAckFlight(cfg, s, i, id, a);
    CountedOwn(cfg, s, CountAck(s, i, id, a), i);
  }

  lemma CountAckBallots(cfg: Config, s: Snapshot, i: nat, id: nat, a: nat)
    requires Shape(cfg, s) && i < cfg.n && id in s.servers[i].proposals
    requires id in s.h.ballots && s.h.ballots[id].proposer == i && id in s.h.acks
    requires a < cfg.n && id in s.servers[a].accepted && a != i
    requires forall x :: x in s.h.ballots ==> BallotOk(cfg, s, x)
    ensures Shape(cfg, CountAck(s, i, id, a))
    ensures forall x :: x in s.h.ballots ==> BallotOk(cfg, CountAck(s, i, id, a), x)
  {
  }

  lemma CountAckLive(cfg: Config, s: Snapshot, i: nat, id: nat, a: nat)
    requires Shape(cfg, s) && i < cfg.n && id in s.servers[i].proposals
    requires id in s.h.ballots && s.h.ballots[id].proposer == i && id in s.h.acks
    requires forall t :: t in s.live ==> LiveOk(cfg, s, t)
    ensures Shape(cfg, CountAck(s, i, id, a))
    ensures forall t :: t in CountAck(s, i, id, a).live ==> LiveOk(cfg, CountAck(s, i, id, a), t)
  {
  }

  lemma CountAckSafe(cfg: Config, s: Snapshot, i: nat, id: nat, a: nat)
    requires CanCountAck(cfg, s, i, id, a)
    ensures Safe(cfg, CountAck(s, i, id, a))
  {
    var s' := CountAck(s, i, id, a);
    FlightFacts(cfg, s, i, id);
    assert LiveOk(cfg, s, Token(AtProposal, id, a)) && ServerOk(cfg, s, i);
    CountAckGrows(cfg, s, i, id, a);
    CountAckOwn(cfg, s, i, id, a);
    CountAckBallots(cfg, s, i, id, a);
    HistoryKept(cfg, s, s', i);
    CountAckLive(cfg, s, i, id, a);
    Assemble(cfg, s, s', i);
  }

  // ---------- Deciding ----------

  ghost predicate CanDecide(cfg: Config, s: Snapshot, i: nat, id: nat) {
    && Safe(cfg, s) && i < cfg.n && id in s.servers[i].proposals
    && s.servers[i].proposals[id].decisionTime == 0 && s.servers[i].proposals[id].numAck > cfg.n / 2
    && id in s.h.acks && s.h.acks[id] != {}
  }

  lemma IsUndecided(cfg: Config, s: Snapshot, i: nat, id: nat)
    requires CanDecide(cfg, s, i, id)
    ensures id !in s.h.decisions && id in s.h.ballots && s.h.ballots[id].proposer == i
    ensures s.h.ballots[id].proposeTime <= s.now && s.servers[i].proposals[id].numAck == 1 + |s.h.acks[id]|
    ensures id in s.h.dacks && s.h.dacks[id] == {}
    ensures forall j :: 0 <= j < cfg.n ==> id !in Ids(s.h.recorded[j])
  {
    FlightFacts(cfg, s, i, id);
    assert BallotOk(cfg, s, id) && DecisionOk(cfg, s, id);
    forall j | 0 <= j < cfg.n ensures id !in Ids(s.h.recorded[j]) {
      if id in Ids(s.h.recorded[j]) { RecordedFacts(cfg, s, j, id); }
    }
  }

  lemma DecideHistoryGrows(h: History, i: nat, id: nat, now: nat)
    requires id in h.ballots && h.ballots[id].proposer == i && id !in h.decisions
    ensures HistoryGrows(h, NoteDecision(h, id, now), i)
  {
  }

  lemma DecideGrows(cfg: Config, s: Snapshot, i: nat, id: nat)
    requires Shape(cfg, s) && i < cfg.n && id in s.servers[i].proposals && id !in s.h.decisions
    requires id in s.h.ballots && s.h.ballots[id].proposer == i
    ensures Grows(cfg, s, Decide(cfg, s, i, id), i)
  {
    hide HistoryGrows;
    DecideHistoryGrows(s.h, i, id, s.now);
  }

  lemma DecideFlight(cfg: Config, s: Snapshot, i: nat, id: nat)
    requires Shape(cfg, s) && i < cfg.n && id in s.servers[i].proposals && FlightOk(cfg, s, i)
    requires id in s.h.ballots && s.h.ballots[id].proposer == i && id !in s.h.decisions
    requires id in s.h.dacks && s.h.dacks[id] == {}
    ensures Shape(cfg, Decide(cfg, s, i, id)) && FlightOk(cfg, Decide(cfg, s, i, id), i)
  {
    var s' := Decide(cfg, s, i, id);
    forall x | x in s'.servers[i].proposals ensures FlightRecord(cfg, s'.h, i, x, s'.servers[i].proposals[x]) {
      assert FlightRecord(cfg, s.h, i, x, s.servers[i].proposals[x]);
    }
  }

  lemma DecideOwn(cfg: Config, s: Snapshot, i: nat, id: nat)
    requires Shape(cfg, s) && i < cfg.n && id in s.servers[i].proposals && ServerOk(cfg, s, i)
    requires id in s.h.ballots && s.h.ballots[id].proposer == i && id !in s.h.decisions
    requires id in s.h.dacks && s.h.dacks[id] == {}
    ensures Shape(cfg, Decide(cfg, s, i, id)) && ServerOk(cfg, Decide(cfg, s, i, id), i)
  {
    DecideGrows(cfg, s, i, id);
    DecideFlight(cfg, s, i, id);
    CountedOwn(cfg, s, Decide(cfg, s, i, id), i);
  }

  lemma DecideHistory(cfg: Config, s: Snapshot, i: nat, id: nat)
    requires CanDecide(cfg, s, i, id)
    ensures HistoryOk(cfg, Decide(cfg, s, i, id))
  {
    hide ServerOk, LiveOk, BallotOk;
    var s' := Decide(cfg, s, i, id);
    IsUndecided(cfg, s, i, id);
    DecideGrows(cfg, s, i, id);
    BallotsKept(cfg, s, s', i);
    forall x | x in s'.h.decisions ensures DecisionOk(cfg, s', x) { assert DecisionOk(cfg, s, x); }
    forall ts | ts in s.h.requests ensures RequestOk(cfg, s', ts) { assert RequestOk(cfg, s, ts); }
  }

  lemma DecideSafe(cfg: Config, s: Snapshot, i: nat, id: nat)
    requires CanDecide(cfg, s, i, id)
    ensures Safe(cfg, Decide(cfg, s, i, id))
  {
    var s' := Decide(cfg, s, i, id);
    IsUndecided(cfg, s, i, id);
    DecideGrows(cfg, s, i, id);
    assert ServerOk(cfg, s, i);
    DecideOwn(cfg, s, i, id);
    DecideHistory(cfg, s, i, id);
    forall t | t in s'.live ensures LiveOk(cfg, s', t) {
      if t in s.live {
        assert LiveOk(cfg, s, t);
        LiveKept(cfg, s, s', i, t);
      }
    }
    Assemble(cfg, s, s', i);
  }

  // ---------- Counting a DECISION_ACK ----------

  ghost predicate CanCountDecisionAck(cfg: Config, s: Snapshot, i: nat, id: nat, a: nat) {
    && Safe(cfg, s) && i < cfg.n && id in s.servers[i].proposals
    && Token(AtAck, id, a) in s.live
  }

  lemma CountDecisionAckGrows(cfg: Config, s: Snapshot, i: nat, id: nat, a: nat)
    requires Shape(cfg, s) && i < cfg.n && id in s.servers[i].proposals
    requires id in s.h.ballots && s.h.ballots[id].proposer == i && id in s.h.dacks
    ensures Grows(cfg, s, CountDecisionAck(s, i, id, a), i)
  {
  }

  lemma CountDecisionAckFlight(cfg: Config, s: Snapshot, i: nat, id: nat, a: nat)
    requires Shape(cfg, s) && i < cfg.n && id in s.servers[i].proposals && FlightOk(cfg, s, i)
    requires id in s.h.dacks && a !in s.h.dacks[id]
    ensures Shape(cfg, CountDecisionAck(s, i, id, a)) && FlightOk(cfg, CountDecisionAck(s, i, id, a), i)
  {
    var s' := CountDecisionAck(s, i, id, a);
    forall x | x in s'.servers[i].proposals ensures FlightRecord(cfg, s'.h, i, x, s'.servers[i].proposals[x]) {
      assert FlightRecord(cfg, s.h, i, x, s.servers[i].proposals[x]);
    }
  }

  lemma CountDecisionAckOwn(cfg: Config, s: Snapshot, i: nat, id: nat, a: nat)
    requires Shape(cfg, s) && i < cfg.n && id in s.servers[i].proposals && ServerOk(cfg, s, i)
    requires id in s.h.ballots && s.h.ballots[id].proposer == i && id in s.h.dacks && a !in s.h.dacks[id]
    ensures Shape(cfg, CountDecisionAck(s, i, id, a)) && ServerOk(cfg, CountDecisionAck(s, i, id, a), i)
  {
    CountDecisionAckGrows(cfg, s, i, id, a);
    CountDecisionAckFlight(cfg, s, i, id, a);
    CountedOwn(cfg, s, CountDecisionAck(s, i, id, a), i);
  }

  lemma CountDecisionAckBallots(cfg: Config, s: Snapshot, i: nat, id: nat, a: nat)
    requires Shape(cfg, s) && i < cfg.n && id in s.servers[i].proposals
    requires id in s.h.ballots && s.h.ballots[id].proposer == i && id in s.h.dacks
    requires a < cfg.n && id in Ids(s.h.recorded[a]) && a != i && id in s.h.decisions
    requires forall x :: x in s.h.ballots ==> BallotOk(cfg, s, x)
    ensures Shape(cfg, CountDecisionAck(s, i, id, a))
    ensures forall x :: x in s.h.ballots ==> BallotOk(cfg, CountDecisionAck(s, i, id, a), x)
  {
  }

  lemma CountDecisionAckLive(cfg: Config, s: Snapshot, i: nat, id: nat, a: nat)
    requires Shape(cfg, s) && i < cfg.n && id in s.servers[i].proposals
    requires id in s.h.ballots && s.h.ballots[id].proposer == i && id in s.h.dacks
    requires forall t :: t in s.live ==> LiveOk(cfg, s, t)
    ensures Shape(cfg, CountDecisionAck(s, i, id, a))
    ensures forall t :: t in CountDecisionAck(s, i, id, a).live ==> LiveOk(cfg, CountDecisionAck(s, i, id, a), t)
  {
  }

  lemma CountDecisionAckSafe(cfg: Config, s: Snapshot, i: nat, id: nat, a: nat)
    requires CanCountDecisionAck(cfg, s, i, id, a)
    ensures Safe(cfg, CountDecisionAck(s, i, id, a))
  {
    var s' := CountDecisionAck(s, i, id, a);
    FlightFacts(cfg, s, i, id);
    assert LiveOk(cfg, s, Token(AtAck, id, a)) && ServerOk(cfg, s, i);
    CountDecisionAckGrows(cfg, s, i, id, a);
    CountDecisionAckOwn(cfg, s, i, id, a);
    CountDecisionAckBallots(cfg, s, i, id, a);
    HistoryKept(cfg, s, s', i);
    CountDecisionAckLive(cfg, s, i, id, a);
    Assemble(cfg, s, s', i);
  }

  // ---------- Recording ----------

  /** A fresh, justified record may be pushed. */
  lemma RecordedPushed(cfg: Config, s: Snapshot, s': Snapshot, i: nat, r: Record)
    requires Grows(cfg, s, s', i) && i < cfg.n && RecordedOk(cfg, s, i)
    requires s'.h.recorded[i] == s.h.recorded[i] + [r] && r.id !in Ids(s.h.recorded[i])
    requires DecidedRow(cfg, s'.h, i, r)
    ensures RecordedOk(cfg, s', i)
  {
    forall q | q in s'.h.recorded[i] ensures DecidedRow(cfg, s'.h, i, q) {
      if q in s.h.recorded[i] { RowKept(cfg, s.h, s'.h, i, i, q); }
    }
    forall k | 0 <= k < |s.h.recorded[i]| ensures s.h.recorded[i][k].id != r.id {
      assert s.h.recorded[i][k].id in Ids(s.h.recorded[i]);
    }
  }

  ghost predicate CanComplete(cfg: Config, s: Snapshot, i: nat, p: Record) {
    && Safe(cfg, s) && i < cfg.n && p.id in s.servers[i].proposals
    && p == s.servers[i].proposals[p.id].(decisionAckTime := p.decisionAckTime)
    && p.id in s.h.decisions && (cfg.async ==> p.numDecisionAck > cfg.n / 2 && i == cfg.leader)
  }

  lemma CompleteGrows(cfg: Config, s: Snapshot, i: nat, p: Record)
    requires Shape(cfg, s) && i < cfg.n
    ensures Grows(cfg, s, Complete(cfg, s, i, p), i)
  {
    PushId(s.h.recorded[i], p);
  }

  lemma CompleteOwnFlight(cfg: Config, s: Snapshot, i: nat, p: Record)
    requires Shape(cfg, s) && i < cfg.n && FlightOk(cfg, s, i)
    ensures Shape(cfg, Complete(cfg, s, i, p)) && FlightOk(cfg, Complete(cfg, s, i, p), i)
  {
  }

  lemma CompleteOwn(cfg: Config, s: Snapshot, i: nat, p: Record)
    requires Shape(cfg, s) && i < cfg.n && ServerOk(cfg, s, i)
    requires DecidedRow(cfg, s.h, i, p) && p.id !in Ids(s.h.recorded[i])
    ensures Shape(cfg, Complete(cfg, s, i, p)) && ServerOk(cfg, Complete(cfg, s, i, p), i)
  {
    var s' := Complete(cfg, s, i, p);
    CompleteGrows(cfg, s, i, p);
    QueueKept(cfg, s, s', i, i);
    AcceptedKept(cfg, s, s', i, i);
    RecordedPushed(cfg, s, s', i, p);
    CompleteOwnFlight(cfg, s, i, p);
    HeapPushed(s, s', i, p);
  }

  lemma CompleteLive(cfg: Config, s: Snapshot, i: nat, p: Record)
    requires Shape(cfg, s) && i < cfg.n && (cfg.async ==> i == cfg.leader)
    requires p.id in s.h.ballots && s.h.ballots[p.id].proposer == i
    requires forall t :: t in s.live ==> LiveOk(cfg, s, t)
    ensures Shape(cfg, Complete(cfg, s, i, p))
    ensures forall t :: t in Complete(cfg, s, i, p).live ==> LiveOk(cfg, Complete(cfg, s, i, p), t)
  {
    var s' := Complete(cfg, s, i, p);
    CompleteGrows(cfg, s, i, p);
    PushId(s.h.recorded[i], p);
    forall t | t in s'.live ensures LiveOk(cfg, s', t) {
      if t in s.live {
        assert LiveOk(cfg, s, t);
        LiveKept(cfg, s, s', i, t);
      }
    }
  }

  lemma CompleteSafe(cfg: Config, s: Snapshot, i: nat, p: Record)
    requires CanComplete(cfg, s, i, p)
    ensures Safe(cfg, Complete(cfg, s, i, p))
  {
    var s' := Complete(cfg, s, i, p);
    FlightFacts(cfg, s, i, p.id);
    assert ServerOk(cfg, s, i);
    CompleteGrows(cfg, s, i, p);
    CompleteOwn(cfg, s, i, p);
    BallotsKept(cfg, s, s', i);
    HistoryKept(cfg, s, s', i);
    CompleteLive(cfg, s, i, p);
    Assemble(cfg, s, s', i);
  }

  ghost predicate CanLearn(cfg: Config, s: Snapshot, a: nat, f: Frame) {
    && Safe(cfg, s) && a < cfg.n && Token(AtDecision, f.proposalId, a) in s.live
    && SameBallot(s.h, f.proposalId, f.proposerId, f.value, f.proposeTime)
    && f.proposalId in s.h.decisions && f.decisionTime == s.h.decisions[f.proposalId]
  }

  lemma LearnGrows(cfg: Config, s: Snapshot, a: nat, f: Frame)
    requires Shape(cfg, s) && a < cfg.n
    ensures Grows(cfg, s, Learn(cfg, s, a, f), a)
  {
    PushId(s.h.recorded[a], DecidedRecord(f));
  }

  lemma LearnOwnFlight(cfg: Config, s: Snapshot, a: nat, f: Frame)
    requires Shape(cfg, s) && a < cfg.n && FlightOk(cfg, s, a) && f.proposalId !in s.servers[a].proposals
    ensures Shape(cfg, Learn(cfg, s, a, f)) && FlightOk(cfg, Learn(cfg, s, a, f), a)
  {
  }

  lemma LearnOwn(cfg: Config, s: Snapshot, a: nat, f: Frame)
    requires Shape(cfg, s) && a < cfg.n && ServerOk(cfg, s, a) && f.proposalId !in s.servers[a].proposals
    requires DecidedRow(cfg, s.h, a, DecidedRecord(f)) && f.proposalId !in Ids(s.h.recorded[a])
    ensures Shape(cfg, Learn(cfg, s, a, f)) && ServerOk(cfg, Learn(cfg, s, a, f), a)
  {
    var s' := Learn(cfg, s, a, f);
    LearnGrows(cfg, s, a, f);
    QueueKept(cfg, s, s', a, a);
    AcceptedKept(cfg, s, s', a, a);
    RecordedPushed(cfg, s, s', a, DecidedRecord(f));
    LearnOwnFlight(cfg, s, a, f);
    HeapPushed(s, s', a, DecidedRecord(f));
  }

  lemma LearnLive(cfg: Config, s: Snapshot, a: nat, f: Frame)
    requires Shape(cfg, s) && a < cfg.n && LiveOk(cfg, s, Token(AtDecision, f.proposalId, a))
    requires f.proposalId in s.h.dacks && a !in s.h.dacks[f.proposalId]
    requires forall t :: t in s.live ==> LiveOk(cfg, s, t)
    ensures Shape(cfg, Learn(cfg, s, a, f))
    ensures forall t :: t in Learn(cfg, s, a, f).live ==> LiveOk(cfg, Learn(cfg, s, a, f), t)
  {
    var s' := Learn(cfg, s, a, f);
    LearnGrows(cfg, s, a, f);
    PushId(s.h.recorded[a], DecidedRecord(f));
    forall t | t in s'.live ensures LiveOk(cfg, s', t) {
      if t in s.live {
        assert LiveOk(cfg, s, t);
        LiveKept(cfg, s, s', a, t);
      }
    }
  }

  lemma LearnSafe(cfg: Config, s: Snapshot, a: nat, f: Frame)
    requires CanLearn(cfg, s, a, f)
    ensures Safe(cfg, Learn(cfg, s, a, f))
  {
    var s' := Learn(cfg, s, a, f);
    var id := f.proposalId;
    assert LiveOk(cfg, s, Token(AtDecision, id, a)) && ServerOk(cfg, s, a) && BallotOk(cfg, s, id);
    if id in s.servers[a].proposals { FlightFacts(cfg, s, a, id); }
    assert a in s.h.dacks[id] ==> Learner(cfg, s, id, a);
    LearnGrows(cfg, s, a, f);
    LearnOwn(cfg, s, a, f);
    BallotsKept(cfg, s, s', a);
    HistoryKept(cfg, s, s', a);
    LearnLive(cfg, s, a, f);
    Assemble(cfg, s, s', a);
  }

  // ---------- Stopping ----------

  lemma HaltSafe(cfg: Config, s: Snapshot, i: nat)
    requires Safe(cfg, s) && i < cfg.n && Token(AtStop, 0, i) in s.live
    ensures Safe(cfg, Halt(s, i))
  {
    var s' := Halt(s, i);
    assert ServerOk(cfg, s, i);
    HaltGrows(cfg, s, i);
    HaltOwn(cfg, s, i);
    BallotsKept(cfg, s, s', i);
    HistoryKept(cfg, s, s', i);
    AllLiveKept(cfg, s, s', i);
    Assemble(cfg, s, s', i);
  }

  lemma HaltGrows(cfg: Config, s: Snapshot, i: nat)
    requires Shape(cfg, s) && i < cfg.n
    ensures Grows(cfg, s, Halt(s, i), i)
  {
  }

  lemma HaltOwn(cfg: Config, s: Snapshot, i: nat)
    requires Shape(cfg, s) && i < cfg.n && ServerOk(cfg, s, i) && Token(AtStop, 0, i) in s.live
    ensures Shape(cfg, Halt(s, i)) && ServerOk(cfg, Halt(s, i), i)
  {
    var s' := Halt(s, i);
    HaltGrows(cfg, s, i);
    QueueKept(cfg, s, s', i, i);
    FlightKept(cfg, s, s', i, i);
    RecordedKept(cfg, s, s', i, i);
    AcceptedKept(cfg, s, s', i, i);
    assert s.h.recorded[i][..|s.h.recorded[i]|] == s.h.recorded[i] == s.servers[i].decided;
  }
}
