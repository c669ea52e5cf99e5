/** The decided heap and the log drained from it. */
module DecisionLog {
  import opened PaxosData

  /** Index of the first record with the smallest id: the top of the min-heap. */
  function MinIndex(rs: seq<Record>): (m: nat)
    requires rs != []
    ensures m < |rs|
    ensures forall k :: 0 <= k < |rs| ==> rs[m].id <= rs[k].id
  {
    if |rs| == 1 then 0
    else
      var m := MinIndex(rs[1..]);
      if rs[0].id <= rs[1..][m].id then 0 else m + 1
  }

  lemma {:induction false} FirstMinimum(rs: seq<Record>, m: nat)
    requires m < |rs|
    requires forall k :: 0 <= k < |rs| ==> rs[m].id <= rs[k].id
    requires forall k :: 0 <= k < m ==> rs[m].id < rs[k].id
    ensures m == MinIndex(rs)
  {
    if |rs| > 1 {
      var rest := rs[1..];
      if m > 0 { FirstMinimum(rest, m - 1); }
    }
  }

  function RemoveAt<T>(s: seq<T>, k: nat): seq<T>
    requires k < |s|
  {
    s[..k] + s[k + 1..]
  }

  /** The order in which the heap gives up its records. */
  function Drain(rs: seq<Record>): (d: seq<Record>)
    ensures |d| == |rs|
    decreases |rs|
  {
    if rs == [] then []
    else [rs[MinIndex(rs)]] + Drain(RemoveAt(rs, MinIndex(rs)))
  }

  function RowOf(index: nat, r: Record): Row {
    Row(index, r.id, r.nodeId, r.value, r.decisionTime)
  }

  function Rows(rs: seq<Record>): seq<Row> {
    seq(|rs|, k requires 0 <= k < |rs| => RowOf(k, rs[k]))
  }

  ghost function Ids(rs: seq<Record>): set<nat> {
    set k | 0 <= k < |rs| :: rs[k].id
  }

  ghost predicate Sorted(rs: seq<Record>) {
    forall j, k :: 0 <= j < k < |rs| ==> rs[j].id <= rs[k].id
  }

  ghost predicate DistinctIds(rs: seq<Record>) {
    forall j, k :: 0 <= j < k < |rs| ==> rs[j].id != rs[k].id
  }

  /** Two records that print the same apart from their position. */
  ghost predicate SameEntry(r: Record, q: Record) {
    r.id == q.id && r.nodeId == q.nodeId && r.value == q.value && r.decisionTime == q.decisionTime
  }

  /** Records of the same proposal print the same. */
  ghost predicate Agree(rs: seq<Record>, qs: seq<Record>) {
    forall r, q :: r in rs && q in qs && r.id == q.id ==> SameEntry(r, q)
  }

  lemma RemoveAtMultiset(rs: seq<Record>, m: nat)
    requires m < |rs|
    ensures multiset(rs) == multiset(RemoveAt(rs, m)) + multiset{rs[m]}
  {
    assert rs == rs[..m] + [rs[m]] + rs[m + 1..];
  }

  /** The log is a permutation of the heap. */
  lemma {:induction false} DrainPermutes(rs: seq<Record>)
    ensures multiset(Drain(rs)) == multiset(rs)
    decreases |rs|
  {
    if rs != [] {
      var m := MinIndex(rs);
      RemoveAtMultiset(rs, m);
      DrainPermutes(RemoveAt(rs, m));
    }
  }

  lemma DrainMembers(rs: seq<Record>)
    ensures forall r :: r in Drain(rs) <==> r in rs
  {
  }

  /** The log is in the order of proposal ids. */
  lemma {:induction false} DrainSorted(rs: seq<Record>)
    ensures Sorted(Drain(rs))
    decreases |rs|
  {
    if rs != [] {
      var m := MinIndex(rs);
      var rest := RemoveAt(rs, m);
      DrainSorted(rest);
      DrainMembers(rest);
      forall k | 0 <= k < |Drain(rest)| ensures rs[m].id <= Drain(rest)[k].id {
        assert Drain(rest)[k] in rest;
      }
    }
  }

  lemma RemoveAtDistinct(rs: seq<Record>, m: nat)
    requires m < |rs| && DistinctIds(rs)
    ensures DistinctIds(RemoveAt(rs, m)) && Ids(RemoveAt(rs, m)) == Ids(rs) - {rs[m].id}
  {
    var rest := RemoveAt(rs, m);
    forall id ensures id in Ids(rest) <==> id in Ids(rs) - {rs[m].id} {
      if id in Ids(rest) {
        var k :| 0 <= k < |rest| && rest[k].id == id;
        assert rest[k] == if k < m then rs[k] else rs[k + 1];
      }
      if id in Ids(rs) - {rs[m].id} {
        var k :| 0 <= k < |rs| && rs[k].id == id;
        assert rs[k] == if k < m then rest[k] else rest[k - 1];
      }
    }
  }

  lemma SameIds(rs: seq<Record>, qs: seq<Record>)
    requires forall r :: r in rs <==> r in qs
    ensures Ids(rs) == Ids(qs)
  {
    forall id ensures id in Ids(rs) <==> id in Ids(qs) {
      if id in Ids(rs) {
        var k :| 0 <= k < |rs| && rs[k].id == id;
        assert rs[k] in qs;
      }
      if id in Ids(qs) {
        var k :| 0 <= k < |qs| && qs[k].id == id;
        assert qs[k] in rs;
      }
    }
  }

  lemma DrainIds(rs: seq<Record>)
    ensures Ids(Drain(rs)) == Ids(rs)
  {
    DrainMembers(rs);
    SameIds(Drain(rs), rs);
  }

  ghost predicate Strict(rs: seq<Record>) {
    forall j, k :: 0 <= j < k < |rs| ==> rs[j].id < rs[k].id
  }

  lemma StrictFrom(r: Record, rest: seq<Record>)
    requires Strict(rest) && forall id :: id in Ids(rest) ==> r.id < id
    ensures Strict([r] + rest)
  {
    forall k | 0 <= k < |rest| ensures r.id < rest[k].id { assert rest[k].id in Ids(rest); }
  }

  /** With distinct ids the order is strict. */
  lemma {:induction false} DrainStrict(rs: seq<Record>)
    requires DistinctIds(rs)
    ensures Ids(Drain(rs)) == Ids(rs) && Strict(Drain(rs))
    decreases |rs|
  {
    if rs != [] {
      var m := MinIndex(rs);
      var rest := RemoveAt(rs, m);
      RemoveAtDistinct(rs, m);
      DrainStrict(rest);
      StrictFrom(rs[m], Drain(rest));
    }
    DrainIds(rs);
  }

  lemma MinOfSameIds(rs: seq<Record>, qs: seq<Record>)
    requires rs != [] && qs != [] && Ids(rs) == Ids(qs)
    ensures rs[MinIndex(rs)].id == qs[MinIndex(qs)].id
  {
    var r, q := rs[MinIndex(rs)].id, qs[MinIndex(qs)].id;
    assert r in Ids(qs) && q in Ids(rs);
  }

  lemma AgreeWithout(rs: seq<Record>, qs: seq<Record>, m: nat, l: nat)
    requires m < |rs| && l < |qs| && Agree(rs, qs)
    ensures Agree(RemoveAt(rs, m), RemoveAt(qs, l))
  {
  }

  lemma NoIds(rs: seq<Record>)
    ensures rs != [] ==> rs[0].id in Ids(rs)
  {
  }

  /** Heaps that hold the same proposals and agree on them drain to the same entries, however
      differently they were filled. */
  lemma {:induction false} DrainUnique(rs: seq<Record>, qs: seq<Record>)
    requires DistinctIds(rs) && DistinctIds(qs) && Ids(rs) == Ids(qs) && Agree(rs, qs)
    ensures |rs| == |qs| && forall k :: 0 <= k < |rs| ==> SameEntry(Drain(rs)[k], Drain(qs)[k])
    decreases |rs|
  {
    if rs == [] {
      NoIds(qs);
    } else {
      assert rs[0].id in Ids(qs);
      var m, l := MinIndex(rs), MinIndex(qs);
      MinOfSameIds(rs, qs);
      RemoveAtDistinct(rs, m);
      RemoveAtDistinct(qs, l);
      AgreeWithout(rs, qs, m, l);
      DrainUnique(RemoveAt(rs, m), RemoveAt(qs, l));
      assert rs[m] in rs && qs[l] in qs;
    }
  }

  lemma SameRows(rs: seq<Record>, qs: seq<Record>)
    requires DistinctIds(rs) && DistinctIds(qs) && Agree(rs, qs)
    ensures Rows(Drain(rs)) == Rows(Drain(qs)) <==> Ids(rs) == Ids(qs)
  {
    if Ids(rs) == Ids(qs) { DrainUnique(rs, qs); }
    if Rows(Drain(rs)) == Rows(Drain(qs)) {
      DrainStrict(rs);
      DrainStrict(qs);
      RowIds(Drain(rs));
      RowIds(Drain(qs));
    }
  }

  ghost function IdsOfRows(rows: seq<Row>): set<nat> {
    set k | 0 <= k < |rows| :: rows[k].proposalId
  }

  lemma RowIds(rs: seq<Record>)
    ensures IdsOfRows(Rows(rs)) == Ids(rs)
  {
    forall id ensures id in IdsOfRows(Rows(rs)) <==> id in Ids(rs) {
      if id in Ids(rs) {
        var k :| 0 <= k < |rs| && rs[k].id == id;
        assert Rows(rs)[k].proposalId == id;
      }
    }
  }

  lemma StrictOrder(d: seq<Record>, a: nat, b: nat)
    requires Strict(d) && a < |d| && b < |d|
    ensures a < b <==> d[a].id < d[b].id
  {
  }

  /** Any two logs, even of servers that missed different messages, list the proposals they share
      in the same order. */
  lemma SharedOrder(rs: seq<Record>, qs: seq<Record>, a: nat, b: nat, c: nat, d: nat)
    requires DistinctIds(rs) && DistinctIds(qs) && a < |rs| && b < |rs| && c < |qs| && d < |qs|
    requires Drain(rs)[a].id == Drain(qs)[c].id && Drain(rs)[b].id == Drain(qs)[d].id
    ensures a < b <==> c < d
  {
    DrainStrict(rs);
    DrainStrict(qs);
    StrictOrder(Drain(rs), a, b);
    StrictOrder(Drain(qs), c, d);
  }
}
