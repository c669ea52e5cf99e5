/** The order in which the Python bindings load their libraries. */
module LoadOrder {

  type Module = string
  type Dependencies = map<Module, seq<Module>>

  // ---------- What the dependencies must be like ----------

  /** Every dependency is itself one of the modules. */
  ghost predicate Closed(deps: Dependencies) {
    forall m, d :: m in deps && d in deps[m] ==> d in deps
  }

  /** Each entry depends on the next. */
  ghost predicate Chain(deps: Dependencies, p: seq<Module>) {
    && |p| > 0
    && (forall i :: 0 <= i < |p| ==> p[i] in deps)
    && (forall i :: 0 <= i < |p| - 1 ==> p[i + 1] in deps[p[i]])
  }

  ghost predicate Cycle(deps: Dependencies, p: seq<Module>) {
    Chain(deps, p) && |p| > 1 && p[0] == p[|p| - 1]
  }

  ghost predicate Acyclic(deps: Dependencies) {
    forall p :: !Cycle(deps, p)
  }

  /** The longest chain of dependencies from this module has `length` steps. */
  ghost predicate Longest(deps: Dependencies, m: Module, length: nat) {
    && (exists p :: Chain(deps, p) && p[0] == m && |p| == length + 1)
    && (forall p :: Chain(deps, p) && p[0] == m ==> |p| <= length + 1)
  }

  // ---------- One round ----------

  predicate CanLoad(deps: Dependencies, m: Module, current: seq<Module>) {
    m in deps && forall d :: d in deps[m] ==> d in current
  }

  function Loadable(deps: Dependencies, pending: seq<Module>, current: seq<Module>): (ms: seq<Module>)
    ensures forall m :: m in ms <==> m in pending && CanLoad(deps, m, current)
  {
    if pending == [] then []
    else
      var rest := Loadable(deps, pending[..|pending| - 1], current);
      var m := pending[|pending| - 1];
      assert pending == pending[..|pending| - 1] + [m];
      if CanLoad(deps, m, current) then rest + [m] else rest
  }

  /** `list.remove`: the first occurrence goes. */
  function Remove(ms: seq<Module>, m: Module): seq<Module>
    requires m in ms
  {
    if ms[0] == m then ms[1..] else [ms[0]] + Remove(ms[1..], m)
  }

  function RemoveAll(ms: seq<Module>, gone: seq<Module>): seq<Module> {
    if gone == [] then ms
    else
      var rest := RemoveAll(ms, gone[..|gone| - 1]);
      if gone[|gone| - 1] in rest then Remove(rest, gone[|gone| - 1]) else rest
  }

  ghost predicate Distinct(ms: seq<Module>) {
    forall j, k :: 0 <= j < k < |ms| ==> ms[j] != ms[k]
  }

  lemma Prepended(m: Module, ms: seq<Module>)
    requires Distinct(ms) && m !in ms
    ensures Distinct([m] + ms)
  {
  }

  lemma {:induction false} RemoveFacts(ms: seq<Module>, m: Module)
    requires m in ms && Distinct(ms)
    ensures |Remove(ms, m)| == |ms| - 1 && Distinct(Remove(ms, m))
    ensures forall x :: x in Remove(ms, m) <==> x in ms && x != m
  {
    assert ms == [ms[0]] + ms[1..];
    if ms[0] == m {
      assert m !in ms[1..];
    } else {
      RemoveFacts(ms[1..], m);
      Prepended(ms[0], Remove(ms[1..], m));
    }
  }

  lemma {:induction false} RemoveAllFacts(ms: seq<Module>, gone: seq<Module>)
    requires Distinct(ms) && Distinct(gone) && forall x :: x in gone ==> x in ms
    ensures |RemoveAll(ms, gone)| == |ms| - |gone| && Distinct(RemoveAll(ms, gone))
    ensures forall x :: x in RemoveAll(ms, gone) <==> x in ms && x !in gone
  {
    if gone != [] {
      var m, others := gone[|gone| - 1], gone[..|gone| - 1];
      assert gone == others + [m];
      RemoveAllFacts(ms, others);
      RemoveFacts(RemoveAll(ms, others), m);
    }
  }

  lemma {:induction false} LoadableDistinct(deps: Dependencies, pending: seq<Module>, current: seq<Module>)
    requires Distinct(pending)
    ensures Distinct(Loadable(deps, pending, current)) && |Loadable(deps, pending, current)| <= |pending|
  {
    if pending != [] { LoadableDistinct(deps, pending[..|pending| - 1], current); }
  }

  // ---------- The order within a round ----------

  ghost predicate Before(ms: seq<Module>, x: Module, y: Module) {
    exists i, j :: 0 <= i < j < |ms| && ms[i] == x && ms[j] == y
  }

  /** Whatever comes earlier in `ms` also comes earlier in `all`. */
  ghost predicate InOrder(ms: seq<Module>, all: seq<Module>) {
    forall a, b :: 0 <= a < b < |ms| ==> Before(all, ms[a], ms[b])
  }

  lemma OrderCarries(ms: seq<Module>, some: seq<Module>, all: seq<Module>)
    requires InOrder(ms, some) && InOrder(some, all)
    ensures InOrder(ms, all)
  {
    forall a, b | 0 <= a < b < |ms| ensures Before(all, ms[a], ms[b]) {
      var i, j :| 0 <= i < j < |some| && some[i] == ms[a] && some[j] == ms[b];
    }
  }

  lemma EarlierStill(ms: seq<Module>, more: seq<Module>, x: Module, y: Module)
    requires Before(ms, x, y)
    ensures Before(more + ms, x, y) && Before(ms + more, x, y)
  {
    var i, j :| 0 <= i < j < |ms| && ms[i] == x && ms[j] == y;
    assert (more + ms)[|more| + i] == x && (more + ms)[|more| + j] == y;
    assert (ms + more)[i] == x && (ms + more)[j] == y;
  }

  /** What a round loads comes in the order in which it was pending. */
  lemma {:induction false} LoadableInOrder(deps: Dependencies, pending: seq<Module>, current: seq<Module>)
    ensures InOrder(Loadable(deps, pending, current), pending)
  {
    if pending != [] {
      var last := |pending| - 1;
      var first, rest := pending[..last], Loadable(deps, pending[..last], current);
      LoadableInOrder(deps, first, current);
      assert pending == first + [pending[last]];
      forall a, b | 0 <= a < b < |rest| ensures Before(pending, rest[a], rest[b]) {
        EarlierStill(first, [pending[last]], rest[a], rest[b]);
      }
      forall a | 0 <= a < |rest| ensures Before(pending, rest[a], pending[last]) {
        assert rest[a] in first;
        var i :| 0 <= i < last && first[i] == rest[a];
        assert pending[i] == rest[a];
      }
    }
  }

  lemma {:induction false} RemoveInOrder(ms: seq<Module>, m: Module)
    requires m in ms
    ensures InOrder(Remove(ms, m), ms) && forall x :: x in Remove(ms, m) ==> x in ms
  {
    assert ms == [ms[0]] + ms[1..];
    if ms[0] == m {
      forall a, b | 0 <= a < b < |ms[1..]| ensures Before(ms, ms[1..][a], ms[1..][b]) {
        assert ms[a + 1] == ms[1..][a] && ms[b + 1] == ms[1..][b];
      }
    } else {
      var rest := Remove(ms[1..], m);
      RemoveInOrder(ms[1..], m);
      forall a, b | 0 <= a < b < |rest| ensures Before(ms, rest[a], rest[b]) {
        EarlierStill(ms[1..], [ms[0]], rest[a], rest[b]);
      }
      forall b | 0 <= b < |rest| ensures Before(ms, ms[0], rest[b]) {
        assert rest[b] in ms[1..];
        var j :| 0 <= j < |ms[1..]| && ms[1..][j] == rest[b];
        assert ms[j + 1] == rest[b];
      }
    }
  }

  lemma SameOrder(ms: seq<Module>)
    ensures InOrder(ms, ms)
  {
  }

  /** And what stays pending keeps its order. */
  lemma {:induction false} RemoveAllInOrder(ms: seq<Module>, gone: seq<Module>)
    ensures InOrder(RemoveAll(ms, gone), ms)
  {
    SameOrder(ms);
    if gone != [] {
      var m, rest := gone[|gone| - 1], RemoveAll(ms, gone[..|gone| - 1]);
      RemoveAllInOrder(ms, gone[..|gone| - 1]);
      if m in rest {
        RemoveInOrder(rest, m);
        OrderCarries(Remove(rest, m), rest, ms);
      }
    }
  }

  /** Every step so far is in the order of the keys, and so is what is pending. */
  ghost predicate KeepsOrder(keys: seq<Module>, pending: seq<Module>, steps: map<nat, seq<Module>>) {
    InOrder(pending, keys) && forall s :: s in steps ==> InOrder(steps[s], keys)
  }

  lemma RoundInOrder(deps: Dependencies, keys: seq<Module>, pending: seq<Module>, current: seq<Module>,
                     steps: map<nat, seq<Module>>, n: nat)
    requires KeepsOrder(keys, pending, steps)
    ensures var ms := Loadable(deps, pending, current);
      KeepsOrder(keys, RemoveAll(pending, ms), steps[n := ms])
  {
    hide InOrder;
    var ms := Loadable(deps, pending, current);
    LoadableInOrder(deps, pending, current);
    OrderCarries(ms, pending, keys);
    RemoveAllInOrder(pending, ms);
    OrderCarries(RemoveAll(pending, ms), pending, keys);
  }

  // ---------- When the rounds end ----------

  /** What is pending after k rounds. */
  function After(deps: Dependencies, pending: seq<Module>, current: seq<Module>, k: nat): seq<Module>
    decreases k
  {
    if k == 0 then pending
    else
      var ms := Loadable(deps, pending, current);
      After(deps, RemoveAll(pending, ms), current + ms, k - 1)
  }

  /** `pending` and `current` split the modules between them. */
  ghost predicate Split(deps: Dependencies, pending: seq<Module>, current: seq<Module>) {
    && Distinct(pending)
    && (forall m :: m in deps <==> m in pending || m in current)
    && (forall m :: m in pending ==> m !in current)
  }

  lemma SplitKept(deps: Dependencies, pending: seq<Module>, current: seq<Module>)
    requires Split(deps, pending, current)
    ensures var ms := Loadable(deps, pending, current);
      Distinct(ms) && Split(deps, RemoveAll(pending, ms), current + ms) && |RemoveAll(pending, ms)| == |pending| - |ms|
  {
    LoadableDistinct(deps, pending, current);
    RemoveAllFacts(pending, Loadable(deps, pending, current));
  }

  ghost predicate Stuck(deps: Dependencies, m: Module, pending: seq<Module>) {
    m in deps && exists d :: d in deps[m] && d in pending
  }

  /** Following pending dependencies of pending modules. */
  lemma {:induction false} Walk(deps: Dependencies, pending: seq<Module>, k: nat) returns (p: seq<Module>)
    requires pending != [] && forall m :: m in pending ==> Stuck(deps, m, pending)
    ensures Chain(deps, p) && |p| == k + 1 && forall i :: 0 <= i < |p| ==> p[i] in pending
    decreases k
  {
    if k == 0 {
      assert pending[0] in pending;
      p := [pending[0]];
    } else {
      var q := Walk(deps, pending, k - 1);
      assert Stuck(deps, q[k - 1], pending);
      var d :| d in deps[q[k - 1]] && d in pending;
      assert Stuck(deps, d, pending);
      p := q + [d];
    }
  }

  lemma {:induction false} Repeats(p: seq<Module>, ms: set<Module>) returns (i: nat, j: nat)
    requires |p| > |ms| && forall k :: 0 <= k < |p| ==> p[k] in ms
    ensures i < j < |p| && p[i] == p[j]
    decreases |p|
  {
    var last := |p| - 1;
    var x := p[last];
    if k :| 0 <= k < last && p[k] == x {
      i, j := k, last;
    } else {
      i, j := Repeats(p[..last], ms - {x});
    }
  }

  lemma SubChain(deps: Dependencies, p: seq<Module>, i: nat, j: nat)
    requires Chain(deps, p) && i < j < |p| && p[i] == p[j]
    ensures Cycle(deps, p[i..j + 1])
  {
  }

  lemma WalkCycles(deps: Dependencies, pending: seq<Module>)
    requires pending != [] && forall m :: m in pending ==> Stuck(deps, m, pending)
    ensures !Acyclic(deps)
  {
    var ms := set m | m in pending;
    var p := Walk(deps, pending, |ms|);
    var i, j := Repeats(p, ms);
    SubChain(deps, p, i, j);
  }

  lemma NoneLoadable(deps: Dependencies, pending: seq<Module>, current: seq<Module>, m: Module)
    requires Closed(deps) && Split(deps, pending, current) && m in pending && !CanLoad(deps, m, current)
    ensures Stuck(deps, m, pending)
  {
  }

  /** With no cycle and nothing missing, every round loads something. */
  lemma SomeLoadable(deps: Dependencies, pending: seq<Module>, current: seq<Module>)
    requires Closed(deps) && Acyclic(deps) && Split(deps, pending, current) && pending != []
    ensures Loadable(deps, pending, current) != []
  {
    if forall m :: m in pending ==> !CanLoad(deps, m, current) {
      forall m | m in pending ensures Stuck(deps, m, pending) { NoneLoadable(deps, pending, current, m); }
      WalkCycles(deps, pending);
    }
  }

  lemma {:induction false} Finishes(deps: Dependencies, pending: seq<Module>, current: seq<Module>, k: nat)
    requires Closed(deps) && Acyclic(deps) && Split(deps, pending, current) && |pending| <= k
    ensures After(deps, pending, current, k) == []
    decreases k
  {
    hide Closed, Acyclic, Split, CanLoad, RemoveAll;
    if k > 0 {
      var ms := Loadable(deps, pending, current);
      if pending != [] { SomeLoadable(deps, pending, current); }
      SplitKept(deps, pending, current);
      Finishes(deps, RemoveAll(pending, ms), current + ms, k - 1);
    }
  }

  /** Modules that wait for each other, or for something that is not there. */
  ghost predicate Blocked(deps: Dependencies, b: set<Module>) {
    b != {} && forall m {:trigger Waits(deps, b, m)} :: m in b ==> Waits(deps, b, m)
  }

  ghost predicate Waits(deps: Dependencies, b: set<Module>, m: Module) {
    m in deps && exists d :: d in deps[m] && (d in b || d !in deps)
  }

  lemma {:induction false} BlockedStays(deps: Dependencies, pending: seq<Module>, current: seq<Module>,
                                        b: set<Module>, k: nat)
    requires Split(deps, pending, current) && Blocked(deps, b) && forall m :: m in b ==> m in pending
    ensures After(deps, pending, current, k) != []
    decreases k
  {
    hide Split, RemoveAll, Loadable, CanLoad, Waits;
    if k == 0 {
      var m :| m in b;
    } else {
      var ms := Loadable(deps, pending, current);
      SplitKept(deps, pending, current);
      forall m | m in b ensures m in RemoveAll(pending, ms) { BlockedRemains(deps, pending, current, b, m); }
      BlockedStays(deps, RemoveAll(pending, ms), current + ms, b, k - 1);
    }
  }

  lemma BlockedRemains(deps: Dependencies, pending: seq<Module>, current: seq<Module>, b: set<Module>, m: Module)
    requires Split(deps, pending, current) && Blocked(deps, b) && m in b && forall x :: x in b ==> x in pending
    ensures m in RemoveAll(pending, Loadable(deps, pending, current))
  {
    LoadableDistinct(deps, pending, current);
    RemoveAllFacts(pending, Loadable(deps, pending, current));
    BlockedWaits(deps, pending, current, b, m);
  }

  lemma BlockedWaits(deps: Dependencies, pending: seq<Module>, current: seq<Module>, b: set<Module>, m: Module)
    requires Split(deps, pending, current) && Blocked(deps, b) && m in b && forall x :: x in b ==> x in pending
    ensures !CanLoad(deps, m, current)
  {
    assert Waits(deps, b, m);
    var d :| d in deps[m] && (d in b || d !in deps);
    assert d !in current;
  }

  lemma CycleBlocks(deps: Dependencies, p: seq<Module>)
    requires Cycle(deps, p)
    ensures Blocked(deps, set m | m in p)
  {
    var b := set m | m in p;
    assert p[0] in b;
    forall m | m in b ensures Waits(deps, b, m) {
      var i :| 0 <= i < |p| && p[i] == m;
      var next := if i + 1 < |p| then i + 1 else 1;
      assert p[next] in b && p[next] in deps[m];
    }
  }

  lemma MissingBlocks(deps: Dependencies, m: Module, d: Module)
    requires m in deps && d in deps[m] && d !in deps
    ensures Blocked(deps, {m})
  {
  }

  /** The recursion reaches an empty pending list exactly when the dependencies are closed and have
      no cycle; otherwise it never ends. */
  lemma EndsExactly(deps: Dependencies, keys: seq<Module>)
    requires Split(deps, keys, [])
    ensures (exists k :: After(deps, keys, [], k) == []) <==> Closed(deps) && Acyclic(deps)
  {
    if Closed(deps) && Acyclic(deps) { Finishes(deps, keys, [], |keys|); }
    forall k | After(deps, keys, [], k) == [] ensures Closed(deps) && Acyclic(deps) {
      forall p ensures !Cycle(deps, p) {
        if Cycle(deps, p) {
          CycleBlocks(deps, p);
          BlockedStays(deps, keys, [], (set m | m in p), k);
        }
      }
      forall m, d | m in deps && d in deps[m] ensures d in deps {
        if d !in deps {
          MissingBlocks(deps, m, d);
          BlockedStays(deps, keys, [], {m}, k);
        }
      }
    }
  }

  // ---------- Levels ----------

  ghost predicate DepsFirst(deps: Dependencies, ms: seq<Module>) {
    forall k :: 0 <= k < |ms| ==> ms[k] in deps && forall d :: d in deps[ms[k]] ==> d in ms[..k]
  }

  function Flatten(steps: map<nat, seq<Module>>, n: nat): seq<Module>
    requires forall s: nat :: s < n ==> s in steps
  {
    if n == 0 then [] else Flatten(steps, n - 1) + steps[n - 1]
  }

  ghost predicate Delayed(deps: Dependencies, m: Module, pending: seq<Module>, last: seq<Module>) {
    m in deps && exists d :: d in deps[m] && (d in pending || d in last)
  }

  /** The state between two rounds. */
  ghost predicate Levels(deps: Dependencies, pending: seq<Module>, current: seq<Module>,
                         steps: map<nat, seq<Module>>, n: nat)
  {
    && Split(deps, pending, current) && Distinct(current) && DepsFirst(deps, current)
    && (forall s: nat :: s in steps <==> s < n)
    && current == Flatten(steps, n)
    && (forall s, m :: s in steps && m in steps[s] ==> Longest(deps, m, s))
    && (n > 0 ==> forall m :: m in pending ==> Delayed(deps, m, pending, steps[n - 1]))
  }

  lemma {:induction false} FlattenSame(steps: map<nat, seq<Module>>, steps': map<nat, seq<Module>>, n: nat)
    requires forall s: nat :: s < n ==> s in steps && s in steps' && steps[s] == steps'[s]
    ensures Flatten(steps, n) == Flatten(steps', n)
  {
    if n > 0 { FlattenSame(steps, steps', n - 1); }
  }

  lemma {:induction false} InSomeStep(steps: map<nat, seq<Module>>, n: nat, m: Module) returns (s: nat)
    requires (forall k: nat :: k < n ==> k in steps) && m in Flatten(steps, n)
    ensures s < n && m in steps[s]
  {
    if m in steps[n - 1] { s := n - 1; } else { s := InSomeStep(steps, n - 1, m); }
  }

  /** A module loaded right after the last of its dependencies sits one level above it. */
  lemma OneLevelUp(deps: Dependencies, m: Module, n: nat)
    requires m in deps
    requires forall d :: d in deps[m] ==> exists s: nat :: s < n && Longest(deps, d, s)
    requires n > 0 ==> exists d :: d in deps[m] && Longest(deps, d, n - 1)
    ensures Longest(deps, m, n)
  {
    forall p | Chain(deps, p) && p[0] == m ensures |p| <= n + 1 {
      if |p| > 1 {
        var s: nat :| s < n && Longest(deps, p[1], s);
        assert Chain(deps, p[1..]);
      }
    }
    if n == 0 {
      assert Chain(deps, [m]);
    } else {
      var d :| d in deps[m] && Longest(deps, d, n - 1);
      var q :| Chain(deps, q) && q[0] == d && |q| == n;
      assert Chain(deps, [m] + q);
    }
  }

  lemma LoadedLevel(deps: Dependencies, pending: seq<Module>, current: seq<Module>,
                    steps: map<nat, seq<Module>>, n: nat, m: Module)
    requires Levels(deps, pending, current, steps, n) && m in pending && CanLoad(deps, m, current)
    ensures Longest(deps, m, n)
  {
    forall d | d in deps[m] ensures exists s: nat :: s < n && Longest(deps, d, s) {
      var s := InSomeStep(steps, n, d);
    }
    if n > 0 {
      assert Delayed(deps, m, pending, steps[n - 1]);
      var d :| d in deps[m] && (d in pending || d in steps[n - 1]);
      assert d in current;
    }
    OneLevelUp(deps, m, n);
  }

  lemma StillDelayed(deps: Dependencies, pending: seq<Module>, current: seq<Module>, m: Module)
    requires Closed(deps) && Split(deps, pending, current) && m in pending && !CanLoad(deps, m, current)
    ensures var ms := Loadable(deps, pending, current); Delayed(deps, m, RemoveAll(pending, ms), ms)
  {
    var ms := Loadable(deps, pending, current);
    LoadableDistinct(deps, pending, current);
    RemoveAllFacts(pending, ms);
    var d :| d in deps[m] && d !in current;
    assert d in deps && d in pending;
  }

  lemma LoadedOrder(deps: Dependencies, pending: seq<Module>, current: seq<Module>)
    requires Split(deps, pending, current) && Distinct(current) && DepsFirst(deps, current)
    ensures var ms := Loadable(deps, pending, current); Distinct(current + ms) && DepsFirst(deps, current + ms)
  {
    LoadableDistinct(deps, pending, current);
    DepsFirstExtends(deps, current, Loadable(deps, pending, current));
  }

  lemma DepsFirstExtends(deps: Dependencies, current: seq<Module>, ms: seq<Module>)
    requires DepsFirst(deps, current) && forall m :: m in ms ==> CanLoad(deps, m, current)
    ensures DepsFirst(deps, current + ms)
  {
    var all := current + ms;
    forall k | 0 <= k < |all| ensures all[k] in deps && forall d :: d in deps[all[k]] ==> d in all[..k] {
      if k < |current| {
        assert all[..k] == current[..k];
      } else {
        assert CanLoad(deps, ms[k - |current|], current);
        assert all[..k] == current + ms[..k - |current|];
      }
    }
  }

  lemma RoundDelays(deps: Dependencies, pending: seq<Module>, current: seq<Module>)
    requires Closed(deps) && Split(deps, pending, current)
    ensures var ms := Loadable(deps, pending, current);
      forall m :: m in RemoveAll(pending, ms) ==> Delayed(deps, m, RemoveAll(pending, ms), ms)
  {
    var ms := Loadable(deps, pending, current);
    LoadableDistinct(deps, pending, current);
    RemoveAllFacts(pending, ms);
    forall m | m in RemoveAll(pending, ms) ensures Delayed(deps, m, RemoveAll(pending, ms), ms) {
      StillDelayed(deps, pending, current, m);
    }
  }

  lemma RoundLevels(deps: Dependencies, pending: seq<Module>, current: seq<Module>,
                    steps: map<nat, seq<Module>>, n: nat)
    requires Levels(deps, pending, current, steps, n)
    ensures var steps' := steps[n := Loadable(deps, pending, current)];
      forall s, m :: s in steps' && m in steps'[s] ==> Longest(deps, m, s)
  {
    var ms := Loadable(deps, pending, current);
    forall m | m in ms ensures Longest(deps, m, n) { LoadedLevel(deps, pending, current, steps, n, m); }
  }

  /** One round takes the state to the next level. */
  lemma RoundKeeps(deps: Dependencies, pending: seq<Module>, current: seq<Module>, steps: map<nat, seq<Module>>, n: nat)
    requires Closed(deps) && Levels(deps, pending, current, steps, n)
    ensures var ms := Loadable(deps, pending, current);
      Levels(deps, RemoveAll(pending, ms), current + ms, steps[n := ms], n + 1)
  {
    hide Closed, Split, CanLoad, RemoveAll, Distinct, DepsFirst, Delayed, Longest;
    SplitKept(deps, pending, current);
    LoadedOrder(deps, pending, current);
    FlattenSame(steps, steps[n := Loadable(deps, pending, current)], n);
    RoundLevels(deps, pending, current, steps, n);
    RoundDelays(deps, pending, current);
  }

  lemma LongestUnique(deps: Dependencies, m: Module, a: nat, b: nat)
    requires Longest(deps, m, a) && Longest(deps, m, b)
    ensures a == b
  {
  }

  lemma RemoveNext(pending: seq<Module>, ms: seq<Module>, k: nat)
    requires Distinct(pending) && Distinct(ms) && (forall m :: m in ms ==> m in pending) && k < |ms|
    ensures ms[..k + 1] == ms[..k] + [ms[k]] && ms[k] in RemoveAll(pending, ms[..k])
    ensures RemoveAll(pending, ms[..k + 1]) == Remove(RemoveAll(pending, ms[..k]), ms[k])
  {
    RemoveAllFacts(pending, ms[..k]);
    assert ms[..k + 1][..k] == ms[..k];
  }

  lemma AddNext(current: seq<Module>, steps: map<nat, seq<Module>>, n: nat, ms: seq<Module>, k: nat)
    requires k < |ms|
    ensures current + ms[..k] + [ms[k]] == current + ms[..k + 1]
    ensures steps[n := ms[..k]][n := ms[..k] + [ms[k]]] == steps[n := ms[..k + 1]]
  {
    assert ms[..k] + [ms[k]] == ms[..k + 1];
  }

  // ---------- The algorithm ----------

  class DependencySorter {
    const deps: Dependencies
    var pending: seq<Module>
    var current: seq<Module>
    var steps: map<nat, seq<Module>>

    constructor (deps: Dependencies, keys: seq<Module>)
      ensures this.deps == deps && pending == keys && current == [] && steps == map[]
    {
      this.deps, pending, current, steps := deps, keys, [], map[];
    }

    method ModulesThatCanBeLoaded() returns (modules: seq<Module>)
      requires forall m :: m in pending ==> m in deps
      ensures forall m :: m in modules <==> m in pending && CanLoad(deps, m, current)
      ensures InOrder(modules, pending)
      ensures modules == Loadable(deps, pending, current)
    {
      LoadableInOrder(deps, pending, current);
      hide InOrder;
      modules := [];
      var i := 0;
      while i < |pending|
        invariant 0 <= i <= |pending| && modules == Loadable(deps, pending[..i], current)
      {
        var canBeLoaded := true;
        var dependencies := deps[pending[i]];
        var j := 0;
        while j < |dependencies|
          invariant 0 <= j <= |dependencies|
          invariant canBeLoaded && forall k :: 0 <= k < j ==> dependencies[k] in current
        {
          if dependencies[j] !in current {
            canBeLoaded := false;
            break;
          }
          j := j + 1;
        }
        assert canBeLoaded == CanLoad(deps, pending[i], current);
        assert pending[..i + 1][..i] == pending[..i];
        if canBeLoaded { modules := modules + [pending[i]]; }
        i := i + 1;
      }
      assert pending[..|pending|] == pending;
    }

    method Load(stepNumber: nat, m: Module)
      requires stepNumber in steps && m in pending
      modifies this
      ensures pending == Remove(old(pending), m) && current == old(current) + [m]
      ensures steps == old(steps)[stepNumber := old(steps)[stepNumber] + [m]]
    {
      steps := steps[stepNumber := steps[stepNumber] + [m]];
      pending := Remove(pending, m);
      current := current + [m];
    }

    /** One round: everything that can be loaded moves from pending to current, in order. */
    method LoadRound(stepNumber: nat)
      requires Split(deps, pending, current) && stepNumber !in steps
      modifies this
      ensures var ms := Loadable(deps, old(pending), old(current));
        && pending == RemoveAll(old(pending), ms) && current == old(current) + ms
        && steps == old(steps)[stepNumber := ms]
    {
      var ms := ModulesThatCanBeLoaded();
      SplitKept(deps, pending, current);
      hide Split, Loadable, RemoveAll, CanLoad;
      ghost var was, base := pending, current;
      if stepNumber !in steps { steps := steps[stepNumber := []]; }
      var k := 0;
      while k < |ms|
        invariant 0 <= k <= |ms|
        invariant pending == RemoveAll(was, ms[..k]) && current == base + ms[..k]
        invariant steps == old(steps)[stepNumber := ms[..k]]
      {
        RemoveNext(was, ms, k);
        AddNext(base, old(steps), stepNumber, ms, k);
        Load(stepNumber, ms[k]);
        k := k + 1;
      }
      assert ms[..|ms|] == ms;
    }

    method DependencyOrder(stepNumber: nat, ghost keys: seq<Module>)
      requires Closed(deps) && Acyclic(deps) && Levels(deps, pending, current, steps, stepNumber)
      requires KeepsOrder(keys, pending, steps)
      modifies this
      ensures pending == [] && Levels(deps, pending, current, steps, |steps|) && KeepsOrder(keys, pending, steps)
      decreases |pending|
    {
      if |pending| == 0 {
        CountSteps(steps, stepNumber);
        return;
      }
      RoundKeeps(deps, pending, current, steps, stepNumber);
      RoundInOrder(deps, keys, pending, current, steps, stepNumber);
      SomeLoadable(deps, pending, current);
      SplitKept(deps, pending, current);
      LoadRound(stepNumber);
      DependencyOrder(stepNumber + 1, keys);
    }
  }

  lemma {:induction false} CountSteps(steps: map<nat, seq<Module>>, n: nat)
    requires forall s: nat :: s in steps <==> s < n
    ensures |steps| == n
  {
    if n == 0 {
      assert steps == map[];
    } else {
      var fewer := steps - {n - 1};
      CountSteps(fewer, n - 1);
      assert steps.Keys == fewer.Keys + {n - 1};
    }
  }

  /** For dependencies that are closed and have no cycle: every module once, after everything it
      depends on, and in the step that is the length of its longest chain of dependencies, where it
      stands as among the keys. */
  method SortToDependencies(deps: Dependencies, keys: seq<Module>)
    returns (sorted: seq<Module>, steps: map<nat, seq<Module>>)
    requires Split(deps, keys, []) && Closed(deps) && Acyclic(deps)
    ensures Distinct(sorted) && (forall m :: m in sorted <==> m in keys) && DepsFirst(deps, sorted)
    ensures (forall s: nat :: s in steps <==> s < |steps|) && sorted == Flatten(steps, |steps|)
    ensures forall m, s: nat :: m in deps ==> (s in steps && m in steps[s] <==> Longest(deps, m, s))
    ensures forall s :: s in steps ==> InOrder(steps[s], keys)
  {
    SameOrder(keys);
    hide InOrder;
    var sorter := new DependencySorter(deps, keys);
    sorter.DependencyOrder(0, keys);
    steps := sorter.steps;
    sorted := [];
    var i := 0;
    while i < |steps|
      invariant 0 <= i <= |steps| && sorted == Flatten(steps, i)
    {
      sorted := sorted + steps[i];
      i := i + 1;
    }
    forall m, s: nat | m in deps && Longest(deps, m, s) ensures s in steps && m in steps[s] {
      var t := InSomeStep(steps, |steps|, m);
      LongestUnique(deps, m, s, t);
    }
  }
}
