/** The client's choice of server: 32-bit round robin from an arbitrary start value. */
module RoundRobin {
  import opened Division

  const WIDTH: nat := 0x1_0000_0000

  /** The successor is computed in 32 bits before the remainder is taken. */
  function NextServer(last: nat, n: nat): (r: nat)
    requires n > 0
    ensures r < n
  {
    ((last + 1) % WIDTH) % n
  }

  /** The servers addressed by the first k sends, in order. */
  function Sends(last: nat, n: nat, k: nat): (q: seq<nat>)
    requires n > 0
    ensures |q| == k
    decreases k
  {
    if k == 0 then [] else [NextServer(last, n)] + Sends(NextServer(last, n), n, k - 1)
  }

  /** The last server addressed by k sends. */
  function LastAfter(last: nat, n: nat, k: nat): nat
    requires n > 0
    decreases k
  {
    if k == 0 then last else LastAfter(NextServer(last, n), n, k - 1)
  }

  function Count(q: seq<nat>, server: nat): nat {
    if q == [] then 0 else Count(q[..|q| - 1], server) + if q[|q| - 1] == server then 1 else 0
  }

  // ---------- The order of the sends ----------

  lemma {:induction false} SendsSplit(last: nat, n: nat, a: nat, b: nat)
    requires n > 0
    ensures Sends(last, n, a + b) == Sends(last, n, a) + Sends(LastAfter(last, n, a), n, b)
    decreases a
  {
    if a > 0 { SendsSplit(NextServer(last, n), n, a - 1, b); }
  }

  lemma {:induction false} LastIsSent(last: nat, n: nat, k: nat)
    requires n > 0
    ensures LastAfter(last, n, k + 1) == NextServer(LastAfter(last, n, k), n)
    ensures Sends(last, n, k + 1) == Sends(last, n, k) + [NextServer(LastAfter(last, n, k), n)]
    decreases k
  {
    if k > 0 { LastIsSent(NextServer(last, n), n, k - 1); }
  }

  /** Position k of the round: counted from the first server, wrapping at n. */
  function Turn(first: nat, n: nat, k: nat): nat
    requires n > 0
    decreases k
  {
    if k == 0 then first
    else
      var t := Turn(first, n, k - 1);
      if t + 1 == n then 0 else t + 1
  }

  lemma Small(a: nat, n: nat)
    requires a <= n && n > 0
    ensures a % n == if a == n then 0 else a
  {
  }

  lemma StepIsNext(last: nat, n: nat)
    requires last < n <= WIDTH
    ensures NextServer(last, n) == if last + 1 == n then 0 else last + 1
  {
    Small(last + 1, WIDTH);
    Small(0, n);
    Small(last + 1, n);
  }

  lemma {:induction false} TurnInRange(first: nat, n: nat, k: nat)
    requires first < n
    ensures Turn(first, n, k) < n
    decreases k
  {
    if k > 0 { TurnInRange(first, n, k - 1); }
  }

  lemma {:induction false} LastIsTurn(last: nat, n: nat, k: nat)
    requires 0 < n <= WIDTH
    ensures LastAfter(last, n, k + 1) == Turn(NextServer(last, n), n, k)
    decreases k
  {
    if k > 0 {
      LastIsTurn(last, n, k - 1);
      LastIsSent(last, n, k);
      TurnInRange(NextServer(last, n), n, k - 1);
      StepIsNext(Turn(NextServer(last, n), n, k - 1), n);
    }
  }

  /** How many turns after the first server this one comes. */
  function Offset(first: nat, n: nat, server: nat): nat
    requires first < n && server < n
  {
    if server >= first then server - first else server + n - first
  }

  lemma NextDivMod(k: nat, n: nat)
    requires n > 0
    ensures if k % n + 1 == n then (k + 1) / n == k / n + 1 && (k + 1) % n == 0
            else (k + 1) / n == k / n && (k + 1) % n == k % n + 1
  {
    var q, r := k / n, k % n;
    assert k + 1 == q * n + (r + 1);
    if r + 1 == n {
      Unique(k + 1, n, q + 1, 0);
    } else {
      Unique(k + 1, n, q, r + 1);
    }
  }

  /** A server's turns are those congruent to its offset. */
  lemma {:induction false} TurnOffset(first: nat, n: nat, k: nat)
    requires first < n
    ensures Turn(first, n, k) < n && Offset(first, n, Turn(first, n, k)) == k % n
    decreases k
  {
    if k > 0 {
      TurnOffset(first, n, k - 1);
      NextDivMod(k - 1, n);
    }
  }

  // ---------- Balance ----------

  /** From any initial value, after k sends a server has been addressed floor(k / n) times, and
      once more exactly if its place in the round comes before k modulo n. */
  lemma {:induction false} Balance(last: nat, n: nat, k: nat, server: nat)
    requires 0 < n <= WIDTH && server < n
    ensures Count(Sends(last, n, k), server) ==
            k / n + if Offset(NextServer(last, n), n, server) < k % n then 1 else 0
    decreases k
  {
    if k > 0 {
      var first := NextServer(last, n);
      Balance(last, n, k - 1, server);
      LastIsSent(last, n, k - 1);
      LastIsTurn(last, n, k - 1);
      TurnOffset(first, n, k - 1);
      NextDivMod(k - 1, n);
      assert Sends(last, n, k)[..k - 1] == Sends(last, n, k - 1);
    } else {
      Unique(0, n, 0, 0);
    }
  }

  /** Any n consecutive sends address each server exactly once. */
  lemma EachOnce(last: nat, n: nat, k: nat, j: nat, server: nat)
    requires 0 < n <= WIDTH && server < n && j + n <= k
    ensures Count(Sends(last, n, k)[j..j + n], server) == 1
  {
    SendsSplit(last, n, j, k - j);
    SendsSplit(LastAfter(last, n, j), n, n, k - j - n);
    assert Sends(last, n, k)[j..j + n] == Sends(LastAfter(last, n, j), n, n);
    Balance(LastAfter(last, n, j), n, n, server);
    Unique(n, n, 1, 0);
  }

  /** Send j goes j places round from the first server. */
  lemma SendOffset(last: nat, n: nat, k: nat, j: nat)
    requires 0 < n <= WIDTH && j < k
    ensures var first := (last + 1) % 0x1_0000_0000 % n;
      Sends(last, n, k)[j] < n && Offset(first, n, Sends(last, n, k)[j]) == j % n
  {
    SendsSplit(last, n, j + 1, k - j - 1);
    LastIsSent(last, n, j);
    LastIsTurn(last, n, j);
    TurnOffset(NextServer(last, n), n, j);
    assert Sends(last, n, k)[j] == Sends(last, n, j + 1)[j];
  }

  /** From the all-ones value, whose 32-bit successor is zero, send j goes to server j modulo n. */
  lemma AllOnesStart(n: nat, k: nat, j: nat)
    requires 0 < n <= WIDTH && j < k
    ensures Sends(0xFFFF_FFFF, n, k)[j] == j % n
  {
    Small(0, n);
    SendOffset(WIDTH - 1, n, k, j);
  }
}
