/** The bounded readiness loop used by BaseContainer.waitForConnectivity,
    PostgresCommands.waitForIpConnectivity and the two waitForDatabaseReady methods:

      for i in 0 .. maxAttempts-1: if probe() then return true; sleep, and if the sleep is
      interrupted return false;  return false

    Probe outcomes and interruptions are oracles indexed by attempt (an exception the probe
    swallows, such as a failed JDBC connection or an IOException, is a false outcome). */
module Polling {

  /** Oracle for one wait: success[i] is the outcome of attempt i, interrupted[i] says whether
      the sleep after a failed attempt i is interrupted. Past the end both read as false. */
  datatype Poll = Poll(success: seq<bool>, interrupted: seq<bool>)

  function At(s: seq<bool>, i: nat): bool {
    i < |s| && s[i]
  }

  /** The outcome of the loop from attempt i on: whether it returns true, and how many attempts
      (probes) it has made in total when it returns. */
  function PollFrom(maxAttempts: int, p: Poll, i: nat): (bool, nat)
    decreases maxAttempts - i
  {
    if i >= maxAttempts then (false, i)
    else if At(p.success, i) then (true, i + 1)
    else if At(p.interrupted, i) then (false, i + 1)
    else PollFrom(maxAttempts, p, i + 1)
  }

  function WaitOutcome(maxAttempts: int, p: Poll): (bool, nat) {
    PollFrom(maxAttempts, p, 0)
  }

  /** No attempt before attempt n failed by success or by interruption. */
  predicate Undecided(p: Poll, n: nat) {
    forall k :: 0 <= k < n ==> !At(p.success, k) && !At(p.interrupted, k)
  }

  lemma {:induction false} PollFromMeaning(maxAttempts: int, p: Poll, i: nat)
    requires Undecided(p, i)
    requires i <= maxAttempts || i == 0
    ensures var (ok, n) := PollFrom(maxAttempts, p, i);
      n <= (if maxAttempts > 0 then maxAttempts else 0)
      && (n == 0 <==> maxAttempts <= 0)
      && Undecided(p, if n > 0 then n - 1 else 0)
      && (ok <==> n > 0 && At(p.success, n - 1))
      && (!ok && n < maxAttempts ==> n > 0 && At(p.interrupted, n - 1))
    decreases maxAttempts - i
  {
    if i < maxAttempts && !At(p.success, i) && !At(p.interrupted, i) {
      PollFromMeaning(maxAttempts, p, i + 1);
    }
  }

  /** The loop probes at most maxAttempts times (never when the budget is not positive);
      every attempt before the last one failed without interruption; it returns true exactly
      when its last attempt succeeded; and it stops early with false only when the sleep after a
      failed attempt was interrupted. */
  lemma WaitOutcomeMeaning(maxAttempts: int, p: Poll)
    ensures var (ok, n) := WaitOutcome(maxAttempts, p);
      n <= (if maxAttempts > 0 then maxAttempts else 0)
      && (n == 0 <==> maxAttempts <= 0)
      && Undecided(p, if n > 0 then n - 1 else 0)
      && (ok <==> n > 0 && At(p.success, n - 1))
      && (!ok && n < maxAttempts ==> n > 0 && At(p.interrupted, n - 1))
  {
    PollFromMeaning(maxAttempts, p, 0);
  }

  /** A probe that never succeeds and is never interrupted is asked exactly maxAttempts times. */
  lemma {:induction false} ExhaustedBudget(maxAttempts: nat, p: Poll)
    requires Undecided(p, maxAttempts)
    ensures WaitOutcome(maxAttempts, p) == (false, maxAttempts)
  {
    var i := maxAttempts;
    while i > 0
      invariant 0 <= i <= maxAttempts
      invariant PollFrom(maxAttempts, p, i) == (false, maxAttempts)
    {
      i := i - 1;
    }
  }

  /** The loop returns true exactly when some attempt within the budget succeeds with no earlier
      attempt succeeding or being interrupted. */
  lemma SucceedsIffEarlySuccess(maxAttempts: int, p: Poll)
    ensures WaitOutcome(maxAttempts, p).0 <==>
      exists j :: 0 <= j < maxAttempts && At(p.success, j) && Undecided(p, j)
  {
    WaitOutcomeMeaning(maxAttempts, p);
    var (ok, n) := WaitOutcome(maxAttempts, p);
    if ok {
      assert 0 <= n - 1 < maxAttempts && At(p.success, n - 1) && Undecided(p, n - 1);
    } else if j :| 0 <= j < maxAttempts && At(p.success, j) && Undecided(p, j) {
      // the loop can neither have stopped before j (every attempt before j is undecided) nor
      // have passed j without succeeding there
      assert false;
    }
  }

  /** The loop itself, as the Java for-loop runs it. */
  method Wait(maxAttempts: int, p: Poll) returns (ok: bool, attempts: nat)
    ensures (ok, attempts) == WaitOutcome(maxAttempts, p)
  {
    var i: nat := 0;
    while i < maxAttempts
      invariant i <= maxAttempts || i == 0
      invariant PollFrom(maxAttempts, p, i) == WaitOutcome(maxAttempts, p)
      decreases maxAttempts - i
    {
      if At(p.success, i) {
        return true, i + 1;
      }
      if At(p.interrupted, i) {
        return false, i + 1;
      }
      i := i + 1;
    }
    return false, i;
  }
}
