/** Retry delays: exponential backoff on 64-bit nanosecond durations, for a row's next attempt and for the
    publisher's own loop. That the methods verify on `int64` means no intermediate value overflows. */
module Backoff {
  newtype int64 = x: int | -0x8000_0000_0000_0000 <= x < 0x8000_0000_0000_0000

  function Pow2(n: nat): nat { if n == 0 then 1 else 2 * Pow2(n - 1) }

  /** min * 2^(n-1), capped at max. */
  function Capped(n: nat, minimum: int64, maximum: int64): (d: int)
    requires n >= 1 && 0 < minimum <= maximum
    ensures minimum as int <= d <= maximum as int
  {
    Product(minimum as int, n - 1);
    var d := minimum as int * Pow2(n - 1);
    if d < maximum as int then d else maximum as int
  }

  lemma Product(m: int, k: nat)
    requires 0 < m
    ensures m * Pow2(k) >= m
    ensures k > 0 ==> m * Pow2(k) == 2 * (m * Pow2(k - 1))
  {
    Pow2Positive(k);
  }

  lemma {:induction false} Pow2Positive(n: nat)
    ensures Pow2(n) >= 1
  {
    if n > 0 { Pow2Positive(n - 1); }
  }

  /** nextBackoff. */
  function NextBackoff(current: int64, maximum: int64): int64
    requires 0 < current && 0 < maximum
  {
    if current >= maximum || current > maximum / 2 then maximum else current * 2
  }

  lemma NextDoubles(n: nat, minimum: int64, maximum: int64, current: int64)
    requires n >= 1 && 0 < minimum <= maximum && current as int == Capped(n, minimum, maximum)
    ensures NextBackoff(current, maximum) as int == Capped(n + 1, minimum, maximum)
  {
    Product(minimum as int, n);
  }

  /** The capped delays start at the minimum, and each next one is the double, as long as that is below the
      maximum. */
  lemma CappedDoubles(n: nat, minimum: int64, maximum: int64)
    requires n >= 1 && 0 < minimum <= maximum
    ensures Capped(1, minimum, maximum) == minimum as int
    ensures var twice := 2 * Capped(n, minimum, maximum);
            Capped(n + 1, minimum, maximum) == if twice < maximum as int then twice else maximum as int
  {
    Product(minimum as int, n);
  }

  /** Once the cap is reached it stays. */
  lemma {:induction false} CapHolds(n: nat, k: nat, minimum: int64, maximum: int64)
    requires 1 <= n <= k && 0 < minimum <= maximum
    ensures Capped(n, minimum, maximum) <= Capped(k, minimum, maximum)
    ensures Capped(n, minimum, maximum) == maximum as int ==> Capped(k, minimum, maximum) == maximum as int
  {
    if n < k {
      CapHolds(n, k - 1, minimum, maximum);
      Product(minimum as int, k - 1);
      Product(minimum as int, k - 2);
    }
  }

  /** deliveryBackoff: the n-th failed attempt waits min * 2^(n-1), capped at max; below 1 it waits min. */
  method DeliveryBackoff(attempt: int64, minimum: int64, maximum: int64) returns (delay: int64)
    requires 0 < minimum <= maximum
    ensures delay as int == Capped(if attempt < 1 then 1 else attempt as nat, minimum, maximum)
  {
    delay := minimum;
    var currentAttempt: int64 := 1;
    assert Capped(1, minimum, maximum) == minimum as int;
    while currentAttempt < attempt && delay < maximum
      invariant 1 <= currentAttempt && (currentAttempt <= attempt || currentAttempt == 1)
      invariant 0 < delay && delay as int == Capped(currentAttempt as nat, minimum, maximum)
      decreases attempt as int - currentAttempt as int
    {
      NextDoubles(currentAttempt as nat, minimum, maximum, delay);
      delay := NextBackoff(delay, maximum);
      currentAttempt := currentAttempt + 1;
    }
    if currentAttempt < attempt { CapHolds(currentAttempt as nat, attempt as nat, minimum, maximum); }
  }

  // ---------------------------------------------------------------- the publisher's loop

  /** What one ProcessNext call of the loop came to. */
  datatype Attempt = Failed | Nothing | Processed

  /** The sleeps that follow `failures` consecutive failures. */
  function Sleeps(script: seq<Attempt>, failures: nat, poll: int64, minimum: int64, maximum: int64): seq<int>
    requires 0 < minimum <= maximum
    decreases script
  {
    if script == [] then []
    else match script[0]
      case Failed => [Capped(failures + 1, minimum, maximum)] + Sleeps(script[1..], failures + 1, poll, minimum,
          maximum)
      case Nothing => [poll as int] + Sleeps(script[1..], 0, poll, minimum, maximum)
      case Processed => Sleeps(script[1..], 0, poll, minimum, maximum)
  }

  /** Worker.Run until it is cancelled after the scripted attempts; records every sleep. */
  method Run(script: seq<Attempt>, poll: int64, minimum: int64, maximum: int64) returns (slept: seq<int64>)
    requires 0 < poll && 0 < minimum <= maximum
    ensures |slept| == |Sleeps(script, 0, poll, minimum, maximum)|
    ensures forall i | 0 <= i < |slept| :: slept[i] as int == Sleeps(script, 0, poll, minimum, maximum)[i]
  {
    slept := [];
    var retryDelay := minimum;
    ghost var failures: nat := 0;
    ghost var past: seq<int> := [];
    for i := 0 to |script|
      invariant 0 < retryDelay && retryDelay as int == Capped(failures + 1, minimum, maximum)
      invariant |past| == |slept| && forall k | 0 <= k < |slept| :: slept[k] as int == past[k]
      invariant past + Sleeps(script[i..], failures, poll, minimum, maximum) == Sleeps(script, 0, poll, minimum,
          maximum)
    {
      assert script[i..][1..] == script[i + 1..];
      if script[i] == Failed {
        slept, past := slept + [retryDelay], past + [Capped(failures + 1, minimum, maximum)];
        NextDoubles(failures + 1, minimum, maximum, retryDelay);
        retryDelay, failures := NextBackoff(retryDelay, maximum), failures + 1;
        continue;
      }
      retryDelay, failures := minimum, 0;
      if script[i] == Nothing { slept, past := slept + [poll], past + [poll as int]; }
    }
    assert script[|script|..] == [];
  }

  /** Whatever came before the last success or idle poll, and from the very start of the loop, the k-th
      failure in a row sleeps Capped(k). */
  lemma {:induction false} KthFailureSleeps(before: seq<Attempt>, k: nat, failures: nat, poll: int64, minimum: int64,
        maximum: int64)
    requires 0 < minimum <= maximum && k >= 1
    requires if before == [] then failures == 0 else before[|before| - 1] != Failed
    ensures var s := Sleeps(before + seq(k, _ => Failed), failures, poll, minimum, maximum);
            |s| >= k && s[|s| - 1] == Capped(k, minimum, maximum)
    decreases before
  {
    var all := before + seq(k, _ => Failed);
    if before == [] {
      assert all == seq(k, _ => Failed);
      RunOfFailures(k, 0, poll, minimum, maximum);
    } else {
      assert all[1..] == before[1..] + seq(k, _ => Failed);
      KthFailureSleeps(before[1..], k, if before[0] == Failed then failures + 1 else 0, poll, minimum, maximum);
    }
  }

  lemma {:induction false} RunOfFailures(k: nat, failures: nat, poll: int64, minimum: int64, maximum: int64)
    requires 0 < minimum <= maximum && k >= 1
    ensures var s := Sleeps(seq(k, _ => Failed), failures, poll, minimum, maximum);
            |s| == k && s[k - 1] == Capped(failures + k, minimum, maximum)
    decreases k
  {
    var all := seq(k, _ => Failed);
    assert all[1..] == seq(k - 1, _ => Failed);
    if k > 1 { RunOfFailures(k - 1, failures + 1, poll, minimum, maximum); } else { assert all[1..] == []; }
  }

  /** The failures since the last attempt that was none. */
  function Streak(script: seq<Attempt>, failures: nat): nat {
    if script == [] then failures
    else if script[|script| - 1] == Failed then 1 + Streak(script[..|script| - 1], failures)
    else 0
  }

  /** What the loop does after its next attempt: it sleeps the delay of its streak after a failure, the poll
      interval when nothing was due, and not at all after an event. */
  lemma {:induction false} NextSleep(script: seq<Attempt>, last: Attempt, failures: nat, poll: int64, minimum: int64,
        maximum: int64)
    requires 0 < minimum <= maximum
    ensures Sleeps(script + [last], failures, poll, minimum, maximum) == Sleeps(script, failures, poll, minimum,
              maximum) + match last
                         case Failed => [Capped(Streak(script, failures) + 1, minimum, maximum)]
                         case Nothing => [poll as int]
                         case Processed => []
    decreases script
  {
    var all := script + [last];
    if script == [] {
      assert all[1..] == [];
    } else {
      var next := if script[0] == Failed then failures + 1 else 0;
      assert all[1..] == script[1..] + [last];
      NextSleep(script[1..], last, next, poll, minimum, maximum);
      StreakOfRest(script, failures);
    }
  }

  lemma {:induction false} StreakOfRest(script: seq<Attempt>, failures: nat)
    requires script != []
    ensures Streak(script, failures) == Streak(script[1..], if script[0] == Failed then failures + 1 else 0)
  {
    var init := script[..|script| - 1];
    if |script| == 1 {
      assert init == [] && script[1..] == [];
    } else {
      assert script[1..][..|script| - 2] == init[1..];
      StreakOfRest(init, failures);
    }
  }
}
