/**
 The retry helpers (pkg/retry/retry.go). What the operation and the context do is a
 script, one entry per call of the operation. Durations are unbounded integers and the
 multiplier is a real number; a product is truncated towards zero as Go converts it.
 */
module Retry {
  import opened Wrappers

  datatype Options = Options(initial: int, max: int, multiplier: real)

  function Trunc(x: real): int {
    if x >= 0.0 then x.Floor else -((-x).Floor)
  }

  function Next(opts: Options, delay: int): int {
    Min(Trunc(delay as real * opts.multiplier), opts.max)
  }

  /** The delay before the (i + 1)-st retry. */
  function Wait(opts: Options, i: nat): int {
    if i == 0 then opts.initial else Next(opts, Wait(opts, i - 1))
  }

  /** The first delays, in order. */
  predicate AreWaits(waits: seq<int>, opts: Options) {
    forall i: nat | i < |waits| :: waits[i] == Wait(opts, i)
  }

  // ---- WithExponentialBackoff ----

  /** One call of the operation: it succeeds, or fails and then the context ends or the delay passes. */
  datatype Turn = Succeeds | FailsAndStops | FailsAndWaits

  /** How a call ends; `Running` if the script ends first. */
  datatype Outcome = ReturnedNil | ContextError | Running

  method NextDelay(opts: Options, currentDelay: int) returns (nextDelay: int)
    ensures nextDelay == Next(opts, currentDelay)
  {
    nextDelay := Trunc(currentDelay as real * opts.multiplier);
    if nextDelay > opts.max {
      nextDelay := opts.max;
    }
  }

  /** The first `n` calls failed and were waited for. */
  predicate Waited(script: seq<Turn>, n: nat)
    requires n <= |script|
  {
    forall i | 0 <= i < n :: script[i] == FailsAndWaits
  }

  /**
   What the backoff makes of a script: all calls but the last failed and were waited for,
   with the delays in order; it ends at the first success or cancellation.
   */
  predicate BacksOff(opts: Options, script: seq<Turn>, outcome: Outcome, calls: nat, waits: seq<int>) {
    && |waits| <= calls <= |script|
    && Waited(script, |waits|)
    && AreWaits(waits, opts)
    && match outcome
       case ReturnedNil => calls == |waits| + 1 && script[|waits|] == Succeeds
       case ContextError => calls == |waits| + 1 && script[|waits|] == FailsAndStops
       case Running => calls == |waits| == |script|
  }

  method WithExponentialBackoff(opts: Options, script: seq<Turn>) returns (outcome: Outcome, calls: nat, waits: seq<int>)
    ensures BacksOff(opts, script, outcome, calls, waits)
  {
    var currentDelay := opts.initial;
    calls, waits := 0, [];
    while calls < |script|
      invariant |waits| == calls <= |script| && Waited(script, calls) && AreWaits(waits, opts)
      invariant currentDelay == Wait(opts, calls)
    {
      var turn := script[calls];
      calls := calls + 1;
      if turn == Succeeds {
        return ReturnedNil, calls, waits;
      }
      if turn == FailsAndStops {
        return ContextError, calls, waits;
      }
      waits := waits + [currentDelay];
      currentDelay := NextDelay(opts, currentDelay);
    }
    outcome := Running;
  }

  // ---- WithRetries ----

  datatype Retried = Nil | LastError | Interrupted

  /** The script of a bounded retry stops the loop at entry `i`. */
  predicate Decides(attempts: int, script: seq<Turn>, i: nat)
    requires i < |script|
  {
    script[i] == Succeeds || i == attempts - 1 || script[i] == FailsAndStops
  }

  method WithRetries(attempts: int, script: seq<Turn>) returns (r: Retried, calls: nat)
    requires attempts <= |script|
    ensures attempts <= 0 ==> r == Nil && calls == 0
    ensures attempts > 0 ==> 0 < calls <= attempts && Decides(attempts, script, calls - 1)
    ensures forall i: nat | i + 1 < calls :: !Decides(attempts, script, i)
    ensures attempts > 0 ==> r == if script[calls - 1] == Succeeds then Nil
                                  else if calls == attempts then LastError else Interrupted
  {
    calls := 0;
    while calls < attempts
      invariant calls <= Max(attempts, 0) && forall i: nat | i < calls :: i < attempts - 1 && script[i] == FailsAndWaits
      invariant attempts > 0 ==> calls < attempts
      decreases attempts - calls
    {
      var i := calls;
      calls := calls + 1;
      if script[i] == Succeeds {
        return Nil, calls;
      }
      if i == attempts - 1 {
        return LastError, calls;
      }
      if script[i] == FailsAndStops {
        return Interrupted, calls;
      }
    }
    r := Nil;
  }

  // ---- The delays ----

  function Pow(m: nat, i: nat): nat {
    if i == 0 then 1 else m * Pow(m, i - 1)
  }

  /** Only the first delay can exceed the maximum, and it does exactly when it is configured to. */
  lemma WaitsAreCapped(opts: Options, i: nat)
    ensures Wait(opts, i) > opts.max <==> i == 0 && opts.initial > opts.max
  {
  }

  /** Multiplying by at least one never shortens a delay. */
  lemma NextGrows(opts: Options, delay: int)
    requires opts.multiplier >= 1.0 && 0 <= delay <= opts.max
    ensures delay <= Next(opts, delay) <= opts.max
  {
    ProductGrows(delay as real, opts.multiplier);
  }

  lemma ProductGrows(d: real, m: real)
    requires d >= 0.0 && m >= 1.0
    ensures d * m >= d
  {
    assert d * (m - 1.0) >= 0.0;
  }

  /** The delays never shrink, for every real multiplier of at least one. */
  lemma {:induction false} WaitsAreMonotonic(opts: Options, i: nat, j: nat)
    requires opts.multiplier >= 1.0 && 0 <= opts.initial <= opts.max && i <= j
    ensures 0 <= Wait(opts, i) <= Wait(opts, j) <= opts.max
    decreases j
  {
    if j > 0 {
      if i < j {
        WaitsAreMonotonic(opts, i, j - 1);
      } else {
        WaitsAreMonotonic(opts, i - 1, j - 1);
      }
      NextGrows(opts, Wait(opts, j - 1));
    }
  }

  lemma ProductIsMonotonic(a: int, b: int, m: int)
    requires a <= b && m >= 0
    ensures a * m <= b * m
  {
  }

  lemma Regroup(a: int, b: int, c: int)
    ensures a * (b * c) == (a * c) * b
  {
  }

  /** Capping before a multiplication makes no difference to capping after it. */
  lemma CappingCommutes(p: int, m: nat, max: int)
    requires m >= 1 && max > 0
    ensures Min(Min(p, max) * m, max) == Min(p * m, max)
  {
    if p > max {
      ProductIsMonotonic(1, m, max);
      ProductIsMonotonic(max, p, m);
    }
  }

  lemma NextByAnInteger(opts: Options, m: nat, delay: int)
    requires opts.multiplier == m as real && delay >= 0
    ensures Next(opts, delay) == Min(delay * m, opts.max)
  {
    assert delay as real * m as real == (delay * m) as real;
  }

  lemma NextOfACappedPower(opts: Options, m: nat, delay: int, p: int, q: int)
    requires opts.multiplier == m as real && m >= 1 && opts.max > 0 && p >= 0
    requires delay == Min(p, opts.max) && q == p * m
    ensures Next(opts, delay) == Min(q, opts.max)
  {
    NextByAnInteger(opts, m, delay);
    CappingCommutes(p, m, opts.max);
  }

  lemma NextPower(initial: nat, m: nat, i: nat)
    requires i > 0
    ensures initial * Pow(m, i) == initial * Pow(m, i - 1) * m && initial * Pow(m, i - 1) >= 0
  {
    Regroup(initial, m, Pow(m, i - 1));
  }

  /** With an integer multiplier the i-th delay is the capped power. */
  lemma {:induction false} WaitIsACappedPower(opts: Options, m: nat, i: nat)
    requires opts.multiplier == m as real && m >= 1 && 0 < opts.initial <= opts.max
    ensures Wait(opts, i) == Min(opts.initial * Pow(m, i), opts.max)
  {
    if i > 0 {
      WaitIsACappedPower(opts, m, i - 1);
      NextPower(opts.initial, m, i);
      NextOfACappedPower(opts, m, Wait(opts, i - 1), opts.initial * Pow(m, i - 1), opts.initial * Pow(m, i));
    }
  }

  /** One more nanosecond after every delay that is no shorter than the first. */
  predicate KeepsGrowing(opts: Options) {
    opts.initial as real * (opts.multiplier - 1.0) >= 1.0
  }

  lemma ProductIncreasesBy(a: real, b: real, c: real)
    requires a <= b && c >= 0.0
    ensures a * c <= b * c
  {
  }

  lemma OneTimeMore(d: real, m: real)
    ensures d * m == d * (m - 1.0) + d
  {
  }

  /** Conversion to a duration drops the fraction, towards zero. */
  lemma TruncIsTowardsZero(x: real)
    ensures x >= 0.0 ==> 0 <= Trunc(x) && Trunc(x) as real <= x < Trunc(x) as real + 1.0
    ensures x <= 0.0 ==> Trunc(x) <= 0 && Trunc(x) as real - 1.0 < x <= Trunc(x) as real
  {
  }

  lemma TruncBetween(x: real, n: nat)
    ensures x >= n as real ==> Trunc(x) >= n
    ensures n as real <= x < n as real + 1.0 ==> Trunc(x) == n
  {
  }

  lemma NextIsLonger(opts: Options, delay: int)
    requires opts.multiplier >= 1.0 && KeepsGrowing(opts) && 0 <= opts.initial <= delay <= opts.max
    ensures Min(delay + 1, opts.max) <= Next(opts, delay)
  {
    ProductIncreasesBy(opts.initial as real, delay as real, opts.multiplier - 1.0);
    OneTimeMore(delay as real, opts.multiplier);
    assert delay as real * opts.multiplier >= (delay + 1) as real;
    TruncBetween(delay as real * opts.multiplier, delay + 1);
  }

  lemma TruncStalls(n: nat, m: real)
    requires m >= 1.0 && n as real * (m - 1.0) < 1.0
    ensures Trunc(n as real * m) == n
  {
    var x := n as real * m;
    OneTimeMore(n as real, m);
    ProductGrows(n as real, m);
    TruncBetween(x, n);
  }

  lemma NextStalls(opts: Options)
    requires opts.multiplier >= 1.0 && !KeepsGrowing(opts) && 0 <= opts.initial <= opts.max
    ensures Next(opts, opts.initial) == opts.initial
  {
    TruncStalls(opts.initial, opts.multiplier);
  }

  lemma {:induction false} WaitsGrow(opts: Options, i: nat)
    requires opts.multiplier >= 1.0 && KeepsGrowing(opts) && 0 <= opts.initial <= opts.max
    ensures Min(opts.initial + i, opts.max) <= Wait(opts, i) <= opts.max
  {
    WaitsAreMonotonic(opts, 0, i);
    if i > 0 {
      WaitsGrow(opts, i - 1);
      WaitsAreMonotonic(opts, 0, i - 1);
      NextIsLonger(opts, Wait(opts, i - 1));
    }
  }

  lemma {:induction false} WaitsStall(opts: Options, i: nat)
    requires opts.multiplier >= 1.0 && !KeepsGrowing(opts) && 0 <= opts.initial <= opts.max
    ensures Wait(opts, i) == opts.initial
  {
    if i > 0 {
      WaitsStall(opts, i - 1);
      NextStalls(opts);
    }
  }

  /**
   The delays become constant, for every real multiplier of at least one. Truncation
   decides where: they stay at the first delay if one multiplication adds less than a
   nanosecond to it, and reach the maximum otherwise.
   */
  lemma WaitsSettle(opts: Options, i: nat)
    requires opts.multiplier >= 1.0 && 0 <= opts.initial <= opts.max && i >= opts.max - opts.initial
    ensures Wait(opts, i) == if KeepsGrowing(opts) then opts.max else opts.initial
    ensures Wait(opts, i) == opts.max <==> opts.initial == opts.max || KeepsGrowing(opts)
  {
    if KeepsGrowing(opts) {
      WaitsGrow(opts, i);
    } else {
      WaitsStall(opts, i);
    }
  }

  /** A multiplier of one and a half does not move a first delay of one. */
  lemma SmallDelaysStall(max: int, i: nat)
    requires max >= 1
    ensures Wait(Options(1, max, 1.5), i) == 1
  {
    WaitsStall(Options(1, max, 1.5), i);
  }

  /** A first delay above the maximum is followed by the maximum for good. */
  lemma {:induction false} OversizedFirstWait(opts: Options, i: nat)
    requires opts.multiplier >= 1.0 && 0 <= opts.max < opts.initial && i > 0
    ensures Wait(opts, i) == opts.max
  {
    if i == 1 {
      ProductGrows(opts.initial as real, opts.multiplier);
      assert Wait(opts, 0) == opts.initial;
    } else {
      OversizedFirstWait(opts, i - 1);
      NextGrows(opts, opts.max);
    }
  }

  /** A configuration with a first delay and a maximum above zero and a multiplier of at least one. */
  predicate PositiveDelays(opts: Options) {
    opts.multiplier >= 1.0 && opts.initial > 0 && opts.max > 0
  }

  lemma PositiveDelaysArePositive(opts: Options, i: nat)
    requires PositiveDelays(opts)
    ensures Wait(opts, i) > 0
  {
    if opts.initial <= opts.max {
      WaitsAreMonotonic(opts, 0, i);
    } else if i > 0 {
      OversizedFirstWait(opts, i);
    }
  }
}
