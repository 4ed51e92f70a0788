/** Bounded model retry (`ai/retry.go`): the attempt loop and the int64 backoff. */
module Retry {
  import opened Int64
  import opened Options

  function Pow2(n: nat): (p: nat)
    ensures p >= 1
  {
    if n == 0 then 1 else 2 * Pow2(n - 1)
  }

  // ----- backoff, in nanoseconds -----

  const DEFAULT_BACKOFF: int := 200_000_000
  const MAX_BACKOFF: int := 30_000_000_000

  function Base(base: int): (b: int)
    ensures b > 0
  {
    if base <= 0 then DEFAULT_BACKOFF else base
  }

  /** The doubled base: a left shift, which wraps. */
  function Shifted(base: int, attempt: nat): int {
    if attempt > 1 then Wrap(Base(base) * Pow2(attempt - 1)) else Base(base)
  }

  function Cap(x: int): int {
    if x > MAX_BACKOFF then MAX_BACKOFF else x
  }

  /** The delay before jitter: a longer delay asked for by the server wins. */
  function Delay(base: int, attempt: nat, retryAfter: Option<int>): int {
    var b := Cap(Shifted(base, attempt));
    if retryAfter.Some? && retryAfter.value > b then retryAfter.value else b
  }

  /** The wait after a failed attempt; `random` is drawn from 0 to jitter when jitter is
      positive and 0 otherwise. */
  function Backoff(base: int, attempt: nat, retryAfter: Option<int>, random: int): int {
    Cap(Wrap(Delay(base, attempt, retryAfter) + random))
  }

  ghost predicate InRange(wait: int) {
    0 < wait <= MAX_BACKOFF
  }

  /** A sum of a delay and a jitter, once wrapped and capped. */
  lemma WrappedSum(delay: int, random: int)
    requires -TWO63 <= delay < TWO63 && 0 <= random < TWO63
    ensures InRange(Cap(Wrap(delay + random))) <==> 0 < delay + random < TWO63
    ensures delay + random >= TWO63 ==> Cap(Wrap(delay + random)) < 0
  {
    var d := delay + random;
    assert Wrap(d) == if d < TWO63 then d else d - TWO64;
  }

  /** The longest delay that attempt a may have to wait for, before jitter: the doubled base up
      to 30 seconds, or what the server asks for. */
  function Longest(base: int, attempt: nat, retryAfter: int): (d: int)
    requires attempt >= 1
    ensures d >= retryAfter
  {
    var b := Cap(Base(base) * Pow2(attempt - 1));
    if retryAfter > b then retryAfter else b
  }

  lemma ShiftFits(base: int, attempt: nat)
    requires attempt >= 1 && Base(base) * Pow2(attempt - 1) < TWO63
    ensures Shifted(base, attempt) == Base(base) * Pow2(attempt - 1) > 0
  {
    assert Base(base) * Pow2(attempt - 1) > 0;
    WrapIffFits(Base(base) * Pow2(attempt - 1));
  }

  /** As long as the doubled base is an int64 number, a wait is positive and at most 30 seconds
      if and only if the longer of the capped doubled base and the Retry-After, plus the jitter
      drawn, is one too. */
  lemma BackoffInRangeIff(base: int, attempt: nat, retryAfter: Option<int>, random: int)
    requires IsInt64(base) && attempt >= 1 && Base(base) * Pow2(attempt - 1) < TWO63
    requires (retryAfter.Some? ==> IsInt64(retryAfter.value)) && 0 <= random < TWO63
    ensures var asked := if retryAfter.Some? then retryAfter.value else 0;
            InRange(Backoff(base, attempt, retryAfter, random)) <==> Longest(base, attempt, asked) + random < TWO63
  {
    ShiftFits(base, attempt);
    WrappedSum(Delay(base, attempt, retryAfter), random);
  }

  /** In range whenever neither the shift nor the sum leaves the int64 range. */
  lemma BackoffInRange(base: int, attempt: nat, retryAfter: Option<int>, random: int)
    requires IsInt64(base) && attempt >= 1 && Base(base) * Pow2(attempt - 1) < TWO63 && 0 <= random
    requires MAX_BACKOFF + random < TWO63
    requires retryAfter.Some? ==> IsInt64(retryAfter.value) && retryAfter.value + random < TWO63
    ensures InRange(Backoff(base, attempt, retryAfter, random))
  {
    BackoffInRangeIff(base, attempt, retryAfter, random);
  }

  /** What is waited for, as long as nothing wraps: the base, 200ms without one, doubled with every
      attempt up to 30 seconds, or a longer Retry-After, plus the jitter, and never more than 30
      seconds. */
  lemma WaitIs(base: int, attempt: nat, retryAfter: Option<int>, random: int)
    requires IsInt64(base) && attempt >= 1 && 0 <= random
    requires (if base > 0 then base else 200_000_000) * Pow2(attempt - 1) < TWO63
    requires retryAfter.Some? ==> IsInt64(retryAfter.value) && retryAfter.value + random < TWO63
    requires 30_000_000_000 + random < TWO63
    ensures var doubled := (if base > 0 then base else 200_000_000) * Pow2(attempt - 1);
            var own := if doubled > 30_000_000_000 then 30_000_000_000 else doubled;
            var asked := if retryAfter.Some? && retryAfter.value > own then retryAfter.value else own;
            Backoff(base, attempt, retryAfter, random) ==
              if asked + random > 30_000_000_000 then 30_000_000_000 else asked + random
  {
    ShiftFits(base, attempt);
    WrapIffFits(Delay(base, attempt, retryAfter) + random);
  }

  /** If the doubled base of attempt n does not fit, some wait up to it is negative: the first
      one that does not fit lies below 2^64. */
  lemma {:induction false} SomeWaitIsNegative(base: int, n: nat) returns (a: nat)
    requires IsInt64(base) && n >= 1 && Base(base) * Pow2(n - 1) >= TWO63
    ensures 1 <= a <= n && Backoff(base, a, None, 0) < 0
  {
    assert Pow2(0) == 1;
    ShiftGrows(base, n - 1);
    if Base(base) * Pow2(n - 2) >= TWO63 {
      a := SomeWaitIsNegative(base, n - 1);
    } else {
      a := n;
      var x := Base(base) * Pow2(n - 1);
      assert TWO63 <= x < TWO64;
      assert Wrap(x) == x - TWO64;
      assert Delay(base, n, None) == x - TWO64;
      WrapIffFits(x - TWO64);
    }
  }

  lemma {:induction false} DoublingGrows(base: int, a: nat, n: nat)
    requires 1 <= a <= n
    ensures Base(base) * Pow2(a - 1) <= Base(base) * Pow2(n - 1)
    decreases n
  {
    if a < n {
      DoublingGrows(base, a, n - 1);
      ShiftGrows(base, n - 1);
    }
  }

  /** Without Retry-After and jitter: all waits up to attempt n are positive and at most 30
      seconds if and only if base * 2^(n - 1) is an int64 number. */
  lemma PlainWaitsInRangeIff(base: int, n: nat)
    requires IsInt64(base) && n >= 1
    ensures (forall a: nat :: 1 <= a <= n ==> InRange(Backoff(base, a, None, 0))) <==> Base(base) * Pow2(n - 1) < TWO63
  {
    if Base(base) * Pow2(n - 1) < TWO63 {
      forall a: nat | 1 <= a <= n ensures InRange(Backoff(base, a, None, 0)) {
        DoublingGrows(base, a, n);
        BackoffInRangeIff(base, a, None, 0);
      }
    } else {
      var a := SomeWaitIsNegative(base, n);
      assert !InRange(Backoff(base, a, None, 0));
    }
  }

  /** What the first n waits can be, for servers that ask for at most `longest` and a jitter. */
  ghost predicate PossibleWait(n: nat, longest: int, jitter: int, a: nat, retryAfter: Option<int>, random: int) {
    && 1 <= a <= n && 0 <= random <= jitter
    && (retryAfter.Some? ==> IsInt64(retryAfter.value) && retryAfter.value <= longest)
  }

  /** With Retry-After and jitter: every possible wait up to attempt n is in range if and only if
      the doubled base fits, and the longest delay plus the whole jitter does. */
  lemma WaitsInRangeIff(base: int, n: nat, longest: int, jitter: int)
    requires IsInt64(base) && n >= 1 && IsInt64(longest) && 0 <= jitter < TWO63
    ensures (forall a: nat, retryAfter, random :: PossibleWait(n, longest, jitter, a, retryAfter, random) ==>
               InRange(Backoff(base, a, retryAfter, random)))
            <==> Base(base) * Pow2(n - 1) < TWO63 && Longest(base, n, longest) + jitter < TWO63
  {
    if Base(base) * Pow2(n - 1) >= TWO63 {
      var a := SomeWaitIsNegative(base, n);
      assert PossibleWait(n, longest, jitter, a, None, 0);
    } else {
      BackoffInRangeIff(base, n, Some(longest), jitter);
      assert PossibleWait(n, longest, jitter, n, Some(longest), jitter);
      if Longest(base, n, longest) + jitter < TWO63 {
        forall a: nat, retryAfter, random | PossibleWait(n, longest, jitter, a, retryAfter, random)
          ensures InRange(Backoff(base, a, retryAfter, random))
        {
          DoublingGrows(base, a, n);
          BackoffInRangeIff(base, a, retryAfter, random);
        }
      }
    }
  }

  /** As long as nothing wraps, later waits are not shorter. */
  lemma {:induction false} BackoffGrows(base: int, a: nat, b: nat)
    requires 1 <= a <= b && Base(base) * Pow2(b - 1) < TWO63
    ensures Backoff(base, a, None, 0) <= Backoff(base, b, None, 0)
    decreases b
  {
    if a < b {
      ShiftGrows(base, b - 1);
      BackoffGrows(base, a, b - 1);
      ShiftFits(base, b);
      ShiftFits(base, b - 1);
      BackoffIsCap(base, b);
      BackoffIsCap(base, b - 1);
    }
  }

  lemma ShiftGrows(base: int, a: nat)
    requires a >= 1
    ensures Base(base) * Pow2(a) == 2 * (Base(base) * Pow2(a - 1))
    ensures Base(base) * Pow2(a - 1) <= Base(base) * Pow2(a)
  {
    var x, p := Base(base), Pow2(a - 1);
    assert Pow2(a) == 2 * p;
    assert x * (2 * p) == 2 * (x * p);
    assert x * p >= 0;
  }

  lemma BackoffIsCap(base: int, attempt: nat)
    requires attempt >= 1 && Base(base) * Pow2(attempt - 1) < TWO63
    ensures Backoff(base, attempt, None, 0) == Cap(Base(base) * Pow2(attempt - 1))
  {
    ShiftFits(base, attempt);
    WrapIffFits(Delay(base, attempt, None));
  }

  lemma {:induction false} Pow2At(n: nat, k: nat)
    requires k <= n
    ensures Pow2(n) == Pow2(k) * Pow2(n - k)
  {
    if k > 0 {
      Pow2At(n - 1, k - 1);
      assert Pow2(n) == 2 * (Pow2(k - 1) * Pow2(n - k));
    }
  }

  lemma DefaultFits()
    ensures DEFAULT_BACKOFF * Pow2(35) < TWO63 <= DEFAULT_BACKOFF * Pow2(36)
  {
    assert Pow2(9) == 512;
    Pow2At(18, 9);
    Pow2At(36, 18);
    assert Pow2(36) == 2 * Pow2(35);
  }

  lemma DefaultFitsIff(n: nat)
    requires n >= 1
    ensures Base(0) * Pow2(n - 1) < TWO63 <==> n <= 36
  {
    DefaultFits();
    if n <= 36 {
      DoublingGrows(0, n, 36);
    } else {
      DoublingGrows(0, 37, n);
    }
  }

  /** With the default base the waits stay in range for exactly 36 attempts. */
  lemma DefaultWaitsInRangeIff(n: nat)
    requires n >= 1
    ensures (forall a: nat :: 1 <= a <= n ==> InRange(Backoff(0, a, None, 0))) <==> n <= 36
  {
    PlainWaitsInRangeIff(0, n);
    DefaultFitsIff(n);
  }

  /** The default backoff wraps at the 37th attempt: the wait is negative, that is, none. */
  lemma DefaultBackoffWraps()
    ensures Backoff(0, 37, None, 0) < 0
    ensures !InRange(Backoff(0, 37, None, 0)) && InRange(Backoff(0, 36, None, 0))
  {
    DefaultFitsIff(37);
    var a := SomeWaitIsNegative(0, 37);
    DefaultWaitsInRangeIff(36);
    assert a > 36;
  }

  // ----- the attempt loop -----

  datatype Kind = Unknown | Canceled | TimedOut | RateLimited | Unavailable | Auth | Configuration | Provider

  datatype Error = Error(kind: Kind, retryAfter: Option<int>)

  datatype Attempt = Answered(response: string) | Failed(error: Error)

  datatype Outcome =
    | Success(response: string)
    | CallerCanceled                             // the error of the caller's context
    | PlainError(error: Error)
    | RetryError(attempts: nat, error: Error)
    | NoModel

  predicate IsTransient(k: Kind) {
    k == TimedOut || k == RateLimited || k == Unavailable
  }

  /** A timeout, a rate limit and an unavailable provider pass; nothing else does. */
  ghost predicate Passes(k: Kind) {
    k.TimedOut? || k.RateLimited? || k.Unavailable?
  }

  /** All of these attempts failed in a way that is worth another one. */
  ghost predicate AllTransient(made: seq<Attempt>) {
    forall i :: 0 <= i < |made| ==> made[i].Failed? && Passes(made[i].error.kind)
  }

  /** The i-th wait is the backoff after the i-th failure, with the jitter drawn for it. */
  ghost predicate WaitsOk(base: int, jitter: int, made: seq<Attempt>, waits: seq<int>, draws: seq<int>) {
    && |draws| == |waits| <= |made|
    && (forall i :: 0 <= i < |draws| ==> 0 <= draws[i] <= (if jitter > 0 then jitter else 0))
    && (forall i :: 0 <= i < |waits| ==> made[i].Failed?)
    && (forall i :: 0 <= i < |waits| ==> waits[i] == Backoff(base, i + 1, made[i].error.retryAfter, draws[i]))
  }

  lemma WaitsOkMore(base: int, jitter: int, made: seq<Attempt>, waits: seq<int>, draws: seq<int>, a: Attempt)
    requires WaitsOk(base, jitter, made, waits, draws)
    ensures WaitsOk(base, jitter, made + [a], waits, draws)
  {
    var more := made + [a];
    assert forall i :: 0 <= i < |waits| ==> more[i] == made[i];
  }

  lemma WaitsOkWaited(base: int, jitter: int, made: seq<Attempt>, waits: seq<int>, draws: seq<int>, draw: int)
    requires WaitsOk(base, jitter, made, waits, draws) && |made| == |waits| + 1 && made[|waits|].Failed?
    requires 0 <= draw <= if jitter > 0 then jitter else 0
    ensures var wait := Backoff(base, |made|, made[|waits|].error.retryAfter, draw);
            WaitsOk(base, jitter, made, waits + [wait], draws + [draw])
  {
    var more, drawn := waits + [Backoff(base, |made|, made[|waits|].error.retryAfter, draw)], draws + [draw];
    forall i | 0 <= i < |more| ensures more[i] == Backoff(base, i + 1, made[i].error.retryAfter, drawn[i]) {
      assert i < |waits| ==> waits[i] == Backoff(base, i + 1, made[i].error.retryAfter, draws[i]);
    }
  }

  /** Calls the model up to maxAttempts times. `made` are the attempts, `waits` the timers
      started between them and `draws` their jitter; `canceledAt` is how many attempts had started when the caller's
      context was canceled. */
  method GenerateWithRetry(hasModel: bool, maxAttempts: int, base: int, jitter: int)
    returns (out: Outcome, ghost made: seq<Attempt>, ghost waits: seq<int>, ghost draws: seq<int>,
             ghost canceledAt: Option<nat>)
    ensures |made| <= if maxAttempts <= 0 then 1 else maxAttempts
    ensures out == NoModel <==> !hasModel
    ensures !hasModel ==> made == []
    // Attempts are only repeated after transient failures, each after its backoff.
    ensures |made| > 0 ==> AllTransient(made[..|made| - 1])
    ensures WaitsOk(base, jitter, made, waits, draws) && |made| <= |waits| + 1
    // No attempt starts after the caller's cancellation, and it is what is returned.
    ensures canceledAt.Some? ==> |made| <= canceledAt.value && out == CallerCanceled
    ensures out == CallerCanceled ==> canceledAt.Some?
    // The result is that of the last attempt.
    ensures out.Success? ==> |made| > 0 && made[|made| - 1] == Answered(out.response)
    ensures out.PlainError? ==>
              made == [Failed(out.error)] && !Passes(out.error.kind)
    ensures out.RetryError? ==>
              && |made| > 0 && out.attempts == |made| && made[|made| - 1] == Failed(out.error)
              && (Passes(out.error.kind) ==> |made| == if maxAttempts <= 0 then 1 else maxAttempts)
              && (!Passes(out.error.kind) ==> |made| > 1)
  {
    made, waits, draws, canceledAt := [], [], [], None;
    var max := if maxAttempts <= 0 then 1 else maxAttempts;
    if !hasModel {
      return NoModel, [], [], [], None;
    }
    var attempt := 1;
    while true
      invariant 1 <= attempt <= max && |made| == attempt - 1 == |waits|
      invariant canceledAt.None? && AllTransient(made) && WaitsOk(base, jitter, made, waits, draws)
      decreases max - attempt
    {
      var canceled: bool := *;
      if canceled {
        canceledAt := Some(attempt - 1);
        assert |made| > 0 ==> AllTransient(made[..|made| - 1]);
        return CallerCanceled, made, waits, draws, canceledAt;
      }
      var result: Attempt := *;
      ghost var before := made;
      WaitsOkMore(base, jitter, made, waits, draws, result);
      made := made + [result];
      assert made[..|made| - 1] == before;
      // Cancellation during the attempt wins over whatever the model returned.
      var canceledMeanwhile: bool := *;
      if canceledMeanwhile {
        canceledAt := Some(attempt);
        return CallerCanceled, made, waits, draws, canceledAt;
      }
      var error;
      match result {
        case Answered(response) => return Success(response), made, waits, draws, canceledAt;
        case Failed(e) => error := e;
      }
      var transient := IsTransient(error.kind);
      if attempt == max || !transient {
        if attempt > 1 || transient {
          return RetryError(attempt, error), made, waits, draws, canceledAt;
        }
        return PlainError(error), made, waits, draws, canceledAt;
      }
      var random: int := 0;
      if jitter > 0 {
        random :| 0 <= random <= jitter;
      }
      var wait := Backoff(base, attempt, error.retryAfter, random);
      WaitsOkWaited(base, jitter, made, waits, draws, random);
      waits, draws := waits + [wait], draws + [random];
      var canceledWaiting: bool := *;
      if canceledWaiting {
        canceledAt := Some(attempt);
        return CallerCanceled, made, waits, draws, canceledAt;
      }
      attempt := attempt + 1;
    }
  }

  /** Every wait of the loop is positive and at most 30 seconds unless the shift for its
      attempt, or its Retry-After plus the jitter, leaves the int64 range. */
  lemma WaitsInRange(base: int, jitter: int, made: seq<Attempt>, waits: seq<int>, draws: seq<int>, i: nat)
    requires WaitsOk(base, jitter, made, waits, draws) && i < |waits|
    requires IsInt64(base) && Base(base) * Pow2(i) < TWO63 && MAX_BACKOFF + jitter < TWO63
    requires made[i].error.retryAfter.Some? ==>
               var after := made[i].error.retryAfter.value; IsInt64(after) && after + draws[i] < TWO63
    ensures InRange(waits[i])
  {
    BackoffInRange(base, i + 1, made[i].error.retryAfter, draws[i]);
  }
}
