/** The waiting time between attempts (retry.go:64-122). Random numbers are a
    parameter in [0, 1); floating-point products are taken over the reals. */
module Backoff {
  import opened Int64

  const MAX_ATTEMPT: nat := 30

  function Pow2(k: nat): (r: int)
    ensures r >= 1
  {
    if k == 0 then 1 else 2 * Pow2(k - 1)
  }

  function Min(a: int, b: int): int { if a < b then a else b }

  /** The bound the documentation gives: min(cap, unit * 2^attempt), the exponent
      limited to 30. */
  function Bound(unit: int, cap: int, attempt: nat): int {
    Min(cap, unit * Pow2(Min(attempt, MAX_ATTEMPT)))
  }

  /** Conversion of a float to a Duration truncates toward zero. */
  function Truncate(x: real): int {
    if x >= 0.0 then x.Floor else -((-x).Floor)
  }

  /** The jitter a caller may give: at least none, at most all. */
  function Normalized(jitter: real): (r: real)
    ensures 0.0 <= r <= 1.0
    ensures 0.0 <= jitter <= 1.0 ==> r == jitter
    ensures jitter <= 0.0 ==> r == 0.0
    ensures jitter >= 1.0 ==> r == 1.0
  {
    if jitter < 0.0 then 0.0 else if jitter > 1.0 then 1.0 else jitter
  }

  lemma {:induction false} Pow2Monotone(j: nat, k: nat)
    requires j <= k
    ensures Pow2(j) <= Pow2(k)
  {
    if j < k {
      Pow2Monotone(j, k - 1);
    }
  }

  lemma Pow2Of30()
    ensures Pow2(30) == 0x4000_0000
  {
    assert Pow2(10) == 1024 by {
      assert Pow2(5) == 32;
    }
    assert Pow2(15) == 0x8000;
    assert Pow2(20) == 0x10_0000;
    assert Pow2(25) == 0x200_0000;
  }

  lemma Scaled(unit: int, k: nat, l: nat)
    requires unit >= 0 && k <= l
    ensures 0 <= unit * Pow2(k) <= unit * Pow2(l)
  {
    Pow2Monotone(k, l);
    Times(unit, Pow2(k), Pow2(l));
  }

  lemma Times(u: int, a: int, b: int)
    requires u >= 0 && 0 <= a <= b
    ensures 0 <= u * a <= u * b
  {
  }

  /** No attempt number overflows if and only if the unit is below 2^33 ns. */
  lemma NoOverflowExactly(unit: int)
    requires 0 <= unit < TWO_63
    ensures (forall attempt: nat :: Fits(unit * Pow2(Min(attempt, MAX_ATTEMPT)))) <==> unit < 0x2_0000_0000
  {
    Pow2Of30();
    forall attempt: nat ensures 0 <= unit * Pow2(Min(attempt, MAX_ATTEMPT)) <= unit * Pow2(MAX_ATTEMPT) {
      Scaled(unit, Min(attempt, MAX_ATTEMPT), MAX_ATTEMPT);
    }
    if unit >= 0x2_0000_0000 {
      assert Min(MAX_ATTEMPT, MAX_ATTEMPT) == MAX_ATTEMPT;
      assert !Fits(unit * Pow2(Min(MAX_ATTEMPT, MAX_ATTEMPT)));
    }
  }

  lemma CappedIsBound(unit: int, cap: int, attempt: nat)
    requires 0 <= unit < 0x2_0000_0000 && 0 <= cap
    ensures Min(cap, Wrap64(unit * Pow2(Min(attempt, MAX_ATTEMPT)))) == Bound(unit, cap, attempt) >= 0
  {
    NoOverflowExactly(unit);
    assert Fits(unit * Pow2(Min(attempt, MAX_ATTEMPT)));
    Scaled(unit, Min(attempt, MAX_ATTEMPT), MAX_ATTEMPT);
  }

  /** The bound is the smaller of the cap and the unit doubled once per attempt, up to
      thirty times. */
  lemma BoundIsLeast(unit: int, cap: int, attempt: nat)
    ensures Bound(unit, cap, attempt) <= cap
    ensures attempt <= 30 ==> Bound(unit, cap, attempt) <= unit * Pow2(attempt)
    ensures attempt > 30 ==> Bound(unit, cap, attempt) == Bound(unit, cap, 30)
    ensures attempt <= 30 && Bound(unit, cap, attempt) < cap ==> Bound(unit, cap, attempt) == unit * Pow2(attempt)
  {
  }

  /** The wait w less this share of it, rounded toward w. */
  predicate Jittered(w: int, share: real, sleep: int) {
    var exact := w as real - share * w as real;
    if w >= 0 then exact <= sleep as real < exact + 1.0 else exact - 1.0 < sleep as real <= exact
  }

  /** A wait between nothing and its bound, less this share of the bound. */
  predicate WaitFor(bound: int, share: real, sleep: int) {
    0 <= sleep <= bound && Jittered(bound, share, sleep)
  }

  lemma FloorIs(x: real)
    ensures x.Floor as real <= x < x.Floor as real + 1.0
  {
  }

  lemma ReductionIsShare(w: int, random: real, jitter: real)
    requires 0.0 <= random < 1.0 && 0.0 <= jitter <= 1.0
    ensures Jittered(w, random * jitter, w - Reduction(w, random, jitter))
  {
    var share := random * jitter;
    Shrinks(random, jitter);
    var whole := w as real;
    var x := share * whole;
    assert random * jitter * w as real == x;
    FloorIs(x);
    FloorIs(-x);
    if w >= 0 {
      Shrinks(whole, share);
      assert x == whole * share;
    } else {
      Shrinks(-whole, share);
      assert -x == (-whole) * share;
    }
  }

  lemma NoShare(w: int, share: real)
    requires share == 0.0
    ensures Jittered(w, share, w)
  {
    assert share * w as real == 0.0;
  }

  /** The random part taken off a wait. */
  function Reduction(sleep: int, random: real, jitter: real): int {
    Truncate(random * jitter * sleep as real)
  }

  lemma Shrinks(x: real, f: real)
    requires 0.0 <= x && 0.0 <= f <= 1.0
    ensures 0.0 <= x * f <= x
  {
  }

  lemma FloorBelow(y: real, bound: int)
    requires 0.0 <= y <= bound as real
    ensures 0 <= y.Floor <= bound
  {
  }

  lemma ShareOf(share: real, sleep: int)
    requires 0.0 <= share <= 1.0 && sleep >= 0
    ensures 0 <= Truncate(share * sleep as real) <= sleep
  {
    var whole := sleep as real;
    Shrinks(whole, share);
    var part := share * whole;
    assert part == whole * share;
    FloorBelow(part, sleep);
  }

  /** It is never more than the wait itself. */
  lemma ReductionBounds(sleep: int, random: real, jitter: real)
    requires sleep >= 0 && 0.0 <= random < 1.0 && 0.0 <= jitter <= 1.0
    ensures 0 <= Reduction(sleep, random, jitter) <= sleep
    ensures jitter == 0.0 ==> Reduction(sleep, random, jitter) == 0
  {
    Shrinks(random, jitter);
    var share := random * jitter;
    ShareOf(share, sleep);
    if jitter == 0.0 {
      assert share == 0.0;
      assert share * sleep as real == 0.0;
    }
  }

  lemma WaitIs(w: int, random: real, jitter: real)
    requires 0.0 <= random < 1.0 && 0.0 <= jitter <= 1.0
    ensures var sleep := if jitter != 0.0 then w - Reduction(w, random, jitter) else w;
      Jittered(w, random * jitter, sleep) && (w >= 0 ==> WaitFor(w, random * jitter, sleep))
  {
    if jitter != 0.0 {
      ReductionIsShare(w, random, jitter);
      if w >= 0 {
        ReductionBounds(w, random, jitter);
      }
    } else {
      NoShare(w, random * jitter);
    }
  }

  /** The wait for one attempt number: the doubled and capped unit less the random share
      of it; for units that do not overflow this is the documented bound. */
  method ExponentialBackoffWait(unit: int, cap: int, jitter: real, random: real, attemptNo: nat) returns (sleep: int)
    requires Fits(unit) && Fits(cap) && 0.0 <= random < 1.0 && 0.0 <= jitter <= 1.0
    ensures Jittered(Min(cap, Wrap64(unit * Pow2(Min(attemptNo, MAX_ATTEMPT)))), random * jitter, sleep)
    ensures jitter == 0.0 ==> sleep == Min(cap, Wrap64(unit * Pow2(Min(attemptNo, MAX_ATTEMPT))))
    ensures 0 <= cap && 0 <= unit < 0x2_0000_0000 ==>
      && WaitFor(Bound(unit, cap, attemptNo), random * jitter, sleep)
      && (jitter == 0.0 ==> sleep == Bound(unit, cap, attemptNo))
  {
    var attempt := attemptNo;
    if attempt > MAX_ATTEMPT {
      attempt := MAX_ATTEMPT;
    }
    sleep := Wrap64(unit * Pow2(attempt));
    if sleep > cap {
      sleep := cap;
    }
    assert sleep == Min(cap, Wrap64(unit * Pow2(Min(attemptNo, MAX_ATTEMPT))));
    if 0 <= unit < 0x2_0000_0000 && 0 <= cap {
      CappedIsBound(unit, cap, attemptNo);
    }
    WaitIs(sleep, random, jitter);
    if jitter != 0.0 {
      sleep := sleep - Reduction(sleep, random, jitter);
    }
  }

  /** A unit of 2^33 ns makes the thirtieth wait negative: the timer fires at once. */
  lemma OverflowingUnit(cap: int)
    requires 0 <= cap < TWO_63
    ensures Min(cap, Wrap64(0x2_0000_0000 * Pow2(MAX_ATTEMPT))) == -TWO_63
  {
    Pow2Of30();
    assert 0x2_0000_0000 * Pow2(MAX_ATTEMPT) == TWO_63;
  }

  lemma BoundGrows(unit: int, cap: int, j: nat, k: nat)
    requires 0 <= unit && j <= k
    ensures Bound(unit, cap, j) <= Bound(unit, cap, k)
  {
    Scaled(unit, Min(j, MAX_ATTEMPT), Min(k, MAX_ATTEMPT));
  }

  /** After attempt k comes the wait for attempt k + 1, less the random share of it. */
  predicate WaitsAre(unit: int, cap: int, jitter: real, randoms: seq<real>, waits: seq<int>) {
    && |waits| == |randoms|
    && (forall k :: 0 <= k < |waits| ==> WaitFor(Bound(unit, cap, k + 1), randoms[k] * jitter, waits[k]))
    && (jitter == 0.0 ==> forall k :: 0 <= k < |waits| ==> waits[k] == Bound(unit, cap, k + 1))
  }

  lemma OneMoreWait(unit: int, cap: int, jitter: real, randoms: seq<real>, waits: seq<int>, random: real, wait: int)
    requires WaitsAre(unit, cap, jitter, randoms, waits)
    requires WaitFor(Bound(unit, cap, |waits| + 1), random * jitter, wait)
    requires jitter == 0.0 ==> wait == Bound(unit, cap, |waits| + 1)
    ensures WaitsAre(unit, cap, jitter, randoms + [random], waits + [wait])
  {
    forall k | 0 <= k < |waits + [wait]|
      ensures WaitFor(Bound(unit, cap, k + 1), (randoms + [random])[k] * jitter, (waits + [wait])[k])
    {
      if k < |waits| {
        assert WaitFor(Bound(unit, cap, k + 1), randoms[k] * jitter, waits[k]);
      }
    }
  }

  /** The goroutine of the retry timer, for a number of rounds: attempt numbers are
      emitted in order, each followed by the wait for the next one. */
  method RetryTimer(unit: int, cap: int, jitter: real, randoms: seq<real>) returns (attempts: seq<nat>, waits: seq<int>)
    requires 0 <= unit < 0x2_0000_0000 && 0 <= cap < TWO_63
    requires forall k :: 0 <= k < |randoms| ==> 0.0 <= randoms[k] < 1.0
    ensures |attempts| == |randoms| && forall k :: 0 <= k < |attempts| ==> attempts[k] == k
    ensures WaitsAre(unit, cap, Normalized(jitter), randoms, waits)
    ensures jitter <= 0.0 ==> forall j, k :: 0 <= j <= k < |waits| ==> waits[j] <= waits[k]
  {
    var norm := Normalized(jitter);
    var nextBackoff := 0;
    attempts, waits := [], [];
    for round := 0 to |randoms|
      invariant |attempts| == |waits| == round == nextBackoff
      invariant forall k :: 0 <= k < round ==> attempts[k] == k
      invariant WaitsAre(unit, cap, norm, randoms[..round], waits)
    {
      attempts := attempts + [nextBackoff];
      nextBackoff := nextBackoff + 1;
      var wait := ExponentialBackoffWait(unit, cap, norm, randoms[round], nextBackoff);
      OneMoreWait(unit, cap, norm, randoms[..round], waits, randoms[round], wait);
      assert randoms[..round] + [randoms[round]] == randoms[..round + 1];
      waits := waits + [wait];
    }
    assert randoms[..|randoms|] == randoms;
    WaitsGrow(unit, cap, waits);
  }

  lemma WaitsGrow(unit: int, cap: int, waits: seq<int>)
    requires 0 <= unit
    ensures (forall k :: 0 <= k < |waits| ==> waits[k] == Bound(unit, cap, k + 1)) ==>
      forall j, k :: 0 <= j <= k < |waits| ==> waits[j] <= waits[k]
  {
    if forall k :: 0 <= k < |waits| ==> waits[k] == Bound(unit, cap, k + 1) {
      forall j, k | 0 <= j <= k < |waits| ensures waits[j] <= waits[k] {
        BoundGrows(unit, cap, j + 1, k + 1);
      }
    }
  }
}
