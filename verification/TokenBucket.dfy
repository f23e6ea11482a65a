/** The token bucket that limits command and bulk write rates (core/common.py). */
module TokenBuckets {
  import opened Wrappers

  datatype Bucket = Bucket(rate: real, capacity: real, tokens: real, last: real)

  function Min(a: real, b: real): (m: real) {
    if a <= b then a else b
  }

  /** What the time between two calls is worth. */
  function Earned(rate: real, last: real, now: real): (credit: real) {
    (now - last) * rate
  }

  /** Tokens on hand once the time since the last call has been credited. */
  function Level(b: Bucket, now: real): (tokens: real) {
    Min(b.capacity, b.tokens + Earned(b.rate, b.last, now))
  }

  predicate Admits(b: Bucket, now: real) {
    Level(b, now) >= 1.0
  }

  function Called(b: Bucket, now: real): (b': Bucket) {
    b.(tokens := if Admits(b, now) then Level(b, now) - 1.0 else Level(b, now), last := now)
  }

  class TokenBucket {
    const rate: real
    const capacity: real
    var tokens: real
    var last: real

    ghost function State(): Bucket
      reads this
    {
      Bucket(rate, capacity, tokens, last)
    }

    constructor (rateHz: real, burst: Option<real>, now: real)
      ensures State() == Bucket(rateHz, capacity, capacity, now)
      ensures capacity >= 1.0
      ensures burst.None? && rateHz >= 1.0 ==> capacity == rateHz
      ensures burst.Some? && burst.value >= 1.0 ==> capacity == burst.value
      ensures (if burst.Some? then burst.value else rateHz) < 1.0 ==> capacity == 1.0
    {
      var size := if burst.Some? then burst.value else rateHz;
      rate := rateHz;
      capacity := if size >= 1.0 then size else 1.0;
      tokens := if size >= 1.0 then size else 1.0;
      last := now;
    }

    method Allow(now: real) returns (ok: bool)
      modifies this`tokens, this`last
      ensures State() == Called(old(State()), now)
      ensures ok == Admits(old(State()), now)
    {
      tokens := Min(capacity, tokens + (now - last) * rate);
      last := now;
      if tokens >= 1.0 {
        tokens := tokens - 1.0;
        return true;
      }
      return false;
    }
  }

  /* ---- whole runs: calls at the times of a monotone clock ---- */

  ghost predicate Monotone(b: Bucket, times: seq<real>) {
    && (forall i :: 0 <= i < |times| ==> b.last <= times[i])
    && (forall i, j :: 0 <= i <= j < |times| ==> times[i] <= times[j])
  }

  /** A bucket in use: rate not negative, at most `capacity` tokens, room for one token. */
  ghost predicate InRange(b: Bucket) {
    b.rate >= 0.0 && 0.0 <= b.tokens <= b.capacity && b.capacity >= 1.0
  }

  ghost function After(b: Bucket, times: seq<real>): (b': Bucket) {
    if times == [] then b
    else Called(After(b, times[..|times| - 1]), times[|times| - 1])
  }

  /** Which calls of the run are admitted. */
  ghost function Admissions(b: Bucket, times: seq<real>): (flags: seq<bool>)
    ensures |flags| == |times|
  {
    seq(|times|, i requires 0 <= i < |times| => Admits(After(b, times[..i]), times[i]))
  }

  /** How many of the flags i, ..., j - 1 are set. */
  ghost function Count(flags: seq<bool>, i: nat, j: nat): (n: nat)
    requires i <= j <= |flags|
  {
    if i == j then 0 else Count(flags, i, j - 1) + if flags[j - 1] then 1 else 0
  }

  /** What a window that opens at call k and includes call n may admit. */
  ghost function Allowance(b: Bucket, times: seq<real>, k: nat, n: nat): (r: real)
    requires k <= n < |times|
  {
    b.capacity + b.rate * (times[n] - times[k])
  }

  /* ---- the same run on the amounts earned before each call, where everything is linear ---- */

  ghost predicate Sound(capacity: real, tokens: real, e: seq<real>) {
    && 0.0 <= tokens <= capacity && capacity >= 1.0
    && forall i :: 0 <= i < |e| ==> 0.0 <= e[i]
  }

  /** The level that call n sees. */
  ghost function LevelAt(capacity: real, tokens: real, e: seq<real>, n: nat): (r: real)
    requires n < |e|
    decreases n, 0
  {
    Min(capacity, (if n == 0 then tokens else Left(capacity, tokens, e, n - 1)) + e[n])
  }

  /** What call n leaves behind. */
  ghost function Left(capacity: real, tokens: real, e: seq<real>, n: nat): (r: real)
    requires n < |e|
    decreases n, 1
  {
    var level := LevelAt(capacity, tokens, e, n);
    if level >= 1.0 then level - 1.0 else level
  }

  ghost function Taken(capacity: real, tokens: real, e: seq<real>): (flags: seq<bool>)
    ensures |flags| == |e|
  {
    seq(|e|, i requires 0 <= i < |e| => LevelAt(capacity, tokens, e, i) >= 1.0)
  }

  /** What is earned after call k, up to call n. */
  ghost function EarnedSince(e: seq<real>, k: nat, n: nat): (r: real)
    requires k <= n < |e|
  {
    if k == n then 0.0 else EarnedSince(e, k, n - 1) + e[n]
  }

  lemma {:induction false} LevelInRange(capacity: real, tokens: real, e: seq<real>, n: nat)
    requires Sound(capacity, tokens, e) && n < |e|
    ensures 0.0 <= LevelAt(capacity, tokens, e, n) <= capacity
  {
    if n == 0 {
    } else {
      LevelInRange(capacity, tokens, e, n - 1);
    }
  }

  /** The level is below the remaining allowance of every window. */
  lemma {:induction false} LevelBelowAllowance(capacity: real, tokens: real, e: seq<real>, k: nat, n: nat)
    requires Sound(capacity, tokens, e) && k <= n < |e|
    ensures LevelAt(capacity, tokens, e, n)
         <= capacity + EarnedSince(e, k, n) - Count(Taken(capacity, tokens, e), k, n) as real
    decreases n - k
  {
    if k == n {
    } else {
      LevelBelowAllowance(capacity, tokens, e, k, n - 1);
    }
  }

  /** From a full bucket, the level is exactly the remaining allowance of some window. */
  lemma {:induction false} LevelAttainsAllowance(capacity: real, e: seq<real>, n: nat) returns (k: nat)
    requires Sound(capacity, capacity, e) && n < |e|
    ensures k <= n
    ensures LevelAt(capacity, capacity, e, n)
         == capacity + EarnedSince(e, k, n) - Count(Taken(capacity, capacity, e), k, n) as real
  {
    if LevelAt(capacity, capacity, e, n) == capacity {
      return n;
    }
    k := LevelAttainsAllowance(capacity, e, n - 1);
  }

  lemma {:induction false} TakenInWindow(capacity: real, tokens: real, e: seq<real>, i: nat, j: nat)
    requires Sound(capacity, tokens, e) && i < j <= |e|
    ensures Count(Taken(capacity, tokens, e), i, j) as real <= capacity + EarnedSince(e, i, j - 1)
  {
    if LevelAt(capacity, tokens, e, j - 1) >= 1.0 {
      LevelBelowAllowance(capacity, tokens, e, i, j - 1);
    } else if i < j - 1 {
      TakenInWindow(capacity, tokens, e, i, j - 1);
    } else {
      assert Count(Taken(capacity, tokens, e), i, i) == 0;
    }
  }

  /* ---- from earned amounts back to times ---- */

  ghost function Amounts(b: Bucket, times: seq<real>): (e: seq<real>)
    ensures |e| == |times|
  {
    seq(|times|, i requires 0 <= i < |times| =>
      Earned(b.rate, if i == 0 then b.last else times[i - 1], times[i]))
  }

  lemma EarnedIsNotNegative(rate: real, last: real, now: real)
    requires rate >= 0.0 && last <= now
    ensures Earned(rate, last, now) >= 0.0
  {
  }

  lemma AmountsAreSound(b: Bucket, times: seq<real>)
    requires InRange(b) && Monotone(b, times)
    ensures Sound(b.capacity, b.tokens, Amounts(b, times))
  {
    var e := Amounts(b, times);
    forall i | 0 <= i < |e| ensures 0.0 <= e[i] {
      EarnedIsNotNegative(b.rate, if i == 0 then b.last else times[i - 1], times[i]);
    }
  }

  lemma {:induction false} EarnedSinceIsElapsed(b: Bucket, times: seq<real>, k: nat, n: nat)
    requires k <= n < |times|
    ensures b.capacity + EarnedSince(Amounts(b, times), k, n) == Allowance(b, times, k, n)
    decreases n - k
  {
    if k == n {
    } else {
      EarnedSinceIsElapsed(b, times, k, n - 1);
      assert Amounts(b, times)[n] == Earned(b.rate, times[n - 1], times[n]);
      Telescope(b.rate, times[k], times[n - 1], times[n]);
    }
  }

  lemma Telescope(rate: real, a: real, b: real, c: real)
    ensures rate * (c - a) == rate * (b - a) + Earned(rate, b, c)
  {
  }

  lemma {:induction false} RunIsLinear(b: Bucket, times: seq<real>, n: nat)
    requires n < |times|
    ensures Level(After(b, times[..n]), times[n]) == LevelAt(b.capacity, b.tokens, Amounts(b, times), n)
    ensures After(b, times[..n + 1])
         == b.(tokens := Left(b.capacity, b.tokens, Amounts(b, times), n), last := times[n])
  {
    assert times[..n + 1][..n] == times[..n];
    if n == 0 {
    } else {
      RunIsLinear(b, times, n - 1);
    }
  }

  lemma AdmissionsAreTaken(b: Bucket, times: seq<real>)
    ensures Admissions(b, times) == Taken(b.capacity, b.tokens, Amounts(b, times))
  {
    forall i | 0 <= i < |times|
      ensures Admissions(b, times)[i] == Taken(b.capacity, b.tokens, Amounts(b, times))[i]
    {
      RunIsLinear(b, times, i);
    }
  }

  /* ---- the bounds ---- */

  /** Tokens stay within [0, capacity] over the whole run. */
  lemma TokensStayInRange(b: Bucket, times: seq<real>)
    requires InRange(b) && Monotone(b, times)
    ensures InRange(After(b, times))
  {
    if times != [] {
      var n := |times| - 1;
      assert times[..n + 1] == times;
      AmountsAreSound(b, times);
      RunIsLinear(b, times, n);
      LevelInRange(b.capacity, b.tokens, Amounts(b, times), n);
    }
  }

  /** Any span of calls admits at most capacity + rate * (its length in time). */
  lemma WindowBound(b: Bucket, times: seq<real>, i: nat, n: nat)
    requires InRange(b) && Monotone(b, times) && i <= n < |times|
    ensures Count(Admissions(b, times), i, n + 1) as real <= Allowance(b, times, i, n)
  {
    var e := Amounts(b, times);
    AmountsAreSound(b, times);
    AdmissionsAreTaken(b, times);
    TakenInWindow(b.capacity, b.tokens, e, i, n + 1);
    EarnedSinceIsElapsed(b, times, i, n);
  }

  /**
    A fresh bucket is the most generous limiter with that bound: a call is admitted exactly when
    admitting it overdraws no window of calls.
  */
  lemma AdmitsExactly(b: Bucket, times: seq<real>, n: nat)
    requires InRange(b) && Monotone(b, times) && b.tokens == b.capacity && n < |times|
    ensures Admissions(b, times)[n]
       <==> forall k: nat :: k <= n ==>
              Count(Admissions(b, times), k, n) as real + 1.0 <= Allowance(b, times, k, n)
  {
    var e := Amounts(b, times);
    AmountsAreSound(b, times);
    AdmissionsAreTaken(b, times);
    var flags := Admissions(b, times);
    forall k: nat | k <= n
      ensures Allowance(b, times, k, n) == b.capacity + EarnedSince(e, k, n)
      ensures Allowance(b, times, k, n) - Count(flags, k, n) as real >= LevelAt(b.capacity, b.tokens, e, n)
    {
      LevelBelowAllowance(b.capacity, b.tokens, e, k, n);
      EarnedSinceIsElapsed(b, times, k, n);
    }
    var k := LevelAttainsAllowance(b.capacity, e, n);
    assert Allowance(b, times, k, n) - Count(flags, k, n) as real == LevelAt(b.capacity, b.tokens, e, n);
  }
}
