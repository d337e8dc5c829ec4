/** The waiting times of a campaign (pkg/paxos/config.go, pkg/paxos/util.go, pkg/paxos/proposer.go:173-197).
    Durations are 64-bit counts of nanoseconds, and doubling one can wrap around. */
module Backoffs {

  const MILLISECOND := 1_000_000
  const SECOND := 1_000_000_000
  const LIMIT := 0x8000_0000_0000_0000

  predicate Fits(d: int) {
    -LIMIT <= d < LIMIT
  }

  type Duration = d: int | -LIMIT <= d < LIMIT

  /** Signed 64-bit wrap-around of a sum of two durations. */
  function Wrap(d: int): (r: Duration)
    requires -2 * LIMIT <= d < 2 * LIMIT
    ensures Fits(d) ==> r == d
    ensures r == d || r == d - 2 * LIMIT || r == d + 2 * LIMIT
  {
    if d >= LIMIT then d - 2 * LIMIT else if d < -LIMIT then d + 2 * LIMIT else d
  }

  datatype Config = Config(roundTimeout: Duration, minBackoff: Duration, maxBackoff: Duration)

  /** A setting in order is kept, and any other becomes the default. */
  predicate Filled(setting: int, inOrder: bool, byDefault: int, result: int) {
    (inOrder ==> result == setting) && (!inOrder ==> result == byDefault)
  }

  /** A timeout or first backoff that is positive is kept, and so is a cap that is not below the first backoff; what is not
      in order gets its default. That leaves the cap below the start exactly when the configured cap was below it and the
      start is over two seconds. */
  function WithDefaults(c: Config): (d: Config)
    ensures Filled(c.roundTimeout, c.roundTimeout > 0, 2 * SECOND, d.roundTimeout)
    ensures Filled(c.minBackoff, c.minBackoff > 0, 100 * MILLISECOND, d.minBackoff)
    ensures Filled(c.maxBackoff, c.maxBackoff >= d.minBackoff, 2 * SECOND, d.maxBackoff)
    ensures d.roundTimeout > 0 && d.minBackoff > 0
    ensures 0 < c.roundTimeout && 0 < c.minBackoff <= c.maxBackoff ==> d == c
    ensures d.minBackoff > d.maxBackoff <==> c.maxBackoff < c.minBackoff && c.minBackoff > 2 * SECOND
  {
    var min := if c.minBackoff <= 0 then 100 * MILLISECOND else c.minBackoff;
    Config(if c.roundTimeout <= 0 then 2 * SECOND else c.roundTimeout,
           min,
           if c.maxBackoff < min then 2 * SECOND else c.maxBackoff)
  }

  function Min(a: int, b: int): int {
    if a < b then a else b
  }

  /** The backoff after one more failure. */
  function Doubled(backoff: Duration, max: Duration): Duration {
    Min(Wrap(backoff * 2), max)
  }

  /** The backoff after k failures, as the campaign's loop computes it. */
  function BackoffAfter(c: Config, k: nat): Duration {
    if k == 0 then c.minBackoff else Doubled(BackoffAfter(c, k - 1), c.maxBackoff)
  }

  method NextBackoff(backoff: Duration, max: Duration) returns (next: Duration)
    ensures next == Doubled(backoff, max)
    ensures next <= max && (Fits(2 * backoff) && 2 * backoff <= max ==> next == 2 * backoff)
    ensures next < max ==> next == 2 * backoff || next == 2 * backoff - 2 * LIMIT || next == 2 * backoff + 2 * LIMIT
  {
    next := Wrap(backoff * 2);
    if max < next {
      next := max;
    }
  }

  function Pow2(k: nat): nat {
    if k == 0 then 1 else 2 * Pow2(k - 1)
  }

  /** Exponential growth up to a cap. */
  function Capped(c: Config, k: nat): int {
    Min(c.minBackoff * Pow2(k), c.maxBackoff)
  }

  /** d doubled k times. */
  function Scaled(d: int, k: nat): int {
    if k == 0 then d else 2 * Scaled(d, k - 1)
  }

  lemma {:induction false} ScaledIsProduct(d: int, k: nat)
    ensures Scaled(d, k) == d * Pow2(k)
    ensures d > 0 ==> Scaled(d, k) >= Pow2(k) > 0
  {
    if k > 0 {
      ScaledIsProduct(d, k - 1);
      var p := Pow2(k - 1);
      assert d * (2 * p) == 2 * (d * p);
    }
  }

  lemma {:induction false} CappedWhenSafe(c: Config, k: nat)
    requires 0 < c.minBackoff <= c.maxBackoff && 2 * c.maxBackoff < LIMIT
    ensures BackoffAfter(c, k) == Min(Scaled(c.minBackoff, k), c.maxBackoff) && Scaled(c.minBackoff, k) > 0
  {
    if k > 0 {
      CappedWhenSafe(c, k - 1);
    }
  }

  lemma Pow2At62()
    ensures 2 * Pow2(62) == LIMIT
  {
    assert Pow2(10) == 1024;
    assert Pow2(20) == 1024 * 1024;
    assert Pow2(30) == 1024 * 1024 * 1024;
    assert Pow2(40) == 1024 * 1024 * 1024 * 1024;
    assert Pow2(50) == 1024 * 1024 * 1024 * 1024 * 1024;
    assert Pow2(60) == 1024 * 1024 * 1024 * 1024 * 1024 * 1024;
  }

  /** The campaign's backoff grows exponentially up to its cap if and only if the cap is not below the start and can
      be doubled in 64 bits. */
  lemma {:induction false} BackoffIsCappedExactly(c: Config)
    requires 0 < c.minBackoff
    ensures (forall k: nat :: BackoffAfter(c, k) == Capped(c, k))
       <==> (c.minBackoff <= c.maxBackoff && 2 * c.maxBackoff < LIMIT)
  {
    if c.minBackoff <= c.maxBackoff && 2 * c.maxBackoff < LIMIT {
      forall k: nat ensures BackoffAfter(c, k) == Capped(c, k) {
        CappedWhenSafe(c, k);
        ScaledIsProduct(c.minBackoff, k);
      }
    } else if c.minBackoff > c.maxBackoff {
      assert BackoffAfter(c, 0) != Capped(c, 0);
    } else {
      ScaledIsProduct(c.minBackoff, 62);
      ScaledIsProduct(c.minBackoff, 63);
      Pow2At62();
      assert BackoffAfter(c, 62) == Capped(c, 62) ==> BackoffAfter(c, 63) < 0 < Capped(c, 63);
    }
  }

  /** The sleep for a wait of d, given a draw from [0, d). */
  function Jitter(d: Duration, draw: int): (y: Duration)
    requires d > 0 ==> 0 <= draw < d
    ensures d <= 0 ==> y == 0
    ensures 0 < d <= LIMIT / 2 ==> d / 2 <= y < d / 2 + d
  {
    if d <= 0 then 0 else Wrap(d / 2 + draw)
  }

  /** Some draw makes a wait of d sleep for y. */
  ghost predicate CanSleep(d: Duration, y: int) {
    exists draw :: 0 <= draw < d && Jitter(d, draw) == y
  }

  /** The sleeps for a positive wait d are exactly the durations from half of d up to, not including, d more, if and
      only if the longest of them fits in 64 bits. */
  lemma JitterIsHalfToThreeHalves(d: Duration)
    requires 0 < d
    ensures (forall y :: CanSleep(d, y) <==> d / 2 <= y < d / 2 + d) <==> Fits(d / 2 + d - 1)
  {
    if Fits(d / 2 + d - 1) {
      forall y ensures CanSleep(d, y) <==> d / 2 <= y < d / 2 + d {
        if d / 2 <= y < d / 2 + d {
          assert Jitter(d, y - d / 2) == y;
        }
      }
    } else {
      assert Jitter(d, d - 1) < 0;
      assert CanSleep(d, Jitter(d, d - 1));
    }
  }
}
