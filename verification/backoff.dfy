/**
 * The randomized exponential backoff policy of the realtime stream client:
 * the table of base durations, the jittered delay drawn from it, and the
 * retry budget a fresh client starts with.
 */
module Backoff {

  /** The base backoff durations in minutes, doubling up to about four hours. Every value is even. */
  const BackoffTimeDurationsInMinutes: seq<int> := [2, 4, 8, 16, 32, 64, 128, 256]

  /** The retry budget restored after every healthy stream. */
  const OriginalRetries: int := 8

  const MillisPerMinute: int := 60000

  /** Largest value of a Java `int`; the base duration is cast to it before the draw. */
  const MaxJavaInt: int := 0x7fff_ffff

  function Min(a: int, b: int): int {
    if a <= b then a else b
  }

  function Max(a: int, b: int): int {
    if a >= b then a else b
  }

  /** 2 to the power n, the independent description of the table. */
  function Pow2(n: nat): nat {
    if n == 0 then 1 else 2 * Pow2(n - 1)
  }

  /** The table entry for the given number of failed streams (at least one). */
  function BaseMinutes(numFailedStreams: int): (m: int)
    requires numFailedStreams >= 1
    ensures 2 <= m <= 256
    ensures numFailedStreams == 1 ==> m == 2
  {
    BackoffTimeDurationsInMinutes[Min(numFailedStreams, |BackoffTimeDurationsInMinutes|) - 1]
  }

  /** The base duration in milliseconds; it is even and fits in a Java `int`. */
  function BaseMillis(numFailedStreams: int): (t: int)
    requires numFailedStreams >= 1
    ensures 2 * MillisPerMinute <= t <= 256 * MillisPerMinute
    ensures t % 2 == 0
    ensures t <= MaxJavaInt
  {
    BaseMinutes(numFailedStreams) * MillisPerMinute
  }

  /**
   * The randomized backoff for the given failure count. `draw` is the value
   * returned by `random.nextInt(t)` for the base duration `t`, so it lies in [0, t).
   */
  function RandomizedBackoffMillis(numFailedStreams: int, draw: int): (d: int)
    requires numFailedStreams >= 1
    requires 0 <= draw < BaseMillis(numFailedStreams)
    ensures BaseMillis(numFailedStreams) / 2 <= d < 3 * (BaseMillis(numFailedStreams) / 2)
    ensures numFailedStreams == 1 ==> 60000 <= d < 180000
    ensures numFailedStreams >= 8 ==> 7680000 <= d < 23040000
  {
    BaseMillis(numFailedStreams) / 2 + draw
  }

  /** Every delay in the jitter window is produced by exactly one draw. */
  lemma JitterCoversWindow(numFailedStreams: int, d: int)
    requires numFailedStreams >= 1
    requires BaseMillis(numFailedStreams) / 2 <= d < 3 * (BaseMillis(numFailedStreams) / 2)
    ensures exists draw :: 0 <= draw < BaseMillis(numFailedStreams)
                           && RandomizedBackoffMillis(numFailedStreams, draw) == d
    ensures forall draw :: 0 <= draw < BaseMillis(numFailedStreams)
                           && RandomizedBackoffMillis(numFailedStreams, draw) == d
                           ==> draw == d - BaseMillis(numFailedStreams) / 2
  {
    var draw := d - BaseMillis(numFailedStreams) / 2;
    assert RandomizedBackoffMillis(numFailedStreams, draw) == d;
  }

  /**
   * The table is a doubling sequence that starts at 2 and stops growing at
   * the eighth failure; the base in milliseconds is that power of two in minutes.
   */
  lemma BaseIsPowerOfTwo(numFailedStreams: int)
    requires numFailedStreams >= 1
    ensures BaseMinutes(numFailedStreams) == Pow2(Min(numFailedStreams, 8))
    ensures BaseMillis(numFailedStreams) == Pow2(Min(numFailedStreams, 8)) * MillisPerMinute
  {
    assert Pow2(1) == 2 && Pow2(2) == 4 && Pow2(3) == 8 && Pow2(4) == 16;
    assert Pow2(5) == 32 && Pow2(6) == 64 && Pow2(7) == 128 && Pow2(8) == 256;
  }

  lemma Pow2Monotone(i: nat, j: nat)
    requires i <= j
    ensures Pow2(i) <= Pow2(j)
    decreases j - i
  {
    if i < j {
      Pow2Monotone(i + 1, j);
    }
  }

  /**
   * The base duration, in minutes and in milliseconds, never shrinks as
   * failures accumulate, and is 256 minutes from the eighth on.
   */
  lemma BaseMonotone(n: int, m: int)
    requires 1 <= n <= m
    ensures BaseMinutes(n) <= BaseMinutes(m)
    ensures m >= 8 ==> BaseMinutes(m) == 256
    ensures BaseMillis(n) <= BaseMillis(m)
    ensures m >= 8 ==> BaseMillis(m) == 256 * MillisPerMinute
  {
    BaseIsPowerOfTwo(n);
    BaseIsPowerOfTwo(m);
    Pow2Monotone(Min(n, 8), Min(m, 8));
  }

  /** The retry budget of a new client, from the persisted failure count. */
  function InitialRetries(persistedFailures: int): (r: int)
    ensures r >= 1 && r >= OriginalRetries - persistedFailures
    ensures r == 1 || r == OriginalRetries - persistedFailures
    ensures persistedFailures >= 0 ==> r <= OriginalRetries
  {
    Max(OriginalRetries - persistedFailures, 1)
  }
}
