/** Powers of sixteen against measured computing power (common/blockchain/difficulty.py). Logarithms are exact:
    log16(x) rounded down is the greatest n with 16^n <= x. */
module Difficulty {
  const N_ZEROS_MIN: int := 3
  const N_ZEROS_MAX: int := 9

  /** 16^n, also for negative n. */
  function Pow16(n: int): (r: real)
    ensures r > 0.0
    decreases if n < 0 then -n else n
  {
    if n == 0 then 1.0 else if n > 0 then 16.0 * Pow16(n - 1) else Pow16(n + 1) / 16.0
  }

  lemma Pow16Step(n: int)
    ensures Pow16(n + 1) == 16.0 * Pow16(n)
  {
  }

  lemma {:induction false} Pow16Monotone(a: int, b: int)
    requires a <= b
    ensures Pow16(a) <= Pow16(b)
    decreases b - a
  {
    if a < b {
      Pow16Monotone(a, b - 1);
      Pow16Step(b - 1);
    }
  }

  /** expected_attempts */
  function ExpectedAttempts(n: int): (r: real)
    ensures r > 0.0
  {
    Pow16(n)
  }

  /** How far below one x is: the measure that brings small numbers up. */
  function Smallness(x: real): nat
    requires x > 0.0
  {
    if x >= 1.0 then 0
    else
      assert x * (1.0 / x) == 1.0;
      (1.0 / x).Floor
  }

  lemma ScalingUp(x: real)
    requires 0.0 < x < 1.0
    ensures Smallness(16.0 * x) < Smallness(x)
  {
    var y := 1.0 / x;
    assert x * y == 1.0;
    assert y > 1.0;
    if 16.0 * x < 1.0 {
      assert (16.0 * x) * (y / 16.0) == 1.0;
      assert 1.0 / (16.0 * x) == y / 16.0;
      assert y > 16.0;
    }
  }

  /** floor(log16(x)) */
  function FloorLog16(x: real): (n: int)
    requires x > 0.0
    ensures Pow16(n) <= x < Pow16(n + 1)
    decreases Smallness(x), x.Floor
  {
    if x >= 16.0 then
      var m := FloorLog16(x / 16.0);
      Pow16Step(m); Pow16Step(m + 1);
      m + 1
    else if x >= 1.0 then
      assert Pow16(0) == 1.0 && Pow16(1) == 16.0;
      0
    else
      ScalingUp(x);
      var m := FloorLog16(16.0 * x);
      Pow16Step(m - 1); Pow16Step(m);
      m - 1
  }

  /** No other integer brackets x. */
  lemma FloorLogUnique(x: real, n: int)
    requires x > 0.0 && Pow16(n) <= x < Pow16(n + 1)
    ensures FloorLog16(x) == n
  {
    var m := FloorLog16(x);
    if m < n {
      Pow16Monotone(m + 1, n);
    } else if m > n {
      Pow16Monotone(n + 1, m);
    }
  }

  lemma FloorLogMonotone(x: real, y: real)
    requires 0.0 < x <= y
    ensures FloorLog16(x) <= FloorLog16(y)
  {
    if FloorLog16(x) > FloorLog16(y) {
      Pow16Monotone(FloorLog16(y) + 1, FloorLog16(x));
    }
  }

  function Ceil(x: real): (k: int)
    ensures k as real >= x && k as real - 1.0 < x
  {
    if x.Floor as real == x then x.Floor else x.Floor + 1
  }

  function Max(a: int, b: int): int { if a > b then a else b }
  function Min(a: int, b: int): int { if a < b then a else b }

  /** max_n_for_space; k is -ln(1 - coverage). */
  function MaxNForSpace(space: int, k: real): int
    requires k >= 1.0
  {
    if space <= 0 then N_ZEROS_MAX
    else
      assert space as real / k > 0.0;
      Max(N_ZEROS_MIN, FloorLog16(space as real / k) - 1)
  }

  /** nonce_space_for */
  function NonceSpaceFor(n: int, k: real): int
    requires k >= 1.0
  {
    Ceil(k * ExpectedAttempts(n + 1))
  }

  /** difficulty_for: the clamp is [nMin, ceiling], where the nonce space lowers the ceiling when it is given. */
  function DifficultyForSpace(hashrate: real, target: real, space: int, nMin: int, nMax: int, k: real): int
    requires k >= 1.0
  {
    var ceiling := if space != 0 then Min(nMax, MaxNForSpace(space, k)) else nMax;
    if hashrate <= 0.0 || target <= 0.0 then nMin
    else
      assert hashrate * target > 0.0;
      Max(nMin, Min(FloorLog16(hashrate * target), ceiling))
  }

  /** difficulty_for as both of its callers use it: the default clamp and no nonce space, so the coverage plays no part. */
  function DifficultyFor(hashrate: real, target: real): int {
    DifficultyForSpace(hashrate, target, 0, N_ZEROS_MIN, N_ZEROS_MAX, 1.0)
  }

  /** Where neither bound acts, n is the number of zeros this power finds in the target time, and one more zero
      is too many. Where a bound acts, the bracket fails on the side of that bound. */
  lemma DifficultyBracket(hashrate: real, target: real)
    requires hashrate > 0.0 && target > 0.0
    ensures var n, w := DifficultyFor(hashrate, target), hashrate * target;
      && N_ZEROS_MIN <= n <= N_ZEROS_MAX
      && (n > N_ZEROS_MIN ==> Pow16(n) <= w)
      && (n < N_ZEROS_MAX ==> w < Pow16(n + 1))
      && (Pow16(n) <= w < Pow16(n + 1) <==> Pow16(N_ZEROS_MIN) <= w < Pow16(N_ZEROS_MAX + 1))
  {
    var w := hashrate * target;
    assert w > 0.0;
    var m := FloorLog16(w);
    if m < N_ZEROS_MIN {
      Pow16Monotone(m + 1, N_ZEROS_MIN);
    } else if m > N_ZEROS_MAX {
      Pow16Monotone(N_ZEROS_MAX + 1, m);
    } else {
      Pow16Monotone(N_ZEROS_MIN, m);
      Pow16Monotone(m + 1, N_ZEROS_MAX + 1);
    }
  }

  /** More power never lowers the difficulty, whatever bounds are in force. */
  lemma DifficultyMonotone(h1: real, h2: real, target: real, space: int, nMin: int, nMax: int, k: real)
    requires h1 <= h2 && k >= 1.0
    ensures DifficultyForSpace(h1, target, space, nMin, nMax, k) <= DifficultyForSpace(h2, target, space, nMin, nMax, k)
  {
    if h1 > 0.0 && target > 0.0 {
      assert h1 * target > 0.0 && (h2 - h1) * target >= 0.0;
      assert h2 * target == h1 * target + (h2 - h1) * target;
      FloorLogMonotone(h1 * target, h2 * target);
    }
  }

  lemma QuotientBelow(c: real, k: real, y: real)
    requires k > 0.0 && c < k * y
    ensures c / k < y
  {
    assert (c / k) * k == c;
  }

  lemma QuotientAbove(c: real, k: real, y: real)
    requires k > 0.0 && c >= k * y
    ensures c / k >= y
  {
    assert (c / k) * k == c;
  }

  lemma CeilRatio(k: real, x: real)
    requires k >= 1.0 && x >= 1.0
    ensures Ceil(k * x) >= 1
    ensures x <= Ceil(k * x) as real / k < 16.0 * x
  {
    var c := Ceil(k * x) as real;
    AtLeastFactor(k, x);
    OneMoreTime(k, x);
    QuotientAbove(c, k, x);
    QuotientBelow(c, k, x + 1.0);
  }

  lemma AtLeastFactor(k: real, x: real)
    requires k >= 1.0 && x >= 1.0
    ensures k * x >= x
  {
    assert (k - 1.0) * x >= 0.0;
  }

  lemma OneMoreTime(k: real, x: real)
    ensures k * (x + 1.0) == k * x + k
  {
  }

  lemma SpaceBrackets(n: nat, k: real)
    requires k >= 1.0
    ensures NonceSpaceFor(n, k) >= 1
    ensures Pow16(n + 1) <= NonceSpaceFor(n, k) as real / k < Pow16(n + 2)
  {
    hide *;
    AtLeastOne(n + 1);
    Pow16Step(n + 1);
    SpaceRatio(n, k, Pow16(n + 1));
  }

  lemma AtLeastOne(n: nat)
    ensures Pow16(n) >= 1.0
  {
    Pow16Monotone(0, n);
  }

  lemma SpaceRatio(n: nat, k: real, attempts: real)
    requires k >= 1.0 && attempts == Pow16(n + 1) >= 1.0
    ensures NonceSpaceFor(n, k) >= 1
    ensures attempts <= NonceSpaceFor(n, k) as real / k < 16.0 * attempts
  {
    hide Pow16, Ceil;
    assert ExpectedAttempts(n + 1) == attempts;
    CeilRatio(k, attempts);
  }

  /** The space dimensioned for n sustains exactly n zeros, from the floor upwards. */
  lemma SpaceSustainsItsDifficulty(n: nat, k: real)
    requires k >= 1.0
    ensures MaxNForSpace(NonceSpaceFor(n, k), k) == Max(N_ZEROS_MIN, n)
  {
    SpaceBrackets(n, k);
    FloorLogUnique(NonceSpaceFor(n, k) as real / k, n + 1);
  }

  /** A space is enough for the difficulty it is said to sustain exactly when it is enough for the floor. */
  lemma SustainedDifficultyFits(space: int, k: real)
    requires k >= 1.0
    ensures NonceSpaceFor(MaxNForSpace(space, k), k) <= space <==> space >= NonceSpaceFor(N_ZEROS_MIN, k)
  {
    Pow16Monotone(0, N_ZEROS_MIN + 1);
    if space <= 0 {
      assert k * ExpectedAttempts(N_ZEROS_MIN + 1) > 0.0;
      assert k * ExpectedAttempts(N_ZEROS_MAX + 1) > 0.0;
    } else {
      var x := space as real / k;
      assert x > 0.0 && x * k == space as real;
      var m := FloorLog16(x);
      if m - 1 >= N_ZEROS_MIN {
        Fits(space, k, m - 1);
        Pow16Monotone(N_ZEROS_MIN + 1, m);
        Fits(space, k, N_ZEROS_MIN);
      }
    }
  }

  lemma Fits(space: int, k: real, n: nat)
    requires k >= 1.0 && space > 0 && Pow16(n + 1) <= space as real / k
    ensures NonceSpaceFor(n, k) <= space
  {
    var x := space as real / k;
    assert x * k == space as real;
    assert (x - Pow16(n + 1)) * k >= 0.0;
  }

  // ---- the frozen length of a window (deliberation.py) ----

  function MaxReal(a: real, b: real): real { if a > b then a else b }
  function MinReal(a: real, b: real): real { if a < b then a else b }

  /** int(): truncation towards zero. */
  function Truncate(x: real): int {
    if x >= 0.0 then x.Floor else -((-x).Floor)
  }

  lemma TruncateMonotone(x: real, y: real)
    requires x <= y
    ensures Truncate(x) <= Truncate(y)
  {
  }

  function Clamped(seconds: int, minimum: real, maximum: real): int {
    Truncate(MaxReal(minimum, MinReal(seconds as real, maximum)))
  }

  /** factor times the seconds that attempts take at this rate. */
  function Share(attempts: real, hashrate: real, factor: real): real
    requires hashrate > 0.0
  {
    factor * (attempts / hashrate)
  }

  /** math.ceil(factor * expected): seconds the power h needs on average, times factor. */
  function ExpectedSeconds(n: int, hashrate: real, factor: real): int
    requires hashrate > 0.0
  {
    Ceil(Share(ExpectedAttempts(n), hashrate, factor))
  }

  /** window_seconds_for: factor times what the biggest convoked voter needs on average, within bounds. */
  function WindowSecondsFor(n: int, hashrate: real, factor: real, minimum: real, maximum: real): int {
    if hashrate <= 0.0 || factor <= 0.0 then Truncate(maximum)
    else
      Clamped(ExpectedSeconds(n, hashrate, factor), minimum, maximum)
  }

  /** The window is never longer than the larger of its bounds and, once there is power to measure, never
      shorter than the minimum. With nothing to measure it is the maximum, whatever the minimum says. */
  lemma WindowSecondsBounds(n: int, hashrate: real, factor: real, minimum: real, maximum: real)
    ensures var s := WindowSecondsFor(n, hashrate, factor, minimum, maximum);
      && s <= Truncate(MaxReal(minimum, maximum))
      && (hashrate > 0.0 && factor > 0.0 ==> Truncate(minimum) <= s)
      && (minimum <= maximum ==> Truncate(minimum) <= s <= Truncate(maximum))
  {
    if minimum <= maximum {
      TruncateMonotone(minimum, maximum);
    }
    TruncateMonotone(maximum, MaxReal(minimum, maximum));
    if hashrate > 0.0 && factor > 0.0 {
      var seconds := ExpectedSeconds(n, hashrate, factor);
      TruncateMonotone(minimum, MaxReal(minimum, MinReal(seconds as real, maximum)));
      TruncateMonotone(MaxReal(minimum, MinReal(seconds as real, maximum)), MaxReal(minimum, maximum));
    }
  }

  /** The duration is within its bounds exactly if they are in order once they are cut to seconds. */
  lemma WindowSecondsInBoundsIff(n: int, hashrate: real, factor: real, minimum: real, maximum: real)
    ensures var s := WindowSecondsFor(n, hashrate, factor, minimum, maximum);
      Truncate(minimum) <= s <= Truncate(maximum) <==> Truncate(minimum) <= Truncate(maximum)
  {
    WindowSecondsBounds(n, hashrate, factor, minimum, maximum);
    if minimum > maximum {
      TruncateMonotone(maximum, minimum);
    }
  }

  /** A minimum of an hour under a configured maximum of a minute: an hour with power to measure, a minute without. */
  lemma LongerThanTheMaximum()
    ensures WindowSecondsFor(5, 1.0, 1.0, 3600.0, 60.0) == 3600 > Truncate(60.0)
    ensures WindowSecondsFor(5, 0.0, 1.0, 3600.0, 60.0) == 60 < Truncate(3600.0)
  {
    assert (3600.0).Floor == 3600 && (60.0).Floor == 60;
  }

  lemma CeilMonotone(x: real, y: real)
    requires x <= y
    ensures Ceil(x) <= Ceil(y)
  {
  }

  lemma MoreWorkTakesLonger(a: real, b: real, h1: real, h2: real, factor: real)
    requires 0.0 < a <= b && 0.0 < h2 <= h1 && factor > 0.0
    ensures Share(a, h1, factor) <= Share(b, h2, factor)
  {
    var x, y := a / h1, b / h2;
    assert y * h2 == b && y > 0.0;
    assert y * (h1 - h2) >= 0.0;
    assert h1 * y >= a;
    ShareBelow(a, h1, y);
    assert factor * (y - x) >= 0.0;
  }

  lemma ShareBelow(c: real, k: real, y: real)
    requires k > 0.0 && c <= k * y
    ensures c / k <= y
  {
    assert (c / k) * k == c;
  }

  lemma ClampedMonotone(s1: int, s2: int, minimum: real, maximum: real)
    requires s1 <= s2
    ensures Clamped(s1, minimum, maximum) <= Clamped(s2, minimum, maximum)
  {
    TruncateMonotone(MaxReal(minimum, MinReal(s1 as real, maximum)), MaxReal(minimum, MinReal(s2 as real, maximum)));
  }

  lemma ExpectedSecondsMonotone(n1: int, n2: int, h1: real, h2: real, factor: real)
    requires n1 <= n2 && 0.0 < h2 <= h1 && factor > 0.0
    ensures ExpectedSeconds(n1, h1, factor) <= ExpectedSeconds(n2, h2, factor)
  {
    hide Share;
    Pow16Monotone(n1, n2);
    var a, b := ExpectedAttempts(n1), ExpectedAttempts(n2);
    MoreWorkTakesLonger(a, b, h1, h2, factor);
    CeilMonotone(Share(a, h1, factor), Share(b, h2, factor));
  }

  /** More zeros or less power never shorten the window, except that losing all power does where the bounds are out of
      order. */
  lemma WindowSecondsMonotone(n1: int, n2: int, h1: real, h2: real, factor: real, minimum: real, maximum: real)
    requires n1 <= n2 && h2 <= h1
    ensures var s1, s2 := WindowSecondsFor(n1, h1, factor, minimum, maximum), WindowSecondsFor(n2, h2, factor, minimum, maximum);
      s1 <= s2 <==> h2 > 0.0 || h1 <= 0.0 || factor <= 0.0 || Truncate(minimum) <= Truncate(maximum)
  {
    if factor > 0.0 && h2 > 0.0 {
      ExpectedSecondsMonotone(n1, n2, h1, h2, factor);
      ClampedMonotone(ExpectedSeconds(n1, h1, factor), ExpectedSeconds(n2, h2, factor), minimum, maximum);
    } else if factor > 0.0 && h1 > 0.0 {
      WindowSecondsInBoundsIff(n1, h1, factor, minimum, maximum);
      WindowSecondsBounds(n1, h1, factor, minimum, maximum);
    }
  }
}
