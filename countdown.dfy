/**
 * The auto-rotation countdown of the dashboard, as pure functions over
 * exact reals: one timer tick, any number of ticks, and the
 * "NEXT ROTATION" seconds shown beside the progress bar.
 */
module Countdown {

  /** The range the rotation-interval slider offers, in seconds. */
  const MinInterval: int := 10
  const MaxInterval: int := 300

  /** What one tick of the timer produces: the new progress, and whether it rotated. */
  datatype Tick = Tick(progress: real, rotated: bool)

  /**
   * One tick of the one-second timer. The updater looks at the previous
   * progress first: at 100 or above it rotates and restarts from 0,
   * otherwise it adds one interval's share of 100.
   */
  function Step(progress: real, interval: int): (t: Tick)
    requires interval > 0
    ensures t.rotated <==> progress >= 100.0
    ensures t.rotated ==> t.progress == 0.0
    ensures !t.rotated ==> t.progress == progress + 100.0 / interval as real
  {
    if progress >= 100.0 then Tick(0.0, true)
    else Tick(progress + 100.0 / interval as real, false)
  }

  /** The state after a run of ticks: progress, and how many rotations fired on the way. */
  datatype Run = Run(progress: real, rotations: nat)

  /** `k` ticks at a fixed interval, starting from progress `p`: at most one rotation per tick. */
  function Ticks(p: real, interval: int, k: nat): (r: Run)
    requires interval > 0
    ensures r.rotations <= k
    ensures 0.0 <= p ==> 0.0 <= r.progress
  {
    if k == 0 then Run(p, 0)
    else
      var prev := Ticks(p, interval, k - 1);
      var t := Step(prev.progress, interval);
      Run(t.progress, prev.rotations + if t.rotated then 1 else 0)
  }

  /** The share of the bar filled after `j` non-rotating ticks. */
  function Filled(j: int, interval: int): real
    requires interval > 0
  {
    j as real * 100.0 / interval as real
  }

  lemma FilledFacts(j: int, n: int)
    requires n > 0
    ensures Filled(j + 1, n) == Filled(j, n) + 100.0 / n as real
    ensures j < n ==> Filled(j, n) < 100.0
    ensures Filled(n, n) == 100.0
    ensures 0 <= j ==> 0.0 <= Filled(j, n)
  {
    var N := n as real;
    assert Filled(j + 1, n) * N == (j as real + 1.0) * 100.0;
    assert (Filled(j, n) + 100.0 / N) * N == j as real * 100.0 + 100.0;
    if j < n {
      assert Filled(j, n) * N == j as real * 100.0 < 100.0 * N;
    }
    if 0 <= j {
      assert Filled(j, n) * N == j as real * 100.0;
    }
  }

  lemma MulAtLeast(d: int, b: int)
    requires d >= 1 && b > 0
    ensures d * b >= b
  {
    assert d * b == (d - 1) * b + b;
  }

  lemma DivModUnique(a: int, b: int, q: int, r: int)
    requires b > 0 && 0 <= r < b && a == q * b + r
    ensures a / b == q && a % b == r
  {
    var q', r' := a / b, a % b;
    assert a == q' * b + r';
    assert (q - q') * b == q * b - q' * b;
    assert (q' - q) * b == q' * b - q * b;
    if q > q' {
      MulAtLeast(q - q', b);
    } else if q < q' {
      MulAtLeast(q' - q, b);
    }
  }

  /** The countdown after `q` full cycles of n + 1 ticks and `r` further ticks. */
  lemma {:induction false} TicksAfterCycles(n: int, k: nat, q: nat, r: nat)
    requires n > 0 && r <= n && k == q * (n + 1) + r
    ensures Ticks(0.0, n, k) == Run(Filled(r, n), q)
  {
    if k == 0 {
      if q >= 1 {
        MulAtLeast(q, n + 1);
      }
      assert Filled(0, n) == 0.0;
    } else if r > 0 {
      TicksAfterCycles(n, k - 1, q, r - 1);
      FilledFacts(r - 1, n);
    } else {
      assert k - 1 == (q - 1) * (n + 1) + n;
      TicksAfterCycles(n, k - 1, q - 1, n);
      FilledFacts(n, n);
      assert Filled(0, n) == 0.0;
    }
  }

  /**
   * Closed form of the countdown from an empty bar: after `k` ticks,
   * `k / (n + 1)` rotations have fired and the bar holds
   * `k % (n + 1)` shares. A full cycle therefore takes n + 1 ticks: n to
   * fill the bar to exactly 100, and one more to rotate.
   */
  lemma TicksClosedForm(n: int, k: nat)
    requires n > 0
    ensures Ticks(0.0, n, k) == Run(Filled(k % (n + 1), n), k / (n + 1))
  {
    TicksAfterCycles(n, k, k / (n + 1), k % (n + 1));
  }

  /** The first `n` ticks after a reset fill the bar without rotating. */
  lemma FillsWithoutRotating(n: int, k: nat)
    requires n > 0 && k <= n
    ensures Ticks(0.0, n, k) == Run(k as real * 100.0 / n as real, 0)
  {
    TicksClosedForm(n, k);
    DivModUnique(k, n + 1, 0, k);
  }

  /**
   * With exact arithmetic the bar reaches exactly 100 after `n` ticks,
   * and the rotation fires on tick n + 1, restarting from 0.
   */
  lemma RotatesOnTickAfterFull(n: int)
    requires n > 0
    ensures Ticks(0.0, n, n) == Run(100.0, 0)
    ensures Ticks(0.0, n, n + 1) == Run(0.0, 1)
  {
    FillsWithoutRotating(n, n);
    FilledFacts(n, n);
    TicksClosedForm(n, n + 1);
    DivModUnique(n + 1, n + 1, 1, 0);
    assert Filled(0, n) == 0.0;
  }

  /** Every run of `m` full cycles fires exactly `m` rotations and ends at 0. */
  lemma CyclesRotateOncePerCycle(n: int, m: nat)
    requires n > 0
    ensures Ticks(0.0, n, m * (n + 1)) == Run(0.0, m)
  {
    TicksClosedForm(n, m * (n + 1));
    DivModUnique(m * (n + 1), n + 1, m, 0);
    assert Filled(0, n) == 0.0;
  }

  /** At a fixed interval the bar never leaves [0, 100]. */
  lemma ProgressStaysInBar(n: int, k: nat)
    requires n > 0
    ensures 0.0 <= Ticks(0.0, n, k).progress <= 100.0
  {
    TicksClosedForm(n, k);
    var r := k % (n + 1);
    FilledFacts(r, n);
  }

  /**
   * The dashboard's own invariant, which also survives interval changes
   * between ticks: a bar in [0, 110) stays there, since one share is at
   * most 100 / 10.
   */
  lemma StepKeepsRange(p: real, n: int)
    requires MinInterval <= n && 0.0 <= p < 110.0
    ensures 0.0 <= Step(p, n).progress < 110.0
  {
    if p < 100.0 {
      var N := n as real;
      assert (100.0 / N) * N == 100.0;
      assert 100.0 / N <= 10.0;
    }
  }

  /** JavaScript's `Math.ceil`: the least integer not below `x`. */
  function Ceil(x: real): (r: int)
    ensures r as real - 1.0 < x <= r as real
  {
    -((-x).Floor)
  }

  lemma CeilOfInteger(i: int)
    ensures Ceil(i as real) == i
  {
  }

  /**
   * The "NEXT ROTATION" label: the seconds left at the current progress.
   * It is the least number of further shares that fill the bar.
   */
  function SecondsToNext(interval: int, progress: real): (s: int)
    ensures interval > 0 ==> 100.0 <= progress + s as real * 100.0 / interval as real
    ensures interval > 0 ==> progress + (s - 1) as real * 100.0 / interval as real < 100.0
  {
    var x := interval as real * (100.0 - progress) / 100.0;
    SharesToFull(interval, progress, x, Ceil(x));
    Ceil(x)
  }

  lemma SharesToFull(n: int, p: real, x: real, c: int)
    requires x == n as real * (100.0 - p) / 100.0 && c as real - 1.0 < x <= c as real
    ensures n > 0 ==> 100.0 <= p + c as real * 100.0 / n as real
    ensures n > 0 ==> p + (c - 1) as real * 100.0 / n as real < 100.0
  {
    if n > 0 {
      var N := n as real;
      assert x * 100.0 == N * (100.0 - p);
      assert x * 100.0 / N == 100.0 - p;
      assert (c as real - x) * 100.0 / N >= 0.0;
      assert (x - (c - 1) as real) * 100.0 / N > 0.0;
    }
  }

  /**
   * The label never exceeds the interval, and while the bar is within
   * [0, 100] it is not negative either.
   */
  lemma SecondsWithinInterval(n: int, p: real)
    requires n > 0 && 0.0 <= p
    ensures SecondsToNext(n, p) <= n
    ensures p <= 100.0 ==> 0 <= SecondsToNext(n, p)
  {
    var x := n as real * (100.0 - p) / 100.0;
    assert x * 100.0 == n as real * (100.0 - p);
    assert x <= n as real;
    assert p <= 100.0 ==> 0.0 <= x;
    CeilOfInteger(n);
    CeilOfInteger(0);
  }

  /**
   * The bar can pass 100 when the interval is lowered mid-cycle; raising
   * it again before the next tick makes the label negative: at 70 s, 69
   * ticks, then one tick at 10 s and the label read at 300 s.
   */
  lemma LabelNegativeAfterOvershoot()
    ensures Step(Filled(69, 70), 10).progress > 100.0
    ensures SecondsToNext(300, Step(Filled(69, 70), 10).progress) == -25
  {
    FilledFacts(69, 70);
    var p := Step(Filled(69, 70), 10).progress;
    assert p == 6900.0 / 70.0 + 10.0;
    assert 300.0 * (100.0 - p) / 100.0 == -180.0 / 7.0;
  }

  /** After `k` ticks from a reset the label reads `n - k`, reaching 0 when the bar is full. */
  lemma SecondsCountDown(n: int, k: nat)
    requires n > 0 && k <= n
    ensures SecondsToNext(n, Ticks(0.0, n, k).progress) == n - k
  {
    FillsWithoutRotating(n, k);
    var N := n as real;
    var p := k as real * 100.0 / N;
    assert p * N == k as real * 100.0;
    assert N * (100.0 - p) == 100.0 * (N - k as real);
    assert N * (100.0 - p) / 100.0 == (n - k) as real;
    CeilOfInteger(n - k);
  }
}
