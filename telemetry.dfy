/**
 * The live telemetry of the control panel: three parallel series (x, a sine-like and a
 * cosine-like reading), each held in a deque bounded by 1000 elements, seeded with 100
 * samples at start-up and extended by one sample per interval tick, after which the three
 * charts are drawn from snapshots of the deques.
 *
 * x is a `real`: the Python floats only approximate these values. The two signal
 * generators (`np.sin`, `np.cos`) are abstract functions of x given at construction.
 */
module Telemetry {
  import opened Deque

  /** `maxlen` of the three deques. */
  const CAPACITY: nat := 1000
  /** Number of seed samples, the `num` argument of `np.linspace`. */
  const SEED_LENGTH: nat := 100
  /** Increase of x per tick. */
  const STEP: real := 0.1

  predicate StrictlyIncreasing(s: seq<real>) {
    forall i, j :: 0 <= i < j < |s| ==> s[i] < s[j]
  }

  /** NumPy's linspace over the reals: `num` evenly spaced values from `start` to `stop`. */
  function Linspace(start: real, stop: real, num: nat): (r: seq<real>)
    ensures |r| == num
    ensures 0 < num ==> r[0] == start
    ensures 1 < num ==> r[num - 1] == stop
    ensures start < stop ==> StrictlyIncreasing(r)
    ensures 1 < num ==> forall i :: 0 < i < num ==> r[i] - r[i - 1] == r[1] - r[0]
  {
    if num <= 1 then seq(num, i => start)
    else
      var gap := (stop - start) / (num - 1) as real;
      PointsEnd(start, stop, num, gap);
      PointsIncreasing(start, gap, num);
      PointsEven(start, gap, num);
      Points(start, gap, num)
  }

  /** The `num` points `start + gap * i`. */
  function Points(start: real, gap: real, num: nat): (r: seq<real>)
    ensures |r| == num
    ensures forall i :: 0 <= i < num ==> r[i] == start + gap * i as real
  {
    seq(num, i => start + gap * i as real)
  }

  /** With linspace's gap, the last point is `stop`. */
  lemma PointsEnd(start: real, stop: real, num: nat, gap: real)
    requires 1 < num && gap == (stop - start) / (num - 1) as real
    ensures Points(start, gap, num)[num - 1] == stop
    ensures start < stop ==> 0.0 < gap
  {
    assert gap * (num - 1) as real == stop - start;
  }

  /** With a positive gap the points increase strictly. */
  lemma PointsIncreasing(start: real, gap: real, num: nat)
    ensures 0.0 < gap ==> StrictlyIncreasing(Points(start, gap, num))
  {
    if 0.0 < gap {
      var r := Points(start, gap, num);
      forall i, j | 0 <= i < j < |r| ensures r[i] < r[j] {
        ScaleIncreasing(start, gap, i, j);
      }
    }
  }

  /** Consecutive points are `gap` apart. */
  lemma PointsEven(start: real, gap: real, num: nat)
    requires 1 < num
    ensures var r := Points(start, gap, num);
      forall i :: 0 < i < num ==> r[i] - r[i - 1] == r[1] - r[0]
  {
    var r := Points(start, gap, num);
    forall i | 0 < i < num ensures r[i] - r[i - 1] == r[1] - r[0] {
      ScaleStep(start, gap, i);
    }
  }

  /** The seed x-values: 100 evenly spaced values from 0 to 10. */
  function Seed(): (r: seq<real>)
    ensures |r| == SEED_LENGTH && r[0] == 0.0 && r[SEED_LENGTH - 1] == 10.0
    ensures StrictlyIncreasing(r)
  {
    Linspace(0.0, 10.0, SEED_LENGTH)
  }

  /** `ys` holds the signal `f` at each x of `xs`, sample by sample. */
  predicate Parallel(xs: seq<real>, ys: seq<real>, f: real -> real) {
    |ys| == |xs| && forall i :: 0 <= i < |xs| ==> ys[i] == f(xs[i])
  }

  /** The signal `f` applied to each x, as NumPy's sine and cosine are applied to the seed. */
  function MapSeries(f: real -> real, xs: seq<real>): (r: seq<real>)
    ensures |r| == |xs|
    ensures forall i :: 0 <= i < |xs| ==> r[i] == f(xs[i])
  {
    seq(|xs|, i requires 0 <= i < |xs| => f(xs[i]))
  }

  /** The x appended by a tick: one step past the newest x. */
  function NextX(xs: seq<real>): (x: real)
    requires 0 < |xs|
    ensures xs[|xs| - 1] < x
    ensures StrictlyIncreasing(xs) ==> forall i :: 0 <= i < |xs| ==> xs[i] < x
  {
    xs[|xs| - 1] + STEP
  }

  /** The x-deque after one tick. */
  function TickX(xs: seq<real>): (r: seq<real>)
    requires 0 < |xs|
    ensures 0 < |r| <= CAPACITY && r[|r| - 1] == NextX(xs)
    ensures |xs| <= CAPACITY ==> |r| == Min(|xs| + 1, CAPACITY)
    ensures |xs| < CAPACITY ==> r == xs + [NextX(xs)]
    ensures |xs| == CAPACITY ==> r == xs[1..] + [NextX(xs)]
  {
    if |xs| <= CAPACITY then AppendShape(xs, NextX(xs), CAPACITY); Append(xs, NextX(xs), CAPACITY)
    else Append(xs, NextX(xs), CAPACITY)
  }

  /** The x-deque after `n` ticks from `xs`. */
  function Ticks(xs: seq<real>, n: nat): (r: seq<real>)
    requires 0 < |xs|
    ensures 0 < |r|
  {
    if n == 0 then xs else TickX(Ticks(xs, n - 1))
  }

  /** The x-values the first `n` ticks append after a newest x of `last`. */
  function Ramp(last: real, n: nat): (r: seq<real>)
    ensures |r| == n
  {
    if n == 0 then [] else Ramp(last, n - 1) + [last + n as real * STEP]
  }

  /** The `k`-th tick (counting from 0) appends `last + (k + 1) * 0.1`. */
  lemma {:induction false} RampAt(last: real, n: nat, k: nat)
    requires k < n
    ensures Ramp(last, n)[k] == last + (k + 1) as real * STEP
  {
    if k < n - 1 {
      RampAt(last, n - 1, k);
    }
  }

  /** Points `base + gap * i` with a positive gap increase with `i`. */
  lemma ScaleIncreasing(base: real, gap: real, i: nat, j: nat)
    requires 0.0 < gap && i < j
    ensures base + gap * i as real < base + gap * j as real
  {
    assert gap * j as real - gap * i as real == gap * (j - i) as real;
  }

  /** Consecutive points `base + gap * i` are `gap` apart. */
  lemma ScaleStep(base: real, gap: real, i: nat)
    requires 0 < i
    ensures (base + gap * i as real) - (base + gap * (i - 1) as real) == gap
    ensures (base + gap * 1 as real) - (base + gap * 0 as real) == gap
  {
    assert gap * i as real - gap * (i - 1) as real == gap * (i - (i - 1)) as real;
  }

  /** Later ticks append larger values. */
  lemma ScaleMonotone(i: nat, j: nat)
    requires i < j
    ensures i as real * STEP < j as real * STEP
  {
    ScaleIncreasing(0.0, STEP, i, j);
  }

  /** The length of the x-deque after `n` ticks is `min(initial length + n, 1000)`. */
  lemma {:induction false} TicksLength(xs: seq<real>, n: nat)
    requires 0 < |xs|
    requires |xs| <= CAPACITY
    ensures |Ticks(xs, n)| == Min(|xs| + n, CAPACITY)
  {
    if n > 0 {
      TicksLength(xs, n - 1);
    }
  }

  /** The newest x after `n` ticks. */
  lemma {:induction false} TicksNewest(xs: seq<real>, n: nat)
    requires 0 < |xs|
    ensures Ticks(xs, n)[|Ticks(xs, n)| - 1] == xs[|xs| - 1] + n as real * STEP
  {
    if n > 0 {
      TicksNewest(xs, n - 1);
      assert (n - 1) as real * STEP + STEP == n as real * STEP;
    }
  }

  /**
   * The x-deque after `n` ticks holds the newest 1000 of the initial values followed by
   * the `n` ramp values, in that order.
   */
  lemma {:induction false} TicksContents(xs: seq<real>, n: nat)
    requires 0 < |xs| <= CAPACITY
    ensures Ticks(xs, n) == Keep(xs + Ramp(xs[|xs| - 1], n), CAPACITY)
  {
    var last := xs[|xs| - 1];
    if n == 0 {
      assert xs + Ramp(last, 0) == xs;
    } else {
      var all := xs + Ramp(last, n - 1);
      var prev := Ticks(xs, n - 1);
      var nx := NextX(prev);
      assert nx == last + n as real * STEP by {
        TicksNewest(xs, n - 1);
        assert (n - 1) as real * STEP + STEP == n as real * STEP;
      }
      calc {
        Ticks(xs, n);
        Keep(prev + [nx], CAPACITY);
        { TicksContents(xs, n - 1); }
        Keep(Keep(all, CAPACITY) + [nx], CAPACITY);
        { KeepKeep(all, [nx], CAPACITY); }
        Keep(all + [nx], CAPACITY);
        { assert all + [nx] == xs + Ramp(last, n); }
        Keep(xs + Ramp(last, n), CAPACITY);
      }
    }
  }

  /** Appending the ramp to a strictly increasing sequence keeps it strictly increasing. */
  lemma RampIncreasing(xs: seq<real>, n: nat)
    requires 0 < |xs| && StrictlyIncreasing(xs)
    ensures StrictlyIncreasing(xs + Ramp(xs[|xs| - 1], n))
  {
    var last := xs[|xs| - 1];
    var all := xs + Ramp(last, n);
    forall i, j | 0 <= i < j < |all| ensures all[i] < all[j] {
      if j >= |xs| {
        RampAt(last, n, j - |xs|);
        assert all[j] == last + (j - |xs| + 1) as real * STEP;
        if i >= |xs| {
          RampAt(last, n, i - |xs|);
          assert all[i] == last + (i - |xs| + 1) as real * STEP;
          ScaleMonotone(i - |xs| + 1, j - |xs| + 1);
        } else {
          assert all[i] == xs[i] <= last;
          ScaleMonotone(0, j - |xs| + 1);
        }
      } else {
        assert all[i] == xs[i] && all[j] == xs[j];
      }
    }
  }

  /** Ticks keep the x-deque strictly increasing. */
  lemma TicksIncreasing(xs: seq<real>, n: nat)
    requires 0 < |xs| <= CAPACITY && StrictlyIncreasing(xs)
    ensures StrictlyIncreasing(Ticks(xs, n))
  {
    var all := xs + Ramp(xs[|xs| - 1], n);
    RampIncreasing(xs, n);
    TicksContents(xs, n);
    var r := Keep(all, CAPACITY);
    assert r == all[|all| - |r|..];
    forall i, j | 0 <= i < j < |r| ensures r[i] < r[j] {
      assert r[i] == all[|all| - |r| + i] && r[j] == all[|all| - |r| + j];
    }
  }

  /**
   * Eviction: once at least 1000 ticks have run, the oldest surviving x is the one the
   * tick numbered `n - 1000 + 1` appended; before that, eviction has removed exactly
   * the oldest `initial length + n - 1000` values.
   */
  lemma OldestSurvivor(xs: seq<real>, n: nat)
    requires 0 < |xs| <= CAPACITY
    requires CAPACITY < |xs| + n
    ensures Ticks(xs, n)[0] == (xs + Ramp(xs[|xs| - 1], n))[|xs| + n - CAPACITY]
    ensures CAPACITY <= n ==> Ticks(xs, n)[0] == xs[|xs| - 1] + (n - CAPACITY + 1) as real * STEP
  {
    var last := xs[|xs| - 1];
    var all := xs + Ramp(last, n);
    TicksContents(xs, n);
    assert Ticks(xs, n) == all[|all| - CAPACITY..];
    if CAPACITY <= n {
      RampAt(last, n, n - CAPACITY);
      assert all[|xs| + n - CAPACITY] == Ramp(last, n)[n - CAPACITY];
    }
  }

  /** The samples one chart is drawn from: its x-values and y-values. */
  datatype Trace = Trace(x: seq<real>, y: seq<real>)

  /** The three global deques `data_x`, `data_y1`, `data_y2` and the signals feeding them. */
  class LiveData {
    /** The generator of `data_y1` (`np.sin`). */
    const wave1: real -> real
    /** The generator of `data_y2` (`np.cos`). */
    const wave2: real -> real

    var dataX: seq<real>
    var dataY1: seq<real>
    var dataY2: seq<real>

    /** The seed x-values. */
    ghost const seed: seq<real>
    /** Ticks run since start-up. */
    ghost var ticks: nat

    ghost predicate Valid()
      reads this
    {
      Consistent(seed, ticks, dataX, dataY1, dataY2, wave1, wave2)
    }

    /**
     * Start-up: three empty deques, extended with the seed x-values and their signals.
     * `initial` is the result of `np.linspace(0, 10, 100)` that the start-up code evaluates.
     */
    constructor (sine: real -> real, cosine: real -> real, initial: seq<real>)
      requires initial == Seed()
      ensures Valid() && ticks == 0 && seed == Seed()
      ensures wave1 == sine && wave2 == cosine
      ensures dataX == seed && |dataX| == SEED_LENGTH
      ensures dataY1 == MapSeries(sine, seed) && dataY2 == MapSeries(cosine, seed)
    {
      SeedConsistent(initial, sine, cosine);
      var xs := Extend([], initial, CAPACITY);
      var ys1 := Extend([], MapSeries(sine, xs), CAPACITY);
      var ys2 := Extend([], MapSeries(cosine, xs), CAPACITY);
      wave1, wave2, seed := sine, cosine, initial;
      dataX, dataY1, dataY2, ticks := xs, ys1, ys2, 0;
    }

    /**
     * Builds the three chart payloads from snapshots of the deques; it reads the deques
     * and changes nothing. Charts 2 and 3 are both drawn from `data_y2`.
     */
    method Figures() returns (fig1: Trace, fig2: Trace, fig3: Trace)
      requires Valid()
      ensures fig1 == Trace(dataX, dataY1)
      ensures fig2 == Trace(dataX, dataY2) && fig3 == fig2
      ensures |fig1.x| == |fig1.y| && |fig2.x| == |fig2.y|
      ensures StrictlyIncreasing(fig1.x)
      ensures forall i :: 0 <= i < |fig1.x| ==> fig1.y[i] == wave1(fig1.x[i])
      ensures forall i :: 0 <= i < |fig2.x| ==> fig2.y[i] == wave2(fig2.x[i])
    {
      var xs, ys1, ys2 := dataX, dataY1, dataY2;
      fig1 := Trace(xs, ys1);
      fig2 := Trace(xs, ys2);
      fig3 := Trace(xs, ys2);
    }

    /**
     * One interval tick: appends one new sample to each deque (x one step past the newest
     * x, the two signals at that x), evicting the oldest sample of each when full, then
     * builds the three charts from the new contents.
     */
    method UpdateLivePlots() returns (fig1: Trace, fig2: Trace, fig3: Trace)
      requires Valid()
      modifies this
      ensures Valid() && ticks == old(ticks) + 1
      ensures dataX == Append(old(dataX), NextX(old(dataX)), CAPACITY)
      ensures dataY1 == Append(old(dataY1), wave1(NextX(old(dataX))), CAPACITY)
      ensures dataY2 == Append(old(dataY2), wave2(NextX(old(dataX))), CAPACITY)
      ensures |dataX| == Min(SEED_LENGTH + ticks, CAPACITY)
      ensures fig1 == Trace(dataX, dataY1)
      ensures fig2 == Trace(dataX, dataY2) && fig3 == fig2
    {
      var newX := NextX(dataX);
      TickConsistent(seed, ticks, dataX, dataY1, dataY2, wave1, wave2);
      dataX, dataY1, dataY2, ticks :=
        Append(dataX, newX, CAPACITY), Append(dataY1, wave1(newX), CAPACITY),
        Append(dataY2, wave2(newX), CAPACITY), ticks + 1;
      fig1, fig2, fig3 := Figures();
    }
  }

  /**
   * The invariant of the three deques after `ticks` ticks from `seed`: x holds exactly
   * what the ticks left (strictly increasing, at most 1000 values) and the two signal deques
   * hold their signal at each x.
   */
  ghost predicate Consistent(seed: seq<real>, ticks: nat, xs: seq<real>, ys1: seq<real>, ys2: seq<real>,
                             f1: real -> real, f2: real -> real)
  {
    && |seed| == SEED_LENGTH && StrictlyIncreasing(seed)
    && 0 < |xs| <= CAPACITY
    && xs == Ticks(seed, ticks)
    && StrictlyIncreasing(xs)
    && Parallel(xs, ys1, f1)
    && Parallel(xs, ys2, f2)
  }

  /**
   * Extending three empty deques with any 100 strictly increasing x-values and their two
   * signals stores exactly those series, and they satisfy the invariant.
   */
  lemma SeedConsistent(initial: seq<real>, f1: real -> real, f2: real -> real)
    requires |initial| == SEED_LENGTH && StrictlyIncreasing(initial)
    ensures Extend([], initial, CAPACITY) == initial
    ensures Extend([], MapSeries(f1, initial), CAPACITY) == MapSeries(f1, initial)
    ensures Extend([], MapSeries(f2, initial), CAPACITY) == MapSeries(f2, initial)
    ensures Consistent(initial, 0, initial, MapSeries(f1, initial), MapSeries(f2, initial), f1, f2)
  {
    ExtendFits(initial);
    ExtendFits(MapSeries(f1, initial));
    ExtendFits(MapSeries(f2, initial));
  }

  /** Extending an empty deque with at most 1000 values keeps them all. */
  lemma ExtendFits(s: seq<real>)
    requires |s| <= CAPACITY
    ensures Extend([], s, CAPACITY) == s
  {
    ExtendKeepsNewest([], s, CAPACITY);
    assert [] + s == s;
  }

  /** One tick keeps the three deques consistent. */
  lemma TickConsistent(seed: seq<real>, ticks: nat, xs: seq<real>, ys1: seq<real>, ys2: seq<real>,
                       f1: real -> real, f2: real -> real)
    requires Consistent(seed, ticks, xs, ys1, ys2, f1, f2)
    ensures var x := NextX(xs);
      && Consistent(seed, ticks + 1, Append(xs, x, CAPACITY), Append(ys1, f1(x), CAPACITY),
                    Append(ys2, f2(x), CAPACITY), f1, f2)
      && |Append(xs, x, CAPACITY)| == Min(SEED_LENGTH + ticks + 1, CAPACITY)
  {
    var x := NextX(xs);
    AppendPointwise(xs, ys1, x, f1);
    AppendPointwise(xs, ys2, x, f2);
    TicksIncreasing(seed, ticks + 1);
    TicksLength(seed, ticks + 1);
  }

  /** Appending to parallel deques of equal length keeps them parallel. */
  lemma AppendPointwise(xs: seq<real>, ys: seq<real>, x: real, f: real -> real)
    requires |xs| <= CAPACITY && Parallel(xs, ys, f)
    ensures Parallel(Append(xs, x, CAPACITY), Append(ys, f(x), CAPACITY), f)
  {
    var xs', ys' := Append(xs, x, CAPACITY), Append(ys, f(x), CAPACITY);
    var d := if |xs| < CAPACITY then 0 else 1;
    assert xs' == xs[d..] + [x] && ys' == ys[d..] + [f(x)];
    forall i | 0 <= i < |xs'| ensures ys'[i] == f(xs'[i]) {
      if i < |xs| - d {
        assert xs'[i] == xs[i + d] && ys'[i] == ys[i + d];
      }
    }
  }
}
