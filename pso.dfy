/**
 * Particle swarm optimisation: the per-particle state update (position,
 * velocity, personal best), the strict selection rule shared by personal
 * and global bests, the linear coefficient schedules, and the optimiser's
 * initialisation and main loop with its history lists.
 *
 * Floating point numbers are modelled as exact reals, the random draws of
 * the numeric library as explicit parameters in [0, 1), and the objective
 * as an arbitrary total function of the position vector.
 */
module Swarm {

  import Fitness

  datatype Option<T> = None | Some(value: T)

  /** One (xmin, xmax) pair of the per-dimension bound list. */
  datatype Interval = Interval(lo: real, hi: real)

  /**
   * The draws a particle consumes when it is built: one per dimension for
   * the position (used only without a given start position) and one per
   * dimension for the velocity.
   */
  datatype SpawnDraws = SpawnDraws(position: seq<real>, velocity: seq<real>)

  /** The two scalar draws of one velocity update, shared by all dimensions. */
  datatype Draws = Draws(r1: real, r2: real)

  /** A value of the uniform generator: in [0, 1). */
  predicate Unit(r: real) {
    0.0 <= r < 1.0
  }

  predicate AllUnit(rs: seq<real>) {
    forall i :: 0 <= i < |rs| ==> Unit(rs[i])
  }

  function Min(a: real, b: real): (m: real) {
    if a <= b then a else b
  }

  function Max(a: real, b: real): (m: real) {
    if a >= b then a else b
  }

  // ---------------------------------------------------------------------
  // Clamping

  /**
   * The numeric library's clip of one value, min(max(x, lo), hi). With
   * lo <= hi the result lies in [lo, hi] and a value already inside is
   * kept; with lo > hi every value becomes hi.
   */
  function Clamp(x: real, lo: real, hi: real): (r: real)
    ensures lo <= hi ==> lo <= r <= hi
    ensures lo <= x <= hi ==> r == x
    ensures x < lo <= hi ==> r == lo
    ensures lo <= hi < x ==> r == hi
    ensures hi < lo ==> r == hi
  {
    Min(Max(x, lo), hi)
  }

  /** The bound list, when present, has one entry per dimension. */
  predicate Fits(bound: Option<seq<Interval>>, n: nat) {
    bound.Some? ==> |bound.value| == n
  }

  /** The bound list fits n dimensions and no interval is empty. */
  predicate BoundsOk(bound: Option<seq<Interval>>, n: nat) {
    Fits(bound, n) &&
    (bound.Some? ==> forall i :: 0 <= i < n ==> bound.value[i].lo <= bound.value[i].hi)
  }

  /** Every component of x lies in its interval (always true without bounds). */
  predicate InBox(x: seq<real>, bound: Option<seq<Interval>>) {
    bound.Some? ==>
      |bound.value| == |x| &&
      forall i :: 0 <= i < |x| ==> bound.value[i].lo <= x[i] <= bound.value[i].hi
  }

  /**
   * What clipping does to a position: each component is clamped into its
   * own interval; without bounds the position is unchanged.
   */
  function Clipped(x: seq<real>, bound: Option<seq<Interval>>): (r: seq<real>)
    requires Fits(bound, |x|)
    ensures |r| == |x|
    ensures bound.None? ==> r == x
    ensures BoundsOk(bound, |x|) ==> InBox(r, bound)
    ensures InBox(x, bound) ==> r == x
    ensures bound.Some? ==> forall i :: 0 <= i < |x| ==>
              var iv := bound.value[i];
              (iv.lo <= x[i] <= iv.hi ==> r[i] == x[i]) &&
              (x[i] < iv.lo <= iv.hi ==> r[i] == iv.lo) &&
              (iv.lo <= iv.hi < x[i] ==> r[i] == iv.hi)
  {
    match bound
    case None => x
    case Some(b) => seq(|x|, i requires 0 <= i < |x| => Clamp(x[i], b[i].lo, b[i].hi))
  }

  /** Clipping twice is clipping once. */
  lemma ClippedIdempotent(x: seq<real>, bound: Option<seq<Interval>>)
    requires BoundsOk(bound, |x|)
    ensures Clipped(Clipped(x, bound), bound) == Clipped(x, bound)
  {
  }

  /** Every component in [-vmax, vmax]. */
  predicate Capped(v: seq<real>, vmax: real) {
    forall i :: 0 <= i < |v| ==> -vmax <= v[i] <= vmax
  }

  // ---------------------------------------------------------------------
  // Vector arithmetic of the numeric library, component by component

  function Plus(a: seq<real>, b: seq<real>): (r: seq<real>)
    requires |a| == |b|
    ensures |r| == |a| && forall i :: 0 <= i < |a| ==> r[i] == a[i] + b[i]
  {
    seq(|a|, i requires 0 <= i < |a| => a[i] + b[i])
  }

  function Minus(a: seq<real>, b: seq<real>): (r: seq<real>)
    requires |a| == |b|
    ensures |r| == |a| && forall i :: 0 <= i < |a| ==> r[i] == a[i] - b[i]
  {
    seq(|a|, i requires 0 <= i < |a| => a[i] - b[i])
  }

  function Scale(c: real, a: seq<real>): (r: seq<real>)
    ensures |r| == |a| && forall i :: 0 <= i < |a| ==> r[i] == c * a[i]
  {
    seq(|a|, i requires 0 <= i < |a| => c * a[i])
  }

  /** Component-wise clip of a vector into [-vmax, vmax]. */
  function ClampAll(v: seq<real>, vmax: real): (r: seq<real>)
    ensures |r| == |v| && forall i :: 0 <= i < |v| ==> r[i] == Clamp(v[i], -vmax, vmax)
    ensures 0.0 <= vmax ==> Capped(r, vmax)
    ensures Capped(v, vmax) ==> r == v
  {
    seq(|v|, i requires 0 <= i < |v| => Clamp(v[i], -vmax, vmax))
  }

  // ---------------------------------------------------------------------
  // The velocity rule

  /**
   * One component of the uncapped update: inertia, cognitive pull with
   * weight k1 = c1 r1, social pull with weight k2 = c2 r2.
   */
  function RawVelocity(v: real, x: real, p: real, g: real, w: real, k1: real, k2: real): (r: real)
  {
    w * v + k1 * (p - x) + k2 * (g - x)
  }

  /**
   * The velocity after an update from velocity v at position x, with
   * personal best p and global best g. The same two draws r1, r2 scale
   * every dimension. The result never exceeds the cap; where the uncapped
   * value is within the cap it is taken as is, otherwise the nearer end of
   * the cap is taken.
   */
  function NewVelocity(v: seq<real>, x: seq<real>, p: seq<real>, g: seq<real>,
                       w: real, c1: real, c2: real, r1: real, r2: real, vmax: real): (r: seq<real>)
    requires |x| == |v| && |p| == |v| && |g| == |v|
    ensures |r| == |v|
    ensures 0.0 <= vmax ==> Capped(r, vmax)
    ensures forall i :: 0 <= i < |v| ==>
              var raw := RawVelocity(v[i], x[i], p[i], g[i], w, c1 * r1, c2 * r2);
              (-vmax <= raw <= vmax ==> r[i] == raw) &&
              (raw < -vmax <= vmax ==> r[i] == -vmax) &&
              (-vmax <= vmax < raw ==> r[i] == vmax)
  {
    seq(|v|, i requires 0 <= i < |v| =>
      Clamp(RawVelocity(v[i], x[i], p[i], g[i], w, c1 * r1, c2 * r2), -vmax, vmax))
  }

  /** A particle sitting at both bests keeps only its (capped) inertia. */
  lemma NewVelocityAtRest(v: seq<real>, x: seq<real>, w: real, c1: real, c2: real, r1: real, r2: real, vmax: real)
    requires |x| == |v|
    ensures NewVelocity(v, x, x, x, w, c1, c2, r1, r2, vmax) == ClampAll(Scale(w, v), vmax)
  {
    var lhs := NewVelocity(v, x, x, x, w, c1, c2, r1, r2, vmax);
    var rhs := ClampAll(Scale(w, v), vmax);
    forall i | 0 <= i < |v|
      ensures lhs[i] == rhs[i]
    {
      assert RawVelocity(v[i], x[i], x[i], x[i], w, c1 * r1, c2 * r2) == w * v[i];
    }
  }

  /** One component of the vector statements of the uncapped update. */
  lemma RawVelocityAt(v: seq<real>, x: seq<real>, p: seq<real>, g: seq<real>,
                      w: real, k1: real, k2: real, i: nat)
    requires |x| == |v| && |p| == |v| && |g| == |v| && i < |v|
    ensures Plus(Plus(Scale(w, v), Scale(k1, Minus(p, x))), Scale(k2, Minus(g, x)))[i]
            == RawVelocity(v[i], x[i], p[i], g[i], w, k1, k2)
  {
    var dp, dg := Minus(p, x), Minus(g, x);
    assert Scale(k1, dp)[i] == k1 * dp[i];
    assert Scale(k2, dg)[i] == k2 * dg[i];
  }

  /** The vector statements of the velocity update compute the velocity rule. */
  lemma VelocityStepsCompose(v: seq<real>, x: seq<real>, p: seq<real>, g: seq<real>,
                             w: real, c1: real, c2: real, r1: real, r2: real, vmax: real)
    requires |x| == |v| && |p| == |v| && |g| == |v|
    ensures ClampAll(Plus(Plus(Scale(w, v), Scale(c1 * r1, Minus(p, x))), Scale(c2 * r2, Minus(g, x))), vmax)
            == NewVelocity(v, x, p, g, w, c1, c2, r1, r2, vmax)
  {
    var raw := Plus(Plus(Scale(w, v), Scale(c1 * r1, Minus(p, x))), Scale(c2 * r2, Minus(g, x)));
    var lhs := ClampAll(raw, vmax);
    var rhs := NewVelocity(v, x, p, g, w, c1, c2, r1, r2, vmax);
    forall i | 0 <= i < |v|
      ensures lhs[i] == rhs[i]
    {
      RawVelocityAt(v, x, p, g, w, c1 * r1, c2 * r2, i);
    }
  }

  // ---------------------------------------------------------------------
  // Particle construction

  /** A random start position: each component 2r - 1, so in [-1, 1). */
  function SpawnPosition(rs: seq<real>): (x: seq<real>)
    ensures |x| == |rs|
    ensures AllUnit(rs) ==> forall i :: 0 <= i < |x| ==> -1.0 <= x[i] < 1.0
  {
    seq(|rs|, i requires 0 <= i < |rs| => 2.0 * rs[i] - 1.0)
  }

  /** A random start velocity: each component 2 vmax r - vmax, so in [-vmax, vmax). */
  function SpawnVelocity(rs: seq<real>, vmax: real): (v: seq<real>)
    ensures |v| == |rs|
    ensures AllUnit(rs) && 0.0 <= vmax ==> Capped(v, vmax)
    ensures AllUnit(rs) && 0.0 < vmax ==> forall i :: 0 <= i < |v| ==> v[i] < vmax
  {
    ScaleDraws(vmax, rs);
    seq(|rs|, i requires 0 <= i < |rs| => 2.0 * vmax * rs[i] - vmax)
  }

  /** A draw scaled by a non-negative cap stays below the cap (strictly, for a positive cap). */
  predicate ScaledDraw(vmax: real, r: real) {
    0.0 <= vmax * r <= vmax && (0.0 < vmax ==> vmax * r < vmax)
  }

  lemma ScaleDraws(vmax: real, rs: seq<real>)
    ensures AllUnit(rs) && 0.0 <= vmax ==> forall i :: 0 <= i < |rs| ==> ScaledDraw(vmax, rs[i])
  {
    if AllUnit(rs) && 0.0 <= vmax {
      forall i | 0 <= i < |rs|
        ensures ScaledDraw(vmax, rs[i])
      {
        var r := rs[i];
        assert vmax * r <= vmax * 1.0;
      }
    }
  }

  /** The draws suit a particle of n dimensions with optional start X0. */
  predicate SpawnOk(d: SpawnDraws, n: nat, X0: Option<seq<real>>) {
    (X0.None? ==> |d.position| == n && AllUnit(d.position)) &&
    |d.velocity| == n && AllUnit(d.velocity)
  }

  /** The position a particle starts from, before clipping. */
  function StartPosition(X0: Option<seq<real>>, d: SpawnDraws): seq<real> {
    match X0
    case Some(x0) => x0
    case None => SpawnPosition(d.position)
  }

  // ---------------------------------------------------------------------
  // The selection rule

  /** a is strictly better than b. */
  predicate Better(minimize: bool, a: real, b: real) {
    if minimize then a < b else a > b
  }

  /** a is at least as good as b. */
  predicate NoWorse(minimize: bool, a: real, b: real) {
    if minimize then a <= b else a >= b
  }

  /**
   * The optimiser's comparison of a best position with a particle's
   * position: the particle's position replaces the best only when its
   * fitness is strictly better; ties keep the best. So the result is one
   * of the two, and its fitness is the smaller (larger, when maximising)
   * of the two.
   */
  function Optimum(f: seq<real> -> real, minimize: bool, best: seq<real>, x: seq<real>): (r: seq<real>)
    ensures r == best || r == x
    ensures r != best ==> Better(minimize, f(x), f(best))
    ensures NoWorse(minimize, f(r), f(best)) && NoWorse(minimize, f(r), f(x))
  {
    if minimize then
      (if f(best) > f(x) then x else best)
    else
      (if f(best) < f(x) then x else best)
  }

  /** Maximising is minimising the negated objective: the rule is mirrored, nothing else. */
  lemma OptimumMirrored(f: seq<real> -> real, best: seq<real>, x: seq<real>)
    ensures Optimum(f, false, best, x) == Optimum(y => -f(y), true, best, x)
  {
  }

  /**
   * The global best after initialising the first m particles: the first
   * start position, then the selection rule folded over the next ones from
   * left to right.
   */
  function FoldBest(f: seq<real> -> real, minimize: bool, xs: seq<seq<real>>, m: nat): (r: seq<real>)
    requires 1 <= m <= |xs|
  {
    if m == 1 then xs[0]
    else Optimum(f, minimize, FoldBest(f, minimize, xs, m - 1), xs[m - 1])
  }

  /**
   * xs[k] is the first position of best fitness among the first m: every
   * earlier one is strictly worse and no later one is better.
   */
  ghost predicate FirstBest(f: seq<real> -> real, minimize: bool, xs: seq<seq<real>>, m: nat, k: int) {
    0 <= k < m <= |xs| &&
    (forall j :: 0 <= j < k ==> Better(minimize, f(xs[k]), f(xs[j]))) &&
    (forall j :: k <= j < m ==> NoWorse(minimize, f(xs[k]), f(xs[j])))
  }

  /** Which of the first m positions the fold picks. */
  function FoldBestIndex(f: seq<real> -> real, minimize: bool, xs: seq<seq<real>>, m: nat): (k: nat)
    requires 1 <= m <= |xs|
    ensures k < m
  {
    if m == 1 then 0
    else
      var k := FoldBestIndex(f, minimize, xs, m - 1);
      if Better(minimize, f(xs[m - 1]), f(xs[k])) then m - 1 else k
  }

  /** The fold picks the first position of best fitness. */
  lemma {:induction false} FoldBestIsFirstBest(f: seq<real> -> real, minimize: bool, xs: seq<seq<real>>, m: nat)
    requires 1 <= m <= |xs|
    ensures FirstBest(f, minimize, xs, m, FoldBestIndex(f, minimize, xs, m))
    ensures FoldBest(f, minimize, xs, m) == xs[FoldBestIndex(f, minimize, xs, m)]
  {
    if m > 1 {
      FoldBestIsFirstBest(f, minimize, xs, m - 1);
      var k := FoldBestIndex(f, minimize, xs, m - 1);
      if Better(minimize, f(xs[m - 1]), f(xs[k])) {
        NewFirstBest(f, minimize, xs, m, k);
      } else {
        KeptFirstBest(f, minimize, xs, m, k);
      }
    }
  }

  /** One more position: the fold applies the selection rule once more. */
  lemma FoldBestNext(f: seq<real> -> real, minimize: bool, xs: seq<seq<real>>, i: nat)
    requires 1 <= i < |xs|
    ensures FoldBest(f, minimize, xs, i + 1) == Optimum(f, minimize, FoldBest(f, minimize, xs, i), xs[i])
  {
  }

  /** The fold's result is at least as good as every one of the first m positions. */
  lemma FoldBestIsBest(f: seq<real> -> real, minimize: bool, xs: seq<seq<real>>, m: nat)
    requires 1 <= m <= |xs|
    ensures FoldBest(f, minimize, xs, m) == xs[FoldBestIndex(f, minimize, xs, m)]
    ensures forall j :: 0 <= j < m ==> NoWorse(minimize, f(FoldBest(f, minimize, xs, m)), f(xs[j]))
  {
    FoldBestIsFirstBest(f, minimize, xs, m);
    assert FirstBest(f, minimize, xs, m, FoldBestIndex(f, minimize, xs, m));
  }

  /** A next position no better than the first best leaves it the first best. */
  lemma KeptFirstBest(f: seq<real> -> real, minimize: bool, xs: seq<seq<real>>, m: nat, k: int)
    requires 1 < m <= |xs| && FirstBest(f, minimize, xs, m - 1, k)
    requires !Better(minimize, f(xs[m - 1]), f(xs[k]))
    ensures FirstBest(f, minimize, xs, m, k)
  {
    assert NoWorse(minimize, f(xs[k]), f(xs[m - 1]));
  }

  /** A next position strictly better than the first best becomes the first best. */
  lemma NewFirstBest(f: seq<real> -> real, minimize: bool, xs: seq<seq<real>>, m: nat, k: int)
    requires 1 < m <= |xs| && FirstBest(f, minimize, xs, m - 1, k)
    requires Better(minimize, f(xs[m - 1]), f(xs[k]))
    ensures FirstBest(f, minimize, xs, m, m - 1)
  {
    forall j | 0 <= j < m - 1
      ensures Better(minimize, f(xs[m - 1]), f(xs[j]))
    {
      if j < k {
        assert Better(minimize, f(xs[k]), f(xs[j]));
      } else {
        assert NoWorse(minimize, f(xs[k]), f(xs[j]));
      }
    }
  }

  /** Every entry of the history is no worse than the one before it. */
  predicate Improving(minimize: bool, h: seq<real>) {
    |h| < 2 || (Improving(minimize, h[..|h| - 1]) && NoWorse(minimize, h[|h| - 1], h[|h| - 2]))
  }

  /**
   * A history whose every entry is no worse than the one before is
   * monotone: every entry is no worse than every earlier one.
   */
  lemma {:induction false} HistoryMonotone(minimize: bool, h: seq<real>)
    requires Improving(minimize, h)
    ensures forall s, u :: 0 <= s <= u < |h| ==> NoWorse(minimize, h[u], h[s])
  {
    if |h| > 1 {
      var front := h[..|h| - 1];
      HistoryMonotone(minimize, front);
      forall s, u | 0 <= s <= u < |h|
        ensures NoWorse(minimize, h[u], h[s])
      {
        if u == |h| - 1 && s < u {
          assert NoWorse(minimize, front[u - 1], front[s]);
        } else if u < |h| - 1 {
          assert NoWorse(minimize, front[u], front[s]);
        }
      }
    }
  }

  // ---------------------------------------------------------------------
  // The example objectives as optimiser objectives. A position with fewer
  // than two components, on which the examples fail, scores 0.

  function HimmelblauObjective(x: seq<real>): (f: real)
    ensures f >= 0.0
  {
    if |x| >= 2 then Fitness.Himmelblau(x) else 0.0
  }

  function ConcaveObjective(x: seq<real>): (f: real)
    ensures f <= 2.0
  {
    if |x| >= 2 then Fitness.ConcaveQuadratic(x) else 0.0
  }

  /**
   * Minimising Himmelblau's function: once any of the first m positions is
   * the documented optimum (3, 2), the global best has fitness 0.
   */
  lemma HimmelblauBestReachesZero(xs: seq<seq<real>>, m: nat, k: nat)
    requires k < m <= |xs| && xs[k] == [3.0, 2.0]
    ensures HimmelblauObjective(FoldBest(HimmelblauObjective, true, xs, m)) == 0.0
  {
    FoldBestIsBest(HimmelblauObjective, true, xs, m);
    assert NoWorse(true, HimmelblauObjective(FoldBest(HimmelblauObjective, true, xs, m)), HimmelblauObjective(xs[k]));
  }

  /**
   * Maximising the concave quadratic: once any of the first m positions is
   * its documented optimum (2, 1), the global best has fitness 2.
   */
  lemma ConcaveBestReachesTwo(xs: seq<seq<real>>, m: nat, k: nat)
    requires k < m <= |xs| && xs[k] == [2.0, 1.0]
    ensures ConcaveObjective(FoldBest(ConcaveObjective, false, xs, m)) == 2.0
  {
    FoldBestIsBest(ConcaveObjective, false, xs, m);
    assert NoWorse(false, ConcaveObjective(FoldBest(ConcaveObjective, false, xs, m)), ConcaveObjective(xs[k]));
  }

  // ---------------------------------------------------------------------
  // Coefficient schedules (t / Tmax is true division)

  /** How far the run has progressed, t / Tmax: 0 at the start, 1 at the horizon. */
  function Progress(t: int, tmax: int): (s: real)
    requires tmax > 0
    ensures t == 0 ==> s == 0.0
    ensures t == tmax ==> s == 1.0
    ensures 0 <= t <= tmax ==> 0.0 <= s <= 1.0
  {
    (t as real) / (tmax as real)
  }

  /** Inertia decays linearly from 0.9 at t = 0 to 0.4 at t = Tmax. */
  function InertiaSchedule(t: int, tmax: int): (r: real)
    requires tmax > 0
    ensures t == 0 ==> r == 0.9
    ensures t == tmax ==> r == 0.4
    ensures 0 <= t <= tmax ==> 0.4 <= r <= 0.9
  {
    0.9 - 0.5 * Progress(t, tmax)
  }

  /** The cognitive weight decays linearly from 3.5 at t = 0 to 0.5 at t = Tmax. */
  function CognitiveSchedule(t: int, tmax: int): (r: real)
    requires tmax > 0
    ensures t == 0 ==> r == 3.5
    ensures t == tmax ==> r == 0.5
    ensures 0 <= t <= tmax ==> 0.5 <= r <= 3.5
  {
    3.5 - 3.0 * Progress(t, tmax)
  }

  /**
   * The social weight grows linearly from 0.5 at t = 0 to 3.5 at t = Tmax;
   * with the cognitive weight it always sums to 4.
   */
  function SocialSchedule(t: int, tmax: int): (r: real)
    requires tmax > 0
    ensures t == 0 ==> r == 0.5
    ensures t == tmax ==> r == 3.5
    ensures r + CognitiveSchedule(t, tmax) == 4.0
  {
    0.5 + 3.0 * Progress(t, tmax)
  }

  /** Later iterations have less inertia, less self-reliance and more social pull. */
  lemma SchedulesMonotone(t1: int, t2: int, tmax: int)
    requires tmax > 0 && t1 <= t2
    ensures InertiaSchedule(t2, tmax) <= InertiaSchedule(t1, tmax)
    ensures CognitiveSchedule(t2, tmax) <= CognitiveSchedule(t1, tmax)
    ensures SocialSchedule(t1, tmax) <= SocialSchedule(t2, tmax)
  {
    ProgressMonotone(t1, t2, tmax);
  }

  lemma ProgressMonotone(t1: int, t2: int, tmax: int)
    requires tmax > 0 && t1 <= t2
    ensures Progress(t1, tmax) <= Progress(t2, tmax)
  {
    var T := tmax as real;
    var d := ((t2 - t1) as real) / T;
    assert d * T == (t2 - t1) as real;
    assert (t2 as real) / T == (t1 as real) / T + d;
  }

  /** One pair of draws per particle for one iteration. */
  predicate DrawRow(row: seq<Draws>, P: nat) {
    |row| == P && forall k :: 0 <= k < P ==> Unit(row[k].r1) && Unit(row[k].r2)
  }

  /** One row of draws per iteration. */
  predicate DrawTable(draws: seq<seq<Draws>>, P: nat) {
    forall s :: 0 <= s < |draws| ==> DrawRow(draws[s], P)
  }

  /** Number of passes of the main loop `while t <= Tmax` starting from t = 0. */
  function Iterations(tmax: int): nat {
    if tmax >= 0 then tmax + 1 else 0
  }

  /** The list [0, 1, ..., k - 1]. */
  function Range(k: nat): (r: seq<int>)
    ensures |r| == k && forall i :: 0 <= i < k ==> r[i] == i
  {
    if k == 0 then [] else Range(k - 1) + [k - 1]
  }

  /** No particle occurs twice in the list. */
  predicate Distinct(ps: seq<Particle>) {
    forall i, j :: 0 <= i < j < |ps| ==> ps[i] != ps[j]
  }

  // ---------------------------------------------------------------------
  // Particle

  class Particle {
    const n: nat
    const vmax: real
    const bound: Option<seq<Interval>>
    var X: seq<real>
    var V: seq<real>
    var pbest: seq<real>

    /**
     * The particle's invariant: three vectors of n components; with well
     * formed bounds the position and the personal best lie in the box; with
     * a non-negative cap the velocity is within it.
     */
    ghost predicate Valid()
      reads this
    {
      |X| == n && |V| == n && |pbest| == n &&
      BoundsOk(bound, n) &&
      InBox(X, bound) && InBox(pbest, bound) &&
      (0.0 <= vmax ==> Capped(V, vmax))
    }

    constructor (n: nat, vmax: real, X0: Option<seq<real>>, bound: Option<seq<Interval>>, draws: SpawnDraws)
      requires BoundsOk(bound, n)
      requires X0.Some? ==> |X0.value| == n
      requires SpawnOk(draws, n, X0)
      ensures Valid()
      ensures this.n == n && this.vmax == vmax && this.bound == bound
      ensures X == Clipped(StartPosition(X0, draws), bound)
      ensures X0.Some? && InBox(X0.value, bound) ==> X == X0.value
      ensures X0.None? ==> X == Clipped(SpawnPosition(draws.position), bound)
      ensures V == SpawnVelocity(draws.velocity, vmax)
      ensures pbest == X
    {
      this.n := n;
      this.vmax := vmax;
      this.bound := bound;
      X := StartPosition(X0, draws);
      V := SpawnVelocity(draws.velocity, vmax);
      new;
      ClipX();
      pbest := X;
    }

    /** Clamp each component of the position into its interval, in place. */
    method ClipX()
      requires |X| == n && Fits(bound, n)
      modifies this`X
      ensures X == Clipped(old(X), bound)
    {
      if bound.Some? {
        var i := 0;
        while i < n
          invariant 0 <= i <= n && |X| == n
          invariant forall j :: 0 <= j < i ==>
                      X[j] == Clamp(old(X)[j], bound.value[j].lo, bound.value[j].hi)
          invariant forall j :: i <= j < n ==> X[j] == old(X)[j]
        {
          var xmin, xmax := bound.value[i].lo, bound.value[i].hi;
          X := X[i := Clamp(X[i], xmin, xmax)];
          i := i + 1;
        }
      }
    }

    /**
     * Clip the position (a no-op on a valid particle), then replace the
     * velocity by the capped inertia, cognitive and social update.
     */
    method UpdateVelocity(w: real, c1: real, c2: real, gbest: seq<real>, r1: real, r2: real)
      requires Valid() && |gbest| == n && Unit(r1) && Unit(r2)
      modifies this`X, this`V
      ensures Valid()
      ensures X == old(X)
      ensures V == NewVelocity(old(V), X, pbest, gbest, w, c1, c2, r1, r2, vmax)
    {
      ClipX();
      VelocityStepsCompose(V, X, pbest, gbest, w, c1, c2, r1, r2, vmax);
      V := Scale(w, V);
      V := Plus(V, Scale(c1 * r1, Minus(pbest, X)));
      V := Plus(V, Scale(c2 * r2, Minus(gbest, X)));
      V := ClampAll(V, vmax);
    }

    /** Move by the velocity, then clip back into the box. */
    method UpdatePosition()
      requires Valid()
      modifies this`X
      ensures Valid()
      ensures X == Clipped(Plus(old(X), V), bound)
    {
      X := Plus(X, V);
      ClipX();
    }
  }

  // ---------------------------------------------------------------------
  // The optimiser

  class Pso {
    const fitness: seq<real> -> real
    const P: nat
    const n: nat
    const Tmax: int
    const X0: Option<seq<real>>
    const bound: Option<seq<Interval>>
    const updateW: bool
    const updateC1: bool
    const updateC2: bool
    const updateVmax: bool
    const minimize: bool
    /** The velocity-cap schedule as a function of t / Tmax (an exponential in the source). */
    const vmaxCurve: real -> real

    var w: real
    var c1: real
    var c2: real
    var vmax: real
    var t: int
    var population: seq<Particle>
    var gbest: seq<real>
    var fitnessTime: seq<real>
    var time: seq<int>

    /** The configuration the source takes for granted. */
    predicate Configured() {
      BoundsOk(bound, n) && (X0.Some? ==> |X0.value| == n)
    }

    /** The fitness of a position under this optimiser's objective. */
    function Fit(x: seq<real>): (f: real) {
      fitness(x)
    }

    /**
     * A schedule flag needs a non-zero horizon: each iteration divides by
     * Tmax, and with Tmax < 0 the main loop never runs.
     */
    predicate SchedulesDefined() {
      updateW || updateC1 || updateC2 || updateVmax ==> Tmax != 0
    }

    /**
     * After initialisation: P distinct particles of this optimiser's shape,
     * each valid, and a global best in the box that is at least as good as
     * every personal best.
     */
    ghost predicate Ready()
      reads this`population, this`gbest, population
    {
      Configured() && P >= 1 && |population| == P && Distinct(population) &&
      (forall i :: 0 <= i < |population| ==>
         population[i].n == n && population[i].bound == bound && population[i].Valid()) &&
      |gbest| == n && InBox(gbest, bound) &&
      (forall i :: 0 <= i < |population| ==>
         NoWorse(minimize, Fit(gbest), Fit(population[i].pbest)))
    }

    constructor (fitness: seq<real> -> real, P: nat, n: nat, w: real, c1: real, c2: real,
                 Tmax: int, vmax: real, X0: Option<seq<real>>, bound: Option<seq<Interval>>,
                 updateW: bool, updateC1: bool, updateC2: bool, updateVmax: bool,
                 vmaxCurve: real -> real, minimize: bool)
      ensures this.fitness == fitness && this.P == P && this.n == n && this.Tmax == Tmax
      ensures this.X0 == X0 && this.bound == bound && this.minimize == minimize
      ensures this.updateW == updateW && this.updateC1 == updateC1
      ensures this.updateC2 == updateC2 && this.updateVmax == updateVmax
      ensures this.vmaxCurve == vmaxCurve
      ensures this.w == w && this.c1 == c1 && this.c2 == c2 && this.vmax == vmax
      ensures population == [] && fitnessTime == [] && time == []
    {
      this.fitness := fitness;
      this.P := P;
      this.n := n;
      this.w := w;
      this.c1, this.c2 := c1, c2;
      this.Tmax := Tmax;
      this.vmax := vmax;
      this.X0 := X0;
      this.bound := bound;
      this.updateW := updateW;
      this.updateC1 := updateC1;
      this.updateC2 := updateC2;
      this.updateVmax := updateVmax;
      this.vmaxCurve := vmaxCurve;
      this.minimize := minimize;
      population := [];
      gbest := [];
      fitnessTime, time := [], [];
    }

    /** The clipped start positions the spawn draws give, particle by particle. */
    function StartPositions(spawn: seq<SpawnDraws>): (xs: seq<seq<real>>)
      requires Configured()
      requires forall i :: 0 <= i < |spawn| ==> SpawnOk(spawn[i], n, X0)
      ensures |xs| == |spawn|
    {
      if spawn == [] then [] else [ClippedStart(spawn[0])] + StartPositions(spawn[1..])
    }

    lemma {:induction false} StartPositionAt(spawn: seq<SpawnDraws>, i: nat)
      requires Configured() && i < |spawn|
      requires forall j :: 0 <= j < |spawn| ==> SpawnOk(spawn[j], n, X0)
      ensures StartPositions(spawn)[i] == ClippedStart(spawn[i])
    {
      if i > 0 {
        StartPositionAt(spawn[1..], i - 1);
      }
    }

    /** The clipped start position of one particle. */
    function ClippedStart(d: SpawnDraws): (x: seq<real>)
      requires Configured() && SpawnOk(d, n, X0)
      ensures |x| == n && InBox(x, bound)
    {
      var x0 := StartPosition(X0, d);
      assert |x0| == n;
      Clipped(x0, bound)
    }

    /** The global best after spawning the first m particles of the draws. */
    function BestStart(spawn: seq<SpawnDraws>, m: nat): (b: seq<real>)
      requires Configured() && 1 <= m <= |spawn|
      requires forall i :: 0 <= i < |spawn| ==> SpawnOk(spawn[i], n, X0)
    {
      FoldBest(fitness, minimize, StartPositions(spawn), m)
    }

    /**
     * p is a particle of this optimiser's shape and velocity cap in the
     * start state the draws d give: its position and personal best are the
     * clipped start position and its velocity the scaled start velocity.
     */
    ghost predicate StartedAs(p: Particle, d: SpawnDraws)
      reads this`vmax, p
      requires Configured() && SpawnOk(d, n, X0)
    {
      p.n == n && p.bound == bound && p.vmax == vmax &&
      p.X == ClippedStart(d) && p.pbest == p.X && p.V == SpawnVelocity(d.velocity, vmax)
    }

    /** The particles of swarm are, in order, particles 0, 1, ... of the spawn draws, as spawned. */
    ghost predicate Started(swarm: seq<Particle>, spawn: seq<SpawnDraws>)
      reads this`vmax, swarm
      requires Configured() && |swarm| <= |spawn|
      requires forall j :: 0 <= j < |spawn| ==> SpawnOk(spawn[j], n, X0)
    {
      swarm == [] ||
      (Started(swarm[..|swarm| - 1], spawn) && StartedAs(swarm[|swarm| - 1], spawn[|swarm| - 1]))
    }

    lemma {:induction false} StartedAt(swarm: seq<Particle>, spawn: seq<SpawnDraws>, j: nat)
      requires Configured() && j < |swarm| <= |spawn|
      requires forall i :: 0 <= i < |spawn| ==> SpawnOk(spawn[i], n, X0)
      requires Started(swarm, spawn)
      ensures StartedAs(swarm[j], spawn[j])
    {
      if j < |swarm| - 1 {
        StartedAt(swarm[..|swarm| - 1], spawn, j);
      }
    }

    /**
     * One step of the initialisation loop: spawn particle i of the draws,
     * append it to the swarm and fold its position into the best so far.
     */
    method Admit(swarm: seq<Particle>, best: seq<real>, spawn: seq<SpawnDraws>, i: nat)
      returns (p: Particle, best': seq<real>)
      requires Configured() && i < |spawn| && |swarm| == i
      requires forall j :: 0 <= j < |spawn| ==> SpawnOk(spawn[j], n, X0)
      requires Started(swarm, spawn)
      requires i > 0 ==> best == BestStart(spawn, i)
      ensures fresh(p) && Started(swarm + [p], spawn)
      ensures best' == BestStart(spawn, i + 1)
    {
      p := new Particle(n, vmax, X0, bound, spawn[i]);
      StartPositionAt(spawn, i);
      assert (swarm + [p])[..i] == swarm;
      if i == 0 {
        best' := p.X;
      } else {
        FoldBestNext(fitness, minimize, StartPositions(spawn), i);
        best' := Optimum(fitness, minimize, best, p.X);
      }
    }

    /**
     * Build the P particles from this optimiser's shape, current velocity
     * cap, start position and bounds, tracking the best start position.
     */
    method Initialize(spawn: seq<SpawnDraws>)
      requires Configured() && P >= 1
      requires |spawn| == P && forall i :: 0 <= i < P ==> SpawnOk(spawn[i], n, X0)
      modifies this`population, this`gbest
      ensures |population| == P
      ensures fresh(population) && Distinct(population)
      ensures Started(population, spawn)
      ensures gbest == BestStart(spawn, P)
    {
      var swarm: seq<Particle> := [];
      var best: seq<real> := [];
      var i := 0;
      while i < P
        invariant 0 <= i <= P && |swarm| == i
        invariant fresh(swarm) && Distinct(swarm)
        invariant Started(swarm, spawn)
        invariant i > 0 ==> best == BestStart(spawn, i)
      {
        var p;
        p, best := Admit(swarm, best, spawn, i);
        swarm := swarm + [p];
        i := i + 1;
      }
      population, gbest := swarm, best;
    }

    /**
     * A swarm spawned particle by particle, with the folded best, is ready
     * to move: the global best is the start position of one of the
     * particles and no particle starts at a better one.
     */
    lemma SpawnedSwarmIsReady(spawn: seq<SpawnDraws>)
      requires Configured() && P >= 1
      requires |spawn| == P && forall i :: 0 <= i < P ==> SpawnOk(spawn[i], n, X0)
      requires |population| == P && Distinct(population) && Started(population, spawn)
      requires gbest == BestStart(spawn, P)
      ensures Ready()
      ensures gbest == population[FoldBestIndex(fitness, minimize, StartPositions(spawn), P)].X
      ensures forall i :: 0 <= i < P ==> NoWorse(minimize, Fit(gbest), Fit(population[i].X))
    {
      var xs := StartPositions(spawn);
      FoldBestIsBest(fitness, minimize, xs, P);
      var k := FoldBestIndex(fitness, minimize, xs, P);
      StartPositionAt(spawn, k);
      StartedAt(population, spawn, k);
      assert |gbest| == n && InBox(gbest, bound);
      forall j | 0 <= j < P
        ensures population[j].n == n && population[j].bound == bound && population[j].Valid()
        ensures NoWorse(minimize, Fit(gbest), Fit(population[j].X))
        ensures NoWorse(minimize, Fit(gbest), Fit(population[j].pbest))
      {
        StartPositionAt(spawn, j);
        StartedAt(population, spawn, j);
      }
    }

    /** Recompute the scheduled coefficients for iteration t; the others stay. */
    method UpdateCoeff()
      requires SchedulesDefined() && 0 <= t <= Tmax
      modifies this`w, this`c1, this`c2, this`vmax
      ensures w == if updateW then InertiaSchedule(t, Tmax) else old(w)
      ensures c1 == if updateC1 then CognitiveSchedule(t, Tmax) else old(c1)
      ensures c2 == if updateC2 then SocialSchedule(t, Tmax) else old(c2)
      ensures vmax == if updateVmax then vmaxCurve(Progress(t, Tmax)) else old(vmax)
    {
      if updateW {
        w := InertiaSchedule(t, Tmax);
      }
      if updateC1 {
        c1 := CognitiveSchedule(t, Tmax);
      }
      if updateC2 {
        c2 := SocialSchedule(t, Tmax);
      }
      if updateVmax {
        vmax := vmaxCurve(Progress(t, Tmax));
      }
    }

    /**
     * Particle p has taken its turn from velocity v, position x and personal
     * best b while the global best went from g to g': its velocity is the rule
     * applied with g and the draws d, its position moved by that velocity and
     * was clipped, and both bests took the new position through the
     * selection rule.
     */
    ghost predicate Stepped(p: Particle, v: seq<real>, x: seq<real>, b: seq<real>,
                            g: seq<real>, g': seq<real>, d: Draws)
      reads this`w, this`c1, this`c2, p
    {
      |x| == |v| && |b| == |v| && |g| == |v| && |p.V| == |v| && Fits(bound, |v|) &&
      p.V == NewVelocity(v, x, b, g, w, c1, c2, d.r1, d.r2, p.vmax) &&
      p.X == Clipped(Plus(x, p.V), bound) &&
      p.pbest == Optimum(fitness, minimize, b, p.X) &&
      g' == Optimum(fitness, minimize, g, p.X)
    }

    /** A particle's turn never makes its personal best or the global best worse. */
    lemma SteppedNoWorse(p: Particle, v: seq<real>, x: seq<real>, b: seq<real>,
                         g: seq<real>, g': seq<real>, d: Draws)
      requires Stepped(p, v, x, b, g, g', d)
      ensures NoWorse(minimize, Fit(p.pbest), Fit(b)) && NoWorse(minimize, Fit(g'), Fit(g))
    {
    }

    /**
     * One particle's turn: velocity, position, then its personal best and
     * at once the global best, so later particles see the new global best.
     */
    method StepParticle(k: nat, d: Draws)
      requires Ready() && k < |population| && Unit(d.r1) && Unit(d.r2)
      modifies population[k], this`gbest
      ensures Ready()
      ensures Stepped(population[k], old(population[k].V), old(population[k].X), old(population[k].pbest),
                      old(gbest), gbest, d)
    {
      var p := population[k];
      p.UpdateVelocity(w, c1, c2, gbest, d.r1, d.r2);
      p.UpdatePosition();
      p.pbest := Optimum(fitness, minimize, p.pbest, p.X);
      gbest := Optimum(fitness, minimize, gbest, p.X);
    }

    /**
     * All particles in population order, with one pair of draws each. The
     * global best is updated after every particle, so G lists the global
     * best each particle's turn starts from: G[0] is the best before the
     * sweep, G[i + 1] the best after particle i, and G[P] the new best.
     */
    method Sweep(row: seq<Draws>) returns (ghost G: seq<seq<real>>)
      requires Ready() && DrawRow(row, P)
      modifies population, this`gbest
      ensures Ready()
      ensures |G| == P + 1 && G[0] == old(gbest) && gbest == G[P]
      ensures forall i :: 0 <= i < P ==>
                Stepped(population[i], old(population[i].V), old(population[i].X), old(population[i].pbest),
                        G[i], G[i + 1], row[i])
      ensures NoWorse(minimize, Fit(gbest), old(Fit(gbest)))
      ensures forall i :: 0 <= i < P ==>
                NoWorse(minimize, Fit(population[i].pbest), old(Fit(population[i].pbest)))
    {
      G := [gbest];
      var k := 0;
      while k < P
        invariant 0 <= k <= P
        invariant Ready()
        invariant |G| == k + 1 && G[0] == old(gbest) && gbest == G[k]
        invariant forall i :: 0 <= i < k ==>
                    Stepped(population[i], old(population[i].V), old(population[i].X), old(population[i].pbest),
                            G[i], G[i + 1], row[i])
        invariant forall i :: k <= i < P ==>
                    population[i].V == old(population[i].V) && population[i].X == old(population[i].X) &&
                    population[i].pbest == old(population[i].pbest)
        invariant NoWorse(minimize, Fit(gbest), old(Fit(gbest)))
      {
        StepParticle(k, row[k]);
        G := G + [gbest];
        k := k + 1;
      }
      forall i | 0 <= i < P
        ensures NoWorse(minimize, Fit(population[i].pbest), old(Fit(population[i].pbest)))
      {
        SteppedNoWorse(population[i], old(population[i].V), old(population[i].X), old(population[i].pbest),
                       G[i], G[i + 1], row[i]);
      }
    }

    /**
     * One iteration of the main loop: update the coefficients, sweep the
     * swarm with the new coefficients (G is the sweep's chain of global
     * bests), and append the global best fitness and t to the histories.
     */
    method Iterate(row: seq<Draws>) returns (ghost G: seq<seq<real>>)
      requires Ready() && SchedulesDefined() && DrawRow(row, P)
      requires 0 <= t <= Tmax
      modifies this, population
      ensures Ready() && population == old(population)
      ensures |G| == P + 1 && G[0] == old(gbest) && gbest == G[P]
      ensures forall i :: 0 <= i < P ==>
                Stepped(population[i], old(population[i].V), old(population[i].X), old(population[i].pbest),
                        G[i], G[i + 1], row[i])
      ensures w == if updateW then InertiaSchedule(old(t), Tmax) else old(w)
      ensures c1 == if updateC1 then CognitiveSchedule(old(t), Tmax) else old(c1)
      ensures c2 == if updateC2 then SocialSchedule(old(t), Tmax) else old(c2)
      ensures vmax == if updateVmax then vmaxCurve(Progress(old(t), Tmax)) else old(vmax)
      ensures NoWorse(minimize, Fit(gbest), old(Fit(gbest)))
      ensures forall i :: 0 <= i < P ==>
                NoWorse(minimize, Fit(population[i].pbest), old(Fit(population[i].pbest)))
      ensures fitnessTime == old(fitnessTime) + [Fit(gbest)]
      ensures time == old(time) + [old(t)]
      ensures t == old(t) + 1
    {
      UpdateCoeff();
      G := Sweep(row);
      Record();
    }

    /** Append the global best's fitness and the iteration number to the history, then count the iteration. */
    method Record()
      modifies this`fitnessTime, this`time, this`t
      ensures fitnessTime == old(fitnessTime) + [Fit(gbest)]
      ensures time == old(time) + [old(t)]
      ensures t == old(t) + 1
    {
      fitnessTime := fitnessTime + [Fit(gbest)];
      time := time + [t];
      t := t + 1;
    }

    /**
     * The main loop: for t = 0 .. Tmax, update the coefficients, sweep the
     * swarm and append the global best fitness and t to the history lists.
     * The history ends with the final global best's fitness and improves
     * from entry to entry, starting no worse than the global best before.
     */
    method Move(draws: seq<seq<Draws>>)
      requires Ready() && SchedulesDefined()
      requires |draws| == Iterations(Tmax)
      requires DrawTable(draws, P)
      modifies this, population
      ensures Ready() && population == old(population)
      ensures Tmax >= 0 ==> t == Tmax + 1 && time == Range(Tmax + 1) && |fitnessTime| == Tmax + 1
      ensures Tmax < 0 ==> t == 0 && time == [] && fitnessTime == []
      ensures |fitnessTime| > 0 ==> fitnessTime[|fitnessTime| - 1] == Fit(gbest)
      ensures Improving(minimize, fitnessTime)
      ensures |fitnessTime| > 0 ==> NoWorse(minimize, fitnessTime[0], old(Fit(gbest)))
      ensures NoWorse(minimize, Fit(gbest), old(Fit(gbest)))
      ensures forall i :: 0 <= i < P ==>
                NoWorse(minimize, Fit(population[i].pbest), old(Fit(population[i].pbest)))
      ensures Tmax > 0 ==> w == (if updateW then 0.4 else old(w))
      ensures Tmax > 0 ==> c1 == (if updateC1 then 0.5 else old(c1))
      ensures Tmax > 0 ==> c2 == (if updateC2 then 3.5 else old(c2))
      ensures Tmax > 0 ==> vmax == (if updateVmax then vmaxCurve(1.0) else old(vmax))
      ensures Tmax <= 0 ==> w == old(w) && c1 == old(c1) && c2 == old(c2) && vmax == old(vmax)
      ensures Tmax < 0 ==> gbest == old(gbest)
      ensures Tmax < 0 ==> forall i :: 0 <= i < P ==>
                population[i].X == old(population[i].X) && population[i].V == old(population[i].V) &&
                population[i].pbest == old(population[i].pbest)
    {
      t := 0;
      fitnessTime, time := [], [];
      while t <= Tmax
        invariant 0 <= t <= Iterations(Tmax)
        invariant Ready() && population == old(population)
        invariant time == Range(t) && |fitnessTime| == t
        invariant t > 0 ==> fitnessTime[t - 1] == Fit(gbest)
        invariant Improving(minimize, fitnessTime)
        invariant t > 0 ==> NoWorse(minimize, fitnessTime[0], old(Fit(gbest)))
        invariant NoWorse(minimize, Fit(gbest), old(Fit(gbest)))
        invariant forall i :: 0 <= i < P ==>
                    NoWorse(minimize, Fit(population[i].pbest), old(Fit(population[i].pbest)))
        invariant t > 0 ==> w == (if updateW then InertiaSchedule(t - 1, Tmax) else old(w))
        invariant t > 0 ==> c1 == (if updateC1 then CognitiveSchedule(t - 1, Tmax) else old(c1))
        invariant t > 0 ==> c2 == (if updateC2 then SocialSchedule(t - 1, Tmax) else old(c2))
        invariant t > 0 ==> vmax == (if updateVmax then vmaxCurve(Progress(t - 1, Tmax)) else old(vmax))
        invariant t == 0 ==> w == old(w) && c1 == old(c1) && c2 == old(c2) && vmax == old(vmax)
        invariant t == 0 ==> gbest == old(gbest)
        invariant t == 0 ==> forall i :: 0 <= i < P ==>
                    population[i].X == old(population[i].X) && population[i].V == old(population[i].V) &&
                    population[i].pbest == old(population[i].pbest)
      {
        ghost var history := fitnessTime;
        ghost var G := Iterate(draws[t]);
        assert fitnessTime[..t - 1] == history;
      }
    }

    /**
     * Initialise, run the main loop, and hand back the final global best
     * and its fitness (which the source prints).
     */
    method Execute(spawn: seq<SpawnDraws>, draws: seq<seq<Draws>>) returns (solution: seq<real>, cost: real)
      requires Configured() && SchedulesDefined() && P >= 1
      requires |spawn| == P && forall i :: 0 <= i < P ==> SpawnOk(spawn[i], n, X0)
      requires |draws| == Iterations(Tmax)
      requires DrawTable(draws, P)
      modifies this
      ensures Ready()
      ensures solution == gbest && cost == Fit(gbest)
      ensures |solution| == n && InBox(solution, bound)
      ensures forall i :: 0 <= i < P ==> NoWorse(minimize, cost, Fit(StartPositions(spawn)[i]))
      ensures Tmax >= 0 ==> |fitnessTime| == Tmax + 1 && time == Range(Tmax + 1)
      ensures Tmax < 0 ==> fitnessTime == [] && time == []
      ensures forall s, u :: 0 <= s <= u < |fitnessTime| ==>
                NoWorse(minimize, fitnessTime[u], fitnessTime[s])
      ensures |fitnessTime| > 0 ==> fitnessTime[|fitnessTime| - 1] == cost
    {
      Initialize(spawn);
      SpawnedSwarmIsReady(spawn);
      FoldBestIsBest(fitness, minimize, StartPositions(spawn), P);
      Move(draws);
      HistoryMonotone(minimize, fitnessTime);
      solution, cost := gbest, Fit(gbest);
    }
  }
}
