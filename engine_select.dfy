/**
 * The per-order choices of OptimizationEngine.optimize
 * (src/lib/optimization-engine.ts:143-194): which stockyard is charged,
 * which rake is used, which loading point loads it, and the wagon and
 * utilisation figures written into the plan row.
 *
 * JavaScript numbers are modelled exactly: utilisation percentages are
 * `real`, and Math.round(x) is floor(x + 1/2).
 */
module EngineSelect {
  import opened Wrappers
  import opened EngineData

  /** The value stored under `k`, or 0 when there is none (the `|| 0` reads of the source). */
  function GetOrZero(m: map<string, int>, k: string): int
  {
    if k in m then m[k] else 0
  }

  /** Math.ceil(q / m) for a positive divisor. */
  function CeilDiv(q: int, m: int): (r: int)
    requires m > 0
    ensures (r - 1) * m < q <= r * m
  {
    (q + m - 1) / m
  }

  /** Math.round(x): the nearest integer, halves rounded up. */
  function Round(x: real): (r: int)
    ensures r as real - 0.5 <= x < r as real + 0.5
  {
    (x + 0.5).Floor
  }

  function Min(a: int, b: int): (r: int)
    ensures r <= a && r <= b && (r == a || r == b)
  {
    if a <= b then a else b
  }

  // ---------------------------------------------------------------- stockyards

  /** A stockyard holds the order's product and can cover the whole order quantity. */
  predicate CanSupply(s: StockYard, inventory: map<string, int>, o: Order)
  {
    s.material == o.product && GetOrZero(inventory, s.id) >= o.quantity
  }

  /** Lines 144-149 and 160: the first stockyard, in input order, that can supply the order. */
  function FirstCompatibleStockyard(yards: seq<StockYard>, inventory: map<string, int>, o: Order): (r: Option<nat>)
    ensures r.Some? ==> r.value < |yards| && CanSupply(yards[r.value], inventory, o)
    ensures r.Some? ==> forall j | 0 <= j < r.value :: !CanSupply(yards[j], inventory, o)
    ensures r.None? <==> forall j | 0 <= j < |yards| :: !CanSupply(yards[j], inventory, o)
  {
    FirstCompatibleFrom(yards, inventory, o, 0)
  }

  function FirstCompatibleFrom(yards: seq<StockYard>, inventory: map<string, int>, o: Order, i: nat): (r: Option<nat>)
    requires i <= |yards|
    ensures r.Some? ==> i <= r.value < |yards| && CanSupply(yards[r.value], inventory, o)
    ensures r.Some? ==> forall j | i <= j < r.value :: !CanSupply(yards[j], inventory, o)
    ensures r.None? <==> forall j | i <= j < |yards| :: !CanSupply(yards[j], inventory, o)
    decreases |yards| - i
  {
    if i == |yards| then None
    else if CanSupply(yards[i], inventory, o) then Some(i)
    else FirstCompatibleFrom(yards, inventory, o, i + 1)
  }

  // --------------------------------------------------------------------- rakes

  /** The filter on rakes: available, not used yet in this run, and not longer than the limit. */
  predicate RakeEligible(r: Rake, used: set<string>, maxWagonsPerRake: int)
  {
    r.available && r.id !in used && r.wagons <= maxWagonsPerRake
  }

  /**
   * Lines 152-161: the head of the eligible rakes after a stable sort by
   * descending wagon count, i.e. an eligible rake with the most wagons, the
   * first such in input order.
   */
  function BestRake(rakes: seq<Rake>, used: set<string>, maxWagonsPerRake: int): (r: Option<nat>)
    ensures r.Some? ==> r.value < |rakes| && RakeEligible(rakes[r.value], used, maxWagonsPerRake)
    ensures r.Some? ==> forall j | 0 <= j < |rakes| && RakeEligible(rakes[j], used, maxWagonsPerRake) ::
                          rakes[j].wagons <= rakes[r.value].wagons
    ensures r.Some? ==> forall j | 0 <= j < r.value && RakeEligible(rakes[j], used, maxWagonsPerRake) ::
                          rakes[j].wagons < rakes[r.value].wagons
    ensures r.None? <==> forall j | 0 <= j < |rakes| :: !RakeEligible(rakes[j], used, maxWagonsPerRake)
  {
    BestRakeAmong(rakes, used, maxWagonsPerRake, |rakes|)
  }

  /** BestRake restricted to the first `n` rakes. */
  function BestRakeAmong(rakes: seq<Rake>, used: set<string>, maxWagonsPerRake: int, n: nat): (r: Option<nat>)
    requires n <= |rakes|
    ensures r.Some? ==> r.value < n && RakeEligible(rakes[r.value], used, maxWagonsPerRake)
    ensures r.Some? ==> forall j | 0 <= j < n && RakeEligible(rakes[j], used, maxWagonsPerRake) ::
                          rakes[j].wagons <= rakes[r.value].wagons
    ensures r.Some? ==> forall j | 0 <= j < r.value && RakeEligible(rakes[j], used, maxWagonsPerRake) ::
                          rakes[j].wagons < rakes[r.value].wagons
    ensures r.None? <==> forall j | 0 <= j < n :: !RakeEligible(rakes[j], used, maxWagonsPerRake)
  {
    if n == 0 then None
    else
      var best := BestRakeAmong(rakes, used, maxWagonsPerRake, n - 1);
      if !RakeEligible(rakes[n - 1], used, maxWagonsPerRake) then best
      else if best.None? || rakes[best.value].wagons < rakes[n - 1].wagons then Some(n - 1)
      else best
  }

  // ------------------------------------------------------------ loading points

  /** Lines 166-167: the share of the capacity already assigned, as an exact percentage. */
  function CurrentUtilization(lp: LoadingPoint, usage: map<string, int>): (r: real)
    requires lp.capacity > 0
    ensures r * lp.capacity as real == 100.0 * GetOrZero(usage, lp.id) as real
    ensures GetOrZero(usage, lp.id) >= 0 ==> r >= 0.0
  {
    var u, c := GetOrZero(usage, lp.id) as real, lp.capacity as real;
    QuotientScaled(u, c, 100.0);
    RatioAgainstOne(u, c);
    (u / c) * 100.0
  }

  /** The filter at line 170: the loading point is below 90 % utilisation. */
  predicate LoadingPointOpen(lp: LoadingPoint, usage: map<string, int>)
    requires lp.capacity > 0
  {
    CurrentUtilization(lp, usage) < 90.0
  }

  predicate PositiveCapacities(lps: seq<LoadingPoint>)
  {
    forall lp | lp in lps :: lp.capacity > 0
  }

  /**
   * Lines 164-175: the head of the open loading points after a stable sort
   * by ascending current utilisation, i.e. an open loading point with the
   * least utilisation, the first such in input order.
   */
  function BestLoadingPoint(lps: seq<LoadingPoint>, usage: map<string, int>): (r: Option<nat>)
    requires PositiveCapacities(lps)
    ensures r.Some? ==> r.value < |lps| && LoadingPointOpen(lps[r.value], usage)
    ensures r.Some? ==> forall j | 0 <= j < |lps| && LoadingPointOpen(lps[j], usage) ::
                          CurrentUtilization(lps[r.value], usage) <= CurrentUtilization(lps[j], usage)
    ensures r.Some? ==> forall j | 0 <= j < r.value && LoadingPointOpen(lps[j], usage) ::
                          CurrentUtilization(lps[r.value], usage) < CurrentUtilization(lps[j], usage)
    ensures r.None? <==> forall j | 0 <= j < |lps| :: !LoadingPointOpen(lps[j], usage)
  {
    BestLoadingPointAmong(lps, usage, |lps|)
  }

  function BestLoadingPointAmong(lps: seq<LoadingPoint>, usage: map<string, int>, n: nat): (r: Option<nat>)
    requires PositiveCapacities(lps) && n <= |lps|
    ensures r.Some? ==> r.value < n && LoadingPointOpen(lps[r.value], usage)
    ensures r.Some? ==> forall j | 0 <= j < n && LoadingPointOpen(lps[j], usage) ::
                          CurrentUtilization(lps[r.value], usage) <= CurrentUtilization(lps[j], usage)
    ensures r.Some? ==> forall j | 0 <= j < r.value && LoadingPointOpen(lps[j], usage) ::
                          CurrentUtilization(lps[r.value], usage) < CurrentUtilization(lps[j], usage)
    ensures r.None? <==> forall j | 0 <= j < n :: !LoadingPointOpen(lps[j], usage)
  {
    if n == 0 then None
    else
      var best := BestLoadingPointAmong(lps, usage, n - 1);
      assert lps[n - 1] in lps;
      if !LoadingPointOpen(lps[n - 1], usage) then best
      else if best.None? || CurrentUtilization(lps[n - 1], usage) < CurrentUtilization(lps[best.value], usage)
      then Some(n - 1)
      else best
  }

  /** The open test restated over integers: 100 * usage < 90 * capacity. */
  lemma LoadingPointOpenIntegral(lp: LoadingPoint, usage: map<string, int>)
    requires lp.capacity > 0
    ensures LoadingPointOpen(lp, usage) <==> 100 * GetOrZero(usage, lp.id) < 90 * lp.capacity
  {
    var n, cap := GetOrZero(usage, lp.id), lp.capacity;
    var u, c := n as real, cap as real;
    var x := CurrentUtilization(lp, usage);
    assert x == (u / c) * 100.0;
    QuotientScaled(u, c, 100.0);
    BelowAfterScaling(x, u, c);
    assert (100 * n) as real == 100.0 * u && (90 * cap) as real == 90.0 * c;
  }

  /** If `x * c == 100 * u` for a positive `c`, then `x < 90` exactly when `100 * u < 90 * c`. */
  lemma BelowAfterScaling(x: real, u: real, c: real)
    requires c > 0.0 && x * c == 100.0 * u
    ensures x < 90.0 <==> 100.0 * u < 90.0 * c
  {
    ScaleLess(x, 90.0, c);
  }

  /** Multiplying `(u / c) * k` back by `c` gives `k * u`. */
  lemma QuotientScaled(u: real, c: real, k: real)
    requires c > 0.0
    ensures ((u / c) * k) * c == k * u
  {
    var q := u / c;
    assert q * c == u;
    calc {
      (q * k) * c;
      k * (q * c);
    }
  }

  lemma ScaleLess(a: real, b: real, c: real)
    requires c > 0.0
    ensures a < b <==> a * c < b * c
  {
    assert (b - a) * c == b * c - a * c;
    if a < b {
      assert (b - a) * c > 0.0;
    } else {
      assert (a - b) * c >= 0.0;
    }
  }

  // ------------------------------------------------------------- plan figures

  /** Line 179: the number of wagons of the maximum weight the order quantity needs, rounded up. */
  function WagonsNeeded(quantity: int, maxWagonWeight: int): (r: int)
    requires maxWagonWeight > 0
    ensures (r - 1) * maxWagonWeight < quantity <= r * maxWagonWeight
    ensures quantity >= 0 ==> r >= 0
  {
    CeilDiv(quantity, maxWagonWeight)
  }

  /** An order needs at least `w` wagons exactly when it is heavier than `w - 1` full wagons. */
  lemma NeedsAtLeast(quantity: int, maxWagonWeight: int, w: int)
    requires maxWagonWeight > 0
    ensures WagonsNeeded(quantity, maxWagonWeight) >= w <==> (w - 1) * maxWagonWeight < quantity
  {
    CeilThreshold(quantity, maxWagonWeight, WagonsNeeded(quantity, maxWagonWeight), w);
  }

  lemma CeilThreshold(q: int, m: int, n: int, w: int)
    requires m > 0 && (n - 1) * m < q <= n * m
    ensures n >= w <==> (w - 1) * m < q
  {
    if n >= w {
      MulMonotone(w - 1, n - 1, m);
    } else {
      MulMonotone(n, w - 1, m);
    }
  }

  lemma MulMonotone(a: int, b: int, m: int)
    requires m > 0 && a <= b
    ensures a * m <= b * m
  {
    assert b * m - a * m == (b - a) * m;
  }

  /** Lines 181 and 193: the wagons needed as a rounded percentage of the rake's wagons, capped at 100. */
  function PlanUtilization(wagonsNeeded: int, wagons: int): (r: int)
    requires wagons > 0
    ensures r <= 100
    ensures wagonsNeeded >= 0 ==> r >= 0
    ensures wagonsNeeded < wagons ==>
              r as real - 0.5 <= (wagonsNeeded as real / wagons as real) * 100.0 < r as real + 0.5
    ensures wagonsNeeded >= wagons ==> r == 100
  {
    var x := (wagonsNeeded as real / wagons as real) * 100.0;
    RatioAgainstOne(wagonsNeeded as real, wagons as real);
    Min(100, Round(x))
  }

  /** Where `n / w` lies against 0 and 1 for a positive `w`. */
  lemma RatioAgainstOne(n: real, w: real)
    requires w > 0.0
    ensures n >= 0.0 ==> n / w >= 0.0
    ensures n >= w ==> n / w >= 1.0
    ensures n < w ==> n / w < 1.0
  {
    var q := n / w;
    assert q * w == n;
    if n >= w && q < 1.0 {
      ScaleLess(q, 1.0, w);
    }
    if n < w && q >= 1.0 {
      ScaleLess(n / w, 1.0, w);
    }
  }

  /** Line 210: a loading point's final utilisation, the rounded percentage of its capacity in use. */
  function UsagePercent(usage: int, capacity: int): (r: int)
    requires capacity > 0
    ensures r as real - 0.5 <= (usage as real / capacity as real) * 100.0 < r as real + 0.5
    ensures usage >= 0 ==> r >= 0
  {
    Round((usage as real / capacity as real) * 100.0)
  }
}
