/**
 * OptimizationEngine.optimize (src/lib/optimization-engine.ts:113-225): a
 * single greedy pass over the orders, sorted by priority and deadline. Each
 * rail order for which a stockyard, a rake and a loading point can be found
 * yields one plan row; the run keeps three pieces of working state, the
 * remaining inventory per stockyard, the set of rakes already used and the
 * tonnage assigned to each loading point.
 *
 * `Step` and `Run` are the specification of one iteration and of a prefix of
 * the loop; the method `Optimize` is the loop itself and is proved equal to
 * the specification; the lemmas state what the run guarantees.
 */
module RakeEngine {
  import opened Wrappers
  import opened EngineData
  import opened OrderSort
  import opened EngineSelect

  /** One row of the returned plan. `mode` is always "Rail" and `status` always "Optimized". */
  datatype Plan = Plan(
    rakeId: string,
    orderId: string,
    source: string,
    destination: string,
    loadPoint: string,
    mode: string,
    priority: int,
    wagonsUsed: int,
    totalWagons: int,
    utilization: int,
    status: string)

  /**
   * One pushed row together with what it was made from: the order (the row
   * itself has no quantity) and the stockyard, rake and loading point chosen.
   */
  datatype Allocation = Allocation(order: Order, yard: StockYard, rake: Rake, lp: LoadingPoint, plan: Plan)

  /** The working state of the loop; `log` holds the rows pushed so far. */
  datatype EngineState = EngineState(
    inventory: map<string, int>,
    usedRakes: set<string>,
    loadingPointUsage: map<string, int>,
    log: seq<Allocation>)

  datatype OptimizationResult = OptimizationResult(
    plan: seq<Plan>,
    utilization: real,
    loadingPoints: seq<LoadingPoint>)

  // ------------------------------------------------------------ initial state

  /**
   * The stockyard inventory map built at line 135: each stockyard's id maps
   * to its quantity, a later stockyard with the same id winning.
   */
  function InitialInventory(yards: seq<StockYard>): (m: map<string, int>)
    ensures forall id :: id in m <==> exists i | 0 <= i < |yards| :: yards[i].id == id
  {
    if |yards| == 0 then map[]
    else
      var n := |yards| - 1;
      InitialInventory(yards[..n])[yards[n].id := yards[n].quantity]
  }

  /** The usage map built at line 136: every loading point's id maps to 0. */
  function InitialUsage(lps: seq<LoadingPoint>): (m: map<string, int>)
    ensures forall id :: id in m <==> exists i | 0 <= i < |lps| :: lps[i].id == id
    ensures forall id | id in m :: m[id] == 0
  {
    if |lps| == 0 then map[]
    else InitialUsage(lps[..|lps| - 1])[lps[|lps| - 1].id := 0]
  }

  function InitialState(data: InputData): EngineState
  {
    EngineState(InitialInventory(data.stockyards), {}, InitialUsage(data.loadingPoints), [])
  }

  // -------------------------------------------------------------- one order

  /** The row pushed for `order` (lines 178-195). */
  function MakePlan(order: Order, yard: StockYard, rake: Rake, lp: LoadingPoint, maxWagonWeight: int): (p: Plan)
    requires maxWagonWeight > 0 && rake.wagons > 0
    ensures p.rakeId == rake.id && p.orderId == order.id && p.source == yard.id
    ensures p.destination == order.customer && p.loadPoint == lp.id && p.priority == order.priority
    ensures p.mode == "Rail" && p.status == "Optimized"
    ensures p.wagonsUsed <= p.totalWagons == rake.wagons && p.utilization <= 100
    ensures order.quantity >= 0 ==> 0 <= p.wagonsUsed && 0 <= p.utilization
    ensures p.wagonsUsed < p.totalWagons ==>
              (p.wagonsUsed - 1) * maxWagonWeight < order.quantity <= p.wagonsUsed * maxWagonWeight
    ensures p.wagonsUsed < p.totalWagons ==>
              p.utilization as real - 0.5 <= (p.wagonsUsed as real / p.totalWagons as real) * 100.0
              < p.utilization as real + 0.5
    ensures p.wagonsUsed == p.totalWagons <==> (p.totalWagons - 1) * maxWagonWeight < order.quantity
    ensures p.wagonsUsed == p.totalWagons ==> p.utilization == 100
  {
    var wagonsNeeded := WagonsNeeded(order.quantity, maxWagonWeight);
    NeedsAtLeast(order.quantity, maxWagonWeight, rake.wagons);
    Plan(rake.id, order.id, yard.id, order.customer, lp.id, "Rail", order.priority,
         Min(wagonsNeeded, rake.wagons), rake.wagons, PlanUtilization(wagonsNeeded, rake.wagons), "Optimized")
  }

  /** One iteration of the loop at lines 139-205. */
  function Step(data: InputData, st: EngineState, order: Order): (r: EngineState)
    requires WellFormedInput(data)
    ensures order.mode == Road ==> r == st
    ensures r == st || (|r.log| == |st.log| + 1 && r.log[..|st.log|] == st.log && r.log[|st.log|].order == order)
  {
    if order.mode == Road then st
    else match FirstCompatibleStockyard(data.stockyards, st.inventory, order)
      case None => st
      case Some(y) =>
        match BestRake(data.rakes, st.usedRakes, data.constraints.maxWagonsPerRake)
        case None => st
        case Some(k) =>
          match BestLoadingPoint(data.loadingPoints, st.loadingPointUsage)
          case None => st
          case Some(l) =>
            assert data.rakes[k] in data.rakes;
            Commit(st, order, data.stockyards[y], data.rakes[k], data.loadingPoints[l], data.constraints.maxWagonWeight)
  }

  /** Lines 183-204: push the row, mark the rake used, charge the stockyard and the loading point. */
  function Commit(st: EngineState, order: Order, yard: StockYard, rake: Rake, lp: LoadingPoint, maxWagonWeight: int)
    : EngineState
    requires maxWagonWeight > 0 && rake.wagons > 0
  {
    EngineState(
      Debit(st.inventory, yard.id, order.quantity),
      st.usedRakes + {rake.id},
      Credit(st.loadingPointUsage, lp.id, order.quantity),
      st.log + [Allocation(order, yard, rake, lp, MakePlan(order, yard, rake, lp, maxWagonWeight))])
  }

  /** Lines 199-200: the entry for `k`, missing entries read as 0, goes down by `q`. */
  function Debit(m: map<string, int>, k: string, q: int): map<string, int>
  {
    m[k := GetOrZero(m, k) - q]
  }

  /** Lines 203-204: the entry for `k`, missing entries read as 0, goes up by `q`. */
  function Credit(m: map<string, int>, k: string, q: int): map<string, int>
  {
    m[k := GetOrZero(m, k) + q]
  }

  /** The state after the loop has visited the orders of `s`, in that order. */
  function Run(data: InputData, s: seq<Order>): (r: EngineState)
    requires WellFormedInput(data)
    ensures |r.log| <= |s|
  {
    if |s| == 0 then InitialState(data)
    else Step(data, Run(data, s[..|s| - 1]), s[|s| - 1])
  }

  // ------------------------------------------------------------ the result

  function PlansOf(log: seq<Allocation>): (r: seq<Plan>)
    ensures |r| == |log| && forall i | 0 <= i < |log| :: r[i] == log[i].plan
  {
    if |log| == 0 then [] else PlansOf(log[..|log| - 1]) + [log[|log| - 1].plan]
  }

  function SumUtilization(plans: seq<Plan>): (r: int)
    ensures (forall p | p in plans :: 0 <= p.utilization <= 100) ==> 0 <= r <= 100 * |plans|
  {
    if |plans| == 0 then 0
    else
      assert forall p | p in plans[..|plans| - 1] :: p in plans;
      SumUtilization(plans[..|plans| - 1]) + plans[|plans| - 1].utilization
  }

  /** Lines 217-218: the mean utilisation of the rows, or 0 without rows. */
  function AverageUtilization(plans: seq<Plan>): (r: real)
    ensures |plans| == 0 ==> r == 0.0
    ensures |plans| > 0 ==> r * |plans| as real == SumUtilization(plans) as real
    ensures (forall p | p in plans :: 0 <= p.utilization <= 100) ==> 0.0 <= r <= 100.0
  {
    if |plans| > 0 then
      var sum, n := SumUtilization(plans) as real, |plans| as real;
      MeanWithin(sum, n);
      assert sum / n * n == sum;
      sum / n
    else 0.0
  }

  lemma MeanWithin(sum: real, n: real)
    requires n > 0.0
    ensures 0.0 <= sum <= 100.0 * n ==> 0.0 <= sum / n <= 100.0
  {
    var q := sum / n;
    assert q * n == sum;
    if q > 100.0 {
      ScaleLess(100.0, q, n);
    }
    if q < 0.0 {
      ScaleLess(q, 0.0, n);
    }
  }

  /** The `finalLoadingPoints` map at lines 208-215. */
  function FinalLoadingPoints(lps: seq<LoadingPoint>, usage: map<string, int>): (r: seq<LoadingPoint>)
    requires PositiveCapacities(lps)
    ensures |r| == |lps|
    ensures forall i | 0 <= i < |lps| ::
      && r[i] == lps[i].(utilization := r[i].utilization)
      && r[i].utilization as real - 0.5 <= (GetOrZero(usage, lps[i].id) as real / lps[i].capacity as real) * 100.0
      && (GetOrZero(usage, lps[i].id) as real / lps[i].capacity as real) * 100.0 < r[i].utilization as real + 0.5
  {
    seq(|lps|, i requires 0 <= i < |lps| =>
      assert lps[i] in lps;
      lps[i].(utilization := UsagePercent(GetOrZero(usage, lps[i].id), lps[i].capacity)))
  }

  /** What optimize returns for `data`. */
  function OptimizeSpec(data: InputData): (r: OptimizationResult)
    requires WellFormedInput(data)
    ensures |r.plan| <= |data.orders| && |r.loadingPoints| == |data.loadingPoints|
  {
    var st := Run(data, SortOrders(data.orders));
    var plans := PlansOf(st.log);
    OptimizationResult(plans, AverageUtilization(plans), FinalLoadingPoints(data.loadingPoints, st.loadingPointUsage))
  }

  // ------------------------------------------------------------ the method

  /** The loop of lines 127-224: visit the sorted orders once, keeping the working state in three locals. */
  method Optimize(data: InputData) returns (result: OptimizationResult)
    requires WellFormedInput(data)
    ensures result == OptimizeSpec(data)
  {
    var sortedOrders := SortOrders(data.orders);
    var plans: seq<Plan> := [];
    var usedRakes: set<string> := {};
    var stockyardInventory := InitialInventory(data.stockyards);
    var loadingPointUsage := InitialUsage(data.loadingPoints);
    ghost var log: seq<Allocation> := [];

    for i := 0 to |sortedOrders|
      invariant EngineState(stockyardInventory, usedRakes, loadingPointUsage, log) == Run(data, sortedOrders[..i])
      invariant plans == PlansOf(log)
    {
      RunExtend(data, sortedOrders, i);
      var chosen;
      chosen, stockyardInventory, usedRakes, loadingPointUsage :=
        PlanOrder(data, sortedOrders[i], stockyardInventory, usedRakes, loadingPointUsage, log);
      if chosen.Some? {
        PlansOfExtend(log, chosen.value);
        plans := plans + [chosen.value.plan];
        log := log + [chosen.value];
      }
    }
    assert sortedOrders[..|sortedOrders|] == sortedOrders;

    var finalLoadingPoints := FinalLoadingPoints(data.loadingPoints, loadingPointUsage);
    result := OptimizationResult(plans, AverageUtilization(plans), finalLoadingPoints);
  }

  /**
   * The body of the loop (lines 141-204) for one order: skip it, or choose a
   * stockyard, a rake and a loading point, build the row and charge all three.
   */
  method PlanOrder(data: InputData, order: Order, inventory: map<string, int>, usedRakes: set<string>,
                   usage: map<string, int>, ghost log: seq<Allocation>)
    returns (chosen: Option<Allocation>, inventory': map<string, int>, usedRakes': set<string>,
             usage': map<string, int>)
    requires WellFormedInput(data)
    ensures Step(data, EngineState(inventory, usedRakes, usage, log), order)
         == EngineState(inventory', usedRakes', usage', if chosen.Some? then log + [chosen.value] else log)
  {
    ghost var before := EngineState(inventory, usedRakes, usage, log);
    chosen, inventory', usedRakes', usage' := None, inventory, usedRakes, usage;
    if order.mode == Road {
      return;
    }
    var compatible := FirstCompatibleStockyard(data.stockyards, inventory, order);
    if compatible.None? {
      return;
    }
    var available := BestRake(data.rakes, usedRakes, data.constraints.maxWagonsPerRake);
    if available.None? {
      return;
    }
    var open := BestLoadingPoint(data.loadingPoints, usage);
    if open.None? {
      return;
    }
    var selectedStockyard := data.stockyards[compatible.value];
    var selectedRake := data.rakes[available.value];
    var selectedLoadingPoint := data.loadingPoints[open.value];
    assert selectedRake in data.rakes;
    StepTakes(data, before, order, compatible.value, available.value, open.value);
    var plan := MakePlan(order, selectedStockyard, selectedRake, selectedLoadingPoint, data.constraints.maxWagonWeight);
    chosen := Some(Allocation(order, selectedStockyard, selectedRake, selectedLoadingPoint, plan));
    usedRakes' := usedRakes + {selectedRake.id};
    inventory' := Debit(inventory, selectedStockyard.id, order.quantity);
    usage' := Credit(usage, selectedLoadingPoint.id, order.quantity);
  }

  lemma RunExtend(data: InputData, s: seq<Order>, i: nat)
    requires WellFormedInput(data) && i < |s|
    ensures Run(data, s[..i + 1]) == Step(data, Run(data, s[..i]), s[i])
  {
    assert s[..i + 1][..i] == s[..i];
  }

  lemma PlansOfExtend(log: seq<Allocation>, a: Allocation)
    ensures PlansOf(log + [a]) == PlansOf(log) + [a.plan]
  {
    assert (log + [a])[..|log|] == log;
  }

  lemma StepTakes(data: InputData, st: EngineState, order: Order, y: nat, k: nat, l: nat)
    requires WellFormedInput(data) && order.mode == Rail
    requires FirstCompatibleStockyard(data.stockyards, st.inventory, order) == Some(y)
    requires BestRake(data.rakes, st.usedRakes, data.constraints.maxWagonsPerRake) == Some(k)
    requires BestLoadingPoint(data.loadingPoints, st.loadingPointUsage) == Some(l)
    ensures data.rakes[k] in data.rakes
    ensures Step(data, st, order)
         == Commit(st, order, data.stockyards[y], data.rakes[k], data.loadingPoints[l], data.constraints.maxWagonWeight)
  {
  }

  lemma StepSkips(data: InputData, st: EngineState, order: Order)
    requires WellFormedInput(data)
    requires || order.mode == Road
             || FirstCompatibleStockyard(data.stockyards, st.inventory, order).None?
             || BestRake(data.rakes, st.usedRakes, data.constraints.maxWagonsPerRake).None?
             || BestLoadingPoint(data.loadingPoints, st.loadingPointUsage).None?
    ensures Step(data, st, order) == st
  {
  }
}
