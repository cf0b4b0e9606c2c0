/**
 * What one run of OptimizationEngine.optimize guarantees
 * (src/lib/optimization-engine.ts:113-225), proved about the specification
 * `Run` of the loop and, through it, about `OptimizeSpec`, which the method
 * `Optimize` is proved to compute.
 *
 * The run keeps a ledger: each stockyard's remaining inventory is its
 * starting quantity less the tons of the rows drawn from it, each loading
 * point's usage is the tons of the rows loaded there, and the set of used
 * rakes is the set of rakes of the rows. From the ledger follow the
 * guarantees of the plan: no rake twice, no stockyard drawn below zero, each
 * order at most once and in the sorted order, and each row built from
 * records of the input that pass the engine's filters.
 */
module RakeEngineRun {
  import opened Wrappers
  import opened EngineData
  import opened OrderSort
  import opened EngineSelect
  import opened RakeEngine

  // ------------------------------------------------------------ the ledger

  /** Tons charged to stockyard `id` by the rows of `log`. */
  function Charged(log: seq<Allocation>, id: string): int
  {
    if |log| == 0 then 0
    else
      var a := log[|log| - 1];
      Charged(log[..|log| - 1], id) + (if a.plan.source == id then a.order.quantity else 0)
  }

  /** Tons loaded at loading point `id` by the rows of `log`. */
  function Loaded(log: seq<Allocation>, id: string): int
  {
    if |log| == 0 then 0
    else
      var a := log[|log| - 1];
      Loaded(log[..|log| - 1], id) + (if a.plan.loadPoint == id then a.order.quantity else 0)
  }

  /** The rakes of the rows of `log`. */
  function RakesOf(log: seq<Allocation>): (r: set<string>)
    ensures forall i | 0 <= i < |log| :: log[i].plan.rakeId in r
  {
    if |log| == 0 then {} else RakesOf(log[..|log| - 1]) + {log[|log| - 1].plan.rakeId}
  }

  /** The orders of the rows of `log`, in the order the rows were pushed. */
  function OrdersOf(log: seq<Allocation>): (r: seq<Order>)
    ensures |r| == |log| && forall i | 0 <= i < |log| :: r[i] == log[i].order
  {
    if |log| == 0 then [] else OrdersOf(log[..|log| - 1]) + [log[|log| - 1].order]
  }

  ghost predicate DistinctRakes(log: seq<Allocation>)
  {
    forall i, j | 0 <= i < j < |log| :: log[i].plan.rakeId != log[j].plan.rakeId
  }

  /**
   * A row the loop may push: a rail order, a stockyard of the input holding
   * the order's product, an available rake of the input within the length
   * limit, a loading point of the input, and the row built from them.
   */
  ghost predicate AllocationValid(data: InputData, a: Allocation)
  {
    && a.order.mode == Rail
    && a.yard in data.stockyards && a.yard.material == a.order.product
    && a.rake in data.rakes && a.rake.available && a.rake.wagons <= data.constraints.maxWagonsPerRake
    && a.lp in data.loadingPoints
    && data.constraints.maxWagonWeight > 0 && a.rake.wagons > 0
    && a.plan == MakePlan(a.order, a.yard, a.rake, a.lp, data.constraints.maxWagonWeight)
  }

  /** `a` is `b` with some elements left out, the rest kept in their order. */
  ghost predicate IsSubseq(a: seq<Order>, b: seq<Order>)
    decreases |b|
  {
    if |a| == 0 then true
    else if |b| == 0 then false
    else (a[|a| - 1] == b[|b| - 1] && IsSubseq(a[..|a| - 1], b[..|b| - 1])) || IsSubseq(a, b[..|b| - 1])
  }

  // ------------------------------------------------------------ small steps

  lemma LogExtend(log: seq<Allocation>, a: Allocation)
    ensures forall id :: Charged(log + [a], id) == Charged(log, id) + (if a.plan.source == id then a.order.quantity else 0)
    ensures forall id :: Loaded(log + [a], id) == Loaded(log, id) + (if a.plan.loadPoint == id then a.order.quantity else 0)
    ensures RakesOf(log + [a]) == RakesOf(log) + {a.plan.rakeId}
    ensures OrdersOf(log + [a]) == OrdersOf(log) + [a.order]
  {
    assert (log + [a])[..|log|] == log;
  }

  lemma DebitGet(m: map<string, int>, k: string, q: int)
    ensures forall id :: GetOrZero(Debit(m, k, q), id) == GetOrZero(m, id) - (if id == k then q else 0)
  {
  }

  lemma CreditGet(m: map<string, int>, k: string, q: int)
    ensures forall id :: GetOrZero(Credit(m, k, q), id) == GetOrZero(m, id) + (if id == k then q else 0)
  {
  }

  /**
   * Committing a choice (lines 183-204) draws the order's tons from the
   * chosen stockyard and adds them to the chosen loading point, leaving every
   * other entry as it was, marks the rake used, and appends exactly one row,
   * the one built from the order and the three choices.
   */
  lemma CommitEffect(st: EngineState, order: Order, yard: StockYard, rake: Rake, lp: LoadingPoint, maxWagonWeight: int)
    requires maxWagonWeight > 0 && rake.wagons > 0
    ensures var r := Commit(st, order, yard, rake, lp, maxWagonWeight);
      && (forall id :: GetOrZero(r.inventory, id) == GetOrZero(st.inventory, id) - (if id == yard.id then order.quantity else 0))
      && (forall id :: GetOrZero(r.loadingPointUsage, id)
                       == GetOrZero(st.loadingPointUsage, id) + (if id == lp.id then order.quantity else 0))
      && r.usedRakes == st.usedRakes + {rake.id}
      && r.log == st.log + [Allocation(order, yard, rake, lp, MakePlan(order, yard, rake, lp, maxWagonWeight))]
  {
    DebitGet(st.inventory, yard.id, order.quantity);
    CreditGet(st.loadingPointUsage, lp.id, order.quantity);
  }

  /** A stockyard that passes the filter at lines 144-147 is not drawn below zero by the order. */
  lemma SupplyKeepsStock(yard: StockYard, inventory: map<string, int>, order: Order)
    requires CanSupply(yard, inventory, order)
    ensures GetOrZero(Debit(inventory, yard.id, order.quantity), yard.id) >= 0
  {
    DebitGet(inventory, yard.id, order.quantity);
  }

  /** A rake that passes the filter at lines 152-156 fails it once its id is marked used (line 198). */
  lemma UsedRakeIneligible(rake: Rake, used: set<string>, maxWagonsPerRake: int)
    requires RakeEligible(rake, used, maxWagonsPerRake)
    ensures !RakeEligible(rake, used + {rake.id}, maxWagonsPerRake)
  {
  }

  /**
   * One iteration either leaves the state as it is, or commits the first
   * stockyard that can supply the order, an eligible rake and an open
   * loading point.
   */
  lemma StepOutcome(data: InputData, st: EngineState, order: Order) returns (taken: bool, y: nat, k: nat, l: nat)
    requires WellFormedInput(data)
    ensures !taken ==> Step(data, st, order) == st
    ensures taken ==>
      && order.mode == Rail
      && y < |data.stockyards| && CanSupply(data.stockyards[y], st.inventory, order)
      && k < |data.rakes| && RakeEligible(data.rakes[k], st.usedRakes, data.constraints.maxWagonsPerRake)
      && l < |data.loadingPoints| && data.loadingPoints[l].capacity > 0
      && LoadingPointOpen(data.loadingPoints[l], st.loadingPointUsage)
      && data.rakes[k].wagons > 0
      && Step(data, st, order)
         == Commit(st, order, data.stockyards[y], data.rakes[k], data.loadingPoints[l], data.constraints.maxWagonWeight)
  {
    var fy := FirstCompatibleStockyard(data.stockyards, st.inventory, order);
    var fk := BestRake(data.rakes, st.usedRakes, data.constraints.maxWagonsPerRake);
    var fl := BestLoadingPoint(data.loadingPoints, st.loadingPointUsage);
    if order.mode == Rail && fy.Some? && fk.Some? && fl.Some? {
      taken, y, k, l := true, fy.value, fk.value, fl.value;
      assert data.loadingPoints[l] in data.loadingPoints;
      StepTakes(data, st, order, y, k, l);
    } else {
      taken, y, k, l := false, 0, 0, 0;
      StepSkips(data, st, order);
    }
  }

  /**
   * A row is pushed for an order exactly when it is a rail order and some
   * stockyard can supply it, some rake is eligible and some loading point is
   * open; otherwise the state does not change at all.
   */
  lemma StepPushesIff(data: InputData, st: EngineState, order: Order)
    requires WellFormedInput(data)
    ensures |Step(data, st, order).log| == |st.log| + 1 <==>
      && order.mode == Rail
      && (exists j | 0 <= j < |data.stockyards| :: CanSupply(data.stockyards[j], st.inventory, order))
      && (exists j | 0 <= j < |data.rakes| :: RakeEligible(data.rakes[j], st.usedRakes, data.constraints.maxWagonsPerRake))
      && (exists j | 0 <= j < |data.loadingPoints| ::
            data.loadingPoints[j].capacity > 0 && LoadingPointOpen(data.loadingPoints[j], st.loadingPointUsage))
    ensures |Step(data, st, order).log| != |st.log| + 1 ==> Step(data, st, order) == st
  {
    var taken, y, k, l := StepOutcome(data, st, order);
    if !taken {
      var fl := BestLoadingPoint(data.loadingPoints, st.loadingPointUsage);
      if fl.None? {
        forall j | 0 <= j < |data.loadingPoints|
          ensures !(data.loadingPoints[j].capacity > 0 && LoadingPointOpen(data.loadingPoints[j], st.loadingPointUsage))
        {
          assert data.loadingPoints[j] in data.loadingPoints;
        }
      }
    }
  }

  // ------------------------------------------------------------ the run

  lemma {:induction false} InitialInventoryNonNegative(yards: seq<StockYard>)
    requires forall s | s in yards :: s.quantity >= 0
    ensures forall id :: GetOrZero(InitialInventory(yards), id) >= 0
  {
    if |yards| > 0 {
      var n := |yards| - 1;
      assert forall s | s in yards[..n] :: s in yards;
      InitialInventoryNonNegative(yards[..n]);
      assert yards[n] in yards;
      forall id ensures GetOrZero(InitialInventory(yards), id) >= 0 {
        assert GetOrZero(InitialInventory(yards[..n]), id) >= 0;
      }
    }
  }

  /**
   * The inventory map starts with each stockyard's quantity; when two
   * stockyards share an id, the later one's quantity is the one kept.
   */
  lemma {:induction false} InitialInventoryLastWins(yards: seq<StockYard>, i: nat)
    requires i < |yards| && forall j | i < j < |yards| :: yards[j].id != yards[i].id
    ensures yards[i].id in InitialInventory(yards) && InitialInventory(yards)[yards[i].id] == yards[i].quantity
  {
    var n := |yards| - 1;
    if i < n {
      InitialInventoryLastWins(yards[..n], i);
    }
  }

  lemma {:induction false} InitialUsageZero(lps: seq<LoadingPoint>)
    ensures forall id :: GetOrZero(InitialUsage(lps), id) == 0
  {
    if |lps| > 0 {
      InitialUsageZero(lps[..|lps| - 1]);
      forall id ensures GetOrZero(InitialUsage(lps), id) == 0 {
        assert GetOrZero(InitialUsage(lps[..|lps| - 1]), id) == 0;
      }
    }
  }

  /**
   * The ledger: a stockyard's inventory is its starting quantity less the
   * tons charged to it, and a loading point's usage is the tons loaded there.
   */
  lemma {:induction false} RunLedger(data: InputData, s: seq<Order>)
    requires WellFormedInput(data)
    ensures forall id :: GetOrZero(Run(data, s).inventory, id)
                      == GetOrZero(InitialInventory(data.stockyards), id) - Charged(Run(data, s).log, id)
    ensures forall id :: GetOrZero(Run(data, s).loadingPointUsage, id) == Loaded(Run(data, s).log, id)
  {
    if |s| == 0 {
      InitialUsageZero(data.loadingPoints);
    } else {
      var n := |s| - 1;
      var st := Run(data, s[..n]);
      RunLedger(data, s[..n]);
      var taken, y, k, l := StepOutcome(data, st, s[n]);
      if taken {
        var yard, rake, lp := data.stockyards[y], data.rakes[k], data.loadingPoints[l];
        var plan := MakePlan(s[n], yard, rake, lp, data.constraints.maxWagonWeight);
        LogExtend(st.log, Allocation(s[n], yard, rake, lp, plan));
        DebitGet(st.inventory, yard.id, s[n].quantity);
        CreditGet(st.loadingPointUsage, lp.id, s[n].quantity);
      }
    }
  }

  /** The used set is exactly the rakes of the rows, and no rake carries two rows. */
  lemma {:induction false} RunRakes(data: InputData, s: seq<Order>)
    requires WellFormedInput(data)
    ensures Run(data, s).usedRakes == RakesOf(Run(data, s).log)
    ensures DistinctRakes(Run(data, s).log)
  {
    if |s| > 0 {
      var n := |s| - 1;
      var st := Run(data, s[..n]);
      RunRakes(data, s[..n]);
      var taken, y, k, l := StepOutcome(data, st, s[n]);
      if taken {
        var yard, rake, lp := data.stockyards[y], data.rakes[k], data.loadingPoints[l];
        var plan := MakePlan(s[n], yard, rake, lp, data.constraints.maxWagonWeight);
        var a := Allocation(s[n], yard, rake, lp, plan);
        LogExtend(st.log, a);
        var log := st.log + [a];
        forall i, j | 0 <= i < j < |log| ensures log[i].plan.rakeId != log[j].plan.rakeId {
          if j == |st.log| {
            assert st.log[i].plan.rakeId in RakesOf(st.log);
          } else {
            assert log[i] == st.log[i] && log[j] == st.log[j];
          }
        }
      }
    }
  }

  /** Every row of the run is built from records of the input that pass the engine's filters. */
  lemma {:induction false} RunAllocationsValid(data: InputData, s: seq<Order>)
    requires WellFormedInput(data)
    ensures forall a | a in Run(data, s).log :: AllocationValid(data, a)
  {
    if |s| > 0 {
      var n := |s| - 1;
      var st := Run(data, s[..n]);
      RunAllocationsValid(data, s[..n]);
      var taken, y, k, l := StepOutcome(data, st, s[n]);
      if taken {
        var yard, rake, lp := data.stockyards[y], data.rakes[k], data.loadingPoints[l];
        var plan := MakePlan(s[n], yard, rake, lp, data.constraints.maxWagonWeight);
        var a := Allocation(s[n], yard, rake, lp, plan);
        assert AllocationValid(data, a);
        assert forall b | b in st.log + [a] :: b in st.log || b == a;
      }
    }
  }

  /**
   * No stockyard is drawn below zero: a stockyard is only chosen when its
   * remaining inventory covers the whole order, so every stockyard a row
   * draws from ends with a non-negative inventory.
   */
  lemma {:induction false} RunDrawnNonNegative(data: InputData, s: seq<Order>)
    requires WellFormedInput(data)
    ensures forall a | a in Run(data, s).log :: GetOrZero(Run(data, s).inventory, a.plan.source) >= 0
  {
    if |s| > 0 {
      var n := |s| - 1;
      var st := Run(data, s[..n]);
      RunDrawnNonNegative(data, s[..n]);
      var taken, y, k, l := StepOutcome(data, st, s[n]);
      if taken {
        var yard, rake, lp := data.stockyards[y], data.rakes[k], data.loadingPoints[l];
        var plan := MakePlan(s[n], yard, rake, lp, data.constraints.maxWagonWeight);
        var a := Allocation(s[n], yard, rake, lp, plan);
        DebitGet(st.inventory, yard.id, s[n].quantity);
        assert forall b | b in st.log + [a] :: b in st.log || b == a;
      }
    }
  }

  /** With non-negative starting quantities, no stockyard's inventory ever goes below zero. */
  lemma {:induction false} RunInventoryNonNegative(data: InputData, s: seq<Order>)
    requires WellFormedInput(data) && forall y | y in data.stockyards :: y.quantity >= 0
    ensures forall id :: GetOrZero(Run(data, s).inventory, id) >= 0
  {
    if |s| == 0 {
      InitialInventoryNonNegative(data.stockyards);
    } else {
      var n := |s| - 1;
      var st := Run(data, s[..n]);
      RunInventoryNonNegative(data, s[..n]);
      var taken, y, k, l := StepOutcome(data, st, s[n]);
      if taken {
        DebitGet(st.inventory, data.stockyards[y].id, s[n].quantity);
      }
    }
  }

  /** The orders of the rows are the processed orders with some left out, in the order processed. */
  lemma {:induction false} RunOrders(data: InputData, s: seq<Order>)
    requires WellFormedInput(data)
    ensures IsSubseq(OrdersOf(Run(data, s).log), s)
  {
    if |s| > 0 {
      var n := |s| - 1;
      var st := Run(data, s[..n]);
      RunOrders(data, s[..n]);
      var taken, y, k, l := StepOutcome(data, st, s[n]);
      var prior := OrdersOf(st.log);
      if taken {
        var yard, rake, lp := data.stockyards[y], data.rakes[k], data.loadingPoints[l];
        var plan := MakePlan(s[n], yard, rake, lp, data.constraints.maxWagonWeight);
        LogExtend(st.log, Allocation(s[n], yard, rake, lp, plan));
        assert (prior + [s[n]])[..|prior|] == prior;
      }
    }
  }

  // ------------------------------------------------------------ sub-sequences

  lemma {:induction false} SubseqMultiset(a: seq<Order>, b: seq<Order>)
    requires IsSubseq(a, b)
    ensures multiset(a) <= multiset(b)
    decreases |b|
  {
    if |a| > 0 {
      var m := |b| - 1;
      assert b == b[..m] + [b[m]];
      if a[|a| - 1] == b[m] && IsSubseq(a[..|a| - 1], b[..m]) {
        SubseqMultiset(a[..|a| - 1], b[..m]);
        assert a == a[..|a| - 1] + [a[|a| - 1]];
      } else {
        SubseqMultiset(a, b[..m]);
      }
    }
  }

  lemma {:induction false} SubseqLength(a: seq<Order>, b: seq<Order>)
    requires IsSubseq(a, b)
    ensures |a| <= |b|
    decreases |b|
  {
    if |a| > 0 {
      var m := |b| - 1;
      if a[|a| - 1] == b[m] && IsSubseq(a[..|a| - 1], b[..m]) {
        SubseqLength(a[..|a| - 1], b[..m]);
      } else {
        SubseqLength(a, b[..m]);
      }
    }
  }

  lemma {:induction false} SubseqSorted(a: seq<Order>, b: seq<Order>)
    requires IsSubseq(a, b) && Sorted(b)
    ensures Sorted(a)
    decreases |b|
  {
    if |a| > 0 {
      var m := |b| - 1;
      assert forall i, j | 0 <= i < j < m :: b[..m][i] == b[i] && b[..m][j] == b[j];
      if a[|a| - 1] == b[m] && IsSubseq(a[..|a| - 1], b[..m]) {
        var front := a[..|a| - 1];
        SubseqSorted(front, b[..m]);
        SubseqMultiset(front, b[..m]);
        forall i, j | 0 <= i < j < |a| ensures ComesNoLater(a[i], a[j]) {
          if j < |a| - 1 {
            assert a[i] == front[i] && a[j] == front[j];
          } else {
            assert a[i] == front[i] && front[i] in multiset(front);
            assert a[i] in b[..m];
          }
        }
      } else {
        SubseqSorted(a, b[..m]);
      }
    }
  }

  // ------------------------------------------------------------ the result

  /** The rows optimize returns are the rows of the run over the sorted orders. */
  lemma OptimizeIsRun(data: InputData)
    requires WellFormedInput(data)
    ensures var log := Run(data, SortOrders(data.orders)).log;
      && |OptimizeSpec(data).plan| == |log|
      && forall i | 0 <= i < |log| :: OptimizeSpec(data).plan[i] == log[i].plan
  {
  }

  /** At most one row per order: the orders of the rows are drawn, without repetition, from the input's orders. */
  lemma OptimizeOrdersOnce(data: InputData)
    requires WellFormedInput(data)
    ensures var log := Run(data, SortOrders(data.orders)).log;
      && multiset(OrdersOf(log)) <= multiset(data.orders)
      && |OptimizeSpec(data).plan| <= |data.orders|
  {
    var sorted := SortOrders(data.orders);
    var log := Run(data, sorted).log;
    RunOrders(data, sorted);
    SubseqMultiset(OrdersOf(log), sorted);
    SubseqLength(OrdersOf(log), sorted);
    OptimizeIsRun(data);
  }

  /** No rake appears in two rows. */
  lemma OptimizeRakesDistinct(data: InputData)
    requires WellFormedInput(data)
    ensures var r := OptimizeSpec(data);
      forall i, j | 0 <= i < j < |r.plan| :: r.plan[i].rakeId != r.plan[j].rakeId
  {
    RunRakes(data, SortOrders(data.orders));
    OptimizeIsRun(data);
  }

  /** Rows come out in the processing order: by ascending priority, and by deadline within a priority. */
  lemma OptimizeRowsInOrder(data: InputData)
    requires WellFormedInput(data)
    ensures var log := Run(data, SortOrders(data.orders)).log;
      forall i, j | 0 <= i < j < |log| :: ComesNoLater(log[i].order, log[j].order)
    ensures var r := OptimizeSpec(data);
      forall i, j | 0 <= i < j < |r.plan| :: r.plan[i].priority <= r.plan[j].priority
  {
    var sorted := SortOrders(data.orders);
    var log := Run(data, sorted).log;
    RunOrders(data, sorted);
    SubseqSorted(OrdersOf(log), sorted);
    RunAllocationsValid(data, sorted);
    OptimizeIsRun(data);
    forall i, j | 0 <= i < j < |log| ensures ComesNoLater(log[i].order, log[j].order) {
      assert OrdersOf(log)[i] == log[i].order && OrdersOf(log)[j] == log[j].order;
    }
    forall i, j | 0 <= i < j < |log| ensures log[i].plan.priority <= log[j].plan.priority {
      assert log[i] in log && log[j] in log;
    }
  }

  /** The allocation behind a returned row: a valid one, for an order of the input. */
  lemma RowAllocation(data: InputData, p: Plan) returns (a: Allocation)
    requires WellFormedInput(data) && p in OptimizeSpec(data).plan
    ensures a in Run(data, SortOrders(data.orders)).log
    ensures AllocationValid(data, a) && a.order in data.orders && p == a.plan
  {
    var sorted := SortOrders(data.orders);
    var log := Run(data, sorted).log;
    RunAllocationsValid(data, sorted);
    OptimizeOrdersOnce(data);
    OptimizeIsRun(data);
    var i :| 0 <= i < |log| && p == log[i].plan;
    a := log[i];
    assert OrdersOf(log)[i] == a.order;
    assert a.order in multiset(OrdersOf(log));
  }

  /** What a valid allocation says about its row, in terms of the row's own fields. */
  lemma AllocationRow(data: InputData, a: Allocation)
    requires AllocationValid(data, a) && a.order in data.orders
    ensures var p := a.plan;
      && p.mode == "Rail" && p.status == "Optimized"
      && p.wagonsUsed <= p.totalWagons <= data.constraints.maxWagonsPerRake && p.utilization <= 100
      && (exists o | o in data.orders ::
            o.id == p.orderId && o.customer == p.destination && o.priority == p.priority && o.mode == Rail)
      && (exists y | y in data.stockyards :: y.id == p.source)
      && (exists k | k in data.rakes :: k.id == p.rakeId && k.available && k.wagons == p.totalWagons)
      && (exists l | l in data.loadingPoints :: l.id == p.loadPoint)
  {
    assert a.order.id == a.plan.orderId && a.yard.id == a.plan.source;
    assert a.rake.id == a.plan.rakeId && a.lp.id == a.plan.loadPoint;
  }

  /**
   * Every row names an input order, a stockyard, an available rake within
   * the length limit and a loading point of the input, and carries wagon and
   * utilisation figures within the rake's size.
   */
  lemma OptimizeRowsValid(data: InputData)
    requires WellFormedInput(data)
    ensures forall p | p in OptimizeSpec(data).plan ::
      && p.mode == "Rail" && p.status == "Optimized"
      && p.wagonsUsed <= p.totalWagons <= data.constraints.maxWagonsPerRake && p.utilization <= 100
      && (exists o | o in data.orders ::
            o.id == p.orderId && o.customer == p.destination && o.priority == p.priority && o.mode == Rail)
      && (exists y | y in data.stockyards :: y.id == p.source)
      && (exists k | k in data.rakes :: k.id == p.rakeId && k.available && k.wagons == p.totalWagons)
      && (exists l | l in data.loadingPoints :: l.id == p.loadPoint)
  {
    forall p | p in OptimizeSpec(data).plan
      ensures && p.mode == "Rail" && p.status == "Optimized"
        && p.wagonsUsed <= p.totalWagons <= data.constraints.maxWagonsPerRake && p.utilization <= 100
        && (exists o | o in data.orders ::
              o.id == p.orderId && o.customer == p.destination && o.priority == p.priority && o.mode == Rail)
        && (exists y | y in data.stockyards :: y.id == p.source)
        && (exists k | k in data.rakes :: k.id == p.rakeId && k.available && k.wagons == p.totalWagons)
        && (exists l | l in data.loadingPoints :: l.id == p.loadPoint)
    {
      var a := RowAllocation(data, p);
      AllocationRow(data, a);
    }
  }

  /**
   * With non-negative quantities, every row's utilisation and the average
   * utilisation lie between 0 and 100, and no stockyard ends below zero.
   */
  lemma OptimizeFiguresBounded(data: InputData)
    requires WellFormedInput(data) && NonNegativeQuantities(data)
    ensures forall p | p in OptimizeSpec(data).plan :: 0 <= p.wagonsUsed && 0 <= p.utilization <= 100
    ensures 0.0 <= OptimizeSpec(data).utilization <= 100.0
    ensures forall id :: GetOrZero(Run(data, SortOrders(data.orders)).inventory, id) >= 0
  {
    RunInventoryNonNegative(data, SortOrders(data.orders));
    forall p | p in OptimizeSpec(data).plan ensures 0 <= p.wagonsUsed && 0 <= p.utilization <= 100 {
      var a := RowAllocation(data, p);
    }
  }

  /**
   * No stockyard a row draws from is charged more than it started with, and
   * each returned loading point's utilisation is the tonnage loaded there
   * as a rounded percentage of its capacity.
   */
  lemma OptimizeLedger(data: InputData)
    requires WellFormedInput(data)
    ensures var log := Run(data, SortOrders(data.orders)).log;
      forall a | a in log :: Charged(log, a.plan.source) <= GetOrZero(InitialInventory(data.stockyards), a.plan.source)
    ensures var log := Run(data, SortOrders(data.orders)).log;
      var lps := OptimizeSpec(data).loadingPoints;
      forall i | 0 <= i < |data.loadingPoints| ::
        && lps[i].id == data.loadingPoints[i].id
        && lps[i].utilization as real - 0.5
           <= (Loaded(log, data.loadingPoints[i].id) as real / data.loadingPoints[i].capacity as real) * 100.0
        && (Loaded(log, data.loadingPoints[i].id) as real / data.loadingPoints[i].capacity as real) * 100.0
           < lps[i].utilization as real + 0.5
  {
    var sorted := SortOrders(data.orders);
    RunLedger(data, sorted);
    RunDrawnNonNegative(data, sorted);
    assert forall i | 0 <= i < |data.loadingPoints| :: data.loadingPoints[i] in data.loadingPoints;
  }
}
