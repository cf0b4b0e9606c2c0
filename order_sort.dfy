/**
 * The order in which OptimizationEngine.optimize visits the orders
 * (src/lib/optimization-engine.ts:128-131): ascending priority, then
 * ascending deadline, and, since Array.prototype.sort is stable, input order
 * among orders that agree on both.
 */
module OrderSort {
  import opened EngineData

  /** The comparator of the source returns a value <= 0 for (a, b). */
  predicate ComesNoLater(a: Order, b: Order)
  {
    a.priority < b.priority || (a.priority == b.priority && a.deadline <= b.deadline)
  }

  predicate HasKey(o: Order, priority: int, deadline: int)
  {
    o.priority == priority && o.deadline == deadline
  }

  ghost predicate Sorted(s: seq<Order>)
  {
    forall i, j | 0 <= i < j < |s| :: ComesNoLater(s[i], s[j])
  }

  /** The orders of `s` with the given priority and deadline, in the order they appear. */
  function KeyFilter(s: seq<Order>, priority: int, deadline: int): (r: seq<Order>)
    ensures |r| <= |s|
  {
    if |s| == 0 then []
    else (if HasKey(s[0], priority, deadline) then [s[0]] else [])
         + KeyFilter(s[1..], priority, deadline)
  }

  /** Places `o` in front of the first element it may come before. */
  function Insert(o: Order, s: seq<Order>): (r: seq<Order>)
    ensures multiset(r) == multiset(s) + multiset{o}
  {
    if |s| == 0 then [o]
    else if ComesNoLater(o, s[0]) then [o] + s
    else
      assert s == [s[0]] + s[1..];
      [s[0]] + Insert(o, s[1..])
  }

  lemma {:induction false} InsertSorted(o: Order, s: seq<Order>)
    requires Sorted(s)
    ensures Sorted(Insert(o, s))
  {
    if |s| > 0 && !ComesNoLater(o, s[0]) {
      var rest := Insert(o, s[1..]);
      InsertSorted(o, s[1..]);
      forall x | x in rest ensures ComesNoLater(s[0], x) {
        assert x in multiset(rest);
        if x != o {
          assert x in multiset(s[1..]);
          assert x in s[1..];
        }
      }
    }
  }

  /** Lines 128-131: a stable sort of a copy of the orders by (priority, deadline). */
  function SortOrders(s: seq<Order>): (r: seq<Order>)
    ensures Sorted(r)
    ensures multiset(r) == multiset(s)
    ensures |r| == |s|
  {
    if |s| == 0 then []
    else
      assert s == [s[0]] + s[1..];
      InsertSorted(s[0], SortOrders(s[1..]));
      Insert(s[0], SortOrders(s[1..]))
  }

  lemma {:induction false} InsertKeyFilter(o: Order, s: seq<Order>, priority: int, deadline: int)
    ensures KeyFilter(Insert(o, s), priority, deadline)
         == (if HasKey(o, priority, deadline) then [o] else []) + KeyFilter(s, priority, deadline)
  {
    if |s| == 0 {
      KeyFilterCons(o, [], priority, deadline);
    } else if ComesNoLater(o, s[0]) {
      KeyFilterCons(o, s, priority, deadline);
    } else {
      InsertKeyFilter(o, s[1..], priority, deadline);
      KeyFilterCons(s[0], Insert(o, s[1..]), priority, deadline);
      // two orders with the same key never swap, so at most one of them carries it
      SwapAroundEmpty(if HasKey(s[0], priority, deadline) then [s[0]] else [],
                      if HasKey(o, priority, deadline) then [o] else [],
                      KeyFilter(s[1..], priority, deadline));
    }
  }

  lemma KeyFilterCons(x: Order, t: seq<Order>, priority: int, deadline: int)
    ensures KeyFilter([x] + t, priority, deadline)
         == (if HasKey(x, priority, deadline) then [x] else []) + KeyFilter(t, priority, deadline)
  {
    assert ([x] + t)[1..] == t;
  }

  lemma SwapAroundEmpty(a: seq<Order>, b: seq<Order>, t: seq<Order>)
    requires a == [] || b == []
    ensures a + (b + t) == b + (a + t)
  {
    if a == [] {
      assert a + (b + t) == b + t == b + (a + t);
    } else {
      assert a + (b + t) == a + t == b + (a + t);
    }
  }

  /**
   * Stability: for every key, the orders carrying that key appear in the
   * sorted sequence in the same relative order as in the input.
   */
  lemma {:induction false} SortOrdersIsStable(s: seq<Order>, priority: int, deadline: int)
    ensures KeyFilter(SortOrders(s), priority, deadline) == KeyFilter(s, priority, deadline)
  {
    if |s| > 0 {
      SortOrdersIsStable(s[1..], priority, deadline);
      InsertKeyFilter(s[0], SortOrders(s[1..]), priority, deadline);
    }
  }
}
