/**
 * The order scoring of src/lib/mlEngine.ts: a weighted sum of an on-time
 * probability, a priority tier, a normalised quantity, a rake-suitability
 * term and a transport-mode term. The on-time probability comes from a
 * table of predictions keyed by order id, or, when the order is not in the
 * table, from a heuristic over the priority and the days left until the
 * deadline.
 *
 * JavaScript numbers are modelled as exact reals. The prediction table and
 * the current time are parameters.
 */
module OrderScoring {
  import opened Wrappers
  import opened EngineData

  // ------------------------------------------------------------ predictions

  /** One record of the prediction file. */
  datatype Prediction = Prediction(orderId: string, onTimeProbability: real)

  /** The module-level map filled by `forEach` (lines 5-6): a later record overwrites an earlier one. */
  function PredictionTable(preds: seq<Prediction>): (m: map<string, real>)
    ensures forall id | id in m :: exists i | 0 <= i < |preds| ::
              preds[i].orderId == id && m[id] == preds[i].onTimeProbability
  {
    if |preds| == 0 then map[]
    else
      var p := preds[|preds| - 1];
      PredictionTable(preds[..|preds| - 1])[p.orderId := p.onTimeProbability]
  }

  /** An id has an entry exactly when some record carries it. */
  lemma {:induction false} PredictionTableKeys(preds: seq<Prediction>, id: string)
    ensures id in PredictionTable(preds) <==> exists i | 0 <= i < |preds| :: preds[i].orderId == id
  {
    if |preds| > 0 {
      var n := |preds| - 1;
      PredictionTableKeys(preds[..n], id);
      if exists i | 0 <= i < n :: preds[..n][i].orderId == id {
        var i :| 0 <= i < n && preds[..n][i].orderId == id;
        assert preds[i].orderId == id;
      }
      if exists i | 0 <= i < |preds| :: preds[i].orderId == id {
        var i :| 0 <= i < |preds| && preds[i].orderId == id;
        if i < n {
          assert preds[..n][i].orderId == id;
        }
      }
    }
  }

  /** The entry for an id is the probability of the last record that carries it. */
  lemma {:induction false} PredictionTableLastWins(preds: seq<Prediction>, i: nat)
    requires i < |preds| && forall j | i < j < |preds| :: preds[j].orderId != preds[i].orderId
    ensures preds[i].orderId in PredictionTable(preds)
    ensures PredictionTable(preds)[preds[i].orderId] == preds[i].onTimeProbability
  {
    var n := |preds| - 1;
    if i < n {
      PredictionTableLastWins(preds[..n], i);
    }
  }

  /** `getOnTimeProb` (lines 29-32): the stored probability, or nothing (`null`) for an unknown id. */
  function GetOnTimeProb(table: map<string, real>, orderId: string): (r: Option<real>)
    ensures r.Some? <==> orderId in table
    ensures r.Some? ==> r.value == table[orderId]
  {
    if orderId in table then Some(table[orderId]) else None
  }

  // ------------------------------------------------------------ the terms

  /** `priorityToScore` (lines 9-13): priority 1 is the top tier. */
  function PriorityToScore(priority: int): (r: real)
    ensures r == 1.0 <==> priority == 1
    ensures r == 0.6 <==> priority == 2
    ensures r == 0.3 <==> priority != 1 && priority != 2
  {
    if priority == 1 then 1.0
    else if priority == 2 then 0.6
    else 0.3
  }

  /** Among the priorities 1, 2, 3, ..., a more urgent priority never scores lower. */
  lemma PriorityScoreMonotone(a: int, b: int)
    requires 1 <= a <= b
    ensures PriorityToScore(b) <= PriorityToScore(a)
  {
  }

  const MaxQuantity: real := 3000.0

  /** `quantityNorm` (lines 16-19): min(1, quantity / 3000). */
  function QuantityNorm(quantity: int): (r: real)
    ensures r <= 1.0
    ensures r == 1.0 <==> quantity as real >= MaxQuantity
    ensures quantity >= 0 ==> 0.0 <= r
    ensures r < 1.0 ==> r * MaxQuantity == quantity as real
  {
    var x := quantity as real / MaxQuantity;
    if 1.0 <= x then 1.0 else x
  }

  lemma QuantityNormMonotone(a: int, b: int)
    requires a <= b
    ensures QuantityNorm(a) <= QuantityNorm(b)
  {
  }

  /**
   * What `new Date(deadline)` makes of the optional deadline string: absent
   * (undefined or the empty string, both falsy), a string that does not
   * parse, or an instant in milliseconds since 1970.
   */
  datatype Deadline = Missing | Unparsable | At(ms: int)

  const MsPerDay: int := 1000 * 60 * 60 * 24

  /**
   * `daysToDeadline` (lines 22-27) with `Date.now()` passed as `nowMs`.
   * `None` stands for NaN, which an unparsable date yields.
   */
  function DaysToDeadline(deadline: Deadline, nowMs: int): (r: Option<int>)
    ensures deadline == Missing ==> r == Some(30)
    ensures deadline == Unparsable ==> r == None
    ensures deadline.At? ==> r.Some?
    ensures deadline.At? ==>
              && r.value as real - 0.5 <= (deadline.ms - nowMs) as real / MsPerDay as real
              && (deadline.ms - nowMs) as real / MsPerDay as real < r.value as real + 0.5
  {
    match deadline
    case Missing => Some(30)
    case Unparsable => None
    case At(ms) =>
      var diff := ms - nowMs;
      var days := (2 * diff + MsPerDay) / (2 * MsPerDay);
      assert 2 * MsPerDay * days <= 2 * diff + MsPerDay < 2 * MsPerDay * days + 2 * MsPerDay;
      DayBounds(diff, days);
      Some(days)
  }

  /** Math.round(diff / MsPerDay) == days, from the integer bounds. */
  lemma DayBounds(diff: int, days: int)
    requires 2 * MsPerDay * days <= 2 * diff + MsPerDay < 2 * MsPerDay * days + 2 * MsPerDay
    ensures days as real - 0.5 <= diff as real / MsPerDay as real < days as real + 0.5
  {
    var d := MsPerDay as real;
    var x := diff as real / d;
    assert x * d == diff as real;
    assert (days as real - 0.5) * d <= diff as real < (days as real + 0.5) * d;
  }

  /** An order is past due (negative days) exactly when its deadline is more than half a day ago. */
  lemma PastDueIff(ms: int, nowMs: int)
    ensures DaysToDeadline(At(ms), nowMs).value < 0 <==> 2 * (ms - nowMs) < -MsPerDay
  {
  }

  /**
   * The heuristic of lines 50-58: 0.6 lifted by a quarter of the priority
   * score above 0.3, lowered by 0.5 when past due, clamped to [0.05, 0.95].
   * NaN days are not below 0.
   */
  function FallbackOnTime(priority: int, days: Option<int>): (r: real)
    ensures 0.05 <= r <= 0.95
  {
    var p := PriorityToScore(priority);
    var base := 0.6 + (p - 0.3) * 0.25;
    var base := if days.Some? && days.value < 0 then base - 0.5 else base;
    if base < 0.05 then 0.05 else if 0.95 < base then 0.95 else base
  }

  /**
   * The clamp never takes effect: the heuristic is 0.6 plus a quarter of the
   * priority score above 0.3, less 0.5 when past due.
   */
  lemma FallbackUnclamped(priority: int, days: Option<int>)
    ensures FallbackOnTime(priority, days)
         == 0.6 + (PriorityToScore(priority) - 0.3) * 0.25 - (if days.Some? && days.value < 0 then 0.5 else 0.0)
  {
  }

  /** For the same priority, a past-due order is exactly 0.5 less likely on time than one that is not. */
  lemma FallbackPastDueLower(priority: int, late: int, days: Option<int>)
    requires late < 0 && (days.None? || days.value >= 0)
    ensures FallbackOnTime(priority, Some(late)) == FallbackOnTime(priority, days) - 0.5
  {
    FallbackUnclamped(priority, Some(late));
    FallbackUnclamped(priority, days);
  }

  /** A higher priority score never lowers the heuristic. */
  lemma FallbackPriorityMonotone(a: int, b: int, days: Option<int>)
    requires PriorityToScore(a) <= PriorityToScore(b)
    ensures FallbackOnTime(a, days) <= FallbackOnTime(b, days)
  {
    FallbackUnclamped(a, days);
    FallbackUnclamped(b, days);
  }

  // ------------------------------------------------------------ the score

  /** The argument of `calculateFinalScore`; `mode` and `deadline` are optional there. */
  datatype ScoredOrder = ScoredOrder(
    id: string,
    quantity: int,
    priority: int,
    deadline: Deadline,
    mode: Option<Mode>,
    product: Option<string>)

  /** The object `calculateFinalScore` returns. */
  datatype ScoreBreakdown = ScoreBreakdown(
    onTimeProb: real,
    delayProb: real,
    priorityScore: real,
    quantityNorm: real,
    rakeSuitability: real,
    modeScore: real,
    finalScore: real)

  const W1: real := 0.35
  const W2: real := 0.30
  const W3: real := 0.20
  const W4: real := 0.10
  const W5: real := 0.05

  lemma WeightsSumToOne()
    ensures W1 + W2 + W3 + W4 + W5 == 1.0
    ensures 0.0 < W1 && 0.0 < W2 && 0.0 < W3 && 0.0 < W4 && 0.0 < W5
  {
  }

  /** Lines 71-76. */
  function WeightedScore(onTime: real, priorityScore: real, rakeSuitability: real, quantityNorm: real, modeScore: real)
    : (r: real)
    ensures (&& 0.0 <= onTime <= 1.0 && 0.0 <= priorityScore <= 1.0 && 0.0 <= rakeSuitability <= 1.0
             && 0.0 <= quantityNorm <= 1.0 && 0.0 <= modeScore <= 1.0)
            ==> 0.0 <= r <= 1.0
  {
    W1 * onTime + W2 * priorityScore + W3 * rakeSuitability + W4 * quantityNorm + W5 * modeScore
  }

  /** `modeScore` (line 65): 1.0 for rail, 0.7 for road or no mode. */
  function ModeScore(mode: Option<Mode>): (r: real)
    ensures r == 1.0 <==> mode == Some(Rail)
    ensures r == 0.7 <==> mode != Some(Rail)
  {
    if mode == Some(Rail) then 1.0 else 0.7
  }

  /** `calculateFinalScore` (lines 38-87), with the prediction table and `Date.now()` as parameters. */
  function CalculateFinalScore(table: map<string, real>, order: ScoredOrder, nowMs: int): (b: ScoreBreakdown)
    ensures order.id in table ==> b.onTimeProb == table[order.id]
    ensures order.id !in table ==>
              b.onTimeProb == FallbackOnTime(order.priority, DaysToDeadline(order.deadline, nowMs))
    ensures b.delayProb == 1.0 - b.onTimeProb
    ensures b.priorityScore == PriorityToScore(order.priority)
    ensures b.quantityNorm == QuantityNorm(order.quantity) && b.rakeSuitability == b.quantityNorm
    ensures b.modeScore == ModeScore(order.mode)
    ensures b.finalScore == WeightedScore(b.onTimeProb, b.priorityScore, b.rakeSuitability, b.quantityNorm, b.modeScore)
    ensures 0.0 <= b.onTimeProb <= 1.0 && order.quantity >= 0 ==> 0.0 <= b.finalScore <= 1.0
  {
    var ml := GetOnTimeProb(table, order.id);
    var fallback := FallbackOnTime(order.priority, DaysToDeadline(order.deadline, nowMs));
    var onTime := if ml.Some? then ml.value else fallback;
    var qnorm := QuantityNorm(order.quantity);
    var pscore := PriorityToScore(order.priority);
    var modeScore := ModeScore(order.mode);
    var rakeSuitability := qnorm;
    ScoreBreakdown(onTime, 1.0 - onTime, pscore, qnorm, rakeSuitability, modeScore,
                   WeightedScore(onTime, pscore, rakeSuitability, qnorm, modeScore))
  }

  /** With every stored probability in [0, 1] and a non-negative quantity, the final score lies in [0, 1]. */
  lemma FinalScoreBounded(table: map<string, real>, order: ScoredOrder, nowMs: int)
    requires forall id | id in table :: 0.0 <= table[id] <= 1.0
    requires order.quantity >= 0
    ensures 0.0 <= CalculateFinalScore(table, order, nowMs).finalScore <= 1.0
    ensures 0.0 <= CalculateFinalScore(table, order, nowMs).delayProb <= 1.0
  {
  }

  /** A higher stored on-time probability never lowers the final score; it raises it by 0.35 per unit. */
  lemma FinalScoreMonotoneInOnTime(t1: map<string, real>, t2: map<string, real>, order: ScoredOrder, nowMs: int)
    requires order.id in t1 && order.id in t2 && t1[order.id] <= t2[order.id]
    ensures CalculateFinalScore(t1, order, nowMs).finalScore <= CalculateFinalScore(t2, order, nowMs).finalScore
    ensures CalculateFinalScore(t2, order, nowMs).finalScore - CalculateFinalScore(t1, order, nowMs).finalScore
         == W1 * (t2[order.id] - t1[order.id])
  {
  }

  /**
   * Giving an order a priority with a higher priority score never lowers its
   * final score, whether its on-time probability is stored or estimated.
   */
  lemma FinalScoreMonotoneInPriority(table: map<string, real>, order: ScoredOrder, priority: int, nowMs: int)
    requires PriorityToScore(order.priority) <= PriorityToScore(priority)
    ensures CalculateFinalScore(table, order, nowMs).finalScore
         <= CalculateFinalScore(table, order.(priority := priority), nowMs).finalScore
  {
    FallbackPriorityMonotone(order.priority, priority, DaysToDeadline(order.deadline, nowMs));
  }
}
