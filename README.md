# Rake formation core: a Dafny model

This project models the decision logic of the SAIL rake-formation dashboard. It covers three parts:

- **The rake-allocation engine**, `OptimizationEngine.optimize` in `src/lib/optimization-engine.ts`. It sorts the orders by priority and then by deadline. For each rail order it picks three things:
  - the first stockyard that holds the product and can cover the whole quantity;
  - the unused, available rake with the most wagons within the length limit;
  - the least-utilised loading point below 90 %.

  It then emits one plan row and updates three pieces of working state: the stockyard inventory, the set of used rakes and the loading-point usage. At the end it computes each loading point's utilisation and the mean utilisation of the rows.
- **The order scoring**, `calculateFinalScore` and its helpers in `src/lib/mlEngine.ts`. The score is a weighted sum of five terms:
  - an on-time probability, taken from a prediction table, or from a clamped heuristic when the order is not in the table;
  - a priority tier;
  - a normalised quantity;
  - a rake-suitability term;
  - a mode term.
- **The Indian number formatting** in `src/lib/indian-formatter.ts`. It picks a tier (crore, lakh, thousand or plain) by threshold. It renders the amount with `toFixed`, strips the trailing zeros matched by `/\.?0+$/` and appends the suffix. The currency variant adds a rupee sign in front.

The project is split into these files:

| file | module | contents |
|---|---|---|
| `wrappers.dfy` | `Wrappers` | `Option` |
| `engine_data.dfy` | `EngineData` | the engine's records (lines 5-49) and the demo data set |
| `order_sort.dfy` | `OrderSort` | the stable sort of the orders |
| `engine_select.dfy` | `EngineSelect` | the per-order choices and the wagon and utilisation arithmetic |
| `engine.dfy` | `RakeEngine` | `Step` and `Run`, which specify one iteration and a prefix of the loop; the method `Optimize`, whose `for` loop keeps the three pieces of working state in locals and is proved equal to `Run` |
| `engine_run.dfy` | `RakeEngineRun` | what a run guarantees: the inventory and usage ledger, distinct rakes, non-negative stock, at most one row per order, rows in processing order, and rows built from valid records |
| `order_scoring.dfy` | `OrderScoring` | `mlEngine.ts` |
| `indian_format.dfy` | `IndianFormat` | `indian-formatter.ts` |

Numbers in the engine are modelled as integers: tons, wagons and capacities. A deadline is a day number. Percentages are exact `real`s, `Math.ceil(q / m)` is `(q + m - 1) / m`, and `Math.round(x)` is `floor(x + 1/2)`. The scoring is over exact reals.

The engine emits at most one row per order, each row for a single order. Road orders, and rail orders for which no stockyard, rake or loading point qualifies, get no row. A row takes the destination from `order.customer` (optimization-engine.ts:187) and loads the whole order onto one rake. It does not group orders by destination, and it does not fill wagons one at a time.

## Model

| member | source | states |
|---|---|---|
| EngineData.DefaultData | src/lib/optimization-engine.ts:52-109 | the demo data set has positive divisors, non-negative quantities, twelve orders and the limits 43 wagons per rake and 64 tons per wagon |
| OrderSort.SortOrders | src/lib/optimization-engine.ts:128-131 | the processing order is sorted by ascending priority, then ascending deadline, and is a permutation of the input orders |
| OrderSort.SortOrdersIsStable | src/lib/optimization-engine.ts:128-131 | orders with the same priority and deadline keep their input order (Array.prototype.sort is stable) |
| OrderSort.InsertKeyFilter | src/lib/optimization-engine.ts:128-131 | among the orders with a given key, an inserted order carrying that key comes first and the others keep their relative order |
| EngineSelect.CeilDiv | src/lib/optimization-engine.ts:179 | the result is the least integer r with q <= r * m |
| EngineSelect.Round | src/lib/optimization-engine.ts:181 | Math.round: the result lies within half a unit of x, halves rounded up |
| EngineSelect.FirstCompatibleStockyard | src/lib/optimization-engine.ts:144-149 | the chosen stockyard holds the product and covers the whole quantity; no earlier stockyard does; there is none exactly when no stockyard qualifies |
| EngineSelect.BestRake | src/lib/optimization-engine.ts:152-161 | the chosen rake is available, unused and within the length limit; no eligible rake has more wagons; no earlier one has as many; there is none exactly when no rake is eligible |
| EngineSelect.BestLoadingPoint | src/lib/optimization-engine.ts:164-175 | the chosen loading point is below 90 %; none open has a lower utilisation; no earlier one has an equal one; there is none exactly when none is below 90 % |
| EngineSelect.CurrentUtilization | src/lib/optimization-engine.ts:166-167 | the current utilisation is the exact percentage of the capacity in use: times the capacity it gives 100 times the usage, and it is non-negative for non-negative usage |
| EngineSelect.LoadingPointOpenIntegral | src/lib/optimization-engine.ts:166-170 | LoadingPointOpen, the below-90 % filter on the current utilisation, holds exactly when 100 * usage < 90 * capacity |
| EngineSelect.WagonsNeeded | src/lib/optimization-engine.ts:178-179 | the fewest wagons of the given weight that hold the quantity |
| EngineSelect.PlanUtilization | src/lib/optimization-engine.ts:181-193 | at most 100; exactly 100 when the order needs the whole rake or more; otherwise the rounded percentage of the rake's wagons needed |
| EngineSelect.UsagePercent | src/lib/optimization-engine.ts:209-210 | the rounded percentage of the capacity in use, non-negative for non-negative usage |
| RakeEngine.MakePlan | src/lib/optimization-engine.ts:177-195 | the row names the rake, order, stockyard, customer and loading point, with mode "Rail" and status "Optimized"; the wagons used do not exceed the rake's wagons, and fill the rake exactly when the order is heavier than one wagon fewer; below the rake size they are exactly the wagons needed and the utilisation is their rounded percentage; a full rake shows 100 |
| RakeEngine.AverageUtilization | src/lib/optimization-engine.ts:217-218 | 0 without rows; otherwise the mean, i.e. mean times count equals the sum, and within [0, 100] when every row is |
| RakeEngine.FinalLoadingPoints | src/lib/optimization-engine.ts:207-215 | each returned loading point is the input record with its utilisation replaced by the rounded percentage of its usage |
| RakeEngine.Optimize | src/lib/optimization-engine.ts:113-225 | the loop computes exactly OptimizeSpec: the rows, mean and loading points of the specified run over the sorted orders |
| RakeEngine.PlanOrder | src/lib/optimization-engine.ts:139-205 | one iteration of the loop body moves the working state exactly as Step does, and pushes a row exactly when Step logs one |
| RakeEngine.InitialInventory | src/lib/optimization-engine.ts:135 | the starting inventory has an entry exactly for the ids of the stockyards |
| RakeEngine.InitialUsage | src/lib/optimization-engine.ts:136 | the starting usage has an entry exactly for the ids of the loading points, each 0 |
| RakeEngine.Step | src/lib/optimization-engine.ts:139-205 | one iteration leaves a road order's state unchanged, and otherwise either changes nothing or appends exactly one row, for this order, keeping the earlier rows |
| RakeEngine.Run | src/lib/optimization-engine.ts:139-205 | after visiting a sequence of orders the loop has pushed at most one row per visited order |
| RakeEngine.OptimizeSpec | src/lib/optimization-engine.ts:113-225 | optimize returns at most as many rows as there are orders, and one loading point record per input loading point |
| RakeEngineRun.CommitEffect | src/lib/optimization-engine.ts:183-204 | committing (RakeEngine.Commit) draws the order's tons from the chosen stockyard and adds them to the chosen loading point, every other entry unchanged, marks the rake used and appends exactly the row built from the choices |
| RakeEngineRun.SupplyKeepsStock | src/lib/optimization-engine.ts:144-147 | a stockyard passing the filter (EngineSelect.CanSupply) is not drawn below zero by the order |
| RakeEngineRun.UsedRakeIneligible | src/lib/optimization-engine.ts:152-156 | a rake passing the filter (EngineSelect.RakeEligible) fails it once its id is marked used |
| RakeEngine.StepTakes | src/lib/optimization-engine.ts:141-204 | when all three choices exist for a rail order, the iteration commits exactly those choices |
| RakeEngine.StepSkips | src/lib/optimization-engine.ts:141-173 | a road order, or a missing choice, leaves the state untouched |
| RakeEngineRun.StepOutcome | src/lib/optimization-engine.ts:139-205 | an iteration either changes nothing, or commits a stockyard that can supply, an eligible rake and an open loading point |
| RakeEngineRun.StepPushesIff | src/lib/optimization-engine.ts:141-177 | a row is pushed exactly when the order is by rail and some stockyard, some rake and some loading point qualify; otherwise nothing changes |
| RakeEngineRun.InitialInventoryLastWins | src/lib/optimization-engine.ts:135 | the inventory map starts with each stockyard's quantity, the later one winning for a repeated id |
| RakeEngineRun.InitialInventoryNonNegative | src/lib/optimization-engine.ts:135 | non-negative stockyard quantities give a non-negative starting inventory for every id |
| RakeEngineRun.InitialUsageZero | src/lib/optimization-engine.ts:136 | every loading point starts with usage 0 |
| RakeEngineRun.RunLedger | src/lib/optimization-engine.ts:135-204 | inventory equals the starting quantity less the tons of the rows drawn from that stockyard; usage equals the tons of the rows loaded at that point |
| RakeEngineRun.RunRakes | src/lib/optimization-engine.ts:134-198 | the used set equals the set of the rows' rakes, and no two rows share a rake |
| RakeEngineRun.RunAllocationsValid | src/lib/optimization-engine.ts:139-195 | every row comes from a rail order, a stockyard of the input with the product, an available rake of the input within the limit and a loading point of the input, and is the row built from them |
| RakeEngineRun.RunDrawnNonNegative | src/lib/optimization-engine.ts:144-200 | every stockyard a row draws from ends with a non-negative inventory |
| RakeEngineRun.RunInventoryNonNegative | src/lib/optimization-engine.ts:135-200 | with non-negative starting quantities, no inventory ever goes below zero |
| RakeEngineRun.RunOrders | src/lib/optimization-engine.ts:139-205 | the rows' orders are the processed orders with some left out, in processing order |
| RakeEngineRun.OptimizeIsRun | src/lib/optimization-engine.ts:133-224 | the returned rows are the rows of the run over the sorted orders |
| RakeEngineRun.OptimizeOrdersOnce | src/lib/optimization-engine.ts:128-205 | the rows' orders form a sub-multiset of the input orders, so there are at most as many rows as orders |
| RakeEngineRun.OptimizeRakesDistinct | src/lib/optimization-engine.ts:152-198 | no rake id appears in two returned rows |
| RakeEngineRun.OptimizeRowsInOrder | src/lib/optimization-engine.ts:128-183 | rows come out by ascending priority, then ascending deadline |
| RakeEngineRun.OptimizeRowsValid | src/lib/optimization-engine.ts:143-195 | every row names an input rail order, stockyard, available rake of its own size and loading point; it is "Rail" and "Optimized", its wagons used are at most its wagons, which are at most the limit, and its utilisation is at most 100 |
| RakeEngineRun.OptimizeFiguresBounded | src/lib/optimization-engine.ts:178-218 | with non-negative quantities, every row's wagons used and utilisation are non-negative, every utilisation and the mean lie in [0, 100], and no stockyard ends below zero |
| RakeEngineRun.OptimizeLedger | src/lib/optimization-engine.ts:199-215 | no stockyard a row draws from is charged more tons than it started with; each returned loading point's utilisation is the rounded percentage of the tons loaded there |
| OrderScoring.PredictionTable | src/lib/mlEngine.ts:5-6 | every entry of the table holds the probability of some record with that id |
| OrderScoring.PredictionTableKeys | src/lib/mlEngine.ts:5-6 | an order id has a prediction exactly when some record carries it |
| OrderScoring.PredictionTableLastWins | src/lib/mlEngine.ts:5-6 | a repeated id keeps the probability of its last record |
| OrderScoring.GetOnTimeProb | src/lib/mlEngine.ts:29-32 | the stored probability when the id is present, none (null) exactly when it is absent |
| OrderScoring.PriorityToScore | src/lib/mlEngine.ts:9-13 | 1.0 exactly for priority 1, 0.6 exactly for priority 2, 0.3 for every other priority |
| OrderScoring.PriorityScoreMonotone | src/lib/mlEngine.ts:9-13 | among priorities 1, 2, 3, ..., a more urgent one never scores lower |
| OrderScoring.QuantityNorm | src/lib/mlEngine.ts:16-19 | at most 1; exactly 1 from 3000 tons on; otherwise quantity / 3000; non-negative for non-negative quantities |
| OrderScoring.QuantityNormMonotone | src/lib/mlEngine.ts:16-19 | a larger quantity never normalises lower |
| OrderScoring.DaysToDeadline | src/lib/mlEngine.ts:22-27 | 30 without a deadline, NaN for an unparsable one, otherwise the days to the deadline rounded to the nearest integer |
| OrderScoring.PastDueIff | src/lib/mlEngine.ts:25-26 | the days are negative exactly when the deadline passed more than half a day ago |
| OrderScoring.FallbackOnTime | src/lib/mlEngine.ts:50-58 | the heuristic lies in [0.05, 0.95] |
| OrderScoring.FallbackUnclamped | src/lib/mlEngine.ts:50-58 | the clamp never takes effect: the heuristic is 0.6 plus a quarter of the priority score above 0.3, less 0.5 when past due |
| OrderScoring.FallbackPastDueLower | src/lib/mlEngine.ts:56 | at equal priority a past-due order is exactly 0.5 below one that is not past due |
| OrderScoring.FallbackPriorityMonotone | src/lib/mlEngine.ts:55 | a higher priority score never lowers the heuristic |
| OrderScoring.WeightsSumToOne | src/lib/mlEngine.ts:69 | the five weights are positive and sum to 1 |
| OrderScoring.WeightedScore | src/lib/mlEngine.ts:71-76 | with every term in [0, 1] the weighted sum lies in [0, 1] |
| OrderScoring.ModeScore | src/lib/mlEngine.ts:65 | 1.0 exactly for rail, 0.7 for road or no mode |
| OrderScoring.CalculateFinalScore | src/lib/mlEngine.ts:38-87 | a stored prediction, 0 included, is used whenever present, and the heuristic only when the id is absent; the delay is 1 minus the on-time probability; the priority score, normalised quantity and mode score are those of the order, rake suitability equals the normalised quantity, and the final score is the weighted sum of the five terms; the final score lies in [0, 1] for an on-time probability in [0, 1] and a non-negative quantity |
| OrderScoring.FinalScoreBounded | src/lib/mlEngine.ts:60-76 | with every stored probability in [0, 1] and a non-negative quantity, the final score and the delay probability lie in [0, 1] |
| OrderScoring.FinalScoreMonotoneInOnTime | src/lib/mlEngine.ts:60-76 | a higher stored probability raises the final score by 0.35 per unit, never lowering it |
| OrderScoring.FinalScoreMonotoneInPriority | src/lib/mlEngine.ts:51-76 | a priority with a higher score never lowers the final score, whether the probability is stored or estimated |
| IndianFormat.TrailingZeros | src/lib/indian-formatter.ts:5 | the length of the maximal run of '0' at the end of the text |
| IndianFormat.StripTrailingZeros | src/lib/indian-formatter.ts:5-11 | the replace removes the leftmost match of `\.?0+$`: the result is a prefix, the removed tail matches the pattern, and no earlier position does |
| IndianFormat.StripFixed | src/lib/indian-formatter.ts:5-11 | on fixed notation the integer part is kept, and the result ends neither in '.' nor, when a fraction remains, in '0' |
| IndianFormat.StripExamples | src/lib/indian-formatter.ts:5-11 | "12.50" becomes "12.5", "10.00" becomes "10", "2.5" is unchanged |
| IndianFormat.TierOf | src/lib/indian-formatter.ts:3-14 | inclusive thresholds: crore from 10,000,000, lakh from 100,000, thousand from 1,000, plain below (negative amounts included) |
| IndianFormat.FormatIndianCurrency | src/lib/indian-formatter.ts:17-30 | the currency text is the rupee sign followed by the number text, for every amount |
| IndianFormat.FormatIndianNumber | src/lib/indian-formatter.ts:2-15 | the number text is the tier's compact form: the amount divided by the tier's unit, fixed to its digits, zeros stripped, suffix appended; below 1,000 it is formatIndianNumberFull |
| IndianFormat.FullBelowThousand | src/lib/indian-formatter.ts:12-34 | below 1,000 the number text is formatIndianNumberFull and the currency text is the rupee sign followed by it |
| IndianFormat.CompactShape | src/lib/indian-formatter.ts:3-11 | above the plain tier, on fixed-notation `toFixed` output, the shown figure keeps the integer part, ends in a non-zero fractional digit or no '.', and is followed by the tier's suffix |

## Left out

- Floating point: all arithmetic is exact. Float rounding in `/`, `* 100`, `toFixed` and in the scoring weights is not modelled.
- `Number.prototype.toFixed` and `toLocaleString('en-IN')` are not defined. They are the two functions of a `Renderer` passed to the formatters. Grouping digits in the Indian style, and the exponent notation `toFixed` uses from 1e21 on, are therefore not modelled.
- `JSON.parse(JSON.stringify(...))` copies and `console.log` in `optimize` are left out. Dafny values cannot be mutated, so the caller's input is untouched by construction.
- `new Date(...)` and `Date.now()` are left out:
  - engine deadlines are day numbers, and the sort compares them directly;
  - scoring deadlines are a `Deadline` value (missing, unparsable, or an instant in milliseconds) plus a `nowMs` parameter.
- Order deadlines in the engine that do not parse are not modelled. In the source they make the comparator return NaN.
- RakeEngine.Optimize: requires a positive per-wagon weight, positive rake sizes and positive loading-point capacities. The source divides by all three. With a zero it produces Infinity or NaN figures; a zero-capacity loading point, for instance, would be filtered out as NaN. Those outcomes are not modelled.
- The JSON import of `src/lib/data/ml_predictions.json` is left out. `PredictionTable` models the `forEach` that fills the map from a sequence of records, and the scoring takes the table as a parameter.
- OrderScoring.PriorityToScore: takes an integer priority. The source also accepts `undefined` and fractional numbers, which fall into the 0.3 branch like any priority other than 1 or 2. `calculateFinalScore` always passes a number.
- Quantities are integers in the scoring as in the engine. Fractional stockyard quantities and loading-point capacities are not modelled, although the application's entry dialogs accept them in steps of 0.1. With fractions, the ceiling of the wagon count and the 90 % test would be taken over non-integral tons.
- `costPerTon` is carried in the stockyard records but unused, as in the source. The unused import of `formatIndianNumber` in the engine is not modelled.
- React components, Supabase hooks and the Python training and serving scripts are not part of this model.
