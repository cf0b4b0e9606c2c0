/**
 * The records the rake-allocation engine reads and writes
 * (src/lib/optimization-engine.ts, interfaces StockYard, Order, Rake,
 * LoadingPoint, Constraints and InputData), and the demo data set that
 * MockDataService.getDefaultData returns.
 *
 * Tons, wagon counts and capacities are modelled as integers; fractional
 * stockyard quantities and loading-point capacities are not modelled. A
 * deadline is modelled as the number of days since 1970-01-01 (the engine
 * only ever compares two deadlines).
 */
module EngineData {

  datatype Mode = Rail | Road

  datatype StockYard = StockYard(
    id: string,
    material: string,
    quantity: int,
    costPerTon: int,
    location: string)

  datatype Order = Order(
    id: string,
    customer: string,
    quantity: int,
    priority: int,
    deadline: int,
    mode: Mode,
    product: string)

  /** `rakeType` is the interface's `type` field (a reserved word in Dafny). */
  datatype Rake = Rake(
    id: string,
    wagons: int,
    rakeType: string,
    available: bool,
    location: string)

  datatype LoadingPoint = LoadingPoint(
    id: string,
    capacity: int,
    utilization: int,
    location: string)

  datatype Constraints = Constraints(maxWagonsPerRake: int, maxWagonWeight: int)

  datatype InputData = InputData(
    stockyards: seq<StockYard>,
    orders: seq<Order>,
    rakes: seq<Rake>,
    loadingPoints: seq<LoadingPoint>,
    constraints: Constraints)

  /**
   * What the engine divides by must be positive: the per-wagon weight
   * (wagons needed), every rake's wagon count (plan utilisation) and every
   * loading point's capacity (loading-point utilisation).
   */
  predicate WellFormedInput(data: InputData)
  {
    && data.constraints.maxWagonWeight > 0
    && (forall r | r in data.rakes :: r.wagons > 0)
    && (forall lp | lp in data.loadingPoints :: lp.capacity > 0)
  }

  /** Every order and every stockyard holds a non-negative quantity. */
  predicate NonNegativeQuantities(data: InputData)
  {
    && (forall o | o in data.orders :: o.quantity >= 0)
    && (forall s | s in data.stockyards :: s.quantity >= 0)
  }

  /** The demo data set: ten stockyards, twelve orders, twelve rakes, eight loading points. */
  function DefaultData(): (data: InputData)
    ensures WellFormedInput(data) && NonNegativeQuantities(data)
    ensures |data.orders| == 12 && data.constraints == Constraints(43, 64)
  {
    InputData(DefaultStockyards(), DefaultOrders(), DefaultRakes(), DefaultLoadingPoints(), Constraints(43, 64))
  }

  function DefaultStockyards(): (s: seq<StockYard>)
    ensures |s| == 10 && forall y | y in s :: y.quantity >= 0
  {
    [ StockYard("BSP-SY1", "Steel Coils", 12500, 1750, "BSP Plant 1"),
      StockYard("BSP-SY2", "Steel Plates", 9200, 1850, "BSP Plant 2"),
      StockYard("BSP-SY3", "TMT Bars", 11800, 1600, "BSP Plant 3"),
      StockYard("BSP-SY4", "Wire Rods", 7500, 1900, "BSP Plant 4"),
      StockYard("BSP-SY5", "Steel Billets", 14200, 1650, "BSP Plant 5"),
      StockYard("RSP-SY1", "Steel Coils", 8900, 1800, "RSP Plant 1"),
      StockYard("RSP-SY2", "Steel Plates", 6800, 1950, "RSP Plant 2"),
      StockYard("BSL-SY1", "TMT Bars", 13500, 1550, "BSL Plant 1"),
      StockYard("BSL-SY2", "Steel Billets", 16700, 1700, "BSL Plant 2"),
      StockYard("DSP-SY1", "Wire Rods", 5200, 2000, "DSP Plant 1") ]
  }

  function DefaultOrders(): (s: seq<Order>)
    ensures |s| == 12 && forall o | o in s :: o.quantity >= 0
  {
    [ Order("ORD-001", "CMO Delhi", 75, 1, 20358, Rail, "Steel Coils"),
      Order("ORD-002", "CMO Mumbai", 95, 2, 20359, Rail, "Steel Plates"),
      Order("ORD-003", "Tata Steel", 65, 1, 20357, Rail, "TMT Bars"),
      Order("ORD-004", "JSW Steel", 55, 3, 20360, Road, "Wire Rods"),
      Order("ORD-005", "CMO Kolkata", 90, 2, 20359, Rail, "Steel Billets"),
      Order("ORD-006", "Jindal Steel", 85, 1, 20358, Rail, "Steel Coils"),
      Order("ORD-007", "CMO Chennai", 80, 2, 20360, Rail, "Steel Plates"),
      Order("ORD-008", "Mahindra Steel", 70, 1, 20357, Rail, "TMT Bars"),
      Order("ORD-009", "CMO Hyderabad", 100, 2, 20361, Rail, "Steel Billets"),
      Order("ORD-010", "Reliance Industries", 95, 1, 20359, Rail, "Steel Coils"),
      Order("ORD-011", "L&T Construction", 50, 3, 20362, Road, "Wire Rods"),
      Order("ORD-012", "CMO Pune", 85, 2, 20360, Rail, "Steel Plates") ]
  }

  function DefaultRakes(): (s: seq<Rake>)
    ensures |s| == 12 && forall r | r in s :: r.wagons > 0
  {
    [ Rake("RAKE-001", 4, "BOXN", true, "BSP Yard 1"),
      Rake("RAKE-002", 5, "BCN", true, "BSP Yard 1"),
      Rake("RAKE-003", 4, "BOXN", true, "BSP Yard 2"),
      Rake("RAKE-004", 3, "BCNHL", true, "BSP Yard 2"),
      Rake("RAKE-005", 5, "BOXN", true, "BSP Yard 3"),
      Rake("RAKE-006", 4, "BCN", true, "BSP Yard 3"),
      Rake("RAKE-007", 3, "BOXN", true, "RSP Yard 1"),
      Rake("RAKE-008", 5, "BCN", true, "RSP Yard 1"),
      Rake("RAKE-009", 4, "BOXN", true, "BSL Yard 1"),
      Rake("RAKE-010", 3, "BCNHL", true, "BSL Yard 1"),
      Rake("RAKE-011", 5, "BOXN", true, "BSL Yard 2"),
      Rake("RAKE-012", 4, "BCN", true, "DSP Yard 1") ]
  }

  function DefaultLoadingPoints(): (s: seq<LoadingPoint>)
    ensures |s| == 8 && forall lp | lp in s :: lp.capacity > 0
  {
    [ LoadingPoint("LP-001", 500, 65, "BSP Loading Bay 1"),
      LoadingPoint("LP-002", 400, 45, "BSP Loading Bay 2"),
      LoadingPoint("LP-003", 600, 70, "BSP Loading Bay 3"),
      LoadingPoint("LP-004", 350, 30, "BSP Loading Bay 4"),
      LoadingPoint("LP-005", 450, 55, "RSP Loading Bay 1"),
      LoadingPoint("LP-006", 550, 40, "RSP Loading Bay 2"),
      LoadingPoint("LP-007", 650, 75, "BSL Loading Bay 1"),
      LoadingPoint("LP-008", 400, 35, "DSP Loading Bay 1") ]
  }
}
