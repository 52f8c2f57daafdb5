/**
 * The static descriptor tables of the integration: SENSOR_TYPES for the
 * plant-level sensors and PV_TYPES for the per-microinverter sensors.
 * Only the columns that drive behaviour are modelled: the scale divisor,
 * the zero-total persistence policy and, for PV_TYPES, the record slot.
 */
module Descriptors {
  import opened Wrappers

  /** Keys of SENSOR_TYPES. */
  datatype PlantMetric = PvPower | TodayProduction | TotalProduction | AlarmFlag

  /** Keys of PV_TYPES. */
  datatype PvMetric =
    | PvVoltage | PvCurrent | GridVoltage | GridFrequency | PvPower
    | TodayProduction | TotalProduction | Temperature
    | OperatingStatus | AlarmCode | AlarmCount | LinkStatus

  /**
   * The last column of both tables: what a read does when the plant total
   * reads zero. 0 = set the value to zero, 1 = keep the previous value,
   * 2 = set it to zero only during the midnight hour.
   */
  datatype Policy = Zero | Keep | ZeroAtMidnight

  /** SENSOR_TYPES[t][5]: the divisor applied to the raw plant field. */
  function Divisor(m: PlantMetric): (d: real)
    ensures d > 0.0
  {
    match m
    case AlarmFlag => 1.0
    case _ => 1000.0
  }

  /** SENSOR_TYPES[t][6]. */
  function PolicyOf(m: PlantMetric): (p: Policy)
    ensures p != Zero <==> m == PlantMetric.TodayProduction || m == PlantMetric.TotalProduction
    ensures p == Keep <==> m == PlantMetric.TotalProduction
  {
    match m
    case PvPower => Zero
    case TodayProduction => ZeroAtMidnight
    case TotalProduction => Keep
    case AlarmFlag => Zero
  }

  /** PV_TYPES[t][0]: the slot of the microinverter record holding the metric. */
  function Slot(m: PvMetric): (k: int)
    ensures 3 <= k <= 14
  {
    match m
    case PvVoltage => 3
    case PvCurrent => 4
    case GridVoltage => 5
    case GridFrequency => 6
    case PvPower => 7
    case TodayProduction => 8
    case TotalProduction => 9
    case Temperature => 10
    case OperatingStatus => 11
    case AlarmCode => 12
    case AlarmCount => 13
    case LinkStatus => 14
  }

  /** PV_TYPES[t][6]: the divisor applied to the raw slot value. */
  function PvDivisor(m: PvMetric): (d: real)
    ensures d > 0.0
  {
    match m
    case TodayProduction => 1000.0
    case TotalProduction => 1000.0
    case _ => 1.0
  }

  /** PV_TYPES[t][7]. */
  function PvPolicy(m: PvMetric): (p: Policy)
    ensures p != Zero <==> m == PvMetric.TodayProduction || m == PvMetric.TotalProduction
    ensures p == Keep <==> m == PvMetric.TotalProduction
  {
    match m
    case TodayProduction => ZeroAtMidnight
    case TotalProduction => Keep
    case _ => Zero
  }

  /**
   * The plant sensors that fall back to summing their per-panel counters
   * when the plant total reads zero, with the PV_TYPES row under the same
   * key whose slot and divisor the sum uses.
   */
  function PanelCounterpart(m: PlantMetric): (r: Option<PvMetric>)
    ensures r.Some? <==> m == PlantMetric.TodayProduction || m == PlantMetric.TotalProduction
    ensures r.Some? ==> PvDivisor(r.value) == Divisor(m) && PvPolicy(r.value) == PolicyOf(m)
  {
    match m
    case TodayProduction => Some(PvMetric.TodayProduction)
    case TotalProduction => Some(PvMetric.TotalProduction)
    case _ => None
  }

  /** Every PV metric reads its own slot of the record. */
  lemma SlotInjective(a: PvMetric, b: PvMetric)
    ensures Slot(a) == Slot(b) <==> a == b
  {
  }
}
