/**
 * The plant snapshot fetched from the DTU, and the updater object that
 * holds the last fetch result for every sensor.
 */
module Snapshots {
  import opened Wrappers
  import opened Descriptors

  /** One microinverter record; slots 3..14 are its numeric fields. */
  datatype Micro = Micro(
    pvVoltage: real, pvCurrent: real, gridVoltage: real, gridFrequency: real,
    pvPower: real, todayProduction: real, totalProduction: real, temperature: real,
    operatingStatus: real, alarmCode: real, alarmCount: real, linkStatus: real)
  {
    /** Indexing a record by slot number, `record[slot]`. */
    function At(slot: int): (r: real)
      requires 3 <= slot <= 14
    {
      if slot == 3 then pvVoltage
      else if slot == 4 then pvCurrent
      else if slot == 5 then gridVoltage
      else if slot == 6 then gridFrequency
      else if slot == 7 then pvPower
      else if slot == 8 then todayProduction
      else if slot == 9 then totalProduction
      else if slot == 10 then temperature
      else if slot == 11 then operatingStatus
      else if slot == 12 then alarmCode
      else if slot == 13 then alarmCount
      else linkStatus
    }
  }

  /** The plant data: the plant-level fields and the microinverter records. */
  datatype Snapshot = Snapshot(
    pvPower: real, todayProduction: real, totalProduction: real, alarmFlag: real,
    micros: seq<Micro>)
  {
    /** The attribute of the plant data named by a SENSOR_TYPES key. */
    function Field(m: PlantMetric): (r: real)
    {
      match m
      case PvPower => pvPower
      case TodayProduction => todayProduction
      case TotalProduction => totalProduction
      case AlarmFlag => alarmFlag
    }
  }

  /** What one attempt to fetch the plant data produced. */
  datatype FetchOutcome = Ok(snapshot: Snapshot) | Err

  /** The shared cell every sensor reads: the last fetch result, or None. */
  class Updater {
    var data: Option<Snapshot>

    constructor ()
      ensures data == None
    {
      data := None;
    }

    /** One (unthrottled) refresh: keep the fetched snapshot, or None on any failure. */
    method Update(fetch: FetchOutcome)
      modifies this
      ensures fetch.Ok? ==> data == Some(fetch.snapshot)
      ensures fetch.Err? ==> data == None
    {
      match fetch
      case Ok(s) => data := Some(s);
      case Err => data := None;
    }
  }
}
