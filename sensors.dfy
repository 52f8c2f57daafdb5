/**
 * The plant-level and per-panel sensor entities. Each read takes the
 * updater's current data and the local hour and updates the sensor's
 * fields step by step; each read is proved equal to the corresponding
 * function of the Correction module.
 */
module Sensors {
  import opened Wrappers
  import opened Descriptors
  import opened Snapshots
  import opened Correction

  /**
   * The summation loop over panels 1..panels of the fallback; None when a
   * panel has no record, where the source raises IndexError.
   */
  method SumPanels(micros: seq<Micro>, m: PvMetric, panels: nat) returns (total: Option<real>)
    ensures total == if panels <= |micros| then Some(PanelSum(micros, m, panels)) else None
  {
    var i := 1;
    var sum := 0.0;
    while i <= panels
      invariant 1 <= i <= panels + 1
      invariant i - 1 <= |micros|
      invariant sum == PanelSum(micros, m, i - 1)
    {
      if i - 1 >= |micros| {
        return None;
      }
      sum := sum + micros[i - 1].At(Slot(m)) / PvDivisor(m);
      i := i + 1;
    }
    return Some(sum);
  }

  /** A plant-level sensor (one SENSOR_TYPES key). */
  class PlantSensor {
    const metric: PlantMetric
    const panels: nat
    const updater: Updater
    var state: Option<real>
    var stateOld: real

    ghost predicate Valid()
      reads this
    {
      Invariant(metric, Cell(state, stateOld))
    }

    constructor (metric: PlantMetric, panels: nat, updater: Updater)
      ensures Valid()
      ensures this.metric == metric && this.panels == panels && this.updater == updater
      ensures state == None && stateOld == 0.0
    {
      this.metric := metric;
      this.panels := panels;
      this.updater := updater;
      state := None;
      stateOld := 0.0;
    }

    /** The `state` property: one read of the sensor. */
    method Read(hour: Hour) returns (r: Outcome)
      requires Valid()
      modifies this
      ensures Valid()
      ensures Step(Cell(state, stateOld), r)
           == PlantRead(metric, panels, old(Cell(state, stateOld)), updater.data, hour)
    {
      var data := updater.data;
      if data.Some? && data.value.totalProduction > 0.0 {
        state := Some(data.value.Field(metric) / Divisor(metric));
      } else if data.Some? && data.value.totalProduction == 0.0 {
        if PolicyOf(metric) == Zero {
          state := Some(0.0);
        } else if PolicyOf(metric) == ZeroAtMidnight && hour == 0 {
          state := Some(0.0);
        }
        if PanelCounterpart(metric).Some? {
          var sum := SumPanels(data.value.micros, PanelCounterpart(metric).value, panels);
          if sum.None? {
            return IndexError;
          }
          if sum.value > 0.0 {
            state := sum;
          }
        }
      }
      if state.Some? && state.value < stateOld && metric == PlantMetric.TotalProduction {
        state := Some(stateOld);
      } else if state.Some? && state.value > stateOld && metric == PlantMetric.TotalProduction {
        if state.value > stateOld + panels as real * 0.5 && stateOld > 0.0 {
          state := Some(stateOld);
        } else {
          stateOld := state.value;
        }
      }
      r := Value(state);
    }
  }

  /** A per-panel sensor (one PV_TYPES key for panel `panelNumber`, counted from 1). */
  class PvSensor {
    const metric: PvMetric
    const panelNumber: nat
    const updater: Updater
    var state: Option<real>

    constructor (metric: PvMetric, panelNumber: nat, updater: Updater)
      requires panelNumber >= 1
      ensures this.metric == metric && this.panelNumber == panelNumber && this.updater == updater
      ensures state == None
    {
      this.metric := metric;
      this.panelNumber := panelNumber;
      this.updater := updater;
      state := None;
    }

    /** The `state` property: one read of the sensor. */
    method Read(hour: Hour) returns (r: Outcome)
      requires panelNumber >= 1
      modifies this
      ensures PvStep(state, r) == PvRead(metric, panelNumber, old(state), updater.data, hour)
    {
      var data := updater.data;
      if data.Some? && data.value.totalProduction > 0.0 {
        if panelNumber - 1 >= |data.value.micros| {
          return IndexError;
        }
        var record := data.value.micros[panelNumber - 1];
        state := Some(record.At(Slot(metric)) / PvDivisor(metric));
      } else if data.Some? && data.value.totalProduction == 0.0 {
        if PvPolicy(metric) == Zero {
          state := Some(0.0);
        } else if PvPolicy(metric) == ZeroAtMidnight && hour == 0 {
          state := Some(0.0);
        }
      }
      r := Value(state);
    }
  }
}
