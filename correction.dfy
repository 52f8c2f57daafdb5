/**
 * The value-correction engine of the sensors as functions of the state a
 * sensor keeps between reads: scaling, the zero-total policy, the
 * per-panel summation fallback and the monotonic guard on the total
 * production counter. The sensor classes are proved against these.
 */
module Correction {
  import opened Wrappers
  import opened Descriptors
  import opened Snapshots

  /** The local hour a read happens at. */
  type Hour = h: int | 0 <= h < 24

  /** The two fields of a plant sensor: `_state` and `_state_old`. */
  datatype Cell = Cell(state: Option<real>, stateOld: real)

  /** What a read returns: the sensor value, or the IndexError it raises. */
  datatype Outcome = Value(v: Option<real>) | IndexError

  /** A plant sensor's fields after a read and what the read returned. */
  datatype Step = Step(cell: Cell, out: Outcome)

  /** A PV sensor's `_state` after a read and what the read returned. */
  datatype PvStep = PvStep(state: Option<real>, out: Outcome)

  /** The new value before the monotonic guard, and whether the read raised. */
  datatype Resolved = Resolved(state: Option<real>, raised: bool)

  /** What a plant sensor keeps true between reads. */
  predicate Invariant(m: PlantMetric, c: Cell)
  {
    && c.stateOld >= 0.0
    && (m == PlantMetric.TotalProduction ==> c.state == None || c.state == Some(c.stateOld))
    && (m != PlantMetric.TotalProduction ==> c.stateOld == 0.0)
  }

  /** The zero-total policy: the value either becomes zero or stays. */
  function ApplyPolicy(p: Policy, hour: Hour, prev: Option<real>): (r: Option<real>)
    ensures r == prev || r == Some(0.0)
  {
    match p
    case Zero => Some(0.0)
    case Keep => prev
    case ZeroAtMidnight => if hour == 0 then Some(0.0) else prev
  }

  /** The sum over panels 1..n of the metric's slot, scaled by its divisor, added left to right. */
  function PanelSum(micros: seq<Micro>, m: PvMetric, n: nat): (r: real)
    requires n <= |micros|
    ensures (forall i :: 0 <= i < n ==> micros[i].At(Slot(m)) >= 0.0) ==>
      r >= 0.0 && (r > 0.0 <==> exists i :: 0 <= i < n && micros[i].At(Slot(m)) > 0.0)
  {
    if n == 0 then 0.0
    else
      var x := micros[n - 1].At(Slot(m));
      assert x > 0.0 <==> x / PvDivisor(m) > 0.0;
      assert x >= 0.0 <==> x / PvDivisor(m) >= 0.0;
      assert (exists i :: 0 <= i < n && micros[i].At(Slot(m)) > 0.0)
         <==> (exists i :: 0 <= i < n - 1 && micros[i].At(Slot(m)) > 0.0) || x > 0.0;
      PanelSum(micros, m, n - 1) + x / PvDivisor(m)
  }

  /**
   * The monotonic/spike guard of the total production sensor: a decrease
   * is replaced by the last accepted value, an increase by more than
   * panels * 0.5 over a positive last accepted value is rejected, any
   * other increase becomes the new last accepted value.
   */
  function Guard(s: Option<real>, stateOld: real, panels: nat): (c: Cell)
    ensures c.stateOld >= stateOld
    ensures c.state == None || c.state == Some(c.stateOld)
    ensures s == None ==> c == Cell(None, stateOld)
    ensures s.Some? ==> c.state == s || c.state == Some(stateOld)
  {
    if s.Some? && s.value < stateOld then Cell(Some(stateOld), stateOld)
    else if s.Some? && s.value > stateOld then
      if s.value > stateOld + panels as real * 0.5 && stateOld > 0.0 then Cell(Some(stateOld), stateOld)
      else Cell(s, s.value)
    else Cell(s, stateOld)
  }

  /** Scaling, zero-total policy and summation fallback of a plant sensor read. */
  function Resolve(m: PlantMetric, panels: nat, prev: Option<real>, data: Option<Snapshot>, hour: Hour): (r: Resolved)
    ensures r.raised ==> data.Some? && data.value.totalProduction == 0.0 && PanelCounterpart(m).Some?
    ensures data.None? || data.value.totalProduction < 0.0 ==> r == Resolved(prev, false)
    ensures PolicyOf(m) == Keep && r.state != prev ==> r.state.Some? && !r.raised
  {
    if data.Some? && data.value.totalProduction > 0.0 then
      Resolved(Some(data.value.Field(m) / Divisor(m)), false)
    else if data.Some? && data.value.totalProduction == 0.0 then
      var s := ApplyPolicy(PolicyOf(m), hour, prev);
      match PanelCounterpart(m)
      case None => Resolved(s, false)
      case Some(pm) =>
        if panels > |data.value.micros| then Resolved(s, true)
        else
          var sum := PanelSum(data.value.micros, pm, panels);
          Resolved(if sum > 0.0 then Some(sum) else s, false)
    else
      Resolved(prev, false)
  }

  /** One read of a plant sensor: its new fields and what it returns. */
  function PlantRead(m: PlantMetric, panels: nat, c: Cell, data: Option<Snapshot>, hour: Hour): (r: Step)
    ensures r.out.Value? ==> r.out.v == r.cell.state
    ensures r.cell.stateOld >= c.stateOld
    ensures m != PlantMetric.TotalProduction || r.out.IndexError? ==> r.cell.stateOld == c.stateOld
    ensures m == PlantMetric.TotalProduction && r.out.Value? ==> r.out.v == None || r.out.v == Some(r.cell.stateOld)
    ensures Invariant(m, c) ==> Invariant(m, r.cell)
  {
    var s := Resolve(m, panels, c.state, data, hour);
    if s.raised then Step(Cell(s.state, c.stateOld), IndexError)
    else if m == PlantMetric.TotalProduction then
      var g := Guard(s.state, c.stateOld, panels);
      Step(g, Value(g.state))
    else Step(Cell(s.state, c.stateOld), Value(s.state))
  }

  /** One read of a PV sensor for panel `panelNumber` (1-based). */
  function PvRead(m: PvMetric, panelNumber: nat, prev: Option<real>, data: Option<Snapshot>, hour: Hour): (r: PvStep)
    requires panelNumber >= 1
    ensures r.out.Value? ==> r.out.v == r.state
    ensures r.out.IndexError? ==> r.state == prev
  {
    if data.Some? && data.value.totalProduction > 0.0 then
      if panelNumber > |data.value.micros| then PvStep(prev, IndexError)
      else
        var v := Some(data.value.micros[panelNumber - 1].At(Slot(m)) / PvDivisor(m));
        PvStep(v, Value(v))
    else if data.Some? && data.value.totalProduction == 0.0 then
      var s := ApplyPolicy(PvPolicy(m), hour, prev);
      PvStep(s, Value(s))
    else PvStep(prev, Value(prev))
  }

  // ---------------------------------------------------------------------
  // Properties of a single plant sensor read
  // ---------------------------------------------------------------------

  /** With no snapshot, or a negative plant total, a read returns the previous value and changes nothing. */
  lemma NoUsableDataKeepsState(m: PlantMetric, panels: nat, c: Cell, data: Option<Snapshot>, hour: Hour)
    requires Invariant(m, c)
    requires data == None || data.value.totalProduction < 0.0
    ensures PlantRead(m, panels, c, data, hour) == Step(c, Value(c.state))
  {
  }

  /** With a positive plant total the new value is the plant field over its divisor (before the guard). */
  lemma PositiveTotalScales(m: PlantMetric, panels: nat, c: Cell, s: Snapshot, hour: Hour)
    requires s.totalProduction > 0.0
    ensures var v := Some(s.Field(m) / Divisor(m));
      && Resolve(m, panels, c.state, Some(s), hour) == Resolved(v, false)
      && (m != PlantMetric.TotalProduction ==> PlantRead(m, panels, c, Some(s), hour) == Step(Cell(v, c.stateOld), Value(v)))
      && (m == PlantMetric.TotalProduction ==> PlantRead(m, panels, c, Some(s), hour).cell == Guard(v, c.stateOld, panels))
  {
  }

  /**
   * With a zero plant total: the read raises exactly when a summing sensor
   * has more panels than records; a positive panel sum replaces the value;
   * otherwise policy 0, or policy 2 at hour 0, sets it to zero and policy 1,
   * or policy 2 at any other hour, keeps the previous value.
   */
  lemma ZeroTotalResolve(m: PlantMetric, panels: nat, prev: Option<real>, s: Snapshot, hour: Hour)
    requires s.totalProduction == 0.0
    ensures var r := Resolve(m, panels, prev, Some(s), hour);
      var p := PolicyOf(m);
      var byPolicy := if p == Zero || (p == ZeroAtMidnight && hour == 0) then Some(0.0) else prev;
      && (r.raised <==> PanelCounterpart(m).Some? && panels > |s.micros|)
      && (r.raised || PanelCounterpart(m).None? ==> r.state == byPolicy)
      && (!r.raised && PanelCounterpart(m).Some? ==>
            var sum := PanelSum(s.micros, PanelCounterpart(m).value, panels);
            r.state == if sum > 0.0 then Some(sum) else byPolicy)
  {
  }

  /** A decrease of the new total below the last accepted value returns the last accepted value. */
  lemma DecreaseRejected(panels: nat, c: Cell, data: Option<Snapshot>, hour: Hour, v: real)
    requires Resolve(PlantMetric.TotalProduction, panels, c.state, data, hour) == Resolved(Some(v), false)
    requires v < c.stateOld
    ensures PlantRead(PlantMetric.TotalProduction, panels, c, data, hour)
         == Step(Cell(Some(c.stateOld), c.stateOld), Value(Some(c.stateOld)))
  {
  }

  /** An increase beyond panels * 0.5 over a positive last accepted value is rejected. */
  lemma SpikeRejected(panels: nat, c: Cell, data: Option<Snapshot>, hour: Hour, v: real)
    requires Resolve(PlantMetric.TotalProduction, panels, c.state, data, hour) == Resolved(Some(v), false)
    requires c.stateOld > 0.0 && v > c.stateOld + panels as real * 0.5
    ensures PlantRead(PlantMetric.TotalProduction, panels, c, data, hour)
         == Step(Cell(Some(c.stateOld), c.stateOld), Value(Some(c.stateOld)))
  {
  }

  /** Any other increase is accepted and becomes the last accepted value. */
  lemma IncreaseAccepted(panels: nat, c: Cell, data: Option<Snapshot>, hour: Hour, v: real)
    requires Resolve(PlantMetric.TotalProduction, panels, c.state, data, hour) == Resolved(Some(v), false)
    requires v > c.stateOld
    requires v <= c.stateOld + panels as real * 0.5 || c.stateOld <= 0.0
    ensures PlantRead(PlantMetric.TotalProduction, panels, c, data, hour) == Step(Cell(Some(v), v), Value(Some(v)))
  {
  }

  /** The spike bound is inclusive: with 4 panels and 10.0 accepted, 12.0 is accepted and 12.1 rejected. */
  lemma SpikeBoundary()
    ensures Guard(Some(12.0), 10.0, 4) == Cell(Some(12.0), 12.0)
    ensures Guard(Some(12.1), 10.0, 4) == Cell(Some(10.0), 10.0)
  {
  }

  // ---------------------------------------------------------------------
  // Properties of a PV sensor read
  // ---------------------------------------------------------------------

  /** With a positive plant total a PV sensor reads record panelNumber-1 at its slot, over its divisor. */
  lemma PvPositiveTotalScales(m: PvMetric, panelNumber: nat, prev: Option<real>, s: Snapshot, hour: Hour)
    requires panelNumber >= 1 && s.totalProduction > 0.0
    ensures var r := PvRead(m, panelNumber, prev, Some(s), hour);
      && (panelNumber <= |s.micros| ==> r.out == Value(Some(s.micros[panelNumber - 1].At(Slot(m)) / PvDivisor(m))))
      && (panelNumber > |s.micros| ==> r == PvStep(prev, IndexError))
  {
  }

  /** With a zero plant total a PV sensor applies its policy and never raises. */
  lemma PvZeroTotalPolicy(m: PvMetric, panelNumber: nat, prev: Option<real>, s: Snapshot, hour: Hour)
    requires panelNumber >= 1 && s.totalProduction == 0.0
    ensures var p := PvPolicy(m);
      PvRead(m, panelNumber, prev, Some(s), hour).out
        == Value(if p == Zero || (p == ZeroAtMidnight && hour == 0) then Some(0.0) else prev)
  {
  }

  /** With no snapshot, or a negative plant total, a PV sensor returns its previous value. */
  lemma PvNoUsableDataKeepsState(m: PvMetric, panelNumber: nat, prev: Option<real>, data: Option<Snapshot>, hour: Hour)
    requires panelNumber >= 1
    requires data == None || data.value.totalProduction < 0.0
    ensures PvRead(m, panelNumber, prev, data, hour) == PvStep(prev, Value(prev))
  {
  }
}
