/**
 * Repeated reads of the total production sensor: the exposed series it
 * produces over a sequence of polls.
 */
module Series {
  import opened Wrappers
  import opened Descriptors
  import opened Snapshots
  import opened Correction

  /** The updater's data and the local hour at one read. */
  datatype Poll = Poll(data: Option<Snapshot>, hour: Hour)

  /** The fields of the total production sensor after each read of `polls`, starting from `c`. */
  function Replay(panels: nat, c: Cell, polls: seq<Poll>): (cells: seq<Cell>)
    ensures |cells| == |polls|
    decreases |polls|
  {
    if polls == [] then []
    else
      var next := PlantRead(PlantMetric.TotalProduction, panels, c, polls[0].data, polls[0].hour).cell;
      [next] + Replay(panels, next, polls[1..])
  }

  /** No exposed value is below the one before it. */
  predicate NonDecreasing(cells: seq<Cell>)
  {
    forall i, j :: 0 <= i <= j < |cells| && cells[i].state.Some? && cells[j].state.Some? ==>
      cells[i].state.value <= cells[j].state.value
  }

  /**
   * Over any sequence of polls the last accepted value never decreases,
   * every exposed value is None or the last accepted value, and so the
   * exposed values form a non-decreasing series.
   */
  lemma {:induction false} SeriesNonDecreasing(panels: nat, c: Cell, polls: seq<Poll>)
    requires Invariant(PlantMetric.TotalProduction, c)
    ensures forall i :: 0 <= i < |polls| ==> c.stateOld <= Replay(panels, c, polls)[i].stateOld
    ensures forall i :: 0 <= i < |polls| ==> Invariant(PlantMetric.TotalProduction, Replay(panels, c, polls)[i])
    ensures forall i, j :: 0 <= i <= j < |polls| ==>
      Replay(panels, c, polls)[i].stateOld <= Replay(panels, c, polls)[j].stateOld
    ensures NonDecreasing(Replay(panels, c, polls))
    decreases |polls|
  {
    if polls != [] {
      var next := PlantRead(PlantMetric.TotalProduction, panels, c, polls[0].data, polls[0].hour).cell;
      var rest := Replay(panels, next, polls[1..]);
      SeriesNonDecreasing(panels, next, polls[1..]);
      var cells := Replay(panels, c, polls);
      assert cells == [next] + rest;
      assert c.stateOld <= next.stateOld && Invariant(PlantMetric.TotalProduction, next);
      forall i | 0 <= i < |cells|
        ensures c.stateOld <= cells[i].stateOld && Invariant(PlantMetric.TotalProduction, cells[i])
      {
        if i > 0 { assert cells[i] == rest[i - 1]; } else { assert cells[i] == next; }
      }
      forall i, j | 0 <= i <= j < |cells|
        ensures cells[i].stateOld <= cells[j].stateOld
      {
        if i > 0 { assert cells[i] == rest[i - 1] && cells[j] == rest[j - 1]; }
        else if j > 0 { assert cells[i] == next && cells[j] == rest[j - 1]; }
      }
    }
  }

  /** Every poll carries a snapshot whose positive total, scaled, lies beyond the spike bound over `stateOld`. */
  predicate AllBeyondBound(polls: seq<Poll>, stateOld: real, panels: nat)
  {
    forall i :: 0 <= i < |polls| ==>
      && polls[i].data.Some?
      && polls[i].data.value.totalProduction > 0.0
      && polls[i].data.value.totalProduction / 1000.0 > stateOld + panels as real * 0.5
  }

  /**
   * Once the last accepted value is positive, every later snapshot whose
   * total lies beyond the spike bound is rejected, however far the counter
   * keeps rising: the sensor stays at the last accepted value for good.
   */
  lemma {:induction false} SpikeStaysRejected(panels: nat, c: Cell, polls: seq<Poll>)
    requires c.stateOld > 0.0
    requires AllBeyondBound(polls, c.stateOld, panels)
    ensures forall i :: 0 <= i < |polls| ==> Replay(panels, c, polls)[i] == Cell(Some(c.stateOld), c.stateOld)
    decreases |polls|
  {
    if polls != [] {
      var next := PlantRead(PlantMetric.TotalProduction, panels, c, polls[0].data, polls[0].hour).cell;
      assert next == Cell(Some(c.stateOld), c.stateOld);
      assert AllBeyondBound(polls[1..], c.stateOld, panels) by {
        forall i | 0 <= i < |polls[1..]| ensures polls[1..][i] == polls[i + 1] { }
      }
      SpikeStaysRejected(panels, next, polls[1..]);
      var cells := Replay(panels, c, polls);
      assert cells == [next] + Replay(panels, next, polls[1..]);
    }
  }
}
