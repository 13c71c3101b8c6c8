/**
 * ProgressBar: every `update_interval` iterations it draws two 50-character bars, one for the whole
 * run and one for the current epoch, and an estimate of the time left.
 */
module Progress {
  import opened Outcomes
  import opened Text

  /** The number of characters between the brackets of a bar. */
  const BarWidth: nat := 50

  const TotalLabel: string := "     Total: ["
  const EpochLabel: string := "This Epoch: ["

  /** The number of '#' in a bar at count out of length: the floor of count * 50 / length. */
  function Filled(count: nat, length: nat): (n: nat)
    requires 0 < length
    ensures n * length <= count * BarWidth < (n + 1) * length
    ensures count <= length ==> n <= BarWidth
  {
    var n := count * BarWidth / length;
    assert count <= length ==> n <= BarWidth by {
      if count <= length {
        assert n * length <= count * BarWidth <= BarWidth * length < (BarWidth + 1) * length;
        MulLess(n, BarWidth + 1, length);
      }
    }
    n
  }

  /** a * c < b * c with c positive gives a < b. */
  lemma MulLess(a: int, b: int, c: int)
    requires 0 < c && a * c < b * c
    ensures a < b
  {
    assert (b - a) * c == b * c - a * c;
  }

  /** `'#' * n + ' ' * (50 - n)`. */
  function BarBody(count: nat, length: nat): (r: string)
    requires 0 < length
    ensures count <= length ==> |r| == BarWidth
    ensures count > length ==> |r| == Filled(count, length) >= BarWidth
    ensures forall i :: 0 <= i < |r| ==> (r[i] == '#' <==> i < Filled(count, length))
    ensures forall i :: Filled(count, length) <= i < |r| ==> r[i] == ' '
  {
    var n := Filled(count, length);
    assert count > length ==> BarWidth <= n by {
      if count > length {
        assert BarWidth * length < count * BarWidth < (n + 1) * length;
        MulLess(BarWidth, n + 1, length);
      }
    }
    Repeat('#', n) + Repeat(' ', BarWidth - n)
  }

  /** A bar never loses a '#' as its count grows. */
  lemma {:induction false} FilledMonotone(c1: nat, c2: nat, length: nat)
    requires 0 < length && c1 <= c2
    ensures Filled(c1, length) <= Filled(c2, length)
  {
    var n1, n2 := Filled(c1, length), Filled(c2, length);
    assert n1 * length <= c1 * BarWidth <= c2 * BarWidth < (n2 + 1) * length;
    MulLess(n1, n2 + 1, length);
  }

  /** An empty count gives an all-blank bar, a full count an all-'#' bar. */
  lemma {:induction false} BarEnds(length: nat)
    requires 0 < length
    ensures forall i :: 0 <= i < BarWidth ==> BarBody(0, length)[i] == ' '
    ensures forall i :: 0 <= i < BarWidth ==> BarBody(length, length)[i] == '#'
  {
    var full := Filled(length, length);
    assert full * length <= BarWidth * length < (full + 1) * length;
    MulLess(BarWidth, full + 1, length);
  }

  /** The two bar lines. */
  datatype Bars = Bars(total: string, thisEpoch: string)

  /**
   * The bars drawn at iteration `totalIter` (`iteration` of the current epoch), with `epochLen` batches
   * per epoch and a run of `span` epochs. Nothing is drawn off the interval; a zero interval or a zero
   * overall length is Python's ZeroDivisionError.
   */
  function Draw(updateInterval: int, totalIter: nat, iteration: nat, epochLen: nat, span: nat): (r: Result<Option<Bars>>)
    ensures updateInterval == 0 ==> r == Err(ZeroDivisionError)
    ensures updateInterval != 0 && totalIter % updateInterval != 0 ==> r == Ok(None)
    ensures updateInterval != 0 && totalIter % updateInterval == 0 ==>
      && (r.Ok? <==> 0 < span && 0 < epochLen)
      && (r.Ok? ==> r.value.Some?)
    ensures r.Ok? && r.value.Some? ==>
      && 0 < span * epochLen && 0 < epochLen
      && r.value.value.total == TotalLabel + BarBody(totalIter, span * epochLen) + "]"
      && r.value.value.thisEpoch == EpochLabel + BarBody(iteration, epochLen) + "]"
  {
    if updateInterval == 0 then Err(ZeroDivisionError)
    else if totalIter % updateInterval != 0 then Ok(None)
    else
      var overall := span * epochLen;
      if overall == 0 then Err(ZeroDivisionError)
      else
        assert 0 < epochLen;
        Ok(Some(Bars(TotalLabel + BarBody(totalIter, overall) + "]",
                     EpochLabel + BarBody(iteration, epochLen) + "]")))
  }

  /**
   * Within the run (totalIter at most span * epochLen, iteration at most epochLen) both drawn bars are
   * exactly 50 characters between their brackets, filled in proportion to the progress.
   */
  lemma DrawnBarsInRun(updateInterval: int, totalIter: nat, iteration: nat, epochLen: nat, span: nat)
    requires Draw(updateInterval, totalIter, iteration, epochLen, span).Ok?
    requires Draw(updateInterval, totalIter, iteration, epochLen, span).value.Some?
    requires totalIter <= span * epochLen && iteration <= epochLen
    ensures var b := Draw(updateInterval, totalIter, iteration, epochLen, span).value.value;
      && |b.total| == |TotalLabel| + BarWidth + 1
      && |b.thisEpoch| == |EpochLabel| + BarWidth + 1
      && (forall i :: |TotalLabel| <= i < |TotalLabel| + BarWidth ==>
            (b.total[i] == '#' <==> i - |TotalLabel| < Filled(totalIter, span * epochLen)))
      && (forall i :: |EpochLabel| <= i < |EpochLabel| + BarWidth ==>
            (b.thisEpoch[i] == '#' <==> i - |EpochLabel| < Filled(iteration, epochLen)))
  {
    var b := Draw(updateInterval, totalIter, iteration, epochLen, span).value.value;
    var t := BarBody(totalIter, span * epochLen);
    var e := BarBody(iteration, epochLen);
    forall i | |TotalLabel| <= i < |TotalLabel| + BarWidth
      ensures b.total[i] == t[i - |TotalLabel|]
    {
    }
    forall i | |EpochLabel| <= i < |EpochLabel| + BarWidth
      ensures b.thisEpoch[i] == e[i - |EpochLabel|]
    {
    }
  }

  /** What one draw shows: the bars and the estimated seconds left. */
  datatype Display = Display(bars: Bars, remaining: real)

  class ProgressBar {
    const updateInterval: int
    /** The clock reading taken at the end of the last draw. */
    var previous: real
    /** The seconds measured over all draws so far. */
    var cost: real

    /** `now` is the clock reading at construction. */
    constructor (updateInterval: int, now: real)
      ensures this.updateInterval == updateInterval && previous == now && cost == 0.0
    {
      this.updateInterval := updateInterval;
      previous := now;
      cost := 0.0;
    }

    /**
     * One training step. `now` and `later` are the two clock readings a draw takes: the first
     * measures the interval since the last draw, the second becomes the new reference point.
     */
    method Call(totalIter: nat, iteration: nat, epochLen: nat, span: nat, now: real, later: real)
      returns (r: Result<Option<Display>>)
      modifies this
      ensures r.Err? <==> Draw(updateInterval, totalIter, iteration, epochLen, span).Err?
      ensures r == Ok(None) <==> Draw(updateInterval, totalIter, iteration, epochLen, span) == Ok(None)
      ensures !(r.Ok? && r.value.Some?) ==> previous == old(previous) && cost == old(cost)
      ensures r.Ok? && r.value.Some? ==>
        && Draw(updateInterval, totalIter, iteration, epochLen, span) == Ok(Some(r.value.value.bars))
        && previous == later
        && cost == old(cost) + (now - old(previous))
        && 0.0 <= r.value.value.remaining
        && r.value.value.remaining
           == Max(((now - old(previous)) / (updateInterval as real)) * ((span * epochLen) as real) - cost, 0.0)
    {
      var drawn := Draw(updateInterval, totalIter, iteration, epochLen, span);
      match drawn
      case Err(e) =>
        r := Err(e);
      case Ok(None) =>
        r := Ok(None);
      case Ok(Some(bars)) =>
        var elapsed := now - previous;
        previous := later;
        cost := cost + elapsed;
        var overallTime := (elapsed / (updateInterval as real)) * ((span * epochLen) as real);
        r := Ok(Some(Display(bars, Max(overallTime - cost, 0.0))));
    }
  }

  /** Python's `max` of two reals. */
  function Max(a: real, b: real): (m: real)
    ensures m >= a && m >= b && (m == a || m == b)
  {
    if a >= b then a else b
  }
}
