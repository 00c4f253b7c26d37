/** The numeric tick values drawn along each axis of the scene. */
module Grid {

  /** The range and spacing of the axis ticks used by the view. */
  const MinVal: real := -950.0
  const MaxVal: real := 950.0
  const StepGrid: real := 100.0

  /** `i * step` is monotone in `i` for a positive step. */
  lemma ScaleMonotone(a: real, b: real, step: real)
    requires step > 0.0 && a <= b
    ensures a * step <= b * step
    ensures a < b ==> a * step < b * step
  {
  }

  /** The value of the tick with index `i`. */
  function TickAt(min: real, step: real, i: int): real
  {
    min + i as real * step
  }

  /** The number of ticks: `floor((max - min) / step) + 1`, clamped at zero as an
      array-like length is. */
  function TickCount(min: real, max: real, step: real): int
    requires step > 0.0
  {
    var n := ((max - min) / step).Floor + 1;
    if n < 0 then 0 else n
  }

  /** Every index below the tick count lands in `[min, max]`, and the first index past
      it lands above `max`. */
  lemma TickCountBounds(min: real, max: real, step: real)
    requires step > 0.0
    ensures max >= min ==> TickCount(min, max, step) == ((max - min) / step).Floor + 1
    ensures max < min ==> TickCount(min, max, step) == 0
    ensures forall i :: 0 <= i < TickCount(min, max, step) ==> min <= TickAt(min, step, i) <= max
    ensures TickAt(min, step, TickCount(min, max, step)) > max
  {
    var q := (max - min) / step;
    var len := TickCount(min, max, step);
    assert q * step == max - min;
    assert q < len as real by {
      assert q < q.Floor as real + 1.0;
    }
    ScaleMonotone(q, len as real, step);
    assert len as real * step > max - min;
    assert TickAt(min, step, len) > max;
    forall i | 0 <= i < len
      ensures min <= TickAt(min, step, i) <= max
    {
      assert i as real <= q;
      ScaleMonotone(0.0, i as real, step);
      ScaleMonotone(i as real, q, step);
      assert i as real * step <= max - min;
    }
    if max < min {
      assert q < 0.0 by {
        if q >= 0.0 { ScaleMonotone(0.0, q, step); }
      }
    }
  }

  /** The tick values `min + i * step`, one per index below the tick count. */
  function Ticks(min: real, max: real, step: real): (t: seq<real>)
    requires step > 0.0
    ensures max >= min ==> |t| == ((max - min) / step).Floor + 1
    ensures max < min ==> t == []
    ensures |t| > 0 ==> t[0] == min
    ensures forall i :: 0 < i < |t| ==> t[i] == t[i - 1] + step
    ensures forall i :: 0 <= i < |t| ==> min <= t[i] <= max
    // the sequence stops at the last value within range
    ensures min + |t| as real * step > max
  {
    TickCountBounds(min, max, step);
    seq(TickCount(min, max, step), i => TickAt(min, step, i))
  }

  /** With the view's constants the axes carry 20 ticks, from -950 to 950. */
  lemma ViewTicks()
    ensures |Ticks(MinVal, MaxVal, StepGrid)| == 20
    ensures Ticks(MinVal, MaxVal, StepGrid)[0] == -950.0
    ensures Ticks(MinVal, MaxVal, StepGrid)[19] == 950.0
  {
  }
}
