// Timeframe-grid arithmetic and half-open windows
// (src/market_data_service/domain/timeframes.py, domain/windows.py).

module Optional {
  datatype Option<+T> = None | Some(value: T)
}

module Grid {
  datatype Timeframe = M1 | M5 | M15 | H1 | H4 | D1

  /** The registry: one bar of each supported timeframe, in milliseconds. */
  function DurationMs(timeframe: Timeframe): (step: int)
    ensures step > 0
  {
    match timeframe
    case M1 => 60_000
    case M5 => 5 * 60_000
    case M15 => 15 * 60_000
    case H1 => 60 * 60_000
    case H4 => 4 * 60 * 60_000
    case D1 => 24 * 60 * 60_000
  }

  /** Shorter bars fill longer ones: one minute is 60 seconds of 1000 milliseconds, and every timeframe
      is a whole number of the one below it. */
  lemma TimeframesNest()
    ensures DurationMs(M1) == 60 * 1000
    ensures DurationMs(M5) == 5 * DurationMs(M1) && DurationMs(M15) == 3 * DurationMs(M5)
    ensures DurationMs(H1) == 4 * DurationMs(M15) && DurationMs(H4) == 4 * DurationMs(H1) && DurationMs(D1) == 6 * DurationMs(H4)
  {
  }

  predicate OnGrid(t: int, step: int)
    requires step > 0
  {
    t % step == 0
  }

  function AlignToGrid(t: int, step: int): (aligned: int)
    requires step > 0
    ensures OnGrid(aligned, step) && aligned <= t < aligned + step
  {
    AlignedFloor(t, step);
    t - t % step
  }

  function CeilToGrid(t: int, step: int): (aligned: int)
    requires step > 0
    ensures OnGrid(aligned, step) && aligned - step < t <= aligned
  {
    var floor := AlignToGrid(t, step);
    NextOnGrid(floor, step);
    if floor == t then floor else floor + step
  }

  /** Open time of the latest fully closed bar: its close is not in the future, the next one's is. */
  function LastClosedOpenTime(now: int, step: int): (openTime: int)
    requires step > 0
    ensures OnGrid(openTime, step) && openTime + step <= now < openTime + 2 * step
  {
    PreviousOnGrid(AlignToGrid(now, step), step);
    AlignToGrid(now, step) - step
  }

  /** Said without any rounding: the bar has closed by a time and the next one has not. */
  predicate LastClosedBy(bar: int, time: int, step: int)
    requires step > 0
  {
    OnGrid(bar, step) && bar + step <= time < bar + 2 * step
  }

  /** Exactly one bar is the last closed one. */
  lemma LastClosedExactly(bar: int, time: int, step: int)
    requires step > 0
    ensures LastClosedBy(bar, time, step) <==> bar == LastClosedOpenTime(time, step)
  {
    var other := LastClosedOpenTime(time, step);
    if LastClosedBy(bar, time, step) {
      if bar < other {
        GridSpacing(bar, other, step);
      } else if other < bar {
        GridSpacing(other, bar, step);
      }
    }
  }

  lemma AtLeastOneStep(bars: int, step: int)
    requires step > 0 && bars >= 1
    ensures bars * step >= step
  {
    assert (bars - 1) * step >= 0;
  }

  lemma DivisionUnique(q: int, r: int, q': int, r': int, step: int)
    requires 0 <= r < step && 0 <= r' < step && q * step + r == q' * step + r'
    ensures q == q' && r == r'
  {
    assert (q - q') * step == r' - r;
    if q > q' {
      AtLeastOneStep(q - q', step);
    } else if q < q' {
      assert (q' - q) * step == r - r';
      AtLeastOneStep(q' - q, step);
    }
  }

  lemma QuotientUnique(t: int, q: int, r: int, step: int)
    requires step > 0 && 0 <= r < step && t == q * step + r
    ensures t / step == q && t % step == r
  {
    var q', r' := t / step, t % step;
    assert t == q' * step + r';
    DivisionUnique(q, r, q', r', step);
  }

  lemma AlignedFloor(t: int, step: int)
    requires step > 0
    ensures OnGrid(t - t % step, step)
  {
    QuotientUnique(t - t % step, t / step, 0, step);
  }

  lemma NextOnGrid(t: int, step: int)
    requires step > 0 && OnGrid(t, step)
    ensures OnGrid(t + step, step)
  {
    QuotientUnique(t + step, t / step + 1, 0, step);
  }

  lemma PreviousOnGrid(t: int, step: int)
    requires step > 0 && OnGrid(t, step)
    ensures OnGrid(t - step, step)
  {
    QuotientUnique(t - step, t / step - 1, 0, step);
  }

  lemma ShiftOnGrid(t: int, bars: int, step: int)
    requires step > 0 && OnGrid(t, step)
    ensures OnGrid(t + bars * step, step)
  {
    QuotientUnique(t + bars * step, t / step + bars, 0, step);
  }

  lemma SumOnGrid(t: int, u: int, step: int)
    requires step > 0 && OnGrid(t, step) && OnGrid(u, step)
    ensures OnGrid(t + u, step)
  {
    var p, q := t / step, u / step;
    assert t == p * step && u == q * step;
    QuotientUnique(t + u, p + q, 0, step);
  }

  /** Two distinct grid points are at least one bar apart. */
  lemma GridSpacing(a: int, b: int, step: int)
    requires step > 0 && OnGrid(a, step) && OnGrid(b, step) && a < b
    ensures a + step <= b
  {
    var p, q := a / step, b / step;
    assert a == p * step && b == q * step;
    assert (q - p) * step == b - a;
    if q < p {
      assert (p - q) * step == a - b;
      AtLeastOneStep(p - q, step);
    } else if p < q {
      AtLeastOneStep(q - p, step);
    }
  }

  /** The aligned floor is the greatest grid point not after the timestamp. */
  lemma AlignIsGreatest(g: int, t: int, step: int)
    requires step > 0 && OnGrid(g, step) && g <= t
    ensures g <= AlignToGrid(t, step)
  {
    if g > AlignToGrid(t, step) {
      GridSpacing(AlignToGrid(t, step), g, step);
    }
  }

  function Min(a: int, b: int): int { if a <= b then a else b }

  function Max(a: int, b: int): int { if a >= b then a else b }
}

module Windows {
  import opened Grid

  /** Half-open interval [start, end); the source refuses an empty one. */
  datatype TimeWindow = TimeWindow(start: int, end: int) {
    predicate Valid() { start < end }

    predicate Contains(t: int) { start <= t < end }

    predicate Aligned(step: int)
      requires step > 0
    {
      OnGrid(start, step) && OnGrid(end, step)
    }
  }

  /** The bars opening in [start, end). */
  function GridPoints(start: int, end: int, step: int): (points: set<int>)
    requires step > 0
  {
    set t | start <= t < end && OnGrid(t, step)
  }

  /** The number of bars opening between two grid points is their distance in bars. */
  lemma {:induction false} GridPointsCount(start: int, end: int, step: int)
    requires step > 0 && OnGrid(start, step) && OnGrid(end, step) && start <= end
    ensures |GridPoints(start, end, step)| == (end - start) / step
    decreases end - start
  {
    if start == end {
      assert GridPoints(start, end, step) == {};
      QuotientUnique(0, 0, 0, step);
    } else {
      GridSpacing(start, end, step);
      NextOnGrid(start, step);
      GridPointsCount(start + step, end, step);
      GridPointsSplitFirst(start, end, step);
      OneMoreBar(end - start - step, step);
    }
  }

  lemma OneMoreBar(span: int, step: int)
    requires step > 0
    ensures (span + step) / step == span / step + 1
  {
    QuotientUnique(span + step, span / step + 1, span % step, step);
  }

  lemma GridPointsSplitFirst(start: int, end: int, step: int)
    requires step > 0 && OnGrid(start, step) && OnGrid(end, step) && start < end
    ensures start !in GridPoints(start + step, end, step)
    ensures GridPoints(start, end, step) == {start} + GridPoints(start + step, end, step)
  {
    forall t | t in GridPoints(start, end, step) && t != start
      ensures t in GridPoints(start + step, end, step)
    {
      GridSpacing(start, t, step);
    }
  }
}
