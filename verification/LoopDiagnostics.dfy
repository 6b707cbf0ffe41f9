// Bounded timing spans and their overlap with a loop lag
// (src/market_data_service/runtime/loop_diagnostic_spans.py).

module LoopDiagnostics {
  import opened Grid

  const SLOW_NS := 50 * 1_000_000

  datatype Span = Span(operation: string, phase: string, start: int, end: int)

  datatype Interval = Interval(start: int, end: int)

  predicate Within(t: int, start: int, end: int) { start <= t < end }

  function Instants(start: int, end: int): (instants: set<int>)
  {
    set t | start <= t < end && Within(t, start, end)
  }

  function UnionOf(intervals: seq<Interval>): (union: set<int>)
  {
    if intervals == [] then {}
    else UnionOf(intervals[..|intervals| - 1]) + Instants(intervals[|intervals| - 1].start, intervals[|intervals| - 1].end)
  }

  /** The instants of [start, end) that lie in some span: what the sweep has to measure. */
  function Busy(spans: seq<Span>, start: int, end: int): (instants: set<int>)
  {
    set t | start <= t < end && CoveredAt(t, spans)
  }

  predicate CoveredAt(t: int, spans: seq<Span>)
  {
    exists span :: span in spans && span.start <= t < span.end
  }

  ghost predicate SortedByStart(intervals: seq<Interval>)
  {
    forall i, j :: 0 <= i < j < |intervals| ==> intervals[i].start <= intervals[j].start
  }

  /** Stable insertion into a list ordered by start. */
  function Insert(x: Interval, sorted: seq<Interval>): (result: seq<Interval>)
  {
    if sorted == [] || x.start < sorted[0].start then [x] + sorted
    else [sorted[0]] + Insert(x, sorted[1..])
  }

  function SortByStart(intervals: seq<Interval>): (sorted: seq<Interval>)
  {
    if intervals == [] then [] else Insert(intervals[|intervals| - 1], SortByStart(intervals[..|intervals| - 1]))
  }

  lemma {:induction false} InsertMembers(x: Interval, sorted: seq<Interval>)
    ensures multiset(Insert(x, sorted)) == multiset(sorted) + multiset{x}
    ensures forall i :: i in Insert(x, sorted) <==> i == x || i in sorted
  {
    if sorted != [] {
      assert sorted == [sorted[0]] + sorted[1..];
      if x.start >= sorted[0].start {
        InsertMembers(x, sorted[1..]);
      }
    }
  }

  lemma {:induction false} InsertKeeps(x: Interval, sorted: seq<Interval>)
    requires SortedByStart(sorted)
    ensures SortedByStart(Insert(x, sorted))
  {
    if sorted != [] && x.start >= sorted[0].start {
      var rest := Insert(x, sorted[1..]);
      InsertKeeps(x, sorted[1..]);
      InsertMembers(x, sorted[1..]);
      forall i | 0 <= i < |rest|
        ensures sorted[0].start <= rest[i].start
      {
        assert rest[i] in rest;
      }
    }
  }

  lemma {:induction false} SortIsOrderedPermutation(intervals: seq<Interval>)
    ensures SortedByStart(SortByStart(intervals))
    ensures multiset(SortByStart(intervals)) == multiset(intervals)
    ensures forall i :: i in SortByStart(intervals) <==> i in intervals
  {
    if intervals != [] {
      var front, last := intervals[..|intervals| - 1], intervals[|intervals| - 1];
      SortIsOrderedPermutation(front);
      InsertKeeps(last, SortByStart(front));
      InsertMembers(last, SortByStart(front));
      assert intervals == front + [last];
    }
  }

  /** The cursor is the furthest end seen, or the start. */
  ghost predicate CursorAt(sorted: seq<Interval>, i: nat, cursor: int, start: int)
    requires i <= |sorted|
  {
    && (forall j :: 0 <= j < i ==> sorted[j].end <= cursor)
    && (cursor == start || exists j :: 0 <= j < i && sorted[j].end == cursor)
  }

  lemma CursorMoves(sorted: seq<Interval>, i: nat, cursor: int, start: int)
    requires i < |sorted| && CursorAt(sorted, i, cursor, start)
    ensures CursorAt(sorted, i + 1, Max(cursor, sorted[i].end), start)
  {
    if cursor <= sorted[i].end {
      assert sorted[i].end == Max(cursor, sorted[i].end);
    } else if cursor != start {
      var j :| 0 <= j < i && sorted[j].end == cursor;
      assert sorted[j].end == Max(cursor, sorted[i].end);
    }
  }

  /** The sweep over clipped intervals in order of their starts. */
  method Sweep(sorted: seq<Interval>, start: int) returns (covered: int)
    requires SortedByStart(sorted) && forall x :: x in sorted ==> start <= x.start < x.end
    ensures covered == |UnionOf(sorted)|
  {
    var cursor := start;
    covered := 0;
    for i := 0 to |sorted|
      invariant start <= cursor && CursorAt(sorted, i, cursor, start)
      invariant covered == |UnionOf(sorted[..i])|
    {
      var x := sorted[i];
      assert x in sorted;
      SweepStep(sorted, i, cursor, start);
      covered := covered + Max(0, x.end - Max(cursor, x.start));
      CursorMoves(sorted, i, cursor, start);
      cursor := Max(cursor, x.end);
    }
    assert sorted[..|sorted|] == sorted;
  }

  class LoopDiagnosticSpans {
    const capacity: nat
    var recent: seq<Span>
    var evicted: nat
    var evictedSinceTick: nat
    /** Every kept span recorded since the last tick. */
    ghost var since: seq<Span>

    ghost predicate Valid()
      reads this
    {
      && |recent| <= capacity
      && |since| == |recent| + evictedSinceTick
      && recent == since[evictedSinceTick..]
      && (evictedSinceTick > 0 ==> |recent| == capacity)
      && evictedSinceTick <= evicted
    }

    constructor (capacity: nat)
      ensures Valid() && this.capacity == capacity && recent == [] && since == [] && evicted == 0
    {
      this.capacity := capacity;
      recent, evicted, evictedSinceTick, since := [], 0, 0, [];
    }

    /** Append a span of a whole operation, or a slow one; a full buffer drops its oldest one and counts it. */
    method Record(span: Span)
      requires Valid()
      modifies this
      ensures Valid()
      ensures since == if span.phase == "total" || span.end - span.start >= 50_000_000 then old(since) + [span] else old(since)
      ensures evicted - old(evicted) == evictedSinceTick - old(evictedSinceTick)
                                     == if since != old(since) && |old(recent)| == capacity then 1 else 0
    {
      if span.phase == "total" || span.end - span.start >= SLOW_NS {
        if |recent| == capacity {
          evicted := evicted + 1;
          evictedSinceTick := evictedSinceTick + 1;
        }
        since := since + [span];
        recent := recent + [span];
        if |recent| > capacity {
          recent := recent[1..];
        }
      }
    }

    method FinishTick()
      requires Valid()
      modifies this
      ensures Valid() && recent == [] && since == [] && evicted == old(evicted)
    {
      recent, evictedSinceTick, since := [], 0, [];
    }

    /** The part of [start, end) covered by retained spans: clip, order by start, sweep once. */
    method Overlap(start: int, end: int) returns (covered: int)
      ensures covered == |Busy(recent, start, end)|
    {
      var intersections := Clip(start, end);
      var sorted := SortByStart(intersections);
      SortIsOrderedPermutation(intersections);
      covered := Sweep(sorted, start);
      UnionMembers(sorted);
      assert UnionOf(sorted) == Busy(recent, start, end) by {
        ClippedUnion(sorted, recent, start, end);
      }
    }

    method Clip(start: int, end: int) returns (intersections: seq<Interval>)
      ensures forall x :: x in intersections <==> exists span :: span in recent && ClipOf(span, start, end) == x && x.start < x.end
    {
      intersections := [];
      for i := 0 to |recent|
        invariant forall x :: x in intersections <==> exists span :: span in recent[..i] && ClipOf(span, start, end) == x && x.start < x.end
      {
        assert recent[..i + 1] == recent[..i] + [recent[i]];
        var x := ClipOf(recent[i], start, end);
        if x.start < x.end {
          intersections := intersections + [x];
        }
      }
      assert recent[..|recent|] == recent;
    }
  }

  function ClipOf(span: Span, start: int, end: int): Interval
  {
    Interval(Max(start, span.start), Min(end, span.end))
  }

  lemma {:induction false} InstantsCount(start: int, end: int)
    requires start <= end
    ensures |Instants(start, end)| == end - start
    decreases end - start
  {
    if start == end {
      assert Instants(start, end) == {};
    } else {
      InstantsCount(start + 1, end);
      assert Instants(start, end) == {start} + Instants(start + 1, end);
    }
  }

  lemma {:induction false} UnionMembers(intervals: seq<Interval>)
    ensures forall t :: t in UnionOf(intervals) <==> exists x :: x in intervals && x.start <= t < x.end
  {
    if intervals != [] {
      var front, last := intervals[..|intervals| - 1], intervals[|intervals| - 1];
      UnionMembers(front);
      assert intervals == front + [last];
    }
  }

  /** One step of the sweep adds exactly the instants not covered before: everything from the next
      start up to the cursor already is, nothing from the cursor on. */
  lemma SweepStep(sorted: seq<Interval>, i: nat, cursor: int, start: int)
    requires i < |sorted| && SortedByStart(sorted)
    requires forall x :: x in sorted ==> start <= x.start < x.end
    requires CursorAt(sorted, i, cursor, start)
    ensures |UnionOf(sorted[..i + 1])| == |UnionOf(sorted[..i])| + Max(0, sorted[i].end - Max(cursor, sorted[i].start))
  {
    var before, x := UnionOf(sorted[..i]), sorted[i];
    var next := Max(cursor, x.start);
    assert sorted[..i + 1][..i] == sorted[..i];
    NothingFromCursor(sorted, i, cursor);
    CoveredUpToCursor(sorted, i, cursor, start);
    var added := Instants(next, x.end);
    assert before + Instants(x.start, x.end) == before + added;
    assert before !! added;
    if next <= x.end {
      InstantsCount(next, x.end);
    } else {
      assert added == {};
    }
  }

  lemma NothingFromCursor(sorted: seq<Interval>, i: nat, cursor: int)
    requires i <= |sorted|
    requires forall j :: 0 <= j < i ==> sorted[j].end <= cursor
    ensures forall t :: t in UnionOf(sorted[..i]) ==> t < cursor
  {
    UnionMembers(sorted[..i]);
  }

  lemma CoveredUpToCursor(sorted: seq<Interval>, i: nat, cursor: int, start: int)
    requires i < |sorted| && SortedByStart(sorted) && start <= sorted[i].start
    requires cursor == start || exists j :: 0 <= j < i && sorted[j].end == cursor
    ensures Instants(sorted[i].start, cursor) <= UnionOf(sorted[..i])
  {
    UnionMembers(sorted[..i]);
    if cursor != start {
      var j :| 0 <= j < i && sorted[j].end == cursor;
      assert sorted[j] in sorted[..i];
    }
  }

  lemma ClippedUnion(sorted: seq<Interval>, spans: seq<Span>, start: int, end: int)
    requires forall x :: x in sorted <==> exists span :: span in spans && ClipOf(span, start, end) == x && x.start < x.end
    requires forall t :: t in UnionOf(sorted) <==> exists x :: x in sorted && x.start <= t < x.end
    ensures UnionOf(sorted) == Busy(spans, start, end)
  {
    forall t | t in Busy(spans, start, end)
      ensures t in UnionOf(sorted)
    {
      var span :| span in spans && span.start <= t < span.end;
      var x := ClipOf(span, start, end);
      assert x in sorted && x.start <= t < x.end;
    }
    forall t | t in UnionOf(sorted)
      ensures t in Busy(spans, start, end)
    {
      var x :| x in sorted && x.start <= t < x.end;
      var span :| span in spans && ClipOf(span, start, end) == x;
    }
  }

  /** The measure never exceeds the lag and reaches it only when every instant of it is covered. */
  lemma OverlapWithinLag(spans: seq<Span>, start: int, end: int)
    requires start <= end
    ensures |Busy(spans, start, end)| <= end - start
    ensures |Busy(spans, start, end)| == end - start <==>
              forall t :: start <= t < end ==> CoveredAt(t, spans)
  {
    InstantsCount(start, end);
    var busy, all := Busy(spans, start, end), Instants(start, end);
    assert all == busy + (all - busy);
    if |busy| == end - start {
      assert all - busy == {};
      forall t | start <= t < end
        ensures CoveredAt(t, spans)
      {
        assert t in all;
      }
    }
    if forall t :: start <= t < end ==> CoveredAt(t, spans) {
      assert busy == all;
    }
  }
}
