// What a fetch of candles delivers: one row per open time, in order
// (src/market_data_service/adapters/bybit/kline_parser.py).

module KlineRows {
  import opened Windows
  import opened Streams
  import opened Ingest
  import opened IngestProperties

  ghost predicate Ordered(rows: seq<ObservedCandle>)
  {
    forall i, j :: 0 <= i < j < |rows| ==> rows[i].openTime < rows[j].openTime
  }

  /** Put a row in its place; it replaces the one of the same open time. */
  function Insert(rows: seq<ObservedCandle>, c: ObservedCandle): (after: seq<ObservedCandle>)
    requires Ordered(rows)
    ensures Ordered(after)
    ensures forall x :: x in after <==> x == c || (x in rows && x.openTime != c.openTime)
  {
    if rows == [] then [c] else
      var front, last := rows[..|rows| - 1], rows[|rows| - 1];
      assert rows == front + [last];
      if last.openTime < c.openTime then rows + [c]
      else if last.openTime == c.openTime then front + [c]
      else Insert(front, c) + [last]
  }

  function Parsed(rows: seq<ObservedCandle>, window: TimeWindow): (parsed: seq<ObservedCandle>)
    ensures Ordered(parsed)
  {
    if rows == [] then [] else
      var before := Parsed(rows[..|rows| - 1], window);
      var last := rows[|rows| - 1];
      if window.Contains(last.openTime) then Insert(before, last) else before
  }

  /** Rows outside the requested window are dropped, and of two rows for one open time the later stays. */
  method ParseKlineRows(rows: seq<ObservedCandle>, window: TimeWindow) returns (candles: seq<ObservedCandle>)
    ensures Ordered(candles)
    ensures forall c :: c in candles <==> exists i: nat :: KeptAt(rows, i, window, c)
  {
    candles := [];
    for i := 0 to |rows|
      invariant candles == Parsed(rows[..i], window)
    {
      assert rows[..i + 1][..i] == rows[..i];
      if window.Contains(rows[i].openTime) {
        candles := Insert(candles, rows[i]);
      }
    }
    assert rows[..|rows|] == rows;
    forall c
      ensures c in candles <==> exists i: nat :: KeptAt(rows, i, window, c)
    {
      ParsedKeepsLast(rows, window, c);
    }
  }

  predicate LastOfItsTime(rows: seq<ObservedCandle>, i: nat, window: TimeWindow)
    requires i < |rows|
  {
    window.Contains(rows[i].openTime) && forall j :: i < j < |rows| ==> rows[j].openTime != rows[i].openTime
  }

  /** Row i is the one kept for c. */
  predicate KeptAt(rows: seq<ObservedCandle>, i: nat, window: TimeWindow, c: ObservedCandle)
  {
    i < |rows| && rows[i] == c && LastOfItsTime(rows, i, window)
  }

  lemma KeptOfFront(rows: seq<ObservedCandle>, i: nat, window: TimeWindow, c: ObservedCandle)
    requires i < |rows| - 1
    ensures var last := rows[|rows| - 1];
            KeptAt(rows, i, window, c) <==> KeptAt(rows[..|rows| - 1], i, window, c) && last.openTime != c.openTime
  {
    var front := rows[..|rows| - 1];
    assert forall j :: 0 <= j < |front| ==> front[j] == rows[j];
  }

  lemma {:induction false} ParsedKeepsLast(rows: seq<ObservedCandle>, window: TimeWindow, c: ObservedCandle)
    ensures c in Parsed(rows, window) <==> exists i: nat :: KeptAt(rows, i, window, c)
    decreases |rows|
  {
    if rows != [] {
      var n := |rows| - 1;
      var front, last := rows[..n], rows[n];
      ParsedKeepsLast(front, window, c);
      assert c in Parsed(rows, window)
             <==> if window.Contains(last.openTime) then c == last || (c in Parsed(front, window) && c.openTime != last.openTime)
                  else c in Parsed(front, window);
      if c == last && window.Contains(last.openTime) {
        assert KeptAt(rows, n, window, c);
      } else if window.Contains(c.openTime) && c.openTime == last.openTime {
        assert !KeptAt(rows, n, window, c);
        forall i: nat
          ensures !KeptAt(rows, i, window, c)
        {
          if i < n {
            KeptOfFront(rows, i, window, c);
          }
        }
      } else {
        KeptInFront(rows, front, window, c);
      }
    }
  }

  lemma KeptInFront(rows: seq<ObservedCandle>, front: seq<ObservedCandle>, window: TimeWindow, c: ObservedCandle)
    requires rows != [] && front == rows[..|rows| - 1] && !(window.Contains(c.openTime) && c.openTime == rows[|rows| - 1].openTime)
    ensures (exists i: nat :: KeptAt(rows, i, window, c)) <==> exists i: nat :: KeptAt(front, i, window, c)
  {
    if i: nat :| KeptAt(rows, i, window, c) {
      KeptOfFront(rows, i, window, c);
      assert KeptAt(front, i, window, c);
    }
    if i: nat :| KeptAt(front, i, window, c) {
      KeptOfFront(rows, i, window, c);
      assert KeptAt(rows, i, window, c);
    }
  }

  /** Rows with distinct open times cannot contradict each other, whatever window they are held to. */
  lemma OrderedNeverConflicts(batch: seq<ObservedCandle>, stream: StreamKey, window: TimeWindow)
    requires Ordered(batch)
    ensures !Conflicting(batch, stream, window)
  {
  }

  /** Importing an unchanged fetch again commits and corrects nothing and leaves the candles as they are. */
  lemma FetchedReimportIsQuiet(table: Table, stream: StreamKey, window: TimeWindow, rows: seq<ObservedCandle>)
    requires forall c :: c in rows ==> c.source == Rest
    ensures var batch := Parsed(rows, window);
            var first := ImportInto(table, stream, window, batch).0;
            var again := ImportInto(first, stream, window, batch);
            again.1.committed == 0 && again.1.corrected == 0 && again.0.candles == first.candles
  {
    var batch := Parsed(rows, window);
    forall c | c in batch
      ensures c.source == Rest
    {
      ParsedKeepsLast(rows, window, c);
      var i: nat :| KeptAt(rows, i, window, c);
    }
    OrderedNeverConflicts(batch, stream, window);
    ReimportIsQuietExactlyWhenConsistent(table, stream, window, batch);
  }
}
