// Importing a fetched window, seen from repair and backfill: which bars the table gains
// (src/market_data_service/application/import_window.py, ingest.py, repair_gaps.py, backfill_stream.py).

module ImportRefinement {
  import opened Grid
  import opened Windows
  import opened Streams
  import opened Ingest
  import opened IngestProperties
  import Repair

  /** The bars a fetched batch delivers: those of its acceptable rows. */
  function BarsOf(batch: seq<ObservedCandle>, stream: StreamKey, window: TimeWindow): set<int>
  {
    if batch == [] then {} else
      var last := batch[|batch| - 1];
      BarsOf(batch[..|batch| - 1], stream, window) + if Accepted(last, stream, window) then {last.openTime} else {}
  }

  lemma OneRow(table: Table, c: ObservedCandle)
    ensures var (after, classification) := IngestInto(table, c);
            && after.candles.Keys == table.candles.Keys + (if IsValid(c) then {c.openTime} else {})
            && (classification == Committed <==> IsValid(c) && c.openTime !in table.candles)
  {
  }

  lemma Grows(bars: set<int>, bar: int)
    ensures |bars + {bar}| == |bars| + if bar in bars then 0 else 1
  {
    if bar in bars {
      assert bars + {bar} == bars;
    }
  }

  /** One imported row. */
  lemma OneRowImported(sofar: (Table, Counts), stream: StreamKey, window: TimeWindow, c: ObservedCandle)
    ensures var (after, counts) := ImportOne(sofar, stream, window, c);
            && after.candles.Keys == sofar.0.candles.Keys + (if Accepted(c, stream, window) then {c.openTime} else {})
            && counts.committed - sofar.1.committed == |after.candles.Keys| - |sofar.0.candles.Keys|
  {
    if Expected(c, stream, window) {
      OneRow(sofar.0, c);
      Grows(sofar.0.candles.Keys, c.openTime);
    }
  }

  /** Conservation: the table gains exactly the accepted bars it did not have, and that is the number
      of rows reported as committed, whatever the batch repeats or contradicts. */
  lemma {:induction false} ImportGainsItsBars(table: Table, stream: StreamKey, window: TimeWindow, batch: seq<ObservedCandle>)
    ensures var (after, counts) := ImportInto(table, stream, window, batch);
            && after.candles.Keys == table.candles.Keys + BarsOf(batch, stream, window)
            && counts.committed == |after.candles.Keys| - |table.candles.Keys|
  {
    if batch != [] {
      var front, last := batch[..|batch| - 1], batch[|batch| - 1];
      ImportGainsItsBars(table, stream, window, front);
      var sofar := ImportInto(table, stream, window, front);
      OneRowImported(sofar, stream, window, last);
      var next := ImportOne(sofar, stream, window, last);
      var gained := if Accepted(last, stream, window) then {last.openTime} else {};
      Associate(next.0.candles.Keys, sofar.0.candles.Keys, table.candles.Keys, BarsOf(front, stream, window), gained);
      assert ImportInto(table, stream, window, batch) == next;
      assert BarsOf(batch, stream, window) == BarsOf(front, stream, window) + gained;
    }
  }

  lemma Associate(all: set<int>, sofar: set<int>, start: set<int>, before: set<int>, gained: set<int>)
    requires all == sofar + gained && sofar == start + before
    ensures all == start + (before + gained)
  {
  }

  lemma {:induction false} BarsOnGrid(batch: seq<ObservedCandle>, stream: StreamKey, window: TimeWindow)
    ensures BarsOf(batch, stream, window) <= GridPoints(window.start, window.end, stream.Step())
  {
    if batch != [] {
      BarsOnGrid(batch[..|batch| - 1], stream, window);
    }
  }

  /** The table import refines the import that repair and backfill are proved over: its stored bars
      move as theirs do, and it reports the same number of committed bars. */
  lemma ImportRefinesRepair(table: Table, stream: StreamKey, window: TimeWindow, batch: seq<ObservedCandle>)
    ensures var (after, counts) := ImportInto(table, stream, window, batch);
            && after.candles.Keys
               == Repair.Stored(table.candles.Keys, window, BarsOf(batch, stream, window), stream.Step())
            && counts.committed == |after.candles.Keys| - |table.candles.Keys|
  {
    ImportGainsItsBars(table, stream, window, batch);
    BarsOnGrid(batch, stream, window);
  }
}
