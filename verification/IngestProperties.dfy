// What ingestion keeps over whole histories
// (src/market_data_service/application/ingest.py, import_window.py).

module IngestProperties {
  import opened Optional
  import opened Grid
  import opened Windows
  import opened Streams
  import opened DecimalText
  import opened Ingest

  // ---- The cached latest open time ----

  /** The cached value is the greatest stored open time, absent exactly when nothing is stored. */
  ghost predicate LatestAgrees(table: Table)
  {
    && (table.latest.None? <==> table.candles.Keys == {})
    && (table.latest.Some? ==>
          table.latest.value in table.candles && forall t :: t in table.candles ==> t <= table.latest.value)
  }

  datatype Operation =
    | Live(candle: ObservedCandle)
    | Window(stream: StreamKey, window: TimeWindow, batch: seq<ObservedCandle>)

  /** What one call of CanonicalStorage does to the tables. */
  function Apply(tables: map<StreamKey, Table>, op: Operation): map<StreamKey, Table>
  {
    match op
    case Live(c) => if c.stream in tables then tables[c.stream := IngestInto(tables[c.stream], c).0] else tables
    case Window(s, w, batch) => if s in tables then tables[s := ImportInto(tables[s], s, w, batch).0] else tables
  }

  function ApplyAll(tables: map<StreamKey, Table>, ops: seq<Operation>): map<StreamKey, Table>
  {
    if ops == [] then tables else ApplyAll(Apply(tables, ops[0]), ops[1..])
  }

  lemma PutKeepsLatest(table: Table, c: ObservedCandle)
    requires LatestAgrees(table)
    ensures LatestAgrees(Put(table, c))
  {
    var after := Put(table, c);
    assert after.candles.Keys == table.candles.Keys + {c.openTime};
    assert c.openTime in after.candles.Keys;
  }

  lemma IngestKeepsLatest(table: Table, c: ObservedCandle)
    requires LatestAgrees(table)
    ensures LatestAgrees(IngestInto(table, c).0)
  {
    PutKeepsLatest(table, c);
    PutKeepsLatest(table.(quarantine := table.quarantine + [CorrectionDetected(c.openTime)]), c);
  }

  lemma {:induction false} ImportKeepsLatest(table: Table, stream: StreamKey, window: TimeWindow, batch: seq<ObservedCandle>)
    requires LatestAgrees(table)
    ensures LatestAgrees(ImportInto(table, stream, window, batch).0)
  {
    if batch != [] {
      var front, last := batch[..|batch| - 1], batch[|batch| - 1];
      ImportKeepsLatest(table, stream, window, front);
      IngestKeepsLatest(ImportInto(table, stream, window, front).0, last);
    }
  }

  /** Over every mix of live and window ingestion of all streams, each cached latest stays the
      maximum of its table. */
  lemma {:induction false} LatestAgreesAlways(tables: map<StreamKey, Table>, ops: seq<Operation>)
    requires forall s :: s in tables ==> LatestAgrees(tables[s])
    ensures ApplyAll(tables, ops).Keys == tables.Keys
    ensures forall s :: s in tables ==> LatestAgrees(ApplyAll(tables, ops)[s])
    decreases |ops|
  {
    if ops != [] {
      var next := Apply(tables, ops[0]);
      match ops[0] {
        case Live(c) =>
          if c.stream in tables {
            IngestKeepsLatest(tables[c.stream], c);
          }
        case Window(s, w, batch) =>
          if s in tables {
            ImportKeepsLatest(tables[s], s, w, batch);
          }
      }
      assert next.Keys == tables.Keys;
      LatestAgreesAlways(next, ops[1..]);
    }
  }

  // ---- REST has the last word ----

  function IngestAll(table: Table, history: seq<ObservedCandle>): Table
  {
    if history == [] then table
    else IngestInto(IngestAll(table, history[..|history| - 1]), history[|history| - 1]).0
  }

  /** The observation whose values a bar has to show: the last valid REST one; without any, what was
      stored before; without that, the first valid one. */
  function Authority(before: Option<Ohlcv>, history: seq<ObservedCandle>, bar: int): Option<Ohlcv>
  {
    if history == [] then before else
      var last := history[|history| - 1];
      var sofar := Authority(before, history[..|history| - 1], bar);
      if IsValid(last) && last.openTime == bar && (last.source == Rest || sofar.None?) then Some(last.values) else sofar
  }

  function StoredValues(table: Table, bar: int): Option<Ohlcv>
  {
    if bar in table.candles then Some(table.candles[bar].values) else None
  }

  ghost predicate SameValues(a: Option<Ohlcv>, b: Option<Ohlcv>)
  {
    (a.Some? <==> b.Some?) && (a.Some? ==> a.value.Text() == b.value.Text())
  }

  /** After any history of observations, valid or not and of any bars, every bar shows its authority. */
  lemma {:induction false} RestHasTheLastWord(table: Table, history: seq<ObservedCandle>, bar: int)
    ensures SameValues(StoredValues(IngestAll(table, history), bar), Authority(StoredValues(table, bar), history, bar))
    decreases |history|
  {
    if history != [] {
      var front, last := history[..|history| - 1], history[|history| - 1];
      RestHasTheLastWord(table, front, bar);
      IngestShows(IngestAll(table, front), last, bar);
    }
  }

  /** What a bar shows after one observation. */
  function Shown(before: Option<Ohlcv>, c: ObservedCandle, bar: int): Option<Ohlcv>
  {
    if IsValid(c) && c.openTime == bar && (c.source == Rest || before.None?) then Some(c.values) else before
  }

  /** The effect on the table: the observation is stored when it is the first of its bar or a REST
      correction, and otherwise nothing is. */
  lemma IngestStores(table: Table, c: ObservedCandle)
    ensures IngestInto(table, c).0.candles
            == if IsValid(c) && (c.openTime !in table.candles
                                 || (c.source == Rest && table.candles[c.openTime].values.Text() != c.values.Text()))
               then table.candles[c.openTime := CanonicalCandle(c.values, c.source)] else table.candles
  {
    if IsValid(c) && c.openTime in table.candles {
      assert Lookup(table, c.openTime) == Some(table.candles[c.openTime]);
    }
  }

  lemma IngestShows(table: Table, c: ObservedCandle, bar: int)
    ensures SameValues(StoredValues(IngestInto(table, c).0, bar), Shown(StoredValues(table, bar), c, bar))
  {
    IngestStores(table, c);
    var after := IngestInto(table, c).0;
    if c.openTime != bar || !IsValid(c) {
      assert StoredValues(after, bar) == StoredValues(table, bar);
    } else if bar !in table.candles {
      assert StoredValues(after, bar) == Some(c.values);
    } else if c.source != Rest || table.candles[bar].values.Text() == c.values.Text() {
      assert after.candles == table.candles;
    } else {
      assert StoredValues(after, bar) == Some(c.values);
    }
  }

  // ---- Over every mix of live and window ingestion ----

  function ExpectedOf(batch: seq<ObservedCandle>, stream: StreamKey, window: TimeWindow): seq<ObservedCandle>
  {
    if batch == [] then [] else
      var last := batch[|batch| - 1];
      ExpectedOf(batch[..|batch| - 1], stream, window) + if Expected(last, stream, window) then [last] else []
  }

  /** What one operation observes of a stream. */
  function ObservedBy(op: Operation, stream: StreamKey): seq<ObservedCandle>
  {
    match op
    case Live(c) => if c.stream == stream then [c] else []
    case Window(s, w, batch) => if s == stream then ExpectedOf(batch, s, w) else []
  }

  function Observations(ops: seq<Operation>, stream: StreamKey): seq<ObservedCandle>
  {
    if ops == [] then [] else ObservedBy(ops[0], stream) + Observations(ops[1..], stream)
  }

  /** Only the candles of a table decide what ingestion does to them. */
  lemma {:induction false} CandlesDecide(a: Table, b: Table, history: seq<ObservedCandle>)
    requires a.candles == b.candles
    ensures IngestAll(a, history).candles == IngestAll(b, history).candles
    decreases |history|
  {
    if history != [] {
      var front, last := history[..|history| - 1], history[|history| - 1];
      CandlesDecide(a, b, front);
      IngestStores(IngestAll(a, front), last);
      IngestStores(IngestAll(b, front), last);
    }
  }

  lemma {:induction false} IngestAllTwice(table: Table, first: seq<ObservedCandle>, second: seq<ObservedCandle>)
    ensures IngestAll(table, first + second) == IngestAll(IngestAll(table, first), second)
    decreases |second|
  {
    if second == [] {
      assert first + second == first;
    } else {
      var front, last := second[..|second| - 1], second[|second| - 1];
      assert (first + second)[..|first + second| - 1] == first + front;
      IngestAllTwice(table, first, front);
    }
  }

  lemma IngestOneMore(table: Table, history: seq<ObservedCandle>, c: ObservedCandle)
    ensures IngestAll(table, history + [c]) == IngestInto(IngestAll(table, history), c).0
  {
    assert (history + [c])[..|history|] == history;
  }

  /** A window import does to the candles what its expected rows do one by one. */
  lemma {:induction false} ImportIsItsRows(table: Table, stream: StreamKey, window: TimeWindow, batch: seq<ObservedCandle>)
    ensures ImportInto(table, stream, window, batch).0.candles == IngestAll(table, ExpectedOf(batch, stream, window)).candles
    decreases |batch|
  {
    if batch != [] {
      var front, last := batch[..|batch| - 1], batch[|batch| - 1];
      ImportIsItsRows(table, stream, window, front);
      if Expected(last, stream, window) {
        IngestOneMore(table, ExpectedOf(front, stream, window), last);
        IngestStores(ImportInto(table, stream, window, front).0, last);
        IngestStores(IngestAll(table, ExpectedOf(front, stream, window)), last);
      } else {
        assert ExpectedOf(front, stream, window) + [] == ExpectedOf(front, stream, window);
      }
    }
  }

  lemma OneOperation(tables: map<StreamKey, Table>, op: Operation, stream: StreamKey)
    requires stream in tables
    ensures stream in Apply(tables, op)
    ensures Apply(tables, op)[stream].candles == IngestAll(tables[stream], ObservedBy(op, stream)).candles
  {
    match op
    case Live(c) =>
      if c.stream == stream {
        IngestOneMore(tables[stream], [], c);
        assert [] + [c] == [c];
      }
    case Window(s, w, batch) =>
      if s == stream {
        ImportIsItsRows(tables[stream], s, w, batch);
      }
  }

  lemma {:induction false} OperationsAreObservations(tables: map<StreamKey, Table>, ops: seq<Operation>, stream: StreamKey)
    requires stream in tables
    ensures stream in ApplyAll(tables, ops)
    ensures ApplyAll(tables, ops)[stream].candles == IngestAll(tables[stream], Observations(ops, stream)).candles
    decreases |ops|
  {
    if ops != [] {
      var next := Apply(tables, ops[0]);
      OneOperation(tables, ops[0], stream);
      OperationsAreObservations(next, ops[1..], stream);
      CandlesDecide(next[stream], IngestAll(tables[stream], ObservedBy(ops[0], stream)), Observations(ops[1..], stream));
      IngestAllTwice(tables[stream], ObservedBy(ops[0], stream), Observations(ops[1..], stream));
    }
  }

  /** After any mix of live observations and window imports of any streams, every bar shows its
      authority among what was observed of its stream. */
  lemma RestHasTheLastWordAlways(tables: map<StreamKey, Table>, ops: seq<Operation>, stream: StreamKey, bar: int)
    requires stream in tables
    ensures stream in ApplyAll(tables, ops)
    ensures SameValues(StoredValues(ApplyAll(tables, ops)[stream], bar),
                       Authority(StoredValues(tables[stream], bar), Observations(ops, stream), bar))
  {
    OperationsAreObservations(tables, ops, stream);
    RestHasTheLastWord(tables[stream], Observations(ops, stream), bar);
  }

  predicate RestFor(c: ObservedCandle, bar: int) { IsValid(c) && c.openTime == bar && c.source == Rest }

  predicate ValidFor(c: ObservedCandle, bar: int) { IsValid(c) && c.openTime == bar }

  /** The authority said without recursion: a REST observation nothing of REST follows, or, when no
      REST observation exists and nothing was stored, an observation nothing precedes. */
  lemma {:induction false} AuthorityIsLastRestElseFirst(before: Option<Ohlcv>, history: seq<ObservedCandle>, bar: int, i: nat)
    requires i < |history| && ValidFor(history[i], bar)
    requires (history[i].source == Rest && forall j :: i < j < |history| ==> !RestFor(history[j], bar))
             || (before.None?
                 && (forall j :: 0 <= j < |history| ==> !RestFor(history[j], bar))
                 && (forall j :: 0 <= j < i ==> !ValidFor(history[j], bar)))
    ensures Authority(before, history, bar) == Some(history[i].values)
    decreases |history|
  {
    var front, last := history[..|history| - 1], history[|history| - 1];
    if i < |front| {
      assert forall j :: 0 <= j < |front| ==> front[j] == history[j];
      AuthorityIsLastRestElseFirst(before, front, bar, i);
      assert !RestFor(last, bar);
    } else if history[i].source != Rest {
      assert forall j :: 0 <= j < |front| ==> front[j] == history[j];
      NoAuthority(front, bar);
    }
  }

  lemma {:induction false} NoAuthority(history: seq<ObservedCandle>, bar: int)
    requires forall j :: 0 <= j < |history| ==> !ValidFor(history[j], bar)
    ensures Authority(None, history, bar) == None
    decreases |history|
  {
    if history != [] {
      NoAuthority(history[..|history| - 1], bar);
      assert !ValidFor(history[|history| - 1], bar);
    }
  }

  // ---- Importing the same window again ----

  predicate Accepted(c: ObservedCandle, stream: StreamKey, window: TimeWindow)
  {
    Expected(c, stream, window) && IsValid(c)
  }

  predicate Shows(table: Table, c: ObservedCandle)
  {
    c.openTime in table.candles && table.candles[c.openTime].values.Text() == c.values.Text()
  }

  /** The fetched batch contradicts itself: two acceptable rows for one bar with different numbers. */
  ghost predicate Conflicting(batch: seq<ObservedCandle>, stream: StreamKey, window: TimeWindow)
  {
    exists i, j :: 0 <= i < j < |batch| && Accepted(batch[i], stream, window) && Accepted(batch[j], stream, window)
                   && batch[i].openTime == batch[j].openTime && batch[i].values.Text() != batch[j].values.Text()
  }

  ghost predicate AllShown(table: Table, batch: seq<ObservedCandle>, stream: StreamKey, window: TimeWindow)
  {
    forall c :: c in batch && Accepted(c, stream, window) ==> Shows(table, c)
  }

  lemma IngestShowsItself(table: Table, c: ObservedCandle)
    requires IsValid(c) && c.source == Rest
    ensures Shows(IngestInto(table, c).0, c)
    ensures Shows(table, c) ==> IngestInto(table, c) == (table, Duplicate)
    ensures !Shows(table, c) ==> IngestInto(table, c).1.Committed? || IngestInto(table, c).1.Corrected?
    ensures c.openTime in table.candles ==> !IngestInto(table, c).1.Committed?
  {
  }

  lemma IngestKeepsOthers(table: Table, c: ObservedCandle, other: ObservedCandle)
    requires Shows(table, other)
    requires IsValid(c) && c.openTime == other.openTime ==> c.values.Text() == other.values.Text()
    ensures Shows(IngestInto(table, c).0, other)
  {
  }

  lemma ImportOneKeeps(sofar: (Table, Counts), stream: StreamKey, window: TimeWindow, c: ObservedCandle, other: ObservedCandle)
    requires Shows(sofar.0, other)
    requires Accepted(c, stream, window) && c.openTime == other.openTime ==> c.values.Text() == other.values.Text()
    ensures Shows(ImportOne(sofar, stream, window, c).0, other)
  {
    if Expected(c, stream, window) {
      IngestKeepsOthers(sofar.0, c, other);
    }
  }

  lemma NoConflictWithLast(batch: seq<ObservedCandle>, stream: StreamKey, window: TimeWindow, c: ObservedCandle)
    requires batch != [] && !Conflicting(batch, stream, window)
    requires c in batch[..|batch| - 1] && Accepted(c, stream, window)
    ensures var last := batch[|batch| - 1];
            Accepted(last, stream, window) && last.openTime == c.openTime ==> last.values.Text() == c.values.Text()
  {
    var i :| 0 <= i < |batch| - 1 && batch[i] == c;
  }

  lemma FrontNotConflicting(batch: seq<ObservedCandle>, stream: StreamKey, window: TimeWindow)
    requires batch != [] && !Conflicting(batch, stream, window)
    ensures !Conflicting(batch[..|batch| - 1], stream, window)
  {
  }

  /** A batch without contradictions leaves every accepted row visible. */
  lemma {:induction false} ImportShowsAll(table: Table, stream: StreamKey, window: TimeWindow, batch: seq<ObservedCandle>)
    requires forall c :: c in batch ==> c.source == Rest
    requires !Conflicting(batch, stream, window)
    ensures AllShown(ImportInto(table, stream, window, batch).0, batch, stream, window)
    decreases |batch|
  {
    if batch != [] {
      var front, last := batch[..|batch| - 1], batch[|batch| - 1];
      FrontNotConflicting(batch, stream, window);
      ImportShowsAll(table, stream, window, front);
      var before := ImportInto(table, stream, window, front).0;
      var after := ImportInto(table, stream, window, batch).0;
      forall c | c in batch && Accepted(c, stream, window)
        ensures Shows(after, c)
      {
        if c == last {
          IngestShowsItself(before, last);
        } else {
          assert c in front;
          NoConflictWithLast(batch, stream, window, c);
          ImportOneKeeps(ImportInto(table, stream, window, front), stream, window, last, c);
        }
      }
    }
  }

  /** Every accepted bar is stored after the import, whatever the batch says about it twice. */
  lemma {:induction false} ImportStoresBars(table: Table, stream: StreamKey, window: TimeWindow, batch: seq<ObservedCandle>)
    ensures table.candles.Keys <= ImportInto(table, stream, window, batch).0.candles.Keys
    ensures forall c :: c in batch && Accepted(c, stream, window) ==> c.openTime in ImportInto(table, stream, window, batch).0.candles
    decreases |batch|
  {
    if batch != [] {
      var front, last := batch[..|batch| - 1], batch[|batch| - 1];
      ImportStoresBars(table, stream, window, front);
      IngestStoresBar(ImportInto(table, stream, window, front).0, last);
    }
  }

  lemma IngestStoresBar(table: Table, c: ObservedCandle)
    ensures table.candles.Keys <= IngestInto(table, c).0.candles.Keys
    ensures IsValid(c) ==> c.openTime in IngestInto(table, c).0.candles
  {
  }

  /** An import over bars that are all stored commits nothing, and corrects nothing exactly when every
      accepted row already shows. */
  lemma {:induction false} ImportOverStored(table: Table, stream: StreamKey, window: TimeWindow, batch: seq<ObservedCandle>)
    requires forall c :: c in batch ==> c.source == Rest
    requires forall c :: c in batch && Accepted(c, stream, window) ==> c.openTime in table.candles
    ensures ImportInto(table, stream, window, batch).1.committed == 0
    ensures ImportInto(table, stream, window, batch).1.corrected == 0 <==> AllShown(table, batch, stream, window)
    ensures AllShown(table, batch, stream, window) ==> ImportInto(table, stream, window, batch).0.candles == table.candles
    decreases |batch|
  {
    if batch != [] {
      var front, last := batch[..|batch| - 1], batch[|batch| - 1];
      ImportOverStored(table, stream, window, front);
      ImportStoresBars(table, stream, window, front);
      AllShownSplit(table, batch, stream, window);
      ImportOneOverStored(ImportInto(table, stream, window, front), stream, window, last);
    }
  }

  lemma AllShownSplit(table: Table, batch: seq<ObservedCandle>, stream: StreamKey, window: TimeWindow)
    requires batch != []
    ensures AllShown(table, batch, stream, window) <==>
              && AllShown(table, batch[..|batch| - 1], stream, window)
              && (Accepted(batch[|batch| - 1], stream, window) ==> Shows(table, batch[|batch| - 1]))
  {
    assert forall c :: c in batch <==> c in batch[..|batch| - 1] || c == batch[|batch| - 1];
  }

  lemma ImportOneOverStored(sofar: (Table, Counts), stream: StreamKey, window: TimeWindow, c: ObservedCandle)
    requires c.source == Rest && (Accepted(c, stream, window) ==> c.openTime in sofar.0.candles)
    ensures var after := ImportOne(sofar, stream, window, c);
            && after.1.committed == sofar.1.committed
            && (if Accepted(c, stream, window) && !Shows(sofar.0, c) then after.1.corrected == sofar.1.corrected + 1
                else after.1.corrected == sofar.1.corrected && after.0.candles == sofar.0.candles)
  {
    if Accepted(c, stream, window) {
      IngestShowsItself(sofar.0, c);
    }
  }

  /** Importing an unchanged window a second time commits nothing; it corrects nothing exactly when
      the fetched batch does not contradict itself. */
  lemma ReimportIsQuietExactlyWhenConsistent(table: Table, stream: StreamKey, window: TimeWindow, batch: seq<ObservedCandle>)
    requires forall c :: c in batch ==> c.source == Rest
    ensures var first := ImportInto(table, stream, window, batch).0;
            var again := ImportInto(first, stream, window, batch);
            && again.1.committed == 0
            && (again.1.corrected == 0 <==> !Conflicting(batch, stream, window))
            && (!Conflicting(batch, stream, window) ==> again.0.candles == first.candles)
  {
    var first := ImportInto(table, stream, window, batch).0;
    ImportStoresBars(table, stream, window, batch);
    ImportOverStored(first, stream, window, batch);
    if !Conflicting(batch, stream, window) {
      ImportShowsAll(table, stream, window, batch);
    }
    ContradictionNotShown(first, batch, stream, window);
  }

  lemma ContradictionNotShown(table: Table, batch: seq<ObservedCandle>, stream: StreamKey, window: TimeWindow)
    ensures Conflicting(batch, stream, window) ==> !AllShown(table, batch, stream, window)
  {
    if Conflicting(batch, stream, window) {
      var i, j :| 0 <= i < j < |batch| && Accepted(batch[i], stream, window) && Accepted(batch[j], stream, window)
                  && batch[i].openTime == batch[j].openTime && batch[i].values.Text() != batch[j].values.Text();
      assert batch[i] in batch && batch[j] in batch;
    }
  }
}
