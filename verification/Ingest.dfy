// Canonical ingestion of candles: one observation and one fetched window
// (src/market_data_service/application/ingest.py, import_window.py,
//  domain/candle_validation.py, domain/candle_comparison.py).

module Ingest {
  import opened Optional
  import opened Grid
  import opened Windows
  import opened Streams
  import opened DecimalText
  import opened DecimalRoundTrip

  datatype Source = Rest | WebSocket

  datatype Ohlcv = Ohlcv(open: Decimal, high: Decimal, low: Decimal, close: Decimal, volume: Decimal) {
    function Text(): (string, string, string, string, string) {
      (CanonicalText(open), CanonicalText(high), CanonicalText(low), CanonicalText(close), CanonicalText(volume))
    }

    predicate SameNumbers(other: Ohlcv) {
      && SameNumber(open, other.open) && SameNumber(high, other.high) && SameNumber(low, other.low)
      && SameNumber(close, other.close) && SameNumber(volume, other.volume)
    }
  }

  datatype ObservedCandle = ObservedCandle(
    stream: StreamKey, openTime: int, closeTime: int, values: Ohlcv, confirmed: bool, source: Source)

  datatype CanonicalCandle = CanonicalCandle(values: Ohlcv, source: Source)

  datatype Issue = Unconfirmed | NegativeTimestamp | OffGridOpenTime | InvalidCloseTime | InvalidHigh | InvalidLow | NegativeVolume

  datatype Classification = Committed | Duplicate | Corrected | RejectedInvalid | RejectedUnconfigured | RejectedUnconfirmed

  datatype Quarantine = ValidationFailed(openTime: int) | CorrectionDetected(openTime: int) | UnexpectedHistorical(openTime: int)

  /** One stream's candle table with its cached latest open time and quarantine. */
  datatype Table = Table(candles: map<int, CanonicalCandle>, latest: Option<int>, quarantine: seq<Quarantine>)

  function When(condition: bool, issue: Issue): seq<Issue> { if condition then [issue] else [] }

  function Issues(c: ObservedCandle): (issues: seq<Issue>)
  {
    var v := c.values;
    When(!c.confirmed, Unconfirmed)
    + When(c.openTime < 0 || c.closeTime < 0, NegativeTimestamp)
    + When(!OnGrid(c.openTime, c.stream.Step()), OffGridOpenTime)
    + When(c.closeTime != c.openTime + c.stream.Step() - 1, InvalidCloseTime)
    + When(!(AtMost(v.open, v.high) && AtMost(v.close, v.high) && AtMost(v.low, v.high)), InvalidHigh)
    + When(!(AtMost(v.low, v.open) && AtMost(v.low, v.close) && AtMost(v.low, v.high)), InvalidLow)
    + When(!AtMost(ZERO, v.volume), NegativeVolume)
  }

  /** A closed, aligned, internally consistent observation. */
  predicate IsValid(c: ObservedCandle)
  {
    && c.confirmed && 0 <= c.openTime && OnGrid(c.openTime, c.stream.Step())
    && c.closeTime == c.openTime + c.stream.Step() - 1
    && AtMost(c.values.open, c.values.high) && AtMost(c.values.close, c.values.high) && AtMost(c.values.low, c.values.high)
    && AtMost(c.values.low, c.values.open) && AtMost(c.values.low, c.values.close)
    && AtMost(ZERO, c.values.volume)
  }

  lemma NoIssuesMeansValid(c: ObservedCandle)
    ensures Issues(c) == [] <==> IsValid(c)
    ensures Unconfirmed in Issues(c) <==> !c.confirmed
  {
    if !c.confirmed {
      assert Issues(c)[0] == Unconfirmed;
    }
  }

  /** A valid candle is confirmed, fills exactly its bar, keeps every price between low and high and has no
      negative volume. */
  lemma ValidExactlyWhen(c: ObservedCandle)
    ensures IsValid(c) <==>
              && c.confirmed && 0 <= c.openTime && c.openTime % c.stream.Step() == 0 && c.closeTime + 1 - c.openTime == c.stream.Step()
              && (forall price :: price in {c.values.open, c.values.close, c.values.high, c.values.low} ==>
                    AtMost(c.values.low, price) && AtMost(price, c.values.high))
              && (c.values.volume.negative ==> c.values.volume.coefficient == 0)
  {
    NotNegativeExactlyWhen(c.values.volume);
    var v := c.values;
    if forall price :: price in {v.open, v.close, v.high, v.low} ==> AtMost(v.low, price) && AtMost(price, v.high) {
      assert v.open in {v.open, v.close, v.high, v.low} && v.close in {v.open, v.close, v.high, v.low};
      assert v.low in {v.open, v.close, v.high, v.low};
    }
  }

  function ClassifyAgainstExisting(existing: Option<CanonicalCandle>, incoming: ObservedCandle): Classification
  {
    if existing.None? then Committed
    else if existing.value.values.Text() == incoming.values.Text() then Duplicate
    else Corrected
  }

  /** DUPLICATE is numeric equality of all five fields. */
  lemma DuplicateIsNumericEquality(existing: CanonicalCandle, incoming: ObservedCandle)
    ensures ClassifyAgainstExisting(Some(existing), incoming) == Duplicate <==> existing.values.SameNumbers(incoming.values)
    ensures ClassifyAgainstExisting(Some(existing), incoming) == Corrected <==> !existing.values.SameNumbers(incoming.values)
  {
    var a, b := existing.values, incoming.values;
    SameTextExactlyWhenSameNumber(a.open, b.open);
    SameTextExactlyWhenSameNumber(a.high, b.high);
    SameTextExactlyWhenSameNumber(a.low, b.low);
    SameTextExactlyWhenSameNumber(a.close, b.close);
    SameTextExactlyWhenSameNumber(a.volume, b.volume);
  }

  function Lookup(table: Table, openTime: int): Option<CanonicalCandle>
  {
    if openTime in table.candles then Some(table.candles[openTime]) else None
  }

  function AdvanceLatest(latest: Option<int>, openTime: int): Option<int>
  {
    if latest.None? || openTime > latest.value then Some(openTime) else latest
  }

  function Put(table: Table, c: ObservedCandle): Table
  {
    table.(candles := table.candles[c.openTime := CanonicalCandle(c.values, c.source)],
           latest := AdvanceLatest(table.latest, c.openTime))
  }

  /** The canonical decision for one observation of a configured stream. */
  function IngestInto(table: Table, c: ObservedCandle): (Table, Classification)
  {
    if !IsValid(c) then
      (table.(quarantine := table.quarantine + [ValidationFailed(c.openTime)]),
       if c.confirmed then RejectedInvalid else RejectedUnconfirmed)
    else
      var classification := ClassifyAgainstExisting(Lookup(table, c.openTime), c);
      match classification
      case Committed => (Put(table, c), Committed)
      case Corrected =>
        var noted := table.(quarantine := table.quarantine + [CorrectionDetected(c.openTime)]);
        (if c.source == Rest then Put(noted, c) else noted, Corrected)
      case _ => (table, Duplicate)
  }

  /** What one observation of a configured stream comes to. An invalid one is only noted. A valid one is
      committed where nothing is stored, a duplicate where the same five numbers are, and otherwise a
      correction, which is noted and stored only from REST. No other bar changes. */
  lemma IngestSays(table: Table, c: ObservedCandle)
    ensures var (after, classification) := IngestInto(table, c);
            var stored := c.openTime in table.candles;
            var same := stored && table.candles[c.openTime].values.SameNumbers(c.values);
            && (!c.confirmed ==> classification == RejectedUnconfirmed)
            && (c.confirmed && !IsValid(c) ==> classification == RejectedInvalid)
            && (!IsValid(c) ==> after == table.(quarantine := table.quarantine + [ValidationFailed(c.openTime)]))
            && (IsValid(c) && !stored ==>
                  && classification == Committed && after.quarantine == table.quarantine
                  && after.candles == table.candles[c.openTime := CanonicalCandle(c.values, c.source)])
            && (IsValid(c) && same ==> classification == Duplicate && after == table)
            && (IsValid(c) && stored && !same ==>
                  && classification == Corrected && after.quarantine == table.quarantine + [CorrectionDetected(c.openTime)]
                  && after.candles == (if c.source == Rest then table.candles[c.openTime := CanonicalCandle(c.values, Rest)] else table.candles))
  {
    if c.openTime in table.candles {
      DuplicateIsNumericEquality(table.candles[c.openTime], c);
    }
  }

  // ---- Importing one window ----

  datatype Counts = Counts(
    committed: nat, duplicates: nat, corrected: nat, invalid: nat, unconfirmed: nat, unconfigured: nat, unexpected: nat)
  {
    function Add(c: Classification): Counts {
      match c
      case Committed => this.(committed := committed + 1)
      case Duplicate => this.(duplicates := duplicates + 1)
      case Corrected => this.(corrected := corrected + 1)
      case RejectedInvalid => this.(invalid := invalid + 1)
      case RejectedUnconfirmed => this.(unconfirmed := unconfirmed + 1)
      case RejectedUnconfigured => this.(unconfigured := unconfigured + 1)
    }

    function Rejected(): nat { invalid + unconfirmed + unconfigured }

    function Total(): nat { committed + duplicates + corrected + Rejected() + unexpected }
  }

  const NO_COUNTS := Counts(0, 0, 0, 0, 0, 0, 0)

  predicate Expected(c: ObservedCandle, stream: StreamKey, window: TimeWindow)
  {
    c.stream == stream && window.Contains(c.openTime)
  }

  function ImportOne(sofar: (Table, Counts), stream: StreamKey, window: TimeWindow, c: ObservedCandle): (Table, Counts)
  {
    var (table, counts) := sofar;
    if !Expected(c, stream, window) then
      (table.(quarantine := table.quarantine + [UnexpectedHistorical(c.openTime)]),
       counts.(unexpected := counts.unexpected + 1))
    else
      var (after, classification) := IngestInto(table, c);
      (after, counts.Add(classification))
  }

  /** Import of a fetched batch, observation by observation, into the stream's table. */
  function ImportInto(table: Table, stream: StreamKey, window: TimeWindow, batch: seq<ObservedCandle>): (Table, Counts)
  {
    if batch == [] then (table, NO_COUNTS)
    else ImportOne(ImportInto(table, stream, window, batch[..|batch| - 1]), stream, window, batch[|batch| - 1])
  }

  lemma ImportAppend(table: Table, stream: StreamKey, window: TimeWindow, batch: seq<ObservedCandle>, i: nat)
    requires i < |batch|
    ensures ImportInto(table, stream, window, batch[..i + 1])
            == ImportOne(ImportInto(table, stream, window, batch[..i]), stream, window, batch[i])
  {
    assert batch[..i + 1][..i] == batch[..i];
  }

  lemma AddCountsOne(counts: Counts, c: Classification)
    ensures counts.Add(c).Total() == counts.Total() + 1
  {
  }

  /** Conservation: the seven counts of an import add up to what was fetched. */
  lemma {:induction false} EveryObservationCounted(table: Table, stream: StreamKey, window: TimeWindow, batch: seq<ObservedCandle>)
    ensures ImportInto(table, stream, window, batch).1.Total() == |batch|
  {
    if batch != [] {
      var front, last := batch[..|batch| - 1], batch[|batch| - 1];
      EveryObservationCounted(table, stream, window, front);
      var sofar := ImportInto(table, stream, window, front);
      if Expected(last, stream, window) {
        AddCountsOne(sofar.1, IngestInto(sofar.0, last).1);
      }
    }
  }

  /** How many rows of a batch were for another stream or window, invalid, unconfirmed, or accepted. */
  datatype Tally = Tally(unexpected: nat, invalid: nat, unconfirmed: nat, accepted: nat)

  function TallyOf(batch: seq<ObservedCandle>, stream: StreamKey, window: TimeWindow): Tally
  {
    if batch == [] then Tally(0, 0, 0, 0) else
      var t, c := TallyOf(batch[..|batch| - 1], stream, window), batch[|batch| - 1];
      if c.stream != stream || c.openTime < window.start || window.end <= c.openTime then t.(unexpected := t.unexpected + 1)
      else if !c.confirmed then t.(unconfirmed := t.unconfirmed + 1)
      else if !IsValid(c) then t.(invalid := t.invalid + 1)
      else t.(accepted := t.accepted + 1)
  }

  /** Each count of an import is that of the rows it stands for. */
  lemma {:induction false} CountsSayWhatHappened(table: Table, stream: StreamKey, window: TimeWindow, batch: seq<ObservedCandle>)
    ensures var counts, tally := ImportInto(table, stream, window, batch).1, TallyOf(batch, stream, window);
            && counts.unexpected == tally.unexpected && counts.invalid == tally.invalid
            && counts.unconfirmed == tally.unconfirmed && counts.unconfigured == 0
            && counts.committed + counts.duplicates + counts.corrected == tally.accepted
  {
    if batch != [] {
      var front, last := batch[..|batch| - 1], batch[|batch| - 1];
      CountsSayWhatHappened(table, stream, window, front);
      IngestSays(ImportInto(table, stream, window, front).0, last);
    }
  }

  datatype ImportResult = ImportResult(observed: nat, counts: Counts)

  class CanonicalStorage {
    var tables: map<StreamKey, Table>

    constructor (streams: set<StreamKey>)
      ensures tables == map s | s in streams :: Table(map[], None, [])
    {
      tables := map s | s in streams :: Table(map[], None, []);
    }

    /** Validate, classify and persist one observation; an unconfigured stream is refused untouched. */
    method IngestCandle(c: ObservedCandle) returns (classification: Classification)
      modifies this
      ensures c.stream !in old(tables) ==> classification == RejectedUnconfigured && tables == old(tables)
      ensures c.stream in old(tables) ==>
                && classification == IngestInto(old(tables)[c.stream], c).1
                && tables == old(tables)[c.stream := IngestInto(old(tables)[c.stream], c).0]
    {
      var issues := Issues(c);
      NoIssuesMeansValid(c);
      if c.stream !in tables {
        return RejectedUnconfigured;
      }
      var table := tables[c.stream];
      if issues != [] {
        tables := tables[c.stream := table.(quarantine := table.quarantine + [ValidationFailed(c.openTime)])];
        return if Unconfirmed in issues then RejectedUnconfirmed else RejectedInvalid;
      }
      classification := ClassifyAgainstExisting(Lookup(table, c.openTime), c);
      if classification == Committed {
        table := Put(table, c);
      } else if classification == Corrected {
        table := table.(quarantine := table.quarantine + [CorrectionDetected(c.openTime)]);
        if c.source == Rest {
          table := Put(table, c);
        }
      }
      tables := tables[c.stream := table];
    }

    /** Ingest everything a fetch returned for one window; what was not asked for is only quarantined. */
    method ImportWindow(stream: StreamKey, window: TimeWindow, batch: seq<ObservedCandle>) returns (result: ImportResult)
      requires stream in tables && window.Valid()
      modifies this
      ensures result == ImportResult(|batch|, ImportInto(old(tables)[stream], stream, window, batch).1)
      ensures tables == old(tables)[stream := ImportInto(old(tables)[stream], stream, window, batch).0]
      ensures result.observed == result.counts.Total()
    {
      ghost var before := tables;
      ghost var start := tables[stream];
      var counts := NO_COUNTS;
      for i := 0 to |batch|
        invariant stream in tables && tables == before[stream := tables[stream]]
        invariant (tables[stream], counts) == ImportInto(start, stream, window, batch[..i])
      {
        var c := batch[i];
        ImportAppend(start, stream, window, batch, i);
        if c.stream != stream || !window.Contains(c.openTime) {
          var table := tables[stream];
          tables := tables[stream := table.(quarantine := table.quarantine + [UnexpectedHistorical(c.openTime)])];
          counts := counts.(unexpected := counts.unexpected + 1);
        } else {
          var classification := IngestCandle(c);
          counts := counts.Add(classification);
        }
      }
      assert batch[..|batch|] == batch;
      EveryObservationCounted(start, stream, window, batch);
      return ImportResult(|batch|, counts);
    }
  }
}
