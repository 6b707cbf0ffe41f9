// Ingestion of the open interest track (src/market_data_service/application/import_open_interest.py,
// domain/open_interest.py): no source rank, the newest value wins, and the cached latest open time is
// computed once per window.

module OpenInterestImport {
  import opened Optional
  import opened Grid
  import opened Windows
  import opened Streams
  import opened DecimalText

  /** One vendor point; the value is absent when it is not a finite decimal. */
  datatype ObservedPoint = ObservedPoint(stream: StreamKey, openTime: int, value: Option<Decimal>)

  datatype PointIssue = WrongTimeframe | NegativeTime | OffGrid | InvalidValue

  /** The track's table with its durable latest open time. */
  datatype TrackTable = TrackTable(points: map<int, string>, latest: Option<int>)

  datatype PointCounts = PointCounts(committed: nat, duplicates: nat, corrected: nat, rejected: nat, unexpected: nat)

  function PointIssueOf(p: ObservedPoint): Option<PointIssue>
  {
    if p.stream.timeframe != M5 then Some(WrongTimeframe)
    else if p.openTime < 0 then Some(NegativeTime)
    else if !OnGrid(p.openTime, p.stream.Step()) then Some(OffGrid)
    else if p.value.None? || !AtMost(ZERO, p.value.value) then Some(InvalidValue)
    else None
  }

  /** A point is in order exactly when it is a five-minute point of the grid, not before time zero, with
      a finite value that is not negative. */
  lemma InOrderExactlyWhen(p: ObservedPoint)
    ensures PointIssueOf(p).None? <==>
              && p.stream.timeframe == M5 && 0 <= p.openTime && p.openTime % 300_000 == 0
              && p.value.Some? && (p.value.value.negative ==> p.value.value.coefficient == 0)
  {
    if p.value.Some? {
      NotNegativeExactlyWhen(p.value.value);
    }
  }

  predicate Accepted(p: ObservedPoint, stream: StreamKey, window: TimeWindow)
  {
    p.stream == stream && window.Contains(p.openTime) && PointIssueOf(p).None?
  }

  function TextOf(p: ObservedPoint): string
    requires PointIssueOf(p).None?
  {
    CanonicalText(p.value.value)
  }

  /** The text a bar shows after a batch: the last accepted row's, or what was stored. */
  function Shown(before: map<int, string>, stream: StreamKey, window: TimeWindow, batch: seq<ObservedPoint>, bar: int): Option<string>
  {
    if batch == [] then (if bar in before then Some(before[bar]) else None) else
      var last := batch[|batch| - 1];
      if Accepted(last, stream, window) && last.openTime == bar then Some(TextOf(last))
      else Shown(before, stream, window, batch[..|batch| - 1], bar)
  }

  /** Rows for another stream or window, rows with an issue, and accepted rows that changed the text
      their bar showed. */
  function SetAside(batch: seq<ObservedPoint>, stream: StreamKey, window: TimeWindow): (rows: nat)
    ensures rows <= |batch|
  {
    if batch == [] then 0 else
      var p := batch[|batch| - 1];
      SetAside(batch[..|batch| - 1], stream, window)
      + if p.stream != stream || p.openTime < window.start || window.end <= p.openTime then 1 else 0
  }

  function Faulty(batch: seq<ObservedPoint>, stream: StreamKey, window: TimeWindow): (rows: nat)
    ensures rows <= |batch|
  {
    if batch == [] then 0 else
      var p := batch[|batch| - 1];
      Faulty(batch[..|batch| - 1], stream, window)
      + if p.stream == stream && window.start <= p.openTime < window.end && PointIssueOf(p).Some? then 1 else 0
  }

  function Changes(before: map<int, string>, stream: StreamKey, window: TimeWindow, batch: seq<ObservedPoint>): (rows: nat)
    ensures rows <= |batch|
  {
    if batch == [] then 0 else
      var front, p := batch[..|batch| - 1], batch[|batch| - 1];
      Changes(before, stream, window, front)
      + if Accepted(p, stream, window) && Shown(before, stream, window, front, p.openTime) !in {None, Some(TextOf(p))} then 1 else 0
  }

  lemma CountsAppend(before: map<int, string>, stream: StreamKey, window: TimeWindow, batch: seq<ObservedPoint>, i: nat)
    requires i < |batch|
    ensures var p := batch[i];
            && SetAside(batch[..i + 1], stream, window)
               == SetAside(batch[..i], stream, window) + (if p.stream != stream || !window.Contains(p.openTime) then 1 else 0)
            && Faulty(batch[..i + 1], stream, window)
               == Faulty(batch[..i], stream, window) + (if p.stream == stream && window.Contains(p.openTime) && PointIssueOf(p).Some? then 1 else 0)
            && Changes(before, stream, window, batch[..i + 1])
               == Changes(before, stream, window, batch[..i])
                  + (if Accepted(p, stream, window) && Shown(before, stream, window, batch[..i], p.openTime) !in {None, Some(TextOf(p))} then 1 else 0)
  {
    assert batch[..i + 1][..i] == batch[..i];
  }

  ghost predicate LatestAgrees(points: map<int, string>, latest: Option<int>)
  {
    && (latest.None? <==> points.Keys == {})
    && (latest.Some? ==> latest.value in points && forall t :: t in points ==> t <= latest.value)
  }

  /** The window's own latest covers exactly the rows added over an agreeing table. */
  ghost predicate WindowLatest(before: map<int, string>, now: map<int, string>, latest: Option<int>)
  {
    && (forall t :: t in now ==> t in before || (latest.Some? && t <= latest.value))
    && before.Keys <= now.Keys
    && (latest.Some? ==> latest.value in now)
  }

  /** Where an import stands after some rows. */
  ghost predicate TakenSoFar(before: map<int, string>, now: map<int, string>, latest: Option<int>, counts: PointCounts,
                             stream: StreamKey, window: TimeWindow, rows: seq<ObservedPoint>)
  {
    && (forall bar :: bar in now <==> Shown(before, stream, window, rows, bar).Some?)
    && (forall bar :: bar in now ==> Shown(before, stream, window, rows, bar) == Some(now[bar]))
    && WindowLatest(before, now, latest)
    && counts.committed + counts.duplicates + counts.corrected + counts.rejected + counts.unexpected == |rows|
    && counts.committed == |now| - |before|
    && counts.unexpected == SetAside(rows, stream, window) && counts.rejected == Faulty(rows, stream, window)
    && counts.corrected == Changes(before, stream, window, rows)
  }

  lemma SkipOne(before: map<int, string>, now: map<int, string>, latest: Option<int>, counts: PointCounts,
                stream: StreamKey, window: TimeWindow, batch: seq<ObservedPoint>, i: nat, next: PointCounts)
    requires i < |batch| && TakenSoFar(before, now, latest, counts, stream, window, batch[..i]) && !Accepted(batch[i], stream, window)
    requires next == if batch[i].stream != stream || !window.Contains(batch[i].openTime) then counts.(unexpected := counts.unexpected + 1)
                     else counts.(rejected := counts.rejected + 1)
    ensures TakenSoFar(before, now, latest, next, stream, window, batch[..i + 1])
  {
    ShownAppend(before, stream, window, batch, i);
    CountsAppend(before, stream, window, batch, i);
  }

  lemma TakeOne(before: map<int, string>, now: map<int, string>, latest: Option<int>, counts: PointCounts,
                stream: StreamKey, window: TimeWindow, batch: seq<ObservedPoint>, i: nat,
                after: map<int, string>, newLatest: Option<int>, next: PointCounts)
    requires i < |batch| && TakenSoFar(before, now, latest, counts, stream, window, batch[..i]) && Accepted(batch[i], stream, window)
    requires var p := batch[i];
             && after == now[p.openTime := TextOf(p)]
             && newLatest == (if latest.None? || p.openTime > latest.value then Some(p.openTime) else latest)
             && next == if p.openTime !in now then counts.(committed := counts.committed + 1)
                        else if now[p.openTime] == TextOf(p) then counts.(duplicates := counts.duplicates + 1)
                        else counts.(corrected := counts.corrected + 1)
    ensures TakenSoFar(before, after, newLatest, next, stream, window, batch[..i + 1])
  {
    var p := batch[i];
    ShownAppend(before, stream, window, batch, i);
    CountsAppend(before, stream, window, batch, i);
    assert after.Keys == now.Keys + {p.openTime};
    if p.openTime in now {
      assert after.Keys == now.Keys;
    }
    assert |after| == |after.Keys| && |now| == |now.Keys|;
  }

  class OpenInterestStorage {
    var tracks: map<StreamKey, TrackTable>

    constructor (tracks: map<StreamKey, TrackTable>)
      ensures this.tracks == tracks
    {
      this.tracks := tracks;
    }

    /** Accept a fetched window atomically; rows for another stream or window are set aside. */
    method ImportWindow(stream: StreamKey, window: TimeWindow, batch: seq<ObservedPoint>) returns (counts: PointCounts)
      requires stream in tracks && window.Valid()
      modifies this
      ensures stream in tracks && tracks == old(tracks)[stream := tracks[stream]]
      ensures forall bar :: bar in tracks[stream].points <==> Shown(old(tracks)[stream].points, stream, window, batch, bar).Some?
      ensures forall bar :: bar in tracks[stream].points ==>
                Shown(old(tracks)[stream].points, stream, window, batch, bar) == Some(tracks[stream].points[bar])
      ensures LatestAgrees(old(tracks)[stream].points, old(tracks)[stream].latest) ==>
                LatestAgrees(tracks[stream].points, tracks[stream].latest)
      ensures counts.committed + counts.duplicates + counts.corrected + counts.rejected + counts.unexpected == |batch|
      ensures counts.committed == |tracks[stream].points| - |old(tracks)[stream].points|
      ensures counts.unexpected == SetAside(batch, stream, window) && counts.rejected == Faulty(batch, stream, window)
      ensures counts.corrected == Changes(old(tracks)[stream].points, stream, window, batch)
    {
      var before := tracks[stream];
      var points := before.points;
      var latest: Option<int> := None;
      counts := PointCounts(0, 0, 0, 0, 0);
      for i := 0 to |batch|
        invariant tracks == old(tracks)
        invariant TakenSoFar(before.points, points, latest, counts, stream, window, batch[..i])
      {
        var p := batch[i];
        ghost var was := (points, latest, counts);
        if p.stream != stream || !window.Contains(p.openTime) {
          counts := counts.(unexpected := counts.unexpected + 1);
        } else if PointIssueOf(p).Some? {
          counts := counts.(rejected := counts.rejected + 1);
        } else {
          var text := TextOf(p);
          if p.openTime !in points {
            counts := counts.(committed := counts.committed + 1);
            points := points[p.openTime := text];
          } else if points[p.openTime] == text {
            counts := counts.(duplicates := counts.duplicates + 1);
          } else {
            counts := counts.(corrected := counts.corrected + 1);
            points := points[p.openTime := text];
          }
          latest := if latest.None? || p.openTime > latest.value then Some(p.openTime) else latest;
          TakeOne(before.points, was.0, was.1, was.2, stream, window, batch, i, points, latest, counts);
        }
        if !Accepted(p, stream, window) {
          SkipOne(before.points, points, latest, was.2, stream, window, batch, i, counts);
        }
      }
      assert batch[..|batch|] == batch;
      var durable := before.latest;
      if latest.Some? && (durable.None? || latest.value > durable.value) {
        durable := latest;
      }
      if LatestAgrees(before.points, before.latest) {
        LatestMerge(before.points, before.latest, points, latest);
        assert LatestAgrees(points, durable);
      }
      tracks := tracks[stream := TrackTable(points, durable)];
    }
  }

  lemma ShownAppend(before: map<int, string>, stream: StreamKey, window: TimeWindow, batch: seq<ObservedPoint>, i: nat)
    requires i < |batch|
    ensures forall bar :: Shown(before, stream, window, batch[..i + 1], bar)
                          == if Accepted(batch[i], stream, window) && batch[i].openTime == bar then Some(TextOf(batch[i]))
                             else Shown(before, stream, window, batch[..i], bar)
  {
    var prefix := batch[..i + 1];
    assert prefix[..|prefix| - 1] == batch[..i] && prefix[|prefix| - 1] == batch[i];
    forall bar
      ensures Shown(before, stream, window, prefix, bar)
              == if Accepted(batch[i], stream, window) && batch[i].openTime == bar then Some(TextOf(batch[i]))
                 else Shown(before, stream, window, batch[..i], bar)
    {
    }
  }

  /** The greater of the durable value and the window's own is the maximum of the merged table. */
  lemma LatestMerge(before: map<int, string>, durable: Option<int>, now: map<int, string>, latest: Option<int>)
    requires LatestAgrees(before, durable) && WindowLatest(before, now, latest)
    ensures LatestAgrees(now, if latest.Some? && (durable.None? || latest.value > durable.value) then latest else durable)
  {
    if latest.None? {
      forall t | t in now.Keys
        ensures t in before.Keys
      {
        assert t in now;
      }
      assert now.Keys == before.Keys;
    } else {
      assert latest.value in now.Keys;
    }
  }

  /** Importing the same window again stores the same texts: only the last accepted row of a bar counts. */
  lemma {:induction false} ReimportShowsTheSame(before: map<int, string>, now: map<int, string>, stream: StreamKey,
                                                window: TimeWindow, batch: seq<ObservedPoint>, bar: int)
    requires bar in now <==> Shown(before, stream, window, batch, bar).Some?
    requires bar in now ==> Shown(before, stream, window, batch, bar) == Some(now[bar])
    ensures Shown(now, stream, window, batch, bar) == Shown(before, stream, window, batch, bar)
    decreases |batch|
  {
    if batch != [] {
      var last := batch[|batch| - 1];
      if !(Accepted(last, stream, window) && last.openTime == bar) {
        ReimportShowsTheSame(before, now, stream, window, batch[..|batch| - 1], bar);
      }
    }
  }
}
