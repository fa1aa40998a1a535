/**
 * `CloudWatchAccessor`: fetches the datapoints of one CloudWatch metric of one resource
 * incrementally. A per-metric cursor (the date of the last datapoint logged) bounds the request
 * window; the datapoints that come back are sorted by date, appended to the metrics log in that
 * order, and the cursor moves to the last of them.
 *
 * Dates are milliseconds since the epoch. The clock, the CloudWatch client and the date
 * formats are parameters: `now` is the current date, `day` its file-date text, `fetch` the
 * `getMetricStatistics` call, `format` and `parse` the metric date's text form and its reading.
 */
module CloudWatchAccessor {
  import opened Wrappers
  import opened AwsMetric
  import MRW = MetricsReaderWriter

  const DETAILED_REQUEST_PERIOD: int := 60
  const NON_DETAILED_REQUEST_PERIOD: int := 300
  const MAX_DATA_POINTS: int := 1440

  const INT_MAX: int := 0x7fff_ffff

  /** What the accessor needs of a `CloudWatchMetric`. */
  datatype MetricInfo = MetricInfo(name: string, namespace: string, statistic: CloudWatchStatistic, dimensionName: string)

  /**
   * A `Datapoint` as the log sees it: its date and the value of the metric's statistic (the
   * double the SDK returns, already reduced to the number written).
   */
  datatype Datapoint = Datapoint(timestamp: int, value: int)

  /** A `GetMetricStatisticsRequest`. */
  datatype Request = Request(startTime: int, endTime: int, period: int, namespace: string,
                             statistic: CloudWatchStatistic, dimension: Dimension, metricName: string)

  /** The request period in seconds: one minute with detailed monitoring, five otherwise. */
  function RequestPeriod(detailedMonitoringEnabled: bool): int {
    if detailedMonitoringEnabled then DETAILED_REQUEST_PERIOD else NON_DETAILED_REQUEST_PERIOD
  }

  /** `1000 * requestPeriod * MAX_DATA_POINTS`, computed in 32-bit `int` arithmetic. */
  function MaxTimeDifference(requestPeriod: int): int {
    1000 * requestPeriod * MAX_DATA_POINTS
  }

  /**
   * The widest window holds exactly `MAX_DATA_POINTS` periods: one day with detailed
   * monitoring, five days without, in milliseconds; the `int` product does not overflow.
   */
  lemma MaxWindowIsWholeDays(detailedMonitoringEnabled: bool)
    ensures var max := MaxTimeDifference(RequestPeriod(detailedMonitoringEnabled));
            max == (if detailedMonitoringEnabled then 1 else 5) * 24 * 60 * 60 * 1000
            && max == MAX_DATA_POINTS * RequestPeriod(detailedMonitoringEnabled) * 1000
            && 0 < max <= INT_MAX
  {
  }

  /** `getDatapointDateMapKey(metric, dimensionValue)`: the metric's name, '_', the dimension value. */
  function DateMapKey(metric: MetricInfo, dimensionValue: string): string {
    metric.name + "_" + dimensionValue
  }

  /**
   * The key does not tell the name from the dimension value: a metric "A_x" of resource "d"
   * and a metric "A" of resource "x_d" share one cursor, whatever A, x and d are.
   */
  lemma KeysCollide(m: MetricInfo, x: string, dimensionValue: string)
    ensures DateMapKey(m.(name := m.name + "_" + x), dimensionValue) == DateMapKey(m, x + "_" + dimensionValue)
    ensures m.(name := m.name + "_" + x).name != m.name
  {
    assert |m.(name := m.name + "_" + x).name| > |m.name|;
  }

  /** Distinct metrics of one resource have distinct keys. */
  lemma KeysOfOneResourceDiffer(m1: MetricInfo, m2: MetricInfo, dimensionValue: string)
    requires m1.name != m2.name
    ensures DateMapKey(m1, dimensionValue) != DateMapKey(m2, dimensionValue)
  {
    var k1, k2 := DateMapKey(m1, dimensionValue), DateMapKey(m2, dimensionValue);
    if |m1.name| == |m2.name| {
      var i :| 0 <= i < |m1.name| && m1.name[i] != m2.name[i];
      assert k1[i] != k2[i];
    } else {
      assert |k1| != |k2|;
    }
  }

  /**
   * The window's start: the cursor while it is at most `maxTimeDifference` old, else exactly
   * that far back from now.
   */
  function StartTime(now: int, cursor: Option<int>, maxTimeDifference: int): int {
    if cursor.None? || now - cursor.value > maxTimeDifference then now - maxTimeDifference else cursor.value
  }

  /** `cloudWatchRequest(metric, dimensionValue, lastDatapointDate)`, ending now. */
  function CloudWatchRequest(metric: MetricInfo, dimensionValue: string, cursor: Option<int>, now: int,
                             requestPeriod: int, maxTimeDifference: int): (r: Request)
    ensures r.endTime == now && r.period == requestPeriod && r.metricName == metric.name
    ensures r.namespace == metric.namespace && r.statistic == metric.statistic
    ensures r.dimension == Dimension(metric.dimensionName, dimensionValue)
  {
    Request(StartTime(now, cursor, maxTimeDifference), now, requestPeriod, metric.namespace,
            metric.statistic, Dimension(metric.dimensionName, dimensionValue), metric.name)
  }

  /**
   * The start is never further back than the widest window; it is the cursor exactly when the
   * cursor is at most that old, and a cursor in the future is kept even though it puts the
   * start after the end.
   */
  lemma WindowBounds(now: int, cursor: Option<int>, maxTimeDifference: int)
    ensures StartTime(now, cursor, maxTimeDifference) >= now - maxTimeDifference
    ensures cursor.Some? ==>
      (StartTime(now, cursor, maxTimeDifference) == cursor.value <==> now - cursor.value <= maxTimeDifference)
    ensures cursor.Some? && cursor.value > now ==> StartTime(now, cursor, maxTimeDifference) > now
  {
  }

  /**
   * The cursor a lookup starts from: the one in the map when it holds one, else what the
   * recovery scan of the metrics log finds (which may be none, or fail).
   */
  function StartCursor(dateMap: map<string, Option<int>>, key: string, recovered: Result<Option<int>>): Result<Option<int>> {
    if key in dateMap && dateMap[key].Some? then Ok(dateMap[key]) else recovered
  }

  /** A cursor in the map makes the recovery scan irrelevant; without one, it decides. */
  lemma MapCursorComesFirst(dateMap: map<string, Option<int>>, key: string, r1: Result<Option<int>>, r2: Result<Option<int>>)
    ensures key in dateMap && dateMap[key].Some? ==>
      StartCursor(dateMap, key, r1) == StartCursor(dateMap, key, r2) == Ok(dateMap[key])
    ensures !(key in dateMap && dateMap[key].Some?) ==> StartCursor(dateMap, key, r1) == r1
  {
  }

  /** Datapoints in chronological order. */
  predicate Ascending(points: seq<Datapoint>) {
    forall i, j :: 0 <= i < j < |points| ==> points[i].timestamp <= points[j].timestamp
  }

  /** The cursor after writing `points`: the last one's date, or the previous cursor without any. */
  function NextCursor(cursor: Option<int>, points: seq<Datapoint>): Option<int> {
    if |points| == 0 then cursor else Some(points[|points| - 1].timestamp)
  }

  /** After writing points in chronological order, the cursor is the newest of their dates. */
  lemma NextCursorIsNewest(cursor: Option<int>, points: seq<Datapoint>)
    requires Ascending(points) && |points| > 0
    ensures NextCursor(cursor, points).Some?
    ensures forall i :: 0 <= i < |points| ==> points[i].timestamp <= NextCursor(cursor, points).value
    ensures exists i :: 0 <= i < |points| && points[i].timestamp == NextCursor(cursor, points).value
  {
    assert points[|points| - 1].timestamp == NextCursor(cursor, points).value;
  }

  /**
   * When every datapoint CloudWatch returns lies at or after the window's start, the cursor
   * never moves back.
   */
  lemma CursorNeverDecreases(now: int, cursor: int, maxTimeDifference: int, points: seq<Datapoint>)
    requires Ascending(points)
    requires forall i :: 0 <= i < |points| ==> points[i].timestamp >= StartTime(now, Some(cursor), maxTimeDifference)
    ensures NextCursor(Some(cursor), points).Some? && NextCursor(Some(cursor), points).value >= cursor
  {
    if |points| > 0 {
      assert points[|points| - 1].timestamp >= StartTime(now, Some(cursor), maxTimeDifference);
    }
  }

  /** The metrics log's writer state: the open file's name, whether a writer is open, the files. */
  datatype LogState = LogState(currentFileName: string, writerOpen: bool, entries: seq<MRW.LogFile>)

  /** Writing one datapoint's record: the date's text and the value, under the query's names. */
  function WriteOne(dir: string, st: LogState, q: MRW.Query, p: Datapoint, format: int -> string,
                    day: string, now: int): (Result<()>, LogState)
  {
    var o := MRW.Write(dir, st.currentFileName, st.writerOpen, st.entries,
                       MRW.ConvertMetricData(q.resourceType, q.instanceId, format(p.timestamp), q.metricName, p.value),
                       day, now);
    (o.result, LogState(MRW.FileName(day), o.writerOpen, o.entries))
  }

  /**
   * Writing `points` one after the other to the log in `dir`; the first write that fails ends
   * the loop with its error.
   */
  function WriteAll(dir: string, st: LogState, q: MRW.Query, points: seq<Datapoint>, format: int -> string,
                    day: string, now: int): (Result<()>, LogState)
  {
    if |points| == 0 then (Ok(()), st)
    else
      var before := WriteAll(dir, st, q, points[..|points| - 1], format, day, now);
      if before.0.Err? then before
      else WriteOne(dir, before.1, q, points[|points| - 1], format, day, now)
  }

  /** Writing one more point after a successful prefix. */
  lemma WriteAllStep(dir: string, st: LogState, q: MRW.Query, points: seq<Datapoint>, n: nat, format: int -> string,
                     day: string, now: int)
    requires n < |points|
    requires WriteAll(dir, st, q, points[..n], format, day, now).0.Ok?
    ensures WriteAll(dir, st, q, points[..n + 1], format, day, now)
         == WriteOne(dir, WriteAll(dir, st, q, points[..n], format, day, now).1, q, points[n], format, day, now)
  {
    assert points[..n + 1][..n] == points[..n];
  }

  /** Once a write has failed, the later points change nothing. */
  lemma {:induction false} WriteAllStopsAtFailure(dir: string, st: LogState, q: MRW.Query, points: seq<Datapoint>, n: nat,
                                                  format: int -> string, day: string, now: int)
    requires n <= |points|
    requires WriteAll(dir, st, q, points[..n], format, day, now).0.Err?
    ensures WriteAll(dir, st, q, points, format, day, now) == WriteAll(dir, st, q, points[..n], format, day, now)
    decreases |points| - n
  {
    if n < |points| {
      assert points[..n + 1][..n] == points[..n];
      WriteAllStopsAtFailure(dir, st, q, points, n + 1, format, day, now);
    } else {
      assert points[..n] == points;
    }
  }

  /**
   * `datapoints.sort(new DatapointComparator())`: the list is put in chronological order in
   * place, holding the same datapoints.
   */
  method SortByTimestamp(a: array<Datapoint>)
    modifies a
    ensures Ascending(a[..])
    ensures multiset(a[..]) == multiset(old(a[..]))
  {
    var i := 0;
    while i < a.Length
      invariant 0 <= i <= a.Length
      invariant Ascending(a[..i])
      invariant multiset(a[..]) == multiset(old(a[..]))
    {
      InsertLast(a, i);
      i := i + 1;
    }
    assert a[..i] == a[..];
  }

  /**
   * Midway through inserting the datapoint now at `j`: the others of `s[..i + 1]` are in
   * order, and none after it is earlier than it.
   */
  predicate Inserting(s: seq<Datapoint>, i: int, j: int)
    requires 0 <= j <= i < |s|
  {
    (forall k, l :: 0 <= k < l <= i && k != j && l != j ==> s[k].timestamp <= s[l].timestamp)
    && (forall l :: j < l <= i ==> s[j].timestamp <= s[l].timestamp)
  }

  lemma InsertingStarts(s: seq<Datapoint>, i: int)
    requires 0 <= i < |s| && Ascending(s[..i])
    ensures Inserting(s, i, i)
  {
    forall k, l | 0 <= k < l <= i && k != i && l != i
      ensures s[k].timestamp <= s[l].timestamp
    {
      assert s[k] == s[..i][k] && s[l] == s[..i][l];
    }
  }

  /** Swapping the datapoint with a later-dated left neighbour moves it one step left. */
  lemma InsertingSwaps(s: seq<Datapoint>, i: int, j: int)
    requires 0 < j <= i < |s| && Inserting(s, i, j)
    requires s[j - 1].timestamp > s[j].timestamp
    ensures Inserting(s[j - 1 := s[j]][j := s[j - 1]], i, j - 1)
    ensures multiset(s[j - 1 := s[j]][j := s[j - 1]]) == multiset(s)
  {
    var t := s[j - 1 := s[j]][j := s[j - 1]];
    forall k, l | 0 <= k < l <= i && k != j - 1 && l != j - 1
      ensures t[k].timestamp <= t[l].timestamp
    {
      if l == j {
        assert t[l] == s[j - 1];
      } else if k == j {
        assert t[k] == s[j - 1];
      }
    }
  }

  lemma InsertingEnds(s: seq<Datapoint>, i: int, j: int)
    requires 0 <= j <= i < |s| && Inserting(s, i, j)
    requires j == 0 || s[j - 1].timestamp <= s[j].timestamp
    ensures Ascending(s[..i + 1])
  {
    forall k, l | 0 <= k < l <= i
      ensures s[k].timestamp <= s[l].timestamp
    {
      if l == j && k != j - 1 {
        assert s[k].timestamp <= s[j - 1].timestamp;
      }
    }
  }

  /** Moves `a[i]` left past the later datapoints before it, so that `a[..i + 1]` is in order. */
  method InsertLast(a: array<Datapoint>, i: int)
    requires 0 <= i < a.Length
    requires Ascending(a[..i])
    modifies a
    ensures Ascending(a[..i + 1])
    ensures multiset(a[..]) == multiset(old(a[..]))
  {
    InsertingStarts(a[..], i);
    var j := i;
    while j > 0 && a[j - 1].timestamp > a[j].timestamp
      invariant 0 <= j <= i
      invariant multiset(a[..]) == multiset(old(a[..]))
      invariant Inserting(a[..], i, j)
    {
      ghost var s := a[..];
      InsertingSwaps(s, i, j);
      a[j - 1], a[j] := a[j], a[j - 1];
      assert a[..] == s[j - 1 := s[j]][j := s[j - 1]];
      j := j - 1;
    }
    InsertingEnds(a[..], i, j);
  }

  /**
   * How a lookup ends once the datapoints came back sorted: the log is what writing them left.
   * When every write succeeded the sorted datapoints are returned and the map holds the cursor
   * they leave; otherwise the first write's exception is returned and the map is as it was.
   */
  predicate Saved(r: Result<seq<Datapoint>>, sorted: seq<Datapoint>, written: (Result<()>, LogState), log: LogState,
                  dateMap: map<string, Option<int>>, advanced: map<string, Option<int>>, before: map<string, Option<int>>)
  {
    && log == written.1
    && (written.0.Ok? ==> r == Ok(sorted) && dateMap == advanced)
    && (written.0.Err? ==> r == Err(written.0.error) && dateMap == before)
  }

  /**
   * A `CloudWatchAccessor`: the metrics log it writes to, the request period and widest window
   * fixed at creation, and the cursor map it updates in place.
   */
  class Accessor {
    const readerWriter: MRW.ReaderWriter
    const detailedMonitoringEnabled: bool
    const requestPeriod: int
    const maxTimeDifference: int
    var lastDatapointDateMap: map<string, Option<int>>

    predicate Valid()
      reads this, readerWriter
    {
      readerWriter.Valid()
      && requestPeriod == RequestPeriod(detailedMonitoringEnabled)
      && maxTimeDifference == MaxTimeDifference(requestPeriod)
    }

    /** The log's writer state. */
    function Log(): LogState
      reads readerWriter
    {
      LogState(readerWriter.currentFileName, readerWriter.writerOpen, readerWriter.entries)
    }

    /** The constructor: the period from the detailed-monitoring setting, and an empty map. */
    constructor(readerWriter: MRW.ReaderWriter, detailedMonitoringEnabled: bool)
      requires readerWriter.Valid()
      ensures Valid()
      ensures this.readerWriter == readerWriter && this.detailedMonitoringEnabled == detailedMonitoringEnabled
      ensures lastDatapointDateMap == map[]
    {
      this.readerWriter := readerWriter;
      this.detailedMonitoringEnabled := detailedMonitoringEnabled;
      requestPeriod := RequestPeriod(detailedMonitoringEnabled);
      maxTimeDifference := MaxTimeDifference(RequestPeriod(detailedMonitoringEnabled));
      lastDatapointDateMap := map[];
    }

    /**
     * `lookupAndSaveMetricData(metric, dimensionValue, type)`: the cursor (map first, recovery
     * scan second) bounds the request; the datapoints that come back are sorted, written in
     * that order, and the map then holds the cursor they leave. The datapoints written are
     * returned. A failing recovery scan or request changes nothing; a failing write returns
     * its exception, leaves the records written before it in the log and the map untouched.
     */
    method LookupAndSaveMetricData(metric: MetricInfo, dimensionValue: string, resourceType: string,
                                   parse: string -> Option<int>, fetch: Request -> Result<seq<Datapoint>>,
                                   format: int -> string, day: string, now: int)
      returns (r: Result<seq<Datapoint>>)
      requires Valid()
      modifies this, readerWriter
      ensures Valid()
      ensures var key := DateMapKey(metric, dimensionValue);
              var q := MRW.Query(resourceType, dimensionValue, metric.name);
              var cursor := StartCursor(old(lastDatapointDateMap), key, MRW.MostRecentMetricDate(old(readerWriter.entries), q, parse));
              var request := CloudWatchRequest(metric, dimensionValue, if cursor.Ok? then cursor.value else None, now,
                                               requestPeriod, maxTimeDifference);
              if cursor.Err? then r == Err(cursor.error) && unchanged(this, readerWriter)
              else if fetch(request).Err? then r == Err(fetch(request).error) && unchanged(this, readerWriter)
              else
                exists sorted :: Ascending(sorted) && multiset(sorted) == multiset(fetch(request).value)
                  && Saved(r, sorted, WriteAll(readerWriter.dir, old(Log()), q, sorted, format, day, now), Log(),
                           lastDatapointDateMap, old(lastDatapointDateMap)[key := NextCursor(cursor.value, sorted)],
                           old(lastDatapointDateMap))
    {
      var key := DateMapKey(metric, dimensionValue);
      var q := MRW.Query(resourceType, dimensionValue, metric.name);
      var cursor := LastDatapointDate(key, q, parse);
      if cursor.Err? {
        return Err(cursor.error);
      }
      var lastDatapointDate := cursor.value;
      var request := CloudWatchRequest(metric, dimensionValue, lastDatapointDate, now, requestPeriod, maxTimeDifference);
      var result := fetch(request);
      if result.Err? {
        return Err(result.error);
      }
      var datapoints := new Datapoint[|result.value|](i requires 0 <= i < |result.value| => result.value[i]);
      assert datapoints[..] == result.value;
      SortByTimestamp(datapoints);
      ghost var sorted := datapoints[..];
      var written := WriteDatapoints(datapoints[..], q, format, day, now);
      if written.Err? {
        r := Err(written.error);
        assert Saved(r, sorted, (written, Log()), Log(), lastDatapointDateMap,
                     old(lastDatapointDateMap)[key := NextCursor(lastDatapointDate, sorted)], old(lastDatapointDateMap));
        return;
      }
      lastDatapointDate := NextCursor(lastDatapointDate, datapoints[..]);
      lastDatapointDateMap := lastDatapointDateMap[key := lastDatapointDate];
      r := Ok(datapoints[..]);
      assert Saved(r, sorted, (written, Log()), Log(), lastDatapointDateMap, lastDatapointDateMap, old(lastDatapointDateMap));
    }

    /** The cursor for `key`: the map's, or the recovery scan's when the map holds none. */
    method LastDatapointDate(key: string, q: MRW.Query, parse: string -> Option<int>) returns (r: Result<Option<int>>)
      ensures r == StartCursor(lastDatapointDateMap, key, MRW.MostRecentMetricDate(readerWriter.entries, q, parse))
    {
      var lastDatapointDate: Option<int> := None;
      if key in lastDatapointDateMap {
        lastDatapointDate := lastDatapointDateMap[key];
      }
      if lastDatapointDate.None? {
        r := readerWriter.ReadMostRecentMetricDate(q, parse);
      } else {
        r := Ok(lastDatapointDate);
      }
    }

    /** The loop writing the sorted datapoints; an exception from a write ends it. */
    method WriteDatapoints(points: seq<Datapoint>, q: MRW.Query, format: int -> string, day: string, now: int)
      returns (r: Result<()>)
      requires readerWriter.Valid()
      modifies readerWriter
      ensures readerWriter.Valid()
      ensures (r, Log()) == WriteAll(readerWriter.dir, old(Log()), q, points, format, day, now)
    {
      ghost var start := Log();
      var rw, dir := readerWriter, readerWriter.dir;
      var i := 0;
      while i < |points|
        invariant 0 <= i <= |points|
        invariant rw.Valid()
        invariant (Ok(()), Log()) == WriteAll(dir, start, q, points[..i], format, day, now)
      {
        WriteAllStep(dir, start, q, points, i, format, day, now);
        ghost var before := Log();
        var p := points[i];
        var written := rw.WriteMetric(q.resourceType, q.instanceId, format(p.timestamp), q.metricName, p.value, day, now);
        assert (written, Log()) == WriteOne(dir, before, q, p, format, day, now);
        if written.Err? {
          WriteAllStopsAtFailure(dir, start, q, points, i + 1, format, day, now);
          return written;
        }
        i := i + 1;
      }
      assert points[..i] == points;
      r := Ok(());
    }
  }
}
