/**
 * The metrics log: every metric value the fetchers read is appended as one JSON record to a
 * file of the day, `candlestack_metrics_<yyyy_MM_dd>.log`, in the configured directory; after a
 * restart the newest timestamp logged for one metric of one resource is recovered by scanning
 * the most recently modified file.
 *
 * Dates are milliseconds since the epoch. Their text forms come from the caller: `day` is the
 * `yyyy_MM_dd` text of the current date, a record's timestamp the
 * `yyyy-MM-dd'T'HH:mm:ss.SSSZZ` text of the metric's date, and `parse` reads such text back.
 * The directory is a listing of entries, each with its lines and its modification time.
 */
module MetricsReaderWriter {
  import opened Wrappers
  import opened JavaString
  import opened GlobalCandlestackProperties

  const DIR_PROPERTY_KEY: string := "metrics.writer.dir"
  const COMPONENT: string := "candlestack_metric"
  const FILE_PREFIX: string := "candlestack_metrics_"
  const FILE_SUFFIX: string := ".log"
  const TIMESTAMP_KEY: string := "@timestamp"

  // ---------------------------------------------------------------- names

  /** `sanitizeString`: every '-' and every ' ' becomes '_'; nothing else changes. */
  function SanitizeString(data: string): (r: string)
    ensures |r| == |data|
    ensures forall i :: 0 <= i < |data| ==>
      r[i] == (if data[i] == '-' || data[i] == ' ' then '_' else data[i])
  {
    ReplaceChar(ReplaceChar(data, '-', '_'), ' ', '_')
  }

  /** A sanitized name holds neither '-' nor ' ', and sanitizing it again changes nothing. */
  lemma SanitizeStringIdempotent(data: string)
    ensures '-' !in SanitizeString(data) && ' ' !in SanitizeString(data)
    ensures SanitizeString(SanitizeString(data)) == SanitizeString(data)
  {
    var r := SanitizeString(data);
    forall i | 0 <= i < |r| ensures r[i] != '-' && r[i] != ' ' { }
  }

  /** A character other than '-', ' ' and '_' is in the sanitized name exactly when it is in the name. */
  lemma SanitizeStringKeeps(data: string, c: char)
    requires c != '-' && c != ' ' && c != '_'
    ensures c in SanitizeString(data) <==> c in data
  {
    var r := SanitizeString(data);
    if c in data {
      var i :| 0 <= i < |data| && data[i] == c;
      assert r[i] == c;
    }
    if c in r {
      var i :| 0 <= i < |r| && r[i] == c;
      assert data[i] == c;
    }
  }

  /** `getFileName()`: the log file of the day whose `yyyy_MM_dd` text is `day`. */
  function FileName(day: string): (r: string)
    ensures StartsWith(r, FILE_PREFIX) && EndsWith(r, FILE_SUFFIX)
    ensures |r| == |FILE_PREFIX| + |day| + |FILE_SUFFIX|
  {
    FILE_PREFIX + day + FILE_SUFFIX
  }

  /** Different days have different log files. */
  lemma FileNameInjective(day1: string, day2: string)
    ensures FileName(day1) == FileName(day2) <==> day1 == day2
  {
    if FileName(day1) == FileName(day2) {
      var n := |FILE_PREFIX|;
      assert |day1| == |day2|;
      assert day1 == FileName(day1)[n..n + |day1|];
      assert day2 == FileName(day2)[n..n + |day2|];
    }
  }

  // ---------------------------------------------------------------- records

  /**
   * The pieces of a record's text, from its sanitized names. The members come in the order the map's hash buckets put
   * their keys (component, instanceId, @timestamp, metric_name, metric_value, type); names and
   * string values are quoted, the value is a bare number:
   * `{"component":"candlestack_metric","instanceId":"<id>","@timestamp":"<timestamp>",`
   * `"metric_name":"<name>","metric_value":<value>,"type":"<type>"}`
   */
  function RecordPieces(resourceType: string, instanceId: string, timestamp: string, metricName: string, metricValue: int): seq<string> {
    [ "{\"component\":\"", COMPONENT,
      "\",\"instanceId\":\"", instanceId,
      "\",\"", TIMESTAMP_KEY, "\":\"", timestamp,
      "\",\"metric_name\":\"", metricName,
      "\",\"metric_value\":", IntToString(metricValue),
      ",\"type\":\"", resourceType, "\"}" ]
  }

  /**
   * `convertMetricData`: the JSON text of the record, given the timestamp's text and the value
   * already truncated to a long.
   */
  function ConvertMetricData(resourceType: string, instanceId: string, timestamp: string, metricName: string, metricValue: int): string {
    Concat(RecordPieces(SanitizeString(resourceType), SanitizeString(instanceId), timestamp,
                        SanitizeString(metricName), metricValue))
  }

  /** What the recovery scan looks for: the type, the resource's id and the metric's name. */
  datatype Query = Query(resourceType: string, instanceId: string, metricName: string)

  /** The line holds the sanitized type, id and metric name, each anywhere in it. */
  predicate LineMatches(line: string, q: Query) {
    Contains(line, SanitizeString(q.resourceType))
    && Contains(line, SanitizeString(q.instanceId))
    && Contains(line, SanitizeString(q.metricName))
  }

  /**
   * The timestamp's text in a line: from two characters after the first ':' that follows
   * "@timestamp" (or the start of the line when there is no such key) up to the next '"';
   * when no '"' follows, `substring` fails.
   */
  function TimestampText(line: string): Result<string> {
    var colonIndex := IndexOf(line, ":", IndexOf(line, TIMESTAMP_KEY, 0));
    var begin := colonIndex + 2;
    var end := IndexOf(line, "\"", begin);
    if end < 0 then Err(IndexOutOfBounds) else Ok(line[begin..end])
  }

  /** Every record the log writes is found by a query for its own type, id and metric name. */
  lemma RecordMatchesItsQuery(q: Query, timestamp: string, metricValue: int)
    ensures LineMatches(ConvertMetricData(q.resourceType, q.instanceId, timestamp, q.metricName, metricValue), q)
  {
    var xs := RecordPieces(SanitizeString(q.resourceType), SanitizeString(q.instanceId), timestamp,
                           SanitizeString(q.metricName), metricValue);
    ContainsPiece(xs, 3);
    ContainsPiece(xs, 9);
    ContainsPiece(xs, 13);
  }

  /**
   * Matching is by containment, not by field: a query whose id occurs anywhere inside a
   * record's id also takes that record.
   */
  lemma MatchingIsBySubstring(resourceType: string, instanceId: string, otherId: string, timestamp: string,
                              metricName: string, metricValue: int)
    requires Contains(instanceId, otherId)
    ensures LineMatches(ConvertMetricData(resourceType, instanceId, timestamp, metricName, metricValue),
                        Query(resourceType, otherId, metricName))
  {
    var xs := RecordPieces(SanitizeString(resourceType), SanitizeString(instanceId), timestamp,
                           SanitizeString(metricName), metricValue);
    ContainsPiece(xs, 3);
    ContainsPiece(xs, 9);
    ContainsPiece(xs, 13);
    SanitizeKeepsContains(instanceId, otherId);
    ContainsTransitive(Concat(xs), SanitizeString(instanceId), SanitizeString(otherId));
  }

  /** Sanitizing works character by character, so it keeps every occurrence of one id in another. */
  lemma SanitizeKeepsContains(s: string, t: string)
    requires Contains(s, t)
    ensures Contains(SanitizeString(s), SanitizeString(t))
  {
    var i :| 0 <= i <= |s| && OccursAt(s, t, i);
    var a, b := SanitizeString(s), SanitizeString(t);
    forall k | 0 <= k < |t|
      ensures a[i..i + |t|][k] == b[k]
    {
      assert s[i + k] == s[i..i + |t|][k];
    }
    assert a[i..i + |t|] == b;
    assert OccursAt(a, b, i);
  }

  /** For instance, a query for the id "queue-1" also takes the records of "queue-10". */
  lemma QueueOneMatchesQueueTen(resourceType: string, timestamp: string, metricName: string, metricValue: int)
    ensures LineMatches(ConvertMetricData(resourceType, "queue-10", timestamp, metricName, metricValue),
                        Query(resourceType, "queue-1", metricName))
  {
    assert OccursAt("queue-10", "queue-1", 0);
    MatchingIsBySubstring(resourceType, "queue-10", "queue-1", timestamp, metricName, metricValue);
  }

  /** "@timestamp" is first found where its piece starts when no piece before it holds an '@'. */
  lemma TimestampKeyFound(xs: seq<string>)
    requires |xs| > 5 && xs[5] == TIMESTAMP_KEY && '@' !in Concat(xs[..5])
    ensures IndexOf(Concat(xs), TIMESTAMP_KEY, 0) == |Concat(xs[..5])|
  {
    var line := Concat(xs);
    var before := Concat(xs[..5]);
    ConcatPrefix(xs, 5);
    OccursAtPiece(xs, 5);
    forall i | 0 <= i < |before| ensures !OccursAt(line, TIMESTAMP_KEY, i) {
      assert line[i] == before[i];
    }
    IndexOfAt(line, TIMESTAMP_KEY, 0, |before|);
  }

  /** The first ':' after "@timestamp" is the one of the piece `":"` that follows it. */
  lemma TimestampColonFound(xs: seq<string>)
    requires |xs| > 6 && xs[5] == TIMESTAMP_KEY && xs[6] == "\":\""
    ensures IndexOf(Concat(xs), ":", |Concat(xs[..5])|) == |Concat(xs[..6])| + 1
  {
    var line := Concat(xs);
    var b5 := |Concat(xs[..5])|;
    var b6 := |Concat(xs[..6])|;
    assert xs[..6][..5] == xs[..5];
    assert b6 == b5 + |TIMESTAMP_KEY|;
    OccursAtPiece(xs, 5);
    OccursAtPiece(xs, 6);
    OccursAtChar(line, ':', b6 + 1);
    forall i | b5 <= i < b6 + 1 ensures !OccursAt(line, ":", i) {
      OccursAtChar(line, ':', i);
      if i < b6 {
        assert line[i] == TIMESTAMP_KEY[i - b5];
      }
    }
    IndexOfAt(line, ":", b5, b6 + 1);
  }

  /** Piece 7 runs up to the first '"' after it, the one that starts piece 8. */
  lemma TimestampValueFound(xs: seq<string>)
    requires |xs| > 8 && xs[6] == "\":\"" && '"' !in xs[7] && |xs[8]| > 0 && xs[8][0] == '"'
    ensures var begin := |Concat(xs[..6])| + 3;
      IndexOf(Concat(xs), "\"", begin) == begin + |xs[7]|
      && Concat(xs)[begin..begin + |xs[7]|] == xs[7]
  {
    var line := Concat(xs);
    assert xs[..7][..6] == xs[..6];
    assert xs[..8][..7] == xs[..7];
    var begin := |Concat(xs[..7])|;
    assert begin == |Concat(xs[..6])| + 3;
    OccursAtPiece(xs, 7);
    OccursAtPiece(xs, 8);
    var end := begin + |xs[7]|;
    assert |Concat(xs[..8])| == end;
    OccursAtChar(line, '"', end);
    forall i | begin <= i < end ensures !OccursAt(line, "\"", i) {
      OccursAtChar(line, '"', i);
      assert line[i] == xs[7][i - begin];
    }
    IndexOfAt(line, "\"", begin, end);
  }

  /** What the timestamp's search relies on in the pieces of a record. */
  lemma RecordPiecesAroundTimestamp(resourceType: string, instanceId: string, timestamp: string, metricName: string, metricValue: int)
    requires '@' !in instanceId
    ensures var xs := RecordPieces(resourceType, instanceId, timestamp, metricName, metricValue);
      && |xs| > 8 && xs[5] == TIMESTAMP_KEY && xs[6] == "\":\"" && xs[7] == timestamp
      && |xs[8]| > 0 && xs[8][0] == '"'
      && forall i :: 0 <= i < 5 ==> '@' !in xs[i]
  {
  }

  /**
   * The recovery scan reads back the timestamp a record was written with, when the id holds no
   * '@' and the timestamp no '"' (true of the date format's text).
   */
  lemma TimestampReadsBack(resourceType: string, instanceId: string, timestamp: string, metricName: string, metricValue: int)
    requires '@' !in instanceId && '"' !in timestamp
    ensures TimestampText(ConvertMetricData(resourceType, instanceId, timestamp, metricName, metricValue)) == Ok(timestamp)
  {
    var id := SanitizeString(instanceId);
    SanitizeStringKeeps(instanceId, '@');
    var xs := RecordPieces(SanitizeString(resourceType), id, timestamp, SanitizeString(metricName), metricValue);
    RecordPiecesAroundTimestamp(SanitizeString(resourceType), id, timestamp, SanitizeString(metricName), metricValue);
    CharNotInConcat(xs[..5], '@');
    TimestampKeyFound(xs);
    TimestampColonFound(xs);
    TimestampValueFound(xs);
  }

  // ---------------------------------------------------------------- the recovery scan

  /** An entry of the metrics directory. */
  datatype LogFile = LogFile(path: string, isFile: bool, lastModified: int, lines: seq<string>)

  /** The modification time the scan compares against: `Long.MIN_VALUE` before any choice. */
  function LastMod(choice: Option<LogFile>): int {
    if choice.None? then LONG_MIN else choice.value.lastModified
  }

  /** `lastFileModified()` over the entries listed so far: a regular file with a strictly newer time replaces the choice. */
  function Newest(entries: seq<LogFile>): Option<LogFile> {
    if |entries| == 0 then None
    else
      var choice := Newest(entries[..|entries| - 1]);
      var f := entries[|entries| - 1];
      if f.isFile && f.lastModified > LastMod(choice) then Some(f) else choice
  }

  /**
   * Entry `k` is the first of the newest regular files, and newer than `Long.MIN_VALUE`.
   */
  predicate FirstNewest(entries: seq<LogFile>, k: int) {
    NewestAmong(entries, |entries|, k)
  }

  /** Entry `k` is the first of the newest regular files among the first `m` entries. */
  predicate NewestAmong(entries: seq<LogFile>, m: int, k: int) {
    0 <= k < m <= |entries| && entries[k].isFile && entries[k].lastModified > LONG_MIN
    && (forall j :: 0 <= j < m && entries[j].isFile ==> entries[j].lastModified <= entries[k].lastModified)
    && (forall j :: 0 <= j < k && entries[j].isFile ==> entries[j].lastModified < entries[k].lastModified)
  }

  /** No regular file among the first `m` entries is newer than `Long.MIN_VALUE`. */
  predicate NoneNewer(entries: seq<LogFile>, m: int)
    requires 0 <= m <= |entries|
  {
    forall j :: 0 <= j < m && entries[j].isFile ==> entries[j].lastModified <= LONG_MIN
  }

  /** A regular file newer than every earlier one becomes the choice. */
  lemma NewerBecomesNewest(entries: seq<LogFile>, n: nat, bound: int)
    requires n < |entries| && entries[n].isFile && LONG_MIN <= bound < entries[n].lastModified
    requires forall j :: 0 <= j < n && entries[j].isFile ==> entries[j].lastModified <= bound
    ensures NewestAmong(entries, n + 1, n)
  {
  }

  /** An entry that is not a strictly newer regular file leaves the choice as it was. */
  lemma OlderKeepsNewest(entries: seq<LogFile>, n: nat, k: int)
    requires NewestAmong(entries, n, k) && n < |entries|
    requires !(entries[n].isFile && entries[n].lastModified > entries[k].lastModified)
    ensures NewestAmong(entries, n + 1, k)
  {
  }

  /** `NewestIsFirstNewest` for the first `m` entries. */
  lemma {:induction false} NewestOfPrefix(entries: seq<LogFile>, m: nat)
    requires m <= |entries|
    ensures Newest(entries[..m]).None? <==> NoneNewer(entries, m)
    ensures Newest(entries[..m]).Some? ==> exists k :: NewestAmong(entries, m, k) && Newest(entries[..m]).value == entries[k]
  {
    if m > 0 {
      var n := m - 1;
      assert entries[..m][..n] == entries[..n];
      NewestOfPrefix(entries, n);
      var choice := Newest(entries[..n]);
      var f := entries[n];
      assert entries[..m][n] == f;
      if f.isFile && f.lastModified > LastMod(choice) {
        if choice.Some? {
          var k :| NewestAmong(entries, n, k) && choice.value == entries[k];
          NewerBecomesNewest(entries, n, entries[k].lastModified);
        } else {
          NewerBecomesNewest(entries, n, LONG_MIN);
        }
      } else if choice.Some? {
        var k :| NewestAmong(entries, n, k) && choice.value == entries[k];
        OlderKeepsNewest(entries, n, k);
      }
    }
  }

  /**
   * The choice is the first listed regular file with the greatest modification time; there is
   * none exactly when no regular file is newer than `Long.MIN_VALUE`.
   */
  lemma NewestIsFirstNewest(entries: seq<LogFile>)
    ensures Newest(entries).None? <==>
      forall j :: 0 <= j < |entries| && entries[j].isFile ==> entries[j].lastModified <= LONG_MIN
    ensures Newest(entries).Some? ==> exists k :: FirstNewest(entries, k) && Newest(entries).value == entries[k]
  {
    NewestOfPrefix(entries, |entries|);
    assert entries[..|entries|] == entries;
  }

  /** The exception a timestamp that does not parse turns into. */
  function ReadError(path: string): Exception {
    CandlestackException("Encountered an error attempting to read file [" + path + "]")
  }

  /** What one line contributes: nothing when it does not match, else its parsed date. */
  function LineDate(line: string, q: Query, parse: string -> Option<int>, path: string): Result<Option<int>> {
    if !LineMatches(line, q) then Ok(None)
    else
      var timestamp :- TimestampText(line);
      match parse(timestamp)
      case None => Err(ReadError(path))
      case Some(d) => Ok(Some(d))
  }

  /** `mostRecentMetricDate` after a line: its date replaces the one so far when strictly later. */
  function Later(mostRecent: Option<int>, current: Option<int>): Option<int> {
    if current.None? then mostRecent
    else if mostRecent.None? || current.value > mostRecent.value then current
    else mostRecent
  }

  /** The scan of a file's lines, front to back, stopping at the first line that fails. */
  function MostRecentIn(lines: seq<string>, q: Query, parse: string -> Option<int>, path: string): Result<Option<int>> {
    if |lines| == 0 then Ok(None)
    else
      var mostRecent :- MostRecentIn(lines[..|lines| - 1], q, parse, path);
      var current :- LineDate(lines[|lines| - 1], q, parse, path);
      Ok(Later(mostRecent, current))
  }

  /** `readMostRecentMetricDate`: the scan of the newest file, or nothing when there is none. */
  function MostRecentMetricDate(entries: seq<LogFile>, q: Query, parse: string -> Option<int>): Result<Option<int>> {
    match Newest(entries)
    case None => Ok(None)
    case Some(f) => MostRecentIn(f.lines, q, parse, f.path)
  }

  /** The line of a written record gives the record's date back to a query for its own names. */
  lemma RecordDate(q: Query, timestamp: string, metricValue: int, parse: string -> Option<int>, date: int, path: string)
    requires '@' !in q.instanceId && '"' !in timestamp && parse(timestamp) == Some(date)
    ensures LineDate(ConvertMetricData(q.resourceType, q.instanceId, timestamp, q.metricName, metricValue), q, parse, path)
         == Ok(Some(date))
  {
    RecordMatchesItsQuery(q, timestamp, metricValue);
    TimestampReadsBack(q.resourceType, q.instanceId, timestamp, q.metricName, metricValue);
  }

  /** Once a prefix fails, the scan fails with the same error. */
  lemma {:induction false} MostRecentInStopsAtFailure(lines: seq<string>, k: nat, q: Query, parse: string -> Option<int>, path: string)
    requires k <= |lines| && MostRecentIn(lines[..k], q, parse, path).Err?
    ensures MostRecentIn(lines, q, parse, path) == MostRecentIn(lines[..k], q, parse, path)
  {
    if k < |lines| {
      var n := |lines| - 1;
      assert lines[..n][..k] == lines[..k];
      MostRecentInStopsAtFailure(lines[..n], k, q, parse, path);
    } else {
      assert lines[..k] == lines;
    }
  }

  /** The scan succeeds exactly when every line does. */
  lemma {:induction false} MostRecentInSucceeds(lines: seq<string>, q: Query, parse: string -> Option<int>, path: string)
    ensures MostRecentIn(lines, q, parse, path).Ok? <==> forall i :: 0 <= i < |lines| ==> LineDate(lines[i], q, parse, path).Ok?
  {
    if |lines| > 0 {
      var n := |lines| - 1;
      var front := lines[..n];
      MostRecentInSucceeds(front, q, parse, path);
      assert forall i :: 0 <= i < n ==> front[i] == lines[i];
      assert MostRecentIn(lines, q, parse, path).Ok?
         <==> MostRecentIn(front, q, parse, path).Ok? && LineDate(lines[n], q, parse, path).Ok?;
    }
  }

  /** Line `i` is the first line that fails, and fails with `e`. */
  predicate FirstFailure(lines: seq<string>, i: int, q: Query, parse: string -> Option<int>, path: string, e: Exception) {
    0 <= i < |lines| && LineDate(lines[i], q, parse, path) == Err(e)
    && forall j :: 0 <= j < i ==> LineDate(lines[j], q, parse, path).Ok?
  }

  /** A scan that fails fails with the error of the first line that fails. */
  lemma {:induction false} MostRecentInFailure(lines: seq<string>, q: Query, parse: string -> Option<int>, path: string)
    requires MostRecentIn(lines, q, parse, path).Err?
    ensures exists i :: FirstFailure(lines, i, q, parse, path, MostRecentIn(lines, q, parse, path).error)
  {
    var n := |lines| - 1;
    var front := lines[..n];
    var e := MostRecentIn(lines, q, parse, path).error;
    if MostRecentIn(front, q, parse, path).Err? {
      MostRecentInFailure(front, q, parse, path);
      var i :| FirstFailure(front, i, q, parse, path, e);
      assert forall j :: 0 <= j <= i ==> front[j] == lines[j];
      assert FirstFailure(lines, i, q, parse, path, e);
    } else {
      MostRecentInSucceeds(front, q, parse, path);
      assert forall j :: 0 <= j < n ==> front[j] == lines[j];
      assert FirstFailure(lines, n, q, parse, path, e);
    }
  }

  /** A successful scan gives nothing exactly when no line matches. */
  lemma {:induction false} MostRecentInNothing(lines: seq<string>, q: Query, parse: string -> Option<int>, path: string)
    requires MostRecentIn(lines, q, parse, path).Ok?
    ensures MostRecentIn(lines, q, parse, path).value.None? <==> forall i :: 0 <= i < |lines| ==> !LineMatches(lines[i], q)
  {
    if |lines| > 0 {
      var n := |lines| - 1;
      MostRecentInNothing(lines[..n], q, parse, path);
      assert forall i :: 0 <= i < n ==> lines[..n][i] == lines[i];
    }
  }

  /** The line gives no date later than `d`. */
  predicate DatedAtMost(line: string, q: Query, parse: string -> Option<int>, path: string, d: int) {
    match LineDate(line, q, parse, path)
    case Ok(Some(e)) => e <= d
    case _ => true
  }

  /** A successful scan gives a date no earlier than the date of any line. */
  lemma {:induction false} MostRecentInIsUpperBound(lines: seq<string>, q: Query, parse: string -> Option<int>, path: string)
    requires MostRecentIn(lines, q, parse, path).Ok? && MostRecentIn(lines, q, parse, path).value.Some?
    ensures forall i :: 0 <= i < |lines| ==> DatedAtMost(lines[i], q, parse, path, MostRecentIn(lines, q, parse, path).value.value)
  {
    var n := |lines| - 1;
    var front := lines[..n];
    var before := MostRecentIn(front, q, parse, path);
    var last := LineDate(lines[n], q, parse, path);
    assert MostRecentIn(lines, q, parse, path) == Ok(Later(before.value, last.value));
    var d := Later(before.value, last.value).value;
    if before.value.Some? {
      MostRecentInIsUpperBound(front, q, parse, path);
    } else {
      MostRecentInNothing(front, q, parse, path);
    }
    forall i | 0 <= i < |lines|
      ensures DatedAtMost(lines[i], q, parse, path, d)
    {
      if i < n {
        assert front[i] == lines[i];
        if before.value.Some? {
          DatedAtMostWeakens(front[i], q, parse, path, before.value.value, d);
        }
      }
    }
  }

  lemma DatedAtMostWeakens(line: string, q: Query, parse: string -> Option<int>, path: string, d1: int, d2: int)
    requires DatedAtMost(line, q, parse, path, d1) && d1 <= d2
    ensures DatedAtMost(line, q, parse, path, d2)
  {
  }

  /** The date a successful scan gives is the date of one of the lines. */
  lemma {:induction false} MostRecentInIsAttained(lines: seq<string>, q: Query, parse: string -> Option<int>, path: string)
    requires MostRecentIn(lines, q, parse, path).Ok? && MostRecentIn(lines, q, parse, path).value.Some?
    ensures exists i :: 0 <= i < |lines| && LineDate(lines[i], q, parse, path) == Ok(MostRecentIn(lines, q, parse, path).value)
  {
    var n := |lines| - 1;
    var front := lines[..n];
    var before := MostRecentIn(front, q, parse, path);
    if before.value.Some? && Later(before.value, LineDate(lines[n], q, parse, path).value) == before.value {
      MostRecentInIsAttained(front, q, parse, path);
      var i :| 0 <= i < n && LineDate(front[i], q, parse, path) == Ok(before.value);
      assert front[i] == lines[i];
    }
  }

  /** A line appended with a date: a successful scan gives that date or a later one. */
  lemma AppendedDateIsBound(lines: seq<string>, line: string, q: Query, parse: string -> Option<int>, path: string, date: int)
    requires LineDate(line, q, parse, path) == Ok(Some(date))
    ensures var r := MostRecentIn(lines + [line], q, parse, path);
      r.Ok? ==> r.value.Some? && r.value.value >= date
  {
    assert (lines + [line])[..|lines|] == lines;
  }

  /** One more line: the scan of the first `i + 1` lines from the scan of the first `i`. */
  lemma MostRecentInStep(lines: seq<string>, i: nat, q: Query, parse: string -> Option<int>, path: string)
    requires i < |lines|
    ensures MostRecentIn(lines[..i + 1], q, parse, path) ==
      match MostRecentIn(lines[..i], q, parse, path)
      case Err(e) => Err(e)
      case Ok(mostRecent) =>
        match LineDate(lines[i], q, parse, path)
        case Err(e) => Err(e)
        case Ok(current) => Ok(Later(mostRecent, current))
  {
    assert lines[..i + 1][..i] == lines[..i];
  }

  // ---------------------------------------------------------------- writing

  /** A regular file is listed at `path`. */
  predicate IsFileAt(entries: seq<LogFile>, path: string) {
    exists i :: 0 <= i < |entries| && entries[i].path == path && entries[i].isFile
  }

  /** Something other than a regular file is listed at `path`. */
  predicate IsOtherAt(entries: seq<LogFile>, path: string) {
    exists i :: 0 <= i < |entries| && entries[i].path == path && !entries[i].isFile
  }

  /**
   * Opening `path` for appending: a missing file is created empty; an entry that is not a
   * regular file cannot be target.
   */
  function OpenForAppend(entries: seq<LogFile>, path: string, now: int): (r: Option<seq<LogFile>>)
    ensures r.Some? <==> !IsOtherAt(entries, path)
    ensures r.Some? ==> IsFileAt(r.value, path) && entries <= r.value
    ensures r.Some? ==> forall i :: |entries| <= i < |r.value| ==> r.value[i] == LogFile(path, true, now, [])
  {
    if IsOtherAt(entries, path) then None
    else if IsFileAt(entries, path) then Some(entries)
    else
      var r := entries + [LogFile(path, true, now, [])];
      assert r[|entries|].path == path;
      Some(r)
  }

  /** Appending a line to the file at `path` and flushing it: the file's time becomes `now`. */
  function AppendLine(entries: seq<LogFile>, path: string, line: string, now: int): seq<LogFile> {
    seq(|entries|, i requires 0 <= i < |entries| =>
      if entries[i].path == path then entries[i].(lines := entries[i].lines + [line], lastModified := now)
      else entries[i])
  }

  /** Appending touches only the file at `path`, and leaves the line last in it. */
  lemma AppendLineTouchesOnlyPath(entries: seq<LogFile>, path: string, line: string, now: int)
    ensures |AppendLine(entries, path, line, now)| == |entries|
    ensures forall i :: 0 <= i < |entries| ==>
      AppendLine(entries, path, line, now)[i].path == entries[i].path
      && AppendLine(entries, path, line, now)[i].isFile == entries[i].isFile
    ensures forall i :: 0 <= i < |entries| && entries[i].path != path ==> AppendLine(entries, path, line, now)[i] == entries[i]
    ensures forall i :: 0 <= i < |entries| && entries[i].path == path ==>
      AppendLine(entries, path, line, now)[i].lastModified == now
      && AppendLine(entries, path, line, now)[i].lines == entries[i].lines + [line]
  {
  }

  /** The exception a failed rollover turns into. */
  const WRITE_ERROR: Exception := CandlestackException("MetricsWriter encountered an error attempting to close and open a new writer")

  /** What a write leaves behind: its outcome, whether a writer is open, and the directory. */
  datatype WriteOutcome = WriteOutcome(result: Result<()>, writerOpen: bool, entries: seq<LogFile>)

  /**
   * `writeMetric(metricData)`: the open writer is kept while its file is the file of the day;
   * otherwise the file of the day is opened for appending. The line goes to that file.
   */
  function Write(dir: string, currentFileName: string, writerOpen: bool, entries: seq<LogFile>,
                 metricData: string, day: string, now: int): WriteOutcome
  {
    var path := Child(dir, FileName(day));
    var target := if writerOpen && currentFileName == FileName(day) then Some(entries) else OpenForAppend(entries, path, now);
    match target
    case None => WriteOutcome(Err(WRITE_ERROR), false, entries)
    case Some(es) => WriteOutcome(Ok(()), true, AppendLine(es, path, metricData, now))
  }

  /**
   * A write fails only when the file of the day is to be opened and something other than a
   * regular file is in its place; nothing is written then, and no writer is left open.
   */
  lemma WriteFailure(dir: string, currentFileName: string, writerOpen: bool, entries: seq<LogFile>,
                     metricData: string, day: string, now: int)
    ensures var o := Write(dir, currentFileName, writerOpen, entries, metricData, day, now);
      o.result.Err? <==> !(writerOpen && currentFileName == FileName(day)) && IsOtherAt(entries, Child(dir, FileName(day)))
    ensures var o := Write(dir, currentFileName, writerOpen, entries, metricData, day, now);
      o.result.Err? ==> o.entries == entries && !o.writerOpen
  {
  }

  /**
   * A write that succeeds leaves a writer open on the file of the day, the line last in that
   * file, the file's time `now`, and every other listed entry as it was.
   */
  lemma WriteAppends(dir: string, currentFileName: string, writerOpen: bool, entries: seq<LogFile>,
                     metricData: string, day: string, now: int)
    requires writerOpen ==> IsFileAt(entries, Child(dir, currentFileName))
    requires Write(dir, currentFileName, writerOpen, entries, metricData, day, now).result.Ok?
    ensures var o := Write(dir, currentFileName, writerOpen, entries, metricData, day, now);
      o.writerOpen && IsFileAt(o.entries, Child(dir, FileName(day))) && |o.entries| >= |entries|
    ensures var o := Write(dir, currentFileName, writerOpen, entries, metricData, day, now);
      forall i :: 0 <= i < |entries| && entries[i].path != Child(dir, FileName(day)) ==> o.entries[i] == entries[i]
    ensures var o := Write(dir, currentFileName, writerOpen, entries, metricData, day, now);
      forall i :: 0 <= i < |o.entries| && o.entries[i].path == Child(dir, FileName(day)) ==>
        o.entries[i].lastModified == now && Last(o.entries[i].lines) == Some(metricData)
  {
    var path := Child(dir, FileName(day));
    var target := if writerOpen && currentFileName == FileName(day) then Some(entries) else OpenForAppend(entries, path, now);
    var es := target.value;
    AppendLineTouchesOnlyPath(es, path, metricData, now);
    var k :| 0 <= k < |es| && es[k].path == path && es[k].isFile;
    assert AppendLine(es, path, metricData, now)[k].isFile;
  }

  function Last(lines: seq<string>): Option<string> {
    if |lines| == 0 then None else Some(lines[|lines| - 1])
  }

  /**
   * A record just written is what recovery starts from: when the write's time is later than
   * every other file's, a scan that succeeds finds a date no earlier than the record's.
   */
  lemma WrittenRecordIsRecovered(entries: seq<LogFile>, path: string, q: Query, timestamp: string, metricValue: int,
                                 now: int, parse: string -> Option<int>, date: int)
    requires IsFileAt(entries, path) && LONG_MIN < now
    requires forall i :: 0 <= i < |entries| ==> entries[i].lastModified < now
    requires '@' !in q.instanceId && '"' !in timestamp && parse(timestamp) == Some(date)
    ensures var line := ConvertMetricData(q.resourceType, q.instanceId, timestamp, q.metricName, metricValue);
      var r := MostRecentMetricDate(AppendLine(entries, path, line, now), q, parse);
      r.Ok? ==> r.value.Some? && r.value.value >= date
  {
    var line := ConvertMetricData(q.resourceType, q.instanceId, timestamp, q.metricName, metricValue);
    var es := AppendLine(entries, path, line, now);
    AppendLineTouchesOnlyPath(entries, path, line, now);
    var w :| 0 <= w < |entries| && entries[w].path == path && entries[w].isFile;
    assert es[w].isFile && es[w].lastModified == now;
    NewestIsFirstNewest(es);
    var k :| FirstNewest(es, k) && Newest(es).value == es[k];
    assert es[k].path == path;
    RecordDate(q, timestamp, metricValue, parse, date, es[k].path);
    AppendedDateIsBound(entries[k].lines, line, q, parse, es[k].path, date);
  }

  // ---------------------------------------------------------------- the log

  /** The exception a directory setting that names a file turns into. */
  function NotADirectory(dir: string): Exception {
    CandlestackException("Provided property [" + DIR_PROPERTY_KEY + "] is not a directory [" + dir + "]")
  }

  /** The exception a log file that cannot be opened at start-up turns into. */
  function OpenError(path: string): Exception {
    CandlestackException("MetricsWriter failed to open file writer for file [" + path + "]")
  }

  /**
   * The directory setting: the required, trimmed value of `metrics.writer.dir`, which must
   * not name something other than a directory.
   */
  function LogDirectory(g: Option<Properties>, kindOf: string -> PathKind): (r: Result<string>)
    ensures r.Ok? <==> GetRequiredStringProperty(g, DIR_PROPERTY_KEY).Ok?
                       && kindOf(GetRequiredStringProperty(g, DIR_PROPERTY_KEY).value) != OtherFile
    ensures r.Ok? ==> r.value == GetRequiredStringProperty(g, DIR_PROPERTY_KEY).value
  {
    var dir :- GetRequiredStringProperty(g, DIR_PROPERTY_KEY);
    if kindOf(dir) == OtherFile then Err(NotADirectory(dir)) else Ok(dir)
  }

  class ReaderWriter {
    const dir: string
    var currentFileName: string
    var writerOpen: bool
    var entries: seq<LogFile>

    /** An open writer writes to a regular file of the directory. */
    predicate Valid()
      reads this
    {
      writerOpen ==> IsFileAt(entries, Child(dir, currentFileName))
    }

    /** The log with the file of the day open for appending, created when missing. */
    constructor(dir: string, day: string, entries: seq<LogFile>, now: int)
      requires OpenForAppend(entries, Child(dir, FileName(day)), now).Some?
      ensures Valid()
      ensures this.dir == dir && currentFileName == FileName(day) && writerOpen
      ensures this.entries == OpenForAppend(entries, Child(dir, FileName(day)), now).value
    {
      this.dir := dir;
      currentFileName := FileName(day);
      writerOpen := true;
      this.entries := OpenForAppend(entries, Child(dir, FileName(day)), now).value;
    }

    /** `lastFileModified()` */
    method LastFileModified() returns (choice: Option<LogFile>)
      ensures choice == Newest(entries)
    {
      choice := None;
      var lastMod := LONG_MIN;
      var i := 0;
      while i < |entries|
        invariant 0 <= i <= |entries|
        invariant choice == Newest(entries[..i]) && lastMod == LastMod(choice)
      {
        assert entries[..i + 1][..i] == entries[..i];
        if entries[i].isFile && entries[i].lastModified > lastMod {
          choice := Some(entries[i]);
          lastMod := entries[i].lastModified;
        }
        i := i + 1;
      }
      assert entries[..i] == entries;
    }

    /** `readMostRecentMetricDate(resourceType, instanceId, metricName)` */
    method ReadMostRecentMetricDate(q: Query, parse: string -> Option<int>) returns (r: Result<Option<int>>)
      ensures r == MostRecentMetricDate(entries, q, parse)
    {
      var newest := LastFileModified();
      if newest.None? {
        return Ok(None);
      }
      var f := newest.value;
      var sanitizedType := SanitizeString(q.resourceType);
      var sanitizedInstanceId := SanitizeString(q.instanceId);
      var sanitizedMetricName := SanitizeString(q.metricName);
      var mostRecent: Option<int> := None;
      var i := 0;
      while i < |f.lines|
        invariant 0 <= i <= |f.lines|
        invariant MostRecentIn(f.lines[..i], q, parse, f.path) == Ok(mostRecent)
      {
        var line := f.lines[i];
        MostRecentInStep(f.lines, i, q, parse, f.path);
        if Contains(line, sanitizedType) && Contains(line, sanitizedInstanceId) && Contains(line, sanitizedMetricName) {
          var timestamp := TimestampText(line);
          if timestamp.Err? {
            MostRecentInStopsAtFailure(f.lines, i + 1, q, parse, f.path);
            return Err(timestamp.error);
          }
          var currentDate := parse(timestamp.value);
          if currentDate.None? {
            MostRecentInStopsAtFailure(f.lines, i + 1, q, parse, f.path);
            return Err(ReadError(f.path));
          }
          if mostRecent.None? || currentDate.value > mostRecent.value {
            mostRecent := currentDate;
          }
        }
        i := i + 1;
      }
      assert f.lines[..i] == f.lines;
      return Ok(mostRecent);
    }

    /** `writeMetric(metricData)`: roll over to the file of the day when needed, then append the line. */
    method WriteLine(metricData: string, day: string, now: int) returns (r: Result<()>)
      requires Valid()
      modifies this
      ensures Valid()
      ensures var o := Write(dir, old(currentFileName), old(writerOpen), old(entries), metricData, day, now);
        r == o.result && writerOpen == o.writerOpen && entries == o.entries
      ensures currentFileName == FileName(day)
    {
      var fileName := FileName(day);
      var path := Child(dir, fileName);
      if !writerOpen || currentFileName != fileName {
        writerOpen := false;
        currentFileName := fileName;
        var target := OpenForAppend(entries, path, now);
        if target.None? {
          return Err(WRITE_ERROR);
        }
        entries := target.value;
        writerOpen := true;
      }
      WriteAppends(dir, old(currentFileName), old(writerOpen), old(entries), metricData, day, now);
      entries := AppendLine(entries, path, metricData, now);
      r := Ok(());
    }

    /** `writeMetric(resourceType, instanceId, metricDate, metricName, metricValue)` */
    method WriteMetric(resourceType: string, instanceId: string, timestamp: string, metricName: string, metricValue: int,
                       day: string, now: int) returns (r: Result<()>)
      requires Valid()
      modifies this
      ensures Valid()
      ensures var o := Write(dir, old(currentFileName), old(writerOpen), old(entries),
                             ConvertMetricData(resourceType, instanceId, timestamp, metricName, metricValue), day, now);
        r == o.result && writerOpen == o.writerOpen && entries == o.entries
      ensures currentFileName == FileName(day)
    {
      r := WriteLine(ConvertMetricData(resourceType, instanceId, timestamp, metricName, metricValue), day, now);
    }
  }

  /**
   * The constructor: the directory setting is checked, a missing directory is created empty,
   * and the file of the day is opened for appending.
   */
  method Open(g: Option<Properties>, kindOf: string -> PathKind, listing: string -> seq<LogFile>, day: string, now: int)
    returns (r: Result<ReaderWriter>)
    ensures LogDirectory(g, kindOf).Err? ==> r == Err(LogDirectory(g, kindOf).error)
    ensures LogDirectory(g, kindOf).Ok? ==>
      var dir := LogDirectory(g, kindOf).value;
      var entries := if kindOf(dir) == Missing then [] else listing(dir);
      var path := Child(dir, FileName(day));
      match OpenForAppend(entries, path, now)
      case None => r == Err(OpenError(path))
      case Some(es) => r.Ok? && fresh(r.value) && r.value.Valid() && r.value.dir == dir
                       && r.value.entries == es && r.value.writerOpen && r.value.currentFileName == FileName(day)
  {
    var dir :- LogDirectory(g, kindOf);
    var entries := if kindOf(dir) == Missing then [] else listing(dir);
    var path := Child(dir, FileName(day));
    if OpenForAppend(entries, path, now).None? {
      return Err(OpenError(path));
    }
    var log := new ReaderWriter(dir, day, entries, now);
    return Ok(log);
  }
}
