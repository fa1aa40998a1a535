/**
 * `GlobalAWSProperties`: the AWS settings read from the global properties. Scalar settings
 * fall back to fixed defaults; alert thresholds are looked up per resource with a fallback to
 * a shared default key; metric lists name enum constants.
 */
module GlobalAWSProperties {
  import opened Wrappers
  import opened JavaString
  import opened GlobalCandlestackProperties

  const DEFAULT_METRICS_FETCHER_SLEEP_MIN: int := 5

  const REGION_PROPERTY_KEY: string := "aws.region"
  const LOGS_HOST: string := "aws.logs.host"
  const LOGS_AUTH_TOKEN: string := "aws.logs.authtoken"
  const CLOUDWATCH_DETAILED_MONITORING_ENABLED: string := "aws.cloudwatch.detailed.monitoring.enabled"

  const EB_ENVIRONMENT_NAME_PREFIX: string := "aws.eb.environment.name.prefix"
  const EB_ENVIRONMENT_NAME_REGEX: string := "aws.eb.environment.name.regex"
  const EB_METRICS_FETCHER_SLEEP: string := "aws.eb.metrics.fetcher.sleep.min"
  const EB_CLOUDWATCH_METRICS: string := "aws.eb.cloudwatch.metrics"
  const EB_ENABLED: string := "aws.eb.enabled"
  const EB_CLOUDWATCH_METRIC_WARNING_PREFIX: string := "aws.eb.cloudwatch.metric.warning."
  const EB_CLOUDWATCH_METRIC_CRITICAL_PREFIX: string := "aws.eb.cloudwatch.metric.critical."

  const EC2_METRICS_FETCHER_SLEEP: string := "aws.ec2.metrics.fetcher.sleep.min"
  const EC2_GRAPHITE_METRICS: string := "aws.ec2.graphite.metrics"
  const EC2_CLOUDWATCH_METRICS: string := "aws.ec2.cloudwatch.metrics"
  const EC2_ENABLED: string := "aws.ec2.enabled"
  const EC2_GRAPHITE_METRIC_WARNING_PREFIX: string := "aws.ec2.graphite.metric.warning."
  const EC2_GRAPHITE_METRIC_CRITICAL_PREFIX: string := "aws.ec2.graphite.metric.critical."
  const EC2_CLOUDWATCH_METRIC_WARNING_PREFIX: string := "aws.ec2.cloudwatch.metric.warning."
  const EC2_CLOUDWATCH_METRIC_CRITICAL_PREFIX: string := "aws.ec2.cloudwatch.metric.critical."

  const SQS_QUEUE_NAME_PREFIX: string := "aws.sqs.queue.name.prefix"
  const SQS_QUEUE_NAME_REGEX: string := "aws.sqs.queue.name.regex"
  const SQS_MONITOR_DEAD_LETTER: string := "aws.sqs.monitor.deadletter"
  const SQS_METRICS_FETCHER_SLEEP: string := "aws.sqs.metrics.fetcher.sleep.min"
  const SQS_QUEUE_ATTRIBUTES: string := "aws.sqs.queue.attributes"
  const SQS_CLOUDWATCH_METRICS: string := "aws.sqs.cloudwatch.metrics"
  const SQS_ENABLED: string := "aws.sqs.enabled"
  const SQS_QUEUE_ATTRIBUTE_WARNING_PREFIX: string := "aws.sqs.queue.attribute.warning."
  const SQS_QUEUE_ATTRIBUTE_CRITICAL_PREFIX: string := "aws.sqs.queue.attribute.critical."
  const SQS_CLOUDWATCH_METRIC_WARNING_PREFIX: string := "aws.sqs.cloudwatch.metric.warning."
  const SQS_CLOUDWATCH_METRIC_CRITICAL_PREFIX: string := "aws.sqs.cloudwatch.metric.critical."

  const RDS_DBINSTANCE_PREFIX: string := "aws.rds.dbinstance.prefix"
  const RDS_DBINSTANCE_REGEX: string := "aws.rds.dbinstance.regex"
  const RDS_METRICS_FETCHER_SLEEP: string := "aws.rds.metrics.fetcher.sleep.min"
  const RDS_CLOUDWATCH_METRICS: string := "aws.rds.cloudwatch.metrics"
  const RDS_ENABLED: string := "aws.rds.enabled"
  const RDS_CLOUDWATCH_METRIC_WARNING_PREFIX: string := "aws.rds.cloudwatch.metric.warning."
  const RDS_CLOUDWATCH_METRIC_CRITICAL_PREFIX: string := "aws.rds.cloudwatch.metric.critical."

  /*
   * Required strings
   */

  /** `getRegion()`: the trimmed, non-blank region. */
  function GetRegion(g: Option<Properties>): (r: Result<string>)
    ensures r.Ok? <==> g.Some? && REGION_PROPERTY_KEY in g.value && Trim(g.value[REGION_PROPERTY_KEY]) != ""
    ensures r.Ok? ==> r.value == Trim(g.value[REGION_PROPERTY_KEY])
  {
    GetRequiredStringProperty(g, REGION_PROPERTY_KEY)
  }

  /** `getLogsHost()`: the trimmed, non-blank host of the log store. */
  function GetLogsHost(g: Option<Properties>): (r: Result<string>)
    ensures r.Ok? <==> g.Some? && LOGS_HOST in g.value && Trim(g.value[LOGS_HOST]) != ""
    ensures r.Ok? ==> r.value == Trim(g.value[LOGS_HOST]) && r.value != ""
  {
    GetRequiredStringProperty(g, LOGS_HOST)
  }

  /** `getLogsAuthToken()`: the trimmed, non-blank token for the log store. */
  function GetLogsAuthToken(g: Option<Properties>): (r: Result<string>)
    ensures r.Ok? <==> g.Some? && LOGS_AUTH_TOKEN in g.value && Trim(g.value[LOGS_AUTH_TOKEN]) != ""
    ensures r.Ok? ==> r.value == Trim(g.value[LOGS_AUTH_TOKEN]) && r.value != ""
  {
    GetRequiredStringProperty(g, LOGS_AUTH_TOKEN)
  }

  /*
   * Settings with a default
   */

  /**
   * A boolean setting with a default: once properties are installed it never fails; a missing
   * or unrecognised value gives the default, a recognised one wins.
   */
  function Flag(g: Option<Properties>, key: string, defaultVal: bool): (r: Result<bool>)
    ensures r.Ok? <==> g.Some?
    ensures g.Some? && key !in g.value ==> r == Ok(defaultVal)
    ensures g.Some? && ToBooleanObject(GetProperty(g.value, key)).Some? ==>
      r == Ok(ToBooleanObject(GetProperty(g.value, key)).value)
  {
    GetBooleanProperty(g, key, Some(defaultVal))
  }

  /** A prefix or regular-expression setting: "" when missing, the trimmed value otherwise. */
  function TrimmedSetting(g: Option<Properties>, key: string): (r: Result<string>)
    ensures r.Ok? <==> g.Some?
    ensures g.Some? && key !in g.value ==> r == Ok("")
    ensures g.Some? && key in g.value ==> r == Ok(Trim(g.value[key]))
    ensures r.Ok? ==> Trim(r.value) == r.value
  {
    var v :- GetStringProperty(g, key, Some(""));
    TrimIdempotent(v);
    Ok(Trim(v))
  }

  /** A fetcher's sleep in minutes: 5 when missing or not an int, the int value otherwise. */
  function SleepMinutes(g: Option<Properties>, key: string): (r: Result<int>)
    ensures r.Ok? <==> g.Some?
    ensures g.Some? && (key !in g.value || ParseInt(g.value[key]).None?) ==> r == Ok(DEFAULT_METRICS_FETCHER_SLEEP_MIN)
    ensures g.Some? && key in g.value && ParseInt(g.value[key]).Some? ==> r == Ok(ParseInt(g.value[key]).value)
  {
    GetIntProperty(g, key, Some(DEFAULT_METRICS_FETCHER_SLEEP_MIN))
  }

  /** `isCloudWatchDetailedMonitoringEnabled()`, off unless set. */
  function IsCloudWatchDetailedMonitoringEnabled(g: Option<Properties>): (r: Result<bool>)
    ensures r.Ok? <==> g.Some?
    ensures g.Some? && CLOUDWATCH_DETAILED_MONITORING_ENABLED !in g.value ==> r == Ok(false)
  {
    Flag(g, CLOUDWATCH_DETAILED_MONITORING_ENABLED, false)
  }

  /** `isEBEnabled()`, off unless set. */
  function IsEBEnabled(g: Option<Properties>): (r: Result<bool>)
    ensures r.Ok? <==> g.Some?
    ensures g.Some? && EB_ENABLED !in g.value ==> r == Ok(false)
  {
    Flag(g, EB_ENABLED, false)
  }

  /** `isSQSEnabled()`, off unless set. */
  function IsSQSEnabled(g: Option<Properties>): (r: Result<bool>)
    ensures r.Ok? <==> g.Some?
    ensures g.Some? && SQS_ENABLED !in g.value ==> r == Ok(false)
  {
    Flag(g, SQS_ENABLED, false)
  }

  /** `isSQSMonitorDeadLetterEnabled()`, on unless set: the one flag that defaults to true. */
  function IsSQSMonitorDeadLetterEnabled(g: Option<Properties>): (r: Result<bool>)
    ensures r.Ok? <==> g.Some?
    ensures g.Some? && SQS_MONITOR_DEAD_LETTER !in g.value ==> r == Ok(true)
  {
    Flag(g, SQS_MONITOR_DEAD_LETTER, true)
  }

  /** `isRDSEnabled()`, off unless set. */
  function IsRDSEnabled(g: Option<Properties>): (r: Result<bool>)
    ensures r.Ok? <==> g.Some?
    ensures g.Some? && RDS_ENABLED !in g.value ==> r == Ok(false)
  {
    Flag(g, RDS_ENABLED, false)
  }

  /** `getEBEnvrionmentNamePrefix()`. */
  function GetEBEnvironmentNamePrefix(g: Option<Properties>): (r: Result<string>)
    ensures r.Ok? <==> g.Some?
    ensures g.Some? && EB_ENVIRONMENT_NAME_PREFIX !in g.value ==> r == Ok("")
    ensures r.Ok? ==> Trim(r.value) == r.value
  {
    TrimmedSetting(g, EB_ENVIRONMENT_NAME_PREFIX)
  }

  /** `getEBEnvrionmentNameRegex()`. */
  function GetEBEnvironmentNameRegex(g: Option<Properties>): (r: Result<string>)
    ensures r.Ok? <==> g.Some?
    ensures g.Some? && EB_ENVIRONMENT_NAME_REGEX !in g.value ==> r == Ok("")
    ensures r.Ok? ==> Trim(r.value) == r.value
  {
    TrimmedSetting(g, EB_ENVIRONMENT_NAME_REGEX)
  }

  /** `getSQSQueueNamePrefix()`. */
  function GetSQSQueueNamePrefix(g: Option<Properties>): (r: Result<string>)
    ensures r.Ok? <==> g.Some?
    ensures g.Some? && SQS_QUEUE_NAME_PREFIX !in g.value ==> r == Ok("")
    ensures r.Ok? ==> Trim(r.value) == r.value
  {
    TrimmedSetting(g, SQS_QUEUE_NAME_PREFIX)
  }

  /** `getSQSQueueNameRegex()`. */
  function GetSQSQueueNameRegex(g: Option<Properties>): (r: Result<string>)
    ensures r.Ok? <==> g.Some?
    ensures g.Some? && SQS_QUEUE_NAME_REGEX !in g.value ==> r == Ok("")
    ensures r.Ok? ==> Trim(r.value) == r.value
  {
    TrimmedSetting(g, SQS_QUEUE_NAME_REGEX)
  }

  /** `getRDSDBInstancePrefix()`. */
  function GetRDSDBInstancePrefix(g: Option<Properties>): (r: Result<string>)
    ensures r.Ok? <==> g.Some?
    ensures g.Some? && RDS_DBINSTANCE_PREFIX !in g.value ==> r == Ok("")
    ensures r.Ok? ==> Trim(r.value) == r.value
  {
    TrimmedSetting(g, RDS_DBINSTANCE_PREFIX)
  }

  /** `getRDSDBInstanceRegex()`. */
  function GetRDSDBInstanceRegex(g: Option<Properties>): (r: Result<string>)
    ensures r.Ok? <==> g.Some?
    ensures g.Some? && RDS_DBINSTANCE_REGEX !in g.value ==> r == Ok("")
    ensures r.Ok? ==> Trim(r.value) == r.value
  {
    TrimmedSetting(g, RDS_DBINSTANCE_REGEX)
  }

  /** `getEBMetricsFetcherSleep()`. */
  function GetEBMetricsFetcherSleep(g: Option<Properties>): (r: Result<int>)
    ensures r.Ok? <==> g.Some?
    ensures g.Some? && EB_METRICS_FETCHER_SLEEP !in g.value ==> r == Ok(5)
  {
    SleepMinutes(g, EB_METRICS_FETCHER_SLEEP)
  }

  /** `getSQSMetricsFetcherSleep()`. */
  function GetSQSMetricsFetcherSleep(g: Option<Properties>): (r: Result<int>)
    ensures r.Ok? <==> g.Some?
    ensures g.Some? && SQS_METRICS_FETCHER_SLEEP !in g.value ==> r == Ok(5)
  {
    SleepMinutes(g, SQS_METRICS_FETCHER_SLEEP)
  }

  /** `getRDSMetricsFetcherSleep()`. */
  function GetRDSMetricsFetcherSleep(g: Option<Properties>): (r: Result<int>)
    ensures r.Ok? <==> g.Some?
    ensures g.Some? && RDS_METRICS_FETCHER_SLEEP !in g.value ==> r == Ok(5)
  {
    SleepMinutes(g, RDS_METRICS_FETCHER_SLEEP)
  }

  /*
   * Alert thresholds
   */

  /** The per-resource threshold key: `<prefix><id>.<metric>`. */
  function OverrideKey(propertyKeyPrefix: string, propertyKeySuffix: string, overrideId: string): string {
    propertyKeyPrefix + overrideId + "." + propertyKeySuffix
  }

  /** The shared threshold key: `<prefix>default.<metric>`. */
  function DefaultKey(propertyKeyPrefix: string, propertyKeySuffix: string): string {
    propertyKeyPrefix + "default." + propertyKeySuffix
  }

  /** The per-resource threshold, when it is set to a long that is not negative. */
  predicate HasOverride(p: Properties, key: string) {
    key in p && ParseLong(p[key]).Some? && ParseLong(p[key]).value >= 0
  }

  /**
   * `determineAlertValue(prefix, suffix, overrideId)`: a per-resource value that is not
   * negative wins; a missing, non-numeric or negative one falls back to the shared default
   * key, which then must hold a long.
   */
  function DetermineAlertValue(g: Option<Properties>, propertyKeyPrefix: string, propertyKeySuffix: string,
                               overrideId: string): (r: Result<int>)
    ensures g.None? ==> r.Err?
    ensures g.Some? && HasOverride(g.value, OverrideKey(propertyKeyPrefix, propertyKeySuffix, overrideId)) ==>
      r == Ok(ParseLong(g.value[OverrideKey(propertyKeyPrefix, propertyKeySuffix, overrideId)]).value)
    ensures g.Some? && !HasOverride(g.value, OverrideKey(propertyKeyPrefix, propertyKeySuffix, overrideId)) ==>
      r == GetLongProperty(g, DefaultKey(propertyKeyPrefix, propertyKeySuffix), None)
  {
    var value :- GetLongProperty(g, OverrideKey(propertyKeyPrefix, propertyKeySuffix, overrideId), Some(-1));
    if value < 0 then GetLongProperty(g, DefaultKey(propertyKeyPrefix, propertyKeySuffix), None) else Ok(value)
  }

  /** A threshold stored for the resource itself is used as it is, whatever the default says. */
  lemma OverrideWins(p: Properties, prefix: string, suffix: string, id: string, n: int)
    requires 0 <= n <= LONG_MAX
    ensures DetermineAlertValue(Some(p[OverrideKey(prefix, suffix, id) := IntToString(n)]), prefix, suffix, id) == Ok(n)
  {
    ParseIntegerOfIntToString(n, LONG_MIN, LONG_MAX);
  }

  /** Without a per-resource threshold the default key decides, and fails when it is missing too. */
  lemma MissingOverrideFallsBack(p: Properties, prefix: string, suffix: string, id: string)
    requires OverrideKey(prefix, suffix, id) !in p
    ensures DetermineAlertValue(Some(p), prefix, suffix, id) == GetLongProperty(Some(p), DefaultKey(prefix, suffix), None)
    ensures DefaultKey(prefix, suffix) !in p ==> DetermineAlertValue(Some(p), prefix, suffix, id).Err?
  {
  }

  /**
   * A negative per-resource threshold, "-1" included, counts as unset: the default key's value
   * is used instead.
   */
  lemma NegativeOverrideFallsBack(p: Properties, prefix: string, suffix: string, id: string, n: int, d: int)
    requires LONG_MIN <= n < 0 && LONG_MIN <= d <= LONG_MAX
    requires OverrideKey(prefix, suffix, id) != DefaultKey(prefix, suffix)
    ensures DetermineAlertValue(Some(p[OverrideKey(prefix, suffix, id) := IntToString(n)]
                                      [DefaultKey(prefix, suffix) := IntToString(d)]), prefix, suffix, id) == Ok(d)
  {
    ParseIntegerOfIntToString(n, LONG_MIN, LONG_MAX);
    ParseIntegerOfIntToString(d, LONG_MIN, LONG_MAX);
  }

  /*
   * Metric lists
   */

  /**
   * The constants named by `names`, or `None` as soon as one name is not a constant
   * (`valueOf` throwing).
   */
  function EnumsOf<E(==,!new)>(names: seq<string>, valueOf: string -> Option<E>): (r: Option<set<E>>)
    ensures r.Some? <==> forall i :: 0 <= i < |names| ==> valueOf(names[i]).Some?
    ensures r.Some? ==> forall e :: e in r.value <==> exists i :: 0 <= i < |names| && valueOf(names[i]) == Some(e)
  {
    if |names| == 0 then Some({})
    else
      var last := names[|names| - 1];
      match EnumsOf(names[..|names| - 1], valueOf)
      case None => None
      case Some(s) => if valueOf(last).None? then None else Some(s + {valueOf(last).value})
  }

  /**
   * An enum-set setting can be read: the key is present, and its trimmed value is blank or
   * every ','-piece of it names a constant.
   */
  predicate EnumSetReadable<E(!new)>(p: Properties, key: string, valueOf: string -> Option<E>) {
    key in p && (Trim(p[key]) == "" || forall x :: x in Split(Trim(p[key]), ",") ==> valueOf(x).Some?)
  }

  /**
   * An enum-set setting: the empty value allowed, each ','-piece mapped to its constant, an
   * unknown name failing with the setting's key.
   */
  function EnumSetProperty<E(==,!new)>(g: Option<Properties>, key: string, valueOf: string -> Option<E>): (r: Result<set<E>>)
    ensures r.Ok? <==> g.Some? && EnumSetReadable(g.value, key, valueOf)
    ensures r.Ok? && Trim(g.value[key]) == "" ==> r.value == {}
    ensures r.Ok? && Trim(g.value[key]) != "" ==> forall e :: e in r.value <==>
      exists x :: x in Split(Trim(g.value[key]), ",") && valueOf(x) == Some(e)
  {
    var names :- GetSetProperty(g, key, true);
    match EnumsOf(names, valueOf)
    case None => Err(PropertiesException(key))
    case Some(s) => Ok(s)
  }

  /** The loop shared by the `get...Metrics` and `getSQSQueueAttributes` getters. */
  method GetEnumSet<E(==,!new)>(g: Option<Properties>, key: string, valueOf: string -> Option<E>) returns (r: Result<set<E>>)
    ensures r == EnumSetProperty(g, key, valueOf)
  {
    var names := GetSetProperty(g, key, true);
    if names.Err? {
      return Err(names.error);
    }
    var metrics: set<E> := {};
    var i := 0;
    while i < |names.value|
      invariant 0 <= i <= |names.value|
      invariant EnumsOf(names.value[..i], valueOf) == Some(metrics)
    {
      var metric := valueOf(names.value[i]);
      if metric.None? {
        return Err(PropertiesException(key));
      }
      assert names.value[..i + 1][..i] == names.value[..i];
      metrics := metrics + {metric.value};
      i := i + 1;
    }
    assert names.value[..i] == names.value;
    return Ok(metrics);
  }
}
