/**
 * `SQSCloudWatchMetric`: the CloudWatch metric of an SQS queue, with the Nagios service that
 * checks it and the Nagios command that runs its script.
 */
module SQSCloudWatchMetric {
  import opened Wrappers
  import opened JavaString
  import opened GlobalCandlestackProperties
  import opened AwsMetric
  import GlobalAWSProperties
  import MetricsReaderWriter
  import Service
  import Command

  datatype Metric = ApproximateAgeOfOldestMessage

  const NAMESPACE: string := "AWS/SQS"
  const DIMENSION_KEY: string := "QueueName"

  /** `getStatistic()`: the age of the oldest message in the period. */
  function Statistic(m: Metric): (s: CloudWatchStatistic)
    ensures s == Maximum
  {
    match m
    case ApproximateAgeOfOldestMessage => Maximum
  }

  function ServiceName(m: Metric): string {
    match m
    case ApproximateAgeOfOldestMessage => "check-queue-message-age"
  }

  function CommandName(m: Metric): string {
    match m
    case ApproximateAgeOfOldestMessage => "check-aws-sqs-queue-message-age"
  }

  /** `getResourceName()`: the script the command runs. */
  function ResourceName(m: Metric): string {
    match m
    case ApproximateAgeOfOldestMessage => "check-aws-sqs-queue-message-age-via-es.sh"
  }

  /** `getName()` / `name()`. */
  function Name(m: Metric): string {
    match m
    case ApproximateAgeOfOldestMessage => "ApproximateAgeOfOldestMessage"
  }

  /** `valueOf(name)`: the constant with exactly that name, none for any other text. */
  function ValueOf(name: string): (r: Option<Metric>)
    ensures r.Some? ==> Name(r.value) == name
    ensures forall m :: Name(m) == name ==> r == Some(m)
  {
    if name == "ApproximateAgeOfOldestMessage" then
      // the type has this one constant only
      assert forall m {:trigger Name(m)} :: m == ApproximateAgeOfOldestMessage;
      Some(ApproximateAgeOfOldestMessage)
    else None
  }

  /** `getDimension(dimensionValue)`: the queue named by the value. */
  function GetDimension(dimensionValue: string): (d: Dimension)
    ensures d.name == "QueueName" && d.value == dimensionValue
  {
    Dimension(DIMENSION_KEY, dimensionValue)
  }

  lemma PlainCommandName(m: Metric)
    ensures '!' !in CommandName(m)
  {
  }

  lemma PlainResourceName(m: Metric)
    ensures ' ' !in ResourceName(m)
  {
  }

  function WarningLevel(g: Option<Properties>, m: Metric, queueName: string): Result<int> {
    GlobalAWSProperties.DetermineAlertValue(g, GlobalAWSProperties.SQS_CLOUDWATCH_METRIC_WARNING_PREFIX, Name(m), queueName)
  }

  function CriticalLevel(g: Option<Properties>, m: Metric, queueName: string): Result<int> {
    GlobalAWSProperties.DetermineAlertValue(g, GlobalAWSProperties.SQS_CLOUDWATCH_METRIC_CRITICAL_PREFIX, Name(m), queueName)
  }

  /**
   * The check command `getService` builds: the command name, the sanitized queue name and its
   * two thresholds, as Nagios reads them back by splitting on '!'; it fails when a threshold
   * cannot be read.
   */
  function CheckCommandFor(g: Option<Properties>, m: Metric, queueName: string): (r: Result<string>)
    ensures r.Ok? <==> WarningLevel(g, m, queueName).Ok? && CriticalLevel(g, m, queueName).Ok?
    ensures r.Ok? && '!' !in queueName ==>
      Split(r.value, "!")
        == [CommandName(m), MetricsReaderWriter.SanitizeString(queueName),
            IntToString(WarningLevel(g, m, queueName).value), IntToString(CriticalLevel(g, m, queueName).value)]
  {
    var warning :- WarningLevel(g, m, queueName);
    var critical :- CriticalLevel(g, m, queueName);
    var id := MetricsReaderWriter.SanitizeString(queueName);
    PlainCommandName(m);
    MetricsReaderWriter.SanitizeStringKeeps(queueName, '!');
    CheckCommandArguments(CommandName(m), id, warning, critical);
    Ok(CheckCommand(CommandName(m), id, warning, critical))
  }

  /**
   * `getService(queueName, contactGroups)`: a service on the queue's host (its name
   * unsanitized) running that check command. The four-argument `Service` constructor it
   * calls is not part of this model; it is taken to be the six-argument one with the notes
   * and the notification period as parameters.
   */
  function GetService(g: Option<Properties>, m: Metric, notes: string, notificationPeriod: string,
                      queueName: string, contactGroups: StringSet): (r: Result<Service.Service>)
    ensures r.Ok? <==> CheckCommandFor(g, m, queueName).Ok?
    ensures r.Ok? ==> r.value.checkCommand == CheckCommandFor(g, m, queueName).value
    ensures r.Ok? ==> r.value.description == ServiceName(m) && r.value.hostName == queueName
                      && r.value.notes == notes && r.value.notificationPeriod == notificationPeriod
                      && r.value.contactGroups == contactGroups
  {
    var command :- CheckCommandFor(g, m, queueName);
    Ok(Service.New(ServiceName(m), queueName, command, notes, notificationPeriod, contactGroups))
  }

  /** `getMonitorCommand(relativePathToMonitorResource)`: the command running the metric's script. */
  function GetMonitorCommand(g: Option<Properties>, m: Metric, relativePath: string): (r: Command.Command)
    ensures r.name == CommandName(m)
    ensures ' ' !in relativePath && ' ' !in LogsHost(g) && ' ' !in LogsAuthToken(g) ==>
      Split(r.line, " ") == [relativePath + ResourceName(m), LogsHost(g), LogsAuthToken(g), ARG1, ARG2, ARG3]
  {
    PlainResourceName(m);
    MonitorCommandLineWords(relativePath, ResourceName(m), LogsHost(g), LogsAuthToken(g));
    Command.Command(CommandName(m), MonitorCommandLine(relativePath, ResourceName(m), LogsHost(g), LogsAuthToken(g)))
  }

  /**
   * The $ARG1$ the service passes its script is the queue of the dimension the fetcher asks
   * CloudWatch for, sanitized as the records are: a log query made from it finds every record
   * written for that dimension.
   */
  lemma CheckCommandMatchesDimension(g: Option<Properties>, m: Metric, queueName: string, resourceType: string,
                                      timestamp: string, metricName: string, metricValue: int)
    requires CheckCommandFor(g, m, queueName).Ok? && '!' !in queueName
    ensures var arg1 := Split(CheckCommandFor(g, m, queueName).value, "!")[1];
      && arg1 == MetricsReaderWriter.SanitizeString(GetDimension(queueName).value)
      && MetricsReaderWriter.LineMatches(
           MetricsReaderWriter.ConvertMetricData(resourceType, GetDimension(queueName).value, timestamp, metricName, metricValue),
           MetricsReaderWriter.Query(resourceType, arg1, metricName))
  {
    var dimension := GetDimension(queueName).value;
    MetricsReaderWriter.SanitizeStringIdempotent(dimension);
    MetricsReaderWriter.RecordMatchesItsQuery(MetricsReaderWriter.Query(resourceType, dimension, metricName), timestamp, metricValue);
  }

  /** `GlobalAWSProperties.getSQSCloudwatchMetrics()`: the constants named in the setting. */
  method GetSQSCloudwatchMetrics(g: Option<Properties>) returns (r: Result<set<Metric>>)
    ensures r == GlobalAWSProperties.EnumSetProperty(g, GlobalAWSProperties.SQS_CLOUDWATCH_METRICS, ValueOf)
    ensures r.Ok? <==> g.Some? && GlobalAWSProperties.EnumSetReadable(g.value, GlobalAWSProperties.SQS_CLOUDWATCH_METRICS, ValueOf)
    ensures r.Ok? && Trim(g.value[GlobalAWSProperties.SQS_CLOUDWATCH_METRICS]) == "" ==> r.value == {}
    ensures r.Ok? ==> forall m :: m in r.value <==>
      Name(m) in GetSetProperty(g, GlobalAWSProperties.SQS_CLOUDWATCH_METRICS, true).value
  {
    r := GlobalAWSProperties.GetEnumSet(g, GlobalAWSProperties.SQS_CLOUDWATCH_METRICS, ValueOf);
  }
}
