/**
 * `RDSCloudWatchMetric`: the CloudWatch metrics of an RDS database instance, each with the
 * Nagios service that checks it and the Nagios command that runs its script.
 */
module RDSCloudWatchMetric {
  import opened Wrappers
  import opened JavaString
  import opened GlobalCandlestackProperties
  import opened AwsMetric
  import GlobalAWSProperties
  import MetricsReaderWriter
  import Service
  import Command

  datatype Metric = CPUUtilization | DatabaseConnections | FreeStorageSpace

  const NAMESPACE: string := "AWS/RDS"
  const DIMENSION_KEY: string := "DBInstanceIdentifier"

  /**
   * `getStatistic()`: the CPU load is averaged, connections take their peak and free storage
   * its low point.
   */
  function Statistic(m: Metric): (s: CloudWatchStatistic)
    ensures s == Average <==> m == CPUUtilization
    ensures s == Maximum <==> m == DatabaseConnections
    ensures s == Minimum <==> m == FreeStorageSpace
  {
    match m
    case CPUUtilization => Average
    case DatabaseConnections => Maximum
    case FreeStorageSpace => Minimum
  }

  function ServiceName(m: Metric): string {
    match m
    case CPUUtilization => "check-cpu"
    case DatabaseConnections => "check-db-connections"
    case FreeStorageSpace => "check-free-storage"
  }

  function CommandName(m: Metric): string {
    match m
    case CPUUtilization => "check-aws-rds-cpu"
    case DatabaseConnections => "check-aws-rds-db-connections"
    case FreeStorageSpace => "check-aws-rds-free-storage"
  }

  /** `getResourceName()`: the script the command runs. */
  function ResourceName(m: Metric): string {
    match m
    case CPUUtilization => "check-aws-rds-cpu-via-es.sh"
    case DatabaseConnections => "check-aws-rds-db-connections-via-es.sh"
    case FreeStorageSpace => "check-aws-rds-free-storage-via-es.sh"
  }

  /** `getName()` / `name()`. */
  function Name(m: Metric): string {
    match m
    case CPUUtilization => "CPUUtilization"
    case DatabaseConnections => "DatabaseConnections"
    case FreeStorageSpace => "FreeStorageSpace"
  }

  /** `valueOf(name)`: the constant with exactly that name, none for any other text. */
  function ValueOf(name: string): (r: Option<Metric>)
    ensures r.Some? ==> Name(r.value) == name
    ensures forall m :: Name(m) == name ==> r == Some(m)
  {
    if name == "CPUUtilization" then Some(CPUUtilization)
    else if name == "DatabaseConnections" then Some(DatabaseConnections)
    else if name == "FreeStorageSpace" then Some(FreeStorageSpace)
    else None
  }

  /** `getDimension(dimensionValue)`: the database instance named by the value. */
  function GetDimension(dimensionValue: string): (d: Dimension)
    ensures d.name == "DBInstanceIdentifier" && d.value == dimensionValue
  {
    Dimension(DIMENSION_KEY, dimensionValue)
  }

  lemma PlainCommandName(m: Metric)
    ensures '!' !in CommandName(m)
  {
  }

  lemma PlainResourceName(m: Metric)
    ensures ' ' !in ResourceName(m)
  {
  }

  function WarningLevel(g: Option<Properties>, m: Metric, dbInstanceId: string): Result<int> {
    GlobalAWSProperties.DetermineAlertValue(g, GlobalAWSProperties.RDS_CLOUDWATCH_METRIC_WARNING_PREFIX, Name(m), dbInstanceId)
  }

  function CriticalLevel(g: Option<Properties>, m: Metric, dbInstanceId: string): Result<int> {
    GlobalAWSProperties.DetermineAlertValue(g, GlobalAWSProperties.RDS_CLOUDWATCH_METRIC_CRITICAL_PREFIX, Name(m), dbInstanceId)
  }

  /**
   * The check command `getService` builds: the command name, the sanitized instance
   * identifier and its two thresholds, as Nagios reads them back by splitting on '!'; it
   * fails when a threshold cannot be read.
   */
  function CheckCommandFor(g: Option<Properties>, m: Metric, dbInstanceId: string): (r: Result<string>)
    ensures r.Ok? <==> WarningLevel(g, m, dbInstanceId).Ok? && CriticalLevel(g, m, dbInstanceId).Ok?
    ensures r.Ok? && '!' !in dbInstanceId ==>
      Split(r.value, "!")
        == [CommandName(m), MetricsReaderWriter.SanitizeString(dbInstanceId),
            IntToString(WarningLevel(g, m, dbInstanceId).value), IntToString(CriticalLevel(g, m, dbInstanceId).value)]
  {
    var warning :- WarningLevel(g, m, dbInstanceId);
    var critical :- CriticalLevel(g, m, dbInstanceId);
    var id := MetricsReaderWriter.SanitizeString(dbInstanceId);
    PlainCommandName(m);
    MetricsReaderWriter.SanitizeStringKeeps(dbInstanceId, '!');
    CheckCommandArguments(CommandName(m), id, warning, critical);
    Ok(CheckCommand(CommandName(m), id, warning, critical))
  }

  /**
   * `getService(dbInstanceId, contactGroups)`: a service on the instance's host (its
   * identifier unsanitized) running that check command. The four-argument `Service`
   * constructor it calls is not part of this model; it is taken to be the six-argument one
   * with the notes and the notification period as parameters.
   */
  function GetService(g: Option<Properties>, m: Metric, notes: string, notificationPeriod: string,
                      dbInstanceId: string, contactGroups: StringSet): (r: Result<Service.Service>)
    ensures r.Ok? <==> CheckCommandFor(g, m, dbInstanceId).Ok?
    ensures r.Ok? ==> r.value.checkCommand == CheckCommandFor(g, m, dbInstanceId).value
    ensures r.Ok? ==> r.value.description == ServiceName(m) && r.value.hostName == dbInstanceId
                      && r.value.notes == notes && r.value.notificationPeriod == notificationPeriod
                      && r.value.contactGroups == contactGroups
  {
    var command :- CheckCommandFor(g, m, dbInstanceId);
    Ok(Service.New(ServiceName(m), dbInstanceId, command, notes, notificationPeriod, contactGroups))
  }

  /** `getMonitorCommand(relativePathToMonitorResource)`: the command running the metric's script. */
  function GetMonitorCommand(g: Option<Properties>, m: Metric, relativePath: string): (r: Command.Command)
    ensures r.name == CommandName(m)
    ensures ' ' !in relativePath && ' ' !in LogsHost(g) && ' ' !in LogsAuthToken(g) ==>
      Split(r.line, " ") == [relativePath + ResourceName(m), LogsHost(g), LogsAuthToken(g), ARG1, ARG2, ARG3]
  {
    PlainResourceName(m);
    MonitorCommandLineWords(relativePath, ResourceName(m), LogsHost(g), LogsAuthToken(g));
    Command.Command(CommandName(m), MonitorCommandLine(relativePath, ResourceName(m), LogsHost(g), LogsAuthToken(g)))
  }

  /**
   * The dimension a fetcher asks CloudWatch for and the $ARG1$ the service passes its script
   * name the same instance once sanitized: a script looking the datapoints up by $ARG1$ finds
   * the records written for that dimension.
   */
  lemma CheckCommandMatchesDimension(g: Option<Properties>, m: Metric, dbInstanceId: string, resourceType: string,
                                      timestamp: string, metricName: string, metricValue: int)
    requires CheckCommandFor(g, m, dbInstanceId).Ok? && '!' !in dbInstanceId
    ensures var arg1 := Split(CheckCommandFor(g, m, dbInstanceId).value, "!")[1];
      && arg1 == MetricsReaderWriter.SanitizeString(GetDimension(dbInstanceId).value)
      && MetricsReaderWriter.LineMatches(
           MetricsReaderWriter.ConvertMetricData(resourceType, GetDimension(dbInstanceId).value, timestamp, metricName, metricValue),
           MetricsReaderWriter.Query(resourceType, arg1, metricName))
  {
    var dimension := GetDimension(dbInstanceId).value;
    MetricsReaderWriter.SanitizeStringIdempotent(dimension);
    MetricsReaderWriter.RecordMatchesItsQuery(MetricsReaderWriter.Query(resourceType, dimension, metricName), timestamp, metricValue);
  }

  /** `GlobalAWSProperties.getRDSCloudwatchMetrics()`: the constants named in the setting. */
  method GetRDSCloudwatchMetrics(g: Option<Properties>) returns (r: Result<set<Metric>>)
    ensures r == GlobalAWSProperties.EnumSetProperty(g, GlobalAWSProperties.RDS_CLOUDWATCH_METRICS, ValueOf)
    ensures r.Ok? <==> g.Some? && GlobalAWSProperties.EnumSetReadable(g.value, GlobalAWSProperties.RDS_CLOUDWATCH_METRICS, ValueOf)
    ensures r.Ok? && Trim(g.value[GlobalAWSProperties.RDS_CLOUDWATCH_METRICS]) == "" ==> r.value == {}
    ensures r.Ok? ==> forall m :: m in r.value <==>
      Name(m) in GetSetProperty(g, GlobalAWSProperties.RDS_CLOUDWATCH_METRICS, true).value
  {
    r := GlobalAWSProperties.GetEnumSet(g, GlobalAWSProperties.RDS_CLOUDWATCH_METRICS, ValueOf);
  }
}
