/**
 * `EBCloudWatchMetric`: the CloudWatch metric of an Elastic Beanstalk environment, with the
 * Nagios service that checks it and the Nagios command that runs its script.
 */
module EBCloudWatchMetric {
  import opened Wrappers
  import opened JavaString
  import opened GlobalCandlestackProperties
  import opened AwsMetric
  import GlobalAWSProperties
  import MetricsReaderWriter
  import Service
  import Command

  datatype Metric = EnvironmentHealth

  const NAMESPACE: string := "AWS/ElasticBeanstalk"
  const DIMENSION_KEY: string := "EnvironmentName"

  /** `getStatistic()`: the environment's worst health in the period. */
  function Statistic(m: Metric): (s: CloudWatchStatistic)
    ensures s == Maximum
  {
    match m
    case EnvironmentHealth => Maximum
  }

  function ServiceName(m: Metric): string {
    match m
    case EnvironmentHealth => "check-environment-health"
  }

  function CommandName(m: Metric): string {
    match m
    case EnvironmentHealth => "check-aws-eb-environment-health"
  }

  function ScriptFileName(m: Metric): string {
    match m
    case EnvironmentHealth => "check-aws-eb-environment-health-via-es.sh"
  }

  /** The notes text (guarded by the constant's test so that it is only unfolded where needed). */
  function Notes(m: Metric): string {
    if m == EnvironmentHealth then
      "Checks to see if the Elastic Beanstalk environemnt is unhealthy. In the event an alert is triggered check the Elastic Beanstalk environment for issues causing the instances to be considered unhealthy."
    else ""
  }

  /** `getName()` / `name()`. */
  function Name(m: Metric): string {
    match m
    case EnvironmentHealth => "EnvironmentHealth"
  }

  /** `valueOf(name)`: the constant with exactly that name, none for any other text. */
  function ValueOf(name: string): (r: Option<Metric>)
    ensures r.Some? ==> Name(r.value) == name
    ensures forall m :: Name(m) == name ==> r == Some(m)
  {
    if name == "EnvironmentHealth" then
      // the type has this one constant only
      assert forall m {:trigger Name(m)} :: m == EnvironmentHealth;
      Some(EnvironmentHealth)
    else None
  }

  /** `getDimension(dimensionValue)`: the environment named by the value. */
  function GetDimension(dimensionValue: string): (d: Dimension)
    ensures d.name == "EnvironmentName" && d.value == dimensionValue
  {
    Dimension(DIMENSION_KEY, dimensionValue)
  }

  lemma PlainCommandName(m: Metric)
    ensures '!' !in CommandName(m)
  {
  }

  lemma PlainScriptName(m: Metric)
    ensures ' ' !in ScriptFileName(m)
  {
  }

  function WarningLevel(g: Option<Properties>, m: Metric, environmentName: string): Result<int> {
    GlobalAWSProperties.DetermineAlertValue(g, GlobalAWSProperties.EB_CLOUDWATCH_METRIC_WARNING_PREFIX, Name(m), environmentName)
  }

  function CriticalLevel(g: Option<Properties>, m: Metric, environmentName: string): Result<int> {
    GlobalAWSProperties.DetermineAlertValue(g, GlobalAWSProperties.EB_CLOUDWATCH_METRIC_CRITICAL_PREFIX, Name(m), environmentName)
  }

  /**
   * The check command `getService` builds: the command name, the sanitized environment name
   * and its two thresholds, as Nagios reads them back by splitting on '!'; it fails when a
   * threshold cannot be read.
   */
  function CheckCommandFor(g: Option<Properties>, m: Metric, environmentName: string): (r: Result<string>)
    ensures r.Ok? <==> WarningLevel(g, m, environmentName).Ok? && CriticalLevel(g, m, environmentName).Ok?
    ensures r.Ok? && '!' !in environmentName ==>
      Split(r.value, "!")
        == [CommandName(m), MetricsReaderWriter.SanitizeString(environmentName),
            IntToString(WarningLevel(g, m, environmentName).value), IntToString(CriticalLevel(g, m, environmentName).value)]
  {
    var warning :- WarningLevel(g, m, environmentName);
    var critical :- CriticalLevel(g, m, environmentName);
    var id := MetricsReaderWriter.SanitizeString(environmentName);
    PlainCommandName(m);
    MetricsReaderWriter.SanitizeStringKeeps(environmentName, '!');
    CheckCommandArguments(CommandName(m), id, warning, critical);
    Ok(CheckCommand(CommandName(m), id, warning, critical))
  }

  /**
   * `getService(instanceId, contactGroups)`: a service on the environment's host (its name
   * unsanitized) running that check command. The five-argument `Service` constructor it calls
   * is not part of this model; it is taken to be the six-argument one with the notification
   * period as a parameter.
   */
  function GetService(g: Option<Properties>, m: Metric, notificationPeriod: string, environmentName: string,
                      contactGroups: StringSet): (r: Result<Service.Service>)
    ensures r.Ok? <==> CheckCommandFor(g, m, environmentName).Ok?
    ensures r.Ok? ==> r.value.checkCommand == CheckCommandFor(g, m, environmentName).value
    ensures r.Ok? ==> r.value.description == ServiceName(m) && r.value.hostName == environmentName
                      && r.value.notes == Notes(m) && r.value.notificationPeriod == notificationPeriod
                      && r.value.contactGroups == contactGroups
  {
    var command :- CheckCommandFor(g, m, environmentName);
    Ok(Service.New(ServiceName(m), environmentName, command, Notes(m), notificationPeriod, contactGroups))
  }

  /** `getMonitorCommand(relativePathToMonitorResource)`: the command running the metric's script. */
  function GetMonitorCommand(g: Option<Properties>, m: Metric, relativePath: string): (r: Command.Command)
    ensures r.name == CommandName(m)
    ensures ' ' !in relativePath && ' ' !in LogsHost(g) && ' ' !in LogsAuthToken(g) ==>
      Split(r.line, " ") == [relativePath + ScriptFileName(m), LogsHost(g), LogsAuthToken(g), ARG1, ARG2, ARG3]
  {
    PlainScriptName(m);
    MonitorCommandLineWords(relativePath, ScriptFileName(m), LogsHost(g), LogsAuthToken(g));
    Command.Command(CommandName(m), MonitorCommandLine(relativePath, ScriptFileName(m), LogsHost(g), LogsAuthToken(g)))
  }

  /**
   * The service's check command names the command `getMonitorCommand` defines, and the
   * environment it passes as $ARG1$ is the sanitized name the fetcher writes its datapoints
   * under.
   */
  lemma CheckCommandRunsMonitorCommand(g: Option<Properties>, m: Metric, environmentName: string, relativePath: string)
    requires CheckCommandFor(g, m, environmentName).Ok?
    requires '!' !in environmentName
    ensures var args := Split(CheckCommandFor(g, m, environmentName).value, "!");
            args[0] == GetMonitorCommand(g, m, relativePath).name
            && args[1] == MetricsReaderWriter.SanitizeString(environmentName)
  {
    var args := Split(CheckCommandFor(g, m, environmentName).value, "!");
    assert args[0] == CommandName(m);
  }

  /** `GlobalAWSProperties.getEBCloudwatchMetrics()`: the constants named in the setting. */
  method GetEBCloudwatchMetrics(g: Option<Properties>) returns (r: Result<set<Metric>>)
    ensures r == GlobalAWSProperties.EnumSetProperty(g, GlobalAWSProperties.EB_CLOUDWATCH_METRICS, ValueOf)
    ensures r.Ok? <==> g.Some? && GlobalAWSProperties.EnumSetReadable(g.value, GlobalAWSProperties.EB_CLOUDWATCH_METRICS, ValueOf)
    ensures r.Ok? && Trim(g.value[GlobalAWSProperties.EB_CLOUDWATCH_METRICS]) == "" ==> r.value == {}
    ensures r.Ok? ==> forall m :: m in r.value <==>
      Name(m) in GetSetProperty(g, GlobalAWSProperties.EB_CLOUDWATCH_METRICS, true).value
  {
    r := GlobalAWSProperties.GetEnumSet(g, GlobalAWSProperties.EB_CLOUDWATCH_METRICS, ValueOf);
  }
}
