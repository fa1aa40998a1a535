/**
 * `EC2CloudWatchMetric`: the CloudWatch metrics of an EC2 instance, each with the Nagios
 * service that checks it and the Nagios command that runs its script.
 */
module EC2CloudWatchMetric {
  import opened Wrappers
  import opened JavaString
  import opened GlobalCandlestackProperties
  import opened AwsMetric
  import GlobalAWSProperties
  import MetricsReaderWriter
  import Service
  import Command

  datatype Metric = CPUUtilization | NetworkIn | NetworkOut

  const NAMESPACE: string := "AWS/EC2"

  /** `getStatistic()`: only the CPU load is averaged; network traffic takes the maximum. */
  function Statistic(m: Metric): (s: CloudWatchStatistic)
    ensures s == Average <==> m == CPUUtilization
    ensures s == Average || s == Maximum
  {
    match m
    case CPUUtilization => Average
    case NetworkIn => Maximum
    case NetworkOut => Maximum
  }

  function ServiceName(m: Metric): string {
    match m
    case CPUUtilization => "check-cpu-cw"
    case NetworkIn => "check-network-in-cw"
    case NetworkOut => "check-network-out-cw"
  }

  function CommandName(m: Metric): string {
    match m
    case CPUUtilization => "check-aws-ec2-cpu-cw"
    case NetworkIn => "check-aws-ec2-network-in-cw"
    case NetworkOut => "check-aws-ec2-network-out-cw"
  }

  function ScriptFileName(m: Metric): string {
    match m
    case CPUUtilization => "check-aws-ec2-cpu-via-es-cw.sh"
    case NetworkIn => "check-aws-ec2-network-in-via-es-cw.sh"
    case NetworkOut => "check-aws-ec2-network-out-via-es-cw.sh"
  }

  function Notes(m: Metric): string {
    match m
    case CPUUtilization =>
      "Checks to see if the EC2 instance is experiencing heavy CPU load. In the event an alert is triggered check the EC2 instance for processing consuming large amount of CPU or potentially a noisy neighbor stealing resources."
    case NetworkIn =>
      "Checks to see if the EC2 instance has network traffice flowing into the system. In the event an alert is triggered check the EC2 instance for network issues that would prevent other systems from connecting."
    case NetworkOut =>
      "Checks to see if the EC2 instance has network traffice flowing out of the system. In the event an alert is triggered check the EC2 instance for network issues that would prevent it from sending out data."
  }

  /** `getName()` / `name()`: the constant's own name. */
  function Name(m: Metric): string {
    match m
    case CPUUtilization => "CPUUtilization"
    case NetworkIn => "NetworkIn"
    case NetworkOut => "NetworkOut"
  }

  /** `valueOf(name)`: the constant with exactly that name, none for any other text. */
  function ValueOf(name: string): (r: Option<Metric>)
    ensures r.Some? ==> Name(r.value) == name
    ensures forall m :: Name(m) == name ==> r == Some(m)
  {
    if name == "CPUUtilization" then Some(CPUUtilization)
    else if name == "NetworkIn" then Some(NetworkIn)
    else if name == "NetworkOut" then Some(NetworkOut)
    else None
  }

  /** The command names hold no '!' and the script names no ' '. */
  lemma PlainNames(m: Metric)
    ensures '!' !in CommandName(m) && ' ' !in ScriptFileName(m)
  {
    PlainCommandName(m);
    PlainScriptName(m);
  }

  lemma PlainCommandName(m: Metric)
    ensures '!' !in CommandName(m)
  {
  }

  lemma PlainScriptName(m: Metric)
    ensures ' ' !in ScriptFileName(m)
  {
  }

  function WarningLevel(g: Option<Properties>, m: Metric, instanceId: string): Result<int> {
    GlobalAWSProperties.DetermineAlertValue(g, GlobalAWSProperties.EC2_CLOUDWATCH_METRIC_WARNING_PREFIX, Name(m), instanceId)
  }

  function CriticalLevel(g: Option<Properties>, m: Metric, instanceId: string): Result<int> {
    GlobalAWSProperties.DetermineAlertValue(g, GlobalAWSProperties.EC2_CLOUDWATCH_METRIC_CRITICAL_PREFIX, Name(m), instanceId)
  }

  /**
   * The check command `getService` builds: the suffixed command name, the sanitized instance
   * id and the instance's two thresholds, as Nagios reads them back by splitting on '!'; it
   * fails when a threshold cannot be read.
   */
  function CheckCommandFor(g: Option<Properties>, m: Metric, commandNameSuffix: string, instanceId: string): (r: Result<string>)
    ensures r.Ok? <==> WarningLevel(g, m, instanceId).Ok? && CriticalLevel(g, m, instanceId).Ok?
    ensures r.Ok? && '!' !in commandNameSuffix && '!' !in instanceId ==>
      Split(r.value, "!")
        == [CommandName(m) + commandNameSuffix, MetricsReaderWriter.SanitizeString(instanceId),
            IntToString(WarningLevel(g, m, instanceId).value), IntToString(CriticalLevel(g, m, instanceId).value)]
  {
    var warning :- WarningLevel(g, m, instanceId);
    var critical :- CriticalLevel(g, m, instanceId);
    var id := MetricsReaderWriter.SanitizeString(instanceId);
    PlainNames(m);
    MetricsReaderWriter.SanitizeStringKeeps(instanceId, '!');
    CheckCommandArguments(CommandName(m) + commandNameSuffix, id, warning, critical);
    Ok(CheckCommand(CommandName(m) + commandNameSuffix, id, warning, critical))
  }

  /**
   * `getService(commandNameSuffix, notificationPeriod, instanceId, contactGroups)`: a service
   * on the instance's host (the id unsanitized) running that check command.
   */
  function GetServiceWithSuffix(g: Option<Properties>, m: Metric, commandNameSuffix: string,
                                notificationPeriod: string, instanceId: string,
                                contactGroups: StringSet): (r: Result<Service.Service>)
    ensures r.Ok? <==> CheckCommandFor(g, m, commandNameSuffix, instanceId).Ok?
    ensures r.Ok? ==> r.value.checkCommand == CheckCommandFor(g, m, commandNameSuffix, instanceId).value
    ensures r.Ok? ==> r.value.description == ServiceName(m) && r.value.hostName == instanceId
                      && r.value.notes == Notes(m) && r.value.notificationPeriod == notificationPeriod
                      && r.value.contactGroups == contactGroups
  {
    var command :- CheckCommandFor(g, m, commandNameSuffix, instanceId);
    Ok(Service.New(ServiceName(m), instanceId, command, Notes(m), notificationPeriod, contactGroups))
  }

  /**
   * `getService(instanceId, contactGroups)`: the suffix-free service, with the instance's
   * notification period (whose lookup is a parameter here) read first.
   */
  function GetService(g: Option<Properties>, m: Metric, notificationPeriod: Result<string>, instanceId: string,
                      contactGroups: StringSet): (r: Result<Service.Service>)
    ensures notificationPeriod.Err? ==> r == Err(notificationPeriod.error)
    ensures notificationPeriod.Ok? ==>
      r == GetServiceWithSuffix(g, m, "", notificationPeriod.value, instanceId, contactGroups)
  {
    var period :- notificationPeriod;
    GetServiceWithSuffix(g, m, "", period, instanceId, contactGroups)
  }

  /**
   * `getMonitorCommand(commandNameSuffix, relativePathToMonitorResource)`: the suffixed command
   * running the metric's script with the logs settings captured when the class was initialised.
   */
  function GetMonitorCommandWithSuffix(g: Option<Properties>, m: Metric, commandNameSuffix: string,
                                       relativePath: string): (r: Command.Command)
    ensures r.name == CommandName(m) + commandNameSuffix
    ensures ' ' !in relativePath && ' ' !in LogsHost(g) && ' ' !in LogsAuthToken(g) ==>
      Split(r.line, " ") == [relativePath + ScriptFileName(m), LogsHost(g), LogsAuthToken(g), ARG1, ARG2, ARG3]
  {
    PlainNames(m);
    MonitorCommandLineWords(relativePath, ScriptFileName(m), LogsHost(g), LogsAuthToken(g));
    Command.Command(CommandName(m) + commandNameSuffix,
                    MonitorCommandLine(relativePath, ScriptFileName(m), LogsHost(g), LogsAuthToken(g)))
  }

  /** `getMonitorCommand(relativePathToMonitorResource)`: the suffix-free command. */
  function GetMonitorCommand(g: Option<Properties>, m: Metric, relativePath: string): (r: Command.Command)
    ensures r == GetMonitorCommandWithSuffix(g, m, "", relativePath)
    ensures r.name == CommandName(m)
  {
    GetMonitorCommandWithSuffix(g, m, "", relativePath)
  }

  /**
   * The service names the command that `getMonitorCommand` defines with the same suffix, so
   * Nagios runs this metric's script for it.
   */
  lemma ServiceRunsMonitorCommand(g: Option<Properties>, m: Metric, commandNameSuffix: string,
                                  notificationPeriod: string, instanceId: string, contactGroups: StringSet,
                                  relativePath: string)
    requires GetServiceWithSuffix(g, m, commandNameSuffix, notificationPeriod, instanceId, contactGroups).Ok?
    requires '!' !in commandNameSuffix && '!' !in instanceId
    ensures Split(GetServiceWithSuffix(g, m, commandNameSuffix, notificationPeriod, instanceId, contactGroups).value.checkCommand, "!")[0]
         == GetMonitorCommandWithSuffix(g, m, commandNameSuffix, relativePath).name
  {
  }

  /**
   * Ids that differ only in '-', ' ' and '_' get the same check command: the script sees the
   * same sanitized id for both instances.
   */
  lemma SanitizedIdsShareCheckCommand(g: Option<Properties>, m: Metric, commandNameSuffix: string, id1: string, id2: string)
    requires MetricsReaderWriter.SanitizeString(id1) == MetricsReaderWriter.SanitizeString(id2)
    requires WarningLevel(g, m, id1) == WarningLevel(g, m, id2) && CriticalLevel(g, m, id1) == CriticalLevel(g, m, id2)
    ensures CheckCommandFor(g, m, commandNameSuffix, id1) == CheckCommandFor(g, m, commandNameSuffix, id2)
  {
  }

  /** `GlobalAWSProperties.getEC2CloudwatchMetrics()`: the constants named in the setting. */
  method GetEC2CloudwatchMetrics(g: Option<Properties>) returns (r: Result<set<Metric>>)
    ensures r == GlobalAWSProperties.EnumSetProperty(g, GlobalAWSProperties.EC2_CLOUDWATCH_METRICS, ValueOf)
    ensures r.Ok? <==> g.Some? && GlobalAWSProperties.EnumSetReadable(g.value, GlobalAWSProperties.EC2_CLOUDWATCH_METRICS, ValueOf)
    ensures r.Ok? && Trim(g.value[GlobalAWSProperties.EC2_CLOUDWATCH_METRICS]) == "" ==> r.value == {}
    ensures r.Ok? ==> forall m :: m in r.value <==>
      Name(m) in GetSetProperty(g, GlobalAWSProperties.EC2_CLOUDWATCH_METRICS, true).value
  {
    r := GlobalAWSProperties.GetEnumSet(g, GlobalAWSProperties.EC2_CLOUDWATCH_METRICS, ValueOf);
  }
}
