/**
 * `EC2GraphiteMetric`: the disk and memory metrics an EC2 instance reports to the log store
 * itself, each with its Nagios service and command.
 */
module EC2GraphiteMetric {
  import opened Wrappers
  import opened JavaString
  import opened GlobalCandlestackProperties
  import opened AwsMetric
  import GlobalAWSProperties
  import Service
  import Command

  datatype Metric = DiskUtilization | FreeMemory

  function ServiceName(m: Metric): string {
    match m
    case DiskUtilization => "check-disk-utilization"
    case FreeMemory => "check-free-memory"
  }

  function CommandName(m: Metric): string {
    match m
    case DiskUtilization => "check-aws-ec2-disk-utilization"
    case FreeMemory => "check-aws-ec2-free-memory"
  }

  function ScriptFileName(m: Metric): string {
    match m
    case DiskUtilization => "check-aws-ec2-disk-utilization-via-es.sh"
    case FreeMemory => "check-aws-ec2-free-memory-via-es.sh"
  }

  function Notes(m: Metric): string {
    match m
    case DiskUtilization =>
      "Checks to see if the EC2 instance is consuming a large amount of disk space. In the event an alert is triggered check the EC2 instance for potential issues resulting in large disk consumption."
    case FreeMemory =>
      "Checks to see if the EC2 instance is consuming a large amount of memory. In the event an alert is triggered check the EC2 instances for potential memory leaks."
  }

  /** `name()`. */
  function Name(m: Metric): string {
    match m
    case DiskUtilization => "DiskUtilization"
    case FreeMemory => "FreeMemory"
  }

  /** `valueOf(name)`: the constant with exactly that name, none for any other text. */
  function ValueOf(name: string): (r: Option<Metric>)
    ensures r.Some? ==> Name(r.value) == name
    ensures forall m :: Name(m) == name ==> r == Some(m)
  {
    if name == "DiskUtilization" then Some(DiskUtilization)
    else if name == "FreeMemory" then Some(FreeMemory)
    else None
  }

  lemma PlainCommandName(m: Metric)
    ensures '!' !in CommandName(m)
  {
  }

  lemma PlainScriptName(m: Metric)
    ensures ' ' !in ScriptFileName(m)
  {
  }

  function WarningLevel(g: Option<Properties>, m: Metric, instanceId: string): Result<int> {
    GlobalAWSProperties.DetermineAlertValue(g, GlobalAWSProperties.EC2_GRAPHITE_METRIC_WARNING_PREFIX, Name(m), instanceId)
  }

  function CriticalLevel(g: Option<Properties>, m: Metric, instanceId: string): Result<int> {
    GlobalAWSProperties.DetermineAlertValue(g, GlobalAWSProperties.EC2_GRAPHITE_METRIC_CRITICAL_PREFIX, Name(m), instanceId)
  }

  /**
   * The check command `getService` builds: the command name, the instance id as it is (not
   * sanitized) and the instance's two thresholds, as Nagios reads them back by splitting on
   * '!'; it fails when a threshold cannot be read.
   */
  function CheckCommandFor(g: Option<Properties>, m: Metric, instanceId: string): (r: Result<string>)
    ensures r.Ok? <==> WarningLevel(g, m, instanceId).Ok? && CriticalLevel(g, m, instanceId).Ok?
    ensures r.Ok? && '!' !in instanceId ==>
      Split(r.value, "!")
        == [CommandName(m), instanceId,
            IntToString(WarningLevel(g, m, instanceId).value), IntToString(CriticalLevel(g, m, instanceId).value)]
  {
    var warning :- WarningLevel(g, m, instanceId);
    var critical :- CriticalLevel(g, m, instanceId);
    PlainCommandName(m);
    CheckCommandArguments(CommandName(m), instanceId, warning, critical);
    Ok(CheckCommand(CommandName(m), instanceId, warning, critical))
  }

  /**
   * `getService(instanceId, contactGroups)`: a service on the instance's host running that
   * check command. The five-argument `Service` constructor it calls is not part of this model;
   * it is taken to be the six-argument one with the notification period as a parameter.
   */
  function GetService(g: Option<Properties>, m: Metric, notificationPeriod: string, instanceId: string,
                      contactGroups: StringSet): (r: Result<Service.Service>)
    ensures r.Ok? <==> CheckCommandFor(g, m, instanceId).Ok?
    ensures r.Ok? ==> r.value.checkCommand == CheckCommandFor(g, m, instanceId).value
    ensures r.Ok? ==> r.value.description == ServiceName(m) && r.value.hostName == instanceId
                      && r.value.notes == Notes(m) && r.value.notificationPeriod == notificationPeriod
                      && r.value.contactGroups == contactGroups
  {
    var command :- CheckCommandFor(g, m, instanceId);
    Ok(Service.New(ServiceName(m), instanceId, command, Notes(m), notificationPeriod, contactGroups))
  }

  /** `getMonitorCommand(relativePathToMonitorResource)`: the command running the metric's script. */
  function GetMonitorCommand(g: Option<Properties>, m: Metric, relativePath: string): (r: Command.Command)
    ensures r.name == CommandName(m)
    ensures ' ' !in relativePath && ' ' !in LogsHost(g) && ' ' !in LogsAuthToken(g) ==>
      Split(r.line, " ") == [relativePath + ScriptFileName(m), LogsHost(g), LogsAuthToken(g), ARG1, ARG2, ARG3]
  {
    PlainScriptName(m);
    MonitorCommandLineWords(relativePath, ScriptFileName(m), LogsHost(g), LogsAuthToken(g));
    Command.Command(CommandName(m), MonitorCommandLine(relativePath, ScriptFileName(m), LogsHost(g), LogsAuthToken(g)))
  }

  /**
   * Unlike the CloudWatch metrics, two instances whose ids differ get different check
   * commands: the id is passed through unsanitized.
   */
  lemma DistinctIdsDistinctCheckCommands(g: Option<Properties>, m: Metric, id1: string, id2: string)
    requires CheckCommandFor(g, m, id1).Ok? && CheckCommandFor(g, m, id2).Ok?
    requires '!' !in id1 && '!' !in id2 && id1 != id2
    ensures CheckCommandFor(g, m, id1).value != CheckCommandFor(g, m, id2).value
  {
    var c1, c2 := CheckCommandFor(g, m, id1).value, CheckCommandFor(g, m, id2).value;
    assert Split(c1, "!")[1] == id1;
    assert Split(c2, "!")[1] == id2;
  }

  /** `GlobalAWSProperties.getEC2GraphiteMetrics()`: the constants named in the setting. */
  method GetEC2GraphiteMetrics(g: Option<Properties>) returns (r: Result<set<Metric>>)
    ensures r == GlobalAWSProperties.EnumSetProperty(g, GlobalAWSProperties.EC2_GRAPHITE_METRICS, ValueOf)
    ensures r.Ok? <==> g.Some? && GlobalAWSProperties.EnumSetReadable(g.value, GlobalAWSProperties.EC2_GRAPHITE_METRICS, ValueOf)
    ensures r.Ok? && Trim(g.value[GlobalAWSProperties.EC2_GRAPHITE_METRICS]) == "" ==> r.value == {}
    ensures r.Ok? ==> forall m :: m in r.value <==>
      Name(m) in GetSetProperty(g, GlobalAWSProperties.EC2_GRAPHITE_METRICS, true).value
  {
    r := GlobalAWSProperties.GetEnumSet(g, GlobalAWSProperties.EC2_GRAPHITE_METRICS, ValueOf);
  }
}
