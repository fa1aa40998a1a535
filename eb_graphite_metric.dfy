/**
 * `EBGraphiteMetric`: the disk and memory metrics of the instances behind an Elastic
 * Beanstalk environment, read from the log store, each with its Nagios service and command.
 */
module EBGraphiteMetric {
  import opened Wrappers
  import opened JavaString
  import opened GlobalCandlestackProperties
  import opened AwsMetric
  import EC2GraphiteMetric
  import Service
  import Command

  datatype Metric = DiskUtilization | FreeMemory

  function ServiceName(m: Metric): string {
    match m
    case DiskUtilization => "check-disk-utilization"
    case FreeMemory => "check-free-memory"
  }

  function CommandName(m: Metric): string {
    match m
    case DiskUtilization => "check-aws-ec2-disk-utilization"
    case FreeMemory => "check-aws-ec2-free-memory"
  }

  /** `getResourceName()`: the script the command runs. */
  function ResourceName(m: Metric): string {
    match m
    case DiskUtilization => "check-aws-eb-disk-utilization-via-es.sh"
    case FreeMemory => "check-aws-eb-free-memory-via-es.sh"
  }

  lemma PlainCommandName(m: Metric)
    ensures '!' !in CommandName(m)
  {
  }

  lemma PlainResourceName(m: Metric)
    ensures ' ' !in ResourceName(m)
  {
  }

  /**
   * The check command `getService` builds: the command name, the instance id as it is and
   * the two thresholds, as Nagios reads them back by splitting on '!'. The threshold lookups
   * it calls are not part of this model, so their results are parameters (an `Err` being a
   * lookup that throws, the warning one asked first).
   */
  function CheckCommandFor(m: Metric, instanceId: string, warning: Result<int>, critical: Result<int>): (r: Result<string>)
    ensures warning.Err? ==> r == Err(warning.error)
    ensures warning.Ok? && critical.Err? ==> r == Err(critical.error)
    ensures r.Ok? <==> warning.Ok? && critical.Ok?
    ensures r.Ok? && '!' !in instanceId ==>
      Split(r.value, "!") == [CommandName(m), instanceId, IntToString(warning.value), IntToString(critical.value)]
  {
    var w :- warning;
    var c :- critical;
    PlainCommandName(m);
    CheckCommandArguments(CommandName(m), instanceId, w, c);
    Ok(CheckCommand(CommandName(m), instanceId, w, c))
  }

  /**
   * `getService(instanceId, contactGroups)`: a service on the instance's host running that
   * check command. The four-argument `Service` constructor it calls is not part of this model;
   * it is taken to be the six-argument one with the notes and the notification period as
   * parameters.
   */
  function GetService(m: Metric, notes: string, notificationPeriod: string, instanceId: string, contactGroups: StringSet,
                      warning: Result<int>, critical: Result<int>): (r: Result<Service.Service>)
    ensures r.Ok? <==> warning.Ok? && critical.Ok?
    ensures r.Ok? ==> r.value.checkCommand == CheckCommandFor(m, instanceId, warning, critical).value
    ensures r.Ok? ==> r.value.description == ServiceName(m) && r.value.hostName == instanceId
                      && r.value.notes == notes && r.value.notificationPeriod == notificationPeriod
                      && r.value.contactGroups == contactGroups
  {
    var command :- CheckCommandFor(m, instanceId, warning, critical);
    Ok(Service.New(ServiceName(m), instanceId, command, notes, notificationPeriod, contactGroups))
  }

  /** `getMonitorCommand(relativePathToMonitorResource)`: the command running the metric's script. */
  function GetMonitorCommand(g: Option<Properties>, m: Metric, relativePath: string): (r: Command.Command)
    ensures r.name == CommandName(m)
    ensures ' ' !in relativePath && ' ' !in LogsHost(g) && ' ' !in LogsAuthToken(g) ==>
      Split(r.line, " ") == [relativePath + ResourceName(m), LogsHost(g), LogsAuthToken(g), ARG1, ARG2, ARG3]
  {
    PlainResourceName(m);
    MonitorCommandLineWords(relativePath, ResourceName(m), LogsHost(g), LogsAuthToken(g));
    Command.Command(CommandName(m), MonitorCommandLine(relativePath, ResourceName(m), LogsHost(g), LogsAuthToken(g)))
  }

  /** The EC2 metric of the same name. */
  function AsEC2(m: Metric): EC2GraphiteMetric.Metric {
    match m
    case DiskUtilization => EC2GraphiteMetric.DiskUtilization
    case FreeMemory => EC2GraphiteMetric.FreeMemory
  }

  /**
   * An Elastic Beanstalk metric reuses the Nagios command name of the EC2 metric of the same
   * name, though its command runs a different script: with both monitored, two command
   * definitions share one name.
   */
  lemma CommandNameSharedWithEC2(g: Option<Properties>, m: Metric, relativePath: string)
    ensures GetMonitorCommand(g, m, relativePath).name == EC2GraphiteMetric.GetMonitorCommand(g, AsEC2(m), relativePath).name
    ensures GetMonitorCommand(g, m, relativePath).line != EC2GraphiteMetric.GetMonitorCommand(g, AsEC2(m), relativePath).line
  {
    ScriptsDifferFromEC2(m);
    MonitorCommandLinesDiffer(relativePath, ResourceName(m), EC2GraphiteMetric.ScriptFileName(AsEC2(m)),
                              LogsHost(g), LogsAuthToken(g), 11);
  }

  /** The scripts part at the twelfth character: "check-aws-eb…" against "check-aws-ec2…". */
  lemma ScriptsDifferFromEC2(m: Metric)
    ensures 11 < |ResourceName(m)| && 11 < |EC2GraphiteMetric.ScriptFileName(AsEC2(m))|
    ensures ResourceName(m)[11] != EC2GraphiteMetric.ScriptFileName(AsEC2(m))[11]
  {
    match m
    case DiskUtilization =>
    case FreeMemory =>
  }
}
