/**
 * `S3MetadataMetric`: the metadata metric of an S3 object, with the Nagios service that checks
 * it and the Nagios command that runs its script.
 */
module S3MetadataMetric {
  import opened Wrappers
  import opened JavaString
  import opened GlobalCandlestackProperties
  import opened AwsMetric
  import Service
  import Command

  datatype Metric = LastModified

  function ServiceName(m: Metric): string {
    match m
    case LastModified => "check-last-modified"
  }

  function CommandName(m: Metric): string {
    match m
    case LastModified => "check-aws-s3-last-modified"
  }

  function ScriptFileName(m: Metric): string {
    match m
    case LastModified => "check-aws-s3-last-modified-via-es.sh"
  }

  /** The notes text (guarded by the constant's test so that it is only unfolded where needed). */
  function Notes(m: Metric): string {
    if m == LastModified then
      "Checks to see if the S3 file has been recenetly modified. In the event an alert is triggered ensure processes that should be modifying the S3 file are healthy."
    else ""
  }

  lemma PlainCommandName(m: Metric)
    ensures '!' !in CommandName(m)
  {
  }

  lemma PlainScriptName(m: Metric)
    ensures ' ' !in ScriptFileName(m)
  {
  }

  /**
   * The check command `getService` builds: the command name, the location id as it is (not
   * sanitized) and the two thresholds, as Nagios reads them back by splitting on '!'. The
   * threshold lookups it calls are not part of this model, so their results are parameters
   * (an `Err` being a lookup that throws, the warning one asked first).
   */
  function CheckCommandFor(m: Metric, locationId: string, warning: Result<int>, critical: Result<int>): (r: Result<string>)
    ensures warning.Err? ==> r == Err(warning.error)
    ensures warning.Ok? && critical.Err? ==> r == Err(critical.error)
    ensures r.Ok? <==> warning.Ok? && critical.Ok?
    ensures r.Ok? && '!' !in locationId ==>
      Split(r.value, "!") == [CommandName(m), locationId, IntToString(warning.value), IntToString(critical.value)]
  {
    var w :- warning;
    var c :- critical;
    PlainCommandName(m);
    CheckCommandArguments(CommandName(m), locationId, w, c);
    Ok(CheckCommand(CommandName(m), locationId, w, c))
  }

  /**
   * `getService(instanceId, contactGroups)`: a service on the location's host running that
   * check command. The five-argument `Service` constructor it calls is not part of this
   * model; it is taken to be the six-argument one with the notification period as a parameter.
   */
  function GetService(m: Metric, notificationPeriod: string, locationId: string, contactGroups: StringSet,
                      warning: Result<int>, critical: Result<int>): (r: Result<Service.Service>)
    ensures r.Ok? <==> warning.Ok? && critical.Ok?
    ensures r.Ok? ==> r.value.checkCommand == CheckCommandFor(m, locationId, warning, critical).value
    ensures r.Ok? ==> r.value.description == ServiceName(m) && r.value.hostName == locationId
                      && r.value.notes == Notes(m) && r.value.notificationPeriod == notificationPeriod
                      && r.value.contactGroups == contactGroups
  {
    var command :- CheckCommandFor(m, locationId, warning, critical);
    Ok(Service.New(ServiceName(m), locationId, command, Notes(m), notificationPeriod, contactGroups))
  }

  /** `getMonitorCommand(relativePathToMonitorResource)`: the command running the metric's script. */
  function GetMonitorCommand(g: Option<Properties>, m: Metric, relativePath: string): (r: Command.Command)
    ensures r.name == CommandName(m)
    ensures ' ' !in relativePath && ' ' !in LogsHost(g) && ' ' !in LogsAuthToken(g) ==>
      Split(r.line, " ") == [relativePath + ScriptFileName(m), LogsHost(g), LogsAuthToken(g), ARG1, ARG2, ARG3]
  {
    PlainScriptName(m);
    MonitorCommandLineWords(relativePath, ScriptFileName(m), LogsHost(g), LogsAuthToken(g));
    Command.Command(CommandName(m), MonitorCommandLine(relativePath, ScriptFileName(m), LogsHost(g), LogsAuthToken(g)))
  }

  /**
   * Two locations with different ids get different check commands, so each location's
   * service checks its own object.
   */
  lemma DistinctLocationsDistinctCheckCommands(m: Metric, id1: string, id2: string, warning: Result<int>, critical: Result<int>)
    requires warning.Ok? && critical.Ok?
    requires '!' !in id1 && '!' !in id2 && id1 != id2
    ensures CheckCommandFor(m, id1, warning, critical).value != CheckCommandFor(m, id2, warning, critical).value
  {
    assert Split(CheckCommandFor(m, id1, warning, critical).value, "!")[1]
        != Split(CheckCommandFor(m, id2, warning, critical).value, "!")[1];
  }
}
