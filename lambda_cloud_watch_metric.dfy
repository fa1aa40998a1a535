/**
 * `LambdaCloudWatchMetric`: the CloudWatch metrics of a Lambda function, each with the
 * Nagios service that checks it and the Nagios command that runs its script.
 */
module LambdaCloudWatchMetric {
  import opened Wrappers
  import opened JavaString
  import opened GlobalCandlestackProperties
  import opened AwsMetric
  import MetricsReaderWriter
  import Service
  import Command

  datatype Metric = Invocations | Errors | Duration

  const NAMESPACE: string := "AWS/Lambda"

  /** `getStatistic()`: every Lambda metric reads the maximum. */
  function Statistic(m: Metric): (s: CloudWatchStatistic)
    ensures s == Maximum
  {
    match m
    case Invocations => Maximum
    case Errors => Maximum
    case Duration => Maximum
  }

  function ServiceName(m: Metric): string {
    match m
    case Invocations => "check-lambda-invocations"
    case Errors => "check-lambda-errors"
    case Duration => "check-lambda-duration"
  }

  function CommandName(m: Metric): string {
    match m
    case Invocations => "check-aws-lambda-invocations"
    case Errors => "check-aws-lambda-errors"
    case Duration => "check-aws-lambda-duration"
  }

  function ScriptFileName(m: Metric): string {
    match m
    case Invocations => "check-aws-lambda-invocations-via-es-cw.sh"
    case Errors => "check-aws-lambda-errors-via-es-cw.sh"
    case Duration => "check-aws-lambda-duration-via-es-cw.sh"
  }

  function Notes(m: Metric): string {
    match m
    case Invocations => "Checks to see if the Lambda function has been invoked at least a minimum number of times."
    case Errors => "Checks to se if the Lambda function has generated more errors than expected"
    case Duration => "Checks that the Lambda function has not taken longer than expected to execute. "
  }

  /** `getName()` / `name()`. */
  function Name(m: Metric): string {
    match m
    case Invocations => "Invocations"
    case Errors => "Errors"
    case Duration => "Duration"
  }

  /** `valueOf(name)`: the constant with exactly that name, none for any other text. */
  function ValueOf(name: string): (r: Option<Metric>)
    ensures r.Some? ==> Name(r.value) == name
    ensures forall m :: Name(m) == name ==> r == Some(m)
  {
    if name == "Invocations" then Some(Invocations)
    else if name == "Errors" then Some(Errors)
    else if name == "Duration" then Some(Duration)
    else None
  }

  lemma PlainCommandName(m: Metric)
    ensures '!' !in CommandName(m)
  {
  }

  lemma PlainScriptName(m: Metric)
    ensures ' ' !in ScriptFileName(m)
  {
    match m
    case Invocations => assert ' ' !in "check-aws-lambda-invocations-via-es-cw.sh";
    case Errors => assert ' ' !in "check-aws-lambda-errors-via-es-cw.sh";
    case Duration => assert ' ' !in "check-aws-lambda-duration-via-es-cw.sh";
  }

  /**
   * The check command `getService` builds: the command name, the sanitized function name and
   * the two thresholds, as Nagios reads them back by splitting on '!'. The threshold lookups
   * it calls are not part of this model, so their results are parameters (an `Err` being a
   * lookup that throws, the warning one asked first).
   */
  function CheckCommandFor(m: Metric, functionName: string, warning: Result<int>, critical: Result<int>): (r: Result<string>)
    ensures warning.Err? ==> r == Err(warning.error)
    ensures warning.Ok? && critical.Err? ==> r == Err(critical.error)
    ensures r.Ok? <==> warning.Ok? && critical.Ok?
    ensures r.Ok? && '!' !in functionName ==>
      Split(r.value, "!")
        == [CommandName(m), MetricsReaderWriter.SanitizeString(functionName),
            IntToString(warning.value), IntToString(critical.value)]
  {
    var w :- warning;
    var c :- critical;
    var id := MetricsReaderWriter.SanitizeString(functionName);
    PlainCommandName(m);
    MetricsReaderWriter.SanitizeStringKeeps(functionName, '!');
    CheckCommandArguments(CommandName(m), id, w, c);
    Ok(CheckCommand(CommandName(m), id, w, c))
  }

  /**
   * `getService(instanceId, contactGroups)`: a service on the function's host (its name
   * unsanitized) running that check command, with the function's notification period, which
   * is looked up after both thresholds (that lookup is a parameter here too).
   */
  function GetService(m: Metric, functionName: string, contactGroups: StringSet, warning: Result<int>,
                      critical: Result<int>, notificationPeriod: Result<string>): (r: Result<Service.Service>)
    ensures CheckCommandFor(m, functionName, warning, critical).Err? ==>
      r == Err(CheckCommandFor(m, functionName, warning, critical).error)
    ensures CheckCommandFor(m, functionName, warning, critical).Ok? && notificationPeriod.Err? ==>
      r == Err(notificationPeriod.error)
    ensures r.Ok? <==> warning.Ok? && critical.Ok? && notificationPeriod.Ok?
    ensures r.Ok? ==> r.value.checkCommand == CheckCommandFor(m, functionName, warning, critical).value
    ensures r.Ok? ==> r.value.description == ServiceName(m) && r.value.hostName == functionName
                      && r.value.notes == Notes(m) && r.value.notificationPeriod == notificationPeriod.value
                      && r.value.contactGroups == contactGroups
  {
    var command :- CheckCommandFor(m, functionName, warning, critical);
    var period :- notificationPeriod;
    Ok(Service.New(ServiceName(m), functionName, command, Notes(m), period, contactGroups))
  }

  /** `getMonitorCommand(relativePathToMonitorResource)`: the command running the metric's script. */
  function GetMonitorCommand(g: Option<Properties>, m: Metric, relativePath: string): (r: Command.Command)
    ensures r.name == CommandName(m)
    ensures ' ' !in relativePath && ' ' !in LogsHost(g) && ' ' !in LogsAuthToken(g) ==>
      Split(r.line, " ") == [relativePath + ScriptFileName(m), LogsHost(g), LogsAuthToken(g), ARG1, ARG2, ARG3]
  {
    PlainScriptName(m);
    MonitorCommandLineWords(relativePath, ScriptFileName(m), LogsHost(g), LogsAuthToken(g));
    Command.Command(CommandName(m), MonitorCommandLine(relativePath, ScriptFileName(m), LogsHost(g), LogsAuthToken(g)))
  }

  /** The three metrics are checked by three different commands running three different scripts. */
  lemma MetricsDistinct(m1: Metric, m2: Metric)
    requires m1 != m2
    ensures CommandName(m1) != CommandName(m2) && ScriptFileName(m1) != ScriptFileName(m2)
    ensures ServiceName(m1) != ServiceName(m2) && Name(m1) != Name(m2)
  {
    var k := |"check-aws-lambda-"|;
    assert CommandName(m1)[k] != CommandName(m2)[k];
    assert ScriptFileName(m1)[k] != ScriptFileName(m2)[k];
    assert ServiceName(m1)[13] != ServiceName(m2)[13];
    assert Name(m1)[0] != Name(m2)[0];
  }
}
