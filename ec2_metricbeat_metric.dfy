/**
 * `EC2MetricbeatMetric`: EC2 metrics shipped by Metricbeat. Its constant list is incomplete,
 * so a metric here is just the four strings each constant holds; the methods are modelled
 * over those.
 */
module EC2MetricbeatMetric {
  import opened Wrappers
  import opened JavaString
  import opened AwsMetric
  import opened GlobalCandlestackProperties
  import Service
  import Command

  /** The fields a constant is built with. */
  datatype Metric = Metric(serviceName: string, commandName: string, scriptFileName: string, notes: string)

  /**
   * The check command `getService(commandNameSuffix, ...)` builds: the command name, the
   * instance id unsanitized, the two thresholds, and then the suffix glued to the critical
   * threshold. The thresholds come from per-metric lookups that are not part of this model,
   * so they are parameters (an `Err` being a lookup that throws).
   */
  function CheckCommandFor(m: Metric, commandNameSuffix: string, instanceId: string,
                           warning: Result<int>, critical: Result<int>): (r: Result<string>)
    ensures warning.Err? ==> r == Err(warning.error)
    ensures warning.Ok? && critical.Err? ==> r == Err(critical.error)
    ensures r.Ok? <==> warning.Ok? && critical.Ok?
    ensures r.Ok? && '!' !in m.commandName && '!' !in instanceId && '!' !in commandNameSuffix ==>
      Split(r.value, "!")
        == [m.commandName, instanceId, IntToString(warning.value), IntToString(critical.value) + commandNameSuffix]
  {
    var w :- warning;
    var c :- critical;
    SuffixJoinsLastArgument(m.commandName, instanceId, w, c, commandNameSuffix);
    Ok(CheckCommand(m.commandName, instanceId, w, c) + commandNameSuffix)
  }

  /** Appending to a check command only lengthens its last argument. */
  lemma SuffixJoinsLastArgument(commandName: string, id: string, w: int, c: int, suffix: string)
    ensures '!' !in commandName && '!' !in id && '!' !in suffix ==>
      Split(CheckCommand(commandName, id, w, c) + suffix, "!")
        == [commandName, id, IntToString(w), IntToString(c) + suffix]
  {
    if '!' !in commandName && '!' !in id && '!' !in suffix {
      var xs := [commandName, id, IntToString(w), IntToString(c) + suffix];
      NumberTextIsPlain(w);
      NumberTextIsPlain(c);
      assert Join(xs, "!") == CheckCommand(commandName, id, w, c) + suffix by {
        var ws, cs := IntToString(w), IntToString(c) + suffix;
        assert xs[1..][1..][1..] == [cs];
        assert Join(xs[1..][1..], "!") == ws + "!" + cs;
        assert Join(xs[1..], "!") == id + "!" + (ws + "!" + cs);
      }
      SplitOfJoin(xs, '!');
    }
  }

  /**
   * `getService(commandNameSuffix, notificationPeriod, instanceId, contactGroups)`: a service
   * on the instance's host running that check command.
   */
  function GetServiceWithSuffix(m: Metric, commandNameSuffix: string, notificationPeriod: string, instanceId: string,
                                contactGroups: StringSet, warning: Result<int>, critical: Result<int>): (r: Result<Service.Service>)
    ensures r.Ok? <==> warning.Ok? && critical.Ok?
    ensures r.Ok? ==> r.value.checkCommand == CheckCommandFor(m, commandNameSuffix, instanceId, warning, critical).value
    ensures r.Ok? ==> r.value.description == m.serviceName && r.value.hostName == instanceId
                      && r.value.notes == m.notes && r.value.notificationPeriod == notificationPeriod
                      && r.value.contactGroups == contactGroups
  {
    var command :- CheckCommandFor(m, commandNameSuffix, instanceId, warning, critical);
    Ok(Service.New(m.serviceName, instanceId, command, m.notes, notificationPeriod, contactGroups))
  }

  /**
   * `getService(instanceId, contactGroups)`: the suffix-free service, the instance's
   * notification period (a lookup that is a parameter here) read first.
   */
  function GetService(m: Metric, notificationPeriod: Result<string>, instanceId: string, contactGroups: StringSet,
                      warning: Result<int>, critical: Result<int>): (r: Result<Service.Service>)
    ensures notificationPeriod.Err? ==> r == Err(notificationPeriod.error)
    ensures notificationPeriod.Ok? ==>
      r == GetServiceWithSuffix(m, "", notificationPeriod.value, instanceId, contactGroups, warning, critical)
  {
    var period :- notificationPeriod;
    GetServiceWithSuffix(m, "", period, instanceId, contactGroups, warning, critical)
  }

  /** `getMonitorCommand(commandNameSuffix, relativePathToMonitorResource)`. */
  function GetMonitorCommandWithSuffix(g: Option<Properties>, m: Metric, commandNameSuffix: string,
                                       relativePath: string): (r: Command.Command)
    ensures r.name == m.commandName + commandNameSuffix
    ensures ' ' !in relativePath + m.scriptFileName && ' ' !in LogsHost(g) && ' ' !in LogsAuthToken(g) ==>
      Split(r.line, " ") == [relativePath + m.scriptFileName, LogsHost(g), LogsAuthToken(g), ARG1, ARG2, ARG3]
  {
    MonitorCommandLineWords(relativePath, m.scriptFileName, LogsHost(g), LogsAuthToken(g));
    Command.Command(m.commandName + commandNameSuffix,
                    MonitorCommandLine(relativePath, m.scriptFileName, LogsHost(g), LogsAuthToken(g)))
  }

  /** `getMonitorCommand(relativePathToMonitorResource)`: the suffix-free command. */
  function GetMonitorCommand(g: Option<Properties>, m: Metric, relativePath: string): (r: Command.Command)
    ensures r == GetMonitorCommandWithSuffix(g, m, "", relativePath)
    ensures r.name == m.commandName
  {
    GetMonitorCommandWithSuffix(g, m, "", relativePath)
  }

  /**
   * With a non-empty suffix the service and the command disagree: the command is defined
   * under the suffixed name, but the service still names the bare command and passes the
   * suffix on inside its critical threshold, which then no longer reads as a number.
   */
  lemma SuffixLeavesServiceOnBareCommand(g: Option<Properties>, m: Metric, commandNameSuffix: string,
                                         instanceId: string, warning: Result<int>, critical: Result<int>,
                                         relativePath: string)
    requires warning.Ok? && critical.Ok?
    requires '!' !in m.commandName && '!' !in instanceId && '!' !in commandNameSuffix && commandNameSuffix != ""
    ensures var args := Split(CheckCommandFor(m, commandNameSuffix, instanceId, warning, critical).value, "!");
            args[0] != GetMonitorCommandWithSuffix(g, m, commandNameSuffix, relativePath).name
            && args[3] == IntToString(critical.value) + commandNameSuffix
  {
    var args := Split(CheckCommandFor(m, commandNameSuffix, instanceId, warning, critical).value, "!");
    assert |m.commandName + commandNameSuffix| > |m.commandName|;
  }

  /** Without a suffix the service runs exactly the command `getMonitorCommand` defines. */
  lemma NoSuffixRunsMonitorCommand(g: Option<Properties>, m: Metric, instanceId: string,
                                   warning: Result<int>, critical: Result<int>, relativePath: string)
    requires warning.Ok? && critical.Ok?
    requires '!' !in m.commandName && '!' !in instanceId
    ensures Split(CheckCommandFor(m, "", instanceId, warning, critical).value, "!")[0]
         == GetMonitorCommand(g, m, relativePath).name
  {
  }
}
