/**
 * What every AWS metric enum shares: the Nagios check command it puts on a service
 * (`<command>!<id>!<warning>!<critical>`), the command line of the Nagios command that runs
 * its script, and the CloudWatch statistic and dimension types.
 */
module AwsMetric {
  import opened Wrappers
  import opened JavaString
  import opened GlobalCandlestackProperties
  import GlobalAWSProperties

  /** `CloudWatchStatistic`: which aggregate of a datapoint a metric reads. */
  datatype CloudWatchStatistic = Minimum | Maximum | Sum | Average | SampleCount

  /** A CloudWatch `Dimension`: a name and a value. */
  datatype Dimension = Dimension(name: string, value: string)

  /** The Nagios macros for a service's three check arguments. */
  const ARG1: string := "$ARG1$"
  const ARG2: string := "$ARG2$"
  const ARG3: string := "$ARG3$"

  /** The macros every monitor command line ends with: " $ARG1$ $ARG2$ $ARG3$". */
  const ARGUMENTS: string := " " + ARG1 + " " + ARG2 + " " + ARG3

  /** A string field that a failed read left null, as Java's `+` prints it. */
  function OrNull(r: Result<string>): (s: string)
    ensures r.Ok? ==> s == r.value
    ensures r.Err? ==> s == "null"
  {
    if r.Ok? then r.value else "null"
  }

  /**
   * The logs host an enum constant captured when its class was initialised, from the
   * properties installed at that moment.
   */
  function LogsHost(g: Option<Properties>): (s: string)
    ensures GlobalAWSProperties.GetLogsHost(g).Ok? ==> s == GlobalAWSProperties.GetLogsHost(g).value
    ensures GlobalAWSProperties.GetLogsHost(g).Err? ==> s == "null"
  {
    OrNull(GlobalAWSProperties.GetLogsHost(g))
  }

  /**
   * The logs token captured the same way. It is read in the same `try` block right after the
   * host, so when the host cannot be read the token is never read and stays null.
   */
  function LogsAuthToken(g: Option<Properties>): (s: string)
    ensures GlobalAWSProperties.GetLogsHost(g).Err? ==> s == "null"
    ensures GlobalAWSProperties.GetLogsHost(g).Ok? && GlobalAWSProperties.GetLogsAuthToken(g).Ok? ==>
      s == GlobalAWSProperties.GetLogsAuthToken(g).value
    ensures GlobalAWSProperties.GetLogsAuthToken(g).Err? ==> s == "null"
  {
    if GlobalAWSProperties.GetLogsHost(g).Err? then "null" else OrNull(GlobalAWSProperties.GetLogsAuthToken(g))
  }

  /** `commandName + "!" + id + "!" + warning + "!" + critical`: a check command and its three arguments. */
  function CheckCommand(commandName: string, id: string, warning: int, critical: int): string {
    commandName + "!" + id + "!" + IntToString(warning) + "!" + IntToString(critical)
  }

  /** The decimal text of a number holds no '!' and no ' ', and is never empty. */
  lemma NumberTextIsPlain(n: int)
    ensures '!' !in IntToString(n) && ' ' !in IntToString(n) && IntToString(n) != ""
  {
    if '!' in IntToString(n) {
      IntToStringChars(n, '!');
    }
    if ' ' in IntToString(n) {
      IntToStringChars(n, ' ');
    }
  }

  /**
   * Nagios splits a check command on '!': the command name comes back first, then $ARG1$ is
   * the id, $ARG2$ the warning and $ARG3$ the critical threshold, which parse back to the
   * thresholds themselves.
   */
  lemma CheckCommandArguments(commandName: string, id: string, warning: int, critical: int)
    ensures '!' !in commandName && '!' !in id ==>
      Split(CheckCommand(commandName, id, warning, critical), "!")
        == [commandName, id, IntToString(warning), IntToString(critical)]
    ensures LONG_MIN <= warning <= LONG_MAX ==> ParseLong(IntToString(warning)) == Some(warning)
    ensures LONG_MIN <= critical <= LONG_MAX ==> ParseLong(IntToString(critical)) == Some(critical)
  {
    var xs := [commandName, id, IntToString(warning), IntToString(critical)];
    NumberTextIsPlain(warning);
    NumberTextIsPlain(critical);
    assert Join(xs, "!") == CheckCommand(commandName, id, warning, critical) by {
      var w, c := IntToString(warning), IntToString(critical);
      assert xs[1..][1..][1..] == [c];
      assert Join(xs[1..][1..], "!") == w + "!" + c;
      assert Join(xs[1..], "!") == id + "!" + (w + "!" + c);
      assert Join(xs, "!") == commandName + "!" + (id + "!" + (w + "!" + c));
    }
    if '!' !in commandName && '!' !in id {
      SplitOfJoin(xs, '!');
    }
    if LONG_MIN <= warning <= LONG_MAX {
      ParseIntegerOfIntToString(warning, LONG_MIN, LONG_MAX);
    }
    if LONG_MIN <= critical <= LONG_MAX {
      ParseIntegerOfIntToString(critical, LONG_MIN, LONG_MAX);
    }
  }

  /**
   * `relativePathToMonitorResource + script + " " + logsHost + " " + logsAuthToken +
   * " $ARG1$ $ARG2$ $ARG3$"`: the script run with the log store's host and token and the
   * service's three check arguments.
   */
  function MonitorCommandLine(relativePath: string, script: string, logsHost: string, logsAuthToken: string): string {
    relativePath + script + " " + logsHost + " " + logsAuthToken + ARGUMENTS
  }

  /** Two scripts that differ at some position give different monitor command lines. */
  lemma MonitorCommandLinesDiffer(relativePath: string, script: string, other: string, logsHost: string,
                                  logsAuthToken: string, i: nat)
    requires i < |script| && i < |other| && script[i] != other[i]
    ensures MonitorCommandLine(relativePath, script, logsHost, logsAuthToken)
         != MonitorCommandLine(relativePath, other, logsHost, logsAuthToken)
  {
    var k := |relativePath| + i;
    assert MonitorCommandLine(relativePath, script, logsHost, logsAuthToken)[k] == script[i];
    assert MonitorCommandLine(relativePath, other, logsHost, logsAuthToken)[k] == other[i];
  }

  /**
   * The shell splits the line on ' ': the script's path, then the host, the token, and the
   * three macros in order.
   */
  lemma MonitorCommandLineWords(relativePath: string, script: string, logsHost: string, logsAuthToken: string)
    ensures ' ' !in relativePath + script && ' ' !in logsHost && ' ' !in logsAuthToken ==>
      Split(MonitorCommandLine(relativePath, script, logsHost, logsAuthToken), " ")
        == [relativePath + script, logsHost, logsAuthToken, ARG1, ARG2, ARG3]
  {
    var xs := [relativePath + script, logsHost, logsAuthToken, ARG1, ARG2, ARG3];
    assert ' ' !in ARG1 && ' ' !in ARG2 && ' ' !in ARG3 && ARG3 != "";
    assert Join(xs, " ") == MonitorCommandLine(relativePath, script, logsHost, logsAuthToken) by {
      var ys := xs[1..][1..][1..];
      assert ys == [ARG1, ARG2, ARG3] && ys[1..] == [ARG2, ARG3] && ys[1..][1..] == [ARG3];
      assert Join(ys[1..], " ") == ARG2 + " " + ARG3;
      assert Join(ys, " ") == ARG1 + " " + (ARG2 + " " + ARG3);
      assert Join(xs[1..][1..], " ") == logsAuthToken + " " + (ARG1 + " " + (ARG2 + " " + ARG3));
      assert Join(xs[1..], " ") == logsHost + " " + (logsAuthToken + " " + (ARG1 + " " + (ARG2 + " " + ARG3)));
    }
    if ' ' !in relativePath + script && ' ' !in logsHost && ' ' !in logsAuthToken {
      SplitOfJoin(xs, ' ');
    }
  }

  /**
   * With no properties installed when the enum class was initialised, both captured settings
   * print as "null" in every monitor command line.
   */
  lemma UninitialisedLogsPrintNull(relativePath: string, script: string)
    ensures MonitorCommandLine(relativePath, script, LogsHost(None), LogsAuthToken(None))
         == relativePath + script + " null null" + ARGUMENTS
  {
    assert LogsHost(None) == "null" && LogsAuthToken(None) == "null";
  }

  /**
   * A logs host that cannot be read (missing or blank) hides the token too: every monitor
   * command line carries "null null" as host and token, whatever the token setting says.
   */
  lemma UnreadableHostHidesToken(g: Option<Properties>, relativePath: string, script: string)
    requires GlobalAWSProperties.GetLogsHost(g).Err?
    ensures MonitorCommandLine(relativePath, script, LogsHost(g), LogsAuthToken(g))
         == relativePath + script + " null null" + ARGUMENTS
  {
    assert LogsHost(g) == "null" && LogsAuthToken(g) == "null";
  }
}
