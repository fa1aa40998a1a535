/**
 * `SQSQueueAttribute`: the queue attributes read from SQS itself, each with the Nagios
 * service that checks it and the Nagios command that runs its script.
 */
module SQSQueueAttribute {
  import opened Wrappers
  import opened JavaString
  import opened GlobalCandlestackProperties
  import opened AwsMetric
  import GlobalAWSProperties
  import MetricsReaderWriter
  import Service
  import Command

  datatype Attribute = ApproximateNumberOfMessages | LastModifiedTimestamp

  function ServiceName(a: Attribute): string {
    match a
    case ApproximateNumberOfMessages => "check-queue-size"
    case LastModifiedTimestamp => "check-queue-last-modified"
  }

  function CommandName(a: Attribute): string {
    match a
    case ApproximateNumberOfMessages => "check-aws-sqs-queue-size"
    case LastModifiedTimestamp => "check-aws-sqs-queue-last-modified"
  }

  /** `getResourceName()`: the script the command runs. */
  function ResourceName(a: Attribute): string {
    match a
    case ApproximateNumberOfMessages => "check-aws-sqs-queue-size-via-es.sh"
    case LastModifiedTimestamp => "check-aws-sqs-queue-last-modified-via-es.sh"
  }

  /** `name()`. */
  function Name(a: Attribute): string {
    match a
    case ApproximateNumberOfMessages => "ApproximateNumberOfMessages"
    case LastModifiedTimestamp => "LastModifiedTimestamp"
  }

  /** `valueOf(name)`: the constant with exactly that name, none for any other text. */
  function ValueOf(name: string): (r: Option<Attribute>)
    ensures r.Some? ==> Name(r.value) == name
    ensures forall a :: Name(a) == name ==> r == Some(a)
  {
    if name == "ApproximateNumberOfMessages" then Some(ApproximateNumberOfMessages)
    else if name == "LastModifiedTimestamp" then Some(LastModifiedTimestamp)
    else None
  }

  lemma PlainCommandName(a: Attribute)
    ensures '!' !in CommandName(a)
  {
  }

  lemma PlainResourceName(a: Attribute)
    ensures ' ' !in ResourceName(a)
  {
  }

  function WarningLevel(g: Option<Properties>, a: Attribute, queueName: string): Result<int> {
    GlobalAWSProperties.DetermineAlertValue(g, GlobalAWSProperties.SQS_QUEUE_ATTRIBUTE_WARNING_PREFIX, Name(a), queueName)
  }

  function CriticalLevel(g: Option<Properties>, a: Attribute, queueName: string): Result<int> {
    GlobalAWSProperties.DetermineAlertValue(g, GlobalAWSProperties.SQS_QUEUE_ATTRIBUTE_CRITICAL_PREFIX, Name(a), queueName)
  }

  /**
   * The check command `getService` builds: the command name, the sanitized queue name and its
   * two thresholds, as Nagios reads them back by splitting on '!'; it fails when a threshold
   * cannot be read.
   */
  function CheckCommandFor(g: Option<Properties>, a: Attribute, queueName: string): (r: Result<string>)
    ensures r.Ok? <==> WarningLevel(g, a, queueName).Ok? && CriticalLevel(g, a, queueName).Ok?
    ensures r.Ok? && '!' !in queueName ==>
      Split(r.value, "!")
        == [CommandName(a), MetricsReaderWriter.SanitizeString(queueName),
            IntToString(WarningLevel(g, a, queueName).value), IntToString(CriticalLevel(g, a, queueName).value)]
  {
    var warning :- WarningLevel(g, a, queueName);
    var critical :- CriticalLevel(g, a, queueName);
    var id := MetricsReaderWriter.SanitizeString(queueName);
    PlainCommandName(a);
    MetricsReaderWriter.SanitizeStringKeeps(queueName, '!');
    CheckCommandArguments(CommandName(a), id, warning, critical);
    Ok(CheckCommand(CommandName(a), id, warning, critical))
  }

  /**
   * `getService(queueName, contactGroups)`: a service on the queue's host (its name
   * unsanitized) running that check command. The four-argument `Service` constructor it
   * calls is not part of this model; it is taken to be the six-argument one with the notes
   * and the notification period as parameters.
   */
  function GetService(g: Option<Properties>, a: Attribute, notes: string, notificationPeriod: string,
                      queueName: string, contactGroups: StringSet): (r: Result<Service.Service>)
    ensures r.Ok? <==> CheckCommandFor(g, a, queueName).Ok?
    ensures r.Ok? ==> r.value.checkCommand == CheckCommandFor(g, a, queueName).value
    ensures r.Ok? ==> r.value.description == ServiceName(a) && r.value.hostName == queueName
                      && r.value.notes == notes && r.value.notificationPeriod == notificationPeriod
                      && r.value.contactGroups == contactGroups
  {
    var command :- CheckCommandFor(g, a, queueName);
    Ok(Service.New(ServiceName(a), queueName, command, notes, notificationPeriod, contactGroups))
  }

  /** `getMonitorCommand(relativePathToMonitorResource)`: the command running the attribute's script. */
  function GetMonitorCommand(g: Option<Properties>, a: Attribute, relativePath: string): (r: Command.Command)
    ensures r.name == CommandName(a)
    ensures ' ' !in relativePath && ' ' !in LogsHost(g) && ' ' !in LogsAuthToken(g) ==>
      Split(r.line, " ") == [relativePath + ResourceName(a), LogsHost(g), LogsAuthToken(g), ARG1, ARG2, ARG3]
  {
    PlainResourceName(a);
    MonitorCommandLineWords(relativePath, ResourceName(a), LogsHost(g), LogsAuthToken(g));
    Command.Command(CommandName(a), MonitorCommandLine(relativePath, ResourceName(a), LogsHost(g), LogsAuthToken(g)))
  }

  /**
   * Each attribute has its own threshold keys: the same queue's two services read different
   * settings, so configuring one attribute leaves the other's thresholds alone.
   */
  lemma AttributesHaveOwnThresholdKeys(queueName: string)
    ensures GlobalAWSProperties.OverrideKey(GlobalAWSProperties.SQS_QUEUE_ATTRIBUTE_WARNING_PREFIX, Name(ApproximateNumberOfMessages), queueName)
         != GlobalAWSProperties.OverrideKey(GlobalAWSProperties.SQS_QUEUE_ATTRIBUTE_WARNING_PREFIX, Name(LastModifiedTimestamp), queueName)
    ensures GlobalAWSProperties.DefaultKey(GlobalAWSProperties.SQS_QUEUE_ATTRIBUTE_WARNING_PREFIX, Name(ApproximateNumberOfMessages))
         != GlobalAWSProperties.DefaultKey(GlobalAWSProperties.SQS_QUEUE_ATTRIBUTE_WARNING_PREFIX, Name(LastModifiedTimestamp))
  {
    var p := GlobalAWSProperties.SQS_QUEUE_ATTRIBUTE_WARNING_PREFIX;
    var k := |p + queueName + "."|;
    assert GlobalAWSProperties.OverrideKey(p, Name(ApproximateNumberOfMessages), queueName)[k] == 'A';
    assert GlobalAWSProperties.OverrideKey(p, Name(LastModifiedTimestamp), queueName)[k] == 'L';
    var d := |p + "default."|;
    assert GlobalAWSProperties.DefaultKey(p, Name(ApproximateNumberOfMessages))[d] == 'A';
    assert GlobalAWSProperties.DefaultKey(p, Name(LastModifiedTimestamp))[d] == 'L';
  }

  /** `GlobalAWSProperties.getSQSQueueAttributes()`: the constants named in the setting. */
  method GetSQSQueueAttributes(g: Option<Properties>) returns (r: Result<set<Attribute>>)
    ensures r == GlobalAWSProperties.EnumSetProperty(g, GlobalAWSProperties.SQS_QUEUE_ATTRIBUTES, ValueOf)
    ensures r.Ok? <==> g.Some? && GlobalAWSProperties.EnumSetReadable(g.value, GlobalAWSProperties.SQS_QUEUE_ATTRIBUTES, ValueOf)
    ensures r.Ok? && Trim(g.value[GlobalAWSProperties.SQS_QUEUE_ATTRIBUTES]) == "" ==> r.value == {}
    ensures r.Ok? ==> forall a :: a in r.value <==>
      Name(a) in GetSetProperty(g, GlobalAWSProperties.SQS_QUEUE_ATTRIBUTES, true).value
  {
    r := GlobalAWSProperties.GetEnumSet(g, GlobalAWSProperties.SQS_QUEUE_ATTRIBUTES, ValueOf);
  }
}
