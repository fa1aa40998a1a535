/**
 * `SQSUtil`: a queue's name from its URL, and which queues are monitored. `String.matches` is
 * a parameter: `matches(s, regex)` holds when the regular expression matches the whole of `s`.
 */
module SQSUtil {
  import opened JavaString

  const TYPE_NAME: string := "aws_sqs"

  const DEAD_LETTER: string := "dead-letter"

  /** `getQueueNameFromURL(sqsQueueUrl)`: what follows the last '/', or the whole URL without one. */
  function GetQueueNameFromURL(sqsQueueUrl: string): (r: string)
    ensures '/' !in r
    ensures EndsWith(sqsQueueUrl, r)
    ensures '/' !in sqsQueueUrl ==> r == sqsQueueUrl
    ensures '/' in sqsQueueUrl ==> |r| < |sqsQueueUrl| && sqsQueueUrl[|sqsQueueUrl| - |r| - 1] == '/'
  {
    sqsQueueUrl[LastIndexOf(sqsQueueUrl, '/') + 1..]
  }

  /** The name is recovered from any URL that ends with '/' and the name. */
  lemma QueueNameOfURL(base: string, name: string)
    requires '/' !in name
    ensures GetQueueNameFromURL(base + "/" + name) == name
  {
    var url := base + "/" + name;
    var r := GetQueueNameFromURL(url);
    assert url[|base|] == '/';
    assert url[|url| - |name|..] == name;
  }

  /**
   * `isQueueEligible(queueName, queueNamePrefix, queueNameRegex, deadLetterEnabled)`: the
   * dead-letter queue only when that is enabled; any other queue unless a non-empty prefix
   * does not start its name or a non-empty regex does not match it.
   */
  predicate IsQueueEligible(queueName: string, queueNamePrefix: string, queueNameRegex: string, deadLetterEnabled: bool,
                            matches: (string, string) -> bool)
  {
    if !deadLetterEnabled && queueName == DEAD_LETTER then false
    else if queueName != DEAD_LETTER && queueNamePrefix != "" && !StartsWith(queueName, queueNamePrefix) then false
    else if queueName != DEAD_LETTER && queueNameRegex != "" && !matches(queueName, queueNameRegex) then false
    else true
  }

  /** "dead-letter" is eligible exactly when dead-letter monitoring is on, whatever the prefix and regex. */
  lemma DeadLetterIgnoresFilters(prefix: string, regex: string, deadLetterEnabled: bool, matches: (string, string) -> bool)
    ensures IsQueueEligible(DEAD_LETTER, prefix, regex, deadLetterEnabled, matches) <==> deadLetterEnabled
  {
  }

  /** Any other queue is eligible exactly when it passes both the prefix and the regex filter. */
  lemma OtherQueuesFiltered(queueName: string, prefix: string, regex: string, deadLetterEnabled: bool,
                            matches: (string, string) -> bool)
    requires queueName != DEAD_LETTER
    ensures IsQueueEligible(queueName, prefix, regex, deadLetterEnabled, matches) <==>
      (prefix == "" || StartsWith(queueName, prefix)) && (regex == "" || matches(queueName, regex))
  {
  }

  /** Without a prefix or a regex, every queue but a disabled dead-letter queue is eligible. */
  lemma NoFiltersEveryQueue(queueName: string, deadLetterEnabled: bool, matches: (string, string) -> bool)
    requires queueName != DEAD_LETTER || deadLetterEnabled
    ensures IsQueueEligible(queueName, "", "", deadLetterEnabled, matches)
  {
  }
}
