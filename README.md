# candlestack in Dafny

candlestack watches AWS resources (EC2 instances, Elastic Beanstalk environments, RDS instances,
SQS queues, S3 buckets and Lambda functions) and drives Nagios from them. Every tick it
discovers the resources to monitor, turns them into Nagios object definitions (hosts, host
groups, services, commands, contacts, contact groups and time periods), writes the object
files only when the definitions changed since the last tick, and restarts Nagios. Beside that,
the CloudWatch side reads the metric datapoints of each resource, appends them to a metrics
log as one JSON-like record per line, and Nagios check commands read the newest value back
from those logs.

This project models that core in Dafny, one module per Java class:

- the Nagios object model (`Command`, `Contact`, `ContactGroup`, `Host`, `HostGroup`,
  `Service`, `TimePeriod`, `TimeRange`), the text each object is written as, and the
  structural comparison (`ListEquivalence`) used to decide whether anything changed;
- the update tick (`NagiosUpdater`), with its per-lookup memory of the previous host groups and
  its log of file writes and restarts;
- the configuration readers (`GlobalAWSProperties`, `GlobalCandlestackProperties`,
  `GlobalNagiosProperties`), with every property's default and every parse error;
- the metric enums of each resource type and the Nagios service and command each metric
  becomes (`AwsMetric`, `EC2CloudWatchMetric`, `EC2GraphiteMetric`, `EC2MetricbeatMetric`,
  `EBCloudWatchMetric`, `EBGraphiteMetric`, `RDSCloudWatchMetric`, `RDSType`,
  `SQSCloudWatchMetric`, `SQSQueueAttribute`, `LambdaCloudWatchMetric`, `S3MetadataMetric`);
- the per-resource lookups that turn discovered resources into host groups (`EC2Util`,
  `EBUtil`, `RDSUtil`, `SQSUtil`, `LambdaUtil`, `S3HostMonitorLookup`);
- the CloudWatch accessor's request window, cursor and write loop (`CloudWatchAccessor`) and
  the metrics log reader and writer (`MetricsReaderWriter`).

Support modules: `Wrappers` (Option, Result and the Java exceptions the code raises),
`JavaString` (`String.split`, `trim`, `join`, and number parsing and case folding on ASCII text),
`ObjectFormat` (the `define kind{ ... }` block and the proof that every block reads back),
`Traversal` (the sequence folds the lookups share).

Methods model the loops and the objects the source changes in place; pure Java helpers are
functions, and what the code promises is proved as lemmas about them. Everything the code reads
from the outside world (AWS describe calls, CloudWatch statistics, directory listings, the
clock, regular-expression matching and date formatting) is a parameter of the model.

## Model

| member | source | states |
|---|---|---|
| ObjectFormat.RenderFrame | src/main/java/io/codearcs/candlestack/nagios/object/commands/Command.java:34-44 | every object definition opens with "define <kind>{" and a newline and closes with "}" and a blank line |
| ObjectFormat.ReadBackOne | src/main/java/io/codearcs/candlestack/nagios/object/commands/Command.java:34-44 | one definition whose keys hold no tab, whose values hold no newline and whose kind holds no '{' reads back as itself |
| ObjectFormat.ParseAllOfRenderAll | src/main/java/io/codearcs/candlestack/nagios/object/commands/Command.java:34-44 | any run of such definitions written one after the other reads back as the same definitions in the same order |
| NagiosUtil.AreEquivalent | src/main/java/io/codearcs/candlestack/nagios/NagiosUtil.java:18-35 | sets of different sizes are not equivalent; the result is `Equivalent(set1, set2)`: same size and every string of the first is in the second |
| NagiosUtil.CardinalityOfElements | src/main/java/io/codearcs/candlestack/nagios/NagiosUtil.java:21 | a duplicate-free list (a Java `Set`) has as many distinct strings as entries, so the size test compares set sizes |
| NagiosUtil.EquivalentIffSameStrings | src/main/java/io/codearcs/candlestack/nagios/NagiosUtil.java:18-35 | the comparison holds exactly when the two sets hold the same strings |
| NagiosUtil.Symmetric | src/main/java/io/codearcs/candlestack/nagios/NagiosUtil.java:18-35 | swapping the arguments never changes the result |
| NagiosUtil.Reflexive | src/main/java/io/codearcs/candlestack/nagios/NagiosUtil.java:19-34 | every set is equivalent to itself, and two empty sets are equivalent |
| NagiosUtil.Transitive | src/main/java/io/codearcs/candlestack/nagios/NagiosUtil.java:18-35 | the comparison is transitive |
| ListEquivalence.AreEquivalent | src/main/java/io/codearcs/candlestack/nagios/object/services/Service.java:169-195 | the nested search loop (shared by the service, host and host-group list comparisons) returns `ListsEquivalent`: equal lengths and every element of the first list has an equivalent in the second |
| ListEquivalence.ListsEquivalentByMembership | src/main/java/io/codearcs/candlestack/nagios/object/services/Service.java:169-195 | the outcome depends only on the length test and on which elements of the first list have a match in the second |
| ListEquivalence.PermutationInvariant | src/main/java/io/codearcs/candlestack/nagios/object/services/Service.java:169-195 | reordering either list never changes the outcome |
| ListEquivalence.Reflexive | src/main/java/io/codearcs/candlestack/nagios/object/services/Service.java:169-195 | with a reflexive element comparison every list is equivalent to itself |
| ListEquivalence.Transitive | src/main/java/io/codearcs/candlestack/nagios/object/services/Service.java:169-195 | with a transitive element comparison the list comparison is transitive |
| ListEquivalence.OneDirectional | src/main/java/io/codearcs/candlestack/nagios/object/services/Service.java:169-195 | the comparison is neither symmetric nor multiset equality: [a, a] matches [a, b] while [a, b] does not match [a, a] |
| ListEquivalence.AreEquivalentOrThrow | src/main/java/io/codearcs/candlestack/nagios/object/hosts/Host.java:157-185 | the nested search loop with an element comparison that can throw: lists of different lengths give false without comparing; the first exception of a comparison it makes ends the loop with that exception; otherwise it answers as the search does |
| ListEquivalence.OrThrowAgrees | src/main/java/io/codearcs/candlestack/nagios/object/hosts/Host.java:157-185 | whenever the comparison that can throw returns a value, it is the answer of the plain list comparison over any predicate its element comparison agrees with |
| ListEquivalence.OrThrowWithoutException | src/main/java/io/codearcs/candlestack/nagios/object/hosts/Host.java:157-185 | when no element of the first list makes the element comparison throw, the result is the plain list comparison's answer |
| Service.New | src/main/java/io/codearcs/candlestack/nagios/object/services/Service.java:31-48 | a new service keeps the given strings and contact groups and has max check attempts 3, check interval 5, retry interval 1, notification interval 0, notifications enabled and check period "24x7" |
| Service.ObjectDefinitions | src/main/java/io/codearcs/candlestack/nagios/object/services/Service.java:112-166 | the definition text opens with `define service{` and ends with the `}` line and a blank line |
| Service.KeysHaveNoTab | src/main/java/io/codearcs/candlestack/nagios/object/services/Service.java:115-162 | none of the twelve keys holds a tab, so each `\t<key>\t<value>` line splits back unambiguously |
| Service.PlainDefinition | src/main/java/io/codearcs/candlestack/nagios/object/services/Service.java:112-166 | a service whose strings hold no newline gives a block that the object-definition reader accepts |
| Service.ReadBack | src/main/java/io/codearcs/candlestack/nagios/object/services/Service.java:112-166 | reading the text back gives exactly one service block with the twelve fields in the order the code writes them: host_name, service_description, notes, check_command, the four numbers, check_period, notification_period, contact_groups joined by ',' |
| Service.EquivalentIff | src/main/java/io/codearcs/candlestack/nagios/object/services/Service.java:198-224 | two services are equivalent exactly when host, description, check command, both periods, the three intervals and max attempts are equal and the contact groups hold the same strings |
| Service.IgnoresNotesAndFlag | src/main/java/io/codearcs/candlestack/nagios/object/services/Service.java:198-224 | changing the notes or the notifications flag never changes the outcome |
| Service.Reflexive | src/main/java/io/codearcs/candlestack/nagios/object/services/Service.java:198-224 | every service is equivalent to itself |
| Service.Symmetric | src/main/java/io/codearcs/candlestack/nagios/object/services/Service.java:198-224 | swapping the two services never changes the outcome |
| Service.Transitive | src/main/java/io/codearcs/candlestack/nagios/object/services/Service.java:198-224 | the single-service comparison is transitive |
| Service.AreEquivalentLists | src/main/java/io/codearcs/candlestack/nagios/object/services/Service.java:169-195 | lists of different lengths are not equivalent; otherwise the result is whether every service of the first list has an equivalent in the second |
| Service.ListsIgnoreOrder | src/main/java/io/codearcs/candlestack/nagios/object/services/Service.java:169-195 | reordering either list of services never changes the outcome |
| Service.ListsReflexive | src/main/java/io/codearcs/candlestack/nagios/object/services/Service.java:169-195 | every list of services is equivalent to itself |
| Service.ListsOneDirectional | src/main/java/io/codearcs/candlestack/nagios/object/services/Service.java:169-195 | for services on different hosts, [a, a] is equivalent to [a, b] but [a, b] is not equivalent to [a, a] |
| Host.Host.constructor | src/main/java/io/codearcs/candlestack/nagios/object/hosts/Host.java:33-50 | a new host keeps name, alias, address and contact groups, has no services, max check attempts 5, notification interval 10, check interval 5 and "24x7" for both periods |
| Host.Host.AddService | src/main/java/io/codearcs/candlestack/nagios/object/hosts/Host.java:97-99 | the service is appended at the end of the list and nothing else changes |
| Host.Host.ObjectDefinitions | src/main/java/io/codearcs/candlestack/nagios/object/hosts/Host.java:108-154 | the loop's text is `Definitions(Node())`: the host block followed by each service's block in list order |
| Host.AllDefinitionsSnoc | src/main/java/io/codearcs/candlestack/nagios/object/hosts/Host.java:149-151 | one more loop step appends exactly the next service's block |
| Host.KeysHaveNoTab | src/main/java/io/codearcs/candlestack/nagios/object/hosts/Host.java:111-145 | none of the nine keys holds a tab |
| Host.PlainDefinitions | src/main/java/io/codearcs/candlestack/nagios/object/hosts/Host.java:108-154 | a host whose strings and whose services' strings hold no newline gives blocks the object-definition reader accepts |
| Host.ReadBack | src/main/java/io/codearcs/candlestack/nagios/object/hosts/Host.java:108-154 | reading the text back gives the host block (host_name, alias, address, max_check_attempts, check_interval, check_period, notification_interval, notification_period, contact_groups) and then one service block per service, in insertion order |
| Host.AreEquivalentAsWritten | src/main/java/io/codearcs/candlestack/nagios/object/hosts/Host.java:188-216 | the comparison as written throws a NullPointerException exactly when names and aliases match and the first host has no address |
| Host.AsWrittenAgrees | src/main/java/io/codearcs/candlestack/nagios/object/hosts/Host.java:188-216 | where the first host has an address the code as written returns the null-safe comparison's answer |
| Host.NullAddressThrows | src/main/java/io/codearcs/candlestack/nagios/object/hosts/Host.java:188-196 | a host without an address cannot be compared with itself as written (NullPointerException), while the null-safe comparison finds it equivalent |
| Host.EquivalentIff | src/main/java/io/codearcs/candlestack/nagios/object/hosts/Host.java:188-216 | two hosts are equivalent exactly when name, alias, address, both periods, max attempts and both intervals are equal, the contact groups hold the same strings and the service lists compare equivalent |
| Host.Reflexive | src/main/java/io/codearcs/candlestack/nagios/object/hosts/Host.java:188-216 | every host is equivalent to itself under the null-safe comparison |
| Host.PermutedServices | src/main/java/io/codearcs/candlestack/nagios/object/hosts/Host.java:205 | reordering a host's services leaves it equivalent to the original, in both directions |
| Host.NotSymmetric | src/main/java/io/codearcs/candlestack/nagios/object/hosts/Host.java:205 | with services on different hosts, a host with services [a, a] is equivalent to one with [a, b] but not conversely |
| Host.AreEquivalentLists | src/main/java/io/codearcs/candlestack/nagios/object/hosts/Host.java:157-216 | the list comparison as the code runs it, with the host comparison that throws: lists of different lengths give false without comparing a host; a result without exception is the null-safe answer (equal lengths and every host of the first list has an equivalent in the second); a first list whose hosts all have an address never throws |
| Host.ListsAsWrittenAgree | src/main/java/io/codearcs/candlestack/nagios/object/hosts/Host.java:157-216 | a list comparison that returns without exception gives the null-safe answer, and one whose first list has every host addressed never throws |
| Host.ListNullAddressThrows | src/main/java/io/codearcs/candlestack/nagios/object/hosts/Host.java:157-196 | a host list starting with a host without an address throws NullPointerException when compared with itself |
| Host.ListsReflexive | src/main/java/io/codearcs/candlestack/nagios/object/hosts/Host.java:157-184 | every list of hosts is equivalent to itself |
| Host.ListsIgnoreOrder | src/main/java/io/codearcs/candlestack/nagios/object/hosts/Host.java:157-184 | reordering either host list never changes the outcome |
| Host.ListsOneDirectional | src/main/java/io/codearcs/candlestack/nagios/object/hosts/Host.java:157-184 | for hosts of different names, [a, a] matches [a, b] but [a, b] does not match [a, a] |
| HostGroup.Nodes | src/main/java/io/codearcs/candlestack/nagios/object/hosts/HostGroup.java:49-51 | the snapshot of a host list has one host snapshot per host, in order |
| HostGroup.NodesSnoc | src/main/java/io/codearcs/candlestack/nagios/object/hosts/HostGroup.java:44-46 | appending a host appends its snapshot |
| HostGroup.HostGroup.constructor | src/main/java/io/codearcs/candlestack/nagios/object/hosts/HostGroup.java:21-31 | the group keeps its name, stores a null alias as "" and starts with no hosts |
| HostGroup.HostGroup.AddHost | src/main/java/io/codearcs/candlestack/nagios/object/hosts/HostGroup.java:44-46 | the host is appended at the end of the list and nothing else changes |
| HostGroup.HostGroup.ObjectDefinitions | src/main/java/io/codearcs/candlestack/nagios/object/hosts/HostGroup.java:55-78 | the loop's text is `Definitions(Node())`: the group block followed by each host's definitions in list order |
| HostGroup.HostsDefinitionsSnoc | src/main/java/io/codearcs/candlestack/nagios/object/hosts/HostGroup.java:73-75 | one more loop step appends exactly the next host's definitions |
| HostGroup.PlainHostsDefinitions | src/main/java/io/codearcs/candlestack/nagios/object/hosts/HostGroup.java:73-75 | hosts whose strings hold no newline give blocks the object-definition reader accepts |
| HostGroup.KeysHaveNoTab | src/main/java/io/codearcs/candlestack/nagios/object/hosts/HostGroup.java:58-69 | none of the three keys holds a tab |
| HostGroup.ReadBack | src/main/java/io/codearcs/candlestack/nagios/object/hosts/HostGroup.java:55-78 | reading the text back gives the group block, whose members field is the host names joined by ',' in insertion order, followed by every host's blocks |
| HostGroup.EquivalentIff | src/main/java/io/codearcs/candlestack/nagios/object/hosts/HostGroup.java:113-125 | two groups are equivalent exactly when names and aliases are equal, the host lists have equal lengths and every host of the first has an equivalent in the second |
| HostGroup.Reflexive | src/main/java/io/codearcs/candlestack/nagios/object/hosts/HostGroup.java:113-125 | every group is equivalent to itself |
| HostGroup.AreEquivalentLists | src/main/java/io/codearcs/candlestack/nagios/object/hosts/HostGroup.java:81-125 | the group list comparison as the code runs it, reaching the host comparison that throws: lists of different lengths give false; a result without exception is the null-safe answer; a first list whose hosts all have an address never throws |
| HostGroup.AsWrittenAgrees | src/main/java/io/codearcs/candlestack/nagios/object/hosts/HostGroup.java:113-125 | the group comparison as written agrees with the null-safe one whenever it returns, and never throws when the first group's hosts all have an address |
| HostGroup.ListsAsWrittenAgree | src/main/java/io/codearcs/candlestack/nagios/object/hosts/HostGroup.java:81-125 | a group list comparison that returns without exception gives the null-safe answer, and one whose first list has every host addressed never throws |
| HostGroup.AddresslessGroupThrows | src/main/java/io/codearcs/candlestack/nagios/object/hosts/HostGroup.java:113-125 | a group whose first host has no address, compared with itself in a one-group list, throws NullPointerException |
| HostGroup.ListsReflexive | src/main/java/io/codearcs/candlestack/nagios/object/hosts/HostGroup.java:81-109 | every list of groups is equivalent to itself |
| HostGroup.ListsIgnoreOrder | src/main/java/io/codearcs/candlestack/nagios/object/hosts/HostGroup.java:81-109 | reordering either group list never changes the outcome |
| HostGroup.ListsOneDirectional | src/main/java/io/codearcs/candlestack/nagios/object/hosts/HostGroup.java:81-109 | for groups of different names, [a, a] matches [a, b] but [a, b] does not match [a, a] |
| Contact.HostOptionValueOf | src/main/java/io/codearcs/candlestack/nagios/object/contacts/HostNotificationOption.java:7-11 | looking a name up gives the option exactly when that option's name is the string; nothing else gives a value |
| Contact.ServiceOptionValueOf | src/main/java/io/codearcs/candlestack/nagios/object/contacts/ServiceNotificationOption.java:7-11 | looking a name up gives the option exactly when that option's name is the string; nothing else gives a value |
| Contact.ContactBuilder.constructor | src/main/java/io/codearcs/candlestack/nagios/object/contacts/Contact.java:174-191 | a new builder holds the given name, alias and email, and the configured defaults for the two flags, two periods, two option lists and two command sets |
| Contact.ContactBuilder.SetHostNotificationsEnabled | src/main/java/io/codearcs/candlestack/nagios/object/contacts/Contact.java:198-201 | only the host flag changes, and the builder itself is returned for chaining |
| Contact.ContactBuilder.SetServiceNotificationsEnabled | src/main/java/io/codearcs/candlestack/nagios/object/contacts/Contact.java:209-212 | only the service flag changes, and the builder itself is returned |
| Contact.ContactBuilder.SetHostNotificationPeriod | src/main/java/io/codearcs/candlestack/nagios/object/contacts/Contact.java:220-223 | only the host notification period changes, and the builder itself is returned |
| Contact.ContactBuilder.SetServiceNotificationPeriod | src/main/java/io/codearcs/candlestack/nagios/object/contacts/Contact.java:231-234 | only the service notification period changes, and the builder itself is returned |
| Contact.ContactBuilder.SetHostNotificationCommands | src/main/java/io/codearcs/candlestack/nagios/object/contacts/Contact.java:242-245 | only the host notification commands change, and the builder itself is returned |
| Contact.ContactBuilder.SetServiceNotificationCommands | src/main/java/io/codearcs/candlestack/nagios/object/contacts/Contact.java:253-256 | only the service notification commands change, and the builder itself is returned |
| Contact.ContactBuilder.SetHostNotificationOptions | src/main/java/io/codearcs/candlestack/nagios/object/contacts/Contact.java:264-267 | only the host notification options change, and the builder itself is returned |
| Contact.ContactBuilder.SetServiceNotificationOptions | src/main/java/io/codearcs/candlestack/nagios/object/contacts/Contact.java:275-278 | only the service notification options change, and the builder itself is returned |
| Contact.ContactBuilder.Build | src/main/java/io/codearcs/candlestack/nagios/object/contacts/Contact.java:295-297 | the built contact carries every builder field unchanged |
| Contact.FromDefaults | src/main/java/io/codearcs/candlestack/nagios/object/contacts/Contact.java:174-191 | a fresh builder's contact has the given name, alias and email and each of the eight defaults in its own field |
| Contact.SettingsOf | src/main/java/io/codearcs/candlestack/nagios/object/contacts/Contact.java:28-45 | the eight settings of any contact, fed back as defaults with its name, alias and email, give that contact again |
| Contact.ObjectDefinitions | src/main/java/io/codearcs/candlestack/nagios/object/contacts/Contact.java:105-157 | the text starts with the `define contact{` line and ends with the closing brace and a blank line |
| Contact.KeysHaveNoTab | src/main/java/io/codearcs/candlestack/nagios/object/contacts/Contact.java:109-151 | none of the eleven keys holds a tab, so each key/value line splits unambiguously |
| Contact.PlainDefinition | src/main/java/io/codearcs/candlestack/nagios/object/contacts/Contact.java:105-157 | for a contact whose strings hold no newline, no written value holds a newline and no key a tab |
| Contact.ReadBack | src/main/java/io/codearcs/candlestack/nagios/object/contacts/Contact.java:105-157 | the text of such a contact parses back as exactly its eleven fields in order, the host flag as "1"/"0" and the host options as their names joined with ',' |
| Contact.FieldValues | src/main/java/io/codearcs/candlestack/nagios/object/contacts/Contact.java:121-139 | the fourth field is "1" exactly when host notifications are enabled and the eighth is the host options text |
| Contact.HostOptionsTextSplits | src/main/java/io/codearcs/candlestack/nagios/object/contacts/Contact.java:137-139 | the options text splits on ',' back into the option names, one per option, in order |
| ContactGroup.ContactGroup.constructor | src/main/java/io/codearcs/candlestack/nagios/object/contacts/ContactGroup.java:21-24 | the two-argument constructor keeps name and alias and gives the group a fresh empty member set |
| ContactGroup.ContactGroup.WithMembers | src/main/java/io/codearcs/candlestack/nagios/object/contacts/ContactGroup.java:26-30 | the three-argument constructor keeps the caller's set object itself, not a copy |
| ContactGroup.ContactGroup.AddMember | src/main/java/io/codearcs/candlestack/nagios/object/contacts/ContactGroup.java:43-46 | adding an existing member changes nothing; adding a new one appends it and keeps every other member |
| ContactGroup.ContactGroup.ObjectDefinitions | src/main/java/io/codearcs/candlestack/nagios/object/contacts/ContactGroup.java:54-74 | the text starts with the `define contactgroup{` line and ends with the closing brace and a blank line |
| ContactGroup.AddThroughGroup | src/main/java/io/codearcs/candlestack/nagios/object/contacts/ContactGroup.java:26-46 | a member added through a group built on the caller's set shows up in the caller's set, which keeps its old members |
| ContactGroup.KeysHaveNoTab | src/main/java/io/codearcs/candlestack/nagios/object/contacts/ContactGroup.java:58-67 | none of the three keys holds a tab |
| ContactGroup.ReadBack | src/main/java/io/codearcs/candlestack/nagios/object/contacts/ContactGroup.java:54-74 | with no newline in name, alias or member and no ',' in a member, the text parses back as its three fields, and a non-empty members field splits on ',' into the members in order |
| Command.ObjectDefinitions | src/main/java/io/codearcs/candlestack/nagios/object/commands/Command.java:32-48 | the text starts with the `define command{` line and ends with the closing brace and a blank line |
| Command.ExactText | src/main/java/io/codearcs/candlestack/nagios/object/commands/Command.java:32-48 | the text is exactly the header, the name line, the command-line line and the footer, values copied verbatim |
| Command.ReadBack | src/main/java/io/codearcs/candlestack/nagios/object/commands/Command.java:32-48 | a command whose name and line hold no newline parses back as its two fields, name first |
| TimePeriod.TimePeriodBuilder.constructor | src/main/java/io/codearcs/candlestack/nagios/object/timeperiod/TimePeriod.java:103-107 | a new builder keeps name and alias and starts with no weekdays |
| TimePeriod.TimePeriodBuilder.AddWeekday | src/main/java/io/codearcs/candlestack/nagios/object/timeperiod/TimePeriod.java:110-113 | the weekday is appended after those already added, and the builder itself is returned |
| TimePeriod.TimePeriodBuilder.Build | src/main/java/io/codearcs/candlestack/nagios/object/timeperiod/TimePeriod.java:23-27 | the period keeps the builder's name, alias and weekdays in the order they were added |
| TimePeriod.TwentyFourSeven | src/main/java/io/codearcs/candlestack/nagios/object/timeperiod/TimePeriod.java:82-93 | the period is named "24x7", has the alias "24 hours a day, 7 days a week" and lists Sunday through Saturday, each with the one range 00:00-24:00 |
| TimePeriod.AllDefaultTimePeriods | src/main/java/io/codearcs/candlestack/nagios/object/timeperiod/TimePeriod.java:72-74 | the defaults are exactly one period, the 24x7 one |
| TimePeriod.WeekdayFieldsSnoc | src/main/java/io/codearcs/candlestack/nagios/object/timeperiod/TimePeriod.java:57-64 | one more loop step adds exactly the next weekday's line |
| TimePeriod.ObjectDefinitions | src/main/java/io/codearcs/candlestack/nagios/object/timeperiod/TimePeriod.java:46-69 | the loop's text is the rendered definition: name and alias lines, then one line per weekday in order, keyed by the lower-case day name with the ranges joined by ',' |
| TimePeriod.HeaderPlain | src/main/java/io/codearcs/candlestack/nagios/object/timeperiod/TimePeriod.java:47-55 | with no newline in name or alias, the header lines are well formed |
| TimePeriod.WeekdayFieldPlain | src/main/java/io/codearcs/candlestack/nagios/object/timeperiod/TimePeriod.java:58-63 | a weekday's key holds no tab, and its value no newline when its ranges text has none |
| TimePeriod.DayKeyLetters | src/main/java/io/codearcs/candlestack/nagios/object/timeperiod/TimePeriod.java:59 | the key of a weekday line is lower-case letters only |
| TimePeriod.ReadBack | src/main/java/io/codearcs/candlestack/nagios/object/timeperiod/TimePeriod.java:46-69 | with no newline in name, alias or any ranges text, the text parses back as its name, alias and one field per weekday in order |
| TimeRange.Pad2TwoDigits | src/main/java/io/codearcs/candlestack/nagios/object/timeperiod/TimeRange.java:28 | a number from 0 to 99 formats as exactly its two decimal digits |
| TimeRange.ToStringRoundTrip | src/main/java/io/codearcs/candlestack/nagios/object/timeperiod/TimeRange.java:25-39 | when every hour and minute is in 0..99 the text has 11 characters and reads back as the same range |
| TimeRange.AllDayText | src/main/java/io/codearcs/candlestack/nagios/object/timeperiod/TimeRange.java:25-39 | the whole-day range prints as "00:00-24:00" |
| GlobalCandlestackProperties.Global.constructor | src/main/java/io/codearcs/candlestack/GlobalCandlestackProperties.java:13 | before any `init` no properties are installed |
| GlobalCandlestackProperties.Global.Init | src/main/java/io/codearcs/candlestack/GlobalCandlestackProperties.java:27-31 | the first call with present properties installs them; a later call, or one with none, leaves the installed properties as they are |
| GlobalCandlestackProperties.InitCheck | src/main/java/io/codearcs/candlestack/GlobalCandlestackProperties.java:201-205 | succeeds exactly when properties are installed, and then yields them |
| GlobalCandlestackProperties.GetIntProperty | src/main/java/io/codearcs/candlestack/GlobalCandlestackProperties.java:49-77 | fails when not initialised; the five documented rules: missing key without default fails, with default gives it; an unparsable value without default fails, with default gives it; a parsable value wins over the default; a parsed result is within the int range |
| GlobalCandlestackProperties.GetLongProperty | src/main/java/io/codearcs/candlestack/GlobalCandlestackProperties.java:95-123 | the same five rules with the range of a long |
| GlobalCandlestackProperties.IntPropertyReadsBack | src/main/java/io/codearcs/candlestack/GlobalCandlestackProperties.java:49-77 | an int stored as its decimal text reads back as itself whatever the default |
| GlobalCandlestackProperties.LongPropertyReadsBack | src/main/java/io/codearcs/candlestack/GlobalCandlestackProperties.java:95-123 | a long stored as its decimal text reads back as itself whatever the default |
| GlobalCandlestackProperties.IntPropertyOutOfRange | src/main/java/io/codearcs/candlestack/GlobalCandlestackProperties.java:64-72 | a value one past the int range is not accepted: the default is used, or the lookup fails without one |
| GlobalCandlestackProperties.IntPropertyNotTrimmed | src/main/java/io/codearcs/candlestack/GlobalCandlestackProperties.java:64-72 | the value is parsed untrimmed, so any value with a leading or trailing blank (" 5", "5 ") falls back to the default or fails |
| GlobalCandlestackProperties.GetBooleanProperty | src/main/java/io/codearcs/candlestack/GlobalCandlestackProperties.java:140-151 | fails when not initialised; a recognised boolean word wins over the default; a missing or unrecognised value gives the default, or fails without one |
| GlobalCandlestackProperties.BooleanWords | src/main/java/io/codearcs/candlestack/GlobalCandlestackProperties.java:126-143 | "Yes" and "ON" read as true and "No" and "OFF" as false in any letter case, and "1" is not a boolean word |
| GlobalCandlestackProperties.GetStringProperty | src/main/java/io/codearcs/candlestack/GlobalCandlestackProperties.java:169-180 | fails when not initialised; a present value is returned untrimmed over any default; a missing key gives the default, or fails without one |
| GlobalCandlestackProperties.GetRequiredStringProperty | src/main/java/io/codearcs/candlestack/GlobalCandlestackProperties.java:192-198 | succeeds exactly when the key is present with a non-blank value, and then returns that value trimmed, which is non-empty and its own trim |
| GlobalCandlestackProperties.GetSetProperty | src/main/java/io/codearcs/candlestack/GlobalCandlestackProperties.java:208-222 | succeeds exactly when the key is present and its trimmed value is non-blank or empty values are allowed; a missing key fails; a blank value gives the empty set when empty is allowed and fails otherwise; any other value gives exactly the ','-pieces of the trimmed value |
| GlobalCandlestackProperties.SetPropertyMissingFails | src/main/java/io/codearcs/candlestack/GlobalCandlestackProperties.java:213-214 | a missing key fails whether or not empty values are allowed |
| GlobalCandlestackProperties.CommaOnlyIsEmpty | src/main/java/io/codearcs/candlestack/GlobalCandlestackProperties.java:214-220 | the value "," is not blank but splits into nothing, so it yields the empty set even when empty values are not allowed |
| GlobalAWSProperties.GetRegion | src/main/java/io/codearcs/candlestack/aws/GlobalAWSProperties.java:34-36 | succeeds exactly when "aws.region" is present and not blank, and then gives its trimmed value |
| GlobalAWSProperties.GetLogsHost | src/main/java/io/codearcs/candlestack/aws/GlobalAWSProperties.java:39-41 | succeeds exactly when "aws.logs.host" is present and not blank, and then gives its trimmed, non-empty value |
| GlobalAWSProperties.GetLogsAuthToken | src/main/java/io/codearcs/candlestack/aws/GlobalAWSProperties.java:44-46 | succeeds exactly when "aws.logs.authtoken" is present and not blank, and then gives its trimmed, non-empty value |
| GlobalAWSProperties.Flag | src/main/java/io/codearcs/candlestack/aws/GlobalAWSProperties.java:57-59 | a boolean setting with a default never fails once initialised; a missing key gives the default and a recognised word wins |
| GlobalAWSProperties.TrimmedSetting | src/main/java/io/codearcs/candlestack/aws/GlobalAWSProperties.java:84-86 | a prefix or regex setting never fails once initialised; it is "" when missing and the trimmed value otherwise, which is its own trim |
| GlobalAWSProperties.SleepMinutes | src/main/java/io/codearcs/candlestack/aws/GlobalAWSProperties.java:94-96 | a fetcher sleep never fails once initialised; it is 5 when missing or not an int, and the int otherwise |
| GlobalAWSProperties.IsCloudWatchDetailedMonitoringEnabled | src/main/java/io/codearcs/candlestack/aws/GlobalAWSProperties.java:57-59 | never fails once initialised, and is off when not set |
| GlobalAWSProperties.IsEBEnabled | src/main/java/io/codearcs/candlestack/aws/GlobalAWSProperties.java:79-81 | never fails once initialised, and is off when not set |
| GlobalAWSProperties.IsSQSEnabled | src/main/java/io/codearcs/candlestack/aws/GlobalAWSProperties.java:204-206 | never fails once initialised, and is off when not set |
| GlobalAWSProperties.IsSQSMonitorDeadLetterEnabled | src/main/java/io/codearcs/candlestack/aws/GlobalAWSProperties.java:219-221 | never fails once initialised, and is on when not set |
| GlobalAWSProperties.IsRDSEnabled | src/main/java/io/codearcs/candlestack/aws/GlobalAWSProperties.java:292-294 | never fails once initialised, and is off when not set |
| GlobalAWSProperties.GetEBEnvironmentNamePrefix | src/main/java/io/codearcs/candlestack/aws/GlobalAWSProperties.java:84-86 | never fails once initialised; "" when not set; always its own trim |
| GlobalAWSProperties.GetEBEnvironmentNameRegex | src/main/java/io/codearcs/candlestack/aws/GlobalAWSProperties.java:89-91 | never fails once initialised; "" when not set; always its own trim |
| GlobalAWSProperties.GetSQSQueueNamePrefix | src/main/java/io/codearcs/candlestack/aws/GlobalAWSProperties.java:209-211 | never fails once initialised; "" when not set; always its own trim |
| GlobalAWSProperties.GetSQSQueueNameRegex | src/main/java/io/codearcs/candlestack/aws/GlobalAWSProperties.java:214-216 | never fails once initialised; "" when not set; always its own trim |
| GlobalAWSProperties.GetRDSDBInstancePrefix | src/main/java/io/codearcs/candlestack/aws/GlobalAWSProperties.java:297-299 | never fails once initialised; "" when not set; always its own trim |
| GlobalAWSProperties.GetRDSDBInstanceRegex | src/main/java/io/codearcs/candlestack/aws/GlobalAWSProperties.java:302-304 | never fails once initialised; "" when not set; always its own trim |
| GlobalAWSProperties.GetEBMetricsFetcherSleep | src/main/java/io/codearcs/candlestack/aws/GlobalAWSProperties.java:94-96 | never fails once initialised, and is 5 minutes when not set |
| GlobalAWSProperties.GetSQSMetricsFetcherSleep | src/main/java/io/codearcs/candlestack/aws/GlobalAWSProperties.java:224-226 | never fails once initialised, and is 5 minutes when not set |
| GlobalAWSProperties.GetRDSMetricsFetcherSleep | src/main/java/io/codearcs/candlestack/aws/GlobalAWSProperties.java:307-309 | never fails once initialised, and is 5 minutes when not set |
| GlobalAWSProperties.DetermineAlertValue | src/main/java/io/codearcs/candlestack/aws/GlobalAWSProperties.java:341-347 | fails when not initialised; a per-resource value that parses as a non-negative long wins; otherwise the result is exactly the lookup of the shared default key with no default |
| GlobalAWSProperties.OverrideWins | src/main/java/io/codearcs/candlestack/aws/GlobalAWSProperties.java:341-347 | a non-negative threshold stored under the resource's own key is returned as it is |
| GlobalAWSProperties.MissingOverrideFallsBack | src/main/java/io/codearcs/candlestack/aws/GlobalAWSProperties.java:341-347 | without a per-resource key the default key decides, and the lookup fails when that is missing too |
| GlobalAWSProperties.NegativeOverrideFallsBack | src/main/java/io/codearcs/candlestack/aws/GlobalAWSProperties.java:341-347 | a negative per-resource value, -1 included, counts as unset and the default key's value is used |
| GlobalAWSProperties.EnumsOf | src/main/java/io/codearcs/candlestack/aws/GlobalAWSProperties.java:99-109 | gives a set exactly when every name is a constant, and then the set holds exactly the constants named |
| GlobalAWSProperties.EnumSetProperty | src/main/java/io/codearcs/candlestack/aws/GlobalAWSProperties.java:99-109 | succeeds exactly when the key is present and its trimmed value is blank or every ','-piece names a constant; a blank value gives the empty set, any other value exactly the constants its pieces name |
| GlobalAWSProperties.GetEnumSet | src/main/java/io/codearcs/candlestack/aws/GlobalAWSProperties.java:99-109 | the loop's result is the enum-set setting: a missing key fails, an empty value gives the empty set, an unknown name fails with the setting's key, and otherwise the constants named |
| GlobalNagiosProperties.GetNames | src/main/java/io/codearcs/candlestack/nagios/GlobalNagiosProperties.java:37-58 | the result lists each name once, and a name is in it exactly when some key starting with the prefix (and not with a non-empty exclude prefix) yields it: the text after the prefix up to the next '.' |
| GlobalNagiosProperties.NameHasNoDot | src/main/java/io/codearcs/candlestack/nagios/GlobalNagiosProperties.java:47-52 | with a non-empty prefix an extracted name never holds a '.' |
| GlobalNagiosProperties.NameOfKey | src/main/java/io/codearcs/candlestack/nagios/GlobalNagiosProperties.java:47-52 | a key made of the prefix, a name without '.', and nothing or a '.'-suffix is selected and yields exactly that name |
| GlobalNagiosProperties.DefaultPrefixedNamesDropped | src/main/java/io/codearcs/candlestack/nagios/GlobalNagiosProperties.java:67-68 | no key of a contact whose name starts with "default" passes contact discovery, because the exclude prefix "nagios.contact.default" has no trailing '.' |
| GlobalNagiosProperties.ParseOptions | src/main/java/io/codearcs/candlestack/nagios/GlobalNagiosProperties.java:182-196 | a blank value fails with the key; otherwise it succeeds exactly when every ','-piece, lower-cased, names an option, and then holds exactly those options, each once; an unknown piece fails with the lookup's own IllegalArgumentException |
| GlobalNagiosProperties.CollectOptions | src/main/java/io/codearcs/candlestack/nagios/GlobalNagiosProperties.java:188-194 | succeeds exactly when every piece names an option, and then the result is duplicate-free and holds exactly the options named |
| GlobalNagiosProperties.FoundStep | src/main/java/io/codearcs/candlestack/nagios/GlobalNagiosProperties.java:188-194 | one more known piece adds exactly its option to those found so far |
| GlobalNagiosProperties.GetContactHostNotificationOptions | src/main/java/io/codearcs/candlestack/nagios/GlobalNagiosProperties.java:179-197 | succeeds exactly when the contact's host-options key is present, not blank and every piece is a host option, and then gives exactly the options named |
| GlobalNagiosProperties.GetContactServiceNotificationOptions | src/main/java/io/codearcs/candlestack/nagios/GlobalNagiosProperties.java:200-217 | succeeds exactly when the contact's service-options key is present, not blank and every piece is a service option, and then gives exactly the options named |
| GlobalNagiosProperties.OptionPiecesLowerCased | src/main/java/io/codearcs/candlestack/nagios/GlobalNagiosProperties.java:189 | pieces are lower-cased before the lookup, so "D,u" is accepted |
| GlobalNagiosProperties.OptionPiecesNotTrimmed | src/main/java/io/codearcs/candlestack/nagios/GlobalNagiosProperties.java:188-189 | pieces are not trimmed, so "d, u" is rejected |
| GlobalNagiosProperties.PaddedPieceRejected | src/main/java/io/codearcs/candlestack/nagios/GlobalNagiosProperties.java:188-189 | any options text with a piece that starts with a blank is rejected, as host options and as service options |
| GlobalNagiosProperties.ReadEnabled | src/main/java/io/codearcs/candlestack/nagios/GlobalNagiosProperties.java:83-90 | succeeds exactly when the key holds a boolean word ("true", "on", "yes", "y", "t" or their false counterparts, any case), and then gives the word's meaning |
| GlobalNagiosProperties.ReadPeriod | src/main/java/io/codearcs/candlestack/nagios/GlobalNagiosProperties.java:113-120 | succeeds exactly when the key is present and not blank, and then gives its trimmed value |
| GlobalNagiosProperties.ReadCommands | src/main/java/io/codearcs/candlestack/nagios/GlobalNagiosProperties.java:103-110 | succeeds exactly when the key is present and not blank, and then gives a set holding exactly the ','-pieces of its trimmed value |
| GlobalNagiosProperties.ReadHostOptions | src/main/java/io/codearcs/candlestack/nagios/GlobalNagiosProperties.java:93-95 | succeeds exactly when the key's trimmed value is not blank and each lower-cased ','-piece names a host option, and then gives exactly those options |
| GlobalNagiosProperties.ReadServiceOptions | src/main/java/io/codearcs/candlestack/nagios/GlobalNagiosProperties.java:98-100 | succeeds exactly when the key's trimmed value is not blank and each lower-cased ','-piece names a service option, and then gives exactly those options |
| GlobalNagiosProperties.ContactDefaults | src/main/java/io/codearcs/candlestack/nagios/GlobalNagiosProperties.java:83-120 | succeeds exactly when all eight "nagios.contact.default.*" settings read, and then each default is what its key says |
| GlobalNagiosProperties.GetContactByName | src/main/java/io/codearcs/candlestack/nagios/GlobalNagiosProperties.java:138-176 | succeeds exactly when the properties are installed, the contact's email key is present, every default setting reads and every setting the contact overrides reads; a contact read has the name, the untrimmed alias ("" when missing), the untrimmed email, and each setting from the contact's own key when present and from the default contact's key otherwise |
| GlobalNagiosProperties.OverrideHostNotificationsEnabled | src/main/java/io/codearcs/candlestack/nagios/GlobalNagiosProperties.java:142-144 | succeeds exactly when the contact has no own key for the host flag or that key reads; without the key the builder is left as it was; only the host flag may change, and afterwards it is what the contact's key says when present, else the default |
| GlobalNagiosProperties.OverrideHostNotificationOptions | src/main/java/io/codearcs/candlestack/nagios/GlobalNagiosProperties.java:146-148 | succeeds exactly when the contact has no own key for the host options or that key reads; without the key the builder is left as it was; only the host options may change, and afterwards they are what the contact's key says when present, else the default |
| GlobalNagiosProperties.OverrideHostNotificationCommands | src/main/java/io/codearcs/candlestack/nagios/GlobalNagiosProperties.java:150-152 | succeeds exactly when the contact has no own key for the host commands or that key reads; without the key the builder is left as it was; only the host commands may change, and afterwards they are what the contact's key says when present, else the default |
| GlobalNagiosProperties.OverrideHostNotificationPeriod | src/main/java/io/codearcs/candlestack/nagios/GlobalNagiosProperties.java:154-156 | succeeds exactly when the contact has no own key for the host period or that key reads; without the key the builder is left as it was; only the host period may change, and afterwards it is what the contact's key says when present, else the default |
| GlobalNagiosProperties.OverrideServiceNotificationsEnabled | src/main/java/io/codearcs/candlestack/nagios/GlobalNagiosProperties.java:158-160 | succeeds exactly when the contact has no own key for the service flag or that key reads; without the key the builder is left as it was; only the service flag may change, and afterwards it is what the contact's key says when present, else the default |
| GlobalNagiosProperties.OverrideServiceNotificationOptions | src/main/java/io/codearcs/candlestack/nagios/GlobalNagiosProperties.java:162-164 | succeeds exactly when the contact has no own key for the service options or that key reads; without the key the builder is left as it was; only the service options may change, and afterwards they are what the contact's key says when present, else the default |
| GlobalNagiosProperties.OverrideServiceNotificationCommands | src/main/java/io/codearcs/candlestack/nagios/GlobalNagiosProperties.java:166-168 | succeeds exactly when the contact has no own key for the service commands or that key reads; without the key the builder is left as it was; only the service commands may change, and afterwards they are what the contact's key says when present, else the default |
| GlobalNagiosProperties.OverrideServiceNotificationPeriod | src/main/java/io/codearcs/candlestack/nagios/GlobalNagiosProperties.java:170-172 | succeeds exactly when the contact has no own key for the service period or that key reads; without the key the builder is left as it was; only the service period may change, and afterwards it is what the contact's key says when present, else the default |
| GlobalNagiosProperties.OverrideHostSettings | src/main/java/io/codearcs/candlestack/nagios/GlobalNagiosProperties.java:142-156 | the four host blocks in order succeed exactly when every host setting the contact has its own key for reads; only the four host settings may change, each afterwards what the contact's key says when present, else the default |
| GlobalNagiosProperties.OverrideServiceSettings | src/main/java/io/codearcs/candlestack/nagios/GlobalNagiosProperties.java:158-172 | the four service blocks in order succeed exactly when every service setting the contact has its own key for reads; only the four service settings may change, each afterwards what the contact's key says when present, else the default |
| GlobalNagiosProperties.ContactFieldsOfSettings | src/main/java/io/codearcs/candlestack/nagios/GlobalNagiosProperties.java:138-176 | a contact with that name, alias and email whose eight settings each come from their source key has exactly the fields the lookup promises |
| GlobalNagiosProperties.GetAllContacts | src/main/java/io/codearcs/candlestack/nagios/GlobalNagiosProperties.java:123-135 | fails with a null pointer before init; otherwise succeeds exactly when every discovered contact name reads; the contacts read are one per discovered name, each name once, and each contact has the fields its own lookup promises |
| GlobalNagiosProperties.ContactsNamed | src/main/java/io/codearcs/candlestack/nagios/GlobalNagiosProperties.java:130-132 | succeeds exactly when every given name's contact reads; the loop's contacts carry the given names in order, each with the fields its lookup promises |
| GlobalNagiosProperties.ReadNextContact | src/main/java/io/codearcs/candlestack/nagios/GlobalNagiosProperties.java:131 | succeeds exactly when the next name's contact reads; one more turn appends that contact and keeps those before it |
| GlobalNagiosProperties.ContactsAppend | src/main/java/io/codearcs/candlestack/nagios/GlobalNagiosProperties.java:131 | appending a contact that fits the next name keeps every earlier contact's fields |
| GlobalNagiosProperties.GetContactGroupByName | src/main/java/io/codearcs/candlestack/nagios/GlobalNagiosProperties.java:232-234 | succeeds exactly when the group's alias and members keys are present and not blank; the group has the name, the trimmed alias and exactly the ','-pieces of the trimmed members value |
| GlobalNagiosProperties.GetAllContactGroups | src/main/java/io/codearcs/candlestack/nagios/GlobalNagiosProperties.java:237-249 | fails with a null pointer before init; otherwise succeeds exactly when every discovered group has a non-blank alias and members value; one group per discovered name under "nagios.contactgroup.", each name once, each with the trimmed alias and the member set its lookup gives |
| GlobalNagiosProperties.GroupsNamed | src/main/java/io/codearcs/candlestack/nagios/GlobalNagiosProperties.java:244-246 | succeeds exactly when every given group has a non-blank alias and members value; the loop's groups carry the given names in order, each with the trimmed alias and the member set its lookup gives |
| GlobalNagiosProperties.ReadNextGroup | src/main/java/io/codearcs/candlestack/nagios/GlobalNagiosProperties.java:245 | succeeds exactly when the next group's alias and members are not blank; one more turn appends that group, with its trimmed alias and the members its properties give, and keeps those before it |
| GlobalNagiosProperties.GetCommandByName | src/main/java/io/codearcs/candlestack/nagios/GlobalNagiosProperties.java:272-274 | succeeds exactly when the command's key is present and not blank; the command keeps the name, and its line is the trimmed value with every newline replaced by the two characters `\n` (the pieces between newlines joined by `\n`), so it holds no newline and a value without newline is kept as it is |
| GlobalNagiosProperties.CommandReadsBack | src/main/java/io/codearcs/candlestack/nagios/GlobalNagiosProperties.java:272-274 | the definition of any command read (name without newline) parses back as that command's two fields |
| GlobalNagiosProperties.GetAllCommands | src/main/java/io/codearcs/candlestack/nagios/GlobalNagiosProperties.java:260-269 | fails with a null pointer before init; otherwise succeeds exactly when every discovered command's value is not blank; one command per discovered name under "nagios.command.", each name once, each equal to its own lookup |
| NagiosUpdater.ConfigureSucceeds | src/main/java/io/codearcs/candlestack/nagios/NagiosUpdater.java:61-83 | construction gets past its checks exactly when the properties are installed, the restart command is set, and the trimmed directory setting (default "/var/tmp/nagios/objects/") is non-blank and not an existing non-directory; the settings are then the raw restart command, the interval (default 10) and the trimmed directory |
| NagiosUpdater.MissingRestartCommand | src/main/java/io/codearcs/candlestack/nagios/NagiosUpdater.java:66 | a missing restart command fails with a properties error naming "nagios.updater.restart.cmd" |
| NagiosUpdater.InvalidDirectory | src/main/java/io/codearcs/candlestack/nagios/NagiosUpdater.java:72-82 | a blank directory setting and an existing non-directory both fail with a Nagios error |
| NagiosUpdater.GetPath | src/main/java/io/codearcs/candlestack/nagios/NagiosUpdater.java:195-201 | the result holds no '\' and ends with '/' |
| NagiosUpdater.GetPathKeeps | src/main/java/io/codearcs/candlestack/nagios/NagiosUpdater.java:195-201 | each character is kept, '\' turned into '/', and at most one '/' is added at the end |
| NagiosUpdater.GetPathIdempotent | src/main/java/io/codearcs/candlestack/nagios/NagiosUpdater.java:195-201 | applying it twice gives the same path as once |
| NagiosUpdater.ResourceActions | src/main/java/io/codearcs/candlestack/nagios/NagiosUpdater.java:153-161 | one save per resource, in iteration order, each into the lookup's directory |
| NagiosUpdater.GroupActions | src/main/java/io/codearcs/candlestack/nagios/NagiosUpdater.java:170-172 | one "<group name>.cfg" write per current group, in list order |
| NagiosUpdater.PublishingFollowsPlan | src/main/java/io/codearcs/candlestack/nagios/NagiosUpdater.java:148-172 | publishing a changed lookup makes the planned requests (recreate its directory, save each resource, write commands.cfg, write each group file) in order up to the first that fails, and completes exactly when none fails |
| NagiosUpdater.PhasesRequests | src/main/java/io/codearcs/candlestack/nagios/NagiosUpdater.java:151-172 | the three phases run one after the other make the requests of the one combined sequence, up to its first failure |
| NagiosUpdater.PhasesComplete | src/main/java/io/codearcs/candlestack/nagios/NagiosUpdater.java:151-172 | the three phases complete exactly when none of their requests fails |
| NagiosUpdater.AttemptedSucceeded | src/main/java/io/codearcs/candlestack/nagios/NagiosUpdater.java:151-172 | the requests made succeed exactly when the whole sequence would |
| NagiosUpdater.AttemptedPrefix | src/main/java/io/codearcs/candlestack/nagios/NagiosUpdater.java:151-172 | the requests made are a prefix of those planned |
| NagiosUpdater.Updater.constructor | src/main/java/io/codearcs/candlestack/nagios/NagiosUpdater.java:61-64 | a new updater has no published snapshots and has requested nothing |
| NagiosUpdater.Updater.Request | src/main/java/io/codearcs/candlestack/nagios/NagiosUpdater.java:155-171 | one request is logged, and succeeds exactly when it does not fail |
| NagiosUpdater.Updater.RequestAll | src/main/java/io/codearcs/candlestack/nagios/NagiosUpdater.java:153-172 | the requests are logged in order up to the first that fails; the result is whether none failed, and then all were made |
| NagiosUpdater.Updater.Publish | src/main/java/io/codearcs/candlestack/nagios/NagiosUpdater.java:148-172 | the requests logged are exactly those of the publishing branch, the snapshots are untouched, and the result says whether it completed |
| NagiosUpdater.Updater.RequestPhases | src/main/java/io/codearcs/candlestack/nagios/NagiosUpdater.java:151-172 | resources, then commands, then groups, logged as the phase model says, stopping at the first failure |
| NagiosUpdater.Updater.CheckLookup | src/main/java/io/codearcs/candlestack/nagios/NagiosUpdater.java:139-180 | one loop turn: an exception from the lookup, or the NullPointerException of comparing the snapshot with the fresh groups, aborts the tick; groups found equivalent change nothing; otherwise the lookup is published and its snapshot replaced only when publishing completed |
| NagiosUpdater.Updater.PerformChecksAndUpdates | src/main/java/io/codearcs/candlestack/nagios/NagiosUpdater.java:100-192 | after the tick the snapshots are those of the loop over the lookups, and the log has exactly the tick's requests: the publishing in lookup order, then the restart when due; an exception, including the comparison's NullPointerException that reaches the catch-all of `run()`, ends the tick without a restart |
| NagiosUpdater.FirstEmptyAnswerIsNoChange | src/main/java/io/codearcs/candlestack/nagios/NagiosUpdater.java:139-142 | a lookup never published that answers no groups is not a change |
| NagiosUpdater.EquivalentAnswerIsNoChange | src/main/java/io/codearcs/candlestack/nagios/NagiosUpdater.java:142-180 | groups equivalent to the snapshot make no request and keep the snapshot; the tick aborts there exactly when the comparison as written throws, which it never does when every host of the snapshot has an address |
| NagiosUpdater.ThrowingComparisonAborts | src/main/java/io/codearcs/candlestack/nagios/NagiosUpdater.java:139-142 | a comparison of the snapshot that throws ends the tick at that lookup, with no request and the snapshots kept |
| NagiosUpdater.ChangedAnswerIsPublished | src/main/java/io/codearcs/candlestack/nagios/NagiosUpdater.java:142-174 | groups the comparison finds not equivalent, without an exception, are a change whose first request recreates the lookup's directory; the snapshot is replaced unless the tick aborts; with no failure the requests are exactly the publishing plan |
| NagiosUpdater.EmptyAfterNonEmptyIsPublished | src/main/java/io/codearcs/candlestack/nagios/NagiosUpdater.java:139-148 | an empty answer after a published non-empty one is a change, and publishing starts |
| NagiosUpdater.VisitKeepsOrStores | src/main/java/io/codearcs/candlestack/nagios/NagiosUpdater.java:139-180 | a loop turn keeps the snapshots or stores the lookup's current groups as its snapshot |
| NagiosUpdater.SnapshotsComeFromAnswers | src/main/java/io/codearcs/candlestack/nagios/NagiosUpdater.java:137-182 | after a tick no snapshot is lost, and each is either the old one or the lookup's answer in this tick |
| NagiosUpdater.TickConverges | src/main/java/io/codearcs/candlestack/nagios/NagiosUpdater.java:137-182 | a tick that is not aborted leaves every lookup's snapshot equivalent to its answer |
| NagiosUpdater.VisitConverges | src/main/java/io/codearcs/candlestack/nagios/NagiosUpdater.java:139-180 | a loop turn that does not abort leaves its lookup's snapshot equivalent to its answer and every other snapshot as it was |
| NagiosUpdater.QuietTick | src/main/java/io/codearcs/candlestack/nagios/NagiosUpdater.java:137-182 | a tick whose answers are all equivalent to the snapshots requests nothing, changes no snapshot and flags no restart; it is aborted exactly when comparing some lookup's snapshot throws |
| NagiosUpdater.AddressedQuietTick | src/main/java/io/codearcs/candlestack/nagios/NagiosUpdater.java:137-182 | when every host of every snapshot has an address, a tick whose answers are all equivalent to the snapshots visits every lookup and leaves everything as it was |
| NagiosUpdater.RepeatedTickIsQuiet | src/main/java/io/codearcs/candlestack/nagios/NagiosUpdater.java:132-192 | running a completed tick again on the same answers requests nothing and keeps the snapshots, whatever fails the second time; the second tick is aborted exactly when comparing some snapshot throws |
| NagiosUpdater.AddresslessSnapshotStallsTick | src/main/java/io/codearcs/candlestack/nagios/NagiosUpdater.java:137-186 | a lookup whose snapshot is a group whose first host has no address, answering that group again, ends the tick there: the later lookups are not visited and Nagios is not restarted, on every tick while the answer stays |
| NagiosUpdater.AbortSkipsTheRest | src/main/java/io/codearcs/candlestack/nagios/NagiosUpdater.java:134-190 | an exception from a lookup ends the tick: later lookups are not visited, earlier snapshots stay, and Nagios is not restarted |
| NagiosUpdater.AbortedStays | src/main/java/io/codearcs/candlestack/nagios/NagiosUpdater.java:134-190 | once aborted, the remaining lookups change nothing |
| NagiosUpdater.PublishingShape | src/main/java/io/codearcs/candlestack/nagios/NagiosUpdater.java:148-172 | publishing starts by recreating a directory and never restarts Nagios |
| NagiosUpdater.VisitShape | src/main/java/io/codearcs/candlestack/nagios/NagiosUpdater.java:139-180 | a loop turn never restarts Nagios, and recreates a directory exactly when it found a change |
| NagiosUpdater.ChecksRestartFlag | src/main/java/io/codearcs/candlestack/nagios/NagiosUpdater.java:136-182 | the loop itself requests no restart, and flags one exactly when it recreated some lookup directory |
| NagiosUpdater.RestartAtMostOnce | src/main/java/io/codearcs/candlestack/nagios/NagiosUpdater.java:184-186 | a restart is requested at most once, as the tick's last request, exactly when the tick was not aborted and some lookup changed |
| MetricsReaderWriter.SanitizeString | src/main/java/io/codearcs/candlestack/MetricsReaderWriter.java:181-183 | same length; each '-' and each ' ' becomes '_' and every other character is kept |
| MetricsReaderWriter.SanitizeStringIdempotent | src/main/java/io/codearcs/candlestack/MetricsReaderWriter.java:181-183 | a sanitized name holds no '-' and no ' ', and sanitizing it again changes nothing |
| MetricsReaderWriter.SanitizeStringKeeps | src/main/java/io/codearcs/candlestack/MetricsReaderWriter.java:181-183 | a character other than '-', ' ' and '_' occurs in the sanitized name exactly when it occurs in the name |
| MetricsReaderWriter.FileName | src/main/java/io/codearcs/candlestack/MetricsReaderWriter.java:228-230 | the name starts with "candlestack_metrics_", ends with ".log" and holds the day text in between |
| MetricsReaderWriter.FileNameInjective | src/main/java/io/codearcs/candlestack/MetricsReaderWriter.java:228-230 | two days share a log file exactly when their day texts are equal |
| MetricsReaderWriter.RecordMatchesItsQuery | src/main/java/io/codearcs/candlestack/MetricsReaderWriter.java:166-178 | every record written matches a query for its own type, id and metric name |
| MetricsReaderWriter.MatchingIsBySubstring | src/main/java/io/codearcs/candlestack/MetricsReaderWriter.java:109 | matching is by containment: a query whose id occurs anywhere inside a record's id matches that record |
| MetricsReaderWriter.QueueOneMatchesQueueTen | src/main/java/io/codearcs/candlestack/MetricsReaderWriter.java:109 | a query for id "queue-1" also matches the records of "queue-10" |
| MetricsReaderWriter.TimestampKeyFound | src/main/java/io/codearcs/candlestack/MetricsReaderWriter.java:111 | "@timestamp" is first found where its piece starts when nothing before it holds an '@' |
| MetricsReaderWriter.TimestampColonFound | src/main/java/io/codearcs/candlestack/MetricsReaderWriter.java:111 | the first ':' after "@timestamp" is the one right after its closing quote |
| MetricsReaderWriter.TimestampValueFound | src/main/java/io/codearcs/candlestack/MetricsReaderWriter.java:112 | the timestamp text runs up to the first '"' after it |
| MetricsReaderWriter.RecordPiecesAroundTimestamp | src/main/java/io/codearcs/candlestack/MetricsReaderWriter.java:166-178 | a record's pieces around the timestamp have the shape the scan relies on when the id holds no '@' |
| MetricsReaderWriter.TimestampReadsBack | src/main/java/io/codearcs/candlestack/MetricsReaderWriter.java:111-112 | when the id holds no '@' and the timestamp no '"', the scan cuts exactly the timestamp a record was written with back out of it |
| MetricsReaderWriter.NewerBecomesNewest | src/main/java/io/codearcs/candlestack/MetricsReaderWriter.java:147-151 | a regular file strictly newer than every earlier one becomes the choice |
| MetricsReaderWriter.OlderKeepsNewest | src/main/java/io/codearcs/candlestack/MetricsReaderWriter.java:147-151 | an entry that is not a strictly newer regular file leaves the choice as it was |
| MetricsReaderWriter.NewestOfPrefix | src/main/java/io/codearcs/candlestack/MetricsReaderWriter.java:143-154 | after the first m entries, the choice is the first of the newest regular files among them, or none when no regular file is newer than Long.MIN_VALUE |
| MetricsReaderWriter.NewestIsFirstNewest | src/main/java/io/codearcs/candlestack/MetricsReaderWriter.java:132-158 | the choice is the first listed regular file with the greatest modification time; there is none exactly when no regular file is newer than Long.MIN_VALUE |
| MetricsReaderWriter.RecordDate | src/main/java/io/codearcs/candlestack/MetricsReaderWriter.java:109-113 | the line of a written record yields its timestamp's date to a query for its own names |
| MetricsReaderWriter.MostRecentInStopsAtFailure | src/main/java/io/codearcs/candlestack/MetricsReaderWriter.java:107-124 | once a line fails, the scan fails with that line's error whatever follows |
| MetricsReaderWriter.MostRecentInSucceeds | src/main/java/io/codearcs/candlestack/MetricsReaderWriter.java:107-124 | the scan succeeds exactly when every line does |
| MetricsReaderWriter.MostRecentInFailure | src/main/java/io/codearcs/candlestack/MetricsReaderWriter.java:107-124 | a failed scan fails with the error of the first failing line |
| MetricsReaderWriter.MostRecentInNothing | src/main/java/io/codearcs/candlestack/MetricsReaderWriter.java:98-127 | a successful scan finds no date exactly when no line matches |
| MetricsReaderWriter.MostRecentInIsUpperBound | src/main/java/io/codearcs/candlestack/MetricsReaderWriter.java:114-116 | the date found is no earlier than the date of any matching line |
| MetricsReaderWriter.MostRecentInIsAttained | src/main/java/io/codearcs/candlestack/MetricsReaderWriter.java:114-116 | the date found is the date of one of the lines |
| MetricsReaderWriter.AppendedDateIsBound | src/main/java/io/codearcs/candlestack/MetricsReaderWriter.java:114-116 | after a matching line with a date, a successful scan finds that date or a later one |
| MetricsReaderWriter.MostRecentInStep | src/main/java/io/codearcs/candlestack/MetricsReaderWriter.java:107-120 | the scan of i + 1 lines is the scan of i lines followed by one more line, keeping the strictly later date |
| MetricsReaderWriter.OpenForAppend | src/main/java/io/codearcs/candlestack/MetricsReaderWriter.java:208-213 | opening for append fails exactly when something other than a regular file is at the path; otherwise a regular file is there afterwards, created empty with the current time when missing, and no entry is lost |
| MetricsReaderWriter.AppendLineTouchesOnlyPath | src/main/java/io/codearcs/candlestack/MetricsReaderWriter.java:217-219 | appending changes only the file at the path, adding the line last and setting its time |
| MetricsReaderWriter.WriteFailure | src/main/java/io/codearcs/candlestack/MetricsReaderWriter.java:197-225 | a write fails exactly when the file of the day must be opened and a non-regular file is in its place; then nothing is written and no writer stays open |
| MetricsReaderWriter.WriteAppends | src/main/java/io/codearcs/candlestack/MetricsReaderWriter.java:197-225 | a successful write leaves a writer open on the file of the day, the line last in it, its time the current time, and every other entry unchanged |
| MetricsReaderWriter.WrittenRecordIsRecovered | src/main/java/io/codearcs/candlestack/MetricsReaderWriter.java:94-129 | right after a record is written, later than every other file, a successful recovery scan finds a date no earlier than the record's |
| MetricsReaderWriter.LogDirectory | src/main/java/io/codearcs/candlestack/MetricsReaderWriter.java:60-65 | the directory setting is usable exactly when "metrics.writer.dir" is present and not blank and does not name a non-directory; it is then the trimmed value |
| MetricsReaderWriter.ReaderWriter.constructor | src/main/java/io/codearcs/candlestack/MetricsReaderWriter.java:67-72 | the log starts with the file of the day open for appending |
| MetricsReaderWriter.ReaderWriter.LastFileModified | src/main/java/io/codearcs/candlestack/MetricsReaderWriter.java:132-158 | the loop's choice is the newest regular file as specified |
| MetricsReaderWriter.ReaderWriter.ReadMostRecentMetricDate | src/main/java/io/codearcs/candlestack/MetricsReaderWriter.java:94-129 | the loop's result is the scan of the newest file for the query, or nothing when there is no file |
| MetricsReaderWriter.ReaderWriter.WriteLine | src/main/java/io/codearcs/candlestack/MetricsReaderWriter.java:197-225 | the new state and result are those of the write model: the writer kept while its file is the file of the day, else the file of the day opened; the line appended |
| MetricsReaderWriter.ReaderWriter.WriteMetric | src/main/java/io/codearcs/candlestack/MetricsReaderWriter.java:161-163 | writes exactly the record text of the sanitized names, the timestamp and the value |
| MetricsReaderWriter.Open | src/main/java/io/codearcs/candlestack/MetricsReaderWriter.java:58-74 | a bad directory setting fails with its error; otherwise a missing directory is taken as empty, and the file of the day is opened, failing only when a non-regular file is in its place |
| AwsMetric.OrNull | src/main/java/io/codearcs/candlestack/aws/ec2/EC2CloudWatchMetric.java:49-54 | a setting whose read failed stays null and prints as "null"; a setting that was read prints as its value |
| AwsMetric.LogsHost | src/main/java/io/codearcs/candlestack/aws/ec2/EC2CloudWatchMetric.java:49-54 | the logs host a metric constant captures is the configured host, or "null" when the properties could not be read at class initialisation |
| AwsMetric.LogsAuthToken | src/main/java/io/codearcs/candlestack/aws/ec2/EC2CloudWatchMetric.java:49-54 | the logs token a metric constant captures is the configured token when both the host and the token read, and "null" when either read fails, because the token is read after the host in the same try block |
| AwsMetric.NumberTextIsPlain | src/main/java/io/codearcs/candlestack/aws/ec2/EC2CloudWatchMetric.java:92 | a threshold's decimal text is never empty and holds neither the '!' argument separator nor a space |
| AwsMetric.CheckCommandArguments | src/main/java/io/codearcs/candlestack/aws/ec2/EC2CloudWatchMetric.java:92 | splitting the check command on '!' gives back the command name, the id and the two thresholds, and each threshold within the range of a Java long parses back to itself |
| AwsMetric.MonitorCommandLineWords | src/main/java/io/codearcs/candlestack/aws/ec2/EC2CloudWatchMetric.java:105 | splitting the monitor command line on spaces gives the script's path, the logs host, the logs token and the three Nagios argument macros, in that order |
| AwsMetric.UninitialisedLogsPrintNull | src/main/java/io/codearcs/candlestack/aws/ec2/EC2CloudWatchMetric.java:49-54 | when the properties were not installed before the metric class was initialised, every monitor command line carries "null null" as host and token |
| AwsMetric.UnreadableHostHidesToken | src/main/java/io/codearcs/candlestack/aws/ec2/EC2CloudWatchMetric.java:49-54 | when the logs host cannot be read, the monitor command line carries "null null" as host and token, whatever token is configured |
| AwsMetric.MonitorCommandLinesDiffer | src/main/java/io/codearcs/candlestack/aws/ec2/EC2CloudWatchMetric.java:105 | two scripts that differ at some position give different monitor command lines, whatever the path, host and token |
| CloudWatchAccessor.MaxWindowIsWholeDays | src/main/java/io/codearcs/candlestack/aws/cloudwatch/CloudWatchAccessor.java:50-52 | the widest request window is MAX_DATA_POINTS periods: one day in milliseconds with detailed monitoring and five days without, and the 32-bit product does not overflow |
| CloudWatchAccessor.KeysCollide | src/main/java/io/codearcs/candlestack/aws/cloudwatch/CloudWatchAccessor.java:101-103 | the cursor key does not separate the metric name from the dimension value: for every metric, text x and resource d, the metric with x appended to its name on resource d and the metric itself on resource "x_d" share one key |
| CloudWatchAccessor.KeysOfOneResourceDiffer | src/main/java/io/codearcs/candlestack/aws/cloudwatch/CloudWatchAccessor.java:101-103 | for one resource, metrics with different names have different cursor keys |
| CloudWatchAccessor.CloudWatchRequest | src/main/java/io/codearcs/candlestack/aws/cloudwatch/CloudWatchAccessor.java:106-124 | the request ends now, uses the accessor's period, and names the metric's namespace, statistic, dimension and metric name |
| CloudWatchAccessor.WindowBounds | src/main/java/io/codearcs/candlestack/aws/cloudwatch/CloudWatchAccessor.java:109-113 | the start is never older than the widest window allows; it is the cursor exactly when a cursor exists and is at most that old; a cursor dated in the future is kept as it is |
| CloudWatchAccessor.MapCursorComesFirst | src/main/java/io/codearcs/candlestack/aws/cloudwatch/CloudWatchAccessor.java:75-78 | a cursor in the in-memory map wins, so the metrics log is not scanned; only when there is no cursor does the scan's result decide |
| CloudWatchAccessor.NextCursorIsNewest | src/main/java/io/codearcs/candlestack/aws/cloudwatch/CloudWatchAccessor.java:90-96 | after datapoints are written in chronological order, the stored cursor is the date of the newest one |
| CloudWatchAccessor.CursorNeverDecreases | src/main/java/io/codearcs/candlestack/aws/cloudwatch/CloudWatchAccessor.java:90-96 | when every datapoint returned lies inside the requested window, the cursor never moves back |
| CloudWatchAccessor.WriteAllStopsAtFailure | src/main/java/io/codearcs/candlestack/aws/cloudwatch/CloudWatchAccessor.java:90-93 | once one write has thrown, the later datapoints are not written and the log stays as the failure left it |
| CloudWatchAccessor.SortByTimestamp | src/main/java/io/codearcs/candlestack/aws/cloudwatch/CloudWatchAccessor.java:86-87 | sorting with the date comparator puts the datapoint array in chronological order and keeps the same datapoints (a permutation) |
| CloudWatchAccessor.Accessor.constructor | src/main/java/io/codearcs/candlestack/aws/cloudwatch/CloudWatchAccessor.java:44-58 | the period follows the detailed-monitoring setting, the widest window is computed from it, and the cursor map starts empty |
| CloudWatchAccessor.Accessor.LastDatapointDate | src/main/java/io/codearcs/candlestack/aws/cloudwatch/CloudWatchAccessor.java:75-78 | the cursor is the map's entry for the key, or the newest date in the metrics log when the map holds none |
| CloudWatchAccessor.Accessor.WriteDatapoints | src/main/java/io/codearcs/candlestack/aws/cloudwatch/CloudWatchAccessor.java:90-93 | the write loop's result and the new log are those of writing the datapoints one by one and stopping at the first failure |
| CloudWatchAccessor.Accessor.LookupAndSaveMetricData | src/main/java/io/codearcs/candlestack/aws/cloudwatch/CloudWatchAccessor.java:70-98 | a failed log scan or a failed request returns its exception and changes nothing; otherwise the fetched datapoints are put in chronological order (a permutation) and written one by one; when every write succeeds they are returned and the map holds the cursor they leave; when a write fails its exception is returned, the map is unchanged, and the log holds the records written before it |
| EC2CloudWatchMetric.Statistic | src/main/java/io/codearcs/candlestack/aws/ec2/EC2CloudWatchMetric.java:17-33 | CPU utilisation is the only metric averaged; both network metrics take the maximum |
| EC2CloudWatchMetric.ValueOf | src/main/java/io/codearcs/candlestack/aws/ec2/EC2CloudWatchMetric.java:15-33 | `valueOf` finds the constant whose name is exactly the text, and finds none for any other text |
| EC2CloudWatchMetric.PlainNames | src/main/java/io/codearcs/candlestack/aws/ec2/EC2CloudWatchMetric.java:17-33 | no command name holds '!' and no script name holds a space, so both survive Nagios' splitting |
| EC2CloudWatchMetric.CheckCommandFor | src/main/java/io/codearcs/candlestack/aws/ec2/EC2CloudWatchMetric.java:88-92 | fails exactly when a threshold lookup fails; otherwise Nagios reads back the suffixed command name, the sanitized instance id and the two thresholds |
| EC2CloudWatchMetric.GetServiceWithSuffix | src/main/java/io/codearcs/candlestack/aws/ec2/EC2CloudWatchMetric.java:88-95 | succeeds exactly when the check command can be built; the service runs it on the instance's host (the raw id), with the metric's service name, notes, the given notification period and the contact groups |
| EC2CloudWatchMetric.GetService | src/main/java/io/codearcs/candlestack/aws/ec2/EC2CloudWatchMetric.java:83-85 | a failing notification-period lookup is the error; otherwise it is the suffix-free service with that period |
| EC2CloudWatchMetric.GetMonitorCommandWithSuffix | src/main/java/io/codearcs/candlestack/aws/ec2/EC2CloudWatchMetric.java:104-106 | the command is named with the suffixed command name, and its line splits into the script's path, logs host as captured, logs token as captured ("null" when it or the host before it could not be read) and the three argument macros |
| EC2CloudWatchMetric.GetMonitorCommand | src/main/java/io/codearcs/candlestack/aws/ec2/EC2CloudWatchMetric.java:99-101 | the suffix-free command is the suffixed one with an empty suffix: the bare command name, and the same line with the logs host and token as captured |
| EC2CloudWatchMetric.ServiceRunsMonitorCommand | src/main/java/io/codearcs/candlestack/aws/ec2/EC2CloudWatchMetric.java:88-106 | with equal suffixes, the command a service names is the command `getMonitorCommand` defines |
| EC2CloudWatchMetric.SanitizedIdsShareCheckCommand | src/main/java/io/codearcs/candlestack/aws/ec2/EC2CloudWatchMetric.java:92 | two instance ids that sanitize alike and share thresholds get the same check command |
| EC2CloudWatchMetric.GetEC2CloudwatchMetrics | src/main/java/io/codearcs/candlestack/aws/GlobalAWSProperties.java:151-161 | succeeds exactly when the setting is present and is blank or names only constants; a blank setting gives the empty set, any other exactly the constants whose names are listed |
| EC2GraphiteMetric.ValueOf | src/main/java/io/codearcs/candlestack/aws/ec2/EC2GraphiteMetric.java:12-22 | `valueOf` finds the constant whose name is exactly the text, and finds none for any other text |
| EC2GraphiteMetric.CheckCommandFor | src/main/java/io/codearcs/candlestack/aws/ec2/EC2GraphiteMetric.java:63-66 | fails exactly when a threshold lookup fails; otherwise Nagios reads back the command name, the instance id as given and the two thresholds |
| EC2GraphiteMetric.GetService | src/main/java/io/codearcs/candlestack/aws/ec2/EC2GraphiteMetric.java:61-70 | succeeds exactly when the check command can be built; the service runs it on the instance's host with the metric's service name and notes |
| EC2GraphiteMetric.GetMonitorCommand | src/main/java/io/codearcs/candlestack/aws/ec2/EC2GraphiteMetric.java:74-76 | the command carries the metric's command name, and its line splits into the script's path, logs host as captured, logs token as captured ("null" when it or the host before it could not be read) and the three argument macros |
| EC2GraphiteMetric.DistinctIdsDistinctCheckCommands | src/main/java/io/codearcs/candlestack/aws/ec2/EC2GraphiteMetric.java:66 | different instance ids always give different check commands, because the id is not sanitized |
| EC2GraphiteMetric.GetEC2GraphiteMetrics | src/main/java/io/codearcs/candlestack/aws/GlobalAWSProperties.java:138-148 | succeeds exactly when the setting is present and is blank or names only constants; a blank setting gives the empty set, any other exactly the constants whose names are listed |
| EC2MetricbeatMetric.CheckCommandFor | src/main/java/io/codearcs/candlestack/aws/ec2/EC2MetricbeatMetric.java:70-76 | a failing warning lookup is the error, then a failing critical lookup; otherwise Nagios reads back the bare command name, the raw id, the warning, and the critical threshold with the suffix glued to it |
| EC2MetricbeatMetric.SuffixJoinsLastArgument | src/main/java/io/codearcs/candlestack/aws/ec2/EC2MetricbeatMetric.java:74-76 | appending the suffix to a check command only lengthens its last argument |
| EC2MetricbeatMetric.GetServiceWithSuffix | src/main/java/io/codearcs/candlestack/aws/ec2/EC2MetricbeatMetric.java:70-77 | succeeds exactly when both thresholds can be read; the service runs that check command on the instance's host with the metric's service name, notes, period and contact groups |
| EC2MetricbeatMetric.GetService | src/main/java/io/codearcs/candlestack/aws/ec2/EC2MetricbeatMetric.java:65-67 | a failing notification-period lookup is the error; otherwise it is the suffix-free service with that period |
| EC2MetricbeatMetric.GetMonitorCommandWithSuffix | src/main/java/io/codearcs/candlestack/aws/ec2/EC2MetricbeatMetric.java:86-88 | the command is named with the suffixed command name, and its line splits into the script's path, logs host as captured, logs token as captured ("null" when it or the host before it could not be read) and the three argument macros |
| EC2MetricbeatMetric.GetMonitorCommand | src/main/java/io/codearcs/candlestack/aws/ec2/EC2MetricbeatMetric.java:81-83 | the suffix-free command is the suffixed one with an empty suffix: the bare command name, and the same line with the logs host and token as captured |
| EC2MetricbeatMetric.SuffixLeavesServiceOnBareCommand | src/main/java/io/codearcs/candlestack/aws/ec2/EC2MetricbeatMetric.java:70-88 | with a non-empty suffix the service names the bare command while the command is defined under the suffixed name, and the suffix ends up inside the critical threshold |
| EC2MetricbeatMetric.NoSuffixRunsMonitorCommand | src/main/java/io/codearcs/candlestack/aws/ec2/EC2MetricbeatMetric.java:65-83 | without a suffix, the command the service names is the one `getMonitorCommand` defines |
| EBCloudWatchMetric.Statistic | src/main/java/io/codearcs/candlestack/aws/elasticbeanstalk/EBCloudWatchMetric.java:18-22 | environment health takes the maximum over the period |
| EBCloudWatchMetric.ValueOf | src/main/java/io/codearcs/candlestack/aws/elasticbeanstalk/EBCloudWatchMetric.java:16-22 | `valueOf` finds the constant whose name is exactly the text, and finds none for any other text |
| EBCloudWatchMetric.GetDimension | src/main/java/io/codearcs/candlestack/aws/elasticbeanstalk/EBCloudWatchMetric.java:98-100 | the dimension is keyed "EnvironmentName" and holds the value given |
| EBCloudWatchMetric.CheckCommandFor | src/main/java/io/codearcs/candlestack/aws/elasticbeanstalk/EBCloudWatchMetric.java:75-78 | fails exactly when a threshold lookup fails; otherwise Nagios reads back the command name, the sanitized environment name and the two thresholds |
| EBCloudWatchMetric.GetService | src/main/java/io/codearcs/candlestack/aws/elasticbeanstalk/EBCloudWatchMetric.java:73-81 | succeeds exactly when the check command can be built; the service runs it on the environment's host (the raw name) with the metric's service name and notes |
| EBCloudWatchMetric.GetMonitorCommand | src/main/java/io/codearcs/candlestack/aws/elasticbeanstalk/EBCloudWatchMetric.java:86-88 | the command carries the metric's command name, and its line splits into the script's path, logs host as captured, logs token as captured ("null" when it or the host before it could not be read) and the three argument macros |
| EBCloudWatchMetric.CheckCommandRunsMonitorCommand | src/main/java/io/codearcs/candlestack/aws/elasticbeanstalk/EBCloudWatchMetric.java:73-88 | the service's check command names the command `getMonitorCommand` defines, and passes the sanitized environment name as its first argument |
| EBCloudWatchMetric.GetEBCloudwatchMetrics | src/main/java/io/codearcs/candlestack/aws/GlobalAWSProperties.java:99-109 | succeeds exactly when the setting is present and is blank or names only constants; a blank setting gives the empty set, any other exactly the constants whose names are listed |
| EBGraphiteMetric.CheckCommandFor | src/main/java/io/codearcs/candlestack/aws/elasticbeanstalk/EBGraphiteMetric.java:54-57 | a failing warning lookup is the error, then a failing critical lookup; otherwise Nagios reads back the command name, the raw instance id and the two thresholds |
| EBGraphiteMetric.GetService | src/main/java/io/codearcs/candlestack/aws/elasticbeanstalk/EBGraphiteMetric.java:52-61 | succeeds exactly when both thresholds can be read; the service runs that check command on the instance's host with the metric's service name |
| EBGraphiteMetric.GetMonitorCommand | src/main/java/io/codearcs/candlestack/aws/elasticbeanstalk/EBGraphiteMetric.java:64-66 | the command carries the metric's command name, and its line splits into the resource script's path, logs host as captured, logs token as captured ("null" when it or the host before it could not be read) and the three argument macros |
| EBGraphiteMetric.CommandNameSharedWithEC2 | src/main/java/io/codearcs/candlestack/aws/elasticbeanstalk/EBGraphiteMetric.java:16-17 | each Elastic Beanstalk metric reuses the Nagios command name of the EC2 metric with the same name, while its command line runs a different script |
| LambdaCloudWatchMetric.Statistic | src/main/java/io/codearcs/candlestack/aws/lambda/LambdaCloudWatchMetric.java:21-38 | every Lambda metric takes the maximum over the period |
| LambdaCloudWatchMetric.ValueOf | src/main/java/io/codearcs/candlestack/aws/lambda/LambdaCloudWatchMetric.java:19-38 | `valueOf` finds the constant whose name is exactly the text, and finds none for any other text |
| LambdaCloudWatchMetric.CheckCommandFor | src/main/java/io/codearcs/candlestack/aws/lambda/LambdaCloudWatchMetric.java:83-85 | a failing warning lookup is the error, then a failing critical lookup; otherwise Nagios reads back the command name, the sanitized function name and the two thresholds |
| LambdaCloudWatchMetric.GetService | src/main/java/io/codearcs/candlestack/aws/lambda/LambdaCloudWatchMetric.java:81-90 | the threshold errors come first, then a failing notification-period lookup; otherwise the service runs the check command on the function's host (the raw name) with the metric's service name, notes and the function's period |
| LambdaCloudWatchMetric.GetMonitorCommand | src/main/java/io/codearcs/candlestack/aws/lambda/LambdaCloudWatchMetric.java:93-95 | the command carries the metric's command name, and its line splits into the script's path, logs host as captured, logs token as captured ("null" when it or the host before it could not be read) and the three argument macros |
| LambdaCloudWatchMetric.MetricsDistinct | src/main/java/io/codearcs/candlestack/aws/lambda/LambdaCloudWatchMetric.java:21-38 | different metrics have different command names, script names, service names and constant names |
| RDSCloudWatchMetric.Statistic | src/main/java/io/codearcs/candlestack/aws/rds/RDSCloudWatchMetric.java:20-22 | CPU utilisation is averaged, connections take the maximum and free storage the minimum, each exactly for its metric |
| RDSCloudWatchMetric.ValueOf | src/main/java/io/codearcs/candlestack/aws/rds/RDSCloudWatchMetric.java:18-22 | `valueOf` finds the constant whose name is exactly the text, and finds none for any other text |
| RDSCloudWatchMetric.GetDimension | src/main/java/io/codearcs/candlestack/aws/rds/RDSCloudWatchMetric.java:103-105 | the dimension is keyed "DBInstanceIdentifier" and holds the value given |
| RDSCloudWatchMetric.CheckCommandFor | src/main/java/io/codearcs/candlestack/aws/rds/RDSCloudWatchMetric.java:74-77 | fails exactly when a threshold lookup fails; otherwise Nagios reads back the command name, the sanitized instance identifier and the two thresholds |
| RDSCloudWatchMetric.GetService | src/main/java/io/codearcs/candlestack/aws/rds/RDSCloudWatchMetric.java:72-80 | succeeds exactly when the check command can be built; the service runs it on the database instance's host (the raw identifier) with the metric's service name |
| RDSCloudWatchMetric.GetMonitorCommand | src/main/java/io/codearcs/candlestack/aws/rds/RDSCloudWatchMetric.java:85-87 | the command carries the metric's command name, and its line splits into the script's path, logs host as captured, logs token as captured ("null" when it or the host before it could not be read) and the three argument macros |
| RDSCloudWatchMetric.CheckCommandMatchesDimension | src/main/java/io/codearcs/candlestack/aws/rds/RDSCloudWatchMetric.java:77 | the identifier the check command passes its script is the sanitized dimension value, and a log query made from it finds every record written for that dimension |
| RDSCloudWatchMetric.GetRDSCloudwatchMetrics | src/main/java/io/codearcs/candlestack/aws/GlobalAWSProperties.java:312-322 | succeeds exactly when the setting is present and is blank or names only constants; a blank setting gives the empty set, any other exactly the constants whose names are listed |
| S3MetadataMetric.CheckCommandFor | src/main/java/io/codearcs/candlestack/aws/s3/S3MetadataMetric.java:59-62 | a failing warning lookup is the error, then a failing critical lookup; otherwise Nagios reads back the command name, the raw location id and the two thresholds |
| S3MetadataMetric.GetService | src/main/java/io/codearcs/candlestack/aws/s3/S3MetadataMetric.java:57-65 | succeeds exactly when both thresholds can be read; the service runs that check command on the location's host with the metric's service name and notes |
| S3MetadataMetric.GetMonitorCommand | src/main/java/io/codearcs/candlestack/aws/s3/S3MetadataMetric.java:70-72 | the command carries the metric's command name, and its line splits into the script's path, logs host as captured, logs token as captured ("null" when it or the host before it could not be read) and the three argument macros |
| S3MetadataMetric.DistinctLocationsDistinctCheckCommands | src/main/java/io/codearcs/candlestack/aws/s3/S3MetadataMetric.java:62 | two different location ids give two different check commands |
| SQSCloudWatchMetric.Statistic | src/main/java/io/codearcs/candlestack/aws/sqs/SQSCloudWatchMetric.java:20 | the age of the oldest message takes the maximum over the period |
| SQSCloudWatchMetric.ValueOf | src/main/java/io/codearcs/candlestack/aws/sqs/SQSCloudWatchMetric.java:18-20 | `valueOf` finds the constant whose name is exactly the text, and finds none for any other text |
| SQSCloudWatchMetric.GetDimension | src/main/java/io/codearcs/candlestack/aws/sqs/SQSCloudWatchMetric.java:101-103 | the dimension is keyed "QueueName" and holds the value given |
| SQSCloudWatchMetric.CheckCommandFor | src/main/java/io/codearcs/candlestack/aws/sqs/SQSCloudWatchMetric.java:72-75 | fails exactly when a threshold lookup fails; otherwise Nagios reads back the command name, the sanitized queue name and the two thresholds |
| SQSCloudWatchMetric.GetService | src/main/java/io/codearcs/candlestack/aws/sqs/SQSCloudWatchMetric.java:70-78 | succeeds exactly when the check command can be built; the service runs it on the queue's host (the raw name) with the metric's service name |
| SQSCloudWatchMetric.GetMonitorCommand | src/main/java/io/codearcs/candlestack/aws/sqs/SQSCloudWatchMetric.java:83-85 | the command carries the metric's command name, and its line splits into the script's path, logs host as captured, logs token as captured ("null" when it or the host before it could not be read) and the three argument macros |
| SQSCloudWatchMetric.CheckCommandMatchesDimension | src/main/java/io/codearcs/candlestack/aws/sqs/SQSCloudWatchMetric.java:75 | the queue name the check command passes its script is the sanitized dimension value, and a log query made from it finds every record written for that dimension |
| SQSCloudWatchMetric.GetSQSCloudwatchMetrics | src/main/java/io/codearcs/candlestack/aws/GlobalAWSProperties.java:242-252 | succeeds exactly when the setting is present and is blank or names only constants; a blank setting gives the empty set, any other exactly the constants whose names are listed |
| SQSQueueAttribute.ValueOf | src/main/java/io/codearcs/candlestack/aws/sqs/SQSQueueAttribute.java:15-18 | `valueOf` finds the constant whose name is exactly the text, and finds none for any other text |
| SQSQueueAttribute.CheckCommandFor | src/main/java/io/codearcs/candlestack/aws/sqs/SQSQueueAttribute.java:59-62 | fails exactly when a threshold lookup fails; otherwise Nagios reads back the command name, the sanitized queue name and the two thresholds |
| SQSQueueAttribute.GetService | src/main/java/io/codearcs/candlestack/aws/sqs/SQSQueueAttribute.java:57-65 | succeeds exactly when the check command can be built; the service runs it on the queue's host (the raw name) with the attribute's service name |
| SQSQueueAttribute.GetMonitorCommand | src/main/java/io/codearcs/candlestack/aws/sqs/SQSQueueAttribute.java:70-72 | the command carries the attribute's command name, and its line splits into the script's path, logs host as captured, logs token as captured ("null" when it or the host before it could not be read) and the three argument macros |
| SQSQueueAttribute.AttributesHaveOwnThresholdKeys | src/main/java/io/codearcs/candlestack/aws/sqs/SQSQueueAttribute.java:59-60 | the two attributes read different threshold settings for the same queue, both the per-queue key and the default key |
| SQSQueueAttribute.GetSQSQueueAttributes | src/main/java/io/codearcs/candlestack/aws/GlobalAWSProperties.java:229-239 | succeeds exactly when the setting is present and is blank or names only constants; a blank setting gives the empty set, any other exactly the constants whose names are listed |
| RDSType.GetTypeFromEngine | src/main/java/io/codearcs/candlestack/aws/rds/RDSType.java:12-26 | the loop returns the first type whose name matches the trimmed engine with '-' read as '_', ignoring case, and UNSUPPORTED when none does or the engine is null |
| RDSType.TypeOfFolded | src/main/java/io/codearcs/candlestack/aws/rds/RDSType.java:12-26 | the type is AURORA, AURORA_MYSQL or MARIADB when the folded engine is that name in lower case, and UNSUPPORTED otherwise |
| RDSType.TypeNamesEngine | src/main/java/io/codearcs/candlestack/aws/rds/RDSType.java:15-21 | a supported type is returned exactly when its name equals the engine up to case, surrounding blanks and '-' for '_' |
| RDSType.FoldedEnginesAgree | src/main/java/io/codearcs/candlestack/aws/rds/RDSType.java:16-18 | engines that fold to the same name get the same type, so case and '-' versus '_' never matter |
| RDSType.AuroraMysqlEngine | src/main/java/io/codearcs/candlestack/aws/rds/RDSType.java:16-18 | the engine "aurora-mysql" is AURORA_MYSQL |
| RDSType.UnknownIsUnsupported | src/main/java/io/codearcs/candlestack/aws/rds/RDSType.java:13-25 | a null engine, and an engine that names no supported type, give UNSUPPORTED |
| S3HostMonitorLookup.GetName | src/main/java/io/codearcs/candlestack/aws/s3/S3HostMonitorLookup.java:40-43 | the lookup's name is the S3 type name "aws_s3" |
| S3HostMonitorLookup.LocationServicesShape | src/main/java/io/codearcs/candlestack/aws/s3/S3HostMonitorLookup.java:82-84 | a location's services are built exactly when every metric's service is, and then there is one per metric, in the metrics' order |
| S3HostMonitorLookup.LocationHostsShape | src/main/java/io/codearcs/candlestack/aws/s3/S3HostMonitorLookup.java:79-87 | the hosts come one per location, in configuration order, each carrying its location's services; they are built exactly when every location's services are |
| S3HostMonitorLookup.NoLocationsNoGroups | src/main/java/io/codearcs/candlestack/aws/s3/S3HostMonitorLookup.java:70-72 | with no configured locations the lookup returns no host group at all |
| S3HostMonitorLookup.OneGroupOfLocations | src/main/java/io/codearcs/candlestack/aws/s3/S3HostMonitorLookup.java:72-88 | with locations, the result is one group "aws_s3" aliased "AWS S3 Locations", with one host per location named by its id, aliased by its name, addressed s3://bucket/key, holding one service per metric in order |
| S3HostMonitorLookup.LookupFailsOnMissingThreshold | src/main/java/io/codearcs/candlestack/aws/s3/S3HostMonitorLookup.java:79-87 | with the metadata metrics' own services, the lookup fails exactly when some location lacks a warning or critical threshold for some metric |
| S3HostMonitorLookup.NewLocationHost | src/main/java/io/codearcs/candlestack/aws/s3/S3HostMonitorLookup.java:81-84 | the new host is built exactly when all of its services are, and then holds them; otherwise the error is the first service's error |
| S3HostMonitorLookup.AddLocationHosts | src/main/java/io/codearcs/candlestack/aws/s3/S3HostMonitorLookup.java:79-87 | the loop succeeds exactly when every location's host can be built, and the group then holds those hosts in order; otherwise the error is the first failure |
| S3HostMonitorLookup.LookupHostsToMonitor | src/main/java/io/codearcs/candlestack/aws/s3/S3HostMonitorLookup.java:67-92 | the returned groups are exactly the specified ones, and the lookup fails exactly when they cannot be built, with the same error |
| S3HostMonitorLookup.GetMonitorCommands | src/main/java/io/codearcs/candlestack/aws/s3/S3HostMonitorLookup.java:57-63 | one command per metadata metric, in the metrics' order, each being that metric's monitor command |
| SQSUtil.GetQueueNameFromURL | src/main/java/io/codearcs/candlestack/aws/sqs/SQSUtil.java:9-11 | the name is the URL's tail after its last '/', holds no '/', and is the whole URL when there is no '/' |
| SQSUtil.QueueNameOfURL | src/main/java/io/codearcs/candlestack/aws/sqs/SQSUtil.java:9-11 | the name is recovered from any URL that is a base, a '/' and a name without '/' |
| SQSUtil.DeadLetterIgnoresFilters | src/main/java/io/codearcs/candlestack/aws/sqs/SQSUtil.java:14-24 | the queue "dead-letter" is eligible exactly when dead-letter monitoring is on, whatever the prefix and regex |
| SQSUtil.OtherQueuesFiltered | src/main/java/io/codearcs/candlestack/aws/sqs/SQSUtil.java:14-24 | any other queue is eligible exactly when an empty prefix or its name's start passes the prefix filter, and an empty regex or a match passes the regex filter |
| SQSUtil.NoFiltersEveryQueue | src/main/java/io/codearcs/candlestack/aws/sqs/SQSUtil.java:14-24 | with no prefix and no regex, every queue except a disabled dead-letter queue is eligible |
| RDSUtil.EligibleIffPrefixed | src/main/java/io/codearcs/candlestack/aws/rds/RDSUtil.java:9-14 | an empty prefix admits every instance; otherwise an instance is eligible exactly when its identifier starts with the prefix |
| RDSUtil.PrefixItselfEligible | src/main/java/io/codearcs/candlestack/aws/rds/RDSUtil.java:9-14 | an identifier equal to the prefix is eligible |
| RDSUtil.LongerPrefixNarrows | src/main/java/io/codearcs/candlestack/aws/rds/RDSUtil.java:9-14 | an instance eligible under a longer prefix is eligible under every start of it |
| EC2Util.TagValueIsFirst | src/main/java/io/codearcs/candlestack/aws/ec2/EC2Util.java:78-87 | the value is that of the first tag with the key, and "" when no tag has it |
| EC2Util.GetTagValue | src/main/java/io/codearcs/candlestack/aws/ec2/EC2Util.java:78-87 | the loop that stops at the first matching tag returns the first matching tag's value, or "" |
| EC2Util.EligibleIffRunningAndNamed | src/main/java/io/codearcs/candlestack/aws/ec2/EC2Util.java:24-41 | an instance is eligible exactly when it is running (state code 16), an empty prefix or its Name tag's start passes the prefix, and an empty regex or a match passes the regex |
| EC2Util.LookupEligibleInstances | src/main/java/io/codearcs/candlestack/aws/ec2/EC2Util.java:53-73 | the result is the instances of all reservations, in order, kept exactly when they have no Elastic Beanstalk environment name and are eligible |
| EC2Util.KeepMonitored | src/main/java/io/codearcs/candlestack/aws/ec2/EC2Util.java:56-69 | the inner loop extends the kept list by the kept instances of one reservation, in order |
| EC2Util.LookupKeepsMonitored | src/main/java/io/codearcs/candlestack/aws/ec2/EC2Util.java:44-75 | an instance is returned exactly when it is in some reservation, has no Elastic Beanstalk environment name, is running, and passes both Name filters |
| EC2Util.HostServicesShape | src/main/java/io/codearcs/candlestack/aws/ec2/EC2Util.java:96-102 | the host's services are one per CloudWatch metric and then one per Graphite metric, in order, and are built exactly when every metric's service is |
| EC2Util.ServicesAreOnTheInstance | src/main/java/io/codearcs/candlestack/aws/ec2/EC2Util.java:96-102 | with the metrics' own service calls, every service of the host is on that instance and notifies the given contact groups |
| EC2Util.AddServices | src/main/java/io/codearcs/candlestack/aws/ec2/EC2Util.java:96-98 | the loop adds each service in order and nothing else changes; the first failing service ends it with that service's error |
| EC2Util.CreateHostFromInstance | src/main/java/io/codearcs/candlestack/aws/ec2/EC2Util.java:90-106 | fails exactly when some service cannot be built, with the first error; otherwise a new host named by the instance id, aliased by its Name tag, at its public address, holding the CloudWatch services and then the Graphite ones |
| EBUtil.EnvironmentEligibleIffReadyAndNamed | src/main/java/io/codearcs/candlestack/aws/elasticbeanstalk/EBUtil.java:23-40 | an environment is eligible exactly when its status is "Ready" in any letter case and its name passes the prefix filter of the name-only check |
| EBUtil.EmptyPrefixKeepsAll | src/main/java/io/codearcs/candlestack/aws/elasticbeanstalk/EBUtil.java:34-40 | an empty prefix keeps every environment name, and a name always passes as its own prefix |
| EBUtil.GroupIsFilter | src/main/java/io/codearcs/candlestack/aws/elasticbeanstalk/EBUtil.java:52-80 | each environment's list holds exactly its running instances whose environment passes the prefix, in the order they came, and an environment has an entry exactly when that list is not empty |
| EBUtil.GroupMembers | src/main/java/io/codearcs/candlestack/aws/elasticbeanstalk/EBUtil.java:52-80 | every environment in the map passes the prefix, and an instance is in an environment's list exactly when it was returned, is running and carries that eligible environment's name |
| EBUtil.LookupInstances | src/main/java/io/codearcs/candlestack/aws/elasticbeanstalk/EBUtil.java:43-82 | the loop over the reservations builds the grouping of all their instances, in order |
| EBUtil.GroupReservation | src/main/java/io/codearcs/candlestack/aws/elasticbeanstalk/EBUtil.java:55-76 | the inner loop extends the grouping by one reservation's instances |
| LambdaUtil.FunctionEligibleIff | src/main/java/io/codearcs/candlestack/aws/lambda/LambdaUtil.java:26-35 | an alias ARN is eligible exactly when the regex is empty or matches the whole ARN |
| LambdaUtil.ResourceOfArn | src/main/java/io/codearcs/candlestack/aws/lambda/LambdaUtil.java:79-82 | (corrected) the resource of an ARN is all the text after its first "function:", the function name with its alias qualifier |
| LambdaUtil.NoResource | src/main/java/io/codearcs/candlestack/aws/lambda/LambdaUtil.java:79-82 | an ARN without "function:", or with nothing after it, has no resource and fails as the array index does |
| LambdaUtil.AsWrittenResourceAgrees | src/main/java/io/codearcs/candlestack/aws/lambda/LambdaUtil.java:79-82 | the code as written agrees with the corrected resource on every ARN whose text after the first "function:" holds no second one |
| LambdaUtil.AsWrittenResourceStopsAtSecondSeparator | src/main/java/io/codearcs/candlestack/aws/lambda/LambdaUtil.java:79-82 | as written, an ARN with a second "function:" gives only the text between the two, where the whole qualified name is intended |
| LambdaUtil.SpecOfPlainArn | src/main/java/io/codearcs/candlestack/aws/lambda/LambdaUtil.java:59-62 | for an alias ARN without a second "function:", the spec exists exactly when the intended resource does, and carries it |
| LambdaUtil.SpecOfStopsAtSecondSeparator | src/main/java/io/codearcs/candlestack/aws/lambda/LambdaUtil.java:59-62 | the spec of an alias ARN whose function name contains "function:" carries only the text before that second separator as its resource |
| LambdaUtil.AsWrittenNameIsArn | src/main/java/io/codearcs/candlestack/aws/lambda/LambdaUtil.java:90-94 | as written, every ARN starting "arn:" gives the function name "arn" |
| LambdaUtil.NameOfArn | src/main/java/io/codearcs/candlestack/aws/lambda/LambdaUtil.java:90-94 | (corrected) the function name of an ARN is the text after "function:" up to the alias qualifier's ':' or the end |
| LambdaUtil.CollectFirstError | src/main/java/io/codearcs/candlestack/aws/lambda/LambdaUtil.java:57-65 | once one alias has made the loop throw, the whole lookup fails with that exception |
| LambdaUtil.CollectIsSpecsOfEligible | src/main/java/io/codearcs/candlestack/aws/lambda/LambdaUtil.java:57-65 | with the regex read, the lookup gives the specs of the eligible aliases in order, failing on the first eligible alias whose ARN splits into fewer than two pieces on "function:" |
| LambdaUtil.CollectNeedsRegex | src/main/java/io/codearcs/candlestack/aws/lambda/LambdaUtil.java:57-58 | when there is any alias, a regex setting that cannot be read fails the lookup |
| LambdaUtil.CollectMembers | src/main/java/io/codearcs/candlestack/aws/lambda/LambdaUtil.java:57-65 | a successful lookup holds a spec exactly for each eligible alias, made of the alias ARN, its function's name and the resource `getResourceFromArn` reads off the ARN as written (the second piece of the split) |
| LambdaUtil.LookupFunctions | src/main/java/io/codearcs/candlestack/aws/lambda/LambdaUtil.java:43-71 | the nested loop's result is the collection over the aliases of every function in turn, each spec's resource taken as the code is written, including its first exception |
| LambdaUtil.AliasesOfPrefix | src/main/java/io/codearcs/candlestack/aws/lambda/LambdaUtil.java:50-67 | the aliases of the first functions are a prefix of the aliases of all functions |
| LambdaUtil.CollectRestFails | src/main/java/io/codearcs/candlestack/aws/lambda/LambdaUtil.java:50-67 | a lookup that fails on the first functions fails on all of them with the same exception |
| LambdaUtil.CollectFunction | src/main/java/io/codearcs/candlestack/aws/lambda/LambdaUtil.java:57-65 | the inner loop extends the collection by one function's aliases |

## Left out

- Threads: the updater's and the CloudWatch accessor's run loops, `shutdown` and the sleeps between ticks are not modelled; one tick or one lookup is one call.
- AWS SDK calls (the EC2, Elastic Beanstalk, RDS, SQS, S3 and Lambda describe and list calls, and `getMetricStatistics`) are not modelled; their results are parameters of the lookups, and paging is taken as already done.
- The resource fetchers, the other host monitor lookups, the CloudWatch dimension classes and `CloudWatchStatistic` are not part of this model; a datapoint's value reaches the model already reduced to the integer that is written.
- Floating point: the `double` datapoint values and their `longValue` truncation are left out; values are integers.
- File and process I/O: writing the object files (`NagiosObjectWriter`), `createFreshDir`, restarting Nagios, fetching scripts and reading the metrics log files are modelled as an action log and as directory listings given as data; a listing that fails with an I/O error (`listFiles()` returning null) is not modelled.
- `getMonitorResources` / `getResourceStream` (reading resource files from the class path) are left out as I/O.
- Regular-expression matching (`String.matches`) and `FastDateFormat` are parameters (uninterpreted functions); the model proves what holds for any matcher and any formatter.
- Gson escaping: metric and component names are assumed to need no JSON escaping; the record text is built from the names as given.
- Java `HashSet`/`HashMap` iteration order is unspecified; sets of strings are duplicate-free sequences whose order is part of the input, and the metrics record's key order is fixed as written.
- Singletons (`getInstance`, `destroy`) are left out; the properties objects are values passed to the operations that read them.
- Data holders and interfaces without behaviour (`AWSMetric`, the host monitor lookup interface, the exceptions) appear only as datatypes.
- Collaborators whose source is not part of this model are parameters: the threshold lookups of `EBGraphiteMetric`, `S3MetadataMetric`, `LambdaCloudWatchMetric` and `EC2MetricbeatMetric` (as a `Result<int>`), the notification period lookups (as a `Result<string>`), and `getLambdaFunctionRegex`.
- Service: the four- and five-argument constructors the metric classes call are not in the source; they are taken to be the six-argument constructor, with the missing notes and notification period supplied as parameters.
- EC2MetricbeatMetric: its enum constants are garbled in the source, so only its methods are modelled, over a constant given as data.
- EBUtil.getTagValue is the same code as `EC2Util.getTagValue` and is modelled once, by `EC2Util.GetTagValue`.
- CloudWatchAccessor: the clock is read once per lookup, so the request's end time and the metrics file's date come from the same `now` (the source reads the clock separately for each); the sort by timestamp is proved sorted and a permutation but not stable; `long` overflow of dates is not modelled.
- Host, HostGroup: a group holds references to its hosts, but the lookups always build fresh hosts for each group, so a host shared between two groups does not arise and its effects are not modelled.
- Non-ASCII text: `Integer.parseInt`/`Long.parseLong` accept ASCII digits only, and `toLowerCase`/`equalsIgnoreCase` fold ASCII letters only; Java also accepts other Unicode digits and folds other letters, which `RDSType.GetTypeFromEngine`, the "Ready" status test of `EBUtil` and the lower-casing of notification options therefore do not capture.
- JavaString.Child: only the directory's trailing '/' is normalised; `java.io.File` also collapses doubled '/' inside a path, which the model keeps.

## Findings

| source | as written | input that shows it | evidently intended | confidence | as-written member | corrected member |
|---|---|---|---|---|---|---|
| src/main/java/io/codearcs/candlestack/nagios/object/hosts/Host.java:188-216 | `areEquivalent(host1, host2)` calls `equals` on the first host's address without a null check; the updater's comparison of a snapshot reaches it, and the NullPointerException ends the tick in the catch-all of `run()` | a lookup answering, on two ticks in a row, a group whose first host has no address: from the second tick on, every tick stops at that lookup, the later lookups are never compared or published and Nagios is never restarted | hosts without an address compare like any other field (null equals null), so the repeated answer is simply no change | not executed | NagiosUpdater.AddresslessSnapshotStallsTick | Host.Reflexive |
| src/main/java/io/codearcs/candlestack/aws/lambda/LambdaUtil.java:79-82 | `getResourceFromArn` takes the piece between the first and the second `function:`, and the Lambda lookup stores that piece as the spec's resource | `arn:aws:lambda:us-east-1:123456789012:function:my-function:prod` gives `my-` | `my-function:prod`, all the text after the first `function:` | not executed | LambdaUtil.SpecOfStopsAtSecondSeparator | LambdaUtil.ResourceOfArn |
| src/main/java/io/codearcs/candlestack/aws/lambda/LambdaUtil.java:90-94 | `getFunctionNameFromArn` returns the first `:`-piece of the ARN | `arn:aws:lambda:us-east-1:123456789012:function:my-function:prod` gives `arn` | `my-function`, the text after `function:` up to the next `:` | not executed | LambdaUtil.AsWrittenNameIsArn | LambdaUtil.NameOfArn |
