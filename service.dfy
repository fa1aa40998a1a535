/**
 * A Nagios service: its fields and defaults, its object definition, and the two
 * `areEquivalent` comparisons the updater uses to decide whether anything changed.
 */
module Service {
  import opened Wrappers
  import opened JavaString
  import opened ObjectFormat
  import NagiosUtil
  import LE = ListEquivalence
  import TimePeriod

  /**
   * A service never changes after construction (no setters), so it is a value. The contact
   * groups are a private copy of the caller's set.
   */
  datatype Service = Service(
    hostName: string, description: string, checkCommand: string, notes: string,
    contactGroups: StringSet,
    maxCheckAttempts: int, checkInterval: int, retryInterval: int, notificationInterval: int,
    checkPeriod: string, notificationPeriod: string,
    notificationsEnabled: bool)

  /** The constructor: the given strings and contact groups, and fixed defaults for the rest. */
  function New(description: string, hostName: string, checkCommand: string, notes: string,
               notificationPeriod: string, contactGroups: StringSet): (s: Service)
    ensures s.description == description && s.hostName == hostName
    ensures s.checkCommand == checkCommand && s.notes == notes
    ensures s.notificationPeriod == notificationPeriod && s.contactGroups == contactGroups
    ensures s.maxCheckAttempts == 3 && s.checkInterval == 5
    ensures s.retryInterval == 1 && s.notificationInterval == 0
    ensures s.notificationsEnabled
    ensures s.checkPeriod == TimePeriod.TwentyFourSevenName() == "24x7"
  {
    Service(hostName, description, checkCommand, notes, contactGroups,
            3, 5, 1, 0, TimePeriod.TwentyFourSevenName(), notificationPeriod, true)
  }

  // ---------------------------------------------------------------- object definition

  /** The twelve keys, in the order the definition writes them. */
  const Keys: seq<string> := [
    "host_name", "service_description", "notes", "check_command",
    "max_check_attempts", "check_interval", "retry_interval", "notification_interval",
    "notifications_enabled", "check_period", "notification_period", "contact_groups"]

  /** The values under those keys: numbers in decimal, the flag as 1/0, the contact groups joined with ','. */
  function Values(s: Service): seq<string> {
    [ s.hostName, s.description, s.notes, s.checkCommand,
      IntToString(s.maxCheckAttempts), IntToString(s.checkInterval),
      IntToString(s.retryInterval), IntToString(s.notificationInterval),
      Flag(s.notificationsEnabled), s.checkPeriod, s.notificationPeriod,
      Join(s.contactGroups, ",") ]
  }

  function Fields(s: Service): seq<Field> {
    Zip(Keys, Values(s))
  }

  function ServiceDefinition(s: Service): Definition {
    Definition("service", Fields(s))
  }

  /** `getObjectDefinitions()`: one `define service{ ... }` block. */
  function ObjectDefinitions(s: Service): (text: string)
    ensures StartsWith(text, "define service{\n") && EndsWith(text, "}\n\n")
  {
    RenderFrame(ServiceDefinition(s));
    Render(ServiceDefinition(s))
  }

  /** None of the service's own strings holds a newline. */
  predicate Printable(s: Service) {
    && '\n' !in s.hostName && '\n' !in s.description && '\n' !in s.notes
    && '\n' !in s.checkCommand && '\n' !in s.checkPeriod && '\n' !in s.notificationPeriod
    && forall i :: 0 <= i < |s.contactGroups| ==> '\n' !in s.contactGroups[i]
  }

  /** No key of the definition holds a tab. */
  lemma KeysHaveNoTab()
    ensures NoTab(Keys)
  {
  }

  lemma PlainDefinition(s: Service)
    requires Printable(s)
    ensures Plain(ServiceDefinition(s))
  {
    KeysHaveNoTab();
    assert NoNewline(Values(s)) by {
      NoNewlineInIntToString(s.maxCheckAttempts);
      NoNewlineInIntToString(s.checkInterval);
      NoNewlineInIntToString(s.retryInterval);
      NoNewlineInIntToString(s.notificationInterval);
      JoinExcludes(s.contactGroups, ",", '\n');
    }
    PlainZip("service", Keys, Values(s));
  }

  /**
   * Reading the text back gives one service definition whose twelve fields are, in order,
   * host_name, service_description, notes, check_command, the four numbers, the 1/0 flag, both
   * periods and the ','-joined contact groups.
   */
  lemma ReadBack(s: Service)
    requires Printable(s)
    ensures ParseAll(ObjectDefinitions(s)) == Some([ServiceDefinition(s)])
  {
    PlainDefinition(s);
    ReadBackOne(ServiceDefinition(s));
  }

  // ---------------------------------------------------------------- equivalence

  /**
   * `areEquivalent(service1, service2)`: host name, description, check command, both periods,
   * the three intervals, the attempt count and the contact groups. Notes and the
   * notifications-enabled flag are not compared.
   */
  predicate AreEquivalent(service1: Service, service2: Service) {
    if service1.hostName != service2.hostName then false
    else if service1.description != service2.description then false
    else if service1.checkCommand != service2.checkCommand then false
    else if service1.checkPeriod != service2.checkPeriod then false
    else if service1.notificationPeriod != service2.notificationPeriod then false
    else if service1.checkInterval != service2.checkInterval then false
    else if service1.retryInterval != service2.retryInterval then false
    else if service1.notificationInterval != service2.notificationInterval then false
    else if service1.maxCheckAttempts != service2.maxCheckAttempts then false
    else NagiosUtil.Equivalent(service1.contactGroups, service2.contactGroups)
  }

  /** The same service with its notes and notifications flag cleared. */
  function Compared(s: Service): Service {
    s.(notes := "", notificationsEnabled := false, contactGroups := [])
  }

  /**
   * Two services are equivalent exactly when they agree on every field except the notes, the
   * notifications flag and the order of the contact groups, and hold the same contact groups.
   */
  lemma EquivalentIff(service1: Service, service2: Service)
    ensures AreEquivalent(service1, service2) <==>
      Compared(service1) == Compared(service2)
      && NagiosUtil.Elements(service1.contactGroups) == NagiosUtil.Elements(service2.contactGroups)
  {
    NagiosUtil.EquivalentIffSameStrings(service1.contactGroups, service2.contactGroups);
  }

  /** Changing the notes or the notifications flag never changes the outcome. */
  lemma IgnoresNotesAndFlag(service1: Service, service2: Service, notes: string, enabled: bool)
    ensures AreEquivalent(service1.(notes := notes, notificationsEnabled := enabled), service2)
        == AreEquivalent(service1, service2)
  {
  }

  lemma Reflexive(s: Service)
    ensures AreEquivalent(s, s)
  {
    NagiosUtil.Reflexive(s.contactGroups);
  }

  lemma Symmetric(service1: Service, service2: Service)
    ensures AreEquivalent(service1, service2) == AreEquivalent(service2, service1)
  {
    NagiosUtil.Symmetric(service1.contactGroups, service2.contactGroups);
  }

  lemma Transitive(service1: Service, service2: Service, service3: Service)
    requires AreEquivalent(service1, service2) && AreEquivalent(service2, service3)
    ensures AreEquivalent(service1, service3)
  {
    NagiosUtil.Transitive(service1.contactGroups, service2.contactGroups, service3.contactGroups);
  }

  /** `areEquivalent(services1, services2)`: same size, and each of the first has a match in the second. */
  method AreEquivalentLists(services1: seq<Service>, services2: seq<Service>) returns (equivalent: bool)
    ensures equivalent == LE.ListsEquivalent(services1, services2, AreEquivalent)
    ensures |services1| != |services2| ==> !equivalent
  {
    equivalent := LE.AreEquivalent(services1, services2, AreEquivalent);
  }

  /** Reordering either list never changes the outcome. */
  lemma ListsIgnoreOrder(l1: seq<Service>, p1: seq<Service>, l2: seq<Service>, p2: seq<Service>)
    requires multiset(l1) == multiset(p1) && multiset(l2) == multiset(p2)
    ensures LE.ListsEquivalent(l1, l2, AreEquivalent) == LE.ListsEquivalent(p1, p2, AreEquivalent)
  {
    LE.PermutationInvariant(l1, p1, l2, p2, AreEquivalent);
  }

  /** Every list of services is equivalent to itself. */
  lemma ListsReflexive(l: seq<Service>)
    ensures LE.ListsEquivalent(l, l, AreEquivalent)
  {
    forall s ensures AreEquivalent(s, s) { Reflexive(s); }
    LE.Reflexive(l, AreEquivalent);
  }

  /**
   * Not multiset equality and not symmetric: for services on different hosts, [a, a] is
   * equivalent to [a, b] but [a, b] is not equivalent to [a, a].
   */
  lemma ListsOneDirectional(a: Service, b: Service)
    requires a.hostName != b.hostName
    ensures LE.ListsEquivalent([a, a], [a, b], AreEquivalent)
    ensures !LE.ListsEquivalent([a, b], [a, a], AreEquivalent)
  {
    Reflexive(a);
    LE.OneDirectional(a, b, AreEquivalent);
  }
}
