/**
 * A Nagios host: a class whose service list grows in place, the value snapshot (`HostNode`)
 * that equivalence and serialisation read, its object definition, and both `areEquivalent`
 * comparisons.
 */
module Host {
  import opened Wrappers
  import opened JavaString
  import opened ObjectFormat
  import NagiosUtil
  import LE = ListEquivalence
  import TimePeriod
  import Svc = Service

  /**
   * What a host holds at one moment. The address is `None` where the Java field is null (an
   * EC2 instance without a public IP address).
   */
  datatype HostNode = HostNode(
    name: string, alias: string, address: Option<string>, contactGroups: StringSet,
    maxCheckAttempts: int, notificationInterval: int, checkInterval: int,
    checkPeriod: string, notificationPeriod: string,
    services: seq<Svc.Service>)

  class Host {
    const name: string
    const alias: string
    const address: Option<string>
    const contactGroups: StringSet
    const maxCheckAttempts: int
    const notificationInterval: int
    const checkInterval: int
    const checkPeriod: string
    const notificationPeriod: string
    var services: seq<Svc.Service>

    /** The host as a value. */
    function Node(): HostNode
      reads this
    {
      HostNode(name, alias, address, contactGroups, maxCheckAttempts, notificationInterval,
               checkInterval, checkPeriod, notificationPeriod, services)
    }

    /** The constructor: no services, 5 attempts, intervals 10 and 5, "24x7" for both periods. */
    constructor(name: string, alias: string, address: Option<string>, contactGroups: StringSet)
      ensures Node() == HostNode(name, alias, address, contactGroups, 5, 10, 5,
                                 TimePeriod.TwentyFourSevenName(), TimePeriod.TwentyFourSevenName(), [])
    {
      this.name := name;
      this.alias := alias;
      this.address := address;
      this.contactGroups := contactGroups;
      maxCheckAttempts := 5;
      notificationInterval := 10;
      checkInterval := 5;
      checkPeriod := TimePeriod.TwentyFourSevenName();
      notificationPeriod := TimePeriod.TwentyFourSevenName();
      services := [];
    }

    /** `addService` appends at the end of the list and changes nothing else. */
    method AddService(service: Svc.Service)
      modifies this
      ensures services == old(services) + [service]
      ensures Node() == old(Node()).(services := old(services) + [service])
    {
      services := services + [service];
    }

    /** `getObjectDefinitions()`: the host block, then each service's block in list order. */
    method ObjectDefinitions() returns (text: string)
      ensures text == Definitions(Node())
    {
      var node := Node();
      text := Render(HostDefinition(node));
      assert text == RenderAll(AllDefinitions(node.(services := services[..0])));
      var i := 0;
      while i < |services|
        invariant 0 <= i <= |services|
        invariant text == RenderAll(AllDefinitions(node.(services := services[..i])))
      {
        AllDefinitionsSnoc(node, i);
        text := text + Svc.ObjectDefinitions(services[i]);
        i := i + 1;
      }
      assert node.(services := services[..i]) == node;
    }
  }

  // ---------------------------------------------------------------- object definition

  /** A null address is appended to the text as "null". */
  function AddressText(address: Option<string>): string {
    match address
    case None => "null"
    case Some(a) => a
  }

  const Keys: seq<string> := [
    "host_name", "alias", "address", "max_check_attempts", "check_interval", "check_period",
    "notification_interval", "notification_period", "contact_groups"]

  function Values(h: HostNode): seq<string> {
    [ h.name, h.alias, AddressText(h.address), IntToString(h.maxCheckAttempts),
      IntToString(h.checkInterval), h.checkPeriod, IntToString(h.notificationInterval),
      h.notificationPeriod, Join(h.contactGroups, ",") ]
  }

  function HostDefinition(h: HostNode): Definition {
    Definition("host", Zip(Keys, Values(h)))
  }

  function ServiceDefinitions(services: seq<Svc.Service>): seq<Definition> {
    seq(|services|, i requires 0 <= i < |services| => Svc.ServiceDefinition(services[i]))
  }

  /** The definitions a host stands for: its own, then one per service in list order. */
  function AllDefinitions(h: HostNode): seq<Definition> {
    [HostDefinition(h)] + ServiceDefinitions(h.services)
  }

  function Definitions(h: HostNode): string {
    RenderAll(AllDefinitions(h))
  }

  lemma AllDefinitionsSnoc(h: HostNode, i: int)
    requires 0 <= i < |h.services|
    ensures RenderAll(AllDefinitions(h.(services := h.services[..i + 1])))
         == RenderAll(AllDefinitions(h.(services := h.services[..i]))) + Svc.ObjectDefinitions(h.services[i])
  {
    var before := AllDefinitions(h.(services := h.services[..i]));
    var d := Svc.ServiceDefinition(h.services[i]);
    assert AllDefinitions(h.(services := h.services[..i + 1])) == before + [d];
    RenderAllAppend(before, [d]);
    assert RenderAll([d]) == Render(d) + RenderAll([]);
  }

  predicate Printable(h: HostNode) {
    && '\n' !in h.name && '\n' !in h.alias && '\n' !in AddressText(h.address)
    && '\n' !in h.checkPeriod && '\n' !in h.notificationPeriod
    && (forall i :: 0 <= i < |h.contactGroups| ==> '\n' !in h.contactGroups[i])
    && forall i :: 0 <= i < |h.services| ==> Svc.Printable(h.services[i])
  }

  /** No key of the definition holds a tab. */
  lemma KeysHaveNoTab()
    ensures NoTab(Keys)
  {
  }

  lemma PlainDefinitions(h: HostNode)
    requires Printable(h)
    ensures AllPlain(AllDefinitions(h))
  {
    KeysHaveNoTab();
    assert NoNewline(Values(h)) by {
      NoNewlineInIntToString(h.maxCheckAttempts);
      NoNewlineInIntToString(h.checkInterval);
      NoNewlineInIntToString(h.notificationInterval);
      JoinExcludes(h.contactGroups, ",", '\n');
    }
    PlainZip("host", Keys, Values(h));
    forall i | 0 <= i < |h.services| ensures Plain(Svc.ServiceDefinition(h.services[i])) {
      Svc.PlainDefinition(h.services[i]);
    }
  }

  /**
   * Reading the text back gives the host definition first, then one service definition per
   * service, in insertion order.
   */
  lemma ReadBack(h: HostNode)
    requires Printable(h)
    ensures ParseAll(Definitions(h)) == Some(AllDefinitions(h))
    ensures |AllDefinitions(h)| == |h.services| + 1
    ensures forall i :: 0 <= i < |h.services| ==>
      AllDefinitions(h)[i + 1] == Svc.ServiceDefinition(h.services[i])
  {
    PlainDefinitions(h);
    ParseAllOfRenderAll(AllDefinitions(h));
  }

  // ---------------------------------------------------------------- equivalence

  /**
   * Single-host equivalence with a null-safe address comparison: name, alias, address, both
   * periods, the attempt count, both intervals, the service lists and the contact groups.
   */
  predicate AreEquivalent(host1: HostNode, host2: HostNode) {
    if host1.name != host2.name then false
    else if host1.alias != host2.alias then false
    else if host1.address != host2.address then false
    else if host1.checkPeriod != host2.checkPeriod then false
    else if host1.notificationPeriod != host2.notificationPeriod then false
    else if host1.maxCheckAttempts != host2.maxCheckAttempts then false
    else if host1.notificationInterval != host2.notificationInterval then false
    else if host1.checkInterval != host2.checkInterval then false
    else if !LE.ListsEquivalent(host1.services, host2.services, Svc.AreEquivalent) then false
    else NagiosUtil.Equivalent(host1.contactGroups, host2.contactGroups)
  }

  /**
   * `areEquivalent(host1, host2)` as written: the address comparison calls `equals` on the
   * first host's address, which throws a NullPointerException when that address is null.
   */
  function AreEquivalentAsWritten(host1: HostNode, host2: HostNode): (r: Result<bool>)
    ensures r.Err? <==> host1.name == host2.name && host1.alias == host2.alias && host1.address.None?
  {
    if host1.name != host2.name then Ok(false)
    else if host1.alias != host2.alias then Ok(false)
    else if host1.address.None? then Err(NullPointer)
    else if host2.address.None? || host1.address.value != host2.address.value then Ok(false)
    else Ok(AreEquivalent(host1, host2))
  }

  /** Where the first address is present, the code as written and the null-safe comparison agree. */
  lemma AsWrittenAgrees(host1: HostNode, host2: HostNode)
    requires host1.address.Some?
    ensures AreEquivalentAsWritten(host1, host2) == Ok(AreEquivalent(host1, host2))
  {
  }

  /**
   * A host without an address is not even comparable with itself as written: the comparison
   * throws, while the null-safe comparison finds the two equivalent.
   */
  lemma NullAddressThrows(h: HostNode)
    requires h.address.None?
    ensures AreEquivalentAsWritten(h, h) == Err(NullPointer)
    ensures AreEquivalent(h, h)
  {
    Reflexive(h);
  }

  function Compared(h: HostNode): HostNode {
    h.(contactGroups := [], services := [])
  }

  /**
   * Two hosts are equivalent exactly when they agree on every scalar field, hold the same
   * contact groups, and each service of the first has an equivalent among the same number of
   * services of the second.
   */
  lemma EquivalentIff(host1: HostNode, host2: HostNode)
    ensures AreEquivalent(host1, host2) <==>
      && Compared(host1) == Compared(host2)
      && NagiosUtil.Elements(host1.contactGroups) == NagiosUtil.Elements(host2.contactGroups)
      && LE.ListsEquivalent(host1.services, host2.services, Svc.AreEquivalent)
  {
    NagiosUtil.EquivalentIffSameStrings(host1.contactGroups, host2.contactGroups);
  }

  lemma Reflexive(h: HostNode)
    ensures AreEquivalent(h, h)
  {
    Svc.ListsReflexive(h.services);
    NagiosUtil.Reflexive(h.contactGroups);
  }

  /** A host whose services are a reordering of another's, and which agrees on everything else, is equivalent to it. */
  lemma PermutedServices(h: HostNode, services: seq<Svc.Service>)
    requires multiset(services) == multiset(h.services)
    ensures AreEquivalent(h, h.(services := services))
    ensures AreEquivalent(h.(services := services), h)
  {
    Svc.ListsReflexive(h.services);
    Svc.ListsIgnoreOrder(h.services, h.services, h.services, services);
    Svc.ListsIgnoreOrder(h.services, services, h.services, h.services);
    NagiosUtil.Reflexive(h.contactGroups);
  }

  /**
   * The one-directional service comparison makes host equivalence one-directional too: with
   * services on different hosts, services [a, a] match [a, b] but not the other way round.
   */
  lemma NotSymmetric(h: HostNode, a: Svc.Service, b: Svc.Service)
    requires a.hostName != b.hostName
    ensures AreEquivalent(h.(services := [a, a]), h.(services := [a, b]))
    ensures !AreEquivalent(h.(services := [a, b]), h.(services := [a, a]))
  {
    Svc.ListsOneDirectional(a, b);
    NagiosUtil.Reflexive(h.contactGroups);
  }

  /** Every host of the list has an address. */
  predicate Addressed(hosts: seq<HostNode>) {
    forall i :: 0 <= i < |hosts| ==> hosts[i].address.Some?
  }

  /**
   * `areEquivalent(hosts1, hosts2)` as the code runs it: the nested search over the single-host
   * comparison as written, whose NullPointerException leaves both loops.
   */
  function ListsAsWritten(hosts1: seq<HostNode>, hosts2: seq<HostNode>): Result<bool> {
    LE.ListsEquivalentOrThrow(hosts1, hosts2, AreEquivalentAsWritten)
  }

  /**
   * When the list comparison returns, its verdict is the null-safe one: same size, and each
   * host of the first matched in the second. It always returns when every host of the first
   * list has an address.
   */
  lemma ListsAsWrittenAgree(hosts1: seq<HostNode>, hosts2: seq<HostNode>)
    ensures ListsAsWritten(hosts1, hosts2).Ok? ==>
      ListsAsWritten(hosts1, hosts2).value == LE.ListsEquivalent(hosts1, hosts2, AreEquivalent)
    ensures Addressed(hosts1) ==> ListsAsWritten(hosts1, hosts2) == Ok(LE.ListsEquivalent(hosts1, hosts2, AreEquivalent))
  {
    LE.OrThrowAgrees(hosts1, hosts2, AreEquivalentAsWritten, AreEquivalent);
    if Addressed(hosts1) {
      forall x, y | x in hosts1 ensures AreEquivalentAsWritten(x, y) == Ok(AreEquivalent(x, y)) {
        AsWrittenAgrees(x, y);
      }
      LE.OrThrowWithoutException(hosts1, hosts2, AreEquivalentAsWritten, AreEquivalent);
    }
  }

  /** A list holding a host without an address throws even when compared with itself. */
  lemma ListNullAddressThrows(h: HostNode, rest: seq<HostNode>)
    requires h.address.None?
    ensures ListsAsWritten([h] + rest, [h] + rest) == Err(NullPointer)
  {
    var l := [h] + rest;
    assert l[0] == h && l[1..] == rest;
    assert LE.FindOrThrow(h, l, AreEquivalentAsWritten) == Err(NullPointer);
  }

  /**
   * `areEquivalent(hosts1, hosts2)`: same size, and each host of the first has a match in the
   * second; the NullPointerException of the single-host comparison escapes it.
   */
  method AreEquivalentLists(hosts1: seq<HostNode>, hosts2: seq<HostNode>) returns (r: Result<bool>)
    ensures r == ListsAsWritten(hosts1, hosts2)
    ensures r.Ok? ==> r.value == LE.ListsEquivalent(hosts1, hosts2, AreEquivalent)
    ensures Addressed(hosts1) ==> r == Ok(LE.ListsEquivalent(hosts1, hosts2, AreEquivalent))
    ensures |hosts1| != |hosts2| ==> r == Ok(false)
  {
    r := LE.AreEquivalentOrThrow(hosts1, hosts2, AreEquivalentAsWritten);
    ListsAsWrittenAgree(hosts1, hosts2);
  }

  lemma ListsReflexive(l: seq<HostNode>)
    ensures LE.ListsEquivalent(l, l, AreEquivalent)
  {
    forall h ensures AreEquivalent(h, h) { Reflexive(h); }
    LE.Reflexive(l, AreEquivalent);
  }

  /** Reordering either host list never changes the outcome. */
  lemma ListsIgnoreOrder(l1: seq<HostNode>, p1: seq<HostNode>, l2: seq<HostNode>, p2: seq<HostNode>)
    requires multiset(l1) == multiset(p1) && multiset(l2) == multiset(p2)
    ensures LE.ListsEquivalent(l1, l2, AreEquivalent) == LE.ListsEquivalent(p1, p2, AreEquivalent)
  {
    LE.PermutationInvariant(l1, p1, l2, p2, AreEquivalent);
  }

  /** Host lists of different hosts are one-directional as well: [a, a] matches [a, b], not conversely. */
  lemma ListsOneDirectional(a: HostNode, b: HostNode)
    requires a.name != b.name
    ensures LE.ListsEquivalent([a, a], [a, b], AreEquivalent)
    ensures !LE.ListsEquivalent([a, b], [a, a], AreEquivalent)
  {
    Reflexive(a);
    LE.OneDirectional(a, b, AreEquivalent);
  }
}
