/**
 * `S3HostMonitorLookup`: the S3 objects to watch come from configuration alone. One host group
 * "aws_s3" holds a host per configured location, each host carrying one service per metadata
 * metric; the lookup also lists the Nagios commands those services run.
 */
module S3HostMonitorLookup {
  import opened Wrappers
  import opened JavaString
  import opened GlobalCandlestackProperties
  import M = S3MetadataMetric
  import Service
  import Command
  import TimePeriod
  import H = Host
  import HG = HostGroup
  import opened Traversal

  /** `S3Util.TYPE_NAME`: the lookup's name and its group's name. */
  const TYPE_NAME: string := "aws_s3"

  const GROUP_ALIAS: string := "AWS S3 Locations"

  /** An `S3Location` as the configuration describes it. */
  datatype S3Location = S3Location(id: string, name: string, bucket: string, key: string)

  /**
   * `metric.getService(locationId, contactGroups)` as the lookup sees it: the service it gets
   * for a location id and a metric, or the exception it throws.
   */
  type ServiceCall = (string, M.Metric) -> Result<Service.Service>

  /**
   * The call `S3MetadataMetric.getService` makes, given the threshold lookups and the
   * notification period it uses (which are not part of this model).
   */
  function MetadataService(warning: (string, M.Metric) -> Result<int>, critical: (string, M.Metric) -> Result<int>,
                           notificationPeriod: string, contactGroups: StringSet): ServiceCall {
    (id, m) => M.GetService(m, notificationPeriod, id, contactGroups, warning(id, m), critical(id, m))
  }

  /** `getName()`. */
  function GetName(): (name: string)
    ensures name == "aws_s3"
  {
    TYPE_NAME
  }

  /** The address of a location's host: `s3://<bucket>/<key>`. */
  function Address(location: S3Location): string {
    "s3://" + location.bucket + "/" + location.key
  }

  /** The call building the service of each metric for one location. */
  function ServiceOf(location: S3Location, getService: ServiceCall): M.Metric -> Result<Service.Service> {
    m => getService(location.id, m)
  }

  /** The services of one location's host, one per metric in order; the first failure ends it. */
  function LocationServices(location: S3Location, metrics: seq<M.Metric>, getService: ServiceCall): Result<seq<Service.Service>> {
    MapResult(metrics, ServiceOf(location, getService))
  }

  /** A location's host as a value: named by the id, aliased by the name, with those services. */
  function LocationHost(location: S3Location, contactGroups: StringSet, services: seq<Service.Service>): H.HostNode {
    H.HostNode(location.id, location.name, Some(Address(location)), contactGroups, 5, 10, 5,
               TimePeriod.TwentyFourSevenName(), TimePeriod.TwentyFourSevenName(), services)
  }

  /** The call building each location's host. */
  function HostOf(metrics: seq<M.Metric>, contactGroups: StringSet, getService: ServiceCall): S3Location -> Result<H.HostNode> {
    location =>
      var services :- LocationServices(location, metrics, getService);
      Ok(LocationHost(location, contactGroups, services))
  }

  /** The hosts of the locations, in configuration order; the first failure ends it. */
  function LocationHosts(locations: seq<S3Location>, metrics: seq<M.Metric>, contactGroups: StringSet,
                         getService: ServiceCall): Result<seq<H.HostNode>> {
    MapResult(locations, HostOf(metrics, contactGroups, getService))
  }

  /** What `lookupHostsToMonitor` returns: no group without locations, else the one "aws_s3" group. */
  function Groups(locations: seq<S3Location>, metrics: seq<M.Metric>, contactGroups: StringSet,
                  getService: ServiceCall): Result<seq<HG.GroupNode>>
  {
    if |locations| == 0 then Ok([])
    else
      var hosts :- LocationHosts(locations, metrics, contactGroups, getService);
      Ok([HG.GroupNode(TYPE_NAME, GROUP_ALIAS, hosts)])
  }

  /**
   * A location's services succeed exactly when the call succeeds for every metric, and then
   * there is one per metric, in order.
   */
  lemma LocationServicesShape(location: S3Location, metrics: seq<M.Metric>, getService: ServiceCall)
    ensures LocationServices(location, metrics, getService).Ok? <==>
      forall j :: 0 <= j < |metrics| ==> getService(location.id, metrics[j]).Ok?
    ensures var r := LocationServices(location, metrics, getService);
            r.Ok? ==> |r.value| == |metrics|
                      && forall j :: 0 <= j < |metrics| ==> r.value[j] == getService(location.id, metrics[j]).value
  {
    MapResultShape(metrics, ServiceOf(location, getService));
  }

  /**
   * The hosts come one per location, in configuration order, each carrying its location's
   * services; they succeed exactly when every location's services do.
   */
  lemma LocationHostsShape(locations: seq<S3Location>, metrics: seq<M.Metric>, contactGroups: StringSet,
                           getService: ServiceCall)
    ensures LocationHosts(locations, metrics, contactGroups, getService).Ok? <==>
      forall i :: 0 <= i < |locations| ==> LocationServices(locations[i], metrics, getService).Ok?
    ensures var r := LocationHosts(locations, metrics, contactGroups, getService);
            r.Ok? ==> |r.value| == |locations|
                      && forall i :: 0 <= i < |locations| ==>
                           r.value[i] == LocationHost(locations[i], contactGroups, LocationServices(locations[i], metrics, getService).value)
  {
    MapResultShape(locations, HostOf(metrics, contactGroups, getService));
  }

  /** With no configured locations the lookup returns no group at all. */
  lemma NoLocationsNoGroups(metrics: seq<M.Metric>, contactGroups: StringSet, getService: ServiceCall)
    ensures Groups([], metrics, contactGroups, getService) == Ok([])
  {
  }

  /**
   * With locations, it returns exactly one group, "aws_s3" aliased "AWS S3 Locations", whose
   * hosts follow the locations: named by the id, aliased by the name, at
   * `s3://<bucket>/<key>`, each with one service per metric in order.
   */
  lemma OneGroupOfLocations(locations: seq<S3Location>, metrics: seq<M.Metric>, contactGroups: StringSet,
                            getService: ServiceCall)
    requires |locations| > 0
    requires Groups(locations, metrics, contactGroups, getService).Ok?
    ensures var groups := Groups(locations, metrics, contactGroups, getService).value;
            |groups| == 1 && groups[0].name == "aws_s3" && groups[0].alias == "AWS S3 Locations"
            && |groups[0].hosts| == |locations|
            && forall i :: 0 <= i < |locations| ==>
                 groups[0].hosts[i].name == locations[i].id && groups[0].hosts[i].alias == locations[i].name
                 && groups[0].hosts[i].address == Some("s3://" + locations[i].bucket + "/" + locations[i].key)
                 && groups[0].hosts[i].contactGroups == contactGroups
                 && |groups[0].hosts[i].services| == |metrics|
                 && forall j :: 0 <= j < |metrics| ==>
                      getService(locations[i].id, metrics[j]).Ok?
                      && groups[0].hosts[i].services[j] == getService(locations[i].id, metrics[j]).value
  {
    LocationHostsShape(locations, metrics, contactGroups, getService);
    forall i | 0 <= i < |locations|
      ensures LocationServices(locations[i], metrics, getService).Ok?
      ensures |LocationServices(locations[i], metrics, getService).value| == |metrics|
      ensures forall j :: 0 <= j < |metrics| ==>
                getService(locations[i].id, metrics[j]).Ok?
                && LocationServices(locations[i], metrics, getService).value[j] == getService(locations[i].id, metrics[j]).value
    {
      LocationServicesShape(locations[i], metrics, getService);
    }
  }

  /**
   * The lookup fails exactly when some location has some metric whose service cannot be
   * built; with `S3MetadataMetric.getService`, when one of its thresholds cannot be read.
   */
  lemma LookupFailsOnMissingThreshold(locations: seq<S3Location>, metrics: seq<M.Metric>, contactGroups: StringSet,
                                      warning: (string, M.Metric) -> Result<int>, critical: (string, M.Metric) -> Result<int>,
                                      notificationPeriod: string)
    requires |locations| > 0
    ensures var getService := MetadataService(warning, critical, notificationPeriod, contactGroups);
            Groups(locations, metrics, contactGroups, getService).Ok? <==>
              forall i, j :: 0 <= i < |locations| && 0 <= j < |metrics| ==>
                warning(locations[i].id, metrics[j]).Ok? && critical(locations[i].id, metrics[j]).Ok?
  {
    var getService := MetadataService(warning, critical, notificationPeriod, contactGroups);
    LocationHostsShape(locations, metrics, contactGroups, getService);
    forall i | 0 <= i < |locations|
      ensures LocationServices(locations[i], metrics, getService).Ok? <==>
        forall j :: 0 <= j < |metrics| ==> warning(locations[i].id, metrics[j]).Ok? && critical(locations[i].id, metrics[j]).Ok?
    {
      LocationServicesShape(locations[i], metrics, getService);
    }
  }

  /**
   * A location's new host, filled with its services one metric at a time; an exception from
   * a service ends the loop.
   */
  method NewLocationHost(location: S3Location, metrics: seq<M.Metric>, contactGroups: StringSet, getService: ServiceCall)
    returns (r: Result<H.Host>)
    ensures r.Ok? <==> LocationServices(location, metrics, getService).Ok?
    ensures r.Err? ==> r.error == LocationServices(location, metrics, getService).error
    ensures r.Ok? ==> fresh(r.value)
                      && r.value.Node() == LocationHost(location, contactGroups, LocationServices(location, metrics, getService).value)
  {
    var host := new H.Host(location.id, location.name, Some(Address(location)), contactGroups);
    var f := ServiceOf(location, getService);
    var j := 0;
    while j < |metrics|
      invariant 0 <= j <= |metrics|
      invariant fresh(host)
      invariant MapResult(metrics[..j], f) == Ok(host.services)
      invariant host.Node() == LocationHost(location, contactGroups, host.services)
    {
      MapResultStep(metrics, f, j);
      var service := getService(location.id, metrics[j]);
      if service.Err? {
        MapResultFirstError(metrics, f, j + 1);
        return Err(service.error);
      }
      host.AddService(service.value);
      j := j + 1;
    }
    assert metrics[..j] == metrics;
    r := Ok(host);
  }

  /** The loop adding each location's host to the group, in order; an exception ends it. */
  method AddLocationHosts(group: HG.HostGroup, locations: seq<S3Location>, metrics: seq<M.Metric>,
                          contactGroups: StringSet, getService: ServiceCall) returns (r: Result<()>)
    requires group.hosts == []
    modifies group
    ensures r.Ok? <==> LocationHosts(locations, metrics, contactGroups, getService).Ok?
    ensures r.Err? ==> r.error == LocationHosts(locations, metrics, contactGroups, getService).error
    ensures r.Ok? ==> HG.Nodes(group.hosts) == LocationHosts(locations, metrics, contactGroups, getService).value
  {
    ghost var f := HostOf(metrics, contactGroups, getService);
    var i := 0;
    while i < |locations|
      invariant 0 <= i <= |locations|
      invariant MapResult(locations[..i], f) == Ok(HG.Nodes(group.hosts))
    {
      var added := AddLocationHost(group, locations, i, metrics, contactGroups, getService);
      if added.Err? {
        return added;
      }
      i := i + 1;
    }
    assert locations[..i] == locations;
    r := Ok(());
  }

  /** One pass of the loop: the next location's host is built and added, or its failure ends the lookup. */
  method AddLocationHost(group: HG.HostGroup, locations: seq<S3Location>, i: nat, metrics: seq<M.Metric>,
                         contactGroups: StringSet, getService: ServiceCall) returns (r: Result<()>)
    requires i < |locations|
    requires MapResult(locations[..i], HostOf(metrics, contactGroups, getService)) == Ok(HG.Nodes(group.hosts))
    modifies group
    ensures r.Ok? ==> MapResult(locations[..i + 1], HostOf(metrics, contactGroups, getService)) == Ok(HG.Nodes(group.hosts))
    ensures r.Err? ==> MapResult(locations, HostOf(metrics, contactGroups, getService)) == Err(r.error)
  {
    ghost var f := HostOf(metrics, contactGroups, getService);
    MapResultStep(locations, f, i);
    ghost var nodes := HG.Nodes(group.hosts);
    var host := NewLocationHost(locations[i], metrics, contactGroups, getService);
    if host.Err? {
      MapResultFirstError(locations, f, i + 1);
      return Err(host.error);
    }
    assert HG.Nodes(group.hosts) == nodes;
    assert f(locations[i]) == Ok(host.value.Node());
    ghost var before := group.hosts;
    group.AddHost(host.value);
    assert HG.Nodes(before) == nodes;
    HG.NodesSnoc(before, host.value);
    r := Ok(());
  }

  /**
   * `lookupHostsToMonitor()`: with locations configured, a new group "aws_s3" gets one new host
   * per location, each filled with its services before it is added; an exception from a
   * service ends the lookup.
   */
  method LookupHostsToMonitor(locations: seq<S3Location>, metrics: seq<M.Metric>, contactGroups: StringSet,
                              getService: ServiceCall) returns (r: Result<seq<HG.HostGroup>>)
    ensures r.Ok? <==> Groups(locations, metrics, contactGroups, getService).Ok?
    ensures r.Err? ==> r.error == Groups(locations, metrics, contactGroups, getService).error
    ensures r.Ok? ==> |r.value| == |Groups(locations, metrics, contactGroups, getService).value|
    ensures r.Ok? ==> forall i :: 0 <= i < |r.value| ==>
      r.value[i].Node() == Groups(locations, metrics, contactGroups, getService).value[i]
  {
    if |locations| == 0 {
      return Ok([]);
    }
    var group := new HG.HostGroup(TYPE_NAME, Some(GROUP_ALIAS));
    var added := AddLocationHosts(group, locations, metrics, contactGroups, getService);
    if added.Err? {
      return Err(added.error);
    }
    r := Ok([group]);
  }

  /**
   * `getMonitorCommands(relativePathToMonitorResource)`: one command per metadata metric, in
   * the metrics' order.
   */
  method GetMonitorCommands(g: Option<Properties>, metrics: seq<M.Metric>, relativePath: string)
    returns (commands: seq<Command.Command>)
    ensures |commands| == |metrics|
    ensures forall j :: 0 <= j < |metrics| ==> commands[j] == M.GetMonitorCommand(g, metrics[j], relativePath)
  {
    commands := [];
    for j := 0 to |metrics|
      invariant |commands| == j
      invariant forall k :: 0 <= k < j ==> commands[k] == M.GetMonitorCommand(g, metrics[k], relativePath)
    {
      commands := commands + [M.GetMonitorCommand(g, metrics[j], relativePath)];
    }
  }
}
