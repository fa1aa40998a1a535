/**
 * `EC2Util`: which EC2 instances are monitored, their tags, and the Nagios host built for one.
 * An `Instance` holds what the code reads of the SDK's: its id, its state code, its tags in
 * order and its public IP address (none when the SDK gives null). `String.matches` is a
 * parameter: `matches(s, regex)` holds when the regular expression matches the whole of `s`.
 */
module EC2Util {
  import opened Wrappers
  import opened JavaString
  import opened GlobalCandlestackProperties
  import opened Traversal
  import Service
  import TimePeriod
  import H = Host
  import EC2CW = EC2CloudWatchMetric
  import EC2G = EC2GraphiteMetric

  const TYPE_NAME: string := "aws_ec2"

  /** The state code of a running instance. */
  const RUNNING: int := 16

  const NAME_TAG: string := "Name"
  const ENVIRONMENT_NAME_TAG: string := "elasticbeanstalk:environment-name"

  datatype Tag = Tag(key: string, value: string)

  datatype Instance = Instance(instanceId: string, stateCode: int, tags: seq<Tag>, publicIpAddress: Option<string>)

  /** The value of the first tag with that key, or "" when no tag has it. */
  function TagValue(tags: seq<Tag>, key: string): string {
    if |tags| == 0 then ""
    else if tags[0].key == key then tags[0].value
    else TagValue(tags[1..], key)
  }

  /** The value is the first matching tag's, and "" when no tag has the key. */
  lemma {:induction false} TagValueIsFirst(tags: seq<Tag>, key: string)
    ensures (forall i :: 0 <= i < |tags| ==> tags[i].key != key) ==> TagValue(tags, key) == ""
    ensures forall i :: 0 <= i < |tags| && tags[i].key == key && (forall j :: 0 <= j < i ==> tags[j].key != key) ==>
      TagValue(tags, key) == tags[i].value
  {
    if |tags| > 0 {
      TagValueIsFirst(tags[1..], key);
      forall i | 0 < i < |tags| && tags[i].key == key && (forall j :: 0 <= j < i ==> tags[j].key != key)
        ensures TagValue(tags, key) == tags[i].value
      {
        assert tags[1..][i - 1] == tags[i];
        assert forall j :: 0 <= j < i - 1 ==> tags[1..][j] == tags[j + 1];
      }
    }
  }

  /** `getTagValue(instance, tagKey)`: the loop over the tags that stops at the first match. */
  method GetTagValue(instance: Instance, tagKey: string) returns (tagValue: string)
    ensures tagValue == TagValue(instance.tags, tagKey)
  {
    tagValue := "";
    var i := 0;
    while i < |instance.tags|
      invariant 0 <= i <= |instance.tags|
      invariant tagValue == ""
      invariant TagValue(instance.tags, tagKey) == TagValue(instance.tags[i..], tagKey)
    {
      if instance.tags[i].key == tagKey {
        tagValue := instance.tags[i].value;
        break;
      }
      assert instance.tags[i..][1..] == instance.tags[i + 1..];
      i := i + 1;
    }
  }

  /** The instance's "Name" tag. */
  function NameOf(instance: Instance): string {
    TagValue(instance.tags, NAME_TAG)
  }

  /**
   * `isInstanceEligible(instance, namePrefix, nameRegex)`: only running instances, and among
   * them those whose Name a non-empty prefix starts and a non-empty regex matches.
   */
  predicate IsInstanceEligible(instance: Instance, namePrefix: string, nameRegex: string, matches: (string, string) -> bool) {
    if instance.stateCode != RUNNING then false
    else if namePrefix != "" && !StartsWith(NameOf(instance), namePrefix) then false
    else if nameRegex != "" && !matches(NameOf(instance), nameRegex) then false
    else true
  }

  /** Eligible exactly when running and passing both filters on the Name tag. */
  lemma EligibleIffRunningAndNamed(instance: Instance, namePrefix: string, nameRegex: string, matches: (string, string) -> bool)
    ensures IsInstanceEligible(instance, namePrefix, nameRegex, matches) <==>
      instance.stateCode == RUNNING
      && (namePrefix == "" || StartsWith(NameOf(instance), namePrefix))
      && (nameRegex == "" || matches(NameOf(instance), nameRegex))
  {
  }

  /** What the lookup keeps: instances outside Elastic Beanstalk that are eligible. */
  predicate Monitored(instance: Instance, namePrefix: string, nameRegex: string, matches: (string, string) -> bool) {
    TagValue(instance.tags, ENVIRONMENT_NAME_TAG) == "" && IsInstanceEligible(instance, namePrefix, nameRegex, matches)
  }

  function MonitoredTest(namePrefix: string, nameRegex: string, matches: (string, string) -> bool): Instance -> bool {
    instance => Monitored(instance, namePrefix, nameRegex, matches)
  }

  /**
   * The filtering in `lookupElligibleInstances`: the instances of every reservation in turn,
   * keeping in order those without an environment-name tag value that are eligible.
   */
  method LookupEligibleInstances(reservations: seq<seq<Instance>>, namePrefix: string, nameRegex: string,
                                 matches: (string, string) -> bool) returns (instances: seq<Instance>)
    ensures instances == Filter(Flatten(reservations), MonitoredTest(namePrefix, nameRegex, matches))
  {
    instances := [];
    var r := 0;
    while r < |reservations|
      invariant 0 <= r <= |reservations|
      invariant instances == Filter(Flatten(reservations[..r]), MonitoredTest(namePrefix, nameRegex, matches))
    {
      FlattenStep(reservations, r);
      instances := KeepMonitored(Flatten(reservations[..r]), instances, reservations[r], namePrefix, nameRegex, matches);
      r := r + 1;
    }
    assert reservations[..r] == reservations;
  }

  /** The inner loop of the lookup: one reservation's instances, kept after those of the earlier ones. */
  method KeepMonitored(ghost seen: seq<Instance>, kept: seq<Instance>, reservation: seq<Instance>, namePrefix: string,
                       nameRegex: string, matches: (string, string) -> bool) returns (instances: seq<Instance>)
    requires kept == Filter(seen, MonitoredTest(namePrefix, nameRegex, matches))
    ensures instances == Filter(seen + reservation, MonitoredTest(namePrefix, nameRegex, matches))
  {
    ghost var p := MonitoredTest(namePrefix, nameRegex, matches);
    ghost var all := seen + reservation;
    instances := kept;
    var i := 0;
    assert all[..|seen|] == seen;
    while i < |reservation|
      invariant 0 <= i <= |reservation|
      invariant instances == Filter(all[..|seen| + i], p)
    {
      FilterStep(all, p, |seen| + i);
      assert all[|seen| + i] == reservation[i];
      var instance := reservation[i];
      var environmentName := GetTagValue(instance, ENVIRONMENT_NAME_TAG);
      if environmentName == "" && IsInstanceEligible(instance, namePrefix, nameRegex, matches) {
        instances := instances + [instance];
      }
      i := i + 1;
    }
    assert all[..|seen| + i] == all;
  }

  /**
   * The lookup keeps exactly the instances of the reservations that have no Elastic Beanstalk
   * environment name, are running, and pass the Name filters.
   */
  lemma LookupKeepsMonitored(reservations: seq<seq<Instance>>, namePrefix: string, nameRegex: string,
                             matches: (string, string) -> bool, instance: Instance)
    ensures instance in Filter(Flatten(reservations), MonitoredTest(namePrefix, nameRegex, matches)) <==>
      (exists r :: 0 <= r < |reservations| && instance in reservations[r])
      && TagValue(instance.tags, ENVIRONMENT_NAME_TAG) == ""
      && instance.stateCode == RUNNING
      && (namePrefix == "" || StartsWith(NameOf(instance), namePrefix))
      && (nameRegex == "" || matches(NameOf(instance), nameRegex))
  {
    FilterMembers(Flatten(reservations), MonitoredTest(namePrefix, nameRegex, matches));
    FlattenMembers(reservations);
  }

  /** `metric.getService(instanceId, contactGroups)` of a CloudWatch metric, as a call. */
  type CloudWatchServiceCall = (string, EC2CW.Metric) -> Result<Service.Service>

  /** `metric.getService(instanceId, contactGroups)` of a Graphite metric, as a call. */
  type GraphiteServiceCall = (string, EC2G.Metric) -> Result<Service.Service>

  /**
   * The calls the metrics make, given the properties and the per-instance notification
   * periods (whose lookups are not part of this model).
   */
  function CloudWatchServices(g: Option<Properties>, notificationPeriod: string -> Result<string>,
                              contactGroups: StringSet): CloudWatchServiceCall {
    (id, m) => EC2CW.GetService(g, m, notificationPeriod(id), id, contactGroups)
  }

  function GraphiteServices(g: Option<Properties>, notificationPeriod: string -> string,
                            contactGroups: StringSet): GraphiteServiceCall {
    (id, m) => EC2G.GetService(g, m, notificationPeriod(id), id, contactGroups)
  }

  /** The services of an instance's host: one per CloudWatch metric, then one per Graphite metric. */
  function HostServices(instance: Instance, cloudWatchMetrics: seq<EC2CW.Metric>, graphiteMetrics: seq<EC2G.Metric>,
                        cloudWatchService: CloudWatchServiceCall, graphiteService: GraphiteServiceCall): Result<seq<Service.Service>> {
    var cloudWatch :- MapResult(cloudWatchMetrics, m => cloudWatchService(instance.instanceId, m));
    var graphite :- MapResult(graphiteMetrics, m => graphiteService(instance.instanceId, m));
    Ok(cloudWatch + graphite)
  }

  /** The host built for an instance: named by its id, aliased by its Name tag, at its public IP. */
  function InstanceHost(instance: Instance, contactGroups: StringSet, services: seq<Service.Service>): H.HostNode {
    H.HostNode(instance.instanceId, NameOf(instance), instance.publicIpAddress, contactGroups, 5, 10, 5,
               TimePeriod.TwentyFourSevenName(), TimePeriod.TwentyFourSevenName(), services)
  }

  /**
   * The host's services come in metric order, the CloudWatch ones first; they are built
   * exactly when every metric's service is.
   */
  lemma HostServicesShape(instance: Instance, cloudWatchMetrics: seq<EC2CW.Metric>, graphiteMetrics: seq<EC2G.Metric>,
                          cloudWatchService: CloudWatchServiceCall, graphiteService: GraphiteServiceCall)
    ensures var r := HostServices(instance, cloudWatchMetrics, graphiteMetrics, cloudWatchService, graphiteService);
            r.Ok? <==> (forall i :: 0 <= i < |cloudWatchMetrics| ==> cloudWatchService(instance.instanceId, cloudWatchMetrics[i]).Ok?)
                       && (forall j :: 0 <= j < |graphiteMetrics| ==> graphiteService(instance.instanceId, graphiteMetrics[j]).Ok?)
    ensures var r := HostServices(instance, cloudWatchMetrics, graphiteMetrics, cloudWatchService, graphiteService);
            r.Ok? ==>
              |r.value| == |cloudWatchMetrics| + |graphiteMetrics|
              && (forall i :: 0 <= i < |cloudWatchMetrics| ==>
                    r.value[i] == cloudWatchService(instance.instanceId, cloudWatchMetrics[i]).value)
              && (forall j :: 0 <= j < |graphiteMetrics| ==>
                    r.value[|cloudWatchMetrics| + j] == graphiteService(instance.instanceId, graphiteMetrics[j]).value)
  {
    MapResultShape(cloudWatchMetrics, m => cloudWatchService(instance.instanceId, m));
    MapResultShape(graphiteMetrics, m => graphiteService(instance.instanceId, m));
  }

  /** With the metrics' own calls, every service of the host is on that instance. */
  lemma ServicesAreOnTheInstance(g: Option<Properties>, instance: Instance, cloudWatchMetrics: seq<EC2CW.Metric>,
                                 graphiteMetrics: seq<EC2G.Metric>, cloudWatchPeriod: string -> Result<string>,
                                 graphitePeriod: string -> string, contactGroups: StringSet)
    requires HostServices(instance, cloudWatchMetrics, graphiteMetrics, CloudWatchServices(g, cloudWatchPeriod, contactGroups),
                          GraphiteServices(g, graphitePeriod, contactGroups)).Ok?
    ensures var services := HostServices(instance, cloudWatchMetrics, graphiteMetrics, CloudWatchServices(g, cloudWatchPeriod, contactGroups),
                                         GraphiteServices(g, graphitePeriod, contactGroups)).value;
            forall k :: 0 <= k < |services| ==> services[k].hostName == instance.instanceId && services[k].contactGroups == contactGroups
  {
    var cw, gr := CloudWatchServices(g, cloudWatchPeriod, contactGroups), GraphiteServices(g, graphitePeriod, contactGroups);
    HostServicesShape(instance, cloudWatchMetrics, graphiteMetrics, cw, gr);
    var services := HostServices(instance, cloudWatchMetrics, graphiteMetrics, cw, gr).value;
    forall k | 0 <= k < |services|
      ensures services[k].hostName == instance.instanceId && services[k].contactGroups == contactGroups
    {
      if k < |cloudWatchMetrics| {
        assert cw(instance.instanceId, cloudWatchMetrics[k]).Ok?;
      } else {
        assert gr(instance.instanceId, graphiteMetrics[k - |cloudWatchMetrics|]).Ok?;
      }
    }
  }

  /** Adds the service of each element in order; the first exception ends the loop. */
  method AddServices<T>(host: H.Host, xs: seq<T>, f: T -> Result<Service.Service>) returns (r: Result<()>)
    modifies host
    ensures r.Ok? <==> MapResult(xs, f).Ok?
    ensures r.Err? ==> r.error == MapResult(xs, f).error
    ensures r.Ok? ==> host.Node() == old(host.Node()).(services := old(host.services) + MapResult(xs, f).value)
  {
    var j := 0;
    while j < |xs|
      invariant 0 <= j <= |xs|
      invariant MapResult(xs[..j], f).Ok?
      invariant host.Node() == old(host.Node()).(services := old(host.services) + MapResult(xs[..j], f).value)
    {
      MapResultStep(xs, f, j);
      var service := f(xs[j]);
      if service.Err? {
        MapResultFirstError(xs, f, j + 1);
        return Err(service.error);
      }
      host.AddService(service.value);
      j := j + 1;
    }
    assert xs[..j] == xs;
    r := Ok(());
  }

  /**
   * `createHostFromInstance(instance, contactGroups, ec2CloudWatchMetrics, ec2GraphiteMetrics)`:
   * a new host for the instance, given the CloudWatch services and then the Graphite ones; an
   * exception from a service ends it.
   */
  method CreateHostFromInstance(instance: Instance, contactGroups: StringSet, cloudWatchMetrics: seq<EC2CW.Metric>,
                                graphiteMetrics: seq<EC2G.Metric>, cloudWatchService: CloudWatchServiceCall,
                                graphiteService: GraphiteServiceCall) returns (r: Result<H.Host>)
    ensures var services := HostServices(instance, cloudWatchMetrics, graphiteMetrics, cloudWatchService, graphiteService);
            (r.Ok? <==> services.Ok?)
            && (r.Err? ==> r.error == services.error)
            && (r.Ok? ==> fresh(r.value) && r.value.Node() == InstanceHost(instance, contactGroups, services.value))
  {
    var alias := GetTagValue(instance, NAME_TAG);
    var host := new H.Host(instance.instanceId, alias, instance.publicIpAddress, contactGroups);
    var cloudWatch := AddServices(host, cloudWatchMetrics, m => cloudWatchService(instance.instanceId, m));
    if cloudWatch.Err? {
      return Err(cloudWatch.error);
    }
    var graphite := AddServices(host, graphiteMetrics, m => graphiteService(instance.instanceId, m));
    if graphite.Err? {
      return Err(graphite.error);
    }
    r := Ok(host);
  }
}
