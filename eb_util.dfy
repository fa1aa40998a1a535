/**
 * `EBUtil`: which Elastic Beanstalk environments are monitored, and the running EC2 instances
 * of each, grouped by the environment-name tag Elastic Beanstalk puts on them. Its
 * `getTagValue` is the same loop as `EC2Util`'s, which the model uses for both.
 */
module EBUtil {
  import opened Wrappers
  import opened JavaString
  import opened Traversal
  import EC2Util

  const TYPE_NAME: string := "aws_eb"

  /** The part of the SDK's environment description the code reads. */
  datatype EnvironmentDescription = EnvironmentDescription(environmentName: string, status: string)

  /** `isEnvironmentEligible(environmentName, environmentNamePrefix)`: a non-empty prefix must start the name. */
  predicate IsEnvironmentNameEligible(environmentName: string, environmentNamePrefix: string) {
    !(environmentNamePrefix != "" && !StartsWith(environmentName, environmentNamePrefix))
  }

  /**
   * `isEnvironmentEligible(environment, environmentNamePrefix)`: only environments whose status
   * is "Ready" in any letter case, and among them those a non-empty prefix starts.
   */
  predicate IsEnvironmentEligible(environment: EnvironmentDescription, environmentNamePrefix: string) {
    if !EqualsIgnoreCase(environment.status, "Ready") then false
    else if environmentNamePrefix != "" && !StartsWith(environment.environmentName, environmentNamePrefix) then false
    else true
  }

  /** An environment is eligible exactly when it is ready and its name is. */
  lemma EnvironmentEligibleIffReadyAndNamed(environment: EnvironmentDescription, environmentNamePrefix: string)
    ensures IsEnvironmentEligible(environment, environmentNamePrefix) <==>
      ToLower(environment.status) == "ready" && IsEnvironmentNameEligible(environment.environmentName, environmentNamePrefix)
  {
    assert ToLower("Ready") == "ready";
  }

  /** An empty prefix keeps every name, and a name always passes as its own prefix. */
  lemma EmptyPrefixKeepsAll(environmentName: string)
    ensures IsEnvironmentNameEligible(environmentName, "")
    ensures IsEnvironmentNameEligible(environmentName, environmentName)
  {
    assert environmentName[..|environmentName|] == environmentName;
  }

  /** The environment an instance belongs to: its environment-name tag, "" when it has none. */
  function EnvironmentOf(instance: EC2Util.Instance): string {
    EC2Util.TagValue(instance.tags, EC2Util.ENVIRONMENT_NAME_TAG)
  }

  /** The instances the lookup keeps: running ones in an eligible environment. */
  predicate Kept(instance: EC2Util.Instance, environmentNamePrefix: string) {
    instance.stateCode == EC2Util.RUNNING && IsEnvironmentNameEligible(EnvironmentOf(instance), environmentNamePrefix)
  }

  /** The instances the lookup keeps for one environment. */
  function InEnvironment(environmentName: string, environmentNamePrefix: string): EC2Util.Instance -> bool {
    instance => Kept(instance, environmentNamePrefix) && EnvironmentOf(instance) == environmentName
  }

  /**
   * The map the lookup builds from the instances in order: a kept instance is appended to
   * its environment's list, which is created when the environment is first seen.
   */
  function Group(instances: seq<EC2Util.Instance>, environmentNamePrefix: string): map<string, seq<EC2Util.Instance>> {
    if |instances| == 0 then map[]
    else
      var grouped := Group(instances[..|instances| - 1], environmentNamePrefix);
      var instance := instances[|instances| - 1];
      if !Kept(instance, environmentNamePrefix) then grouped
      else
        var environmentName := EnvironmentOf(instance);
        var list := if environmentName in grouped then grouped[environmentName] else [];
        grouped[environmentName := list + [instance]]
  }

  /** One more step of the grouping loop. */
  lemma GroupStep(instances: seq<EC2Util.Instance>, environmentNamePrefix: string, n: nat)
    requires n < |instances|
    ensures var grouped := Group(instances[..n], environmentNamePrefix);
            var instance := instances[n];
            var environmentName := EnvironmentOf(instance);
            Group(instances[..n + 1], environmentNamePrefix)
              == if !Kept(instance, environmentNamePrefix) then grouped
                 else grouped[environmentName := (if environmentName in grouped then grouped[environmentName] else []) + [instance]]
  {
    assert instances[..n + 1][..n] == instances[..n];
  }

  /**
   * The list of each environment holds exactly its kept instances, in the order they came,
   * and the map has an entry for an environment exactly when that list is not empty.
   */
  lemma {:induction false} GroupIsFilter(instances: seq<EC2Util.Instance>, environmentNamePrefix: string, environmentName: string)
    ensures var grouped := Group(instances, environmentNamePrefix);
            var kept := Filter(instances, InEnvironment(environmentName, environmentNamePrefix));
            (environmentName in grouped <==> kept != []) && (environmentName in grouped ==> grouped[environmentName] == kept)
  {
    if |instances| > 0 {
      GroupIsFilter(instances[..|instances| - 1], environmentNamePrefix, environmentName);
    }
  }

  /**
   * Every environment in the map is eligible and has a running instance, and every running
   * instance of an eligible environment is in that environment's list.
   */
  lemma GroupMembers(instances: seq<EC2Util.Instance>, environmentNamePrefix: string, environmentName: string,
                     instance: EC2Util.Instance)
    ensures var grouped := Group(instances, environmentNamePrefix);
            environmentName in grouped ==> IsEnvironmentNameEligible(environmentName, environmentNamePrefix)
    ensures var grouped := Group(instances, environmentNamePrefix);
            (environmentName in grouped && instance in grouped[environmentName]) <==>
              instance in instances && instance.stateCode == EC2Util.RUNNING
              && EnvironmentOf(instance) == environmentName
              && IsEnvironmentNameEligible(environmentName, environmentNamePrefix)
  {
    var p := InEnvironment(environmentName, environmentNamePrefix);
    GroupIsFilter(instances, environmentNamePrefix, environmentName);
    FilterMembers(instances, p);
    var kept := Filter(instances, p);
    if kept != [] {
      assert kept[0] in kept;
    }
  }

  /**
   * `lookupInstances(ec2Client, environmentNamePrefix)` after the describe call: the instances
   * of every reservation in turn, grouped by environment.
   */
  method LookupInstances(reservations: seq<seq<EC2Util.Instance>>, environmentNamePrefix: string)
    returns (environmentInstanceMap: map<string, seq<EC2Util.Instance>>)
    ensures environmentInstanceMap == Group(Flatten(reservations), environmentNamePrefix)
  {
    environmentInstanceMap := map[];
    var r := 0;
    while r < |reservations|
      invariant 0 <= r <= |reservations|
      invariant environmentInstanceMap == Group(Flatten(reservations[..r]), environmentNamePrefix)
    {
      FlattenStep(reservations, r);
      environmentInstanceMap := GroupReservation(Flatten(reservations[..r]), environmentInstanceMap, reservations[r],
                                                 environmentNamePrefix);
      r := r + 1;
    }
    assert reservations[..r] == reservations;
  }

  /** The inner loop of the lookup: one reservation's instances added to the map. */
  method GroupReservation(ghost seen: seq<EC2Util.Instance>, grouped: map<string, seq<EC2Util.Instance>>,
                          reservation: seq<EC2Util.Instance>, environmentNamePrefix: string)
    returns (environmentInstanceMap: map<string, seq<EC2Util.Instance>>)
    requires grouped == Group(seen, environmentNamePrefix)
    ensures environmentInstanceMap == Group(seen + reservation, environmentNamePrefix)
  {
    ghost var all := seen + reservation;
    environmentInstanceMap := grouped;
    var i := 0;
    assert all[..|seen|] == seen;
    while i < |reservation|
      invariant 0 <= i <= |reservation|
      invariant environmentInstanceMap == Group(all[..|seen| + i], environmentNamePrefix)
    {
      GroupStep(all, environmentNamePrefix, |seen| + i);
      assert all[|seen| + i] == reservation[i];
      var instance := reservation[i];
      if instance.stateCode != EC2Util.RUNNING {
        i := i + 1;
        continue;
      }
      var environmentName := EC2Util.GetTagValue(instance, EC2Util.ENVIRONMENT_NAME_TAG);
      if IsEnvironmentNameEligible(environmentName, environmentNamePrefix) {
        var instances := if environmentName in environmentInstanceMap then environmentInstanceMap[environmentName] else [];
        environmentInstanceMap := environmentInstanceMap[environmentName := instances + [instance]];
      }
      i := i + 1;
    }
    assert all[..|seen| + i] == all;
  }
}
