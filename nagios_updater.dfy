/**
 * `NagiosUpdater`: the settings checks of its constructor, `getPath`, and the reconciliation
 * tick `performChecksAndUpdates`. For every host monitor lookup the tick compares the fresh host
 * groups with the ones it last published, republishes only the lookups whose groups changed,
 * and restarts Nagios at most once. The file system and the restart process are not modelled:
 * what the tick asks of them is recorded, in order, as a log of actions, and which of those
 * requests fail is a parameter.
 */
module NagiosUpdater {
  import opened Wrappers
  import opened JavaString
  import opened GlobalCandlestackProperties
  import LE = ListEquivalence
  import HG = HostGroup
  import Cmd = Command

  const DEFAULT_SLEEP_INTERVAL: int := 10
  const DEFAULT_OBJECT_DEFINITION_DIR: string := "/var/tmp/nagios/objects/"

  const PROPERTY_KEY_SLEEP_INTERVAL: string := "nagios.updater.sleep.interval.min"
  const PROPERTY_KEY_OBJECT_DEFINITION_DIR: string := "nagios.object.definition.dir"
  const PROPERTY_KEY_RESTART_CMD: string := "nagios.updater.restart.cmd"

  // ---------------------------------------------------------------- construction

  /** The settings a successfully constructed updater runs with. */
  datatype Settings = Settings(restartCmd: string, sleepIntervalMinutes: int, objectDefinitionDir: string)

  /** The definition directory setting, trimmed, with its default. */
  function DirectorySetting(p: Properties): string {
    Trim(if PROPERTY_KEY_OBJECT_DEFINITION_DIR in p then p[PROPERTY_KEY_OBJECT_DEFINITION_DIR]
         else DEFAULT_OBJECT_DEFINITION_DIR)
  }

  /**
   * The checks of the constructor, in order: the restart command is required, the sleep interval
   * falls back to 10 minutes, and the trimmed definition directory must be non-blank and, if
   * something exists at that path, a directory. `kindOf` stands for the file system.
   */
  function Configure(g: Option<Properties>, kindOf: string -> PathKind): (r: Result<Settings>)
  {
    var restartCmd :- GetStringProperty(g, PROPERTY_KEY_RESTART_CMD, None);
    var sleep :- GetIntProperty(g, PROPERTY_KEY_SLEEP_INTERVAL, Some(DEFAULT_SLEEP_INTERVAL));
    var dir :- GetStringProperty(g, PROPERTY_KEY_OBJECT_DEFINITION_DIR, Some(DEFAULT_OBJECT_DEFINITION_DIR));
    if Trim(dir) == "" then
      Err(NagiosException("Missing required property [" + PROPERTY_KEY_OBJECT_DEFINITION_DIR + "]"))
    else if kindOf(Trim(dir)) == OtherFile then
      Err(NagiosException("Invalid property [" + PROPERTY_KEY_OBJECT_DEFINITION_DIR + "]"))
    else
      Ok(Settings(restartCmd, sleep, Trim(dir)))
  }

  /**
   * Construction succeeds exactly when the properties are installed, the restart command is set,
   * and the directory setting is non-blank and not an existing non-directory; the settings are
   * then the raw restart command, the parsed interval or 10, and the trimmed directory.
   */
  lemma ConfigureSucceeds(g: Option<Properties>, kindOf: string -> PathKind)
    ensures Configure(g, kindOf).Ok? <==>
      && g.Some? && PROPERTY_KEY_RESTART_CMD in g.value
      && DirectorySetting(g.value) != "" && kindOf(DirectorySetting(g.value)) != OtherFile
    ensures Configure(g, kindOf).Ok? ==>
      var s := Configure(g, kindOf).value;
      && s.restartCmd == g.value[PROPERTY_KEY_RESTART_CMD]
      && s.objectDefinitionDir == DirectorySetting(g.value)
      && s.sleepIntervalMinutes == GetIntProperty(g, PROPERTY_KEY_SLEEP_INTERVAL, Some(DEFAULT_SLEEP_INTERVAL)).value
  {
    if g.Some? {
      var p := g.value;
      assert GetIntProperty(g, PROPERTY_KEY_SLEEP_INTERVAL, Some(DEFAULT_SLEEP_INTERVAL)).Ok?;
      if PROPERTY_KEY_OBJECT_DEFINITION_DIR in p {
        assert GetStringProperty(g, PROPERTY_KEY_OBJECT_DEFINITION_DIR, Some(DEFAULT_OBJECT_DEFINITION_DIR))
            == Ok(p[PROPERTY_KEY_OBJECT_DEFINITION_DIR]);
      } else {
        assert GetStringProperty(g, PROPERTY_KEY_OBJECT_DEFINITION_DIR, Some(DEFAULT_OBJECT_DEFINITION_DIR))
            == Ok(DEFAULT_OBJECT_DEFINITION_DIR);
      }
    }
  }

  /** A missing restart command is reported as a properties error naming its key. */
  lemma MissingRestartCommand(p: Properties, kindOf: string -> PathKind)
    requires PROPERTY_KEY_RESTART_CMD !in p
    ensures Configure(Some(p), kindOf) == Err(PropertiesException(PROPERTY_KEY_RESTART_CMD))
  {
  }

  /** A blank directory setting and an existing non-directory are both Nagios errors. */
  lemma InvalidDirectory(p: Properties, kindOf: string -> PathKind)
    requires PROPERTY_KEY_RESTART_CMD in p
    requires DirectorySetting(p) == "" || kindOf(DirectorySetting(p)) == OtherFile
    ensures Configure(Some(p), kindOf).Err? && Configure(Some(p), kindOf).error.NagiosException?
  {
    var g := Some(p);
    assert GetIntProperty(g, PROPERTY_KEY_SLEEP_INTERVAL, Some(DEFAULT_SLEEP_INTERVAL)).Ok?;
    if PROPERTY_KEY_OBJECT_DEFINITION_DIR in p {
      assert GetStringProperty(g, PROPERTY_KEY_OBJECT_DEFINITION_DIR, Some(DEFAULT_OBJECT_DEFINITION_DIR))
          == Ok(p[PROPERTY_KEY_OBJECT_DEFINITION_DIR]);
    } else {
      assert GetStringProperty(g, PROPERTY_KEY_OBJECT_DEFINITION_DIR, Some(DEFAULT_OBJECT_DEFINITION_DIR))
          == Ok(DEFAULT_OBJECT_DEFINITION_DIR);
    }
  }

  // ---------------------------------------------------------------- paths

  /** `getPath(dir)`: every '\' becomes '/', and a '/' is appended unless the path ends with one. */
  function GetPath(path: string): (r: string)
    ensures '\\' !in r
    ensures EndsWith(r, "/")
  {
    var p := ReplaceChar(path, '\\', '/');
    assert '\\' !in p by {
      forall i | 0 <= i < |p| ensures p[i] != '\\' { }
    }
    if EndsWith(p, "/") then p else p + "/"
  }

  /** The result keeps every other character, and adds at most the one trailing '/'. */
  lemma GetPathKeeps(path: string)
    ensures var r := GetPath(path); |path| <= |r| <= |path| + 1
    ensures forall i :: 0 <= i < |path| ==> GetPath(path)[i] == (if path[i] == '\\' then '/' else path[i])
  {
  }

  /** A path already in that form is left alone, so `getPath` is idempotent. */
  lemma GetPathIdempotent(path: string)
    ensures GetPath(GetPath(path)) == GetPath(path)
  {
    var r := GetPath(path);
    assert ReplaceChar(r, '\\', '/') == r;
  }

  // ---------------------------------------------------------------- the tick

  /** One request the tick makes of the file system or of the process running Nagios. */
  datatype Action =
    | RecreateDir(dir: string)                                  // createFreshDir
    | SaveResource(file: string)                                // Files.copy, then setExecutable
    | WriteCommands(file: string, commands: seq<Cmd.Command>)   // NagiosObjectWriter.writeToFile
    | WriteGroup(file: string, group: HG.GroupNode)             // NagiosObjectWriter.writeToFile
    | RestartNagios(cmd: string)                                // Runtime.exec(restartCmd)

  /**
   * What one host monitor lookup answers during a tick: its name, the host groups (or the
   * exception `lookupHostsToMonitor` throws), the names of its monitor resources in iteration
   * order (`None` when reading them fails), and the commands it gives for a directory path.
   */
  datatype LookupAnswer = LookupAnswer(
    name: string,
    groups: Result<seq<HG.GroupNode>>,
    resources: Option<seq<string>>,
    commands: string -> seq<Cmd.Command>)

  /** No request in the sequence fails. */
  predicate Succeeded(actions: seq<Action>, fails: Action -> bool) {
    forall k :: 0 <= k < |actions| ==> !fails(actions[k])
  }

  /** The requests made when carrying out `actions` in order and stopping at the first that fails. */
  function Attempted(actions: seq<Action>, fails: Action -> bool): seq<Action>
  {
    if |actions| == 0 then []
    else if fails(actions[0]) then [actions[0]]
    else [actions[0]] + Attempted(actions[1..], fails)
  }

  function ResourceActions(dir: string, resources: seq<string>): (r: seq<Action>)
    ensures |r| == |resources|
    ensures forall k :: 0 <= k < |r| ==> r[k] == SaveResource(Child(dir, resources[k]))
  {
    seq(|resources|, k requires 0 <= k < |resources| => SaveResource(Child(dir, resources[k])))
  }

  function GroupActions(dir: string, groups: seq<HG.GroupNode>): (r: seq<Action>)
    ensures |r| == |groups|
    ensures forall k :: 0 <= k < |r| ==> r[k] == WriteGroup(Child(dir, groups[k].name + ".cfg"), groups[k])
  {
    seq(|groups|, k requires 0 <= k < |groups| => WriteGroup(Child(dir, groups[k].name + ".cfg"), groups[k]))
  }

  /**
   * Publishing a changed lookup whose resources could be read: recreate its directory, save each
   * resource, write commands.cfg, then one "<group name>.cfg" per group.
   */
  function PublishPlan(dynamicDir: string, answer: LookupAnswer, resources: seq<string>,
                       groups: seq<HG.GroupNode>): seq<Action>
  {
    var dir := Child(dynamicDir, answer.name);
    [RecreateDir(dir)] + ResourceActions(dir, resources)
    + [WriteCommands(Child(dir, "commands.cfg"), answer.commands(GetPath(dir)))]
    + GroupActions(dir, groups)
  }

  /** The requests publishing one changed lookup makes, and whether it completed without an exception. */
  datatype Publication = Publication(requests: seq<Action>, completed: bool)

  /**
   * The publishing branch as the code runs it: recreate the directory, read the resources,
   * save them, write commands.cfg, write the group files; an exception in any phase ends it.
   */
  function Publishing(dynamicDir: string, answer: LookupAnswer, current: seq<HG.GroupNode>,
                      fails: Action -> bool): Publication
  {
    var dir := Child(dynamicDir, answer.name);
    if fails(RecreateDir(dir)) || answer.resources.None? then Publication([RecreateDir(dir)], false)
    else
      var b := ResourceActions(dir, answer.resources.value);
      var c := [WriteCommands(Child(dir, "commands.cfg"), answer.commands(GetPath(dir)))];
      var d := GroupActions(dir, current);
      var rest := InPhases(b, c, d, fails);
      Publication([RecreateDir(dir)] + rest.requests, rest.completed)
  }

  /** Three phases of requests, run in order; a failing request ends its phase and the rest. */
  function InPhases(b: seq<Action>, c: seq<Action>, d: seq<Action>, fails: Action -> bool): Publication {
    if !Succeeded(b, fails) then Publication(Attempted(b, fails), false)
    else if !Succeeded(c, fails) then Publication(b + Attempted(c, fails), false)
    else Publication(b + c + Attempted(d, fails), Succeeded(d, fails))
  }

  /**
   * Publishing carries out the plan in order up to its first failing request, and completes
   * exactly when no request of the plan fails.
   */
  lemma PublishingFollowsPlan(dynamicDir: string, answer: LookupAnswer, current: seq<HG.GroupNode>,
                              fails: Action -> bool)
    requires answer.resources.Some?
    ensures Publishing(dynamicDir, answer, current, fails).requests
         == Attempted(PublishPlan(dynamicDir, answer, answer.resources.value, current), fails)
    ensures Publishing(dynamicDir, answer, current, fails).completed
         == Succeeded(PublishPlan(dynamicDir, answer, answer.resources.value, current), fails)
  {
    var dir := Child(dynamicDir, answer.name);
    var b := ResourceActions(dir, answer.resources.value);
    var c := [WriteCommands(Child(dir, "commands.cfg"), answer.commands(GetPath(dir)))];
    var d := GroupActions(dir, current);
    assert PublishPlan(dynamicDir, answer, answer.resources.value, current) == [RecreateDir(dir)] + (b + c + d);
    PhasesRequests(b, c, d, fails);
    PhasesComplete(b, c, d, fails);
    AttemptedAppend([RecreateDir(dir)], b + c + d, fails);
    SucceededAppend([RecreateDir(dir)], b + c + d, fails);
    assert Succeeded([RecreateDir(dir)], fails) <==> !fails(RecreateDir(dir));
  }

  /** The state of a tick part-way through the lookups. */
  datatype Progress = Progress(
    previous: map<nat, seq<HG.GroupNode>>,
    actions: seq<Action>,
    restart: bool,
    aborted: bool)

  /** The snapshot last published for lookup `i`, or the empty list. */
  function PreviousGroups(previous: map<nat, seq<HG.GroupNode>>, i: nat): seq<HG.GroupNode> {
    if i in previous then previous[i] else []
  }

  /** What the loop body does for one lookup: its requests, and the snapshots after it. */
  datatype Visit = Visit(previous: map<nat, seq<HG.GroupNode>>, requests: seq<Action>, changed: bool, aborted: bool)

  /**
   * The loop body for lookup number `i`: an exception from the lookup aborts the tick, and so
   * does the NullPointerException of comparing the snapshot with the fresh groups (it escapes
   * to the catch-all of `run()`, with the same effect on the tick); groups found equivalent to
   * the last published ones change nothing; otherwise the lookup is published, and its snapshot
   * is replaced only when publishing completed.
   */
  function VisitLookup(previous: map<nat, seq<HG.GroupNode>>, i: nat, answer: LookupAnswer, dynamicDir: string,
                       fails: Action -> bool): Visit
  {
    match answer.groups
    case Err(_) => Visit(previous, [], false, true)
    case Ok(current) =>
      match HG.ListsAsWritten(PreviousGroups(previous, i), current)
      case Err(_) => Visit(previous, [], false, true)
      case Ok(equivalent) =>
        if equivalent then Visit(previous, [], false, false)
        else
          var pub := Publishing(dynamicDir, answer, current, fails);
          Visit(if pub.completed then previous[i := current] else previous, pub.requests, true, !pub.completed)
  }

  /** The tick's progress after the loop body for lookup number `i`. */
  function Check(p: Progress, i: nat, answer: LookupAnswer, dynamicDir: string,
                 fails: Action -> bool): Progress
  {
    var v := VisitLookup(p.previous, i, answer, dynamicDir, fails);
    Progress(v.previous, p.actions + v.requests, p.restart || v.changed, v.aborted)
  }

  /** The loop over the lookups, stopping at the first exception. */
  function Checks(previous: map<nat, seq<HG.GroupNode>>, answers: seq<LookupAnswer>, dynamicDir: string,
                  fails: Action -> bool): Progress
    decreases |answers|
  {
    if |answers| == 0 then Progress(previous, [], false, false)
    else
      var p := Checks(previous, answers[..|answers| - 1], dynamicDir, fails);
      if p.aborted then p else Check(p, |answers| - 1, answers[|answers| - 1], dynamicDir, fails)
  }

  /** Everything one tick requests: the publishing, then the restart if it is due. */
  function TickActions(previous: map<nat, seq<HG.GroupNode>>, answers: seq<LookupAnswer>, dynamicDir: string,
                       restartCmd: string, fails: Action -> bool): seq<Action>
  {
    var p := Checks(previous, answers, dynamicDir, fails);
    p.actions + (if p.restart && !p.aborted then [RestartNagios(restartCmd)] else [])
  }

  /** The updater between ticks: the snapshots it last published, and everything it has requested. */
  class Updater {
    const restartCmd: string
    const dynamicDir: string
    var previous: map<nat, seq<HG.GroupNode>>
    var log: seq<Action>

    constructor(restartCmd: string, dynamicDir: string)
      ensures this.restartCmd == restartCmd && this.dynamicDir == dynamicDir
      ensures previous == map[] && log == []
    {
      this.restartCmd := restartCmd;
      this.dynamicDir := dynamicDir;
      previous := map[];
      log := [];
    }

    /** Makes one request; `fails` says whether it throws. */
    method Request(a: Action, fails: Action -> bool) returns (ok: bool)
      modifies this
      ensures ok == !fails(a)
      ensures log == old(log) + [a] && previous == old(previous)
    {
      log := log + [a];
      ok := !fails(a);
    }

    /** Makes the requests in order, stopping at the first that fails. */
    method RequestAll(actions: seq<Action>, fails: Action -> bool) returns (ok: bool)
      modifies this
      ensures ok == Succeeded(actions, fails)
      ensures log == old(log) + Attempted(actions, fails) && previous == old(previous)
      ensures ok ==> log == old(log) + actions
    {
      var i := 0;
      ok := true;
      while i < |actions| && ok
        invariant 0 <= i <= |actions|
        invariant previous == old(previous)
        invariant ok ==> Succeeded(actions[..i], fails) && log == old(log) + actions[..i]
        invariant !ok ==> 0 < i && Succeeded(actions[..i - 1], fails) && fails(actions[i - 1])
                          && log == old(log) + actions[..i]
      {
        ok := Request(actions[i], fails);
        i := i + 1;
      }
      if ok {
        assert actions[..i] == actions;
        AttemptedSplit(actions, i, fails);
      } else {
        AttemptedSplit(actions, i - 1, fails);
        assert actions[i - 1..][1..] == actions[i..];
        assert actions[..i - 1] + [actions[i - 1]] == actions[..i];
      }
    }

    /** The publishing branch for one changed lookup; `ok` is false when an exception ends the tick. */
    method Publish(answer: LookupAnswer, current: seq<HG.GroupNode>, fails: Action -> bool) returns (ok: bool)
      modifies this
      ensures previous == old(previous)
      ensures ok == Publishing(dynamicDir, answer, current, fails).completed
      ensures log == old(log) + Publishing(dynamicDir, answer, current, fails).requests
    {
      var dir := Child(dynamicDir, answer.name);
      ok := Request(RecreateDir(dir), fails);
      if !ok || answer.resources.None? {
        ok := false;
        return;
      }
      var b := ResourceActions(dir, answer.resources.value);
      var c := [WriteCommands(Child(dir, "commands.cfg"), answer.commands(GetPath(dir)))];
      var d := GroupActions(dir, current);
      ok := RequestPhases(b, c, d, fails);
    }

    /** Saves the resources, writes the commands, writes the groups, stopping at the first failure. */
    method RequestPhases(b: seq<Action>, c: seq<Action>, d: seq<Action>, fails: Action -> bool) returns (ok: bool)
      modifies this
      ensures previous == old(previous)
      ensures ok == InPhases(b, c, d, fails).completed
      ensures log == old(log) + InPhases(b, c, d, fails).requests
    {
      ghost var start := log;
      ok := RequestAll(b, fails);
      if !ok {
        return;
      }
      ok := RequestAll(c, fails);
      if !ok {
        AppendAssociative(start, b, Attempted(c, fails));
        return;
      }
      AppendAssociative(start, b, c);
      ok := RequestAll(d, fails);
      AppendAssociative(start, b + c, Attempted(d, fails));
    }

    /** The loop body of `performChecksAndUpdates()` for lookup number `i`. */
    method CheckLookup(i: nat, answer: LookupAnswer, fails: Action -> bool) returns (changed: bool, aborted: bool)
      modifies this
      ensures var v := VisitLookup(old(previous), i, answer, dynamicDir, fails);
        previous == v.previous && log == old(log) + v.requests && changed == v.changed && aborted == v.aborted
    {
      if answer.groups.Err? {
        return false, true;
      }
      var current := answer.groups.value;
      var previousGroups := if i in previous then previous[i] else [];
      var equivalent := HG.AreEquivalentLists(previousGroups, current);
      if equivalent.Err? {
        return false, true;
      }
      if equivalent.value {
        return false, false;
      }
      var ok := Publish(answer, current, fails);
      if ok {
        previous := previous[i := current];
      }
      return true, !ok;
    }

    /** `performChecksAndUpdates()`: one reconciliation tick over the lookups' fresh answers. */
    method PerformChecksAndUpdates(answers: seq<LookupAnswer>, fails: Action -> bool)
      modifies this
      ensures previous == Checks(old(previous), answers, dynamicDir, fails).previous
      ensures log == old(log) + TickActions(old(previous), answers, dynamicDir, restartCmd, fails)
    {
      var restart := false;
      ghost var p := Progress(old(previous), [], false, false);
      var i := 0;
      while i < |answers|
        invariant 0 <= i <= |answers|
        invariant p == Checks(old(previous), answers[..i], dynamicDir, fails)
        invariant previous == p.previous && log == old(log) + p.actions && restart == p.restart && !p.aborted
      {
        ChecksStep(old(previous), answers, i, dynamicDir, fails);
        ghost var v := VisitLookup(previous, i, answers[i], dynamicDir, fails);
        AppendAssociative(old(log), p.actions, v.requests);
        var changed, aborted := CheckLookup(i, answers[i], fails);
        p := Progress(v.previous, p.actions + v.requests, p.restart || v.changed, v.aborted);
        restart := restart || changed;
        if aborted {
          AbortedStays(old(previous), answers, i + 1, dynamicDir, fails);
          return;
        }
        i := i + 1;
      }
      assert answers[..i] == answers;
      if restart {
        AppendAssociative(old(log), p.actions, [RestartNagios(restartCmd)]);
        var _ := Request(RestartNagios(restartCmd), fails);
      }
    }
  }

  // ---------------------------------------------------------------- properties of the tick

  /** A lookup that was never published and answers no groups is not a change. */
  lemma FirstEmptyAnswerIsNoChange(previous: map<nat, seq<HG.GroupNode>>, i: nat, answer: LookupAnswer,
                                   dynamicDir: string, fails: Action -> bool)
    requires i !in previous && answer.groups == Ok([])
    ensures VisitLookup(previous, i, answer, dynamicDir, fails) == Visit(previous, [], false, false)
  {
  }

  /**
   * Groups equivalent to the snapshot make no request and keep the snapshot. The tick goes on
   * unless the comparison throws, which it cannot when every host of the snapshot has an address.
   */
  lemma EquivalentAnswerIsNoChange(previous: map<nat, seq<HG.GroupNode>>, i: nat, answer: LookupAnswer,
                                   dynamicDir: string, fails: Action -> bool)
    requires answer.groups.Ok?
    requires LE.ListsEquivalent(PreviousGroups(previous, i), answer.groups.value, HG.AreEquivalent)
    ensures var v := VisitLookup(previous, i, answer, dynamicDir, fails);
      v.previous == previous && v.requests == [] && !v.changed
    ensures VisitLookup(previous, i, answer, dynamicDir, fails).aborted
        <==> HG.ListsAsWritten(PreviousGroups(previous, i), answer.groups.value).Err?
    ensures HG.Addressed(PreviousGroups(previous, i)) ==>
      VisitLookup(previous, i, answer, dynamicDir, fails) == Visit(previous, [], false, false)
  {
    HG.ListsAsWrittenAgree(PreviousGroups(previous, i), answer.groups.value);
  }

  /**
   * A comparison that throws ends the tick at this lookup without a request, whatever the
   * groups are.
   */
  lemma ThrowingComparisonAborts(previous: map<nat, seq<HG.GroupNode>>, i: nat, answer: LookupAnswer,
                                 dynamicDir: string, fails: Action -> bool)
    requires answer.groups.Ok? && HG.ListsAsWritten(PreviousGroups(previous, i), answer.groups.value).Err?
    ensures VisitLookup(previous, i, answer, dynamicDir, fails) == Visit(previous, [], false, true)
  {
  }

  /**
   * Groups the comparison finds not equivalent to the snapshot (so they are not, and no
   * exception was thrown) are published, starting with the lookup's directory; with no failing
   * request they make exactly the publishing plan and replace the snapshot, and otherwise the
   * snapshot is kept.
   */
  lemma ChangedAnswerIsPublished(previous: map<nat, seq<HG.GroupNode>>, i: nat, answer: LookupAnswer,
                                 dynamicDir: string, fails: Action -> bool)
    requires answer.groups.Ok?
    requires HG.ListsAsWritten(PreviousGroups(previous, i), answer.groups.value) == Ok(false)
    ensures var v := VisitLookup(previous, i, answer, dynamicDir, fails);
      && v.changed && |v.requests| > 0 && v.requests[0] == RecreateDir(Child(dynamicDir, answer.name))
      && (v.aborted || v.previous == previous[i := answer.groups.value])
      && (v.aborted ==> v.previous == previous)
    ensures (forall a :: !fails(a)) && answer.resources.Some? ==>
      var v := VisitLookup(previous, i, answer, dynamicDir, fails);
      && v.requests == PublishPlan(dynamicDir, answer, answer.resources.value, answer.groups.value)
      && !v.aborted && v.previous == previous[i := answer.groups.value]
  {
    if (forall a :: !fails(a)) && answer.resources.Some? {
      var plan := PublishPlan(dynamicDir, answer, answer.resources.value, answer.groups.value);
      PublishingFollowsPlan(dynamicDir, answer, answer.groups.value, fails);
      AttemptedSplit(plan, |plan|, fails);
      assert plan[..|plan|] == plan && plan[|plan|..] == [];
    }
  }

  /** An empty answer after a published non-empty one is a change, and is published. */
  lemma EmptyAfterNonEmptyIsPublished(previous: map<nat, seq<HG.GroupNode>>, i: nat, answer: LookupAnswer,
                                      dynamicDir: string, fails: Action -> bool)
    requires i in previous && |previous[i]| > 0 && answer.groups == Ok([])
    ensures VisitLookup(previous, i, answer, dynamicDir, fails).changed
    ensures VisitLookup(previous, i, answer, dynamicDir, fails).requests[0] == RecreateDir(Child(dynamicDir, answer.name))
  {
    ChangedAnswerIsPublished(previous, i, answer, dynamicDir, fails);
  }

  /** A visit keeps the snapshots, or stores the lookup's answer as its snapshot. */
  lemma VisitKeepsOrStores(previous: map<nat, seq<HG.GroupNode>>, i: nat, answer: LookupAnswer,
                           dynamicDir: string, fails: Action -> bool)
    ensures var v := VisitLookup(previous, i, answer, dynamicDir, fails);
      v.previous == previous || (answer.groups.Ok? && v.previous == previous[i := answer.groups.value])
  {
  }

  /** Every snapshot after a tick is either the one it had before or the lookup's answer in this tick. */
  lemma {:induction false} SnapshotsComeFromAnswers(previous: map<nat, seq<HG.GroupNode>>, answers: seq<LookupAnswer>,
                                                    dynamicDir: string, fails: Action -> bool)
    ensures var r := Checks(previous, answers, dynamicDir, fails).previous;
      && previous.Keys <= r.Keys
      && forall i :: i in r ==>
           (i in previous && r[i] == previous[i]) || (i < |answers| && answers[i].groups == Ok(r[i]))
    decreases |answers|
  {
    if |answers| > 0 {
      var n := |answers| - 1;
      SnapshotsComeFromAnswers(previous, answers[..n], dynamicDir, fails);
      var p := Checks(previous, answers[..n], dynamicDir, fails);
      ChecksStep(previous, answers, n, dynamicDir, fails);
      assert answers[..n + 1] == answers;
      VisitKeepsOrStores(p.previous, n, answers[n], dynamicDir, fails);
      var r := Checks(previous, answers, dynamicDir, fails).previous;
      forall i | i in r
        ensures (i in previous && r[i] == previous[i]) || (i < |answers| && answers[i].groups == Ok(r[i]))
      {
        if i < n {
          assert answers[..n][i] == answers[i];
        }
      }
    }
  }

  /** A tick that was not aborted leaves every lookup's snapshot equivalent to its answer. */
  lemma {:induction false} TickConverges(previous: map<nat, seq<HG.GroupNode>>, answers: seq<LookupAnswer>,
                                         dynamicDir: string, fails: Action -> bool)
    requires !Checks(previous, answers, dynamicDir, fails).aborted
    ensures forall i :: 0 <= i < |answers| ==>
      (answers[i].groups.Ok? &&
       LE.ListsEquivalent(PreviousGroups(Checks(previous, answers, dynamicDir, fails).previous, i),
                          answers[i].groups.value, HG.AreEquivalent))
    decreases |answers|
  {
    if |answers| > 0 {
      var n := |answers| - 1;
      var p := Checks(previous, answers[..n], dynamicDir, fails);
      var r := Checks(previous, answers, dynamicDir, fails).previous;
      assert !p.aborted;
      TickConverges(previous, answers[..n], dynamicDir, fails);
      VisitConverges(p.previous, n, answers[n], dynamicDir, fails);
      forall i | 0 <= i < |answers|
        ensures answers[i].groups.Ok? &&
          LE.ListsEquivalent(PreviousGroups(r, i), answers[i].groups.value, HG.AreEquivalent)
      {
        if i < n {
          assert answers[..n][i] == answers[i];
        }
      }
    }
  }

  /**
   * A visit that does not abort leaves the lookup's snapshot equivalent to its answer, and every
   * other lookup's snapshot as it was.
   */
  lemma VisitConverges(previous: map<nat, seq<HG.GroupNode>>, i: nat, answer: LookupAnswer,
                       dynamicDir: string, fails: Action -> bool)
    requires !VisitLookup(previous, i, answer, dynamicDir, fails).aborted
    ensures answer.groups.Ok?
    ensures LE.ListsEquivalent(PreviousGroups(VisitLookup(previous, i, answer, dynamicDir, fails).previous, i),
                               answer.groups.value, HG.AreEquivalent)
    ensures forall j :: j != i ==>
      PreviousGroups(VisitLookup(previous, i, answer, dynamicDir, fails).previous, j) == PreviousGroups(previous, j)
  {
    HG.ListsReflexive(answer.groups.value);
    HG.ListsAsWrittenAgree(PreviousGroups(previous, i), answer.groups.value);
  }

  /** The comparison of lookup `i`'s snapshot with its fresh groups throws. */
  predicate ComparisonThrows(previous: map<nat, seq<HG.GroupNode>>, i: nat, answer: LookupAnswer) {
    answer.groups.Ok? && HG.ListsAsWritten(PreviousGroups(previous, i), answer.groups.value).Err?
  }

  /**
   * A tick whose answers are all equivalent to the snapshots requests nothing, changes no
   * snapshot and flags no restart. It is aborted exactly when comparing some lookup's snapshot
   * throws.
   */
  lemma {:induction false} QuietTick(previous: map<nat, seq<HG.GroupNode>>, answers: seq<LookupAnswer>,
                                     dynamicDir: string, fails: Action -> bool)
    requires forall i :: 0 <= i < |answers| ==>
      (answers[i].groups.Ok? &&
       LE.ListsEquivalent(PreviousGroups(previous, i), answers[i].groups.value, HG.AreEquivalent))
    ensures var p := Checks(previous, answers, dynamicDir, fails);
      p.previous == previous && p.actions == [] && !p.restart
    ensures Checks(previous, answers, dynamicDir, fails).aborted <==>
      exists i :: 0 <= i < |answers| && ComparisonThrows(previous, i, answers[i])
    decreases |answers|
  {
    if |answers| > 0 {
      var n := |answers| - 1;
      forall i | 0 <= i < n
        ensures answers[..n][i].groups.Ok? &&
          LE.ListsEquivalent(PreviousGroups(previous, i), answers[..n][i].groups.value, HG.AreEquivalent)
      {
        assert answers[..n][i] == answers[i];
      }
      QuietTick(previous, answers[..n], dynamicDir, fails);
      EquivalentAnswerIsNoChange(previous, n, answers[n], dynamicDir, fails);
      ThrowsSomewhereStep(previous, answers, n);
    }
  }

  /** Some lookup of the first `n + 1` throws when some lookup of the first `n` does, or lookup `n` does. */
  lemma ThrowsSomewhereStep(previous: map<nat, seq<HG.GroupNode>>, answers: seq<LookupAnswer>, n: nat)
    requires n < |answers| && n == |answers| - 1
    ensures (exists i :: 0 <= i < |answers| && ComparisonThrows(previous, i, answers[i])) <==>
      (exists i :: 0 <= i < n && ComparisonThrows(previous, i, answers[..n][i])) || ComparisonThrows(previous, n, answers[n])
  {
    if exists i :: 0 <= i < n && ComparisonThrows(previous, i, answers[..n][i]) {
      var i :| 0 <= i < n && ComparisonThrows(previous, i, answers[..n][i]);
      assert answers[..n][i] == answers[i];
    }
    if exists i :: 0 <= i < |answers| && ComparisonThrows(previous, i, answers[i]) {
      var i :| 0 <= i < |answers| && ComparisonThrows(previous, i, answers[i]);
      if i < n {
        assert answers[..n][i] == answers[i];
      }
    }
  }

  /**
   * When every host of every snapshot has an address, a tick whose answers are all equivalent
   * to the snapshots goes through every lookup and leaves everything as it was.
   */
  lemma AddressedQuietTick(previous: map<nat, seq<HG.GroupNode>>, answers: seq<LookupAnswer>,
                           dynamicDir: string, fails: Action -> bool)
    requires forall i :: 0 <= i < |answers| ==>
      (answers[i].groups.Ok? &&
       LE.ListsEquivalent(PreviousGroups(previous, i), answers[i].groups.value, HG.AreEquivalent))
    requires forall i :: 0 <= i < |answers| ==> HG.Addressed(PreviousGroups(previous, i))
    ensures Checks(previous, answers, dynamicDir, fails) == Progress(previous, [], false, false)
  {
    QuietTick(previous, answers, dynamicDir, fails);
    forall i | 0 <= i < |answers| ensures !ComparisonThrows(previous, i, answers[i]) {
      HG.ListsAsWrittenAgree(PreviousGroups(previous, i), answers[i].groups.value);
    }
  }

  /**
   * Running a completed tick again on the same answers requests nothing and changes nothing,
   * whatever fails; it is aborted, skipping the lookups after the first, exactly when comparing
   * some lookup's snapshot throws.
   */
  lemma RepeatedTickIsQuiet(previous: map<nat, seq<HG.GroupNode>>, answers: seq<LookupAnswer>, dynamicDir: string,
                            restartCmd: string, fails: Action -> bool, failsAgain: Action -> bool)
    requires !Checks(previous, answers, dynamicDir, fails).aborted
    ensures var after := Checks(previous, answers, dynamicDir, fails).previous;
      && TickActions(after, answers, dynamicDir, restartCmd, failsAgain) == []
      && Checks(after, answers, dynamicDir, failsAgain).previous == after
    ensures var after := Checks(previous, answers, dynamicDir, fails).previous;
      Checks(after, answers, dynamicDir, failsAgain).aborted <==>
        exists i :: 0 <= i < |answers| && ComparisonThrows(after, i, answers[i])
  {
    TickConverges(previous, answers, dynamicDir, fails);
    QuietTick(Checks(previous, answers, dynamicDir, fails).previous, answers, dynamicDir, failsAgain);
  }

  /**
   * A lookup whose snapshot is a group whose first host has no address, and which answers that
   * group again, throws in the comparison: the tick ends there, the later lookups are not
   * visited and Nagios is not restarted, on every tick for as long as the answer stays.
   */
  lemma AddresslessSnapshotStallsTick(previous: map<nat, seq<HG.GroupNode>>, answers: seq<LookupAnswer>, k: int,
                                      g: HG.GroupNode, dynamicDir: string, restartCmd: string, fails: Action -> bool)
    requires 0 <= k < |answers| && k in previous && previous[k] == [g]
    requires |g.hosts| > 0 && g.hosts[0].address.None? && answers[k].groups == Ok([g])
    requires !Checks(previous, answers[..k], dynamicDir, fails).aborted
    ensures var before := Checks(previous, answers[..k], dynamicDir, fails);
      && Checks(previous, answers, dynamicDir, fails) == before.(aborted := true)
      && TickActions(previous, answers, dynamicDir, restartCmd, fails) == before.actions
  {
    var before := Checks(previous, answers[..k], dynamicDir, fails);
    SnapshotsComeFromAnswers(previous, answers[..k], dynamicDir, fails);
    assert PreviousGroups(before.previous, k) == [g];
    HG.AddresslessGroupThrows(g);
    ChecksStep(previous, answers, k, dynamicDir, fails);
    AbortedStays(previous, answers, k + 1, dynamicDir, fails);
  }

  /**
   * An exception from lookup `k` ends the tick there: the later lookups are not visited, the
   * snapshots stored before it stay, and Nagios is not restarted.
   */
  lemma AbortSkipsTheRest(previous: map<nat, seq<HG.GroupNode>>, answers: seq<LookupAnswer>, k: int, dynamicDir: string,
                          restartCmd: string, fails: Action -> bool)
    requires 0 <= k < |answers| && answers[k].groups.Err?
    requires !Checks(previous, answers[..k], dynamicDir, fails).aborted
    ensures var before := Checks(previous, answers[..k], dynamicDir, fails);
      && Checks(previous, answers, dynamicDir, fails) == before.(aborted := true)
      && TickActions(previous, answers, dynamicDir, restartCmd, fails) == before.actions
  {
    ChecksStep(previous, answers, k, dynamicDir, fails);
    AbortedStays(previous, answers, k + 1, dynamicDir, fails);
  }

  /**
   * Publishing a lookup starts by recreating its directory and never restarts Nagios.
   */
  lemma PublishingShape(dynamicDir: string, answer: LookupAnswer, current: seq<HG.GroupNode>, fails: Action -> bool)
    ensures var r := Publishing(dynamicDir, answer, current, fails).requests;
      |r| > 0 && r[0].RecreateDir? && forall k :: 0 <= k < |r| ==> !r[k].RestartNagios?
  {
    var dir := Child(dynamicDir, answer.name);
    if !fails(RecreateDir(dir)) && answer.resources.Some? {
      var b := ResourceActions(dir, answer.resources.value);
      var c := [WriteCommands(Child(dir, "commands.cfg"), answer.commands(GetPath(dir)))];
      var d := GroupActions(dir, current);
      AttemptedPrefix(b, fails);
      AttemptedPrefix(c, fails);
      AttemptedPrefix(d, fails);
    }
  }

  /** No request in the sequence is a restart. */
  predicate NoRestart(actions: seq<Action>) {
    forall k :: 0 <= k < |actions| ==> !actions[k].RestartNagios?
  }

  /** Some request in the sequence recreates a lookup directory. */
  predicate RecreatesSome(actions: seq<Action>) {
    exists k :: 0 <= k < |actions| && actions[k].RecreateDir?
  }

  lemma AppendFlags(a: seq<Action>, b: seq<Action>)
    ensures NoRestart(a + b) <==> NoRestart(a) && NoRestart(b)
    ensures RecreatesSome(a + b) <==> RecreatesSome(a) || RecreatesSome(b)
  {
    if RecreatesSome(a) {
      var k :| 0 <= k < |a| && a[k].RecreateDir?;
      assert (a + b)[k] == a[k];
    }
    if RecreatesSome(b) {
      var k :| 0 <= k < |b| && b[k].RecreateDir?;
      assert (a + b)[|a| + k] == b[k];
    }
    if RecreatesSome(a + b) {
      var k :| 0 <= k < |a + b| && (a + b)[k].RecreateDir?;
      if k < |a| { assert a[k] == (a + b)[k]; } else { assert b[k - |a|] == (a + b)[k]; }
    }
    if NoRestart(a + b) {
      forall k | 0 <= k < |b| ensures !b[k].RestartNagios? { assert (a + b)[|a| + k] == b[k]; }
      forall k | 0 <= k < |a| ensures !a[k].RestartNagios? { assert (a + b)[k] == a[k]; }
    }
    if NoRestart(a) && NoRestart(b) {
      forall k | 0 <= k < |a + b| ensures !(a + b)[k].RestartNagios? {
        if k >= |a| { assert (a + b)[k] == b[k - |a|]; }
      }
    }
  }

  /** A visit requests nothing unless it changed, then starts by recreating a directory; it never restarts. */
  lemma VisitShape(previous: map<nat, seq<HG.GroupNode>>, i: nat, answer: LookupAnswer,
                   dynamicDir: string, fails: Action -> bool)
    ensures var v := VisitLookup(previous, i, answer, dynamicDir, fails);
      && NoRestart(v.requests)
      && (RecreatesSome(v.requests) <==> v.changed)
  {
    var v := VisitLookup(previous, i, answer, dynamicDir, fails);
    if v.changed {
      PublishingShape(dynamicDir, answer, answer.groups.value, fails);
      assert v.requests[0].RecreateDir?;
    }
  }

  /** The loop requests no restart, and it flags one exactly when it recreated some lookup directory. */
  lemma {:induction false} ChecksRestartFlag(previous: map<nat, seq<HG.GroupNode>>, answers: seq<LookupAnswer>,
                                             dynamicDir: string, fails: Action -> bool)
    ensures var p := Checks(previous, answers, dynamicDir, fails);
      NoRestart(p.actions) && (p.restart <==> RecreatesSome(p.actions))
    decreases |answers|
  {
    if |answers| > 0 {
      var n := |answers| - 1;
      var p := Checks(previous, answers[..n], dynamicDir, fails);
      ChecksRestartFlag(previous, answers[..n], dynamicDir, fails);
      ChecksStep(previous, answers, n, dynamicDir, fails);
      assert answers[..n + 1] == answers;
      if !p.aborted {
        var v := VisitLookup(p.previous, n, answers[n], dynamicDir, fails);
        VisitShape(p.previous, n, answers[n], dynamicDir, fails);
        AppendFlags(p.actions, v.requests);
      }
    }
  }

  /**
   * The restart is requested at most once, as the tick's last request, and exactly when the tick
   * was not aborted and recreated some lookup directory, that is when some lookup changed.
   */
  lemma RestartAtMostOnce(previous: map<nat, seq<HG.GroupNode>>, answers: seq<LookupAnswer>, dynamicDir: string,
                          restartCmd: string, fails: Action -> bool)
    ensures var r := TickActions(previous, answers, dynamicDir, restartCmd, fails);
      forall k :: 0 <= k < |r| && r[k].RestartNagios? ==> k == |r| - 1
    ensures var r := TickActions(previous, answers, dynamicDir, restartCmd, fails);
      var p := Checks(previous, answers, dynamicDir, fails);
      !NoRestart(r) <==> !p.aborted && RecreatesSome(p.actions)
  {
    var p := Checks(previous, answers, dynamicDir, fails);
    var r := TickActions(previous, answers, dynamicDir, restartCmd, fails);
    ChecksRestartFlag(previous, answers, dynamicDir, fails);
    if p.restart && !p.aborted {
      assert r[|r| - 1].RestartNagios?;
    }
  }

  // ---------------------------------------------------------------- helper lemmas

  /** The requests made are a prefix of the ones planned. */
  lemma {:induction false} AttemptedPrefix(actions: seq<Action>, fails: Action -> bool)
    ensures Attempted(actions, fails) <= actions
  {
    if |actions| > 0 && !fails(actions[0]) {
      AttemptedPrefix(actions[1..], fails);
      assert [actions[0]] + actions[1..] == actions;
    }
  }

  lemma {:induction false} AttemptedSplit(actions: seq<Action>, i: int, fails: Action -> bool)
    requires 0 <= i <= |actions| && Succeeded(actions[..i], fails)
    ensures Attempted(actions, fails) == actions[..i] + Attempted(actions[i..], fails)
  {
    if i > 0 {
      assert !fails(actions[..i][0]);
      assert actions[1..][..i - 1] == actions[..i][1..];
      AttemptedSplit(actions[1..], i - 1, fails);
      assert actions[1..][i - 1..] == actions[i..];
      assert [actions[0]] + actions[1..][..i - 1] == actions[..i];
    } else {
      assert actions[i..] == actions;
    }
  }

  lemma {:induction false} AttemptedAppend(a: seq<Action>, b: seq<Action>, fails: Action -> bool)
    ensures Attempted(a + b, fails) == if Succeeded(a, fails) then a + Attempted(b, fails) else Attempted(a, fails)
  {
    if |a| == 0 {
      assert a + b == b;
    } else {
      var x, rest := a[0], a[1..];
      assert a == [x] + rest;
      assert (a + b)[0] == x && (a + b)[1..] == rest + b;
      SucceededAppend([x], rest, fails);
      assert Succeeded([x], fails) <==> !fails(x);
      if !fails(x) {
        AttemptedAppend(rest, b, fails);
        assert [x] + (rest + Attempted(b, fails)) == a + Attempted(b, fails);
      }
    }
  }

  /** Running three phases in order makes the requests of running them as one sequence. */
  lemma PhasesRequests(b: seq<Action>, c: seq<Action>, d: seq<Action>, fails: Action -> bool)
    ensures Attempted(b + c + d, fails) == InPhases(b, c, d, fails).requests
  {
    var cd := c + d;
    AppendAssociative(b, c, d);
    AttemptedAppend(b, cd, fails);
    if Succeeded(b, fails) {
      AttemptedAppend(c, d, fails);
      if Succeeded(c, fails) {
        AppendAssociative(b, c, Attempted(d, fails));
      }
    }
  }

  /** Three phases complete exactly when none of their requests fails. */
  lemma PhasesComplete(b: seq<Action>, c: seq<Action>, d: seq<Action>, fails: Action -> bool)
    ensures Succeeded(b + c + d, fails) == InPhases(b, c, d, fails).completed
  {
    SucceededAppend(b + c, d, fails);
    SucceededAppend(b, c, fails);
  }

  /** Carrying out a sequence of requests succeeds exactly when none of them fails. */
  lemma {:induction false} AttemptedSucceeded(actions: seq<Action>, fails: Action -> bool)
    ensures Succeeded(Attempted(actions, fails), fails) <==> Succeeded(actions, fails)
  {
    if |actions| > 0 && !fails(actions[0]) {
      AttemptedSucceeded(actions[1..], fails);
      SucceededAppend([actions[0]], actions[1..], fails);
      SucceededAppend([actions[0]], Attempted(actions[1..], fails), fails);
      assert [actions[0]] + actions[1..] == actions;
    }
  }

  lemma SucceededAppend(a: seq<Action>, b: seq<Action>, fails: Action -> bool)
    ensures Succeeded(a + b, fails) <==> Succeeded(a, fails) && Succeeded(b, fails)
  {
    if Succeeded(a, fails) && Succeeded(b, fails) {
      forall k | 0 <= k < |a + b| ensures !fails((a + b)[k]) {
        if k >= |a| { assert (a + b)[k] == b[k - |a|]; }
      }
    }
    if Succeeded(a + b, fails) {
      forall k | 0 <= k < |a| ensures !fails(a[k]) {
        assert (a + b)[k] == a[k];
      }
      forall k | 0 <= k < |b| ensures !fails(b[k]) {
        assert (a + b)[|a| + k] == b[k];
      }
    }
  }

  lemma AppendAssociative(a: seq<Action>, b: seq<Action>, c: seq<Action>)
    ensures a + b + c == a + (b + c)
  {
  }

  /** The loop over the first `i + 1` lookups is the loop over the first `i`, then one more body. */
  lemma ChecksStep(previous: map<nat, seq<HG.GroupNode>>, answers: seq<LookupAnswer>, i: int,
                   dynamicDir: string, fails: Action -> bool)
    requires 0 <= i < |answers|
    ensures var p := Checks(previous, answers[..i], dynamicDir, fails);
      Checks(previous, answers[..i + 1], dynamicDir, fails)
        == if p.aborted then p else Check(p, i, answers[i], dynamicDir, fails)
  {
    assert answers[..i + 1][..i] == answers[..i];
  }

  /** Once a tick is aborted, the remaining lookups change nothing. */
  lemma {:induction false} AbortedStays(previous: map<nat, seq<HG.GroupNode>>, answers: seq<LookupAnswer>, j: int,
                                        dynamicDir: string, fails: Action -> bool)
    requires 0 <= j <= |answers|
    requires Checks(previous, answers[..j], dynamicDir, fails).aborted
    ensures Checks(previous, answers, dynamicDir, fails) == Checks(previous, answers[..j], dynamicDir, fails)
    decreases |answers| - j
  {
    if j < |answers| {
      assert answers[..j + 1][..j] == answers[..j];
      AbortedStays(previous, answers, j + 1, dynamicDir, fails);
    } else {
      assert answers[..j] == answers;
    }
  }
}
