/**
 The traffic switch: writes a deploy configuration for a tag, waits for it to be healthy, and
 removes the old tag's configurations. Maps are ranged over in any order, and each write and
 health verdict is the environment's choice.
 */
module Traffic {
  import opened Wrappers
  import opened Strings
  import opened Traefik
  import opened Urls

  const DYNAMIC_PATH := "/etc/traefik/config/dynamic"

  // filepath.Join of the directory and a file name.
  function PathOf(name: string): string { DYNAMIC_PATH + "/" + name }

  // The path that the removal uses: the directory and the name with no separator between them.
  function RemovalPathOf(name: string): string { DYNAMIC_PATH + name }

  function DeployName(tag: string): string { tag + "-deploy.yml" }

  datatype Verdict = Received(healthy: bool) | Cancelled | TimedOut

  datatype Effect =
    | Wrote(name: string, ok: bool)
    | Gated(key: string, config: ConfigValue, verdict: Verdict)
    | RemoveCalled(path: string)

  // Traefik's directory, by file name, and what was done to it, oldest first.
  class Host {
    var files: map<string, ConfigValue>
    var log: seq<Effect>

    // No name in a directory holds a separator.
    predicate Valid()
      reads this
    {
      forall name | name in files :: '/' !in name
    }

    constructor (files: map<string, ConfigValue>)
      ensures this.files == files && log == []
    {
      this.files, log := files, [];
    }

    // os.WriteFile to the directory; when it fails the file may be left in any state.
    method WriteFile(name: string, content: ConfigValue) returns (ok: bool)
      modifies this
      ensures log == old(log) + [Wrote(name, ok)]
      ensures ok ==> files == old(files)[name := content]
      ensures OnlyFileChanged(old(files), files, name)
    {
      ok := *;
      log := log + [Wrote(name, ok)];
      if ok {
        files := files[name := content];
      } else {
        var garbage: Option<ConfigValue> := *;
        files := if garbage.Some? then files[name := garbage.value] else files - {name};
      }
    }

    // os.Remove, whose error the source drops. It reaches a file of the directory only under
    // that file's path.
    method Remove(path: string)
      modifies this
      ensures log == old(log) + [RemoveCalled(path)]
      ensures files != old(files) ==> exists name :: PathOf(name) == path && files == old(files) - {name}
    {
      log := log + [RemoveCalled(path)];
      var ok: bool := *;
      if ok && |DYNAMIC_PATH| < |path| && PathOf(path[|DYNAMIC_PATH| + 1..]) == path {
        files := files - {path[|DYNAMIC_PATH| + 1..]};
      }
    }

    // waitForHealthy on this configuration, and the select over its answer.
    method AwaitVerdict(key: string, config: ConfigValue) returns (verdict: Verdict)
      modifies this`log
      ensures log == old(log) + [Gated(key, config, verdict)]
    {
      verdict := *;
      log := log + [Gated(key, config, verdict)];
    }
  }

  datatype Problem = Invalid | BadURL | WriteFailed

  datatype CreateResult = Created | Failed(problem: Problem) | CreatePanicked

  datatype DeployError =
    EmptyTag | NilState | AlreadyDeployed | NotCreated(problem: Problem) | Unhealthy | DeployCancelled | DeployTimedOut

  // Done is a return of nil; Panicked is a nil pointer dereference on the way.
  datatype DeployResult = Done | Error(error: DeployError) | Panicked

  // The returns before anything is looked at; None when the deploy goes on.
  function Guard(stateTag: Option<string>, tag: string): Option<DeployResult> {
    if tag == "" then Some(Error(EmptyTag))
    else if stateTag.None? then Some(Error(NilState))
    else if stateTag.value == tag then Some(Done)
    else None
  }

  predicate HasServices(c: ConfigValue) { c.http.Some? && c.http.value.services.Some? }

  predicate HasLoadBalancers(c: ConfigValue)
    requires HasServices(c)
  {
    forall k | k in c.http.value.services.value :: c.http.value.services.value[k].loadBalancer.Some?
  }

  predicate ServersParse(s: ServiceValue) {
    s.loadBalancer.Some? ==>
      forall i | 0 <= i < |s.loadBalancer.value.servers| :: ParseURL(s.loadBalancer.value.servers[i].url).Some?
  }

  predicate URLsParse(c: ConfigValue)
    requires HasServices(c)
  {
    forall k | k in c.http.value.services.value :: ServersParse(c.http.value.services.value[k])
  }

  // What createDeployConfigs needs of a configuration.
  predicate Ready(c: ConfigValue) { HasServices(c) && HasLoadBalancers(c) && URLsParse(c) }

  // A configuration is fit exactly when it has services, each of them a load balancer, and each of
  // its servers a URL of a host and a port.
  lemma ReadyIff(c: ConfigValue)
    ensures Ready(c) <==>
            && c.http.Some? && c.http.value.services.Some?
            && forall k | k in c.http.value.services.value ::
                 var lb := c.http.value.services.value[k].loadBalancer;
                 lb.Some? && forall server <- lb.value.servers :: exists host, port :: IsServerURL(server.url, host, port)
  {
    forall url: string ensures ParseURL(url).Some? <==> exists host, port :: IsServerURL(url, host, port) {
      URLParsesIff(url);
    }
  }

  lemma URLParsesIff(url: string)
    ensures ParseURL(url).Some? <==> exists host, port :: IsServerURL(url, host, port)
  {
    if ParseURL(url).Some? { ParsesIff(url, ParseURL(url).value.0, ParseURL(url).value.1); }
    if host, port :| IsServerURL(url, host, port) { ParsesIff(url, host, port); }
  }

  // The names that createDeployConfigs does not skip.
  function Selected(loaded: map<string, ConfigValue>, tag: string): set<string> {
    set name | name in loaded && !HasSuffix(name, DeployName(tag))
  }

  predicate AllReady(loaded: map<string, ConfigValue>, tag: string) {
    forall name | name in Selected(loaded, tag) :: Ready(loaded[name])
  }

  // The files whose names end with the deploy name of a tag.
  function DeployFiles(loaded: map<string, ConfigValue>, tag: string): set<string> {
    set name | name in loaded && HasSuffix(name, DeployName(tag))
  }

  // Why a configuration makes createDeployConfigs stop.
  predicate Explains(c: ConfigValue, r: CreateResult) {
    match r
    case Failed(Invalid) => !HasServices(c)
    case Failed(BadURL) => HasServices(c) && !URLsParse(c)
    case CreatePanicked => HasServices(c) && !HasLoadBalancers(c)
    case _ => false
  }

  // Other files are as they were.
  predicate OnlyFileChanged(before: map<string, ConfigValue>, after: map<string, ConfigValue>, name: string) {
    before - {name} == after - {name}
  }

  // Every file is still there as it was, and at most this one is new.
  predicate Extends(before: map<string, ConfigValue>, after: map<string, ConfigValue>, name: string) {
    && (forall file | file in before :: file in after && after[file] == before[file])
    && (forall file | file in after :: file in before || file == name)
  }

  function RemovalCalls(names: seq<string>): seq<Effect> {
    seq(|names|, i requires 0 <= i < |names| => RemoveCalled(RemovalPathOf(names[i])))
  }

  // This file was written, some number of times; every write worked, but perhaps the last.
  predicate OnlyWrote(before: seq<Effect>, after: seq<Effect>, name: string) {
    && before <= after && (forall i | |before| <= i < |after| :: after[i].Wrote? && after[i].name == name)
    && (forall i | |before| <= i < |after| - 1 :: after[i].ok)
  }

  predicate LastWriteFailed(before: seq<Effect>, after: seq<Effect>) {
    |before| < |after| && after[|after| - 1].Wrote? && !after[|after| - 1].ok
  }

  // Whether each of these writes worked.
  ghost function Results(tag: string, before: seq<Effect>, after: seq<Effect>): (writes: seq<bool>)
    requires OnlyWrote(before, after, DeployName(tag))
    ensures after == before + Writes(tag, writes) && forall i | 0 <= i < |writes| - 1 :: writes[i]
    ensures writes != [] && !writes[|writes| - 1] <==> LastWriteFailed(before, after)
  {
    seq(|after| - |before|, i requires 0 <= i < |after| - |before| => after[|before| + i].ok)
  }

  // A health gate: the configuration whose servers were checked, and the verdict.
  datatype Gate = Gate(config: ConfigValue, verdict: Verdict)

  // What a deploy did: first the writes of the new file, each with whether it worked, then the gates
  // it waited for, then the removals.
  datatype Switch = Switch(writes: seq<bool>, gates: seq<Gate>, removed: seq<string>)

  function Nothing(): Switch { Switch([], [], []) }

  function Writes(tag: string, writes: seq<bool>): seq<Effect> {
    seq(|writes|, i requires 0 <= i < |writes| => Wrote(DeployName(tag), writes[i]))
  }

  function Gates(tag: string, gates: seq<Gate>): seq<Effect> {
    seq(|gates|, i requires 0 <= i < |gates| => Gated(tag + ".yml", gates[i].config, gates[i].verdict))
  }

  function Effects(tag: string, s: Switch): seq<Effect> {
    Writes(tag, s.writes) + Gates(tag, s.gates) + RemovalCalls(s.removed)
  }

  lemma EffectsInOrder(log: seq<Effect>, tag: string, s: Switch)
    ensures log + Effects(tag, s) == log + Writes(tag, s.writes) + Gates(tag, s.gates) + RemovalCalls(s.removed)
    ensures RemovalCalls([]) == [] && Gates(tag, []) == []
    ensures log + Writes(tag, s.writes) + [] + [] == log + Writes(tag, s.writes)
  {
  }

  function GateError(v: Verdict): Option<DeployError> {
    match v
    case Received(healthy) => if healthy then None else Some(Unhealthy)
    case Cancelled => Some(DeployCancelled)
    case TimedOut => Some(DeployTimedOut)
  }

  predicate HoldsOneOf(loaded: map<string, ConfigValue>, files: map<string, ConfigValue>, file: string) {
    file in files && exists name :: name in loaded && files[file] == loaded[name]
  }

  // One gate was waited for, with this verdict.
  predicate OneGate(s: Switch, verdict: Verdict) { |s.gates| == 1 && s.gates[0].verdict == verdict }

  // What every deploy that passes the guard keeps to, whatever the environment does.
  predicate SafeSwitch(loaded: map<string, ConfigValue>, oldTag: string, tag: string, r: DeployResult, s: Switch) {
    // Nothing is removed before the one deploy configuration was found healthy, and the new
    // file never.
    && (s.removed != [] ==> OneGate(s, Received(true)))
    && (forall name | name in s.removed :: name in DeployFiles(loaded, oldTag) && !HasSuffix(name, DeployName(tag)))
    && (r == Done ==>
          AllReady(loaded, tag) && DeployFiles(loaded, tag) == {} &&
          (if loaded == map[] then s.gates == [] else OneGate(s, Received(true))) &&
          forall name | name in DeployFiles(loaded, oldTag) :: name in s.removed)
    && (r != Done ==> s.removed == [])
    && (r == Error(AlreadyDeployed) <==> DeployFiles(loaded, tag) != {})
    && (r == Error(AlreadyDeployed) ==> s == Nothing())
    // A gate error is that of the one verdict received; the other errors come before any gate.
    && (r == Error(Unhealthy) <==> OneGate(s, Received(false)))
    && (r == Error(DeployCancelled) <==> OneGate(s, Cancelled))
    && (r == Error(DeployTimedOut) <==> OneGate(s, TimedOut))
    // Writing goes on while the writes work, and a write that fails ends the deploy.
    && (forall i | 0 <= i < |s.writes| - 1 :: s.writes[i])
    && (r == Error(NotCreated(WriteFailed)) <==> s.writes != [] && !s.writes[|s.writes| - 1])
    && (r.Panicked? || (r.Error? && r.error.NotCreated?) ==> s.gates == [])
    && (r == Panicked ==> !AllReady(loaded, tag))
    && (r.Error? && r.error.NotCreated? && r.error.problem != WriteFailed ==> !AllReady(loaded, tag))
    && r != Error(EmptyTag) && r != Error(NilState)
  }

  // Of a switch past the guard, what it left in the directory. Unless a write failed, either
  // nothing was written and nothing changed, or the new file holds a configuration as loaded, and
  // that one is what a gate checks.
  predicate LeavesFiles(loaded: map<string, ConfigValue>, tag: string, before: map<string, ConfigValue>,
                        after: map<string, ConfigValue>, r: DeployResult, s: Switch)
  {
    && (r != Error(NotCreated(WriteFailed)) ==>
          if s.writes == [] then after == before else HoldsOneOf(loaded, after, DeployName(tag)))
    && (r == Done ==> (s.writes == [] <==> loaded == map[]))
    && (s.gates != [] ==> s.writes != [] && DeployName(tag) in after && after[DeployName(tag)] == s.gates[0].config)
  }

  // All that Deploy promises of its result, of what it did, and of the directory's files.
  predicate Switched(loaded: map<string, ConfigValue>, stateTag: Option<string>, tag: string,
                     before: map<string, ConfigValue>, after: map<string, ConfigValue>, r: DeployResult, s: Switch)
  {
    && OnlyFileChanged(before, after, DeployName(tag))
    && (r == Error(EmptyTag) <==> tag == "")
    && (r == Error(NilState) <==> tag != "" && stateTag.None?)
    && (tag != "" && stateTag == Some(tag) ==> r == Done)
    && match Guard(stateTag, tag)
       case Some(answer) => r == answer && s == Nothing() && after == before
       case None => SafeSwitch(loaded, stateTag.value, tag, r, s) && LeavesFiles(loaded, tag, before, after, r, s)
  }

  // When a switch leaves the directory that was loaded as it was: at the guard, when there is
  // nothing to switch, when the tag is already there, and when creating the new file failed before
  // a write. A failed write leaves what it leaves; a switch that got to a gate never does.
  predicate Unchanging(oldTag: string, tag: string, before: map<string, ConfigValue>, after: map<string, ConfigValue>,
                       r: DeployResult, writes: nat)
  {
    Guard(Some(oldTag), tag).Some? ||
    match r
    case Done => before == map[]
    case Panicked => writes == 0
    case Error(AlreadyDeployed) => true
    case Error(NotCreated(WriteFailed)) => DeployName(tag) !in after
    case Error(NotCreated(_)) => writes == 0
    case Error(_) => false
  }

  // What a deploy can rely on of a switch, without what the configurations hold.
  predicate Rerouted(configs: map<string, ConfigValue>, oldTag: string, tag: string,
                     before: map<string, ConfigValue>, after: map<string, ConfigValue>, r: DeployResult, writes: nat)
  {
    && OnlyFileChanged(before, after, DeployName(tag))
    && (match Guard(Some(oldTag), tag)
        case Some(answer) => r == answer && after == before
        case None => r == Error(AlreadyDeployed) <==> DeployFiles(configs, tag) != {})
    && (r == Error(AlreadyDeployed) ==> after == before)
    && (configs == before ==> (after == before <==> Unchanging(oldTag, tag, before, after, r, writes)))
  }

  // The tag's own file is one of its deploy files.
  lemma OwnDeployFile(files: map<string, ConfigValue>, tag: string)
    requires DeployFiles(files, tag) == {}
    ensures DeployName(tag) !in files
  {
    assert HasSuffix(DeployName(tag), DeployName(tag));
    assert DeployName(tag) !in DeployFiles(files, tag);
  }

  lemma AbsentOrChanged(before: map<string, ConfigValue>, after: map<string, ConfigValue>, name: string)
    requires OnlyFileChanged(before, after, name) && name !in before
    ensures after == before <==> name !in after
  {
    if name !in after {
      assert after == after - {name} && before == before - {name};
    }
  }

  lemma SwitchReroutes(configs: map<string, ConfigValue>, oldTag: string, tag: string,
                       before: map<string, ConfigValue>, after: map<string, ConfigValue>, r: DeployResult, s: Switch)
    requires Switched(configs, Some(oldTag), tag, before, after, r, s)
    ensures Rerouted(configs, oldTag, tag, before, after, r, |s.writes|)
  {
    if configs == before && Guard(Some(oldTag), tag).None? && r != Error(AlreadyDeployed) {
      OwnDeployFile(configs, tag);
      AbsentOrChanged(before, after, DeployName(tag));
    }
  }

  // A switch of the directory that was loaded changes no file that was there, and adds at most its
  // own. Where the tag's file was there, only the state's own tag gets past the switch; where it was
  // not, getting past with another tag has added it, unless there was nothing to switch.
  lemma SwitchAddsAtMostOnce(oldTag: string, tag: string, before: map<string, ConfigValue>,
                             after: map<string, ConfigValue>, r: DeployResult, writes: nat)
    requires Rerouted(before, oldTag, tag, before, after, r, writes)
    ensures Extends(before, after, DeployName(tag))
    ensures DeployName(tag) in before && tag != "" && tag != oldTag ==> r == Error(AlreadyDeployed) && after == before
    ensures r == Done && tag != oldTag && before != map[] ==> DeployName(tag) !in before && DeployName(tag) in after
  {
    if DeployName(tag) in before {
      if DeployFiles(before, tag) == {} { OwnDeployFile(before, tag); }
    } else {
      AbsentOrChanged(before, after, DeployName(tag));
      assert before == before - {DeployName(tag)};
    }
  }

  // What is checked before the old configurations are retired: with these services, in any order,
  // of the configuration that the gate was given, the servers of one loaded configuration under
  // the URLs they were loaded with, and no other.
  lemma GateChecksOneConfiguration(
    loaded: map<string, ConfigValue>, oldTag: string, tag: string, before: map<string, ConfigValue>,
    after: map<string, ConfigValue>, r: DeployResult, s: Switch, services: seq<ServiceValue>) returns (name: string)
    requires Switched(loaded, Some(oldTag), tag, before, after, r, s) && s.gates != []
    requires HasServices(s.gates[0].config)
    requires forall v :: v in services <==> v in s.gates[0].config.http.value.services.value.Values
    ensures name in loaded && HasServices(loaded[name]) && after[DeployName(tag)] == loaded[name]
    ensures forall t :: t in HealthTargets(services) <==>
                        exists v :: v in loaded[name].http.value.services.value.Values && IsTarget(v, t)
  {
    name :| name in loaded && after[DeployName(tag)] == loaded[name];
    forall t
      ensures t in HealthTargets(services) <==>
              exists v :: v in loaded[name].http.value.services.value.Values && IsTarget(v, t)
    {
      HealthTargetsHas(services, t);
    }
  }

  // A switch adds no name with a separator.
  lemma SwitchKeepsNames(before: map<string, ConfigValue>, after: map<string, ConfigValue>, tag: string)
    requires OnlyFileChanged(before, after, DeployName(tag)) && '/' !in tag
    requires forall name | name in before :: '/' !in name
    ensures forall name | name in after :: '/' !in name
  {
    forall name | name in after ensures '/' !in name {
      if name != DeployName(tag) { assert name in after - {DeployName(tag)}; }
    }
  }

  lemma NothingSkipped(loaded: map<string, ConfigValue>, tag: string)
    requires DeployFiles(loaded, tag) == {}
    ensures Selected(loaded, tag) == loaded.Keys
  {
    assert forall name | name in loaded :: name !in DeployFiles(loaded, tag);
  }

  lemma StoppedIsSafe(loaded: map<string, ConfigValue>, oldTag: string, tag: string, r: DeployResult, s: Switch)
    requires DeployFiles(loaded, tag) == {} && s.removed == [] && forall i | 0 <= i < |s.writes| - 1 :: s.writes[i]
    requires r == Error(NotCreated(WriteFailed)) <==> s.writes != [] && !s.writes[|s.writes| - 1]
    requires (r == Panicked && !AllReady(loaded, tag) && s.gates == []) ||
             (r.Error? && r.error.NotCreated? && s.gates == [] &&
              (r.error.problem != WriteFailed ==> !AllReady(loaded, tag))) ||
             (r.Error? && |s.gates| == 1 && GateError(s.gates[0].verdict) == Some(r.error))
    ensures SafeSwitch(loaded, oldTag, tag, r, s)
  {
  }

  lemma DoneIsSafe(loaded: map<string, ConfigValue>, oldTag: string, tag: string, s: Switch)
    requires DeployFiles(loaded, tag) == {} && AllReady(loaded, tag) && forall i | 0 <= i < |s.writes| :: s.writes[i]
    requires if loaded.Keys == {} then s.gates == [] else OneGate(s, Received(true))
    requires forall name :: name in s.removed <==> name in DeployFiles(loaded, oldTag)
    ensures SafeSwitch(loaded, oldTag, tag, Done, s)
  {
    forall name | name in s.removed ensures !HasSuffix(name, DeployName(tag)) {
      assert name !in DeployFiles(loaded, tag);
    }
    if s.removed != [] { assert s.removed[0] in s.removed && s.removed[0] in DeployFiles(loaded, oldTag); }
  }

  class TrafficManager {
    const host: Host
    var dynamicConfigs: map<string, DynamicConfiguration>

    // What the files held when they were loaded, and the objects that hold it now.
    ghost var loaded: map<string, ConfigValue>
    ghost var repr: set<object?>

    // Every in-memory configuration still has the value it was loaded with. The names come from
    // a directory listing, so none holds a separator.
    ghost predicate Valid()
      reads this, repr
    {
      && (forall o | o in repr :: IsPart(o))
      && loaded.Keys == dynamicConfigs.Keys
      && (forall name | name in dynamicConfigs :: '/' !in name)
      && (forall name {:trigger Holds(dynamicConfigs[name], loaded[name])} | name in dynamicConfigs ::
            Holds(dynamicConfigs[name], loaded[name]))
    }

    ghost predicate Holds(c: DynamicConfiguration, value: ConfigValue)
      reads this, repr
    {
      && c in repr && (c.http != null ==> c.http in repr) && c.Footprint() <= repr
      && c.Value() == value
    }

    // Nothing that it reads has changed.
    twostate lemma ValidKept()
      requires old(Valid()) && unchanged(this) && unchanged(set o | o in old(repr) && o != null)
      ensures Valid()
    {
    }

    constructor (host: Host)
      ensures Valid() && this.host == host && dynamicConfigs == map[]
    {
      this.host := host;
      dynamicConfigs := map[];
      loaded := map[];
      repr := {};
    }

    // Reads and parses every file of the directory, in any order, up to the first that fails.
    method ReadFiles(readable: string -> bool)
      returns (ok: bool, configs: map<string, DynamicConfiguration>, ghost objects: set<object?>)
      ensures ok <==> forall name | name in host.files :: readable(name)
      ensures ok ==> configs.Keys == host.files.Keys
      ensures forall o | o in objects :: IsPart(o)
      ensures forall name | name in configs :: name in host.files &&
                configs[name].Footprint() <= objects && configs[name].Value() == host.files[name]
    {
      configs, objects := map[], {};
      var remaining := host.files.Keys;
      while remaining != {}
        invariant remaining <= host.files.Keys && configs.Keys == host.files.Keys - remaining
        invariant forall name | name in configs :: readable(name)
        invariant forall o | o in objects :: IsPart(o)
        invariant forall name | name in configs ::
                    configs[name].Footprint() <= objects && configs[name].Value() == host.files[name]
        decreases remaining
      {
        var name :| name in remaining;
        remaining := remaining - {name};
        if !readable(name) { return false, configs, objects; }
        var config := Parse(host.files[name]);
        configs := configs[name := config];
        objects := objects + config.Footprint();
      }
      return true, configs, objects;
    }

    // When the static configuration and the directory cannot be listed, or a file cannot be read and
    // parsed, what was loaded before stays.
    method Load(listable: bool, readable: string -> bool) returns (ok: bool)
      requires Valid() && host.Valid()
      modifies this
      ensures Valid()
      ensures ok <==> listable && forall name | name in host.files :: readable(name)
      ensures ok ==> loaded == host.files
      ensures !ok ==> dynamicConfigs == old(dynamicConfigs) && loaded == old(loaded)
    {
      if !listable { return false; }
      var configs;
      ghost var objects;
      ok, configs, objects := ReadFiles(readable);
      if ok { Adopt(configs, objects); }
    }

    // Makes these the loaded configurations; objects is all they reach.
    method Adopt(configs: map<string, DynamicConfiguration>, ghost objects: set<object?>)
      requires host.Valid() && configs.Keys == host.files.Keys
      requires forall o | o in objects :: IsPart(o)
      requires forall name | name in configs ::
                 configs[name].Footprint() <= objects && configs[name].Value() == host.files[name]
      modifies this
      ensures Valid() && dynamicConfigs == configs && loaded == host.files
    {
      dynamicConfigs, loaded, repr := configs, host.files, objects;
      forall name | name in configs ensures Holds(configs[name], loaded[name]) {
        assert configs[name].Footprint() <= objects;
      }
    }

    predicate HasDeployConfigs(tag: string)
      reads this
    {
      exists name | name in dynamicConfigs :: HasSuffix(name, DeployName(tag))
    }

    // Ranges over the servers of one load balancer, up to the first URL that does not parse.
    method RewriteServers(servers: seq<Server>, tag: string) returns (ok: bool)
      ensures ok <==> forall i | 0 <= i < |servers| :: ParseURL(servers[i].url).Some?
    {
      for i := 0 to |servers|
        invariant forall j | 0 <= j < i :: ParseURL(servers[j].url).Some?
      {
        var server := servers[i];
        var parsed := ParseURL(server.url);
        if parsed.None? { return false; }
        var (h, port) := parsed.value;
        server := server.(url := TaggedURL(h, tag, port));
      }
      return true;
    }

    // Ranges over one configuration. Rewritten URLs and service names go into copies that
    // nothing reads; what is left is the check that every URL parses.
    method RewriteCopies(config: DynamicConfiguration, tag: string) returns (r: CreateResult)
      requires HasServices(config.Value())
      ensures if r.Created? then Ready(config.Value()) else Explains(config.Value(), r)
    {
      var services := config.http.services.value;
      ghost var values := config.Value().http.value.services.value;
      var remaining := services.Keys;
      while remaining != {}
        invariant remaining <= services.Keys == values.Keys
        invariant forall k | k in services && k !in remaining ::
                    values[k].loadBalancer.Some? && ServersParse(values[k])
        decreases remaining
      {
        var name :| name in remaining;
        remaining := remaining - {name};
        var service := services[name];
        assert values[name] == ServiceValueOf(service);
        if service.loadBalancer == null { return CreatePanicked; }
        var ok := RewriteServers(service.loadBalancer.servers, tag);
        assert ok <==> ServersParse(values[name]);
        if !ok { return Failed(BadURL); }
      }
      var routers := config.http.routers;
      var left := routers.Keys;
      while left != {}
        invariant left <= routers.Keys
        decreases left
      {
        var name :| name in left;
        left := left - {name};
        var router := routers[name];
        router := router.(service := router.service + "-" + tag);
      }
      return Created;
    }

    // The loop's work on one configuration: copy, check, write.
    method WriteCopy(name: string, tag: string) returns (r: CreateResult, tagConfig: DynamicConfiguration)
      requires Valid() && name in dynamicConfigs
      modifies host
      ensures tagConfig.http == dynamicConfigs[name].http && tagConfig.rest == dynamicConfigs[name].rest
      ensures r.Created? ==>
                Ready(loaded[name]) && host.files == old(host.files)[DeployName(tag) := loaded[name]]
      ensures r.Created? || r == Failed(WriteFailed) || Explains(loaded[name], r)
      ensures r == Failed(WriteFailed) ==> Ready(loaded[name])
      ensures if r.Created? || r == Failed(WriteFailed)
              then host.log == old(host.log) + [Wrote(DeployName(tag), r.Created?)]
              else host.log == old(host.log) && host.files == old(host.files)
      ensures OnlyFileChanged(old(host.files), host.files, DeployName(tag))
    {
      var config := dynamicConfigs[name];
      assert Holds(config, loaded[name]);
      tagConfig := config.Copy();
      if tagConfig.http == null || tagConfig.http.services == None { return Failed(Invalid), tagConfig; }
      r := RewriteCopies(tagConfig, tag);
      if !r.Created? { return; }
      var ok := host.WriteFile(DeployName(tag), tagConfig.Value());
      if !ok { r := Failed(WriteFailed); }
    }

    // What CreateDeployConfigs leaves when it succeeds: one file and one entry, both holding the
    // configuration called name.
    ghost predicate LeftBy(name: string, tag: string, deployConfigs: map<string, DynamicConfiguration>)
      requires loaded.Keys == dynamicConfigs.Keys
      reads this, host, dynamicConfigs.Values, deployConfigs.Values
    {
      && name in Selected(loaded, tag)
      && deployConfigs.Keys == {tag + ".yml"}
      && deployConfigs[tag + ".yml"].http == dynamicConfigs[name].http
      && deployConfigs[tag + ".yml"].rest == dynamicConfigs[name].rest
      && DeployName(tag) in host.files && host.files[DeployName(tag)] == loaded[name]
    }

    // One file name and one map key for all configurations: the last one written wins. Unless a
    // write failed, the file and the entry are those of the last configuration that was ready, or
    // there was none and nothing happened.
    method CreateDeployConfigs(tag: string)
      returns (r: CreateResult, deployConfigs: map<string, DynamicConfiguration>, ghost last: string)
      requires Valid()
      modifies host
      ensures r != Failed(WriteFailed) ==> (r.Created? <==> AllReady(loaded, tag))
      ensures r != Failed(WriteFailed) ==>
                if deployConfigs == map[] then host.log == old(host.log) && host.files == old(host.files)
                else |host.log| > |old(host.log)| && LeftBy(last, tag, deployConfigs)
      ensures r.Created? && deployConfigs == map[] ==> Selected(loaded, tag) == {}
      ensures OnlyFileChanged(old(host.files), host.files, DeployName(tag))
      ensures OnlyWrote(old(host.log), host.log, DeployName(tag))
      ensures r == Failed(WriteFailed) <==> LastWriteFailed(old(host.log), host.log)
    {
      deployConfigs, last := map[], "";
      var remaining := dynamicConfigs.Keys;
      ghost var values, chosen := loaded, Selected(loaded, tag);
      ghost var file, files, log := DeployName(tag), host.files, host.log;
      while remaining != {}
        invariant remaining <= dynamicConfigs.Keys && Valid()
        invariant forall name | name in chosen && name !in remaining :: Ready(values[name])
        invariant OnlyFileChanged(files, host.files, file)
        invariant OnlyWrote(log, host.log, file) && !LastWriteFailed(log, host.log)
        invariant if deployConfigs == map[] then chosen <= remaining && host.log == log && host.files == files
                  else |host.log| > |log| && LeftBy(last, tag, deployConfigs)
        decreases remaining
      {
        var configFile :| configFile in remaining;
        remaining := remaining - {configFile};
        if HasSuffix(configFile, DeployName(tag)) { continue; }
        var tagConfig;
        assert configFile in chosen;
        r, tagConfig := WriteCopy(configFile, tag);
        if !r.Created? { return r, deployConfigs, last; }
        last := configFile;
        deployConfigs := deployConfigs[tag + ".yml" := tagConfig];
        assert tag + ".yml" in deployConfigs;
      }
      return Created, deployConfigs, last;
    }

    // Renames the service of copies of routers, of the configurations it selects.
    method UpdateRouters(tag: string) returns (selected: set<string>)
      requires Valid()
      ensures selected == DeployFiles(loaded, tag)
    {
      selected := {};
      var remaining := dynamicConfigs.Keys;
      while remaining != {}
        invariant remaining <= dynamicConfigs.Keys
        invariant selected == DeployFiles(loaded, tag) - remaining
        decreases remaining
      {
        var configFile :| configFile in remaining;
        remaining := remaining - {configFile};
        if !HasSuffix(configFile, DeployName(tag)) { continue; }
        selected := selected + {configFile};
        assert Holds(dynamicConfigs[configFile], loaded[configFile]);
        var http := dynamicConfigs[configFile].http;
        if http != null {
          var left := http.routers.Keys;
          while left != {}
            invariant left <= http.routers.Keys
            decreases left
          {
            var name :| name in left;
            left := left - {name};
            var router := http.routers[name];
            router := router.(service := router.service + "-" + tag);
          }
        }
      }
    }

    // Calls os.Remove for each deploy file of the tag, under a path that lacks the separator; no
    // file of the directory has such a path.
    method RemoveDynamicConfigs(tag: string) returns (ghost removed: seq<string>)
      requires Valid()
      modifies host
      ensures host.files == old(host.files)
      ensures host.log == old(host.log) + RemovalCalls(removed)
      ensures forall name :: name in removed <==> name in DeployFiles(loaded, tag)
    {
      removed := [];
      var remaining := dynamicConfigs.Keys;
      ghost var files, log := host.files, host.log;
      while remaining != {}
        invariant remaining <= dynamicConfigs.Keys
        invariant host.files == files && host.log == log + RemovalCalls(removed)
        invariant forall name :: name in removed <==> name in DeployFiles(loaded, tag) && name !in remaining
        decreases remaining
      {
        var configFile :| configFile in remaining;
        remaining := remaining - {configFile};
        if HasSuffix(configFile, DeployName(tag)) {
          RemovalPathMisses(configFile);
          host.Remove(RemovalPathOf(configFile));
          removed := removed + [configFile];
        }
      }
    }

    // Waits for each deploy configuration in turn, up to the first that is not healthy.
    method AwaitHealthy(deployConfigs: map<string, DynamicConfiguration>, tag: string, ghost config: ConfigValue)
      returns (error: Option<DeployError>, ghost gates: seq<Gate>)
      requires deployConfigs != map[] ==>
                 deployConfigs.Keys == {tag + ".yml"} && deployConfigs[tag + ".yml"].Value() == config
      modifies host`log
      ensures host.log == old(host.log) + Gates(tag, gates)
      ensures if deployConfigs == map[] then gates == [] && error == None
              else |gates| == 1 && gates[0].config == config && error == GateError(gates[0].verdict)
    {
      gates, error := [], None;
      var values := map key | key in deployConfigs :: deployConfigs[key].Value();
      var remaining := deployConfigs.Keys;
      while remaining != {} && error.None?
        invariant remaining <= deployConfigs.Keys
        invariant host.log == old(host.log) + Gates(tag, gates)
        invariant if remaining == deployConfigs.Keys then gates == [] && error == None
                  else |gates| == 1 && gates[0].config == config && error == GateError(gates[0].verdict)
        decreases remaining
      {
        var key :| key in remaining;
        remaining := remaining - {key};
        var verdict := host.AwaitVerdict(key, values[key]);
        gates := gates + [Gate(config, verdict)];
        match verdict {
          case Received(isHealthy) => if !isHealthy { error := Some(Unhealthy); }
          case Cancelled => error := Some(DeployCancelled);
          case TimedOut => error := Some(DeployTimedOut);
        }
      }
    }

    // Deploy once the new file is there: waits for it to be healthy, then retires the old tag.
    method Retire(deployConfigs: map<string, DynamicConfiguration>, oldTag: string, tag: string, ghost config: ConfigValue)
      returns (error: Option<DeployError>, ghost gates: seq<Gate>, ghost removed: seq<string>)
      requires Valid() && DeployFiles(loaded, tag) == {}
      requires deployConfigs != map[] ==>
                 deployConfigs.Keys == {tag + ".yml"} && deployConfigs[tag + ".yml"].Value() == config
      modifies host
      ensures host.files == old(host.files)
      ensures host.log == old(host.log) + Gates(tag, gates) + RemovalCalls(removed)
      ensures if deployConfigs == map[] then gates == [] && error == None
              else |gates| == 1 && gates[0].config == config && error == GateError(gates[0].verdict)
      ensures if error.Some? then removed == [] else forall name :: name in removed <==> name in DeployFiles(loaded, oldTag)
    {
      removed := [];
      error, gates := AwaitHealthy(deployConfigs, tag, config);
      if error.Some? { return; }
      var selected := UpdateRouters(tag);
      assert selected == {};
      removed := RemoveDynamicConfigs(oldTag);
    }

    // The entry's value is that of the configuration it was copied from.
    lemma EntryValue(name: string, tag: string, deployConfigs: map<string, DynamicConfiguration>)
      requires Valid() && LeftBy(name, tag, deployConfigs)
      ensures deployConfigs[tag + ".yml"].Value() == loaded[name]
      ensures HoldsOneOf(loaded, host.files, DeployName(tag)) && host.files[DeployName(tag)] == loaded[name]
    {
      assert Holds(dynamicConfigs[name], loaded[name]);
    }

    // Deploy after its guards.
    method SwitchOver(oldTag: string, tag: string) returns (r: DeployResult, ghost switch: Switch)
      requires Valid() && DeployFiles(loaded, tag) == {}
      modifies host
      ensures host.log == old(host.log) + Effects(tag, switch)
      ensures OnlyFileChanged(old(host.files), host.files, DeployName(tag))
      ensures SafeSwitch(loaded, oldTag, tag, r, switch)
      ensures LeavesFiles(loaded, tag, old(host.files), host.files, r, switch)
    {
      NothingSkipped(loaded, tag);
      ghost var log := host.log;
      var created, deployConfigs, last := CreateDeployConfigs(tag);
      ghost var writes := Results(tag, log, host.log);
      if created != Failed(WriteFailed) && deployConfigs != map[] { EntryValue(last, tag, deployConfigs); }
      if created != Created {
        EffectsInOrder(log, tag, Switch(writes, [], []));
        r := if created.Failed? then Error(NotCreated(created.problem)) else Panicked;
        switch := Switch(writes, [], []);
        StoppedIsSafe(loaded, oldTag, tag, r, switch);
        return;
      }
      assert deployConfigs.Keys == {} <==> loaded.Keys == {};
      ghost var config := if last in loaded then loaded[last] else ConfigValue(None, 0);
      var error, gates, removed := Retire(deployConfigs, oldTag, tag, config);
      switch := Switch(writes, gates, removed);
      EffectsInOrder(log, tag, switch);
      if error.Some? {
        r := Error(error.value);
        StoppedIsSafe(loaded, oldTag, tag, r, switch);
      } else {
        r := Done;
        DoneIsSafe(loaded, oldTag, tag, switch);
      }
    }

    // Switches traffic to tag. What it does is described by a Switch, and judged by SafeSwitch.
    method Deploy(stateTag: Option<string>, tag: string) returns (r: DeployResult, ghost switch: Switch)
      requires Valid()
      modifies host
      ensures Valid()
      ensures host.log == old(host.log) + Effects(tag, switch)
      ensures Switched(loaded, stateTag, tag, old(host.files), host.files, r, switch)
    {
      if tag == "" { return Error(EmptyTag), Nothing(); }
      if stateTag.None? { return Error(NilState), Nothing(); }
      if stateTag.value == tag { return Done, Nothing(); }
      var oldTag := stateTag.value;
      if HasDeployConfigs(tag) {
        ghost var name :| name in dynamicConfigs && HasSuffix(name, DeployName(tag));
        assert name in DeployFiles(loaded, tag);
        return Error(AlreadyDeployed), Nothing();
      }
      r, switch := SwitchOver(oldTag, tag);
    }

    // The configurations of no deploy, with the values they were loaded with.
    method GetDynamicConfigs() returns (configs: map<string, DynamicConfiguration>)
      requires Valid()
      ensures configs == map name | name in dynamicConfigs && !HasSuffix(name, "-deploy.yml") :: dynamicConfigs[name]
      ensures forall name | name in configs :: name in loaded && configs[name].Value() == loaded[name]
    {
      configs := map[];
      var remaining := dynamicConfigs.Keys;
      while remaining != {}
        invariant remaining <= dynamicConfigs.Keys
        invariant configs == map name | name in dynamicConfigs && name !in remaining && !HasSuffix(name, "-deploy.yml") ::
                               dynamicConfigs[name]
        decreases remaining
      {
        var filename :| filename in remaining;
        remaining := remaining - {filename};
        if HasSuffix(filename, "-deploy.yml") { continue; }
        configs := configs[filename := dynamicConfigs[filename]];
      }
      assert forall name | name in configs :: Holds(dynamicConfigs[name], loaded[name]);
    }
  }

  // The removal's path is the path of a file in the directory exactly when the name starts with
  // a separator, which no name in a directory does.
  lemma RemovalPathHits(name: string)
    ensures (exists file :: RemovalPathOf(name) == PathOf(file)) <==> "/" <= name
  {
    var path := RemovalPathOf(name);
    assert path[|DYNAMIC_PATH|..] == name;
    if file :| path == PathOf(file) {
      assert PathOf(file)[|DYNAMIC_PATH|..] == "/" + file;
    }
    if "/" <= name {
      assert path == PathOf(name[1..]);
    }
  }

  lemma RemovalPathMisses(name: string)
    requires '/' !in name
    ensures forall file :: RemovalPathOf(name) != PathOf(file)
  {
    RemovalPathHits(name);
    assert |name| > 0 ==> name[0] != '/';
  }
}
