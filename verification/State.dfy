/**
 The deployment state: its equality, its update in place after a deploy, and its persistence in a
 remote file through a here-document.
 */
module State {
  import opened Wrappers
  import opened Traefik
  import HereDoc
  import Images

  datatype ServiceState = ServiceState(
    serviceName: string, containerName: string, hostname: string, image: string, tag: string)

  // rest stands for the volumes and networks, which nothing here looks at.
  datatype ComposeState = ComposeState(services: map<string, ServiceState>, rest: int)

  // None is Go's nil map.
  datatype TraefikState = TraefikState(tag: string, configs: Option<map<string, ConfigValue>>)

  datatype Lock = Lock(acquiredAt: string, expiresAt: string, owner: string, renewable: bool)

  datatype DeploymentState = DeploymentState(
    tag: string, compose: Option<ComposeState>, traefik: Option<TraefikState>, lock: Option<Lock>)

  const ZERO := DeploymentState("", None, None, None)

  const EMPTY := DeploymentState("", Some(ComposeState(map[], 0)), Some(TraefikState("", Some(map[]))), None)

  // Equality.

  // Verdict of Equal; NilDereference is Go's panic on a nil Compose.
  datatype Comparison = Same | Different | NilDereference

  // What Equal compares: the tag, the container name under every service key, and all of Traefik.
  predicate SameDeployment(s: DeploymentState, o: DeploymentState)
    requires s.compose.Some? && o.compose.Some?
  {
    && s.tag == o.tag
    && s.compose.value.services.Keys == o.compose.value.services.Keys
    && (forall k | k in s.compose.value.services ::
          s.compose.value.services[k].containerName == o.compose.value.services[k].containerName)
    && s.traefik == o.traefik
  }

  function Compare(s: DeploymentState, o: DeploymentState): Comparison {
    if s.tag != o.tag then Different
    else if s.compose.None? || o.compose.None? then NilDereference
    else if SameDeployment(s, o) then Same
    else Different
  }

  lemma SubsetOfSameSize<T>(a: set<T>, b: set<T>)
    requires a <= b && |a| == |b|
    ensures a == b
  {
    assert b == a + (b - a) && |b| == |a| + |b - a|;
  }

  // Equal ranges over one map only. Whatever the order, it decides SameDeployment: equal sizes
  // and inclusion one way make the key sets equal.
  method Equal(s: DeploymentState, o: DeploymentState) returns (r: Comparison)
    ensures r == Compare(s, o)
  {
    if s.tag != o.tag { return Different; }
    if s.compose.None? || o.compose.None? { return NilDereference; }
    var mine, theirs := s.compose.value.services, o.compose.value.services;
    if |mine| != |theirs| {
      assert mine.Keys == theirs.Keys ==> |mine| == |theirs|;
      return Different;
    }
    var remaining := mine.Keys;
    while remaining != {}
      invariant remaining <= mine.Keys
      invariant forall k | k in mine && k !in remaining ::
                  k in theirs && mine[k].containerName == theirs[k].containerName
      decreases remaining
    {
      var name :| name in remaining;
      remaining := remaining - {name};
      if name !in theirs || mine[name].containerName != theirs[name].containerName { return Different; }
    }
    assert |mine.Keys| == |mine| && |theirs.Keys| == |theirs|;
    SubsetOfSameSize(mine.Keys, theirs.Keys);
    return if s.traefik == o.traefik then Same else Different;
  }

  // What Equal looks at.
  function Compared(s: DeploymentState): (string, map<string, string>, Option<TraefikState>)
    requires s.compose.Some?
  {
    (s.tag, map k | k in s.compose.value.services :: s.compose.value.services[k].containerName, s.traefik)
  }

  // Two states with a Compose compare equal exactly when these parts of them are the same; without
  // one, equal tags end in a nil dereference and nothing else does.
  lemma EqualIsSameParts(s: DeploymentState, o: DeploymentState)
    ensures s.compose.Some? && o.compose.Some? ==> (Compare(s, o) == Same <==> Compared(s) == Compared(o))
    ensures Compare(s, o) == NilDereference <==> s.tag == o.tag && (s.compose.None? || o.compose.None?)
  {
    if s.compose.Some? && o.compose.Some? {
      var mine, theirs := Compared(s).1, Compared(o).1;
      assert mine.Keys == s.compose.value.services.Keys && theirs.Keys == o.compose.value.services.Keys;
      if SameDeployment(s, o) {
        assert forall k | k in mine :: mine[k] == theirs[k];
        assert mine == theirs;
      } else if Compared(s) == Compared(o) {
        forall k | k in s.compose.value.services
          ensures s.compose.value.services[k].containerName == o.compose.value.services[k].containerName
        {
          assert mine[k] == theirs[k];
        }
      }
    }
  }

  // Equality is an equivalence on states with a Compose, and depends on nothing else: changing
  // an image, a hostname or a lock goes unnoticed.
  lemma EqualIsEquivalence(s: DeploymentState, o: DeploymentState, t: DeploymentState)
    requires s.compose.Some? && o.compose.Some? && t.compose.Some?
    ensures Compare(s, s) == Same
    ensures Compare(s, o) == Compare(o, s)
    ensures Compare(s, o) == Same && Compare(o, t) == Same ==> Compare(s, t) == Same
  {
    if s.tag == o.tag {
      assert SameDeployment(s, o) ==> SameDeployment(o, s);
      assert SameDeployment(o, s) ==> SameDeployment(s, o);
    }
  }

  // Update.

  // What one service's record becomes.
  function Renamed(s: ServiceState, overrides: map<string, Images.ServiceOverride>, tag: string): ServiceState {
    if s.serviceName in overrides then
      var o := overrides[s.serviceName];
      s.(serviceName := o.refName + "-" + tag, containerName := o.refName + "-" + tag,
         image := o.image, hostname := o.hostname)
    else s
  }

  class ServiceRecord {
    var serviceName: string
    var containerName: string
    var hostname: string
    var image: string
    var tag: string

    function Value(): ServiceState
      reads this
    {
      ServiceState(serviceName, containerName, hostname, image, tag)
    }

    constructor (s: ServiceState)
      ensures Value() == s
    {
      serviceName, containerName, hostname, image, tag := s.serviceName, s.containerName, s.hostname, s.image, s.tag;
    }

    method Override(overrides: map<string, Images.ServiceOverride>, tag: string)
      modifies this
      ensures Value() == Renamed(old(Value()), overrides, tag)
    {
      if serviceName in overrides {
        var o := overrides[serviceName];
        serviceName := o.refName + "-" + tag;
        containerName := o.refName + "-" + tag;
        image := o.image;
        hostname := o.hostname;
      }
    }
  }

  method OverrideEach(records: map<string, ServiceRecord>, overrides: map<string, Images.ServiceOverride>, tag: string)
    requires forall j, k | j in records && k in records && j != k :: records[j] != records[k]
    modifies records.Values
    ensures forall k | k in records :: records[k].Value() == Renamed(old(records[k].Value()), overrides, tag)
  {
    var remaining := records.Keys;
    while remaining != {}
      invariant remaining <= records.Keys
      invariant forall k | k in remaining :: records[k].Value() == old(records[k].Value())
      invariant forall k | k in records && k !in remaining ::
                  records[k].Value() == Renamed(old(records[k].Value()), overrides, tag)
      decreases remaining
    {
      var name :| name in remaining;
      remaining := remaining - {name};
      records[name].Override(overrides, tag);
    }
  }

  function RenamedAll(c: ComposeState, overrides: map<string, Images.ServiceOverride>, tag: string): ComposeState {
    c.(services := map k | k in c.services :: Renamed(c.services[k], overrides, tag))
  }

  function Updated(s: DeploymentState, overrides: map<string, Images.ServiceOverride>,
                   configs: map<string, ConfigValue>, tag: string): DeploymentState
    requires s.compose.Some? && s.traefik.Some?
  {
    s.(compose := Some(RenamedAll(s.compose.value, overrides, tag)),
       traefik := Some(TraefikState(tag, Some(configs))))
  }

  datatype Saved = SavedOk | SaveFailed

  datatype UpdateResult = UpdateDone(saved: Saved) | UpdatePanicked

  // How the two commands of a save go; a failed write may leave any file.
  datatype SaveOutcome = Written | MkdirFailed | WriteFailed(left: Option<string>)

  // YAML, as far as it matters here. Reading what was written, with a newline more, gives it
  // back, except that a nil map comes back as an empty one. The keys at the top are those of the
  // struct and everything below is indented, so no line is the delimiter.
  datatype Codec = Codec(marshal: DeploymentState -> string, unmarshal: string -> Option<DeploymentState>) {
    ghost predicate Lawful() {
      forall s :: unmarshal(marshal(s) + "\n") == Some(Normal(s)) && !HereDoc.HasDelimiterLine(marshal(s))
    }
  }

  function Normal(s: DeploymentState): DeploymentState {
    if s.traefik.Some? && s.traefik.value.configs.None? then
      s.(traefik := Some(TraefikState(s.traefik.value.tag, Some(map[]))))
    else s
  }

  // What a load gives for the state file of the remote host, if there is one. testOk and catOk
  // are the outcomes of the two commands on a file that is there; a test that fails, for whatever
  // reason, counts as an absent file.
  function LoadResult(codec: Codec, file: Option<string>, testOk: bool, catOk: bool): Result<DeploymentState, string> {
    if !testOk || file.None? then Success(EMPTY)
    else if !catOk then Failure("failed to read state file")
    else
      match codec.unmarshal(file.value)
      case Some(s) => Success(s)
      case None => Failure("failed to unmarshal state")
  }

  // What a save of s returns, and the file it leaves.
  function SaveResult(workDir: string, codec: Codec, s: DeploymentState, file: Option<string>, outcome: SaveOutcome)
    : (Saved, Option<string>)
  {
    if workDir == "" then (SaveFailed, file)
    else
      match outcome
      case MkdirFailed => (SaveFailed, file)
      case WriteFailed(left) => (SaveFailed, left)
      case Written => (SavedOk, Some(HereDoc.QuotedFile(codec.marshal(s))))
  }

  // What an update makes of the current state, what it returns, and the file it leaves.
  function UpdateOutcome(workDir: string, codec: Codec, s: DeploymentState,
                         overrides: map<string, Images.ServiceOverride>, configs: map<string, ConfigValue>, tag: string,
                         file: Option<string>, outcome: SaveOutcome): (DeploymentState, UpdateResult, Option<string>)
  {
    if s.compose.None? then (s, UpdatePanicked, file)
    else if s.traefik.None? then
      (s.(compose := Some(RenamedAll(s.compose.value, overrides, tag))), UpdatePanicked, file)
    else
      var u := Updated(s, overrides, configs, tag);
      var (saved, left) := SaveResult(workDir, codec, u, file, outcome);
      (u, UpdateDone(saved), left)
  }

  // CurrentState lives in the fields. The state file is on the remote host: methods take it, and
  // return what they leave.
  class StateManager {
    const workDir: string
    const codec: Codec
    var tag: string
    var services: Option<map<string, ServiceRecord>>
    var composeRest: int
    var traefik: Option<TraefikState>
    var lock: Option<Lock>

    ghost predicate Valid()
      reads `services
    {
      services.Some? ==>
        forall j, k | j in services.value && k in services.value && j != k :: services.value[j] != services.value[k]
    }

    function Records(): set<ServiceRecord>
      reads `services
    {
      if services.None? then {} else services.value.Values
    }

    function Compose(): Option<ComposeState>
      reads `services, `composeRest, Records()
    {
      if services.None? then None
      else Some(ComposeState(map k | k in services.value :: services.value[k].Value(), composeRest))
    }

    function CurrentState(): DeploymentState
      reads `tag, `services, `composeRest, `traefik, `lock, Records()
    {
      DeploymentState(tag, Compose(), traefik, lock)
    }

    twostate lemma CurrentStateKept()
      requires unchanged(this) && unchanged(old(Records()))
      ensures CurrentState() == old(CurrentState())
    {
      if services.Some? {
        assert forall k | k in services.value :: services.value[k].Value() == old(services.value[k].Value());
        assert Compose().value.services == old(Compose()).value.services;
      }
    }

    // Nothing assigns CurrentState, so it starts as Go's zero value.
    constructor (workDir: string, codec: Codec)
      ensures Valid() && CurrentState() == ZERO
      ensures this.workDir == workDir && this.codec == codec
    {
      this.workDir := workDir;
      this.codec := codec;
      tag, services, composeRest, traefik, lock := "", None, 0, None, None;
    }

    // The result goes to the caller and nowhere else.
    method Load(file: Option<string>, testOk: bool, catOk: bool) returns (r: Result<DeploymentState, string>)
      ensures r == LoadResult(codec, file, testOk, catOk)
    {
      if !testOk || file.None? { return Success(EMPTY); }
      if !catOk { return Failure("failed to read state file"); }
      var state := codec.unmarshal(file.value);
      if state.None? { return Failure("failed to unmarshal state"); }
      return Success(state.value);
    }

    method Save(file: Option<string>, outcome: SaveOutcome) returns (r: Saved, left: Option<string>)
      ensures (r, left) == SaveResult(workDir, codec, CurrentState(), file, outcome)
      ensures r == SavedOk <==> workDir != "" && outcome == Written
      ensures r == SavedOk ==> left == Some(HereDoc.QuotedFile(codec.marshal(CurrentState())))
      ensures workDir == "" || outcome == MkdirFailed ==> left == file
    {
      if workDir == "" { return SaveFailed, file; }
      var data := codec.marshal(CurrentState());
      if outcome.MkdirFailed? { return SaveFailed, file; }
      if outcome.WriteFailed? { return SaveFailed, outcome.left; }
      return SavedOk, Some(HereDoc.QuotedFile(data));
    }

    // The loop of Update: renames the records in place, in any order.
    method OverrideRecords(overrides: map<string, Images.ServiceOverride>, tag: string)
      requires Valid() && services.Some?
      modifies Records()
      ensures Compose() == Some(RenamedAll(old(Compose()).value, overrides, tag))
      ensures RecordsOverridden(overrides, tag)
    {
      ghost var before := Compose().value.services;
      OverrideEach(services.value, overrides, tag);
      assert Compose().value.services == map k | k in before :: Renamed(before[k], overrides, tag);
    }

    // Of the records, exactly those whose name was an override's key are rewritten: both names
    // become the tagged name, image and hostname are the override's, and the tag stays.
    twostate predicate RecordsOverridden(overrides: map<string, Images.ServiceOverride>, tag: string)
      requires old(services) == services && services.Some?
      reads this, Records()
    {
      forall k | k in services.value ::
        var (record, name) := (services.value[k], old(services.value[k].serviceName));
        if name in overrides then
          && record.containerName == record.serviceName == overrides[name].refName + "-" + tag
          && record.image == overrides[name].image && record.hostname == overrides[name].hostname
          && record.tag == old(record.tag)
        else record.Value() == old(record.Value())
    }

    // The rest of Update: replaces Traefik's part and saves.
    method ReplaceTraefik(configs: map<string, ConfigValue>, tag: string, file: Option<string>, outcome: SaveOutcome)
      returns (r: UpdateResult, left: Option<string>)
      modifies this`traefik
      ensures CurrentState() == old(CurrentState()).(traefik := Some(TraefikState(tag, Some(configs))))
      ensures r.UpdateDone? && (r.saved, left) == SaveResult(workDir, codec, CurrentState(), file, outcome)
    {
      ghost var compose := Compose();
      traefik := Some(TraefikState(tag, Some(configs)));
      var saved;
      saved, left := Save(file, outcome);
      assert services.Some? ==> Compose().value.services == compose.value.services;
      return UpdateDone(saved), left;
    }

    // Renames the records, then replaces Traefik's part and saves.
    method Update(overrides: map<string, Images.ServiceOverride>, configs: map<string, ConfigValue>, tag: string,
                  file: Option<string>, outcome: SaveOutcome)
      returns (r: UpdateResult, left: Option<string>)
      requires Valid()
      modifies this, Records()
      ensures services == old(services)
      ensures (CurrentState(), r, left) ==
              UpdateOutcome(workDir, codec, old(CurrentState()), overrides, configs, tag, file, outcome)
      ensures r == UpdatePanicked <==> old(services).None? || old(traefik).None?
      ensures r == UpdatePanicked ==> left == file
      ensures services.Some? ==> RecordsOverridden(overrides, tag)
      ensures r != UpdatePanicked ==> traefik == Some(TraefikState(tag, Some(configs)))
      ensures this.tag == old(this.tag) && lock == old(lock)
    {
      if services.None? { return UpdatePanicked, file; }
      OverrideRecords(overrides, tag);
      if traefik.None? { return UpdatePanicked, file; }
      r, left := ReplaceTraefik(configs, tag, file, outcome);
    }
  }

  // Main result, persistence: what was saved is loaded back, a nil map as an empty one.
  lemma SaveThenLoad(codec: Codec, s: DeploymentState)
    requires codec.Lawful()
    ensures var file := HereDoc.QuotedFile(codec.marshal(s));
            file == codec.marshal(s) + "\n" && LoadResult(codec, Some(file), true, true) == Success(Normal(s))
    ensures Normal(s) == s <==> (s.traefik.Some? ==> s.traefik.value.configs.Some?)
  {
    HereDoc.QuotedRoundTrip(codec.marshal(s));
  }

  // A load fails exactly when the file is there, as far as the test tells, and cannot be read or
  // parsed. Otherwise it gives what the file holds, or the empty state without a file.
  lemma LoadFailsIff(codec: Codec, file: Option<string>, testOk: bool, catOk: bool)
    ensures var r, there := LoadResult(codec, file, testOk, catOk), testOk && file.Some?;
            && (r.Failure? <==> there && (!catOk || codec.unmarshal(file.value).None?))
            && (r.Success? ==> if there then codec.unmarshal(file.value) == Some(r.value) else r.value == EMPTY)
  {
  }

  // A test that fails although the file is there reads as the empty state. Between two loads of
  // one file that is taken for a change, unless the file held nothing that Equal looks at.
  lemma FailedTestLooksLikeChange(codec: Codec, file: string, s: DeploymentState)
    requires codec.unmarshal(file) == Some(s) && s.compose.Some?
    ensures Compare(LoadResult(codec, Some(file), true, true).value, LoadResult(codec, Some(file), false, true).value) == Same
            <==> s.tag == "" && s.compose.value.services == map[] && s.traefik == EMPTY.traefik
  {
    assert s.compose.value.services.Keys == {} <==> s.compose.value.services == map[];
  }

  // Update stores the new name in the field it looks up by. The next deploy therefore updates a
  // record exactly when a service happens to be called what the last deploy called this one.
  lemma SecondUpdateMisses(s: DeploymentState, overrides: map<string, Images.ServiceOverride>,
                           configs: map<string, ConfigValue>, first: string, second: string, k: string)
    requires s.compose.Some? && s.traefik.Some? && k in s.compose.value.services
    requires s.compose.value.services[k].serviceName in overrides
    requires forall n | n in overrides :: overrides[n].refName == n
    ensures var n := s.compose.value.services[k].serviceName;
            var u := Updated(s, overrides, configs, first);
            var v := Updated(u, overrides, configs, second);
            v.compose.value.services[k] == u.compose.value.services[k] <==> n + "-" + first !in overrides
  {
    var n := s.compose.value.services[k].serviceName;
    var m := n + "-" + first;
    assert Updated(s, overrides, configs, first).compose.value.services[k].serviceName == m;
    if m in overrides { assert |m + "-" + second| > |m|; }
  }

  // Two deploys of one compose project, tagged "1" and "2": the record keeps what the first wrote.
  lemma SecondDeployIsNotRecorded()
    ensures var s := ServiceState("web", "web", "web", "app:0", "");
            var first := map["web" := Images.ServiceOverride("web", "web-1", "web-1", "app:1")];
            var second := map["web" := Images.ServiceOverride("web", "web-2", "web-2", "app:2")];
            Renamed(Renamed(s, first, "1"), second, "2") == ServiceState("web-1", "web-1", "web-1", "app:1", "")
  {
    assert "web" + "-" + "1" == "web-1";
  }
}
