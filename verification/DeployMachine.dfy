/**
 The deploy run as a machine: seventeen calls in sequence, each of which may succeed, fail or
 panic. Three of them register a rollback step when they succeed; an error returns at once; a panic
 runs the rollback. What the deploy computes itself (the loaded state, the old containers, the
 updated state) the machine computes with the functions that specify the state manager; what
 others answer is a reply, and a run is given by the sequence of its replies.
 */
module DeployMachine {
  import opened Wrappers
  import opened State
  import opened Rollback
  import HealthGate
  import Images
  import Traefik
  import Traffic
  import Strings

  datatype Site =
    | GetCommit | Build | Push | MakeDirectory | LoadState | SendCompose
    | WriteOverride                        // registers rollback-override
    | Pull | Up
    | AwaitContainers                      // registers rollback-up
    | LoadTraffic
    | DeployTraffic                        // registers traffic-rollback
    | ListOld | DownOld | DownOldAgain | UpdateState | SaveState

  function Rank(s: Site): nat {
    match s
    case GetCommit => 0 case Build => 1 case Push => 2 case MakeDirectory => 3 case LoadState => 4
    case SendCompose => 5 case WriteOverride => 6 case Pull => 7 case Up => 8 case AwaitContainers => 9
    case LoadTraffic => 10 case DeployTraffic => 11 case ListOld => 12 case DownOld => 13
    case DownOldAgain => 14 case UpdateState => 15 case SaveState => 16
  }

  // The call after this one. SaveState is the last.
  function Next(s: Site): Site {
    match s
    case GetCommit => Build case Build => Push case Push => MakeDirectory case MakeDirectory => LoadState
    case LoadState => SendCompose case SendCompose => WriteOverride case WriteOverride => Pull
    case Pull => Up case Up => AwaitContainers case AwaitContainers => LoadTraffic
    case LoadTraffic => DeployTraffic case DeployTraffic => ListOld case ListOld => DownOld
    case DownOld => DownOldAgain case DownOldAgain => UpdateState case UpdateState => SaveState
    case SaveState => SaveState
  }

  // What the commands act on. running has the image of each service of the project that has a
  // container; stored is the content of the state file; other stands for images, the registry and
  // directories.
  datatype World = World(
    composeFile: Option<string>,
    overrideFile: Option<string>,
    running: map<string, string>,
    traffic: map<string, Traefik.ConfigValue>,
    stored: Option<string>,
    other: int)

  datatype Response = Ok | Err | Panic

  // How the commands of the rollback answer, in the world where they run: `rm`, with the file it
  // leaves when it fails; `test -f`, on a file that is there; `down`, with the services it takes
  // down; `inspect`; the health gate; and the two loads of the state.
  datatype Recovery = Recovery(
    remove: World -> (Response, Option<string>),
    test: World -> bool,
    down: World -> (Response, set<string>),
    newRuns: World -> bool,
    gate: World -> Response,
    testOk: nat -> bool,
    catOk: nat -> bool)

  // How the calls of a deploy are answered: the command of each call, and what it changes; the two
  // commands of the load; what a write that fails leaves; which of Traefik's files can be read; how
  // a save goes; and how the goroutines of the health gate interleave until the deploy goes on.
  datatype Answers = Answers(
    response: Site -> Response,
    other: Site -> int,
    left: Site -> Option<string>,
    running: map<string, string>,
    stopped: Site -> set<string>,
    testOk: bool,
    catOk: bool,
    listable: bool,
    readable: string -> bool,
    saving: Site -> SaveOutcome,
    events: seq<HealthGate.Event>)

  // What differs from one deploy to the next: the tag, which is the commit's; the local compose
  // file; what the here-document leaves of the override (HereDoc.UnquotedFile); and how the deploy
  // and a rollback are answered.
  datatype Release =
    Release(tag: string, composeFile: string, overrideFile: string, answers: Answers, recovery: Recovery)

  // What a deploy is given.
  datatype Plan = Plan(
    tag: string,
    services: seq<Images.Service>,
    composeFile: string,
    overrideFile: string,
    workDir: string,
    codec: Codec,
    answers: Answers,
    recovery: Recovery)
  {
    // The deploy of another release.
    function For(r: Release): Plan {
      this.(tag := r.tag, composeFile := r.composeFile, overrideFile := r.overrideFile,
            answers := r.answers, recovery := r.recovery)
    }

    function Overrides(): map<string, Images.ServiceOverride> { Images.Overrides(services, tag) }

    // What `up` runs: the project's services, each under its image.
    function Deployed(): map<string, string> { Images.Deployed(services, tag) }
  }

  // The old containers.

  // A recorded container that does not carry the new tag.
  predicate IsOld(s: ServiceState, tag: string) { s.containerName != s.serviceName + "-" + tag }

  function OldKeys(services: map<string, ServiceState>, tag: string): set<string> {
    set k | k in services && IsOld(services[k], tag)
  }

  function OldNames(services: map<string, ServiceState>, tag: string): set<string> {
    set k | k in OldKeys(services, tag) :: services[k].containerName
  }

  // One entry for each old record, in whatever order the map yields them.
  method ListOldContainers(services: map<string, ServiceState>, tag: string) returns (oldContainers: seq<string>)
    ensures |oldContainers| == |OldKeys(services, tag)|
    ensures forall name :: name in oldContainers <==> name in OldNames(services, tag)
    ensures forall name :: name in oldContainers <==>
              exists k :: k in services && services[k].containerName == name && name != services[k].serviceName + "-" + tag
  {
    oldContainers := [];
    var remaining := services.Keys;
    ghost var found: set<string> := {};
    while remaining != {}
      invariant remaining <= services.Keys && |oldContainers| == |found|
      invariant found !! remaining && OldKeys(services, tag) - remaining <= found <= OldKeys(services, tag)
      invariant forall name :: name in oldContainers <==> exists k :: k in found && services[k].containerName == name
      decreases remaining
    {
      var k :| k in remaining;
      remaining := remaining - {k};
      var service := services[k];
      if service.containerName == service.serviceName + "-" + tag { continue; }
      assert forall j :: j in found + {k} <==> j in found || j == k;
      oldContainers, found := oldContainers + [service.containerName], found + {k};
    }
    assert found == OldKeys(services, tag);
  }

  // Update records the tagged name as the service's name, too. A record it has rewritten is old
  // for every tag, the one just deployed included: deploying one commit twice lists what the
  // second deploy has started.
  lemma RewrittenIsAlwaysOld(s: ServiceState, overrides: map<string, Images.ServiceOverride>, first: string, tag: string)
    ensures IsOld(Renamed(s, overrides, first), tag) <==> s.serviceName in overrides || IsOld(s, tag)
  {
    var r := Renamed(s, overrides, first);
    if s.serviceName in overrides { assert |r.serviceName + "-" + tag| > |r.containerName|; }
  }

  // The rollback steps.

  datatype StepName = OverrideStep | UpStep | TrafficStep

  // The steps when the call at this site has succeeded.
  function Registered(steps: seq<StepName>, s: Site): seq<StepName> {
    match s
    case WriteOverride => steps + [OverrideStep]
    case AwaitContainers => steps + [UpStep]
    case DeployTraffic => steps + [TrafficStep]
    case _ => steps
  }

  function UndoOverride(p: Plan, w: World): Attempt<World> {
    var (response, left) := p.recovery.remove(w);
    match response
    case Ok => Finished(w.(overrideFile := None))
    case Err => Attempt.Failed(w.(overrideFile := left), "failed to remove override file")
    case Panic => Panicked(w.(overrideFile := left))
  }

  // A test that fails, for whatever reason, counts as an absent file.
  function TestOverride(p: Plan, w: World): Attempt<World> {
    if p.recovery.test(w) && w.overrideFile.Some? then Attempt.Failed(w, "override file still exists after rollback")
    else Finished(w)
  }

  // `down` takes containers down and starts none.
  function UndoUp(p: Plan, w: World): Attempt<World> {
    var (response, stopped) := p.recovery.down(w);
    var v := w.(running := w.running - stopped);
    match response
    case Ok => Finished(v)
    case Err => Attempt.Failed(v, "failed to bring down new containers")
    case Panic => Panicked(v)
  }

  function InspectNew(p: Plan, w: World): Attempt<World> {
    if p.recovery.newRuns(w) then Attempt.Failed(w, "container still running after rollback") else Finished(w)
  }

  // traffic-rollback deploys the loaded state's own tag, so Deploy never gets past its guard.
  function UndoTraffic(loadedTag: string, w: World): Attempt<World> {
    match Traffic.Guard(Some(loadedTag), loadedTag)
    case Some(Done) => Finished(w)
    case _ => Attempt.Failed(w, "failed to rollback traffic")
  }

  function CheckTraffic(p: Plan, loadedTag: string, w: World): Attempt<World> {
    if loadedTag == "" then Finished(w)
    else
      match p.recovery.gate(w)
      case Ok => Finished(w)
      case Err => Attempt.Failed(w, "timeout waiting for health checks after traffic rollback")
      case Panic => Panicked(w)
  }

  function StepOf(p: Plan, loadedTag: string, name: StepName): RollbackStep<World> {
    match name
    case OverrideStep =>
      RollbackStep("rollback-override", w => UndoOverride(p, w), Some(w => TestOverride(p, w)))
    case UpStep =>
      RollbackStep("rollback-up", w => UndoUp(p, w), Some(w => InspectNew(p, w)))
    case TrafficStep =>
      RollbackStep("traffic-rollback", w => UndoTraffic(loadedTag, w), Some(w => CheckTraffic(p, loadedTag, w)))
  }

  function StepsOf(p: Plan, loadedTag: string, names: seq<StepName>): seq<RollbackStep<World>> {
    if names == [] then []
    else StepsOf(p, loadedTag, names[..|names| - 1]) + [StepOf(p, loadedTag, names[|names| - 1])]
  }

  lemma StepsOfOneMore(p: Plan, loadedTag: string, names: seq<StepName>, name: StepName)
    ensures StepsOf(p, loadedTag, names + [name]) == StepsOf(p, loadedTag, names) + [StepOf(p, loadedTag, name)]
  {
    assert (names + [name])[..|names|] == names;
  }

  // The two loads of the rollback.
  function LoadsOf(p: Plan): (nat, World) -> Result<DeploymentState, string> {
    (k: nat, w: World) => LoadResult(p.codec, w.stored, p.recovery.testOk(k), p.recovery.catOk(k))
  }

  // The machine.

  datatype Status = Running | ReturnedNil | ReturnedError | Panicking

  // loaded and current are the deploy's and the state manager's idea of the current state, configs
  // what the traffic manager has loaded, oldNames the containers to take down.
  datatype Machine = Machine(
    at: Site,
    world: World,
    loaded: DeploymentState,
    configs: map<string, Traefik.ConfigValue>,
    oldNames: set<string>,
    current: DeploymentState,
    steps: seq<StepName>,
    status: Status)

  function Start(w: World, current: DeploymentState): Machine {
    Machine(GetCommit, w, ZERO, map[], {}, current, [], Running)
  }

  datatype Reply =
    | Responds(response: Response)
    | Changes(response: Response, other: int)
    | Reads(testOk: bool, catOk: bool)
    | Writes(response: Response, left: Option<string>)                  // left: what a write that fails leaves
    | Starts(response: Response, running: map<string, string>)
    | Gates(events: seq<HealthGate.Event>, healthy: bool)
    | Parses(ok: bool)
    | Switches(result: Traffic.DeployResult, writes: nat, files: map<string, Traefik.ConfigValue>)
    | Lists
    | Stops(response: Response, stopped: set<string>)
    | Saves(outcome: SaveOutcome)

  // The kind of reply that a call has.
  predicate Suits(m: Machine, r: Reply) {
    match m.at
    case GetCommit => r.Responds?
    case Build | Push | MakeDirectory | Pull => r.Changes?
    case LoadState => r.Reads?
    case SendCompose | WriteOverride => r.Writes?
    case Up => r.Starts?
    case AwaitContainers => r.Gates?
    case LoadTraffic => r.Parses?
    case DeployTraffic => r.Switches?
    case ListOld => r.Lists?
    case DownOld | DownOldAgain => r.Stops?
    case UpdateState | SaveState => r.Saves?
  }

  // The reply that comes at a call is the host's answer to it. Those of the health gate and of the
  // traffic manager are what these two components promise.
  ghost predicate Fits(p: Plan, m: Machine, r: Reply) {
    var a := p.answers;
    Suits(m, r) &&
    match r
    case Responds(_) => r == Responds(a.response(m.at))
    case Changes(_, _) => r == Changes(a.response(m.at), a.other(m.at))
    case Reads(_, _) => r == Reads(a.testOk, a.catOk)
    case Writes(_, _) => r == Writes(a.response(m.at), a.left(m.at))
    case Starts(_, _) => r == Starts(a.response(m.at), a.running)
    case Gates(events, healthy) =>
      && events == HealthGate.Happening(|p.Overrides()|, a.events)
      && HealthGate.GateAnswers(|p.Overrides()|, events, healthy)
    case Parses(ok) => ok == CanLoad(a, m.world.traffic)
    case Switches(result, writes, files) =>
      Traffic.Rerouted(m.configs, m.loaded.tag, p.tag, m.world.traffic, files, result, writes)
    case Lists => true
    case Stops(_, _) => r == Stops(a.response(m.at), a.stopped(m.at))
    case Saves(_) => r == Saves(a.saving(m.at))
  }

  // Traefik's directory can be listed, and each of its files read and parsed.
  predicate CanLoad(a: Answers, traffic: map<string, Traefik.ConfigValue>) {
    a.listable && forall name | name in traffic :: a.readable(name)
  }

  // The configurations of no deploy, which the update records.
  function Undeployed(configs: map<string, Traefik.ConfigValue>): map<string, Traefik.ConfigValue> {
    map name | name in configs && !Strings.HasSuffix(name, "-deploy.yml") :: configs[name]
  }

  function UpdateOf(p: Plan, m: Machine, outcome: SaveOutcome): (DeploymentState, UpdateResult, Option<string>) {
    UpdateOutcome(p.workDir, p.codec, m.current, p.Overrides(), Undeployed(m.configs), p.tag, m.world.stored, outcome)
  }

  function SaveOf(p: Plan, m: Machine, outcome: SaveOutcome): (Saved, Option<string>) {
    SaveResult(p.workDir, p.codec, m.current, m.world.stored, outcome)
  }

  // How a call ends.
  function ResponseTo(p: Plan, m: Machine, r: Reply): Response
    requires Suits(m, r)
  {
    match m.at
    case GetCommit | Build | Push | MakeDirectory | Pull | SendCompose | WriteOverride | Up | DownOld | DownOldAgain =>
      r.response
    case LoadState => if LoadResult(p.codec, m.world.stored, r.testOk, r.catOk).Success? then Ok else Err
    case AwaitContainers => if r.healthy then Ok else Err
    case LoadTraffic => if r.ok then Ok else Err
    case DeployTraffic => (match r.result case Done => Ok case Error(_) => Err case Panicked => Panic)
    case ListOld => if m.loaded.compose.Some? then Ok else Panic
    case UpdateState =>
      (match UpdateOf(p, m, r.outcome).1
       case UpdateDone(saved) => if saved == SavedOk then Ok else Err
       case UpdatePanicked => Panic)
    case SaveState => if SaveOf(p, m, r.outcome).0 == SavedOk then Ok else Err
  }

  // What a call changes.
  function Effect(p: Plan, m: Machine, r: Reply): Machine
    requires Suits(m, r)
  {
    var w := m.world;
    match m.at
    case GetCommit | AwaitContainers => m
    case Build | Push | MakeDirectory | Pull => m.(world := w.(other := r.other))
    case LoadState =>
      (match LoadResult(p.codec, w.stored, r.testOk, r.catOk)
       case Success(s) => m.(loaded := s)
       case Failure(_) => m)
    case SendCompose => m.(world := w.(composeFile := if r.response.Ok? then Some(p.composeFile) else r.left))
    case WriteOverride => m.(world := w.(overrideFile := if r.response.Ok? then Some(p.overrideFile) else r.left))
    case Up => m.(world := w.(running := r.running))
    case LoadTraffic => if r.ok then m.(configs := w.traffic) else m
    case DeployTraffic => m.(world := w.(traffic := r.files))
    case ListOld =>
      if m.loaded.compose.Some? then m.(oldNames := OldNames(m.loaded.compose.value.services, p.tag)) else m
    case DownOld | DownOldAgain => m.(world := w.(running := w.running - r.stopped))
    case UpdateState =>
      var (current, _, file) := UpdateOf(p, m, r.outcome);
      m.(current := current, world := w.(stored := file))
    case SaveState => m.(world := w.(stored := SaveOf(p, m, r.outcome).1))
  }

  function Proceed(m: Machine, response: Response): Machine {
    match response
    case Ok =>
      m.(at := Next(m.at), steps := Registered(m.steps, m.at),
         status := if m.at.SaveState? then ReturnedNil else Running)
    case Err => m.(status := ReturnedError)
    case Panic => m.(status := Panicking)
  }

  function Answer(p: Plan, m: Machine, r: Reply): Machine
    requires Suits(m, r)
  {
    Proceed(Effect(p, m, r), ResponseTo(p, m, r))
  }

  // Where the replies of a run lead, if each of them can come when its turn comes.
  ghost function Execute(p: Plan, w: World, current: DeploymentState, replies: seq<Reply>): Option<Machine> {
    if replies == [] then Some(Start(w, current))
    else
      var last := |replies| - 1;
      match Execute(p, w, current, replies[..last])
      case Some(m) => if m.status.Running? && Fits(p, m, replies[last]) then Some(Answer(p, m, replies[last])) else None
      case None => None
  }

  ghost predicate Run(p: Plan, w: World, current: DeploymentState, replies: seq<Reply>, m: Machine) {
    Execute(p, w, current, replies) == Some(m)
  }

  lemma Extend(p: Plan, w: World, current: DeploymentState, replies: seq<Reply>, m: Machine, r: Reply, m': Machine)
    requires Run(p, w, current, replies, m) && m.status.Running? && Fits(p, m, r) && Answer(p, m, r) == m'
    ensures Run(p, w, current, replies + [r], m')
  {
    assert (replies + [r])[..|replies|] == replies;
  }

  // A run with the machine before and after each reply.

  ghost predicate StepAt(p: Plan, machines: seq<Machine>, replies: seq<Reply>, i: nat) {
    && i < |replies| && i + 1 < |machines|
    && machines[i].status.Running? && Fits(p, machines[i], replies[i])
    && machines[i + 1] == Answer(p, machines[i], replies[i])
  }

  ghost predicate Traced(p: Plan, w: World, current: DeploymentState, machines: seq<Machine>, replies: seq<Reply>) {
    && |machines| == |replies| + 1 && machines[0] == Start(w, current)
    && forall i | 0 <= i < |replies| :: StepAt(p, machines, replies, i)
  }

  lemma TracedAtStart(p: Plan, w: World, current: DeploymentState)
    ensures Traced(p, w, current, [Start(w, current)], [])
    ensures StepsOf(p, ZERO.tag, Start(w, current).steps) == []
  {
  }

  lemma TracedFurther(p: Plan, w: World, current: DeploymentState, machines: seq<Machine>, replies: seq<Reply>, r: Reply)
    requires Traced(p, w, current, machines, replies)
    requires machines[|replies|].status.Running? && Fits(p, machines[|replies|], r)
    ensures Traced(p, w, current, machines + [Answer(p, machines[|replies|], r)], replies + [r])
  {
    var next, all := machines + [Answer(p, machines[|replies|], r)], replies + [r];
    forall i | 0 <= i < |all| ensures StepAt(p, next, all, i) {
      if i < |replies| { assert StepAt(p, machines, replies, i); }
    }
  }

  lemma {:induction false} TracedRuns(p: Plan, w: World, current: DeploymentState, machines: seq<Machine>, replies: seq<Reply>)
    requires Traced(p, w, current, machines, replies)
    ensures Run(p, w, current, replies, machines[|replies|])
  {
    if replies == [] {
    } else {
      var last := |replies| - 1;
      var front, before := replies[..last], machines[..last + 1];
      forall i | 0 <= i < last ensures StepAt(p, before, front, i) { assert StepAt(p, machines, replies, i); }
      TracedRuns(p, w, current, before, front);
      assert StepAt(p, machines, replies, last);
      Extend(p, w, current, front, machines[last], replies[last], machines[last + 1]);
      assert front + [replies[last]] == replies;
    }
  }

  datatype DeployOutcome = DeployNil | DeployError(at: Site) | Recovered(at: Site, rollback: Outcome)

  // What a deploy whose run has stopped returns, after a panic through the rollback of what the
  // run has registered.
  function Finish(p: Plan, m: Machine): (World, DeployOutcome) {
    match m.status
    case ReturnedNil => (m.world, DeployNil)
    case ReturnedError => (m.world, DeployError(m.at))
    case _ =>
      var report := Unwind(StepsOf(p, m.loaded.tag, m.steps), m.world);
      (report.world, Recovered(m.at, Conclude(report, LoadsOf(p)(0, m.world), LoadsOf(p)(1, report.world))))
  }
}
