/**
 The deployer: it owns a state manager and a traffic manager, runs the calls of a deploy through
 them, and recovers from a panic with the rollback steps it has registered. Each method is one
 part of DeployProject; together they refine the machine, and so have its theorems.
 */
module Deployer {
  import opened Wrappers
  import opened State
  import opened Rollback
  import opened DeployMachine
  import DeployAnswers
  import DeployRuns
  import HealthGate
  import Images
  import Traefik
  import Traffic

  // A call went well, or the body of DeployProject is over.
  datatype Flow = Continue | Stop(at: Site, status: Status) {
    predicate IsFailure() { Stop? }
    function PropagateFailure(): Flow { this }
  }

  function ResponseOf(result: Traffic.DeployResult): Response {
    match result
    case Done => Ok
    case Error(_) => Err
    case Panicked => Panic
  }

  function UpdateResponse(result: UpdateResult): Response {
    match result
    case UpdatePanicked => Panic
    case UpdateDone(saved) => if saved == SavedOk then Ok else Err
  }

  // The machine after a call that goes on to `next`, with these steps, when it succeeds.
  function Moved(m: Machine, response: Response, next: Site, steps: seq<StepName>): Machine {
    match response
    case Ok => m.(at := next, steps := steps)
    case Err => m.(status := ReturnedError)
    case Panic => m.(status := Panicking)
  }

  class Deployer {
    const stateManager: StateManager
    const trafficManager: Traffic.TrafficManager

    // What does not depend on the release, and the release that is deployed, or was deployed last.
    var plan: Plan

    // The remote host; traffic is what the traffic manager's directory holds.
    var world: World

    // What DeployProject keeps in local variables.
    var rm: RollbackManager<World>
    var currentState: DeploymentState
    var oldContainers: seq<string>

    // The run so far: where it started, its replies, and the machines on the way.
    ghost var start: World
    ghost var initial: DeploymentState
    ghost var replies: seq<Reply>
    ghost var machines: seq<Machine>
    ghost var machine: Machine

    // The constants of the state manager are the plan's.
    ghost predicate Configured()
      reads this
    {
      stateManager.workDir == plan.workDir && stateManager.codec == plan.codec
    }

    // The run so far agrees with the fields. A tag, being a commit, holds no separator.
    ghost predicate Synced()
      reads this, rm
    {
      && Configured() && '/' !in plan.tag
      && Traced(plan, start, initial, machines, replies) && machine == machines[|replies|]
      && machine.world == world && machine.loaded == currentState
      && machine.oldNames == (set name | name in oldContainers)
      && rm.load == LoadsOf(plan) && rm.steps == StepsOf(plan, currentState.tag, machine.steps)
    }

    ghost predicate Stands(s: Site)
      reads this, rm
    {
      Synced() && machine.status.Running? && machine.at == s
    }

    // The run stands at s, or the flow says where and how it stopped.
    ghost predicate Went(s: Site, flow: Flow)
      reads this, rm
    {
      match flow
      case Continue => Stands(s)
      case Stop(_, _) => Synced() && Ended(flow)
    }

    // The run is over, as the flow says.
    ghost predicate Ended(flow: Flow)
      reads this
    {
      match flow
      case Continue => machine.status.ReturnedNil?
      case Stop(at, status) => at == machine.at && status == machine.status && (status.ReturnedError? || status.Panicking?)
    }

    // It is still the same run.
    twostate predicate KeepsRun()
      reads this
    {
      plan == old(plan) && rm == old(rm) && start == old(start) && initial == old(initial)
    }

    // What the calls that only talk to the remote host leave alone.
    twostate predicate KeepsManagers()
      reads this
    {
      && machine.current == old(machine.current) && machine.configs == old(machine.configs)
      && world.traffic == old(world.traffic) && KeepsRun()
    }

    // The two managers are in order.
    ghost predicate Managed()
      reads stateManager, stateManager.Records(), trafficManager, trafficManager.repr, trafficManager.host
    {
      stateManager.Valid() && trafficManager.Valid() && trafficManager.host.Valid()
    }

    ghost predicate Valid()
      reads this, stateManager, stateManager.Records(), trafficManager, trafficManager.repr, trafficManager.host
    {
      Managed() && Configured() && world.traffic == trafficManager.host.files
    }

    ghost predicate Linked()
      reads this, stateManager, stateManager.Records(), trafficManager, trafficManager.repr, trafficManager.host
    {
      && Valid() && machine.current == stateManager.CurrentState()
      && (machine.status.Running? && Rank(machine.at) > Rank(LoadTraffic) ==> machine.configs == trafficManager.loaded)
    }

    // Nothing happened to the managers.
    twostate lemma StaysManaged()
      requires old(Managed())
      requires unchanged(stateManager) && unchanged(old(stateManager.Records()))
      requires unchanged(trafficManager) && unchanged(trafficManager.host)
      requires unchanged(set o | o in old(trafficManager.repr) && o != null)
      ensures Managed() && stateManager.CurrentState() == old(stateManager.CurrentState())
      ensures trafficManager.loaded == old(trafficManager.loaded)
    {
      stateManager.CurrentStateKept();
      trafficManager.ValidKept();
    }

    constructor (plan: Plan, world: World, host: Traffic.Host)
      requires host.Valid() && host.files == world.traffic
      ensures Valid() && this.plan == plan && this.world == world && trafficManager.host == host
      ensures stateManager.CurrentState() == ZERO && stateManager.Records() == {}
      ensures fresh(stateManager) && fresh(trafficManager)
    {
      this.plan, this.world := plan, world;
      stateManager := new StateManager(plan.workDir, plan.codec);
      trafficManager := new Traffic.TrafficManager(host);
      rm := new RollbackManager(LoadsOf(plan));
      currentState, oldContainers := ZERO, [];
      start, initial, replies, machines, machine := world, ZERO, [], [Start(world, ZERO)], Start(world, ZERO);
    }

    ghost method Record(r: Reply)
      requires Traced(plan, start, initial, machines, replies) && machine == machines[|replies|]
      requires machine.status.Running? && Fits(plan, machine, r)
      modifies this`replies, this`machines, this`machine
      ensures machine == Answer(plan, old(machine), r)
      ensures Traced(plan, start, initial, machines, replies) && machine == machines[|replies|]
    {
      TracedFurther(plan, start, initial, machines, replies, r);
      machine := Answer(plan, machine, r);
      replies, machines := replies + [r], machines + [machine];
    }

    // What the replies lead to.

    ghost predicate Recorded()
      reads this
    {
      Traced(plan, start, initial, machines, replies) && machine == machines[|replies|]
    }

    ghost method RecordChange(response: Response, other: int)
      requires Recorded() && machine.status.Running? && machine.at in {Build, Push, MakeDirectory, Pull}
      requires response == plan.answers.response(machine.at) && other == plan.answers.other(machine.at)
      modifies this`replies, this`machines, this`machine
      ensures Recorded()
      ensures machine == Moved(old(machine).(world := old(machine).world.(other := other)), response,
                               Next(old(machine).at), old(machine).steps)
    {
      Record(Changes(response, other));
    }

    ghost method RecordWrite(response: Response, left: Option<string>)
      requires Recorded() && machine.status.Running? && machine.at == WriteOverride
      requires response == plan.answers.response(WriteOverride) && left == plan.answers.left(WriteOverride)
      modifies this`replies, this`machines, this`machine
      ensures Recorded()
      ensures var file := if response.Ok? then Some(plan.overrideFile) else left;
              machine == Moved(old(machine).(world := old(machine).world.(overrideFile := file)), response,
                               Pull, old(machine).steps + [OverrideStep])
    {
      Record(Writes(response, left));
    }

    ghost method RecordStart(response: Response, running: map<string, string>)
      requires Recorded() && machine.status.Running? && machine.at == Up
      requires response == plan.answers.response(Up) && running == plan.answers.running
      modifies this`replies, this`machines, this`machine
      ensures Recorded()
      ensures machine == Moved(old(machine).(world := old(machine).world.(running := running)), response,
                               AwaitContainers, old(machine).steps)
    {
      Record(Starts(response, running));
    }

    ghost method RecordGate(events: seq<HealthGate.Event>, healthy: bool)
      requires Recorded() && machine.status.Running? && machine.at == AwaitContainers
      requires events == HealthGate.Happening(|plan.Overrides()|, plan.answers.events)
      requires HealthGate.GateAnswers(|plan.Overrides()|, events, healthy)
      modifies this`replies, this`machines, this`machine
      ensures Recorded()
      ensures machine == Moved(old(machine), if healthy then Ok else Err, LoadTraffic, old(machine).steps + [UpStep])
    {
      Record(Gates(events, healthy));
    }

    ghost method RecordSwitch(result: Traffic.DeployResult, writes: nat, files: map<string, Traefik.ConfigValue>)
      requires Recorded() && machine.status.Running? && machine.at == DeployTraffic
      requires Traffic.Rerouted(machine.configs, machine.loaded.tag, plan.tag, machine.world.traffic, files, result, writes)
      modifies this`replies, this`machines, this`machine
      ensures Recorded()
      ensures machine == Moved(old(machine).(world := old(machine).world.(traffic := files)), ResponseOf(result),
                               ListOld, old(machine).steps + [TrafficStep])
    {
      Record(Switches(result, writes, files));
    }

    ghost method RecordList()
      requires Recorded() && machine.status.Running? && machine.at == ListOld
      modifies this`replies, this`machines, this`machine
      ensures Recorded()
      ensures machine ==
              if old(machine).loaded.compose.None? then old(machine).(status := Panicking)
              else old(machine).(oldNames := OldNames(old(machine).loaded.compose.value.services, plan.tag), at := DownOld)
    {
      Record(Lists);
    }

    ghost method RecordStop(response: Response, stopped: set<string>)
      requires Recorded() && machine.status.Running? && machine.at in {DownOld, DownOldAgain}
      requires response == plan.answers.response(machine.at) && stopped == plan.answers.stopped(machine.at)
      modifies this`replies, this`machines, this`machine
      ensures Recorded()
      ensures var running := old(machine).world.running - stopped;
              machine == Moved(old(machine).(world := old(machine).world.(running := running)), response,
                               Next(old(machine).at), old(machine).steps)
    {
      Record(Stops(response, stopped));
    }

    ghost method RecordUpdate(outcome: SaveOutcome)
      requires Recorded() && machine.status.Running? && machine.at == UpdateState
      requires outcome == plan.answers.saving(UpdateState)
      modifies this`replies, this`machines, this`machine
      ensures Recorded()
      ensures var (current, result, file) := UpdateOf(plan, old(machine), outcome);
              machine == Moved(old(machine).(current := current, world := old(machine).world.(stored := file)),
                               UpdateResponse(result), SaveState, old(machine).steps)
    {
      Record(Saves(outcome));
    }

    ghost method RecordSave(outcome: SaveOutcome)
      requires Recorded() && machine.status.Running? && machine.at == SaveState
      requires outcome == plan.answers.saving(SaveState)
      modifies this`replies, this`machines, this`machine
      ensures Recorded()
      ensures var (saved, file) := SaveOf(plan, old(machine), outcome);
              machine == old(machine).(world := old(machine).world.(stored := file),
                                       status := if saved == SavedOk then ReturnedNil else ReturnedError)
    {
      Record(Saves(outcome));
    }

    function FlowOf(s: Site, response: Response): Flow {
      match response
      case Ok => Continue
      case Err => Stop(s, ReturnedError)
      case Panic => Stop(s, Panicking)
    }

    // The calls that only talk to the remote host.

    method GetCurrentCommit() returns (flow: Flow)
      requires Stands(GetCommit)
      modifies this
      ensures Went(Build, flow) && KeepsManagers()
    {
      var response := plan.answers.response(GetCommit);
      Record(Responds(response));
      return FlowOf(GetCommit, response);
    }

    // Build, Push, MakeDirectory and Pull change images, the registry and directories only.
    method RunCommand(s: Site) returns (flow: Flow)
      requires s in {Build, Push, MakeDirectory, Pull} && Stands(s)
      modifies this
      ensures Went(Next(s), flow) && KeepsManagers()
    {
      var response, other := plan.answers.response(s), plan.answers.other(s);
      RecordChange(response, other);
      world := world.(other := other);
      return FlowOf(s, response);
    }

    // What is loaded cannot change a step that is already registered.
    lemma NothingRegisteredYet()
      requires Stands(LoadState)
      ensures machine.steps == []
    {
      TracedRuns(plan, start, initial, machines, replies);
      DeployRuns.RegisteredAtEveryPoint(plan, start, initial, replies, machine);
    }

    method LoadCurrentState() returns (flow: Flow)
      requires Stands(LoadState)
      modifies this
      ensures Went(SendCompose, flow) && KeepsManagers()
    {
      NothingRegisteredYet();
      var loaded := stateManager.Load(world.stored, plan.answers.testOk, plan.answers.catOk);
      Record(Reads(plan.answers.testOk, plan.answers.catOk));
      if loaded.Failure? { return Stop(LoadState, ReturnedError); }
      currentState := loaded.value;
      return Continue;
    }

    method SendComposeFile() returns (flow: Flow)
      requires Stands(SendCompose)
      modifies this
      ensures Went(WriteOverride, flow) && KeepsManagers()
    {
      var response, left := plan.answers.response(SendCompose), plan.answers.left(SendCompose);
      Record(Writes(response, left));
      world := world.(composeFile := if response.Ok? then Some(plan.composeFile) else left);
      return FlowOf(SendCompose, response);
    }

    method WriteOverrideFile() returns (flow: Flow)
      requires Stands(WriteOverride)
      modifies this, rm
      ensures Went(Pull, flow) && KeepsManagers()
    {
      var response, left := plan.answers.response(WriteOverride), plan.answers.left(WriteOverride);
      ghost var steps := machine.steps;
      RecordWrite(response, left);
      world := world.(overrideFile := if response.Ok? then Some(plan.overrideFile) else left);
      if response.Ok? { Register(steps, OverrideStep); }
      return FlowOf(WriteOverride, response);
    }

    // Adds the step that a call registers.
    method Register(ghost before: seq<StepName>, name: StepName)
      requires rm.steps == StepsOf(plan, currentState.tag, before)
      modifies rm
      ensures rm.steps == StepsOf(plan, currentState.tag, before + [name])
    {
      var step := StepOf(plan, currentState.tag, name);
      rm.AddRollbackStep(step.name, step.rollback, step.verify);
      StepsOfOneMore(plan, currentState.tag, before, name);
    }

    method UpContainers() returns (flow: Flow)
      requires Stands(Up)
      modifies this
      ensures Went(AwaitContainers, flow) && KeepsManagers()
    {
      var response, running := plan.answers.response(Up), plan.answers.running;
      RecordStart(response, running);
      world := world.(running := running);
      return FlowOf(Up, response);
    }

    // One check for each entry of the override.
    method AwaitHealthy() returns (flow: Flow)
      requires Stands(AwaitContainers)
      modifies this, rm
      ensures Went(LoadTraffic, flow) && KeepsManagers()
    {
      var overrides := Images.NewComposeOverride(plan.services, plan.tag);
      var events := HealthGate.Happening(|overrides|, plan.answers.events);
      var healthy := HealthGate.WaitForContainers(|overrides|, events);
      RecordGate(events, healthy);
      if !healthy { return Stop(AwaitContainers, ReturnedError); }
      Register(old(machine.steps), UpStep);
      return Continue;
    }

    method ListContainers() returns (flow: Flow)
      requires Stands(ListOld)
      modifies this
      ensures Went(DownOld, flow) && KeepsManagers()
    {
      RecordList();
      if currentState.compose.None? { return Stop(ListOld, Panicking); }
      oldContainers := ListOldContainers(currentState.compose.value.services, plan.tag);
      return Continue;
    }

    // The two calls of `down` with the old containers.
    method DownContainers(s: Site) returns (flow: Flow)
      requires s in {DownOld, DownOldAgain} && Stands(s)
      modifies this
      ensures Went(Next(s), flow) && KeepsManagers()
    {
      var response, stopped := plan.answers.response(s), plan.answers.stopped(s);
      RecordStop(response, stopped);
      world := world.(running := world.running - stopped);
      return FlowOf(s, response);
    }

    // The calls that go through a manager.

    method LoadConfigurations() returns (flow: Flow)
      requires Stands(LoadTraffic) && Linked()
      modifies this, trafficManager
      ensures KeepsRun() && Went(DeployTraffic, flow)
      ensures Linked()
    {
      var ok := trafficManager.Load(plan.answers.listable, plan.answers.readable);
      Record(Parses(ok));
      stateManager.CurrentStateKept();
      return if ok then Continue else Stop(LoadTraffic, ReturnedError);
    }

    // What DeployProject does with the answer of the traffic manager.
    method RegisterRouting(result: Traffic.DeployResult, ghost writes: nat, files: map<string, Traefik.ConfigValue>)
      returns (flow: Flow)
      requires Stands(DeployTraffic)
      requires Traffic.Rerouted(machine.configs, currentState.tag, plan.tag, world.traffic, files, result, writes)
      modifies this, rm
      ensures KeepsRun() && Went(ListOld, flow)
      ensures world.traffic == files && machine.configs == old(machine.configs) && machine.current == old(machine.current)
    {
      RecordSwitch(result, writes, files);
      world := world.(traffic := files);
      if result.Done? { Register(old(machine.steps), TrafficStep); }
      return FlowOf(DeployTraffic, ResponseOf(result));
    }

    // What it does with the answers of the state manager.

    method RegisterUpdate(ghost outcome: SaveOutcome, result: UpdateResult, left: Option<string>) returns (flow: Flow)
      requires Stands(UpdateState)
      requires outcome == plan.answers.saving(UpdateState)
      requires result == UpdateOf(plan, machine, outcome).1 && left == UpdateOf(plan, machine, outcome).2
      modifies this
      ensures KeepsRun() && Went(SaveState, flow)
      ensures world.traffic == old(world.traffic) && machine.configs == old(machine.configs)
      ensures machine.current == UpdateOf(plan, old(machine), outcome).0
    {
      RecordUpdate(outcome);
      world := world.(stored := left);
      return FlowOf(UpdateState, UpdateResponse(result));
    }

    method FinishUpdate(ghost outcome: SaveOutcome, result: UpdateResult, left: Option<string>) returns (flow: Flow)
      requires Stands(UpdateState) && Managed()
      requires outcome == plan.answers.saving(UpdateState)
      requires result == UpdateOf(plan, machine, outcome).1 && left == UpdateOf(plan, machine, outcome).2
      modifies this
      ensures KeepsRun() && Went(SaveState, flow)
      ensures world.traffic == old(world.traffic) && machine.configs == old(machine.configs)
      ensures machine.current == UpdateOf(plan, old(machine), outcome).0
      ensures Managed() && stateManager.CurrentState() == old(stateManager.CurrentState())
    {
      flow := RegisterUpdate(outcome, result, left);
      StaysManaged();
    }

    method FinishSave(ghost outcome: SaveOutcome, saved: Saved, left: Option<string>) returns (flow: Flow)
      requires Stands(SaveState) && outcome == plan.answers.saving(SaveState) && (saved, left) == SaveOf(plan, machine, outcome)
      modifies this
      ensures KeepsRun() && Synced() && !machine.status.Running?
      ensures world.traffic == old(world.traffic) && machine.configs == old(machine.configs)
      ensures machine.current == old(machine.current) && machine.at == SaveState
      ensures Ended(flow)
    {
      RecordSave(outcome);
      world := world.(stored := left);
      return FlowOf(SaveState, if saved == SavedOk then Ok else Err);
    }

    // The calls in the source's order, in phases. `:-` is the return after an error, and the
    // unwinding after a panic.

    method Publish() returns (flow: Flow)
      requires Stands(GetCommit)
      modifies this
      ensures Went(SendCompose, flow) && KeepsManagers()
    {
      flow := Continue;
      :- GetCurrentCommit();
      :- RunCommand(Build);
      :- RunCommand(Push);
      :- RunCommand(MakeDirectory);
      :- LoadCurrentState();
    }

    method BringUp() returns (flow: Flow)
      requires Stands(SendCompose)
      modifies this, rm
      ensures Went(LoadTraffic, flow) && KeepsManagers()
    {
      flow := Continue;
      :- SendComposeFile();
      :- WriteOverrideFile();
      :- RunCommand(Pull);
      :- UpContainers();
      :- AwaitHealthy();
    }

    method RetireOld() returns (flow: Flow)
      requires Stands(ListOld)
      modifies this
      ensures Went(UpdateState, flow) && KeepsManagers()
    {
      flow := Continue;
      :- ListContainers();
      :- DownContainers(DownOld);
      :- DownContainers(DownOldAgain);
    }

    // The switch itself, which the run is told of afterwards.
    method CallDeploy() returns (result: Traffic.DeployResult, ghost writes: nat)
      requires Managed() && '/' !in plan.tag
      modifies trafficManager.host
      ensures Managed() && stateManager.CurrentState() == old(stateManager.CurrentState())
      ensures Traffic.Rerouted(trafficManager.loaded, currentState.tag, plan.tag,
                               old(trafficManager.host.files), trafficManager.host.files, result, writes)
    {
      ghost var before := trafficManager.host.files;
      ghost var switch;
      result, switch := trafficManager.Deploy(Some(currentState.tag), plan.tag);
      writes := |switch.writes|;
      ghost var loaded, tag, after := trafficManager.loaded, plan.tag, trafficManager.host.files;
      Traffic.SwitchReroutes(loaded, currentState.tag, tag, before, after, result, switch);
      Traffic.SwitchKeepsNames(before, after, tag);
      stateManager.CurrentStateKept();
    }

    method FinishRouting(result: Traffic.DeployResult, ghost writes: nat) returns (flow: Flow)
      requires Stands(DeployTraffic) && Managed() && machine.current == stateManager.CurrentState()
      requires machine.configs == trafficManager.loaded
      requires Traffic.Rerouted(machine.configs, currentState.tag, plan.tag, world.traffic, trafficManager.host.files,
                                result, writes)
      modifies this, rm
      ensures KeepsRun() && Went(ListOld, flow)
      ensures Linked()
    {
      flow := RegisterRouting(result, writes, trafficManager.host.files);
      StaysManaged();
    }

    method RouteTraffic() returns (flow: Flow)
      requires Stands(DeployTraffic) && Linked()
      modifies this, rm, trafficManager.host
      ensures KeepsRun() && Went(ListOld, flow)
      ensures Linked()
    {
      var result, writes := CallDeploy();
      flow := FinishRouting(result, writes);
    }

    // The configurations that the update records, with every pointer followed.
    method ConfigurationValues() returns (values: map<string, Traefik.ConfigValue>)
      requires trafficManager.Valid()
      ensures values == Undeployed(trafficManager.loaded)
    {
      var configs := trafficManager.GetDynamicConfigs();
      values := map name | name in configs :: configs[name].Value();
    }

    // The update itself, which the run is told of afterwards.
    method CallUpdate(ghost m: Machine, file: Option<string>, outcome: SaveOutcome)
      returns (result: UpdateResult, left: Option<string>)
      requires Managed() && Configured() && m.current == stateManager.CurrentState() && m.configs == trafficManager.loaded
      requires m.world.stored == file
      modifies stateManager, stateManager.Records()
      ensures Managed() && (stateManager.CurrentState(), result, left) == UpdateOf(plan, m, outcome)
      ensures trafficManager.loaded == old(trafficManager.loaded)
    {
      var overrides := Images.NewComposeOverride(plan.services, plan.tag);
      var values := ConfigurationValues();
      stateManager.CurrentStateKept();
      result, left := stateManager.Update(overrides, values, plan.tag, file, outcome);
      trafficManager.ValidKept();
    }

    method UpdateCurrentState() returns (flow: Flow)
      requires Stands(UpdateState) && Linked()
      modifies this, stateManager, stateManager.Records()
      ensures KeepsRun() && Went(SaveState, flow)
      ensures Linked()
    {
      var outcome := plan.answers.saving(UpdateState);
      var result, left := CallUpdate(machine, world.stored, outcome);
      flow := FinishUpdate(outcome, result, left);
    }

    method SaveCurrentState() returns (flow: Flow)
      requires Stands(SaveState) && Linked()
      modifies this
      ensures KeepsRun() && Synced() && !machine.status.Running?
      ensures Ended(flow)
      ensures machine.at == SaveState && Linked()
    {
      var outcome := plan.answers.saving(SaveState);
      var saved, left := stateManager.Save(world.stored, outcome);
      stateManager.CurrentStateKept();
      flow := FinishSave(outcome, saved, left);
      StaysManaged();
    }

    // The phases around the calls that go through a manager.

    method Prepare() returns (flow: Flow)
      requires Stands(GetCommit) && Linked()
      modifies this, rm
      ensures Went(LoadTraffic, flow) && KeepsManagers() && Linked()
    {
      flow := Publish();
      if flow.Continue? { flow := BringUp(); }
      StaysManaged();
    }

    method Retire() returns (flow: Flow)
      requires Stands(ListOld) && Linked()
      modifies this
      ensures Went(UpdateState, flow) && KeepsManagers() && Linked()
    {
      flow := RetireOld();
      StaysManaged();
    }

    method SwitchTraffic() returns (flow: Flow)
      requires Stands(LoadTraffic) && Linked()
      modifies this, rm, trafficManager, trafficManager.host
      ensures KeepsRun() && Went(ListOld, flow)
      ensures Linked()
    {
      flow := Continue;
      :- LoadConfigurations();
      :- RouteTraffic();
    }

    method Commit() returns (flow: Flow)
      requires Stands(UpdateState) && Linked()
      modifies this, stateManager, stateManager.Records()
      ensures KeepsRun() && Synced() && Ended(flow)
      ensures Linked()
    {
      flow := Continue;
      :- UpdateCurrentState();
      :- SaveCurrentState();
    }

    method Body() returns (flow: Flow)
      requires Stands(GetCommit) && Linked()
      modifies this, rm, stateManager, stateManager.Records(), trafficManager, trafficManager.host
      ensures KeepsRun() && Synced() && Ended(flow)
      ensures Linked()
    {
      flow := Continue;
      :- Prepare();
      :- SwitchTraffic();
      :- Retire();
      :- Commit();
    }

    // The run of no reply.
    ghost method StartRun(current: DeploymentState)
      modifies this`start, this`initial, this`replies, this`machines, this`machine
      ensures start == world && initial == current
      ensures replies == [] && machines == [machine] && machine == Start(start, initial)
    {
      start, initial, replies := world, current, [];
      machine := Start(start, initial);
      machines := [machine];
    }

    // The variables of DeployProject at its start.
    method Reset(release: Release)
      requires Configured() && '/' !in release.tag
      modifies this
      ensures plan == old(plan).For(release)
      ensures fresh(rm) && Stands(GetCommit) && machine == Start(start, initial)
      ensures world == old(world) == start && initial == old(stateManager.CurrentState())
    {
      ghost var current := stateManager.CurrentState();
      plan := plan.For(release);
      rm := new RollbackManager(LoadsOf(plan));
      currentState, oldContainers := ZERO, [];
      StartRun(current);
      TracedAtStart(plan, start, initial);
      assert (set name | name in oldContainers) == {};
    }

    method Begin(release: Release)
      requires Valid() && '/' !in release.tag
      modifies this
      ensures plan == old(plan).For(release)
      ensures fresh(rm) && Stands(GetCommit) && Linked()
      ensures world == old(world) == start && initial == old(stateManager.CurrentState())
    {
      Reset(release);
      StaysManaged();
    }

    // The deferred recovery: after a panic, the rollback of what was registered.
    method Recover(flow: Flow) returns (outcome: DeployOutcome)
      requires Synced() && Ended(flow)
      modifies this`world
      ensures (world, outcome) == Finish(plan, machine)
      ensures world.traffic == old(world.traffic)
    {
      if flow.Continue? { return DeployNil; }
      if flow.status.ReturnedError? { return DeployError(flow.at); }
      DeployRuns.FinishTakesDown(plan, machine);
      var restored, rollback, report := rm.Rollback(world);
      assert report == Unwind(StepsOf(plan, machine.loaded.tag, machine.steps), machine.world);
      assert rollback == Conclude(report, LoadsOf(plan)(0, machine.world), LoadsOf(plan)(1, report.world));
      world := restored;
      return Recovered(flow.at, rollback);
    }

    method Finally(flow: Flow) returns (outcome: DeployOutcome)
      requires Synced() && Ended(flow) && Linked()
      modifies this`world
      ensures (world, outcome) == Finish(plan, machine) && Valid()
      ensures stateManager.CurrentState() == old(stateManager.CurrentState())
    {
      outcome := Recover(flow);
      StaysManaged();
    }

    // Main result: a deploy is a run of the machine and its recovery. It goes through its calls as
    // long as the host answers well, and ends in the first that it does not. With the state manager's own
    // state still at its zero value, which is how the constructor makes it, the deploy does not
    // return nil, the state file is what it was, and the state manager is left as it was.
    method DeployProject(release: Release) returns (outcome: DeployOutcome)
      requires Valid() && '/' !in release.tag
      modifies this, stateManager, stateManager.Records(), trafficManager, trafficManager.host
      ensures Valid() && plan == old(plan).For(release)
      ensures Run(plan, old(world), old(stateManager.CurrentState()), replies, machine)
      ensures !machine.status.Running? && (world, outcome) == Finish(plan, machine)
      ensures DeployAnswers.FollowsHost(plan, old(world), old(stateManager.CurrentState()), replies, outcome)
      ensures old(stateManager.CurrentState()) == ZERO ==>
                stateManager.CurrentState() == ZERO && outcome != DeployNil && world.stored == old(world.stored)
    {
      Begin(release);
      var flow := Body();
      TracedRuns(plan, start, initial, machines, replies);
      DeployAnswers.DeployFollowsHost(plan, start, initial, replies, machine);
      if initial == ZERO { DeployRuns.NeverSucceeds(plan, start, replies, machine); }
      outcome := Finally(flow);
    }

    // One deploy of many.
    method DeployNext(release: Release) returns (outcome: DeployOutcome)
      requires Valid() && stateManager.CurrentState() == ZERO && '/' !in release.tag
      modifies this, stateManager, trafficManager, trafficManager.host
      ensures Valid() && stateManager.CurrentState() == ZERO
      ensures outcome != DeployNil && world.stored == old(world.stored)
      ensures DeployRuns.SwitchesOnce(stateManager.codec, release.tag, old(world), world, outcome)
    {
      outcome := DeployProject(release);
      DeployRuns.FinishSwitchesOnce(plan, old(world), ZERO, replies, machine);
    }

    // Main result: however often a deployer deploys, whatever releases, none of its deploys returns
    // nil, the state file is never written, and no file of Traefik's directory is ever changed or
    // removed. Unless that directory was empty, each tag that the state file does not record gets
    // past the switch once at most.
    method DeployRepeatedly(releases: seq<Release>) returns (outcomes: seq<DeployOutcome>)
      requires Valid() && stateManager.CurrentState() == ZERO && forall r <- releases :: '/' !in r.tag
      modifies this, stateManager, trafficManager, trafficManager.host
      ensures Valid() && stateManager.CurrentState() == ZERO
      ensures |outcomes| == |releases| && DeployNil !in outcomes && world.stored == old(world.stored)
      ensures forall file | file in old(world.traffic) :: file in world.traffic && world.traffic[file] == old(world.traffic)[file]
      ensures old(world.traffic) != map[] ==>
                DeployRuns.EachTagOnce(stateManager.codec, old(world.stored), releases, outcomes)
    {
      outcomes := [];
      ghost var traffic := world.traffic;
      for i := 0 to |releases|
        invariant Valid() && stateManager.CurrentState() == ZERO
        invariant |outcomes| == i && DeployNil !in outcomes && world.stored == old(world.stored)
        invariant forall file | file in traffic :: file in world.traffic && world.traffic[file] == traffic[file]
        invariant traffic != map[] ==>
                    && world.traffic != map[]
                    && DeployRuns.EachTagOnce(stateManager.codec, world.stored, releases[..i], outcomes)
                    && DeployRuns.FilesOf(stateManager.codec, world.stored, releases[..i], outcomes, world.traffic)
      {
        ghost var before := world;
        var outcome := DeployNext(releases[i]);
        if traffic != map[] {
          DeployRuns.OneMoreRelease(stateManager.codec, releases[..i], outcomes, before, world, releases[i], outcome);
        }
        outcomes := outcomes + [outcome];
        assert releases[..i + 1] == releases[..i] + [releases[i]];
      }
      assert releases[..|releases|] == releases;
    }
  }

  // A deployer made for a host, and any sequence of releases: no deploy returns nil, the host's state
  // file and the files of Traefik's directory stay, and no tag gets past the switch twice.
  method Deploys(plan: Plan, world: World, host: Traffic.Host, releases: seq<Release>)
    returns (d: Deployer, outcomes: seq<DeployOutcome>)
    requires host.Valid() && host.files == world.traffic && forall r <- releases :: '/' !in r.tag
    modifies host
    ensures |outcomes| == |releases| && DeployNil !in outcomes && d.world.stored == world.stored
    ensures d.world.traffic == host.files
    ensures forall file | file in world.traffic :: file in host.files && host.files[file] == world.traffic[file]
    ensures world.traffic != map[] ==> DeployRuns.EachTagOnce(plan.codec, world.stored, releases, outcomes)
  {
    d := new Deployer(plan, world, host);
    outcomes := d.DeployRepeatedly(releases);
  }
}
