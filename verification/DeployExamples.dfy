/**
 Two deploys of one service on a host that runs its first version and has no state file, and a
 switch on a host that has one. In the first deploy nothing goes wrong until the update; in the
 second the new container does not get healthy in time.
 */
module DeployExamples {
  import opened Wrappers
  import opened State
  import opened Rollback
  import opened DeployMachine
  import opened DeployRuns
  import HealthGate
  import Images
  import Traefik
  import Traffic
  import Urls

  // The second version, as an image to pull and as one to build.
  const PULLED := Images.Service("web", "web", "app:2", None)
  const BUILT := Images.Service("web", "web", "app:1", Some(Images.Build(".", "", [])))

  // Every command works; `up` starts the second version, and `down` takes down the whole project, as
  // it does without a name that it knows.
  function ExampleAnswers(events: seq<HealthGate.Event>): Answers {
    Answers(_ => Ok, _ => 0, _ => None, map["web" := "app:2"], _ => {"web"}, true, true, true, _ => true, _ => Written, events)
  }

  function ExamplePlan(service: Images.Service, events: seq<HealthGate.Event>): Plan {
    Plan("2", [service], "compose", "override", "uberbase", Codec(_ => "", _ => None), ExampleAnswers(events),
         Recovery(_ => (Ok, None), _ => true, _ => (Ok, {"web"}), _ => false, _ => Ok, _ => true, _ => true))
  }

  function ExampleWorld(): World { World(None, None, map["web" := "app:1"], map[], None, 0) }

  lemma PulledIsDeployed(p: Plan)
    requires p.services == [PULLED] && p.tag == "2"
    ensures p.Overrides() == map[] && p.Deployed() == map["web" := "app:2"]
  {
    var services := [PULLED];
    assert services[..0] == [] && Images.Overrides([], "2") == map[] && Images.Base([]) == map[];
    assert Images.Overrides(services, "2") == map[];
    assert Images.Base(services) == map["web" := "app:2"];
  }

  lemma BuiltEntry()
    ensures Images.OverrideEntry(BUILT, "2") == Images.ServiceOverride("web", "web-2", "web-2", "app:2")
  {
    assert "app:1" == "app" + ":" + "1";
    Images.StripTagOfTagged("app", "1");
    assert "web" + "-" + "2" == "web-2" && "app" + ":" + "2" == "app:2";
  }

  lemma BuiltIsDeployed(p: Plan)
    requires p.services == [BUILT] && p.tag == "2"
    ensures p.Deployed() == map["web" := "app:2"]
  {
    BuiltEntry();
    var services := [BUILT];
    assert services[..0] == [] && Images.Overrides([], "2") == map[] && Images.Base([]) == map[];
    assert Images.Overrides(services, "2") == map[]["web" := Images.OverrideEntry(BUILT, "2")];
    assert Images.Base(services) == map["web" := "app:1"];
  }

  // Nothing is built, so there is nothing to wait for; `down` without names stops the project.
  function ExampleReplies(): seq<Reply> {
    [Responds(Ok), Changes(Ok, 0), Changes(Ok, 0), Changes(Ok, 0), Reads(true, true), Writes(Ok, None), Writes(Ok, None),
     Changes(Ok, 0), Starts(Ok, map["web" := "app:2"]), Gates(HealthGate.NothingToCheck(), true),
     Parses(true), Switches(Traffic.Done, 0, map[]), Lists, Stops(Ok, {"web"}), Stops(Ok, {"web"}), Saves(Written)]
  }

  // The call number k, of those that the example gets to.
  function SiteAt(k: nat): Site {
    match k
    case 0 => GetCommit case 1 => Build case 2 => Push case 3 => MakeDirectory
    case 4 => LoadState case 5 => SendCompose case 6 => WriteOverride case 7 => Pull
    case 8 => Up case 9 => AwaitContainers case 10 => LoadTraffic case 11 => DeployTraffic
    case 12 => ListOld case 13 => DownOld case 14 => DownOldAgain case _ => UpdateState
  }

  // The host before the call number k.
  function ExampleHost(k: nat): World {
    World(if k > 5 then Some("compose") else None,
          if k > 6 then Some("override") else None,
          if k <= 8 then map["web" := "app:1"] else if k <= 13 then map["web" := "app:2"] else map[],
          map[], None, 0)
  }

  function ExampleMachine(k: nat): Machine {
    Machine(SiteAt(k), ExampleHost(k), if k > 4 then EMPTY else ZERO, map[], {}, ZERO, RegisteredBefore(SiteAt(k)), Running)
  }

  // What the steps need of the plan.
  ghost predicate Ours(p: Plan) {
    && p.tag == "2" && p.composeFile == "compose" && p.overrideFile == "override"
    && (exists events :: p.answers == ExampleAnswers(events))
  }

  // Nothing is built, and the gate has announced that nothing is wrong.
  ghost predicate NothingBuilt(p: Plan) { |p.Overrides()| == 0 && p.answers.events == HealthGate.NothingToCheck() }

  lemma ExampleStepEarly(p: Plan, k: nat)
    requires Ours(p) && k < 5
    ensures Fits(p, ExampleMachine(k), ExampleReplies()[k])
    ensures Answer(p, ExampleMachine(k), ExampleReplies()[k]) == ExampleMachine(k + 1)
  {
  }

  lemma ExampleStepUp(p: Plan, k: nat)
    requires Ours(p) && 5 <= k < 9
    ensures Fits(p, ExampleMachine(k), ExampleReplies()[k])
    ensures Answer(p, ExampleMachine(k), ExampleReplies()[k]) == ExampleMachine(k + 1)
  {
  }

  lemma GateOpens(p: Plan, m: Machine, events: seq<HealthGate.Event>)
    requires m.at == AwaitContainers && m.status.Running? && HealthGate.GateAnswers(|p.Overrides()|, events, true)
    requires p.answers.events == events
    ensures Fits(p, m, Gates(events, true))
    ensures Answer(p, m, Gates(events, true)) == m.(at := LoadTraffic, steps := m.steps + [UpStep])
  {
  }

  lemma MachinesAtTheGate()
    ensures ExampleMachine(9).at == AwaitContainers && ExampleMachine(9).status.Running?
    ensures ExampleMachine(10) == ExampleMachine(9).(at := LoadTraffic, steps := ExampleMachine(9).steps + [UpStep])
  {
    assert [OverrideStep] + [UpStep] == [OverrideStep, UpStep];
  }

  lemma ExampleStepHealthy(p: Plan, events: seq<HealthGate.Event>)
    requires HealthGate.GateAnswers(|p.Overrides()|, events, true) && p.answers.events == events
    ensures Fits(p, ExampleMachine(9), Gates(events, true))
    ensures Answer(p, ExampleMachine(9), Gates(events, true)) == ExampleMachine(10)
  {
    MachinesAtTheGate();
    GateOpens(p, ExampleMachine(9), events);
  }

  lemma ExampleStepLoad(p: Plan)
    requires Ours(p)
    ensures Fits(p, ExampleMachine(10), ExampleReplies()[10])
    ensures Answer(p, ExampleMachine(10), ExampleReplies()[10]) == ExampleMachine(11)
  {
  }

  // With no configuration there is nothing to switch.
  lemma EmptySwitch(oldTag: string, tag: string)
    requires tag != "" && oldTag != tag
    ensures Traffic.Rerouted(map[], oldTag, tag, map[], map[], Traffic.Done, 0)
  {
  }

  lemma ExampleStepTraffic(p: Plan)
    requires Ours(p)
    ensures Fits(p, ExampleMachine(11), ExampleReplies()[11])
    ensures Answer(p, ExampleMachine(11), ExampleReplies()[11]) == ExampleMachine(12)
  {
    EmptySwitch("", "2");
  }

  lemma ExampleStepList(p: Plan)
    requires Ours(p)
    ensures Fits(p, ExampleMachine(12), ExampleReplies()[12])
    ensures Answer(p, ExampleMachine(12), ExampleReplies()[12]) == ExampleMachine(13)
  {
    assert OldKeys(map[], "2") == {} && OldNames(map[], "2") == {};
  }

  lemma ExampleStepDown(p: Plan)
    requires Ours(p)
    ensures Fits(p, ExampleMachine(13), ExampleReplies()[13])
    ensures Answer(p, ExampleMachine(13), ExampleReplies()[13]) == ExampleMachine(14)
  {
    assert map["web" := "app:2"] - {"web"} == map[];
  }

  lemma ExampleStepDownAgain(p: Plan)
    requires Ours(p)
    ensures Fits(p, ExampleMachine(14), ExampleReplies()[14])
    ensures Answer(p, ExampleMachine(14), ExampleReplies()[14]) == ExampleMachine(15)
  {
    var none: map<string, string> := map[];
    assert none - {"web"} == none;
  }

  lemma NothingToWaitFor(p: Plan)
    requires NothingBuilt(p)
    ensures Fits(p, ExampleMachine(9), ExampleReplies()[9])
    ensures Answer(p, ExampleMachine(9), ExampleReplies()[9]) == ExampleMachine(10)
  {
    HealthGate.NothingToCheckIsHealthy();
    ExampleStepHealthy(p, HealthGate.NothingToCheck());
  }

  lemma ExampleStep(p: Plan, k: nat)
    requires Ours(p) && k < 15 && (k >= 9 ==> NothingBuilt(p))
    ensures Fits(p, ExampleMachine(k), ExampleReplies()[k])
    ensures Answer(p, ExampleMachine(k), ExampleReplies()[k]) == ExampleMachine(k + 1)
  {
    if k < 5 { ExampleStepEarly(p, k); }
    else if k < 9 { ExampleStepUp(p, k); }
    else if k == 9 { NothingToWaitFor(p); }
    else if k == 10 { ExampleStepLoad(p); }
    else if k == 11 { ExampleStepTraffic(p); }
    else if k == 12 { ExampleStepList(p); }
    else if k == 13 { ExampleStepDown(p); }
    else { ExampleStepDownAgain(p); }
  }

  lemma ExampleStarts(p: Plan)
    ensures Run(p, ExampleWorld(), ZERO, [], ExampleMachine(0))
  {
  }

  // One reply more.
  lemma ExampleGoesOn(p: Plan, all: seq<Reply>, k: nat, m: Machine, n: Machine)
    requires k < |all| && Run(p, ExampleWorld(), ZERO, all[..k], m)
    requires m.status.Running? && Fits(p, m, all[k]) && Answer(p, m, all[k]) == n
    ensures Run(p, ExampleWorld(), ZERO, all[..k + 1], n)
  {
    Extend(p, ExampleWorld(), ZERO, all[..k], m, all[k], n);
    assert all[..k] + [all[k]] == all[..k + 1];
  }

  lemma {:induction false} ExampleRuns(p: Plan, all: seq<Reply>, k: nat)
    requires Ours(p) && all == ExampleReplies() && k <= 15 && (k > 9 ==> NothingBuilt(p))
    ensures Run(p, ExampleWorld(), ZERO, all[..k], ExampleMachine(k))
  {
    if k == 0 {
      ExampleStarts(p);
      assert all[..0] == [];
    } else {
      ExampleRuns(p, all, k - 1);
      ExampleStep(p, k - 1);
      ExampleGoesOn(p, all, k - 1, ExampleMachine(k - 1), ExampleMachine(k));
    }
  }

  // The container runtime of the examples does what compose does.
  lemma ExampleRuntimeWorks(p: Plan)
    requires (p.services == [PULLED] || p.services == [BUILT]) && p.tag == "2"
    ensures UpWorks(p, ExampleWorld(), ExampleReplies())
    ensures DownAllWorks(p, ExampleReplies(), {})
  {
    if p.services == [PULLED] { PulledIsDeployed(p); } else { BuiltIsDeployed(p); }
    assert map["web" := "app:1"] + map["web" := "app:2"] == map["web" := "app:2"];
  }

  lemma ExamplePanics(p: Plan)
    requires Ours(p)
    ensures Fits(p, ExampleMachine(15), ExampleReplies()[15])
    ensures Answer(p, ExampleMachine(15), ExampleReplies()[15]) == ExampleMachine(15).(status := Panicking)
  {
  }

  lemma NothingRuns(p: Plan, m: Machine)
    requires m.world.running == map[] && m.status.Panicking?
    ensures Finish(p, m).1.Recovered? && Finish(p, m).0.running == map[]
  {
    FinishTakesDown(p, m);
  }

  // The promise that a failed deploy brings back the previous version does not hold: this deploy,
  // on which only the update panics, leaves the host with nothing running.
  lemma PreviousVersionIsLost()
    ensures var p, m := ExamplePlan(PULLED, HealthGate.NothingToCheck()), ExampleMachine(15).(status := Panicking);
            && Run(p, ExampleWorld(), ZERO, ExampleReplies(), m)
            && UpWorks(p, ExampleWorld(), ExampleReplies()) && DownAllWorks(p, ExampleReplies(), m.oldNames)
            && Finish(p, m).1.Recovered? && Finish(p, m).0.running == map[]
  {
    var p, all := ExamplePlan(PULLED, HealthGate.NothingToCheck()), ExampleReplies();
    var m := ExampleMachine(15).(status := Panicking);
    ExampleRuntimeWorks(p);
    PulledIsDeployed(p);
    assert p.answers == ExampleAnswers(HealthGate.NothingToCheck());
    ExampleRuns(p, all, 15);
    ExamplePanics(p);
    ExampleGoesOn(p, all, 15, ExampleMachine(15), m);
    assert all[..16] == all;
    NothingRuns(p, m);
  }

  lemma ExampleTimesOut(p: Plan, events: seq<HealthGate.Event>)
    requires HealthGate.GateAnswers(|p.Overrides()|, events, false) && p.answers.events == events
    ensures Fits(p, ExampleMachine(9), Gates(events, false))
    ensures Answer(p, ExampleMachine(9), Gates(events, false)) == ExampleMachine(9).(status := ReturnedError)
    ensures ExampleMachine(9).at == AwaitContainers
  {
  }

  // Nor does it after an ordinary error: this deploy, on which the gate does not answer in time
  // (as when nothing has happened in it yet, HealthGate.NothingYet), leaves the new version running
  // and the override file in place.
  lemma LateContainerStays(events: seq<HealthGate.Event>)
    requires HealthGate.GateAnswers(|ExamplePlan(BUILT, events).Overrides()|, events, false)
    ensures var p, m := ExamplePlan(BUILT, events), ExampleMachine(9).(status := ReturnedError);
            && Run(p, ExampleWorld(), ZERO, ExampleReplies()[..9] + [Gates(events, false)], m)
            && UpWorks(p, ExampleWorld(), ExampleReplies()[..9] + [Gates(events, false)])
            && Finish(p, m) == (ExampleHost(9), DeployError(AwaitContainers))
    ensures ExampleHost(9).running == map["web" := "app:2"] && ExampleHost(9).overrideFile == Some("override")
    ensures !AsBefore(ExampleWorld(), ExampleHost(9))
  {
    var p := ExamplePlan(BUILT, events);
    ExampleRuntimeWorks(p);
    assert p.answers == ExampleAnswers(events);
    ExampleRuns(p, ExampleReplies(), 9);
    ExampleTimesOut(p, events);
    Extend(p, ExampleWorld(), ZERO, ExampleReplies()[..9], ExampleMachine(9), Gates(events, false),
           ExampleMachine(9).(status := ReturnedError));
  }

  // A router and a service with one server, as Traefik's file provider reads them.
  function ExampleConfig(): Traefik.ConfigValue {
    var server := Traefik.Server(Urls.TaggedURL("web", "1", 80), 0);
    var service := Traefik.ServiceValue(Some(Traefik.LoadBalancerValue([server], "/health")), 0);
    Traefik.ConfigValue(Some(Traefik.HTTPValue(map["web" := Traefik.Router("web", 0)], Some(map["web" := service]))), 0)
  }

  lemma ExampleConfigIsReady()
    ensures Traffic.Ready(ExampleConfig())
  {
    Urls.TaggedURLRoundTrip("web", "1", 80);
  }

  // A directory of one configuration, before and after the switch to the second version.
  function Routes(c: Traefik.ConfigValue): map<string, Traefik.ConfigValue> { map["web.yml" := c] }

  function SwitchedRoutes(c: Traefik.ConfigValue): map<string, Traefik.ConfigValue> {
    Routes(c)["2-deploy.yml" := c]
  }

  lemma ExampleSwitches(c: Traefik.ConfigValue)
    requires Traffic.Ready(c)
    ensures Traffic.Switched(Routes(c), Some("1"), "2", Routes(c), SwitchedRoutes(c), Traffic.Done,
                             Traffic.Switch([true], [Traffic.Gate(c, Traffic.Received(true))], []))
  {
    assert Traffic.DeployName("2") == "2-deploy.yml";
    assert Traffic.DeployFiles(Routes(c), "1") == {} && Traffic.DeployFiles(Routes(c), "2") == {};
    assert Traffic.Selected(Routes(c), "2") == {"web.yml"};
    assert Traffic.OnlyFileChanged(Routes(c), SwitchedRoutes(c), "2-deploy.yml");
    assert Traffic.HoldsOneOf(Routes(c), SwitchedRoutes(c), "2-deploy.yml") by { assert Routes(c)["web.yml"] == c; }
  }

  // And the rollback leaves a switched directory switched: on a host whose state records the first
  // version, the switch to the second adds a file, and whichever steps are undone it stays, although
  // the traffic step and its health check find no error.
  lemma SwitchIsNotUndone(p: Plan, c: Traefik.ConfigValue, w: World, names: seq<StepName>, index: nat)
    requires Traffic.Ready(c) && w.traffic == Routes(c)
    requires p.recovery.gate(w.(traffic := SwitchedRoutes(c))) == Ok
    ensures Traffic.Switched(w.traffic, Some("1"), "2", w.traffic, SwitchedRoutes(c), Traffic.Done,
                             Traffic.Switch([true], [Traffic.Gate(c, Traffic.Received(true))], []))
    ensures var after := w.(traffic := SwitchedRoutes(c));
            && RunStep(StepOf(p, "1", TrafficStep), index, after) ==
               Report(after, [Undone(index, true), Verified(index, true)], [], false)
            && Unwind(StepsOf(p, "1", names), after).world.traffic == SwitchedRoutes(c) != w.traffic
  {
    ExampleSwitches(c);
    UnwindTakesDown(p, "1", names, w.(traffic := SwitchedRoutes(c)));
    assert "2-deploy.yml" in SwitchedRoutes(c) && "2-deploy.yml" !in Routes(c);
  }
}
