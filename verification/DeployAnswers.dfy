/**
 What the answers of the host decide: where a deploy ends, and when a rollback reports nothing.
 */
module DeployAnswers {
  import opened Wrappers
  import opened State
  import opened Rollback
  import opened DeployMachine
  import opened DeployRuns
  import HealthGate
  import HereDoc
  import Strings
  import Traefik
  import Traffic

  // What the state file holds, as far as the connection tells.
  function Loaded(p: Plan, w: World): Option<DeploymentState> {
    if !p.answers.testOk || w.stored.None? then Some(EMPTY)
    else if p.answers.catOk then p.codec.unmarshal(w.stored.value)
    else None
  }

  function SaveSays(p: Plan, s: Site): Response {
    if p.workDir != "" && p.answers.saving(s) == Written then Ok else Err
  }

  // How a call ends, by what the host answers and holds: a command as it is answered; the load as
  // the state file can be read; the wait as something is received from the gate; and so on. What
  // the switch answered is in its reply.
  function HostSays(p: Plan, w: World, current: DeploymentState, replies: seq<Reply>, s: Site): Response {
    match s
    case GetCommit | Build | Push | MakeDirectory | SendCompose | WriteOverride | Pull | Up | DownOld | DownOldAgain =>
      p.answers.response(s)
    case LoadState => if Loaded(p, w).Some? then Ok else Err
    case AwaitContainers =>
      if HealthGate.Received(HealthGate.Happening(|p.Overrides()|, p.answers.events)) then Ok else Err
    case LoadTraffic => if CanLoad(p.answers, w.traffic) then Ok else Err
    case DeployTraffic =>
      if |replies| <= 11 || !replies[11].Switches? then Err
      else if replies[11].result == Traffic.Done then Ok
      else if replies[11].result == Traffic.Panicked then Panic
      else Err
    case ListOld => if Loaded(p, w).Some? && Loaded(p, w).value.compose.Some? then Ok else Panic
    case UpdateState => if current.compose.Some? && current.traefik.Some? then SaveSays(p, s) else Panic
    case SaveState => SaveSays(p, s)
  }

  predicate EndsWith(response: Response, s: Site, o: DeployOutcome) {
    match response
    case Ok => s == SaveState && o == DeployNil
    case Err => o == DeployError(s)
    case Panic => o.Recovered? && o.at == s
  }

  // Every call but the last went well, and the last one decides the outcome.
  ghost predicate FollowsHost(p: Plan, w: World, current: DeploymentState, replies: seq<Reply>, o: DeployOutcome) {
    && replies != []
    && (forall s | Rank(s) < |replies| - 1 :: HostSays(p, w, current, replies, s) == Ok)
    && (forall s | Rank(s) == |replies| - 1 :: EndsWith(HostSays(p, w, current, replies, s), s, o))
  }

  lemma LoadedIs(p: Plan, w: World, replies: seq<Reply>, m: Machine)
    requires TracksLoaded(p, w, replies, m) && Rank(m.at) > Rank(LoadState)
    requires |replies| > 4 && replies[4] == Reads(p.answers.testOk, p.answers.catOk)
    ensures Loaded(p, w) == Some(m.loaded)
  {
  }

  lemma FourthReply(p: Plan, w: World, current: DeploymentState, replies: seq<Reply>, m: Machine)
    requires Run(p, w, current, replies, m) && |replies| > 4
    ensures replies[4] == Reads(p.answers.testOk, p.answers.catOk)
  {
    var before, _ := CallNumber(p, w, current, replies, m, 4);
  }

  // A call that is answered by one command.
  lemma CommandSays(p: Plan, m: Machine, r: Reply)
    requires Fits(p, m, r)
    requires m.at in {GetCommit, Build, Push, MakeDirectory, SendCompose, WriteOverride, Pull, Up, DownOld, DownOldAgain}
    ensures ResponseTo(p, m, r) == p.answers.response(m.at)
  {
  }

  lemma SavingSays(p: Plan, w: World, current: DeploymentState, m: Machine, r: Reply)
    requires Fits(p, m, r) && m.at in {UpdateState, SaveState} && (m.at.UpdateState? ==> m.current == current)
    ensures ResponseTo(p, m, r) ==
            if m.at.UpdateState? && (current.compose.None? || current.traefik.None?) then Panic else SaveSays(p, m.at)
  {
  }

  lemma ReadingSays(p: Plan, w: World, current: DeploymentState, replies: seq<Reply>, m: Machine, r: Reply)
    requires Fits(p, m, r) && m.at in {LoadState, AwaitContainers, LoadTraffic, ListOld}
    requires m.at.LoadState? ==> m.world.stored == w.stored
    requires m.at.LoadTraffic? ==> m.world.traffic == w.traffic
    requires m.at.ListOld? ==> Loaded(p, w) == Some(m.loaded)
    ensures ResponseTo(p, m, r) == HostSays(p, w, current, replies, m.at)
  {
  }

  // What a call answers is what the host says there.
  lemma ResponseIsTheHosts(p: Plan, w: World, current: DeploymentState, replies: seq<Reply>, m: Machine, r: Reply)
    requires Fits(p, m, r) && m.status.Running? && Rank(m.at) < |replies| && replies[Rank(m.at)] == r
    requires TracksTraffic(p, w, replies[..Rank(m.at)], m) && TracksState(p, w, current, m)
    requires TracksLoaded(p, w, replies[..Rank(m.at)], m)
    requires |replies| > 4 ==> replies[4] == Reads(p.answers.testOk, p.answers.catOk)
    ensures ResponseTo(p, m, r) == HostSays(p, w, current, replies, m.at)
  {
    match m.at
    case LoadState => ReadingSays(p, w, current, replies, m, r);
    case AwaitContainers => ReadingSays(p, w, current, replies, m, r);
    case LoadTraffic => ReadingSays(p, w, current, replies, m, r);
    case ListOld =>
      LoadedIs(p, w, replies[..Rank(m.at)], m);
      ReadingSays(p, w, current, replies, m, r);
    case UpdateState => SavingSays(p, w, current, m, r);
    case SaveState => SavingSays(p, w, current, m, r);
    case DeployTraffic =>
    case _ => CommandSays(p, m, r);
  }

  lemma EndOfCall(p: Plan, m: Machine, r: Reply)
    requires Fits(p, m, r)
    ensures var n := Answer(p, m, r);
            if n.status.Running? then ResponseTo(p, m, r) == Ok else EndsWith(ResponseTo(p, m, r), m.at, Finish(p, n).1)
  {
    AnswerMoves(p, m, r);
  }

  lemma CallFollowsHost(p: Plan, w: World, current: DeploymentState, replies: seq<Reply>, m: Machine, s: Site)
    requires Run(p, w, current, replies, m) && !m.status.Running? && Rank(s) < |replies|
    ensures var response := HostSays(p, w, current, replies, s);
            if Rank(s) + 1 < |replies| then response == Ok else EndsWith(response, s, Finish(p, m).1)
  {
    var k := Rank(s);
    var before, after := CallNumber(p, w, current, replies, m, k);
    assert before.at == s;
    if |replies| > 4 { FourthReply(p, w, current, replies, m); }
    RunTracks(p, w, current, replies[..k], before);
    ResponseIsTheHosts(p, w, current, replies, before, replies[k]);
    EndOfCall(p, before, replies[k]);
  }

  // Main result, the outcome: a deploy goes through its calls as long as the host answers well, and
  // the first answer that is not Ok ends it in that very call, with that outcome; no call follows.
  lemma DeployFollowsHost(p: Plan, w: World, current: DeploymentState, replies: seq<Reply>, m: Machine)
    requires Run(p, w, current, replies, m) && !m.status.Running?
    ensures FollowsHost(p, w, current, replies, Finish(p, m).1)
  {
    RunRank(p, w, current, replies, m);
    forall s | Rank(s) < |replies| - 1 ensures HostSays(p, w, current, replies, s) == Ok {
      CallFollowsHost(p, w, current, replies, m, s);
    }
    forall s | Rank(s) == |replies| - 1 ensures EndsWith(HostSays(p, w, current, replies, s), s, Finish(p, m).1) {
      CallFollowsHost(p, w, current, replies, m, s);
    }
  }
  // What a deploy records.

  // The configurations of no deploy, of those that this directory holds.
  predicate AreUndeployed(configs: map<string, Traefik.ConfigValue>, traffic: map<string, Traefik.ConfigValue>) {
    && (forall name | name in configs :: name in traffic && configs[name] == traffic[name])
    && (forall name | name in traffic :: name in configs <==> !Strings.HasSuffix(name, "-deploy.yml"))
  }

  // Main result, what is recorded: a run that gets past the update has renamed the records of the
  // overridden services and put the new tag and the configurations of no deploy into Traefik's part;
  // the state's own tag is the one from before. The state file holds this state then.
  lemma UpdateRecords(p: Plan, w: World, current: DeploymentState, replies: seq<Reply>, m: Machine)
    requires Run(p, w, current, replies, m) && Rank(m.at) > Rank(UpdateState)
    ensures current.compose.Some? && m.current.compose.Some? && m.current.tag == current.tag
    ensures m.current.compose.value.services.Keys == current.compose.value.services.Keys
    ensures forall k | k in current.compose.value.services ::
              m.current.compose.value.services[k] == Renamed(current.compose.value.services[k], p.Overrides(), p.tag)
    ensures m.current.traefik.Some? && m.current.traefik.value.tag == p.tag
    ensures m.current.traefik.value.configs.Some? && AreUndeployed(m.current.traefik.value.configs.value, w.traffic)
    ensures m.status.Running? || m.status.ReturnedNil? ==>
              m.world.stored == Some(HereDoc.QuotedFile(p.codec.marshal(m.current)))
  {
    RecordedFromThereOn(p, w, current, replies, m);
    UpdatedIs(p, w, current, m.current);
  }

  // The save after the update changes nothing of it.
  lemma SaveKeepsCurrent(p: Plan, w: World, current: DeploymentState, replies: seq<Reply>, m: Machine)
    returns (before: Machine)
    requires Run(p, w, current, replies, m) && |replies| == 17
    ensures Run(p, w, current, replies[..16], before) && Rank(before.at) > Rank(UpdateState)
    ensures before.current == m.current && !m.status.Running?
    ensures m.status.ReturnedNil? ==> m.world.stored == Some(HereDoc.QuotedFile(p.codec.marshal(m.current)))
  {
    var after;
    before, after := CallNumber(p, w, current, replies, m, 16);
    SavedThere(p, before, replies[16]);
  }

  lemma SavedThere(p: Plan, m: Machine, r: Reply)
    requires m.at == SaveState && r.Saves?
    ensures ResponseTo(p, m, r) == Ok ==>
              Answer(p, m, r).world.stored == Some(HereDoc.QuotedFile(p.codec.marshal(m.current)))
    ensures Answer(p, m, r).current == m.current && !Answer(p, m, r).status.Running?
    ensures Answer(p, m, r).status.ReturnedNil? ==> ResponseTo(p, m, r) == Ok
  {
  }

  lemma RecordedFromThereOn(p: Plan, w: World, current: DeploymentState, replies: seq<Reply>, m: Machine)
    requires Run(p, w, current, replies, m) && Rank(m.at) > Rank(UpdateState)
    ensures current.compose.Some? && current.traefik.Some?
    ensures m.current == Updated(current, p.Overrides(), Undeployed(w.traffic), p.tag)
    ensures m.status.Running? || m.status.ReturnedNil? ==>
              m.world.stored == Some(HereDoc.QuotedFile(p.codec.marshal(m.current)))
  {
    RunRank(p, w, current, replies, m);
    if |replies| == 17 {
      var before := SaveKeepsCurrent(p, w, current, replies, m);
      RecordedAtUpdate(p, w, current, replies[..16], before);
    } else {
      RecordedAtUpdate(p, w, current, replies, m);
    }
  }

  lemma UpdatedIs(p: Plan, w: World, current: DeploymentState, c: DeploymentState)
    requires current.compose.Some? && current.traefik.Some?
    requires c == Updated(current, p.Overrides(), Undeployed(w.traffic), p.tag)
    ensures c.compose.Some? && c.tag == current.tag
    ensures c.compose.value.services.Keys == current.compose.value.services.Keys
    ensures forall k | k in current.compose.value.services ::
              c.compose.value.services[k] == Renamed(current.compose.value.services[k], p.Overrides(), p.tag)
    ensures c.traefik.Some? && c.traefik.value.tag == p.tag
    ensures c.traefik.value.configs.Some? && AreUndeployed(c.traefik.value.configs.value, w.traffic)
  {
  }

  lemma RecordedAtUpdate(p: Plan, w: World, current: DeploymentState, replies: seq<Reply>, m: Machine)
    requires Run(p, w, current, replies, m) && |replies| == 16 && Rank(m.at) > Rank(UpdateState)
    ensures current.compose.Some? && current.traefik.Some?
    ensures m.current == Updated(current, p.Overrides(), Undeployed(w.traffic), p.tag)
    ensures m.world.stored == Some(HereDoc.QuotedFile(p.codec.marshal(m.current)))
  {
    var before, after := CallNumber(p, w, current, replies, m, 15);
    BeforeUpdate(p, w, current, replies[..15], before);
    AnswerMoves(p, before, replies[15]);
    RecordedThere(p, w, current, before, replies[15]);
  }

  lemma BeforeUpdate(p: Plan, w: World, current: DeploymentState, replies: seq<Reply>, m: Machine)
    requires Run(p, w, current, replies, m) && m.status.Running? && Rank(m.at) == Rank(UpdateState)
    ensures m.at == UpdateState && m.current == current && m.configs == w.traffic
  {
    RunTracksTraffic(p, w, current, replies, m);
    RunTracksState(p, w, current, replies, m);
  }

  lemma RecordedThere(p: Plan, w: World, current: DeploymentState, m: Machine, r: Reply)
    requires m.at == UpdateState && r.Saves? && ResponseTo(p, m, r) == Ok
    requires m.current == current && m.configs == w.traffic
    ensures var c := Answer(p, m, r).current;
            && current.compose.Some? && current.traefik.Some?
            && c == Updated(current, p.Overrides(), Undeployed(w.traffic), p.tag)
            && Answer(p, m, r).world.stored == Some(HereDoc.QuotedFile(p.codec.marshal(c)))
  {
  }

  // The rollback.

  // The step, undone in w, gives no error: its commands work, and its check is content with what
  // they leave.
  predicate StepGoesWell(p: Plan, loadedTag: string, name: StepName, w: World) {
    match name
    case OverrideStep => p.recovery.remove(w).0 == Ok
    case UpStep => p.recovery.down(w).0 == Ok && !p.recovery.newRuns(w.(running := w.running - p.recovery.down(w).1))
    case TrafficStep => loadedTag != "" && p.recovery.gate(w) == Ok
  }

  lemma StepIsCleanIff(p: Plan, loadedTag: string, name: StepName, index: nat, w: World)
    ensures var r := RunStep(StepOf(p, loadedTag, name), index, w);
            && (!r.panicked && r.errors == [] <==> StepGoesWell(p, loadedTag, name, w))
            && (StepGoesWell(p, loadedTag, name, w) ==> r.world == StepUndone(p, name, w))
  {
  }

  predicate AllGoWell(p: Plan, loadedTag: string, names: seq<StepName>, w: World) {
    names == [] ||
    var last := |names| - 1;
    && StepGoesWell(p, loadedTag, names[last], w)
    && AllGoWell(p, loadedTag, names[..last], StepUndone(p, names[last], w))
  }

  lemma {:induction false} CleanIff(p: Plan, loadedTag: string, names: seq<StepName>, w: World)
    ensures var r := Unwind(StepsOf(p, loadedTag, names), w);
            !r.panicked && r.errors == [] <==> AllGoWell(p, loadedTag, names, w)
  {
    if names == [] {
    } else {
      var last := |names| - 1;
      StepsOfParts(p, loadedTag, names);
      StepIsCleanIff(p, loadedTag, names[last], last, w);
      CleanIff(p, loadedTag, names[..last], StepUndone(p, names[last], w));
    }
  }

  lemma OneGoesWell(p: Plan, loadedTag: string, names: seq<StepName>, w: World)
    requires names == [OverrideStep]
    ensures AllGoWell(p, loadedTag, names, w) <==> StepGoesWell(p, loadedTag, OverrideStep, w)
  {
    assert names[..0] == [];
  }

  lemma TwoGoWell(p: Plan, loadedTag: string, names: seq<StepName>, w: World)
    requires names == [OverrideStep, UpStep]
    ensures AllGoWell(p, loadedTag, names, w) <==>
            StepGoesWell(p, loadedTag, UpStep, w) && StepGoesWell(p, loadedTag, OverrideStep, StepUndone(p, UpStep, w))
  {
    OneGoesWell(p, loadedTag, names[..1], StepUndone(p, UpStep, w));
  }

  lemma ThreeGoWell(p: Plan, loadedTag: string, names: seq<StepName>, w: World)
    requires names == [OverrideStep, UpStep, TrafficStep]
    ensures AllGoWell(p, loadedTag, names, w) <==>
            && StepGoesWell(p, loadedTag, TrafficStep, w) && StepGoesWell(p, loadedTag, UpStep, w)
            && StepGoesWell(p, loadedTag, OverrideStep, StepUndone(p, UpStep, w))
  {
    TwoGoWell(p, loadedTag, names[..2], w);
  }

  // What the rollback of a panic in this call needs of the commands, from this world on: the health
  // check of the traffic step first, then `down` and the inspection, then `rm`.
  predicate RecoveryGoesWell(p: Plan, loadedTag: string, s: Site, w: World) {
    var stopped := if Rank(s) > Rank(AwaitContainers) then w.(running := w.running - p.recovery.down(w).1) else w;
    && (Rank(s) > Rank(DeployTraffic) ==> loadedTag != "" && p.recovery.gate(w) == Ok)
    && (Rank(s) > Rank(AwaitContainers) ==> p.recovery.down(w).0 == Ok && !p.recovery.newRuns(stopped))
    && (Rank(s) > Rank(WriteOverride) ==> p.recovery.remove(stopped).0 == Ok)
  }

  lemma RegisteredGoWell(p: Plan, loadedTag: string, s: Site, names: seq<StepName>, w: World)
    requires names == RegisteredBefore(s)
    ensures AllGoWell(p, loadedTag, names, w) <==> RecoveryGoesWell(p, loadedTag, s, w)
  {
    if Rank(s) > Rank(DeployTraffic) { ThreeGoWell(p, loadedTag, names, w); }
    else if Rank(s) > Rank(AwaitContainers) { TwoGoWell(p, loadedTag, names, w); }
    else if Rank(s) > Rank(WriteOverride) { OneGoesWell(p, loadedTag, names, w); }
  }

  // The state after the rollback can be loaded and is the one before it; a first load that fails
  // reads as the zero state.
  predicate StateStays(p: Plan, w: World) {
    var before, after := LoadsOf(p)(0, w), LoadsOf(p)(1, w);
    after.Success? && Compare(if before.Success? then before.value else ZERO, after.value) == Same
  }

  lemma ConcludesCleanIff(p: Plan, loadedTag: string, names: seq<StepName>, w: World)
    ensures var report := Unwind(StepsOf(p, loadedTag, names), w);
            Conclude(report, LoadsOf(p)(0, w), LoadsOf(p)(1, report.world)) == Nil <==>
            AllGoWell(p, loadedTag, names, w) && StateStays(p, w)
  {
    var steps := StepsOf(p, loadedTag, names);
    var report := Unwind(steps, w);
    CleanIff(p, loadedTag, names, w);
    UnwindTakesDown(p, loadedTag, names, w);
    assert LoadsOf(p)(1, report.world) == LoadsOf(p)(1, w);
    CleanIffAllFinish(steps, w);
    NilMeansAllFinished(steps, w, LoadsOf(p)(0, w), LoadsOf(p)(1, report.world));
  }

  lemma FinishIsCleanIff(p: Plan, m: Machine)
    requires m.status.Panicking?
    ensures Finish(p, m).1 == Recovered(m.at, Nil) <==>
            AllGoWell(p, m.loaded.tag, m.steps, m.world) && StateStays(p, m.world)
  {
    ConcludesCleanIff(p, m.loaded.tag, m.steps, m.world);
  }

  lemma RunGoesWell(p: Plan, w: World, current: DeploymentState, replies: seq<Reply>, m: Machine)
    requires Run(p, w, current, replies, m)
    ensures AllGoWell(p, m.loaded.tag, m.steps, m.world) <==> RecoveryGoesWell(p, m.loaded.tag, m.at, m.world)
  {
    RegisteredAtEveryPoint(p, w, current, replies, m);
    RegisteredGoWell(p, m.loaded.tag, m.at, m.steps, m.world);
  }

  // Main result, a clean rollback: the recovery of a panic reports nothing exactly when the commands
  // of every registered step work and their checks are content, which for the traffic step takes a
  // loaded state with a tag, and the state stays.
  lemma RecoveryIsCleanIff(p: Plan, w: World, current: DeploymentState, replies: seq<Reply>, m: Machine)
    requires Run(p, w, current, replies, m) && m.status.Panicking?
    ensures Finish(p, m).1 == Recovered(m.at, Nil) <==>
            RecoveryGoesWell(p, m.loaded.tag, m.at, m.world) && StateStays(p, m.world)
  {
    RunGoesWell(p, w, current, replies, m);
    FinishIsCleanIff(p, m);
  }
}
