/**
 What holds over every run of a deploy: what is registered where, what a success takes, when the
 state file can change, and what an error or a recovered panic leaves on the host.
 */
module DeployRuns {
  import opened Wrappers
  import opened State
  import opened Rollback
  import opened DeployMachine
  import HealthGate
  import Traefik
  import Traffic

  // Going on to the next call, or stopping in this one.

  predicate GoesOn(m: Machine, n: Machine) {
    n.at == Next(m.at) && n.steps == Registered(m.steps, m.at) &&
    n.status == if m.at.SaveState? then ReturnedNil else Running
  }

  predicate Halts(m: Machine, n: Machine) {
    n.at == m.at && n.steps == m.steps && (n.status.ReturnedError? || n.status.Panicking?)
  }

  lemma AnswerMoves(p: Plan, m: Machine, r: Reply)
    requires Suits(m, r)
    ensures if ResponseTo(p, m, r).Ok? then GoesOn(m, Answer(p, m, r)) else Halts(m, Answer(p, m, r))
    ensures ResponseTo(p, m, r).Panic? <==> Answer(p, m, r).status.Panicking?
  {
    var e := Effect(p, m, r);
    assert e.at == m.at && e.steps == m.steps;
  }

  // The machine before the last reply.
  lemma LastReply(p: Plan, w: World, current: DeploymentState, replies: seq<Reply>, m: Machine) returns (before: Machine)
    requires Run(p, w, current, replies, m) && replies != []
    ensures var last := |replies| - 1;
            && Run(p, w, current, replies[..last], before) && before.status.Running?
            && Fits(p, before, replies[last]) && m == Answer(p, before, replies[last])
    ensures GoesOn(before, m) || Halts(before, m)
  {
    before := Execute(p, w, current, replies[..|replies| - 1]).value;
    AnswerMoves(p, before, replies[|replies| - 1]);
  }

  // The machine visits the calls one by one, and stops with the reply that ends the run.
  lemma {:induction false} RunRank(p: Plan, w: World, current: DeploymentState, replies: seq<Reply>, m: Machine)
    requires Run(p, w, current, replies, m)
    ensures |replies| == Rank(m.at) + if m.status.Running? then 0 else 1
    ensures m.status.ReturnedNil? ==> m.at.SaveState?
  {
    if replies == [] {
    } else {
      var before := LastReply(p, w, current, replies, m);
      RunRank(p, w, current, replies[..|replies| - 1], before);
      MovesRank(before, m, |replies| - 1);
    }
  }

  lemma MovesRank(m: Machine, n: Machine, k: nat)
    requires m.status.Running? && (GoesOn(m, n) || Halts(m, n)) && Rank(m.at) == k
    ensures k + 1 == Rank(n.at) + if n.status.Running? then 0 else 1
    ensures n.status.ReturnedNil? ==> n.at.SaveState?
  {
  }

  // What has been registered when the run stands at, or stopped in, a call.
  function RegisteredBefore(s: Site): seq<StepName> {
    if Rank(s) <= Rank(WriteOverride) then []
    else if Rank(s) <= Rank(AwaitContainers) then [OverrideStep]
    else if Rank(s) <= Rank(DeployTraffic) then [OverrideStep, UpStep]
    else [OverrideStep, UpStep, TrafficStep]
  }

  lemma RegisteredNext(s: Site)
    ensures s != SaveState ==> Registered(RegisteredBefore(s), s) == RegisteredBefore(Next(s))
    ensures s == SaveState ==> Registered(RegisteredBefore(s), s) == RegisteredBefore(s)
  {
  }

  // Main result, registration: at every program point of every run the steps are exactly those
  // whose calls have succeeded. Up itself registers nothing: its step comes with the health check.
  lemma {:induction false} RegisteredAtEveryPoint(p: Plan, w: World, current: DeploymentState, replies: seq<Reply>, m: Machine)
    requires Run(p, w, current, replies, m)
    ensures m.steps == RegisteredBefore(m.at)
  {
    if replies == [] {
    } else {
      var before := LastReply(p, w, current, replies, m);
      RegisteredAtEveryPoint(p, w, current, replies[..|replies| - 1], before);
      RegisteredNext(before.at);
    }
  }

  // The call number k was made, and succeeded.
  ghost predicate Succeeded(p: Plan, w: World, current: DeploymentState, replies: seq<Reply>, k: nat) {
    k < |replies| &&
    match Execute(p, w, current, replies[..k])
    case Some(m) => m.status.Running? && Fits(p, m, replies[k]) && ResponseTo(p, m, replies[k]) == Ok
    case None => false
  }

  // The call number k, with the machine before and after it.
  lemma {:induction false} CallNumber(p: Plan, w: World, current: DeploymentState, replies: seq<Reply>, m: Machine, k: nat)
    returns (before: Machine, after: Machine)
    requires Run(p, w, current, replies, m) && k < |replies|
    ensures Run(p, w, current, replies[..k], before) && before.status.Running? && Rank(before.at) == k
    ensures Fits(p, before, replies[k]) && after == Answer(p, before, replies[k])
    ensures if k + 1 == |replies| then after == m else after.status.Running?
  {
    var last := |replies| - 1;
    var h := LastReply(p, w, current, replies, m);
    if k == last {
      before, after := h, m;
      RunRank(p, w, current, replies[..last], h);
    } else {
      before, after := CallNumber(p, w, current, replies[..last], h, k);
      assert replies[..last][..k] == replies[..k];
    }
  }

  // Standing in a later call means that the earlier ones succeeded.
  lemma PassedCallsSucceeded(p: Plan, w: World, current: DeploymentState, replies: seq<Reply>, m: Machine, k: nat)
    requires Run(p, w, current, replies, m)
    requires k < Rank(m.at) || (m.status.ReturnedNil? && k == Rank(m.at))
    ensures Succeeded(p, w, current, replies, k)
  {
    RunRank(p, w, current, replies, m);
    var before, after := CallNumber(p, w, current, replies, m, k);
    AnswerMoves(p, before, replies[k]);
  }

  // Main result, success: a run that has stopped returns nil exactly when all seventeen calls
  // succeeded.
  lemma NilMeansAllSucceeded(p: Plan, w: World, current: DeploymentState, replies: seq<Reply>, m: Machine)
    requires Run(p, w, current, replies, m) && !m.status.Running?
    ensures Finish(p, m).1 == DeployNil <==> forall k | 0 <= k < 17 :: Succeeded(p, w, current, replies, k)
  {
    RunRank(p, w, current, replies, m);
    if m.status.ReturnedNil? {
      forall k | 0 <= k < 17 ensures Succeeded(p, w, current, replies, k) {
        PassedCallsSucceeded(p, w, current, replies, m, k);
      }
    }
    if forall k | 0 <= k < 17 :: Succeeded(p, w, current, replies, k) {
      assert Succeeded(p, w, current, replies, 16);
      var before := LastReply(p, w, current, replies, m);
      AnswerMoves(p, before, replies[16]);
    }
  }

  // The world along a run, as its replies tell.

  // The services that the downs of the run have stopped.
  function StoppedBy(replies: seq<Reply>): set<string> {
    (if |replies| > 13 && replies[13].Stops? then replies[13].stopped else {}) +
    (if |replies| > 14 && replies[14].Stops? then replies[14].stopped else {})
  }

  // Running containers: as before, until `up`; then what `up` left, less what was stopped.
  ghost predicate TracksRunning(w: World, replies: seq<Reply>, m: Machine) {
    if Rank(m.at) < Rank(Up) || (m.at.Up? && m.status.Running?) then m.world.running == w.running
    else
      |replies| > 8 && replies[8].Starts? && (Rank(m.at) > Rank(Up) ==> replies[8].response == Ok) &&
      m.world.running == replies[8].running - StoppedBy(replies)
  }

  // The compose file and the override file: as before, until they are written.
  ghost predicate TracksFiles(p: Plan, w: World, replies: seq<Reply>, m: Machine) {
    && (Rank(m.at) < Rank(SendCompose) ==> m.world.composeFile == w.composeFile)
    && (Rank(m.at) > Rank(SendCompose) ==> m.world.composeFile == Some(p.composeFile))
    && if Rank(m.at) < Rank(WriteOverride) || (m.at.WriteOverride? && m.status.Running?) then
         m.world.overrideFile == w.overrideFile
       else if m.at.WriteOverride? then |replies| == 7 && replies[6].Writes? && m.world.overrideFile == replies[6].left
       else m.world.overrideFile == Some(p.overrideFile)
  }

  // Traefik's directory: as before, until the switch, which is given what the directory held; then
  // as the switch left it. The run goes on after a switch that succeeded, and after no other.
  ghost predicate TracksTraffic(p: Plan, w: World, replies: seq<Reply>, m: Machine) {
    && (Rank(m.at) > Rank(LoadTraffic) ==> m.configs == w.traffic)
    && if Rank(m.at) < Rank(DeployTraffic) || (m.at.DeployTraffic? && m.status.Running?) then m.world.traffic == w.traffic
       else
         && |replies| > 11 && Routed(p, w, m.loaded.tag, replies[11]) && m.world.traffic == replies[11].files
         && (Rank(m.at) > Rank(DeployTraffic) <==> replies[11].result == Traffic.Done)
  }

  // The answer of a switch of this directory, which was loaded.
  predicate Routed(p: Plan, w: World, loadedTag: string, r: Reply) {
    r.Switches? && Traffic.Rerouted(w.traffic, loadedTag, p.tag, w.traffic, r.files, r.result, r.writes)
  }

  // What was loaded: what the state file holds, as far as the connection tells.
  ghost predicate TracksLoaded(p: Plan, w: World, replies: seq<Reply>, m: Machine) {
    && (Rank(m.at) <= Rank(LoadState) ==> m.world.stored == w.stored)
    && (Rank(m.at) > Rank(LoadState) ==>
          |replies| > 4 && replies[4].Reads? &&
          LoadResult(p.codec, w.stored, replies[4].testOk, replies[4].catOk) == Success(m.loaded))
  }

  // The state file: as before, until the update; and what is listed of what was loaded.
  ghost predicate TracksState(p: Plan, w: World, current: DeploymentState, m: Machine) {
    && (Rank(m.at) < Rank(UpdateState) || (m.at.UpdateState? && (m.status.Running? || m.status.Panicking?)) ==>
          m.world.stored == w.stored)
    && (Rank(m.at) < Rank(UpdateState) || (m.at.UpdateState? && m.status.Running?) ==> m.current == current)
    && (Rank(m.at) > Rank(ListOld) ==>
          m.loaded.compose.Some? && m.oldNames == OldNames(m.loaded.compose.value.services, p.tag))
    && (Rank(m.at) > Rank(UpdateState) || (m.at.UpdateState? && m.status.ReturnedError?) ==>
          current.compose.Some? && current.traefik.Some?)
    && (m.at.UpdateState? && m.status.Panicking? ==> current.compose.None? || current.traefik.None?)
  }

  // What one answer changes, component by component.

  predicate ChangesRunning(m: Machine, r: Reply, n: Machine) {
    match m.at
    case Up => r.Starts? && n.world.running == r.running && (GoesOn(m, n) ==> r.response == Ok)
    case DownOld | DownOldAgain => r.Stops? && n.world.running == m.world.running - r.stopped
    case _ => n.world.running == m.world.running
  }

  predicate ChangesFiles(p: Plan, m: Machine, r: Reply, n: Machine) {
    && (!m.at.SendCompose? ==> n.world.composeFile == m.world.composeFile)
    && (m.at.SendCompose? && GoesOn(m, n) ==> n.world.composeFile == Some(p.composeFile))
    && if !m.at.WriteOverride? then n.world.overrideFile == m.world.overrideFile
       else r.Writes? && n.world.overrideFile == if GoesOn(m, n) then Some(p.overrideFile) else r.left
  }

  ghost predicate ChangesTraffic(p: Plan, m: Machine, r: Reply, n: Machine) {
    && (m.at.LoadTraffic? && GoesOn(m, n) ==> n.configs == m.world.traffic)
    && (!m.at.LoadTraffic? ==> n.configs == m.configs)
    && if !m.at.DeployTraffic? then n.world.traffic == m.world.traffic
       else
         && (m.configs == m.world.traffic ==> Routed(p, m.world, m.loaded.tag, r))
         && r.Switches? && n.world.traffic == r.files && (GoesOn(m, n) <==> r.result == Traffic.Done)
  }

  ghost predicate ChangesLoaded(p: Plan, m: Machine, r: Reply, n: Machine) {
    && (Rank(m.at) <= Rank(LoadState) ==> n.world.stored == m.world.stored)
    && if !m.at.LoadState? then n.loaded == m.loaded
       else
         r.Reads? &&
         (GoesOn(m, n) ==> LoadResult(p.codec, m.world.stored, r.testOk, r.catOk) == Success(n.loaded))
  }

  ghost predicate ChangesState(p: Plan, m: Machine, n: Machine) {
    && (!m.at.UpdateState? ==> n.current == m.current)
    && (!m.at.UpdateState? && !m.at.SaveState? ==> n.world.stored == m.world.stored)
    && (m.at.UpdateState? ==>
          (n.status.Panicking? <==> m.current.compose.None? || m.current.traefik.None?) &&
          (n.status.Panicking? ==> n.world.stored == m.world.stored))
  }

  ghost predicate ChangesList(p: Plan, m: Machine, n: Machine) {
    && (!m.at.LoadState? ==> n.loaded == m.loaded)
    && (!m.at.ListOld? ==> n.oldNames == m.oldNames)
    && (m.at.ListOld? && GoesOn(m, n) ==>
          m.loaded.compose.Some? && n.oldNames == OldNames(m.loaded.compose.value.services, p.tag))
  }

  lemma AnswerChangesRunning(p: Plan, m: Machine, r: Reply)
    requires m.status.Running? && Suits(m, r)
    ensures ChangesRunning(m, r, Answer(p, m, r)) && ChangesFiles(p, m, r, Answer(p, m, r))
  {
    AnswerMoves(p, m, r);
  }

  lemma TrafficCallChanges(p: Plan, m: Machine, r: Reply)
    requires m.status.Running? && Fits(p, m, r) && (m.at.DeployTraffic? || m.at.LoadTraffic?)
    ensures ChangesTraffic(p, m, r, Answer(p, m, r))
  {
    AnswerMoves(p, m, r);
  }

  lemma OthersKeepTraffic(p: Plan, m: Machine, r: Reply, response: Response)
    requires Suits(m, r) && !m.at.DeployTraffic? && !m.at.LoadTraffic?
    ensures ChangesTraffic(p, m, r, Proceed(Effect(p, m, r), response))
  {
  }

  lemma AnswerChangesTraffic(p: Plan, m: Machine, r: Reply)
    requires m.status.Running? && Fits(p, m, r)
    ensures ChangesTraffic(p, m, r, Answer(p, m, r))
  {
    if m.at.DeployTraffic? || m.at.LoadTraffic? { TrafficCallChanges(p, m, r); } else { OthersKeepTraffic(p, m, r, ResponseTo(p, m, r)); }
  }

  lemma AnswerChangesState(p: Plan, m: Machine, r: Reply)
    requires m.status.Running? && Suits(m, r)
    ensures ChangesState(p, m, Answer(p, m, r))
  {
    if m.at.UpdateState? { AnswerMoves(p, m, r); }
  }

  lemma AnswerChangesLoaded(p: Plan, m: Machine, r: Reply)
    requires m.status.Running? && Suits(m, r)
    ensures ChangesLoaded(p, m, r, Answer(p, m, r))
  {
    if m.at.LoadState? { AnswerMoves(p, m, r); }
  }

  lemma AnswerChangesList(p: Plan, m: Machine, r: Reply)
    requires m.status.Running? && Suits(m, r)
    ensures ChangesList(p, m, Answer(p, m, r))
  {
    if m.at.ListOld? { AnswerMoves(p, m, r); }
  }

  lemma StepTracksRunning(w: World, replies: seq<Reply>, m: Machine, n: Machine)
    requires m.status.Running? && |replies| == Rank(m.at) + 1 && (GoesOn(m, n) || Halts(m, n))
    requires TracksRunning(w, replies[..|replies| - 1], m) && ChangesRunning(m, replies[|replies| - 1], n)
    ensures TracksRunning(w, replies, n)
  {
    var front, r := replies[..|replies| - 1], replies[|replies| - 1];
    if |front| >= 9 {
      assert front + [r] == replies;
      StoppedGrows(front, r);
      SetsMinus(replies[8].running, StoppedBy(front), if r.Stops? then r.stopped else {});
    }
  }

  lemma StoppedGrows(replies: seq<Reply>, r: Reply)
    ensures StoppedBy(replies + [r]) == StoppedBy(replies) + if (|replies| == 13 || |replies| == 14) && r.Stops? then r.stopped else {}
  {
  }

  lemma SetsMinus(running: map<string, string>, a: set<string>, b: set<string>)
    ensures running - a - b == running - (a + b)
  {
  }

  lemma StepTracksFiles(p: Plan, w: World, replies: seq<Reply>, m: Machine, n: Machine)
    requires m.status.Running? && |replies| == Rank(m.at) + 1 && (GoesOn(m, n) || Halts(m, n))
    requires TracksFiles(p, w, replies[..|replies| - 1], m) && ChangesFiles(p, m, replies[|replies| - 1], n)
    ensures TracksFiles(p, w, replies, n)
  {
  }

  lemma StepTracksTraffic(p: Plan, w: World, replies: seq<Reply>, m: Machine, n: Machine)
    requires m.status.Running? && |replies| == Rank(m.at) + 1 && (GoesOn(m, n) || Halts(m, n))
    requires TracksTraffic(p, w, replies[..|replies| - 1], m) && ChangesTraffic(p, m, replies[|replies| - 1], n)
    requires !m.at.LoadState? ==> n.loaded == m.loaded
    ensures TracksTraffic(p, w, replies, n)
  {
  }

  lemma StepTracksLoaded(p: Plan, w: World, replies: seq<Reply>, m: Machine, n: Machine)
    requires m.status.Running? && |replies| == Rank(m.at) + 1 && (GoesOn(m, n) || Halts(m, n))
    requires TracksLoaded(p, w, replies[..|replies| - 1], m) && ChangesLoaded(p, m, replies[|replies| - 1], n)
    ensures TracksLoaded(p, w, replies, n)
  {
  }

  lemma StepTracksState(p: Plan, w: World, current: DeploymentState, m: Machine, n: Machine)
    requires m.status.Running? && (GoesOn(m, n) || Halts(m, n))
    requires TracksState(p, w, current, m) && ChangesState(p, m, n) && ChangesList(p, m, n)
    ensures TracksState(p, w, current, n)
  {
  }

  ghost predicate Tracks(p: Plan, w: World, current: DeploymentState, replies: seq<Reply>, m: Machine) {
    && TracksRunning(w, replies, m) && TracksFiles(p, w, replies, m)
    && TracksTraffic(p, w, replies, m) && TracksLoaded(p, w, replies, m) && TracksState(p, w, current, m)
  }

  lemma LastChanges(p: Plan, w: World, current: DeploymentState, replies: seq<Reply>, m: Machine) returns (before: Machine)
    requires Run(p, w, current, replies, m) && replies != []
    ensures Run(p, w, current, replies[..|replies| - 1], before)
    ensures before.status.Running? && (GoesOn(before, m) || Halts(before, m))
    ensures var r := replies[|replies| - 1];
            && ChangesRunning(before, r, m) && ChangesFiles(p, before, r, m) && ChangesTraffic(p, before, r, m)
            && ChangesLoaded(p, before, r, m) && ChangesState(p, before, m) && ChangesList(p, before, m)
  {
    before := LastReply(p, w, current, replies, m);
    var r := replies[|replies| - 1];
    AnswerChangesRunning(p, before, r);
    AnswerChangesTraffic(p, before, r);
    AnswerChangesLoaded(p, before, r);
    AnswerChangesState(p, before, r);
    AnswerChangesList(p, before, r);
  }

  lemma {:induction false} RunTracksRunning(p: Plan, w: World, current: DeploymentState, replies: seq<Reply>, m: Machine)
    requires Run(p, w, current, replies, m)
    ensures TracksRunning(w, replies, m)
  {
    if replies == [] {
    } else {
      var front := replies[..|replies| - 1];
      var before := LastChanges(p, w, current, replies, m);
      RunTracksRunning(p, w, current, front, before);
      RunRank(p, w, current, front, before);
      StepTracksRunning(w, replies, before, m);
    }
  }

  lemma {:induction false} RunTracksFiles(p: Plan, w: World, current: DeploymentState, replies: seq<Reply>, m: Machine)
    requires Run(p, w, current, replies, m)
    ensures TracksFiles(p, w, replies, m)
  {
    if replies == [] {
    } else {
      var front := replies[..|replies| - 1];
      var before := LastChanges(p, w, current, replies, m);
      RunTracksFiles(p, w, current, front, before);
      RunRank(p, w, current, front, before);
      StepTracksFiles(p, w, replies, before, m);
    }
  }

  lemma {:induction false} RunTracksTraffic(p: Plan, w: World, current: DeploymentState, replies: seq<Reply>, m: Machine)
    requires Run(p, w, current, replies, m)
    ensures TracksTraffic(p, w, replies, m)
  {
    if replies == [] {
    } else {
      var front := replies[..|replies| - 1];
      var before := LastChanges(p, w, current, replies, m);
      RunTracksTraffic(p, w, current, front, before);
      RunRank(p, w, current, front, before);
      StepTracksTraffic(p, w, replies, before, m);
    }
  }

  lemma {:induction false} RunTracksLoaded(p: Plan, w: World, current: DeploymentState, replies: seq<Reply>, m: Machine)
    requires Run(p, w, current, replies, m)
    ensures TracksLoaded(p, w, replies, m)
  {
    if replies == [] {
    } else {
      var front := replies[..|replies| - 1];
      var before := LastChanges(p, w, current, replies, m);
      RunTracksLoaded(p, w, current, front, before);
      RunRank(p, w, current, front, before);
      StepTracksLoaded(p, w, replies, before, m);
    }
  }

  lemma {:induction false} RunTracksState(p: Plan, w: World, current: DeploymentState, replies: seq<Reply>, m: Machine)
    requires Run(p, w, current, replies, m)
    ensures TracksState(p, w, current, m)
  {
    if replies == [] {
    } else {
      var before := LastChanges(p, w, current, replies, m);
      RunTracksState(p, w, current, replies[..|replies| - 1], before);
      StepTracksState(p, w, current, before, m);
    }
  }

  // Main result, what is known of the host at every point of every run.
  lemma RunTracks(p: Plan, w: World, current: DeploymentState, replies: seq<Reply>, m: Machine)
    requires Run(p, w, current, replies, m)
    ensures Tracks(p, w, current, replies, m)
  {
    RunTracksRunning(p, w, current, replies, m);
    RunTracksFiles(p, w, current, replies, m);
    RunTracksTraffic(p, w, current, replies, m);
    RunTracksLoaded(p, w, current, replies, m);
    RunTracksState(p, w, current, replies, m);
  }

  // Main result, Traefik's directory: no deploy, however it ends and whatever its rollback does,
  // changes or removes a file that was there, and it adds at most the deploy file of its tag. Where
  // that file was there, only the loaded state's own tag gets past the switch; any other stops in
  // it, with the directory unchanged. Where it was not, getting past the switch with another tag has
  // added it, unless the directory was empty.
  lemma TagIsSwitchedOnce(p: Plan, w: World, current: DeploymentState, replies: seq<Reply>, m: Machine)
    requires Run(p, w, current, replies, m)
    ensures Traffic.Extends(w.traffic, Finish(p, m).0.traffic, Traffic.DeployName(p.tag))
    ensures Traffic.DeployName(p.tag) in w.traffic && p.tag != "" && p.tag != m.loaded.tag ==>
              Rank(m.at) <= Rank(DeployTraffic) && m.world.traffic == w.traffic &&
              (m.at.DeployTraffic? && !m.status.Running? ==>
                 |replies| == 12 && replies[11].Switches? && replies[11].result == Traffic.Error(Traffic.AlreadyDeployed))
    ensures Rank(m.at) > Rank(DeployTraffic) && p.tag != m.loaded.tag && w.traffic != map[] ==>
              Traffic.DeployName(p.tag) in Finish(p, m).0.traffic
  {
    RunTracksTraffic(p, w, current, replies, m);
    RunRank(p, w, current, replies, m);
    FinishTakesDown(p, m);
    SwitchedAtMostOnce(p, w, replies, m);
  }

  lemma SwitchedAtMostOnce(p: Plan, w: World, replies: seq<Reply>, m: Machine)
    requires TracksTraffic(p, w, replies, m) && |replies| == Rank(m.at) + if m.status.Running? then 0 else 1
    ensures Traffic.Extends(w.traffic, m.world.traffic, Traffic.DeployName(p.tag))
    ensures Traffic.DeployName(p.tag) in w.traffic && p.tag != "" && p.tag != m.loaded.tag ==>
              Rank(m.at) <= Rank(DeployTraffic) && m.world.traffic == w.traffic &&
              (m.at.DeployTraffic? && !m.status.Running? ==>
                 |replies| == 12 && replies[11].Switches? && replies[11].result == Traffic.Error(Traffic.AlreadyDeployed))
    ensures Rank(m.at) > Rank(DeployTraffic) && p.tag != m.loaded.tag && w.traffic != map[] ==>
              Traffic.DeployName(p.tag) in m.world.traffic
  {
    if Rank(m.at) > Rank(DeployTraffic) || (m.at.DeployTraffic? && !m.status.Running?) {
      var r := replies[11];
      Traffic.SwitchAddsAtMostOnce(m.loaded.tag, p.tag, w.traffic, r.files, r.result, r.writes);
    }
  }

  // The state file records this tag.
  predicate Records(codec: Codec, stored: Option<string>, tag: string) {
    stored.Some? &&
    match codec.unmarshal(stored.value)
    case Some(s) => s.tag == tag
    case None => false
  }

  predicate GotPast(o: DeployOutcome, s: Site) {
    match o
    case DeployNil => true
    case DeployError(at) => Rank(at) > Rank(s)
    case Recovered(at, _) => Rank(at) > Rank(s)
  }

  // Of one deploy: it keeps every file of a directory, and with a tag that the state file does not
  // record it gets past the switch only if the tag's file was not there, and then leaves it there.
  predicate SwitchesOnce(codec: Codec, tag: string, w: World, v: World, o: DeployOutcome) {
    && Traffic.Extends(w.traffic, v.traffic, Traffic.DeployName(tag))
    && (GotPast(o, DeployTraffic) && !Records(codec, w.stored, tag) && w.traffic != map[] ==>
          Traffic.DeployName(tag) !in w.traffic && Traffic.DeployName(tag) in v.traffic)
  }

  lemma FinishSwitchesOnce(p: Plan, w: World, current: DeploymentState, replies: seq<Reply>, m: Machine)
    requires Run(p, w, current, replies, m) && !m.status.Running?
    ensures SwitchesOnce(p.codec, p.tag, w, Finish(p, m).0, Finish(p, m).1)
  {
    TagIsSwitchedOnce(p, w, current, replies, m);
    RunRank(p, w, current, replies, m);
    if Rank(m.at) > Rank(DeployTraffic) {
      RunTracksTraffic(p, w, current, replies, m);
      RunTracksLoaded(p, w, current, replies, m);
      UnrecordedIsNotLoaded(p, w, replies, m);
    }
  }

  lemma UnrecordedIsNotLoaded(p: Plan, w: World, replies: seq<Reply>, m: Machine)
    requires TracksTraffic(p, w, replies, m) && TracksLoaded(p, w, replies, m) && Rank(m.at) > Rank(DeployTraffic)
    ensures p.tag != "" && (!Records(p.codec, w.stored, p.tag) ==> p.tag != m.loaded.tag)
  {
  }

  // Of two deploys of one tag that the state file does not record, at most one gets past the switch.
  predicate EachTagOnce(codec: Codec, stored: Option<string>, releases: seq<Release>, outcomes: seq<DeployOutcome>)
    requires |releases| == |outcomes|
  {
    forall i, j | 0 <= i < j < |releases| && releases[i].tag == releases[j].tag &&
                  !Records(codec, stored, releases[i].tag) ::
      !GotPast(outcomes[i], DeployTraffic) || !GotPast(outcomes[j], DeployTraffic)
  }

  // The files of the tags that have got past the switch.
  predicate FilesOf(codec: Codec, stored: Option<string>, releases: seq<Release>, outcomes: seq<DeployOutcome>,
                    traffic: map<string, Traefik.ConfigValue>)
    requires |releases| == |outcomes|
  {
    forall i | 0 <= i < |releases| && !Records(codec, stored, releases[i].tag) && GotPast(outcomes[i], DeployTraffic) ::
      Traffic.DeployName(releases[i].tag) in traffic
  }

  lemma OneMoreRelease(codec: Codec, releases: seq<Release>, outcomes: seq<DeployOutcome>, w: World, v: World,
                       release: Release, outcome: DeployOutcome)
    requires |releases| == |outcomes| && EachTagOnce(codec, w.stored, releases, outcomes) && w.traffic != map[]
    requires FilesOf(codec, w.stored, releases, outcomes, w.traffic) && SwitchesOnce(codec, release.tag, w, v, outcome)
    ensures EachTagOnce(codec, w.stored, releases + [release], outcomes + [outcome])
    ensures FilesOf(codec, w.stored, releases + [release], outcomes + [outcome], v.traffic) && v.traffic != map[]
  {
    assert exists file :: file in w.traffic && file in v.traffic;
  }

  // Main result, commit last: when the state file has changed, every call before the update has
  // succeeded.
  lemma CommitLast(p: Plan, w: World, current: DeploymentState, replies: seq<Reply>, m: Machine, k: nat)
    requires Run(p, w, current, replies, m) && m.world.stored != w.stored && k < Rank(UpdateState)
    ensures Succeeded(p, w, current, replies, k)
  {
    RunTracksState(p, w, current, replies, m);
    PassedCallsSucceeded(p, w, current, replies, m, k);
  }

  // Main result, health first: once a run has passed the wait for the containers, something was
  // received from its gate, and in one single round, the last, the check of each overridden service
  // has returned true and none false.
  lemma HealthyBeforeSwitch(p: Plan, w: World, current: DeploymentState, replies: seq<Reply>, m: Machine)
    requires Run(p, w, current, replies, m) && Rank(m.at) > Rank(AwaitContainers)
    ensures |replies| > 9 && replies[9].Gates?
    ensures var es := replies[9].events;
            && es <= p.answers.events && HealthGate.Execute(|p.Overrides()|, es).Some?
            && HealthGate.Received(es)
            && HealthGate.AllReturnedTrue(|p.Overrides()|, es, HealthGate.MoreRounds(es))
  {
    PassedCallsSucceeded(p, w, current, replies, m, 9);
    var before := Execute(p, w, current, replies[..9]).value;
    RunRank(p, w, current, replies[..9], before);
    assert before.at == AwaitContainers;
    var g := HealthGate.Execute(|p.Overrides()|, replies[9].events).value;
    HealthGate.HealthyMeansAllTrueInOneRound(|p.Overrides()|, replies[9].events, g);
  }

  // The rollback of a run.

  lemma {:induction false} StepsOfLength(p: Plan, loadedTag: string, names: seq<StepName>)
    ensures |StepsOf(p, loadedTag, names)| == |names|
  {
    if names != [] { StepsOfLength(p, loadedTag, names[..|names| - 1]); }
  }

  // The last step, and those below it.
  lemma StepsOfParts(p: Plan, loadedTag: string, names: seq<StepName>)
    requires names != []
    ensures var last := |names| - 1;
            && |StepsOf(p, loadedTag, names)| == |names|
            && StepsOf(p, loadedTag, names)[last] == StepOf(p, loadedTag, names[last])
            && StepsOf(p, loadedTag, names)[..last] == StepsOf(p, loadedTag, names[..last])
  {
    StepsOfLength(p, loadedTag, names[..|names| - 1]);
  }

  // From w to v, containers were taken down and the override file may have changed, nothing else.
  predicate OnlyTakesDown(w: World, v: World) {
    && v == w.(overrideFile := v.overrideFile, running := v.running)
    && forall k | k in v.running :: k in w.running && v.running[k] == w.running[k]
  }

  lemma StepTakesDown(p: Plan, loadedTag: string, name: StepName, index: nat, w: World)
    ensures OnlyTakesDown(w, RunStep(StepOf(p, loadedTag, name), index, w).world)
  {
    match name
    case OverrideStep =>
      assert OnlyTakesDown(w, UndoOverride(p, w).world);
    case UpStep =>
      assert OnlyTakesDown(w, UndoUp(p, w).world);
    case TrafficStep =>
  }

  // Whatever fails, a rollback starts no container and touches neither Traefik's directory nor
  // the state file.
  lemma {:induction false} UnwindTakesDown(p: Plan, loadedTag: string, names: seq<StepName>, w: World)
    ensures OnlyTakesDown(w, Unwind(StepsOf(p, loadedTag, names), w).world)
  {
    if names == [] {
    } else {
      var last := |names| - 1;
      StepsOfParts(p, loadedTag, names);
      StepTakesDown(p, loadedTag, names[last], last, w);
      var here := RunStep(StepOf(p, loadedTag, names[last]), last, w);
      UnwindTakesDown(p, loadedTag, names[..last], here.world);
    }
  }

  lemma FinishTakesDown(p: Plan, m: Machine)
    ensures OnlyTakesDown(m.world, Finish(p, m).0)
  {
    UnwindTakesDown(p, m.loaded.tag, m.steps, m.world);
  }

  // Main result, what is undone: a panic undoes exactly the registered prefix, last step first.
  lemma PanicUndoesThePrefix(p: Plan, w: World, current: DeploymentState, replies: seq<Reply>, m: Machine)
    requires Run(p, w, current, replies, m) && m.status.Panicking?
    ensures var names := RegisteredBefore(m.at);
            var report := Unwind(StepsOf(p, m.loaded.tag, names), m.world);
            && Finish(p, m).0 == report.world && Finish(p, m).1.Recovered?
            && Attempted(report.log) <= Countdown(|names|)
            && (!report.panicked ==> Attempted(report.log) == Countdown(|names|))
  {
    RegisteredAtEveryPoint(p, w, current, replies, m);
    StepsOfLength(p, m.loaded.tag, m.steps);
    RollbackAccounting(StepsOf(p, m.loaded.tag, m.steps), m.world);
  }

  // Main result, no deploy ever succeeds: the state manager's own state starts at its zero value
  // and nothing assigns it, so the update dereferences nil. The state file is never written, and
  // a run that gets to the update ends in a panic there.
  lemma NeverSucceeds(p: Plan, w: World, replies: seq<Reply>, m: Machine)
    requires Run(p, w, ZERO, replies, m)
    ensures !m.status.ReturnedNil? && m.current == ZERO && m.world.stored == w.stored
    ensures !m.status.Running? ==> Finish(p, m).1 != DeployNil && Finish(p, m).0.stored == w.stored
    ensures Rank(m.at) >= Rank(UpdateState) ==> m.at == UpdateState && (m.status.Running? || m.status.Panicking?)
  {
    RunTracksState(p, w, ZERO, replies, m);
    RunRank(p, w, ZERO, replies, m);
    FinishTakesDown(p, m);
    if m.at.UpdateState? && m.status.Panicking? { CurrentAfterPanic(p, w, replies, m); }
    NeverPastUpdate(p, w, m);
  }

  lemma NeverPastUpdate(p: Plan, w: World, m: Machine)
    requires TracksState(p, w, ZERO, m) && (m.status.ReturnedNil? ==> m.at.SaveState?)
    ensures !m.status.ReturnedNil? && m.world.stored == w.stored
    ensures Rank(m.at) >= Rank(UpdateState) ==> m.at == UpdateState && (m.status.Running? || m.status.Panicking?)
  {
  }

  lemma CurrentAfterPanic(p: Plan, w: World, replies: seq<Reply>, m: Machine)
    requires Run(p, w, ZERO, replies, m) && m.at.UpdateState? && m.status.Panicking?
    ensures m.current == ZERO
  {
    var before := LastReply(p, w, ZERO, replies, m);
    RunTracksState(p, w, ZERO, replies[..|replies| - 1], before);
  }

  // A panic in any call but the very last leaves the state file as it was, through the rollback.
  lemma RecoveryKeepsStateFile(p: Plan, w: World, current: DeploymentState, replies: seq<Reply>, m: Machine)
    requires Run(p, w, current, replies, m) && m.status.Panicking? && !m.at.SaveState?
    ensures Finish(p, m).0.stored == w.stored == m.world.stored
  {
    RunTracksState(p, w, current, replies, m);
    FinishTakesDown(p, m);
    StoredAfterPanic(p, w, current, m);
  }

  lemma StoredAfterPanic(p: Plan, w: World, current: DeploymentState, m: Machine)
    requires TracksState(p, w, current, m) && m.status.Panicking? && !m.at.SaveState?
    ensures m.world.stored == w.stored
  {
  }

  lemma ConcludeOnSame(report: Report<World>, before: Result<DeploymentState, string>, after: Result<DeploymentState, string>)
    requires before.Success? && after.Success? && Compare(before.value, after.value) == Same
    ensures Conclude(report, before, after) ==
            if report.panicked then RollbackPanicked
            else if report.errors == [] then Nil
            else RollbackFailed(report.errors)
  {
    assert report.errors + [] == report.errors;
  }

  // Main result, no false mismatch: when the connection answers both loads alike, the rollback's
  // comparison of states adds no error of its own.
  lemma RecoveryFindsNoMismatch(p: Plan, w: World, current: DeploymentState, replies: seq<Reply>, m: Machine)
    requires Run(p, w, current, replies, m) && m.status.Panicking? && !m.at.SaveState?
    requires p.recovery.testOk(0) == p.recovery.testOk(1) && p.recovery.catOk(0) == p.recovery.catOk(1)
    requires var load := LoadResult(p.codec, w.stored, p.recovery.testOk(0), p.recovery.catOk(0));
             load.Success? && load.value.compose.Some?
    ensures var report := Unwind(StepsOf(p, m.loaded.tag, m.steps), m.world);
            Finish(p, m).1.rollback ==
            if report.panicked then RollbackPanicked
            else if report.errors == [] then Nil
            else RollbackFailed(report.errors)
  {
    RecoveryKeepsStateFile(p, w, current, replies, m);
    var report := Unwind(StepsOf(p, m.loaded.tag, m.steps), m.world);
    var load := LoadResult(p.codec, w.stored, p.recovery.testOk(0), p.recovery.catOk(0));
    assert LoadsOf(p)(0, m.world) == load && LoadsOf(p)(1, report.world) == load;
    EqualIsEquivalence(load.value, load.value, load.value);
    ConcludeOnSame(report, load, load);
  }

  // When the host is as before.

  predicate AsBefore(w: World, v: World) {
    v.running == w.running && v.overrideFile == w.overrideFile && v.traffic == w.traffic
  }

  // An `up` that succeeds runs the project's services under their images, and leaves the others.
  predicate UpWorks(p: Plan, w: World, replies: seq<Reply>) {
    |replies| > 8 && replies[8].Starts? && replies[8].response == Ok ==> replies[8].running == w.running + p.Deployed()
  }

  // Running the deployed services over these and stopping some gives these back: none of these is
  // stopped or replaced by another image, and every service that is new is stopped.
  predicate Restores(running: map<string, string>, deployed: map<string, string>, stopped: set<string>) {
    && (forall k | k in running :: k !in stopped && (k in deployed ==> deployed[k] == running[k]))
    && (forall k | k in deployed :: k in running || k in stopped)
  }

  lemma RestoresIff(running: map<string, string>, deployed: map<string, string>, stopped: set<string>)
    ensures running + deployed - stopped == running <==> Restores(running, deployed, stopped)
  {
    var after := running + deployed - stopped;
    if after == running {
      forall k | k in running ensures k !in stopped && (k in deployed ==> deployed[k] == running[k]) {
        assert k in after && after[k] == running[k];
      }
      forall k | k in deployed ensures k in running || k in stopped {
        if k !in stopped { assert k in after; }
      }
    }
    if Restores(running, deployed, stopped) {
      assert after.Keys == running.Keys;
      assert forall k | k in running :: after[k] == running[k];
    }
  }

  // What a run that stopped at this call has kept, given what its commands left.

  predicate RunningKept(p: Plan, w: World, replies: seq<Reply>, s: Site, undone: set<string>) {
    if Rank(s) < Rank(Up) then true
    else if s.Up? then |replies| > 8 && replies[8].Starts? && replies[8].running == w.running
    else Restores(w.running, p.Deployed(), StoppedBy(replies) + undone)
  }

  predicate OverrideKept(p: Plan, w: World, replies: seq<Reply>, s: Site) {
    if Rank(s) < Rank(WriteOverride) then true
    else if s.WriteOverride? then |replies| > 6 && replies[6].Writes? && replies[6].left == w.overrideFile
    else w.overrideFile == Some(p.overrideFile)
  }

  predicate TrafficKept(p: Plan, w: World, replies: seq<Reply>, s: Site, loadedTag: string) {
    if Rank(s) < Rank(DeployTraffic) then true
    else if s.DeployTraffic? then
      |replies| > 11 && replies[11].Switches? &&
      Traffic.Unchanging(loadedTag, p.tag, w.traffic, replies[11].files, replies[11].result, replies[11].writes)
    else loadedTag == p.tag || w.traffic == map[]
  }

  lemma RunningIsKept(p: Plan, w: World, replies: seq<Reply>, m: Machine, undone: set<string>)
    requires TracksRunning(w, replies, m) && !m.status.Running? && UpWorks(p, w, replies) && |replies| == Rank(m.at) + 1
    ensures m.world.running - (if Rank(m.at) > Rank(Up) then undone else {}) == w.running <==>
            RunningKept(p, w, replies, m.at, undone)
  {
    if Rank(m.at) > Rank(Up) {
      var running, stopped := w.running + p.Deployed(), StoppedBy(replies);
      SetsMinus(running, stopped, undone);
      RestoresIff(w.running, p.Deployed(), stopped + undone);
    }
  }

  lemma OverrideIsKept(p: Plan, w: World, replies: seq<Reply>, m: Machine)
    requires TracksFiles(p, w, replies, m) && !m.status.Running?
    ensures m.world.overrideFile == w.overrideFile <==> OverrideKept(p, w, replies, m.at)
  {
  }

  lemma TrafficIsKept(p: Plan, w: World, replies: seq<Reply>, m: Machine)
    requires TracksTraffic(p, w, replies, m) && !m.status.Running?
    ensures m.world.traffic == w.traffic <==> TrafficKept(p, w, replies, m.at, m.loaded.tag)
  {
  }

  // Main result, errors: after an ordinary error return, which undoes nothing, the host is as it
  // was before the deploy exactly under this condition. Beyond `up` it asks that every service
  // ran under the very image deployed now, and beyond the override, that this very file was there.
  lemma ErrorLeavesHostIff(p: Plan, w: World, current: DeploymentState, replies: seq<Reply>, m: Machine)
    requires Run(p, w, current, replies, m) && m.status.ReturnedError? && UpWorks(p, w, replies)
    ensures Finish(p, m) == (m.world, DeployError(m.at))
    ensures AsBefore(w, Finish(p, m).0) <==>
            && RunningKept(p, w, replies, m.at, {})
            && OverrideKept(p, w, replies, m.at)
            && TrafficKept(p, w, replies, m.at, m.loaded.tag)
  {
    RunTracks(p, w, current, replies, m);
    RunRank(p, w, current, replies, m);
    RunningIsKept(p, w, replies, m, {});
    OverrideIsKept(p, w, replies, m);
    TrafficIsKept(p, w, replies, m);
    assert m.world.running - {} == m.world.running;
  }

  // The commands of the rollback succeed.
  ghost predicate RecoveryWorks(p: Plan) {
    && (forall w {:trigger p.recovery.remove(w)} :: p.recovery.remove(w).0 == Ok)
    && (forall w {:trigger p.recovery.down(w)} :: p.recovery.down(w).0 == Ok)
    && (forall w {:trigger p.recovery.gate(w)} :: p.recovery.gate(w) != Panic)
  }

  function StepUndone(p: Plan, name: StepName, w: World): World {
    match name
    case OverrideStep => w.(overrideFile := None)
    case UpStep => w.(running := w.running - p.recovery.down(w).1)
    case TrafficStep => w
  }

  function Undone(p: Plan, names: seq<StepName>, w: World): World {
    if names == [] then w else Undone(p, names[..|names| - 1], StepUndone(p, names[|names| - 1], w))
  }

  lemma StepWorks(p: Plan, loadedTag: string, name: StepName, index: nat, w: World)
    requires RecoveryWorks(p)
    ensures var r := RunStep(StepOf(p, loadedTag, name), index, w); !r.panicked && r.world == StepUndone(p, name, w)
  {
    assert p.recovery.gate(w) != Panic;
  }

  lemma {:induction false} UnwindWorks(p: Plan, loadedTag: string, names: seq<StepName>, w: World)
    requires RecoveryWorks(p)
    ensures Unwind(StepsOf(p, loadedTag, names), w).world == Undone(p, names, w)
  {
    if names == [] {
    } else {
      var last := |names| - 1;
      StepsOfParts(p, loadedTag, names);
      StepWorks(p, loadedTag, names[last], last, w);
      UnwindWorks(p, loadedTag, names[..last], StepUndone(p, names[last], w));
    }
  }

  lemma UndoneNext(p: Plan, front: seq<StepName>, name: StepName, w: World)
    ensures Undone(p, front + [name], w) == Undone(p, front, StepUndone(p, name, w))
  {
    assert (front + [name])[..|front|] == front;
  }

  // The services that the rollback of a panic in this call stops.
  function StoppedByUndo(p: Plan, s: Site, w: World): set<string> {
    if Rank(s) > Rank(AwaitContainers) then p.recovery.down(w).1 else {}
  }

  lemma UndoneWhenRegistered(p: Plan, s: Site, w: World)
    ensures var v := Undone(p, RegisteredBefore(s), w);
            && v.running == w.running - StoppedByUndo(p, s, w)
            && v.overrideFile == (if Rank(s) > Rank(WriteOverride) then None else w.overrideFile)
            && v.traffic == w.traffic
  {
    var o, u, t := [] + [OverrideStep], [OverrideStep] + [UpStep], [OverrideStep, UpStep] + [TrafficStep];
    assert o == [OverrideStep] && u == [OverrideStep, UpStep] && t == [OverrideStep, UpStep, TrafficStep];
    assert w.running - {} == w.running;
    UndoneNext(p, [OverrideStep, UpStep], TrafficStep, w);
    UndoneNext(p, [OverrideStep], UpStep, w);
    UndoneNext(p, [], OverrideStep, w);
    UndoneNext(p, [], OverrideStep, StepUndone(p, UpStep, w));
  }

  // Main result, panics: after a panic and a rollback whose commands work, the host is as it was
  // before the deploy exactly under this condition.
  lemma PanicLeavesHostIff(p: Plan, w: World, current: DeploymentState, replies: seq<Reply>, m: Machine)
    requires Run(p, w, current, replies, m) && m.status.Panicking? && UpWorks(p, w, replies) && RecoveryWorks(p)
    ensures AsBefore(w, Finish(p, m).0) <==>
            && RunningKept(p, w, replies, m.at, StoppedByUndo(p, m.at, m.world))
            && (if Rank(m.at) > Rank(WriteOverride) then w.overrideFile == None else OverrideKept(p, w, replies, m.at))
            && TrafficKept(p, w, replies, m.at, m.loaded.tag)
  {
    var undone := StoppedByUndo(p, m.at, m.world);
    RunTracks(p, w, current, replies, m);
    RunRank(p, w, current, replies, m);
    RegisteredAtEveryPoint(p, w, current, replies, m);
    UnwindWorks(p, m.loaded.tag, m.steps, m.world);
    RunningIsKept(p, w, replies, m, undone);
    OverrideIsKept(p, w, replies, m);
    TrafficIsKept(p, w, replies, m);
    UndoneIsAsBeforeIff(p, w, m, undone, Finish(p, m).0);
  }

  lemma UndoneIsAsBeforeIff(p: Plan, w: World, m: Machine, undone: set<string>, v: World)
    requires undone == StoppedByUndo(p, m.at, m.world) && v == Undone(p, RegisteredBefore(m.at), m.world)
    ensures AsBefore(w, v) <==>
            && m.world.running - (if Rank(m.at) > Rank(Up) then undone else {}) == w.running
            && (if Rank(m.at) > Rank(WriteOverride) then w.overrideFile == None else m.world.overrideFile == w.overrideFile)
            && m.world.traffic == w.traffic
  {
    UndoneWhenRegistered(p, m.at, m.world);
    assert m.world.running - {} == m.world.running;
  }

  // Main result, the previous version: once `up` has succeeded, a service that ran under another
  // image never runs under it again, however the deploy ends and whatever its rollback does.
  lemma OldImageNeverReturns(p: Plan, w: World, current: DeploymentState, replies: seq<Reply>, m: Machine, k: string)
    requires Run(p, w, current, replies, m) && Rank(m.at) > Rank(Up) && UpWorks(p, w, replies)
    requires k in w.running && k in p.Deployed() && p.Deployed()[k] != w.running[k]
    ensures var v := Finish(p, m).0; k in v.running ==> v.running[k] == p.Deployed()[k] != w.running[k]
  {
    RunTracks(p, w, current, replies, m);
    FinishTakesDown(p, m);
  }

  // `down` without a name takes down the whole project.
  predicate DownAllWorks(p: Plan, replies: seq<Reply>, names: set<string>) {
    |replies| > 13 && replies[13].Stops? && replies[13].response == Ok && names == {} ==> p.Deployed().Keys <= replies[13].stopped
  }

  // Main result, the outage: every deploy that lists no old container and gets past its first
  // `down` ends with no service of the project running, however well its rollback works.
  lemma FullDeployEndsInOutage(p: Plan, w: World, current: DeploymentState, replies: seq<Reply>, m: Machine)
    requires Run(p, w, current, replies, m) && Rank(m.at) > Rank(DownOld)
    requires m.oldNames == {} && DownAllWorks(p, replies, {})
    ensures Finish(p, m).0.running.Keys !! p.Deployed().Keys
  {
    DownWasOk(p, w, current, replies, m);
    RunTracksRunning(p, w, current, replies, m);
    FinishTakesDown(p, m);
    StoppedAll(p, w, replies, m, Finish(p, m).0);
  }

  // The list is empty exactly when every record of the state file carries the new tag, when the
  // file is not there, and when its test fails.
  lemma NothingListedIff(p: Plan, w: World, current: DeploymentState, replies: seq<Reply>, m: Machine)
    requires Run(p, w, current, replies, m) && Rank(m.at) > Rank(ListOld)
    ensures |replies| > 4 && replies[4].Reads?
    ensures m.oldNames == {} <==>
            !replies[4].testOk || w.stored == None ||
            forall s <- Recorded(p, w.stored.value) :: !IsOld(s, p.tag)
  {
    RunTracksLoaded(p, w, current, replies, m);
    RunTracksState(p, w, current, replies, m);
    NoNamesIff(p, w, current, replies, m);
  }

  // The records of a state file.
  function Recorded(p: Plan, text: string): set<ServiceState> {
    match p.codec.unmarshal(text)
    case Some(s) => if s.compose.Some? then s.compose.value.services.Values else {}
    case None => {}
  }

  lemma NoNamesIff(p: Plan, w: World, current: DeploymentState, replies: seq<Reply>, m: Machine)
    requires TracksLoaded(p, w, replies, m) && TracksState(p, w, current, m) && Rank(m.at) > Rank(ListOld)
    ensures m.oldNames == {} <==>
            !replies[4].testOk || w.stored == None || forall s <- Recorded(p, w.stored.value) :: !IsOld(s, p.tag)
  {
    var services := m.loaded.compose.value.services;
    if k :| k in services && IsOld(services[k], p.tag) {
      assert services[k].containerName in m.oldNames && services[k] in services.Values;
    }
  }

  // So it ends on a host without a state file, which no deploy ever writes, and after one failed
  // test of a file that is there.
  lemma UnreadStateEndsInOutage(p: Plan, w: World, current: DeploymentState, replies: seq<Reply>, m: Machine)
    requires Run(p, w, current, replies, m) && Rank(m.at) > Rank(DownOld) && DownAllWorks(p, replies, {})
    requires w.stored == None || (|replies| > 4 && replies[4].Reads? && !replies[4].testOk)
    ensures m.oldNames == {} && Finish(p, m).0.running.Keys !! p.Deployed().Keys
  {
    NothingListedIff(p, w, current, replies, m);
    FullDeployEndsInOutage(p, w, current, replies, m);
  }

  lemma DownWasOk(p: Plan, w: World, current: DeploymentState, replies: seq<Reply>, m: Machine)
    requires Run(p, w, current, replies, m) && Rank(m.at) > Rank(DownOld)
    ensures |replies| > 13 && replies[13].Stops? && replies[13].response == Ok
  {
    PassedCallsSucceeded(p, w, current, replies, m, 13);
    RunRank(p, w, current, replies[..13], Execute(p, w, current, replies[..13]).value);
  }

  lemma StoppedAll(p: Plan, w: World, replies: seq<Reply>, m: Machine, v: World)
    requires TracksRunning(w, replies, m) && Rank(m.at) > Rank(DownOld) && OnlyTakesDown(m.world, v)
    requires |replies| > 13 && replies[13].Stops? && p.Deployed().Keys <= replies[13].stopped
    ensures v.running.Keys !! p.Deployed().Keys
  {
  }

  // The saga theorem at work, and where it does not apply.

  // traffic-rollback changes nothing, and fails exactly when the loaded state has no tag.
  lemma TrafficUndoDoesNothing(loadedTag: string, w: World)
    ensures UndoTraffic(loadedTag, w).world == w
    ensures if loadedTag == "" then UndoTraffic(loadedTag, w).Failed? else UndoTraffic(loadedTag, w).Finished?
  {
  }

  // So it undoes only a switch that changed nothing.
  lemma TrafficUndoInvertsIff(p: Plan, loadedTag: string, forward: World -> World, w: World)
    ensures StepOf(p, loadedTag, TrafficStep).rollback(forward(w)) == Finished(w) <==> loadedTag != "" && forward(w) == w
  {
    TrafficUndoDoesNothing(loadedTag, forward(w));
  }

  // The other two steps undo their actions exactly when no override file was there and stopping
  // what `down` stops gives the containers back.
  lemma OverrideAndUpUndoneIff(p: Plan, loadedTag: string, names: seq<StepName>, w: World)
    requires RecoveryWorks(p) && names == [OverrideStep, UpStep]
    ensures var after := w.(overrideFile := Some(p.overrideFile), running := w.running + p.Deployed());
            Unwind(StepsOf(p, loadedTag, names), after).world == w <==>
            w.overrideFile == None && Restores(w.running, p.Deployed(), p.recovery.down(after).1)
  {
    var after := w.(overrideFile := Some(p.overrideFile), running := w.running + p.Deployed());
    UnwindWorks(p, loadedTag, names, after);
    UndoneBoth(p, names, after);
    UndoneIff(w, after, Undone(p, names, after), p.Deployed(), p.recovery.down(after).1);
  }

  lemma UndoneBoth(p: Plan, names: seq<StepName>, w: World)
    requires names == [OverrideStep, UpStep]
    ensures Undone(p, names, w) == w.(overrideFile := None, running := w.running - p.recovery.down(w).1)
  {
    var front: seq<StepName> := [];
    assert names == (front + [OverrideStep]) + [UpStep];
    UndoneNext(p, front + [OverrideStep], UpStep, w);
    UndoneNext(p, front, OverrideStep, StepUndone(p, UpStep, w));
  }

  lemma UndoneIff(w: World, after: World, v: World, deployed: map<string, string>, stopped: set<string>)
    requires after == w.(overrideFile := after.overrideFile, running := w.running + deployed)
    requires v == after.(overrideFile := None, running := after.running - stopped)
    ensures v == w <==> w.overrideFile == None && Restores(w.running, deployed, stopped)
  {
    RestoresIff(w.running, deployed, stopped);
  }

  // Then they form a saga: the rollback reports no error either, unless a container still runs.
  lemma OverrideAndUpAreSaga(p: Plan, loadedTag: string, w: World)
    requires RecoveryWorks(p)
    requires w.overrideFile == None
    requires var up := w.(overrideFile := Some(p.overrideFile), running := w.running + p.Deployed());
             Restores(w.running, p.Deployed(), p.recovery.down(up).1)
    requires !p.recovery.newRuns(w.(overrideFile := Some(p.overrideFile)))
    ensures var after := w.(overrideFile := Some(p.overrideFile), running := w.running + p.Deployed());
            var r := Unwind(StepsOf(p, loadedTag, [OverrideStep, UpStep]), after);
            r.world == w && r.errors == [] && !r.panicked
  {
    var write := (v: World) => v.(overrideFile := Some(p.overrideFile));
    var up := (v: World) => v.(running := v.running + p.Deployed());
    var written := write(w);
    var after := up(written);
    RestoresIff(w.running, p.Deployed(), p.recovery.down(after).1);
    TwoStepSaga(StepOf(p, loadedTag, OverrideStep), StepOf(p, loadedTag, UpStep), write, up, w);
    TwoSteps(p, loadedTag);
  }

  lemma TwoSteps(p: Plan, loadedTag: string)
    ensures StepsOf(p, loadedTag, [OverrideStep, UpStep]) ==
            [StepOf(p, loadedTag, OverrideStep), StepOf(p, loadedTag, UpStep)]
  {
    calc {
      StepsOf(p, loadedTag, [OverrideStep, UpStep]);
      { StepsOfOneMore(p, loadedTag, [OverrideStep], UpStep); assert [OverrideStep] + [UpStep] == [OverrideStep, UpStep]; }
      StepsOf(p, loadedTag, [OverrideStep]) + [StepOf(p, loadedTag, UpStep)];
      { StepsOfOneMore(p, loadedTag, [], OverrideStep); assert [] + [OverrideStep] == [OverrideStep]; }
      [StepOf(p, loadedTag, OverrideStep)] + [StepOf(p, loadedTag, UpStep)];
    }
  }

  lemma TwoStepSaga(a: RollbackStep<World>, b: RollbackStep<World>, f: World -> World, g: World -> World, w: World)
    requires Undoes(a, f, w) && Undoes(b, g, f(w))
    ensures var r := Unwind([a, b], g(f(w))); r.world == w && r.errors == [] && !r.panicked
  {
    var steps, forwards := [a, b], [f, g];
    assert steps[..1] == [a] && forwards[..1] == [f] && [a][..0] == [] && [f][..0] == [];
    assert Forward([f], w) == f(w);
    assert Forward(forwards, w) == g(f(w));
    assert AllUndo([a], [f], w);
    assert AllUndo(steps, forwards, w);
    Saga(steps, forwards, w);
  }
}
