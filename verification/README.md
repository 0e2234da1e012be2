# Verification of the uberbase deploy engine

`uberbase deploy` builds and pushes the images of a compose project, starts tagged containers
next to the old ones, waits until they are healthy, switches Traefik over, takes the old
containers down and records the new state; a panic on the way runs the rollback steps that were
registered so far. This project models that engine in Dafny and proves what it guarantees, for
every interleaving, every failure pattern and every order in which a Go map can be ranged over.
Where the code does not keep what it promises, the exact condition under which it does is proved,
with a concrete input on which it fails.

`dafny verify dfyconfig.toml` checks everything.

## How it is organised

| module | what it models |
|---|---|
| `HealthGate` | `waitForAll`: rounds of parallel checks as a transition system, one event for each atomic action of one goroutine |
| `Rollback` | the rollback stack, generic in the world its steps act on |
| `DeployMachine` | the deploy run as a machine of seventeen calls, each of which may succeed, fail or panic; a run is given by the replies to its calls |
| `DeployRuns` | theorems about every run of that machine and its recovery |
| `DeployAnswers` | what the host's answers decide: where a deploy ends, what it records, when a rollback reports nothing |
| `DeployExamples` | two concrete deploys and a switch on which the promises fail |
| `Deployer` | `DeployProject` as a class that owns a state manager and a traffic manager and runs its calls through them, proved to be a run of the machine |
| `Traefik`, `Traffic` | Traefik's configuration on the heap with its pointers, and the traffic switch over it |
| `Urls` | the server URLs: parser, printer, and repeated retagging |
| `Remote` | the retrying executor over the reconnecting SSH session |
| `RemoteLogs` | what its logs look like, written down without its operations |
| `State` | the deployment state: equality, update in place, persistence |
| `HereDoc` | how a shell reads the here-documents through which remote files are written |
| `Images` | image references in build, push, pull, the compose override, and what compose runs for it |
| `Strings`, `Wrappers` | the parts of Go's `strings` and `strconv` in use, and option and result values |

Objects that the source updates in place are classes whose methods are proved against a
specification; loops over maps pick the next key freely, so that each contract holds for every
order. Outcomes of commands, connections, clocks and other goroutines are arbitrary: parameters
(`Network`, `Answers`, `Recovery`, interleavings), or choices that end up in a log. What the deploy computes
from them is computed in the model with the functions that the state manager is proved against, and
what the machine supposes of the traffic manager and of the health gate is what these two are
proved to promise.

Three things are supposed of the container runtime, and only where a lemma names them: that `up`
runs the services of the merged compose files under their images and leaves others alone
(`DeployRuns.UpWorks`), that `down` without a name takes down the whole project
(`DeployRuns.DownAllWorks`), and that the commands of a rollback succeed (`DeployRuns.RecoveryWorks`).
Which services a `down` with names stops is arbitrary; `down` starts none.

## What the proofs found

The repository's README (README.md:279-280) promises zero downtime, and that any failed deploy is
rolled back to the previous version. The code is modelled as it is written:

- `Deployer.Deploys`, `DeployRuns.NeverSucceeds`: nothing ever assigns `StateManager.CurrentState`,
  so the update dereferences nil. Whatever releases a deployer deploys, no deploy returns nil and the
  state file is never written.
- `DeployRuns.TagIsSwitchedOnce`: the deploy file of a tag is never removed again, not even by a
  rollback, so a later deploy of that tag ends at the switch, or before it. Unless Traefik's directory
  was empty, each tag that the state file does not record gets past the switch at most once
  (`Deployer.Deploys`).
- `DeployAnswers.RecoveryIsCleanIff`: the rollback of a panic past the switch always reports an error
  when the loaded state has no tag, as on a host without a state file.
- `DeployAnswers.UpdateRecords`: what an update records keeps the state's old tag; only Traefik's part
  gets the new one.
- `DeployRuns.FullDeployEndsInOutage`: when the list of old containers is empty, `down` without a name
  takes down the whole project, the new containers included, and a deploy that gets past it ends with
  no service of the project running. The list is empty exactly when the state file is not there, when
  its test fails once, or when every record carries the new tag (`DeployRuns.NothingListedIff`).
  `DeployExamples.PreviousVersionIsLost` is such a deploy.
- `DeployRuns.OldImageNeverReturns`: `up` replaces the containers of a service, and nothing starts
  the previous image again. `DeployRuns.ErrorLeavesHostIff` and `DeployRuns.PanicLeavesHostIff` say
  for every error and every panic exactly when the host is as before. An ordinary error runs no
  rollback at all: `DeployExamples.LateContainerStays` is a deploy that times out and leaves the new
  version and the override file behind.
- `DeployRuns.TrafficUndoInvertsIff`: the traffic rollback deploys the state's own tag, which
  `Deploy` answers at once, so it undoes only a switch that changed nothing. In
  `DeployExamples.SwitchIsNotUndone` it leaves a switched directory switched and reports no error.
- `Traffic.GateChecksOneConfiguration`: of the configurations that were loaded, the gate checks the
  one that was written last, under the server URLs it was loaded with; neither the others nor the
  URLs with the new tag are checked before the old configurations are retired.
- `Traffic.RemovalPathHits`: the path used to remove old configurations lacks a separator, so no
  file is ever removed. The rewritten URLs and service names live in range copies and are never
  written: the file written for a tag equals a loaded one (`Traffic.TrafficManager.CreateDeployConfigs`).
- `HealthGate.AbandonedGateNeverEnds`: a gate whose consumer timed out never ends
  (`HealthGate.LateGateLeaks` is an interleaving of one check).
- `State.SecondUpdateMisses` and `DeployMachine.RewrittenIsAlwaysOld`: an update renames the field it
  looks up by. The next deploy misses the record (`State.SecondDeployIsNotRecorded`), and deploying
  one commit twice lists the containers it has just started as old ones.
- `Images.StripTagInvertsTagging`: a registry port is taken for a tag (`Images.RegistryPortIsLost`).
- `HereDoc.UnquotedRoundTrip`: the override is written through an unquoted here-document, in which a
  doubled backslash comes back single: a hostname with two backslashes reaches the remote host with
  one (`HereDoc.HostnameLosesBackslash`). The state goes through a quoted one and loads back
  (`State.SaveThenLoad`).

## Model

| member | source | states |
|---|---|---|
| HealthGate.RunInv | uberbase/pkg/health/checker.go:80-123 | every state that any interleaving of any number of checks and rounds reaches satisfies the gate's invariant |
| HealthGate.HealthyMeansAllTrueInOneRound | uberbase/pkg/health/checker.go:89-116 | once a value or the close of `healthy` was received, each of the n checks of the last round has returned true and none false, and in every earlier round, still running or not, some check returned false; stated over the events, the calls that returned, and not over what the model stores of them |
| HealthGate.ChannelDiscipline | uberbase/pkg/health/checker.go:86-116 | in every reachable state nothing has panicked (no send after close, no second close, no negative wait group), each results channel holds and gave at most n results and is closed only when all workers are done, a check that runs can return either verdict, a worker with a result can always send it, and `healthy` carries one value before its one close |
| HealthGate.MeasureDecreases | uberbase/pkg/health/checker.go:85-110 | every action of a round makes a non-negative measure over its workers, closer and reader smaller |
| HealthGate.RoundIsBounded | uberbase/pkg/health/checker.go:85-110 | in any interleaving, beside any other rounds, a round takes at most 5n + 4 actions |
| HealthGate.NoDeadlock | uberbase/pkg/health/checker.go:85-110 | a round that is not over always has an action that is enabled |
| HealthGate.QuietRoundHasVerdict | uberbase/pkg/health/checker.go:89-110 | a round with nothing left to do is over; its reader saw the close exactly when every check returned true and none false, and broke exactly when one returned false, by the same events |
| HealthGate.RestsIff | uberbase/pkg/health/checker.go:83-120 | the gate's goroutines can all be at rest if and only if every round is over and the gate has exited or announces to a consumer that has left |
| HealthGate.AbandonedGateNeverEnds | uberbase/pkg/health/checker.go:112-116 | when the consumer left before receiving anything, no continuation ever closes `healthy` or ends the gate |
| HealthGate.LateGateLeaks | uberbase/pkg/health/checker.go:112-116 | a concrete interleaving of one check whose consumer leaves just before the announcement: nothing can happen any more and the gate has not ended |
| HealthGate.ReadResults | uberbase/pkg/health/checker.go:103-110 | the reader's loop is healthy exactly when all results are true, and otherwise stops right after the first false |
| HealthGate.WaitForContainers | uberbase/pkg/deploy/deployer.go:184-189 | for any interleaving, the wait takes the gate for healthy exactly when something was received from it |
| Rollback.RollbackManager.AddRollbackStep | uberbase/pkg/deploy/rollback.go:37-43 | the step is appended, the others stay |
| Rollback.RollbackManager.UndoSteps | uberbase/pkg/deploy/rollback.go:53-71 | the descending loop refines the recursive unwinding of the stack, last step first |
| Rollback.RollbackManager.Rollback | uberbase/pkg/deploy/rollback.go:46-85 | its world, log and outcome are those of unwinding the stack between two loads; a panicking step or a nil Compose in the comparison panics |
| Rollback.RollbackAccounting | uberbase/pkg/deploy/rollback.go:48-71 | whatever fails, the steps are attempted once each in strictly descending order, all of them unless one panics, with one error for each undo or verify that is logged as failed |
| Rollback.RollbackAnswers | uberbase/pkg/deploy/rollback.go:53-71 | over the worlds the unwinding passes through, each step attempted in the one that those above it left: an undo is logged as a success if and only if its rollback function finished there, its verify is run if and only if it did, and is logged likewise, a failure of either is reported as its own, and the loop ends early if and only if one panicked |
| Rollback.RollbackVerifies | uberbase/pkg/deploy/rollback.go:60-70 | a verify runs directly after its own undo, exactly when that undo succeeded and the step has a verify |
| Rollback.NilMeansClean | uberbase/pkg/deploy/rollback.go:73-84 | nil is returned if and only if nothing panicked, nothing failed, the final load succeeded and the states compare equal |
| Rollback.NilMeansAllFinished | uberbase/pkg/deploy/rollback.go:53-84 | nil is returned if and only if every rollback function and every verify finished, from the last step down, the final load succeeded and the states compare equal |
| Rollback.ErrorsReported | uberbase/pkg/deploy/rollback.go:60-83 | a failing rollback reports one error for each failed undo and verify, and one more, of its kind, if the final state cannot be loaded or differs |
| Rollback.Saga | uberbase/pkg/deploy/rollback.go:37-71 | if each rollback undoes its forward action where that ran, then running all actions in order and unwinding gives back the very same world, with no error |
| Deployer.Deployer.DeployProject | uberbase/pkg/deploy/deployer.go:84-280 | a deploy of any release, run through the state manager and the traffic manager, is a run of the machine from the present host and state on the host's answers, followed by its recovery; every call but the last was answered well, and the first that was not ends it in that call with that outcome; with the state manager's own state at its zero value it does not return nil, the state file is unchanged, and that state stays zero |
| Deployer.Deploys | uberbase/pkg/deploy/deployer.go:84-280 | a deployer as its constructors make it, and any sequence of releases, each with its own tag, files and answers: no deploy returns nil, the state file is what it was, every file of Traefik's directory stays as it was, and unless that directory was empty, of two deploys of one tag that the state file does not record at most one gets past the switch |
| Deployer.Deployer.Body | uberbase/pkg/deploy/deployer.go:98-280 | the calls in the source's order keep objects and machine in agreement and end where the machine ends |
| Deployer.Deployer.CallUpdate | uberbase/pkg/deploy/deployer.go:271 | the update gets the configurations of no deploy, by value, and leaves state, result and file as the state manager's contract says |
| DeployAnswers.DeployFollowsHost | uberbase/pkg/deploy/deployer.go:98-279 | for every run: each call before the last was answered well by the host (its command, the load, the gate, Traefik's files, the save), and the last decides the outcome: an error ends the deploy with the error of that call, a panic with the recovery there, and no call follows |
| DeployAnswers.UpdateRecords | uberbase/pkg/state/manager.go:76-95 | past the update the state has the records of the overridden services renamed and in Traefik's part the new tag and exactly the configurations of no deploy, its own tag is the old one, and the state file holds this state |
| DeployAnswers.RecoveryIsCleanIff | uberbase/pkg/deploy/deployer.go:88-249 | the recovery of a panic reports nothing if and only if the commands of every registered step worked and their checks were content, for the traffic step with a loaded state that has a tag, and the state loads as the same |
| DeployMachine.ListOldContainers | uberbase/pkg/deploy/deployer.go:252-258 | one entry for each recorded container whose name is not the service's with the new tag, and no other name, in any order of the map |
| DeployMachine.RewrittenIsAlwaysOld | uberbase/pkg/deploy/deployer.go:254-256 | a record that an update has rewritten counts as old for every tag, the one just deployed included; any other record counts as old as before |
| DeployRuns.RegisteredAtEveryPoint | uberbase/pkg/deploy/deployer.go:142-249 | at every program point of every run the registered steps are exactly the prefix of override, up and traffic whose calls have succeeded |
| DeployRuns.NilMeansAllSucceeded | uberbase/pkg/deploy/deployer.go:98-279 | a run that has stopped returns nil if and only if all of its calls succeeded |
| DeployRuns.RunTracks | uberbase/pkg/deploy/deployer.go:98-276 | at every point of every run, what is on the host: containers, compose and override file, state file, and what was loaded and listed, by the replies; Traefik's directory is unchanged up to the switch and afterwards, whether the switch succeeded or failed, what its result tells (`Traffic.Rerouted`) |
| DeployRuns.TagIsSwitchedOnce | uberbase/pkg/deploy/deployer.go:213-249 | however a deploy ends, every file of Traefik's directory is still there unchanged and at most the tag's own deploy file is new; where that file was there, a tag other than the loaded state's stops in the switch as already deployed, with the directory unchanged; where it was not, getting past the switch has added it, unless the directory was empty |
| DeployRuns.CommitLast | uberbase/pkg/deploy/deployer.go:113-276 | if the state file has changed at any point of a run, every call before the update has succeeded: build, push, pull, up, container health, traffic and both downs |
| DeployRuns.HealthyBeforeSwitch | uberbase/pkg/deploy/deployer.go:180-217 | a run that gets past the wait for the containers received something from its gate, and in the last round of it the check of every overridden service has returned true and none false |
| DeployRuns.UnwindTakesDown | uberbase/pkg/deploy/deployer.go:142-249 | whatever fails in it, a rollback starts no container and touches neither Traefik's directory nor the state file |
| DeployRuns.PanicUndoesThePrefix | uberbase/pkg/deploy/deployer.go:88-96 | a panic at any point unwinds exactly the registered prefix, last step first, each step once |
| DeployRuns.RecoveryKeepsStateFile | uberbase/pkg/deploy/deployer.go:88-96 | a panic in any call but the last leaves the state file as it was before the deploy, through the rollback |
| DeployRuns.RecoveryFindsNoMismatch | uberbase/pkg/deploy/rollback.go:50-79 | when both loads succeed alike with a Compose, the comparison of states adds no error to those of the steps |
| DeployRuns.NeverSucceeds | uberbase/pkg/state/manager.go:36-89 | a run from the zero state never returns nil and never changes the state file, and if it gets to the update it ends in a panic there |
| DeployRuns.ErrorLeavesHostIff | uberbase/pkg/deploy/deployer.go:113-276 | after an error return in any call the containers, the override file and Traefik's directory are as before the deploy if and only if a condition, by the call that failed, on what ran and what was there before; a switch that failed leaves the directory as it was when the tag was already there and when nothing was written, and never once it got to the gate |
| DeployRuns.PanicLeavesHostIff | uberbase/pkg/deploy/deployer.go:88-96 | the same after a panic in any call and a rollback whose commands work |
| DeployRuns.OldImageNeverReturns | uberbase/pkg/deploy/deployer.go:171-211 | once up has succeeded, a service that ran under another image never runs under it again, however the deploy ends and whatever its rollback does |
| DeployRuns.FullDeployEndsInOutage | uberbase/pkg/deploy/deployer.go:251-267 | every deploy that lists no old container and gets past its first down ends with no service of the project running, whatever its rollback does |
| DeployRuns.NothingListedIff | uberbase/pkg/deploy/deployer.go:251-258 | the list is empty if and only if there was no state file, its test failed, or every container it records carries the new tag |
| DeployRuns.UnreadStateEndsInOutage | uberbase/pkg/state/manager.go:48-61 | so a host without a state file, and one on which the test of a file that is there fails once, ends in that outage |
| DeployExamples.PreviousVersionIsLost | uberbase/pkg/deploy/deployer.go:251-273 | a concrete deploy of a project whose images are pulled, on which only the update panics: the service that ran before is gone and nothing runs, although `up` and `down` did what compose does |
| DeployExamples.LateContainerStays | uberbase/pkg/deploy/deployer.go:184-189 | a concrete deploy that returns an error because its container is late: the new version runs and the override file stays |
| DeployExamples.SwitchIsNotUndone | uberbase/pkg/deploy/deployer.go:221-228 | a directory of one ready configuration, a state tagged "1" and a deploy tagged "2": the switch succeeds and adds a file; the traffic rollback and its check then find no error, and whichever steps are undone the directory stays switched |
| DeployRuns.TrafficUndoInvertsIff | uberbase/pkg/deploy/deployer.go:221-228 | the traffic rollback undoes a traffic switch if and only if the state has a tag and the switch changed nothing |
| DeployRuns.OverrideAndUpUndoneIff | uberbase/pkg/deploy/deployer.go:142-211 | undoing override and up gives the same world back if and only if no override file was there and taking down what `down` stops gives back the containers |
| DeployRuns.OverrideAndUpAreSaga | uberbase/pkg/deploy/deployer.go:142-211 | the two steps are then a saga: the rollback returns to the very same world and reports no error |
| Traffic.TrafficManager.Load | uberbase/pkg/loadbalancer/traffic.go:42-54 | it succeeds exactly when the directory can be listed and every file read and parsed; then the manager holds exactly what the files hold, in new objects, and otherwise what it held |
| Traffic.TrafficManager.Deploy | uberbase/pkg/loadbalancer/traffic.go:59-110 | whatever the environment does, no file but the tag's deploy file changes, no in-memory configuration changes although copies share its pointers, nothing is removed before the deploy configuration was found healthy, the new file is never a removal target, it holds the very configuration that the gate was given, each gate error is returned if and only if the one gate gave that very verdict, a write error if and only if the last write failed, and every other error comes before a verdict |
| Traffic.SwitchReroutes | uberbase/pkg/loadbalancer/traffic.go:59-110 | whatever the result of a switch on a manager that has loaded its directory, when the directory is unchanged: at the guard, when the directory is empty, when the tag is already deployed (which is so if and only if one of its deploy files is there), when creating the new file stopped before a write, and when a failed write left no file; after a gate error never |
| Traffic.SwitchAddsAtMostOnce | uberbase/pkg/loadbalancer/traffic.go:59-82 | such a switch changes no file that was there; where the tag's file was there every other tag than the state's is refused, where it was not a success with another tag has added it, unless the directory was empty |
| Traffic.GateChecksOneConfiguration | uberbase/pkg/loadbalancer/traffic.go:83-99 | whenever a switch gets to its gate, the URLs checked are exactly those of the servers of one loaded configuration, as they were loaded, and the new file holds this configuration |
| Traffic.TrafficManager.CreateDeployConfigs | uberbase/pkg/loadbalancer/traffic.go:132-160 | in every map order and with writes that work it succeeds if and only if every configuration it does not skip has HTTP, services, load balancers and parseable URLs; file and sole entry then hold one and the same loaded configuration |
| Traffic.ReadyIff | uberbase/pkg/loadbalancer/traffic.go:136-153 | a configuration is fit for a switch if and only if it has HTTP and services, each service a load balancer, and each server a URL of a host and a port, with or without a scheme |
| Traffic.TrafficManager.RewriteCopies | uberbase/pkg/loadbalancer/traffic.go:142-153 | rewriting range copies changes nothing; what remains is the check of the URLs, which fails only for a reason that holds of the configuration |
| Traffic.TrafficManager.WriteCopy | uberbase/pkg/loadbalancer/traffic.go:138-157 | the tag's file gets the loaded configuration itself, unless the configuration is not fit or the write fails |
| Traffic.TrafficManager.UpdateRouters | uberbase/pkg/loadbalancer/traffic.go:162-174 | it selects exactly the loaded deploy files of the tag and changes none of them |
| Traffic.TrafficManager.AwaitHealthy | uberbase/pkg/loadbalancer/traffic.go:83-99 | one verdict on the one deploy configuration, the value its entry holds, decides between going on and the matching error |
| Traffic.TrafficManager.RemoveDynamicConfigs | uberbase/pkg/loadbalancer/traffic.go:221-228 | the removal is called once for each deploy file of the tag and no file of the directory is removed |
| Traffic.TrafficManager.GetDynamicConfigs | uberbase/pkg/loadbalancer/traffic.go:112-121 | exactly the configurations of no deploy, with the values they were loaded with |
| Traffic.RemovalPathHits | uberbase/pkg/loadbalancer/traffic.go:224 | the removal's path is the path of some file in the directory if and only if the name starts with a separator |
| Traefik.DynamicConfiguration.Copy | uberbase/pkg/traefik/dynamicconfig.go:496-499 | a new struct of the same value that shares the HTTP pointer |
| Traefik.WaitForHTTPHealthChecks | uberbase/pkg/health/checker.go:49-78 | one target for each server of each load balancer with a health path; healthy at once exactly when there is none |
| Traefik.HealthTargetsHas | uberbase/pkg/health/checker.go:52-67 | a URL is checked if and only if it is that of a server of a load balancer with a health path, followed by this path |
| Urls.TaggedURLRoundTrip | uberbase/pkg/loadbalancer/traffic.go:144-148 | a printed server URL parses back to the tagged host and the same port if and only if the tag holds no colon |
| Urls.RetaggingKeepsPort | uberbase/pkg/loadbalancer/traffic.go:201-219 | over any sequence of tags without colon the port is kept and the host collects the tags in order |
| Urls.ParsesIff | uberbase/pkg/loadbalancer/traffic.go:199-219 | a URL parses to a host and a port if and only if it is a scheme (none, http, https, or http before https), the host without a colon, a colon, and a numeral of the port, from 1 to 65535; every other URL is refused |
| Urls.PlainURLParses | uberbase/pkg/loadbalancer/traffic.go:201-219 | with either scheme or none, any host without a colon and any port in range parse to this host and port |
| Remote.SSHSession.Connect | uberbase/pkg/ssh/session.go:45-75 | client and closed after each outcome of dialling and of opening a session |
| Remote.SSHSession.ExecuteCommand | uberbase/pkg/ssh/session.go:77-106 | a failed command drops the client and closes the session |
| Remote.SSHSession.Close | uberbase/pkg/ssh/session.go:108-114 | no client afterwards, and closed |
| Remote.ClosedHasNoClient | uberbase/pkg/ssh/session.go:45-118 | after any sequence of operations a closed session holds no client |
| Remote.RemoteExecutor.ExecWithoutRetry | uberbase/pkg/core/remote.go:110-123 | one reconnect and one more execution after a transport error, as its specification says, whose logs `RemoteLogs.ExecLogs` describes |
| Remote.RemoteExecutor.Exec | uberbase/pkg/core/remote.go:71-96 | the attempt loop refines the recursive specification that the theorems about the log are about |
| Remote.ExecContract | uberbase/pkg/core/remote.go:71-123 | with at least one attempt: at most 2 x maxRetries executions and maxRetries - 1 sleeps; each sleep has a lock or transport error of its own since the sleep before, met while connecting or while running; no execution follows another except after such an error; success means that the last execution succeeded with that output; the call succeeds if and only if it leaves the session live; and it gives up on such an error only after its last attempt |
| Remote.ExecAttempts | uberbase/pkg/core/remote.go:79-95 | a call that can connect makes between one and maxRetries attempts; each but the last ended in a lock or transport error and is followed by a sleep, from which the next starts; the last one's answer is the answer, and it is such an error only when no attempt was left |
| RemoteLogs.ExecLogs | uberbase/pkg/core/remote.go:71-123 | whatever the network answers, the log holds its answers and is that of a call: a connection if the session was closed, then attempts with a sleep after each that ended in a lock or transport error unless none was left; an attempt is an execution, after a transport error a reconnection, and if that worked a second execution, whose answer then counts |
| RemoteLogs.LastExecutionAnswers | uberbase/pkg/core/remote.go:115-122 | the answer of such a call is that of the last execution of the command, after which came nothing but a reconnection that failed |
| RemoteLogs.FailedReconnectionIsNoAnswer | uberbase/pkg/core/remote.go:86-122 | on a live session whose command fails with a transport error and which cannot be reconnected, the call sleeps when an attempt is left, and otherwise answers with the command's error |
| RemoteLogs.SendLogs | uberbase/pkg/core/remote.go:126-143 | the log of sending a file: a transfer, after a transport error a reconnection, and if that worked a second transfer, whose answer then counts |
| Remote.RetriableTexts | uberbase/pkg/core/remote.go:86-108 | wherever one of the listed texts stands in it, an error is worth another attempt |
| Remote.RetryBoundIsMet | uberbase/pkg/core/remote.go:79-122 | those bounds are met, two executions in each attempt, when every execution fails with a transport error while every reconnection works |
| Remote.NoAttemptNoRun | uberbase/pkg/core/remote.go:72-95 | with a retry count below one nothing is executed, and an empty success is returned if and only if the session was live or could be opened |
| Remote.SendFileContract | uberbase/pkg/core/remote.go:126-143 | it executes no command; success means that the last thing done was a transfer that succeeded on a live session |
| State.Equal | uberbase/pkg/state/manager.go:133-152 | in every order of the map the loop decides equality of tag, service keys, container names and Traefik state, and panics exactly on equal tags with a nil Compose |
| State.EqualIsEquivalence | uberbase/pkg/state/manager.go:133-152 | on states with a Compose the comparison is reflexive, symmetric and transitive |
| State.EqualIsSameParts | uberbase/pkg/state/manager.go:133-152 | states with a Compose compare equal if and only if they have the same tag, the same container name under the same service keys and the same Traefik state; the nil dereference needs equal tags and a missing Compose |
| State.StateManager.Load | uberbase/pkg/state/manager.go:43-74 | a failed test reads as the empty state, a failed read or parse as an error, and nothing in the manager changes |
| State.LoadFailsIff | uberbase/pkg/state/manager.go:43-74 | a load fails if and only if the file is there, as far as the test tells, and cannot be read or parsed; otherwise it gives what the file holds, or the empty state |
| State.FailedTestLooksLikeChange | uberbase/pkg/state/manager.go:48-61 | a state file whose test fails once compares as changed, unless it held no tag, no service and no Traefik state |
| State.StateManager.Save | uberbase/pkg/state/manager.go:97-130 | it succeeds if and only if there is a work directory and both commands work; then the file is what the here-document makes of the marshalled state; without a work directory, or when the directory cannot be made, the file stays |
| State.SaveThenLoad | uberbase/pkg/state/manager.go:122-124 | every saved state loads back, a nil map of configurations as an empty one, and the file is the marshalled text and one newline |
| State.StateManager.Update | uberbase/pkg/state/manager.go:76-95 | in every order of the map exactly the records whose name is an override's key are rewritten, in place; tag, lock and keys are kept, Traefik's part becomes the arguments; it panics if and only if Compose or Traefik is nil, and then the file is untouched |
| State.SecondUpdateMisses | uberbase/pkg/state/manager.go:79-81 | after one update the next leaves the record as it is if and only if no override is called what the first one named it |
| State.SecondDeployIsNotRecorded | uberbase/pkg/state/manager.go:79-81 | a concrete record that still names the first deploy after the second |
| HereDoc.QuotedRoundTrip | uberbase/pkg/state/manager.go:122-124 | reading back the quoted here-document gives the data and one newline if and only if no line of the data is `EOF` |
| HereDoc.UnquotedRoundTrip | uberbase/pkg/containers/override.go:47 | for data without `$` and backquote, the unquoted one does so if and only if besides no backslash stands before a backslash or a newline |
| HereDoc.DoubledBackslashIsHalved | uberbase/pkg/containers/override.go:47 | a doubled backslash comes back single, whatever text without another backslash, `$`, backquote or delimiter line stands around it |
| HereDoc.HostnameLosesBackslash | uberbase/pkg/containers/override.go:47 | a concrete override whose hostname holds two backslashes arrives with one |
| Images.StripTagInvertsTagging | uberbase/pkg/utils/utils.go:29-35 | stripping the tag of a tagged image gives its repository if and only if the repository holds no colon |
| Images.RegistryPortIsLost | uberbase/pkg/utils/utils.go:29-35 | a concrete image on a registry with a port loses everything after the host |
| Images.SameReference | uberbase/pkg/utils/utils.go:29-35 | two images get one reference if and only if they agree up to the first colon, so all images of one registry with a port collide |
| Images.Retagging | uberbase/pkg/utils/utils.go:29-35 | retagging twice is retagging once with the last tag, for every image string |
| Images.DockerfileInContext | uberbase/pkg/containers/image.go:25-31 | a Dockerfile, if there is one, is named by a path that starts with the build's context and ends with its own name |
| Images.ContainerManager.Build | uberbase/pkg/containers/image.go:10-41 | the build commands of all services with a build section are sent in order up to the first that fails; it succeeds if and only if none failed, and then all were sent and the output is theirs in order |
| Images.ContainerManager.Pull | uberbase/pkg/containers/image.go:43-60 | the pulls of all services with an image are sent in order up to the first that fails; it succeeds if and only if none failed, and then all were sent and the output is theirs in order |
| Images.ContainerManager.Push | uberbase/pkg/containers/image.go:62-76 | the pushes of all services with a build section are sent in order up to the first that fails; it succeeds if and only if none failed, and then all were sent and the output is theirs in order |
| Images.NewComposeOverride | uberbase/pkg/containers/override.go:22-39 | the loop builds the map in which of two services with one name the later counts |
| Images.OverridesAre | uberbase/pkg/containers/override.go:22-39 | that map has an entry exactly for every service with a build section, and with distinct names that service's own: its name, container and host name with the tag, and the image with the tag in place of its own |
| Images.DeployedIs | uberbase/pkg/containers/override.go:22-39 | with distinct names compose runs every service of the project and no other, one with a build section under the reference of the tag and any other under its own image |
| Images.ReferencesAgree | uberbase/pkg/containers/override.go:27-36 | a service with a build section and an image is built, pushed, pulled and overridden under one and the same reference, and each of these happens |
| Images.UnbuiltIsPulledAsIs | uberbase/pkg/containers/image.go:43-53 | a service without a build section is pulled under its own image, if it has one, and neither built nor pushed |
| Images.BuildWordsAre | uberbase/pkg/containers/image.go:17-35 | a build command starts with the build arguments in order and ends with the build's context |

## Left out

- Real SSH, SFTP, HTTP, git, container and file-system calls: their outcomes are arbitrary, within the part of the world that each can touch (`DeployMachine.Effect`).
- Real time: timeouts are choices, or the end of an interleaving, sleeps are counted or are events.
- HealthGate.RoundIsBounded: bounds the actions of a round; a check that never returns keeps its round waiting, and a check that panics ends the program, which is not modelled.
- `WaitForContainers` and `createHTTPHealthCheck`: each builds one check per entry, whose result is arbitrary here; the goroutine of `waitForHealthy` that passes a verdict on is part of the arbitrary verdict in `Traffic`.
- Remote.RemoteExecutor.Exec: one caller at a time; the mutex, and callers that interleave between `IsClosed`, `Connect` and the attempts, are not modelled. SSH channels that reconnecting leaves open are not counted.
- Remote.RemoteExecutor.SendFile: wraps the error of a transfer in a longer text, which is not modelled.
- State.StateManager.Update: the service records are distinct objects and not nil, as the YAML reader makes them; nil entries of the maps of services and configurations are not modelled.
- State.SaveThenLoad: YAML is an abstract pair with two laws (`State.Codec.Lawful`): reading what was written, with a newline more, gives it back, a nil map of configurations as an empty one; and no line of it is the delimiter, since below the struct's own keys everything is indented.
- State.StateManager.Save: a write that fails may leave any file.
- Urls.ParsesIff: the numerals of a port are those of a positive number that fits; how `strconv.Atoi` reads other text is modelled (`Strings.Atoi`), but only that it is refused matters.
- HereDoc.UnquotedRoundTrip: says nothing of data with `$` or backquote, where the result depends on the variables and commands of the remote shell.
- Traffic.TrafficManager.Deploy: a tag that changes the directory of its file, by a separator or dots that `filepath.Join` would clean up, is not modelled; tags are commits.
- Traefik: only HTTP, routers, services, load balancers, server URLs and health paths; every other field is one opaque value.
- Images.ContainerManager.Build: build arguments come in the order in which the map yields them; a nil value, on which the source panics, is not modelled.
- Deployer.Deploys: the compose project, the work directory and the YAML pair are those the deployer was made with; a release varies the tag, the two files and the answers.
- Deployer.Deployer.Body: the commands of build, push and pull, which `Images.ContainerManager` models, are one arbitrary answer each.
- DeployRuns.ErrorLeavesHostIff: of the containers it compares the image of every service, and supposes `DeployRuns.UpWorks`; images, the registry, the compose file and directories are not compared.
- DeployRuns.PanicLeavesHostIff: supposes in addition that the commands of the rollback succeed; what holds without this is `DeployRuns.UnwindTakesDown`.
- DeployRuns.RecoveryFindsNoMismatch: when the two loads differ, or read a nil Compose, the outcome is that of `Rollback.RollbackManager.Rollback`.
- Logging, the command line, the HTTP server, the installer, the git manager, SSH keys, network and volume wrappers, the functions client, shell scripts and service configuration: no state that a property here depends on.
