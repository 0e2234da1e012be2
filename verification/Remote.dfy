/**
 The remote executor: a two-level retry over an SSH session that reconnects. The session is a
 (client, closed) pair; every dial, session and command outcome is the network's choice.
 */
module Remote {
  import opened Wrappers
  import opened Strings

  // The outcome of the call made at each moment; errors are their texts.
  datatype Network = Network(
    dial: nat -> Option<string>,
    open: nat -> Option<string>,
    run: (nat, string) -> Result<string, string>,
    transfer: nat -> Option<string>)

  // What the session did, oldest first.
  datatype Action =
    | Dialled(error: Option<string>)
    | Opened(error: Option<string>)
    | Ran(command: string, result: Result<string, string>)
    | Transferred(error: Option<string>)
    | Slept

  datatype Session = Session(client: bool, closed: bool, log: seq<Action>) {
    function Did(a: Action): Session { this.(log := log + [a]) }

    function Dropped(): Session { this.(client := false, closed := true) }

    predicate Live() { client && !closed }
  }

  datatype ExecError = ConnectFailed(cause: string) | CommandFailed(cause: string)

  const TRANSPORT_ERRORS := {
    "connection refused", "no route to host", "connection reset by peer", "broken pipe",
    "i/o timeout", "transport", "connection closed"}

  predicate IsTransportError(e: string) { exists text | text in TRANSPORT_ERRORS :: Contains(e, text) }

  predicate Retriable(e: string) { Contains(e, "could not get lock") || IsTransportError(e) }

  // Wherever one of these texts stands in it, an error is worth another attempt, and all of them but
  // the lock's are worth a reconnection.
  lemma RetriableTexts(before: string, text: string, after: string)
    ensures text == "could not get lock" || text in TRANSPORT_ERRORS ==> Retriable(before + text + after)
    ensures text in TRANSPORT_ERRORS ==> IsTransportError(before + text + after)
  {
    var e := before + text + after;
    assert StandsAt(e, text, |before|);
  }

  // The session's operations as functions of the session's state.

  function ConnectSpec(net: Network, s: Session): (Session, Option<string>) {
    var dialled := if s.client then None else net.dial(|s.log|);
    if dialled.Some? then (s.Did(Dialled(dialled)).(closed := true), dialled)
    else
      var s := if s.client then s else s.Did(Dialled(None)).(client := true);
      var refused := net.open(|s.log|);
      if refused.Some? then (s.Did(Opened(refused)).Dropped(), refused)
      else (s.Did(Opened(None)).(closed := false), None)
  }

  function ExecuteCommandSpec(net: Network, s: Session, command: string): (Session, Result<string, string>) {
    var (s, error) := ConnectSpec(net, s);
    if error.Some? then (s, Failure(error.value))
    else
      var r := net.run(|s.log|, command);
      var s := s.Did(Ran(command, r));
      (if r.Failure? then s.Dropped() else s, r)
  }

  function ExecWithoutRetrySpec(net: Network, s: Session, command: string): (Session, Result<string, string>) {
    var (s, r) := ExecuteCommandSpec(net, s, command);
    if r.Failure? && IsTransportError(r.error) then
      var (s, error) := ConnectSpec(net, s);
      if error.None? then ExecuteCommandSpec(net, s, command) else (s, r)
    else (s, r)
  }

  // The attempts from this one on. With no attempt left the source returns an empty success.
  function Attempts(net: Network, s: Session, command: string, attempt: int, maxRetries: int)
    : (Session, Result<string, ExecError>)
    decreases maxRetries - attempt, 1
  {
    if attempt > maxRetries then (s, Success(""))
    else
      var (s, r) := ExecWithoutRetrySpec(net, s, command);
      AfterAttempt(net, s, r, command, attempt, maxRetries)
  }

  // What follows an attempt that ended with r.
  function AfterAttempt(net: Network, s: Session, r: Result<string, string>, command: string, attempt: int, maxRetries: int)
    : (Session, Result<string, ExecError>)
    requires attempt <= maxRetries
    decreases maxRetries - attempt, 0
  {
    if r.Success? then (s, Success(r.value))
    else if Retriable(r.error) && attempt < maxRetries then
      Attempts(net, s.Did(Slept), command, attempt + 1, maxRetries)
    else (s, Failure(CommandFailed(r.error)))
  }

  function ExecSpec(net: Network, s: Session, command: string, maxRetries: int): (Session, Result<string, ExecError>) {
    var (s, error) := if s.closed then ConnectSpec(net, s) else (s, None);
    if error.Some? then (s, Failure(ConnectFailed(error.value)))
    else Attempts(net, s, command, 1, maxRetries)
  }

  function CloseSpec(s: Session): Session { s.Dropped() }

  // A failed transfer, unlike a failed command, keeps the client.
  function TransferFileSpec(net: Network, s: Session): (Session, Option<string>) {
    var (s, error) := ConnectSpec(net, s);
    if error.Some? then (s, Some("failed to establish SSH connection: " + error.value))
    else
      var error := net.transfer(|s.log|);
      (s.Did(Transferred(error)), error)
  }

  function SendFileSpec(net: Network, s: Session): (Session, Option<string>) {
    var (s, error) := TransferFileSpec(net, s);
    if error.Some? && IsTransportError(error.value) then
      var (s, reconnect) := ConnectSpec(net, s);
      if reconnect.None? then TransferFileSpec(net, s) else (s, error)
    else (s, error)
  }

  // The session object, which updates its fields on every outcome.
  class SSHSession {
    const net: Network
    var client: bool
    var closed: bool
    var log: seq<Action>

    function State(): Session
      reads this
    {
      Session(client, closed, log)
    }

    constructor (net: Network)
      ensures this.net == net && State() == Session(false, false, [])
    {
      this.net := net;
      client, closed, log := false, false, [];
    }

    method Connect() returns (error: Option<string>)
      modifies this
      ensures (State(), error) == ConnectSpec(net, old(State()))
    {
      error := None;
      if !client {
        error := net.dial(|log|);
        log := log + [Dialled(error)];
        if error.Some? {
          closed := true;
          return;
        }
        client := true;
      }
      error := net.open(|log|);
      log := log + [Opened(error)];
      if error.Some? {
        closed := true;
        client := false;
        return;
      }
      if closed { closed := false; }
    }

    method ExecuteCommand(command: string) returns (r: Result<string, string>)
      modifies this
      ensures (State(), r) == ExecuteCommandSpec(net, old(State()), command)
    {
      var error := Connect();
      if error.Some? { return Failure(error.value); }
      r := net.run(|log|, command);
      log := log + [Ran(command, r)];
      if r.Failure? {
        closed := true;
        client := false;
      }
    }

    method TransferFile() returns (error: Option<string>)
      modifies this
      ensures (State(), error) == TransferFileSpec(net, old(State()))
    {
      error := Connect();
      if error.Some? { return Some("failed to establish SSH connection: " + error.value); }
      error := net.transfer(|log|);
      log := log + [Transferred(error)];
    }

    method Close()
      modifies this
      ensures State() == CloseSpec(old(State()))
      ensures !client && closed && log == old(log)
    {
      if client { client := false; }
      closed := true;
    }
  }

  class RemoteExecutor {
    const session: SSHSession
    const maxRetries: int

    constructor (session: SSHSession)
      ensures this.session == session && maxRetries == 3
    {
      this.session := session;
      maxRetries := 3;
    }

    method ExecWithoutRetry(command: string) returns (r: Result<string, string>)
      modifies session
      ensures (session.State(), r) == ExecWithoutRetrySpec(session.net, old(session.State()), command)
    {
      r := session.ExecuteCommand(command);
      if r.Failure? && IsTransportError(r.error) {
        var error := session.Connect();
        if error.None? { r := session.ExecuteCommand(command); }
      }
    }

    method Exec(command: string) returns (r: Result<string, ExecError>)
      modifies session
      ensures (session.State(), r) == ExecSpec(session.net, old(session.State()), command, maxRetries)
    {
      if session.closed {
        var error := session.Connect();
        if error.Some? { return Failure(ConnectFailed(error.value)); }
      }
      ghost var start := session.State();
      var attempt := 1;
      while attempt <= maxRetries
        invariant Attempts(session.net, session.State(), command, attempt, maxRetries) ==
                  Attempts(session.net, start, command, 1, maxRetries)
        decreases maxRetries - attempt
      {
        var output := ExecWithoutRetry(command);
        if output.Success? { return Success(output.value); }
        if Retriable(output.error) && attempt < maxRetries {
          session.log := session.log + [Slept];
          attempt := attempt + 1;
          continue;
        }
        return Failure(CommandFailed(output.error));
      }
      return Success("");
    }

    method SendFile() returns (error: Option<string>)
      modifies session
      ensures (session.State(), error) == SendFileSpec(session.net, old(session.State()))
    {
      error := session.TransferFile();
      if error.Some? && IsTransportError(error.value) {
        var reconnect := session.Connect();
        if reconnect.None? { error := session.TransferFile(); }
      }
    }
  }

  // What holds of the log.

  function Runs(log: seq<Action>): nat {
    if log == [] then 0 else Runs(log[..|log| - 1]) + if log[|log| - 1].Ran? then 1 else 0
  }

  function Sleeps(log: seq<Action>): nat {
    if log == [] then 0 else Sleeps(log[..|log| - 1]) + if log[|log| - 1].Slept? then 1 else 0
  }

  predicate RetriableRun(a: Action) { a.Ran? && a.result.Failure? && Retriable(a.result.error) }

  // Since position `from`, every run failed with an error that allows another.
  predicate MayRunAgain(log: seq<Action>, from: nat) {
    forall i | from <= i < |log| && log[i].Ran? :: RetriableRun(log[i])
  }

  // Since position `from`, a run was followed by another only after such an error.
  predicate RunsAreRetries(log: seq<Action>, from: nat) {
    forall i, j | from <= i < j < |log| && log[i].Ran? && log[j].Ran? :: RetriableRun(log[i])
  }

  lemma Appended(log: seq<Action>, a: Action, from: nat)
    ensures Runs(log + [a]) == Runs(log) + if a.Ran? then 1 else 0
    ensures Sleeps(log + [a]) == Sleeps(log) + if a.Slept? then 1 else 0
    ensures MayRunAgain(log, from) ==> RunsAreRetries(log + [a], from)
    ensures MayRunAgain(log, from) && (a.Ran? ==> RetriableRun(a)) ==> MayRunAgain(log + [a], from)
  {
    assert (log + [a])[..|log|] == log;
  }

  predicate EndsWithRun(log: seq<Action>, command: string, output: string) {
    log != [] && log[|log| - 1] == Ran(command, Success(output))
  }

  // Dialling and opening run nothing.
  lemma IdleAction(log: seq<Action>, a: Action, from: nat)
    requires a.Dialled? || a.Opened?
    ensures Runs(log + [a]) == Runs(log) && Sleeps(log + [a]) == Sleeps(log)
    ensures MayRunAgain(log, from) ==> MayRunAgain(log + [a], from)
  {
    Appended(log, a, from);
  }

  // Connecting leaves the session live or closed without a client, and runs nothing.
  lemma ConnectContract(net: Network, s: Session, from: nat)
    ensures var (s', error) := ConnectSpec(net, s);
            && s.log <= s'.log && Runs(s'.log) == Runs(s.log) && Sleeps(s'.log) == Sleeps(s.log)
            && (if error.None? then s'.Live() else s'.closed && !s'.client)
            && (MayRunAgain(s.log, from) ==> MayRunAgain(s'.log, from))
  {
    if !s.client {
      IdleAction(s.log, Dialled(net.dial(|s.log|)), from);
    }
    var t := if s.client then s else s.Did(Dialled(None)).(client := true);
    IdleAction(t.log, Opened(net.open(|t.log|)), from);
  }

  lemma ExecuteContract(net: Network, s: Session, command: string, from: nat)
    requires MayRunAgain(s.log, from) && from <= |s.log|
    ensures var (s', r) := ExecuteCommandSpec(net, s, command);
            && s.log <= s'.log && Runs(s'.log) <= Runs(s.log) + 1 && Sleeps(s'.log) == Sleeps(s.log)
            && RunsAreRetries(s'.log, from)
            && match r
               case Success(output) => s'.Live() && EndsWithRun(s'.log, command, output)
               case Failure(e) => s'.closed && !s'.client && (Retriable(e) ==> MayRunAgain(s'.log, from))
  {
    ConnectContract(net, s, from);
    var (t, error) := ConnectSpec(net, s);
    if error.None? { Appended(t.log, Ran(command, net.run(|t.log|, command)), from); }
  }

  // How one attempt goes from s to t with result r: at most two runs, no sleep, and another run
  // is allowed only by a retriable error.
  predicate OneAttempt(s: Session, t: Session, r: Result<string, string>, command: string, from: nat) {
    && s.log <= t.log && Runs(t.log) <= Runs(s.log) + 2 && Sleeps(t.log) == Sleeps(s.log)
    && RunsAreRetries(t.log, from)
    && match r
       case Success(output) => t.Live() && EndsWithRun(t.log, command, output)
       case Failure(e) => t.closed && !t.client && (Retriable(e) ==> MayRunAgain(t.log, from))
  }

  lemma ExecWithoutRetryContract(net: Network, s: Session, command: string, from: nat)
    requires MayRunAgain(s.log, from) && from <= |s.log|
    ensures var (t, r) := ExecWithoutRetrySpec(net, s, command); OneAttempt(s, t, r, command, from)
  {
    ExecuteContract(net, s, command, from);
    var (t, r) := ExecuteCommandSpec(net, s, command);
    if r.Failure? && IsTransportError(r.error) {
      ConnectContract(net, t, from);
      var (u, error) := ConnectSpec(net, t);
      if error.None? { ExecuteContract(net, u, command, from); }
    }
  }

  // How `left` attempts go from s to t with result r.
  predicate ManyAttempts(s: Session, t: Session, r: Result<string, ExecError>, command: string, left: int, from: nat) {
    && s.log <= t.log
    && Runs(t.log) <= Runs(s.log) + 2 * left
    && Sleeps(t.log) < Sleeps(s.log) + left
    && RunsAreRetries(t.log, from)
    && (r.Success? ==> t.Live() && EndsWithRun(t.log, command, r.value))
    && (r.Failure? ==> t.closed && !t.client && r.error.CommandFailed?)
    && (r.Failure? && Retriable(r.error.cause) ==> Sleeps(t.log) == Sleeps(s.log) + left - 1)
  }

  lemma {:induction false} AttemptsContract(
    net: Network, s: Session, command: string, attempt: int, maxRetries: int, from: nat,
    t: Session, r: Result<string, ExecError>)
    requires attempt <= maxRetries && MayRunAgain(s.log, from) && from <= |s.log|
    requires Attempts(net, s, command, attempt, maxRetries) == (t, r)
    ensures ManyAttempts(s, t, r, command, maxRetries - attempt + 1, from)
    decreases maxRetries - attempt, 1
  {
    ExecWithoutRetryContract(net, s, command, from);
    var (u, q) := ExecWithoutRetrySpec(net, s, command);
    AfterAttemptContract(net, s, u, q, command, attempt, maxRetries, from, t, r);
  }

  lemma {:induction false} AfterAttemptContract(
    net: Network, s: Session, u: Session, q: Result<string, string>,
    command: string, attempt: int, maxRetries: int, from: nat,
    t: Session, r: Result<string, ExecError>)
    requires attempt <= maxRetries && from <= |s.log| && OneAttempt(s, u, q, command, from)
    requires AfterAttempt(net, u, q, command, attempt, maxRetries) == (t, r)
    ensures ManyAttempts(s, t, r, command, maxRetries - attempt + 1, from)
    decreases maxRetries - attempt, 0
  {
    if q.Failure? && Retriable(q.error) && attempt < maxRetries {
      Appended(u.log, Slept, from);
      AttemptsContract(net, u.Did(Slept), command, attempt + 1, maxRetries, from, t, r);
      OneThenMany(s, u, t, r, command, maxRetries - attempt, from);
    }
  }

  // A failed attempt, a sleep, and `left` attempts more.
  lemma OneThenMany(s: Session, t: Session, u: Session, q: Result<string, ExecError>,
                    command: string, left: int, from: nat)
    requires s.log <= t.log && Runs(t.log) <= Runs(s.log) + 2 && Sleeps(t.log) == Sleeps(s.log)
    requires ManyAttempts(t.Did(Slept), u, q, command, left, from)
    ensures ManyAttempts(s, u, q, command, left + 1, from)
  {
    Appended(t.log, Slept, from);
    assert t.log <= t.Did(Slept).log <= u.log;
  }

  // Why the executor sleeps.

  function ErrorOf(a: Action): Option<string> {
    match a
    case Dialled(error) => error
    case Opened(error) => error
    case Transferred(error) => error
    case Ran(_, r) => if r.Failure? then Some(r.error) else None
    case Slept => None
  }

  // The session grew from s to t without a sleep.
  predicate Grows(s: Session, t: Session) {
    s.log <= t.log && forall k | |s.log| <= k < |t.log| :: !t.log[k].Slept?
  }

  predicate Erred(s: Session, t: Session, i: int, e: string) {
    |s.log| <= i < |t.log| && ErrorOf(t.log[i]) == Some(e)
  }

  // A lock or transport error at i, and no sleep from there to j.
  predicate Excuses(log: seq<Action>, i: nat, j: nat) {
    && i < j <= |log| && ErrorOf(log[i]).Some? && Retriable(ErrorOf(log[i]).value)
    && forall k | i <= k < j :: !log[k].Slept?
  }

  // Since position `from`, each sleep has its own lock or transport error: one that came after
  // the sleep before it.
  predicate SleepsAreRetries(log: seq<Action>, from: nat) {
    forall j | from <= j < |log| && log[j].Slept? :: exists i | from <= i < j :: Excuses(log, i, j)
  }

  lemma ConnectErrs(net: Network, s: Session)
    ensures var (t, error) := ConnectSpec(net, s);
            Grows(s, t) && (error.Some? ==> Erred(s, t, |t.log| - 1, error.value))
  {
  }

  lemma ExecuteErrs(net: Network, s: Session, command: string)
    ensures var (t, r) := ExecuteCommandSpec(net, s, command);
            Grows(s, t) && (r.Failure? ==> Erred(s, t, |t.log| - 1, r.error))
  {
    ConnectErrs(net, s);
  }

  lemma AttemptErrs(net: Network, s: Session, command: string) returns (i: int)
    ensures var (t, r) := ExecWithoutRetrySpec(net, s, command);
            Grows(s, t) && (r.Failure? ==> Erred(s, t, i, r.error))
  {
    ExecuteErrs(net, s, command);
    var (t, r) := ExecuteCommandSpec(net, s, command);
    i := |t.log| - 1;
    if r.Failure? && IsTransportError(r.error) {
      ConnectErrs(net, t);
      var (u, error) := ConnectSpec(net, t);
      if error.None? {
        ExecuteErrs(net, u, command);
        i := |ExecuteCommandSpec(net, u, command).0.log| - 1;
      }
    }
  }

  lemma {:induction false} AttemptsSleep(
    net: Network, s: Session, command: string, attempt: int, maxRetries: int,
    t: Session, r: Result<string, ExecError>)
    requires attempt <= maxRetries && Attempts(net, s, command, attempt, maxRetries) == (t, r)
    ensures s.log <= t.log && SleepsAreRetries(t.log, |s.log|)
    decreases maxRetries - attempt
  {
    var i := AttemptErrs(net, s, command);
    var (u, q) := ExecWithoutRetrySpec(net, s, command);
    assert AfterAttempt(net, u, q, command, attempt, maxRetries) == (t, r);
    if q.Failure? && Retriable(q.error) && attempt < maxRetries {
      AttemptsSleep(net, u.Did(Slept), command, attempt + 1, maxRetries, t, r);
      SleepExcused(s, u, t, i, q.error);
    }
  }

  lemma SleepExcused(s: Session, u: Session, t: Session, i: int, e: string)
    requires Grows(s, u) && Erred(s, u, i, e) && Retriable(e)
    requires u.Did(Slept).log <= t.log && SleepsAreRetries(t.log, |u.log| + 1)
    ensures s.log <= t.log && SleepsAreRetries(t.log, |s.log|)
  {
    assert forall k | 0 <= k < |u.log| :: t.log[k] == u.log[k];
    assert Excuses(t.log, i, |u.log|);
  }

  // The attempts of a call, by the sessions they started from.

  // This attempt ended in a lock or transport error; the next one starts after a sleep.
  predicate AttemptedAgain(net: Network, command: string, starts: seq<Session>, k: nat)
    requires k + 1 < |starts|
  {
    var (t, r) := ExecWithoutRetrySpec(net, starts[k], command);
    r.Failure? && Retriable(r.error) && starts[k + 1] == t.Did(Slept)
  }

  // At most so many attempts: all but the last ended in a lock or transport error, and the last
  // one's answer is the answer. It is such an error only when no attempt was left.
  predicate AttemptsMade(net: Network, command: string, starts: seq<Session>, most: int, t: Session,
                         r: Result<string, ExecError>)
  {
    && 0 < |starts| <= most
    && (forall k | 0 <= k < |starts| - 1 :: AttemptedAgain(net, command, starts, k))
    && match ExecWithoutRetrySpec(net, starts[|starts| - 1], command)
       case (u, Success(output)) => t == u && r == Success(output)
       case (u, Failure(e)) => t == u && r == Failure(CommandFailed(e)) && (Retriable(e) ==> |starts| == most)
  }

  lemma {:induction false} AttemptsStart(
    net: Network, s: Session, command: string, attempt: int, maxRetries: int,
    t: Session, r: Result<string, ExecError>) returns (starts: seq<Session>)
    requires attempt <= maxRetries && Attempts(net, s, command, attempt, maxRetries) == (t, r)
    ensures AttemptsMade(net, command, starts, maxRetries - attempt + 1, t, r) && starts[0] == s
    decreases maxRetries - attempt
  {
    var (u, q) := ExecWithoutRetrySpec(net, s, command);
    assert AfterAttempt(net, u, q, command, attempt, maxRetries) == (t, r);
    if q.Failure? && Retriable(q.error) && attempt < maxRetries {
      var later := AttemptsStart(net, u.Did(Slept), command, attempt + 1, maxRetries, t, r);
      starts := [s] + later;
      OneAttemptMore(net, command, s, later, maxRetries - attempt, t, r);
    } else {
      starts := [s];
    }
  }

  lemma OneAttemptMore(net: Network, command: string, s: Session, later: seq<Session>, most: int,
                       t: Session, r: Result<string, ExecError>)
    requires AttemptsMade(net, command, later, most, t, r) && AttemptedAgain(net, command, [s] + later, 0)
    ensures AttemptsMade(net, command, [s] + later, most + 1, t, r)
  {
    var starts := [s] + later;
    forall k | 0 <= k < |starts| - 1 ensures AttemptedAgain(net, command, starts, k) {
      if k > 0 { assert AttemptedAgain(net, command, later, k - 1); }
    }
  }

  // Main result, the attempts: a call that can connect makes between one and maxRetries of them,
  // and each but the last ended in a lock or transport error.
  lemma ExecAttempts(net: Network, s: Session, command: string, maxRetries: int)
    requires maxRetries >= 1
    ensures var (t, error) := if s.closed then ConnectSpec(net, s) else (s, None);
            var (u, r) := ExecSpec(net, s, command, maxRetries);
            if error.Some? then u == t && r == Failure(ConnectFailed(error.value))
            else exists starts :: AttemptsMade(net, command, starts, maxRetries, u, r) && starts[0] == t
  {
    var (t, error) := if s.closed then ConnectSpec(net, s) else (s, None);
    if error.None? {
      var (u, r) := Attempts(net, t, command, 1, maxRetries);
      var starts := AttemptsStart(net, t, command, 1, maxRetries, u, r);
    }
  }

  // Main result, the retry contract: bounded runs and sleeps; no run repeated except after a
  // lock or transport error; success means the last thing done was a run that succeeded with
  // that output; Exec succeeds exactly when it leaves the session live; since the sleep before
  // it, each sleep has a lock or transport error of its own, met while connecting or while
  // running; and Exec gives up on such an error only after its last attempt.
  lemma ExecContract(net: Network, s: Session, command: string, maxRetries: int)
    requires maxRetries >= 1
    ensures var (s', r) := ExecSpec(net, s, command, maxRetries);
            && s.log <= s'.log
            && Runs(s'.log) <= Runs(s.log) + 2 * maxRetries
            && Sleeps(s'.log) <= Sleeps(s.log) + maxRetries - 1
            && RunsAreRetries(s'.log, |s.log|) && SleepsAreRetries(s'.log, |s.log|)
            && (r.Success? ==> EndsWithRun(s'.log, command, r.value))
            && (r.Success? <==> s'.Live())
            && (r.Failure? ==> s'.closed && !s'.client)
            && (r.Failure? && r.error.CommandFailed? && Retriable(r.error.cause) ==>
                  Sleeps(s'.log) == Sleeps(s.log) + maxRetries - 1)
  {
    ConnectContract(net, s, |s.log|);
    ConnectErrs(net, s);
    var (t, error) := if s.closed then ConnectSpec(net, s) else (s, None);
    if error.None? {
      var (u, r) := Attempts(net, t, command, 1, maxRetries);
      AttemptsContract(net, t, command, 1, maxRetries, |s.log|, u, r);
      AttemptsSleep(net, t, command, 1, maxRetries, u, r);
      SleepsFromStart(s, t, u);
      assert r.Success? || r.Failure?;
    }
  }

  lemma SleepsFromStart(s: Session, t: Session, u: Session)
    requires Grows(s, t) && t.log <= u.log && SleepsAreRetries(u.log, |t.log|)
    ensures SleepsAreRetries(u.log, |s.log|)
  {
    assert forall k | 0 <= k < |t.log| :: u.log[k] == t.log[k];
  }

  // On this network every connection works and every run of the command fails with e.
  ghost predicate AlwaysFails(net: Network, command: string, e: string) {
    forall k: nat :: net.dial(k) == None && net.open(k) == None && net.run(k, command) == Failure(e)
  }

  lemma FailingExecute(net: Network, s: Session, command: string, e: string)
    requires AlwaysFails(net, command, e)
    ensures ConnectSpec(net, s).1.None?
    ensures var (t, r) := ExecuteCommandSpec(net, s, command);
            r == Failure(e) && Runs(t.log) == Runs(s.log) + 1 && Sleeps(t.log) == Sleeps(s.log)
  {
    ConnectContract(net, s, 0);
    var (t, _) := ConnectSpec(net, s);
    Appended(t.log, Ran(command, Failure(e)), 0);
  }

  lemma FailingAttempt(net: Network, s: Session, command: string, e: string)
    requires AlwaysFails(net, command, e) && IsTransportError(e)
    ensures var (t, r) := ExecWithoutRetrySpec(net, s, command);
            r == Failure(e) && Runs(t.log) == Runs(s.log) + 2 && Sleeps(t.log) == Sleeps(s.log)
  {
    FailingExecute(net, s, command, e);
    var t := ExecuteCommandSpec(net, s, command).0;
    ConnectContract(net, t, 0);
    FailingExecute(net, t, command, e);
    FailingExecute(net, ConnectSpec(net, t).0, command, e);
  }

  lemma {:induction false} FailingAttempts(net: Network, s: Session, command: string, e: string,
                                           attempt: int, maxRetries: int, t: Session, r: Result<string, ExecError>)
    requires AlwaysFails(net, command, e) && IsTransportError(e) && attempt <= maxRetries
    requires Attempts(net, s, command, attempt, maxRetries) == (t, r)
    ensures r == Failure(CommandFailed(e))
    ensures Runs(t.log) == Runs(s.log) + 2 * (maxRetries - attempt + 1)
    ensures Sleeps(t.log) == Sleeps(s.log) + maxRetries - attempt
    decreases maxRetries - attempt, 1
  {
    FailingAttempt(net, s, command, e);
    var u := ExecWithoutRetrySpec(net, s, command).0;
    FailingRest(net, u, command, e, attempt, maxRetries, t, r);
  }

  lemma {:induction false} FailingRest(net: Network, s: Session, command: string, e: string,
                                       attempt: int, maxRetries: int, t: Session, r: Result<string, ExecError>)
    requires AlwaysFails(net, command, e) && IsTransportError(e) && attempt <= maxRetries
    requires AfterAttempt(net, s, Failure(e), command, attempt, maxRetries) == (t, r)
    ensures r == Failure(CommandFailed(e))
    ensures Runs(t.log) == Runs(s.log) + 2 * (maxRetries - attempt)
    ensures Sleeps(t.log) == Sleeps(s.log) + maxRetries - attempt
    decreases maxRetries - attempt, 0
  {
    if attempt < maxRetries {
      Appended(s.log, Slept, 0);
      FailingAttempts(net, s.Did(Slept), command, e, attempt + 1, maxRetries, t, r);
    }
  }

  // The bounds of the retry contract are met: two runs in each attempt, when every run fails with
  // a transport error and every reconnection works.
  lemma RetryBoundIsMet(net: Network, s: Session, command: string, e: string, maxRetries: int)
    requires AlwaysFails(net, command, e) && IsTransportError(e) && maxRetries >= 1
    ensures var (t, r) := ExecSpec(net, s, command, maxRetries);
            && r == Failure(CommandFailed(e))
            && Runs(t.log) == Runs(s.log) + 2 * maxRetries && Sleeps(t.log) == Sleeps(s.log) + maxRetries - 1
  {
    ConnectContract(net, s, 0);
    FailingExecute(net, s, command, e);
    var u := if s.closed then ConnectSpec(net, s).0 else s;
    var (t, r) := Attempts(net, u, command, 1, maxRetries);
    FailingAttempts(net, u, command, e, 1, maxRetries, t, r);
  }

  // Without a retry count of at least one, Exec reports an empty success and runs nothing, unless
  // the session was closed and cannot be opened.
  lemma NoAttemptNoRun(net: Network, s: Session, command: string, maxRetries: int)
    requires maxRetries < 1
    ensures var (s', r) := ExecSpec(net, s, command, maxRetries);
            && Runs(s'.log) == Runs(s.log)
            && (r == Success("") <==> !(s.closed && ConnectSpec(net, s).1.Some?))
            && (r.Success? ==> r.value == "")
  {
    ConnectContract(net, s, 0);
  }

  // A transfer from s that ends in t runs nothing; success leaves the session live.
  predicate OneTransfer(s: Session, t: Session, error: Option<string>) {
    && s.log <= t.log && Runs(t.log) == Runs(s.log)
    && (t.Live() || (t.closed && !t.client && error.Some?))
    && (error.None? ==> t.log != [] && t.log[|t.log| - 1] == Transferred(None))
  }

  lemma TransferContract(net: Network, s: Session)
    ensures var (t, error) := TransferFileSpec(net, s); OneTransfer(s, t, error)
  {
    ConnectContract(net, s, 0);
    var (t, error) := ConnectSpec(net, s);
    Appended(t.log, Transferred(net.transfer(|t.log|)), 0);
  }

  // A reconnection after a failed transfer, and a second transfer if it works.
  lemma TransferAgain(net: Network, s: Session, t: Session, error: Option<string>, u: Session, result: Option<string>)
    requires OneTransfer(s, t, error) && error.Some?
    requires (u, result) == var (v, reconnect) := ConnectSpec(net, t);
                            if reconnect.None? then TransferFileSpec(net, v) else (v, error)
    ensures OneTransfer(s, u, result)
  {
    ConnectContract(net, t, 0);
    TransferContract(net, ConnectSpec(net, t).0);
  }

  // SendFile runs no command, and success leaves the session live; failure may, too.
  lemma SendFileContract(net: Network, s: Session)
    ensures var (t, error) := SendFileSpec(net, s); OneTransfer(s, t, error)
  {
    TransferContract(net, s);
    var (t, error) := TransferFileSpec(net, s);
    if error.Some? && IsTransportError(error.value) {
      var (u, result) := SendFileSpec(net, s);
      TransferAgain(net, s, t, error, u, result);
    }
  }

  // Operations from outside, in any order.
  datatype Operation = DoConnect | DoExecute(command: string) | DoExec(command: string) | DoSendFile | DoClose

  function Perform(net: Network, s: Session, op: Operation, maxRetries: int): Session {
    match op
    case DoConnect => ConnectSpec(net, s).0
    case DoExecute(command) => ExecuteCommandSpec(net, s, command).0
    case DoExec(command) => ExecSpec(net, s, command, maxRetries).0
    case DoSendFile => SendFileSpec(net, s).0
    case DoClose => CloseSpec(s)
  }

  function PerformAll(net: Network, ops: seq<Operation>, maxRetries: int): Session {
    if ops == [] then Session(false, false, [])
    else Perform(net, PerformAll(net, ops[..|ops| - 1], maxRetries), ops[|ops| - 1], maxRetries)
  }

  // Main result, session invariant: after any operations a closed session holds no client.
  lemma {:induction false} ClosedHasNoClient(net: Network, ops: seq<Operation>, maxRetries: int)
    ensures var s := PerformAll(net, ops, maxRetries); s.closed ==> !s.client
  {
    if ops != [] {
      var s := PerformAll(net, ops[..|ops| - 1], maxRetries);
      ClosedHasNoClient(net, ops[..|ops| - 1], maxRetries);
      match ops[|ops| - 1]
      case DoConnect => ConnectContract(net, s, |s.log|);
      case DoExecute(command) => ExecuteContract(net, s, command, |s.log|);
      case DoExec(command) =>
        if maxRetries >= 1 { ExecContract(net, s, command, maxRetries); } else { ConnectContract(net, s, |s.log|); }
      case DoSendFile =>
        SendFileContract(net, s);
      case DoClose =>
    }
  }
}
