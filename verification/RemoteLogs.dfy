/**
 What a log of the remote executor looks like, call by call, written down without the session and
 its operations: which connections, executions, sleeps and transfers follow each other, and which
 answer comes of them. Every call of the executor leaves such a log, of what the network answered.
 */
module RemoteLogs {
  import opened Wrappers
  import opened Remote

  // A connection: a dial if there is no client, then a session on it.
  predicate ConnectLog(l: seq<Action>, client: bool, error: Option<string>) {
    if client then l == [Opened(error)]
    else l == [Dialled(None), Opened(error)] || (error.Some? && l == [Dialled(error)])
  }

  // An execution: a connection, and the command on it if there is one.
  ghost predicate ExecutionLog(l: seq<Action>, client: bool, command: string, r: Result<string, string>) {
    || (r.Failure? && ConnectLog(l, client, Some(r.error)))
    || (exists c :: ConnectLog(c, client, None) && l == c + [Ran(command, r)])
  }

  predicate EndsInTransportError(r: Result<string, string>) { r.Failure? && IsTransportError(r.error) }

  // After an execution that met a transport error, and lost the client, a reconnection that failed.
  ghost predicate CutOff(execution: seq<Action>, reconnection: seq<Action>, client: bool, command: string,
                         r: Result<string, string>)
  {
    && ExecutionLog(execution, client, command, r) && EndsInTransportError(r)
    && exists error: string :: ConnectLog(reconnection, false, Some(error))
  }

  // After an execution that met a transport error, a reconnection, and another execution.
  ghost predicate Repeated(first: seq<Action>, reconnection: seq<Action>, second: seq<Action>, client: bool,
                           command: string, r: Result<string, string>)
  {
    && (exists q :: ExecutionLog(first, client, command, q) && EndsInTransportError(q))
    && ConnectLog(reconnection, false, None) && ExecutionLog(second, true, command, r)
  }

  // An attempt: an execution; after a transport error a reconnection; and when that worked a second
  // execution, whose answer counts. A reconnection that failed leaves the first answer.
  ghost predicate AttemptLog(l: seq<Action>, client: bool, command: string, r: Result<string, string>) {
    || (ExecutionLog(l, client, command, r) && !EndsInTransportError(r))
    || (exists a, b :: CutOff(a, b, client, command, r) && l == a + b)
    || (exists a, b, c :: Repeated(a, b, c, client, command, r) && l == a + (b + c))
  }

  // What the last attempt answered, without the wrapping of its error.
  function Bare(r: Result<string, ExecError>): Result<string, string> {
    match r
    case Success(output) => Success(output)
    case Failure(e) => Failure(e.cause)
  }

  // The last attempt, with so many left when it started: no further one could be made, or need be.
  ghost predicate LastAttempt(l: seq<Action>, client: bool, command: string, left: nat, r: Result<string, ExecError>) {
    && AttemptLog(l, client, command, Bare(r))
    && (r.Failure? ==> r.error.CommandFailed? && (left == 1 || !Retriable(r.error.cause)))
  }

  // An attempt that ended in a lock or transport error.
  ghost predicate FailedAttempt(l: seq<Action>, client: bool, command: string) {
    exists e :: Retriable(e) && AttemptLog(l, client, command, Failure(e))
  }

  // A call, after its first connection: at most so many attempts, with a sleep after each one that
  // ended in a lock or transport error unless it was the last. A failed attempt leaves no client.
  ghost predicate CallLog(l: seq<Action>, client: bool, command: string, most: nat, r: Result<string, ExecError>)
    decreases most
  {
    if most == 0 then l == [] && r == Success("")
    else
      || LastAttempt(l, client, command, most, r)
      || (most > 1 && exists a, b ::
            FailedAttempt(a, client, command) && CallLog(b, false, command, most - 1, r) && l == a + ([Slept] + b))
  }

  // With the connection in front that a closed session needs.
  ghost predicate ExecLog(l: seq<Action>, s: Session, command: string, most: nat, r: Result<string, ExecError>) {
    if !s.closed then CallLog(l, s.client, command, most, r)
    else
      || (r.Failure? && r.error.ConnectFailed? && ConnectLog(l, s.client, Some(r.error.cause)))
      || (exists a, b :: ConnectLog(a, s.client, None) && CallLog(b, true, command, most, r) && l == a + b)
  }

  // The action at position i is what the network answered then.
  predicate Heard(net: Network, i: nat, a: Action) {
    match a
    case Dialled(error) => error == net.dial(i)
    case Opened(error) => error == net.open(i)
    case Ran(command, r) => r == net.run(i, command)
    case Transferred(error) => error == net.transfer(i)
    case Slept => true
  }

  predicate Truthful(net: Network, log: seq<Action>, from: nat) {
    forall i | from <= i < |log| :: Heard(net, i, log[i])
  }

  // What s did further, as it stands in the log of t.
  predicate Grew(net: Network, s: Session, l: seq<Action>, t: Session) {
    t.log == s.log + l && Truthful(net, t.log, |s.log|)
  }

  lemma Then(net: Network, s: Session, a: seq<Action>, t: Session, b: seq<Action>, u: Session)
    requires Grew(net, s, a, t) && Grew(net, t, b, u)
    ensures Grew(net, s, a + b, u)
  {
    assert s.log + a + b == s.log + (a + b);
    assert forall i | 0 <= i < |t.log| :: u.log[i] == t.log[i];
  }

  lemma Grouped(a: seq<Action>, b: seq<Action>, c: seq<Action>)
    ensures a + b + c == a + (b + c)
  {
  }

  lemma ConnectLogs(net: Network, s: Session) returns (l: seq<Action>)
    ensures var (t, error) := ConnectSpec(net, s);
            Grew(net, s, l, t) && ConnectLog(l, s.client, error) && (t.client <==> error.None?)
  {
    l := ConnectSpec(net, s).0.log[|s.log|..];
  }

  lemma ExecutionLogs(net: Network, s: Session, command: string) returns (l: seq<Action>)
    ensures var (t, r) := ExecuteCommandSpec(net, s, command);
            Grew(net, s, l, t) && ExecutionLog(l, s.client, command, r) && (t.client <==> r.Success?)
  {
    l := ConnectLogs(net, s);
    var (c, error) := ConnectSpec(net, s);
    if error.None? {
      var (t, r) := ExecuteCommandSpec(net, s, command);
      Then(net, s, l, c, [Ran(command, r)], t);
      l := l + [Ran(command, r)];
    }
  }

  lemma AttemptLogs(net: Network, s: Session, command: string) returns (l: seq<Action>)
    ensures var (t, r) := ExecWithoutRetrySpec(net, s, command);
            Grew(net, s, l, t) && AttemptLog(l, s.client, command, r) && (t.client <==> r.Success?)
  {
    l := ExecutionLogs(net, s, command);
    var (t, r) := ExecuteCommandSpec(net, s, command);
    if EndsInTransportError(r) {
      var b := ConnectLogs(net, t);
      var (u, error) := ConnectSpec(net, t);
      Then(net, s, l, t, b, u);
      if error.None? {
        var c := ExecutionLogs(net, u, command);
        var (v, q) := ExecuteCommandSpec(net, u, command);
        Then(net, s, l + b, u, c, v);
        Grouped(l, b, c);
        assert Repeated(l, b, c, s.client, command, q);
        l := l + (b + c);
      } else {
        assert CutOff(l, b, s.client, command, r);
        l := l + b;
      }
    }
  }

  lemma {:induction false} CallLogs(
    net: Network, s: Session, command: string, attempt: int, maxRetries: int, t: Session, r: Result<string, ExecError>)
    returns (l: seq<Action>)
    requires attempt <= maxRetries && Attempts(net, s, command, attempt, maxRetries) == (t, r)
    ensures Grew(net, s, l, t) && CallLog(l, s.client, command, maxRetries - attempt + 1, r)
    decreases maxRetries - attempt
  {
    l := AttemptLogs(net, s, command);
    var (u, q) := ExecWithoutRetrySpec(net, s, command);
    assert AfterAttempt(net, u, q, command, attempt, maxRetries) == (t, r);
    if q.Failure? && Retriable(q.error) && attempt < maxRetries {
      assert FailedAttempt(l, s.client, command);
      var b := CallLogs(net, u.Did(Slept), command, attempt + 1, maxRetries, t, r);
      Then(net, u, [Slept], u.Did(Slept), b, t);
      Then(net, s, l, u, [Slept] + b, t);
      l := l + ([Slept] + b);
    } else {
      assert LastAttempt(l, s.client, command, maxRetries - attempt + 1, r);
    }
  }

  // Main result, the log of a call: whatever the network answers, the log holds its answers, and is
  // that of a call which answers as this one did.
  lemma ExecLogs(net: Network, s: Session, command: string, maxRetries: nat) returns (l: seq<Action>)
    ensures var (t, r) := ExecSpec(net, s, command, maxRetries);
            Grew(net, s, l, t) && ExecLog(l, s, command, maxRetries, r)
  {
    l := [];
    if s.closed { l := ConnectLogs(net, s); }
    var (t, error) := if s.closed then ConnectSpec(net, s) else (s, None);
    if error.None? {
      var (u, r) := Attempts(net, t, command, 1, maxRetries);
      var b := [];
      if maxRetries > 0 { b := CallLogs(net, t, command, 1, maxRetries, u, r); }
      Then(net, s, l, t, b, u);
      assert [] + b == b;
      l := l + b;
    }
  }

  // In `execution` the command was executed with this answer, and nothing but a reconnection that
  // failed came after it.
  ghost predicate LastExecution(execution: seq<Action>, after: seq<Action>, command: string, r: Result<string, string>) {
    exists client :: (after == [] && ExecutionLog(execution, client, command, r)) || CutOff(execution, after, client, command, r)
  }

  lemma LastOfAttempt(l: seq<Action>, client: bool, command: string, r: Result<string, string>)
    returns (before: seq<Action>, execution: seq<Action>, after: seq<Action>)
    requires AttemptLog(l, client, command, r)
    ensures l == before + (execution + after) && LastExecution(execution, after, command, r)
  {
    if ExecutionLog(l, client, command, r) {
      before, execution, after := [], l, [];
      assert [] + (l + []) == l;
    } else if a, b :| CutOff(a, b, client, command, r) && l == a + b {
      before, execution, after := [], a, b;
      assert [] + (a + b) == a + b;
    } else {
      var a, b, c :| Repeated(a, b, c, client, command, r) && l == a + (b + c);
      before, execution, after := a + b, c, [];
      Grouped(a, b, c);
      assert c + [] == c;
      assert ExecutionLog(c, true, command, r);
    }
  }

  // So the answer is that of the last execution of the command, never that of a reconnection.
  lemma {:induction false} LastExecutionAnswers(
    l: seq<Action>, client: bool, command: string, most: nat, r: Result<string, ExecError>)
    returns (before: seq<Action>, execution: seq<Action>, after: seq<Action>)
    requires CallLog(l, client, command, most, r) && most > 0
    ensures r.Failure? ==> r.error.CommandFailed?
    ensures l == before + (execution + after) && LastExecution(execution, after, command, Bare(r))
    decreases most
  {
    if LastAttempt(l, client, command, most, r) {
      before, execution, after := LastOfAttempt(l, client, command, Bare(r));
    } else {
      var a, b :| FailedAttempt(a, client, command) && CallLog(b, false, command, most - 1, r) && l == a + ([Slept] + b);
      before, execution, after := LastExecutionAnswers(b, false, command, most - 1, r);
      Grouped(a + [Slept], before, execution + after);
      Grouped(a, [Slept], b);
      before := a + [Slept] + before;
    }
  }

  // Main result, a failed reconnection never decides: on a live session whose command fails with a
  // transport error and which cannot be reconnected, the call sleeps when an attempt is left, and
  // otherwise answers with the command's error.
  lemma FailedReconnectionIsNoAnswer(net: Network, s: Session, command: string, maxRetries: nat, e: string)
    requires s.Live() && maxRetries >= 1 && IsTransportError(e)
    requires net.open(|s.log|) == None && net.run(|s.log| + 1, command) == Failure(e)
    requires net.dial(|s.log| + 2).Some? || net.open(|s.log| + 3).Some?
    ensures var (t, r) := ExecSpec(net, s, command, maxRetries);
            var k := |s.log| + if net.dial(|s.log| + 2).Some? then 3 else 4;
            if maxRetries > 1 then |t.log| > k && t.log[k] == Slept
            else |t.log| == k && r == Failure(CommandFailed(e))
  {
    var (u, q) := ExecWithoutRetrySpec(net, s, command);
    assert q == Failure(e) && |u.log| == |s.log| + if net.dial(|s.log| + 2).Some? then 3 else 4;
    var (t, r) := Attempts(net, s, command, 1, maxRetries);
    assert AfterAttempt(net, u, q, command, 1, maxRetries) == (t, r);
    if maxRetries > 1 { var l := CallLogs(net, u.Did(Slept), command, 2, maxRetries, t, r); }
  }

  // Transfers.

  // A transfer: a connection, and the file on it if there is one.
  ghost predicate TransferLog(l: seq<Action>, client: bool, error: Option<string>) {
    || (exists c :: ConnectLog(c, client, None) && l == c + [Transferred(error)])
    || (exists e: string :: ConnectLog(l, client, Some(e)) && error == Some("failed to establish SSH connection: " + e))
  }

  predicate IsTransport(error: Option<string>) { error.Some? && IsTransportError(error.value) }

  // A failed transfer leaves the client if it had one.
  predicate KeepsClient(l: seq<Action>) { l != [] && l[|l| - 1].Transferred? }

  // A transfer; after a transport error a reconnection; and when that worked a second transfer,
  // whose answer counts. A reconnection that failed leaves the first answer.
  ghost predicate SendLog(l: seq<Action>, client: bool, error: Option<string>) {
    || (TransferLog(l, client, error) && !IsTransport(error))
    || (exists a, b, e: string ::
          TransferLog(a, client, error) && IsTransport(error) && ConnectLog(b, KeepsClient(a), Some(e)) && l == a + b)
    || (exists a, b, c, first ::
          TransferLog(a, client, first) && IsTransport(first) && ConnectLog(b, KeepsClient(a), None) &&
          TransferLog(c, true, error) && l == a + (b + c))
  }

  lemma TransferLogs(net: Network, s: Session) returns (l: seq<Action>)
    ensures var (t, error) := TransferFileSpec(net, s);
            Grew(net, s, l, t) && TransferLog(l, s.client, error) && (error.Some? ==> t.client == KeepsClient(l))
  {
    l := ConnectLogs(net, s);
    var (c, error) := ConnectSpec(net, s);
    if error.None? {
      var (t, transferred) := TransferFileSpec(net, s);
      Then(net, s, l, c, [Transferred(transferred)], t);
      l := l + [Transferred(transferred)];
    }
  }

  // Main result, the log of sending a file.
  lemma SendLogs(net: Network, s: Session) returns (l: seq<Action>)
    ensures var (t, error) := SendFileSpec(net, s); Grew(net, s, l, t) && SendLog(l, s.client, error)
  {
    l := TransferLogs(net, s);
    var (t, first) := TransferFileSpec(net, s);
    if IsTransport(first) {
      var b := ConnectLogs(net, t);
      var (u, error) := ConnectSpec(net, t);
      Then(net, s, l, t, b, u);
      if error.None? {
        var c := TransferLogs(net, u);
        Then(net, s, l + b, u, c, TransferFileSpec(net, u).0);
        Grouped(l, b, c);
        l := l + (b + c);
      } else {
        l := l + b;
      }
    }
  }
}
