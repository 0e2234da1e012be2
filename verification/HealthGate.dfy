/**
 The concurrent health gate: rounds of parallel checks, each with its own wait group and results
 channel, a goroutine that closes the channel, and a reader that stops at the first false. A
 round that is abandoned keeps running beside the later ones.

 The gate is a transition system. One event is one atomic action of one goroutine, so a sequence
 of events is one interleaving; every theorem here is about all of them, for any number of checks.
 A panic of Go's runtime (a send on or a close of a closed channel, a negative wait group) is
 counted in the state, not ruled out by the events.
 */
module HealthGate {
  import opened Wrappers

  // The goroutine of one check. The verdict is kept after it was sent.
  datatype Worker =
    | Unstarted
    | Checking
    | Returned(verdict: bool)
    | Sent(verdict: bool)
    | Finished(verdict: bool)

  datatype Closer = NotStarted | Waiting | Closing | Closed

  // The loop that starts the workers and then ranges over the results.
  datatype Reader = Spawning(next: nat) | Reading | Broke | Drained

  // consumed lists what the reader took from the channel, oldest first.
  datatype Round = Round(
    workers: seq<Worker>,
    waitGroup: int,
    buffer: seq<bool>,
    consumed: seq<bool>,
    closed: bool,
    closer: Closer,
    reader: Reader)

  datatype Main = InRound | Sleeping | Announcing | Announced | Exited

  datatype Gate = Gate(
    rounds: seq<Round>,
    main: Main,
    healthyClosed: bool,
    valuesReceived: nat,
    closesReceived: nat,
    consumerGone: bool,
    panics: nat)

  datatype Event =
    | Spawn                                                // wg.Add(1) and go, for the next check
    | StartCloser
    | CheckReturns(round: nat, worker: nat, verdict: bool)
    | SendResult(round: nat, worker: nat)
    | WorkerDone(round: nat, worker: nat)                  // the deferred wg.Done()
    | CloserWakes(round: nat)                              // wg.Wait() returns
    | CloseResults(round: nat)
    | ReadResult
    | ReadClose
    | NextRound                                            // the sleep between rounds ends
    | Announce                                             // healthy <- true meets a receiver
    | CloseHealthy
    | ReceiveClose                                         // a receive that sees healthy closed
    | ConsumerLeaves                                       // its timeout fired

  function NewRound(n: nat): Round {
    Round(seq(n, _ => Unstarted), 0, [], [], false, NotStarted, Spawning(0))
  }

  function Init(n: nat): Gate {
    Gate([NewRound(n)], InRound, false, 0, 0, false, 0)
  }

  // The round an event belongs to, if it belongs to one.
  function RoundOf(g: Gate, e: Event): int {
    match e
    case Spawn | StartCloser | ReadResult | ReadClose => |g.rounds| - 1
    case CheckReturns(r, _, _) => r
    case SendResult(r, _) => r
    case WorkerDone(r, _) => r
    case CloserWakes(r) => r
    case CloseResults(r) => r
    case NextRound | Announce | CloseHealthy | ReceiveClose | ConsumerLeaves => -1
  }

  // Whether the goroutine that e names stands before that action and is not blocked.
  predicate RoundEnabled(n: nat, r: Round, e: Event) {
    match e
    case Spawn => r.reader.Spawning? && r.reader.next < n && r.reader.next < |r.workers|
    case StartCloser => r.reader == Spawning(n)
    case CheckReturns(_, i, _) => i < |r.workers| && r.workers[i].Checking?
    case SendResult(_, i) => i < |r.workers| && r.workers[i].Returned? && (r.closed || |r.buffer| < n)
    case WorkerDone(_, i) => i < |r.workers| && r.workers[i].Sent?
    case CloserWakes(_) => r.closer.Waiting? && r.waitGroup == 0
    case CloseResults(_) => r.closer.Closing?
    case ReadResult => r.reader.Reading? && r.buffer != []
    case ReadClose => r.reader.Reading? && r.buffer == [] && r.closed
    case _ => false
  }

  predicate Enabled(n: nat, g: Gate, e: Event) {
    match e
    case NextRound => g.main.Sleeping?
    case Announce => g.main.Announcing? && !g.consumerGone
    case CloseHealthy => g.main.Announced?
    case ReceiveClose => g.healthyClosed && !g.consumerGone
    case ConsumerLeaves => !g.consumerGone
    case _ =>
      0 <= RoundOf(g, e) < |g.rounds| && RoundEnabled(n, g.rounds[RoundOf(g, e)], e)
  }

  function RoundStep(n: nat, r: Round, e: Event): Round
    requires RoundEnabled(n, r, e)
  {
    match e
    case Spawn =>
      r.(workers := r.workers[r.reader.next := Checking], waitGroup := r.waitGroup + 1,
         reader := Spawning(r.reader.next + 1))
    case StartCloser => r.(closer := Waiting, reader := Reading)
    case CheckReturns(_, i, verdict) => r.(workers := r.workers[i := Returned(verdict)])
    case SendResult(_, i) =>
      r.(workers := r.workers[i := Sent(r.workers[i].verdict)], buffer := r.buffer + [r.workers[i].verdict])
    case WorkerDone(_, i) =>
      r.(workers := r.workers[i := Finished(r.workers[i].verdict)], waitGroup := r.waitGroup - 1)
    case CloserWakes(_) => r.(closer := Closing)
    case CloseResults(_) => r.(closer := Closed, closed := true)
    case ReadResult =>
      r.(buffer := r.buffer[1..], consumed := r.consumed + [r.buffer[0]],
         reader := if r.buffer[0] then Reading else Broke)
    case ReadClose => r.(reader := Drained)
  }

  // Whether Go's runtime panics at this step.
  predicate Panics(r: Round, e: Event) {
    match e
    case SendResult(_, _) => r.closed
    case WorkerDone(_, _) => r.waitGroup <= 0
    case CloseResults(_) => r.closed
    case _ => false
  }

  function Step(n: nat, g: Gate, e: Event): Gate
    requires Enabled(n, g, e)
  {
    match e
    case NextRound => g.(rounds := g.rounds + [NewRound(n)], main := InRound)
    case Announce => g.(main := Announced, valuesReceived := g.valuesReceived + 1)
    case CloseHealthy =>
      g.(main := Exited, healthyClosed := true, panics := g.panics + if g.healthyClosed then 1 else 0)
    case ReceiveClose => g.(closesReceived := g.closesReceived + 1)
    case ConsumerLeaves => g.(consumerGone := true)
    case _ =>
      var k := RoundOf(g, e);
      var r := g.rounds[k];
      var r' := RoundStep(n, r, e);
      g.(rounds := g.rounds[k := r'],
         panics := g.panics + (if Panics(r, e) then 1 else 0),
         main := if e == ReadClose then Announcing
                 else if e == ReadResult && r'.reader.Broke? then Sleeping
                 else g.main)
  }

  // Where the interleaving es leads, if each of its events is enabled when its turn comes.
  function Execute(n: nat, es: seq<Event>): Option<Gate> {
    if es == [] then Some(Init(n))
    else
      var last := |es| - 1;
      match Execute(n, es[..last])
      case Some(g) => if Enabled(n, g, es[last]) then Some(Step(n, g, es[last])) else None
      case None => None
  }

  predicate Run(n: nat, es: seq<Event>, g: Gate) { Execute(n, es) == Some(g) }

  // Sums over the workers of a round.

  function Sum(ws: seq<Worker>, f: Worker -> nat): nat {
    if ws == [] then 0 else f(ws[0]) + Sum(ws[1..], f)
  }

  lemma {:induction false} SumUpdate(ws: seq<Worker>, i: nat, w: Worker, f: Worker -> nat)
    requires i < |ws|
    ensures Sum(ws[i := w], f) + f(ws[i]) == Sum(ws, f) + f(w)
  {
    if i == 0 {
      assert ws[i := w][1..] == ws[1..];
    } else {
      assert ws[i := w][1..] == ws[1..][i - 1 := w];
      SumUpdate(ws[1..], i - 1, w, f);
    }
  }

  // A sum of numbers at most m is at most m for each worker, and less if one of them is less.
  lemma {:induction false} SumBound(ws: seq<Worker>, f: Worker -> nat, m: nat)
    requires forall i | 0 <= i < |ws| :: f(ws[i]) <= m
    ensures Sum(ws, f) <= m * |ws|
    ensures (exists i | 0 <= i < |ws| :: f(ws[i]) < m) ==> Sum(ws, f) < m * |ws|
  {
    if ws != [] {
      var rest := ws[1..];
      assert forall i | 0 < i < |ws| :: ws[i] == rest[i - 1];
      assert m * |ws| == m * |rest| + m;
      SumBound(rest, f, m);
    }
  }

  lemma {:induction false} SumIsZero(ws: seq<Worker>, f: Worker -> nat)
    ensures Sum(ws, f) == 0 <==> forall i | 0 <= i < |ws| :: f(ws[i]) == 0
  {
    if ws != [] {
      var rest := ws[1..];
      SumIsZero(rest, f);
      assert forall i | 0 <= i < |rest| :: rest[i] == ws[i + 1];
      assert forall i | 0 < i < |ws| :: ws[i] == rest[i - 1];
    }
  }

  function Active(w: Worker): nat { if w.Checking? || w.Returned? || w.Sent? then 1 else 0 }

  function HasSent(w: Worker): nat { if w.Sent? || w.Finished? then 1 else 0 }

  // How many actions a worker still has before it.
  function Rank(w: Worker): nat {
    match w
    case Unstarted => 4
    case Checking => 3
    case Returned(_) => 2
    case Sent(_) => 1
    case Finished(_) => 0
  }

  // The invariant of a round.

  predicate AllFinished(r: Round) { forall i | 0 <= i < |r.workers| :: r.workers[i].Finished? }

  predicate SentFalse(w: Worker) { (w.Sent? || w.Finished?) && !w.verdict }

  predicate SomeSentFalse(r: Round) { exists i | 0 <= i < |r.workers| :: SentFalse(r.workers[i]) }

  predicate AllTrue(bs: seq<bool>) { forall i | 0 <= i < |bs| :: bs[i] }

  predicate Counts(n: nat, r: Round) {
    && |r.workers| == n
    && r.waitGroup == Sum(r.workers, Active)
    && |r.buffer| + |r.consumed| == Sum(r.workers, HasSent)
    && (SomeSentFalse(r) <==> !(AllTrue(r.buffer) && AllTrue(r.consumed)))
  }

  predicate Phases(n: nat, r: Round)
    requires |r.workers| == n
  {
    && (r.reader.Spawning? ==>
          r.reader.next <= n && r.closer.NotStarted? && r.consumed == [] &&
          forall i | 0 <= i < n :: r.workers[i].Unstarted? <==> r.reader.next <= i)
    && (!r.reader.Spawning? ==> !r.closer.NotStarted? && forall i | 0 <= i < n :: !r.workers[i].Unstarted?)
    && (r.closer.Closing? || r.closer.Closed? ==> AllFinished(r))
    && (r.closed <==> r.closer.Closed?)
    && (r.reader.Broke? <==> !AllTrue(r.consumed))
    && (r.consumed != [] ==> AllTrue(r.consumed[..|r.consumed| - 1]))
    && (r.reader.Drained? ==> r.closed && r.buffer == [])
  }

  predicate RoundInv(n: nat, r: Round) { Counts(n, r) && Phases(n, r) }

  // Where the main goroutine stands, given the reader of the last round.
  predicate Fits(main: Main, last: Reader) {
    match main
    case InRound => last.Spawning? || last.Reading?
    case Sleeping => last.Broke?
    case _ => last.Drained?
  }

  predicate Inv(n: nat, g: Gate) {
    && |g.rounds| > 0
    && (forall k | 0 <= k < |g.rounds| :: RoundInv(n, g.rounds[k]))
    && (forall k | 0 <= k < |g.rounds| - 1 :: g.rounds[k].reader.Broke?)
    && Fits(g.main, g.rounds[|g.rounds| - 1].reader)
    && (g.healthyClosed <==> g.main.Exited?)
    && g.valuesReceived == (if g.main.Announced? || g.main.Exited? then 1 else 0)
    && (g.closesReceived > 0 ==> g.healthyClosed)
    && g.panics == 0
  }

  lemma NewRoundInv(n: nat)
    ensures RoundInv(n, NewRound(n))
  {
    var r := NewRound(n);
    SumBound(r.workers, Active, 0);
    SumBound(r.workers, HasSent, 0);
  }

  // The worker that an event is about, if any.
  function WorkerOf(r: Round, e: Event): int {
    match e
    case Spawn => if r.reader.Spawning? then r.reader.next else -1
    case CheckReturns(_, i, _) => i
    case SendResult(_, i) => i
    case WorkerDone(_, i) => i
    case _ => -1
  }

  lemma RoundStepCounts(n: nat, r: Round, e: Event)
    requires RoundInv(n, r) && RoundEnabled(n, r, e)
    ensures Counts(n, RoundStep(n, r, e))
  {
    var r' := RoundStep(n, r, e);
    var i := WorkerOf(r, e);
    if i >= 0 {
      SumUpdate(r.workers, i, r'.workers[i], Active);
      SumUpdate(r.workers, i, r'.workers[i], HasSent);
      assert forall k | 0 <= k < n && k != i :: r'.workers[k] == r.workers[k];
      assert e.SendResult? || SentFalse(r.workers[i]) == SentFalse(r'.workers[i]);
    }
    if e.SendResult? {
      SendKeepsFalse(r.buffer, r.workers[i].verdict);
    } else if e.ReadResult? {
      assert r.buffer == [r.buffer[0]] + r'.buffer;
      SendKeepsFalse(r.consumed, r.buffer[0]);
      assert forall k | 0 <= k < |r'.buffer| :: r'.buffer[k] == r.buffer[k + 1];
      assert forall k | 0 < k < |r.buffer| :: r.buffer[k] == r'.buffer[k - 1];
    }
  }

  lemma SendKeepsFalse(bs: seq<bool>, b: bool)
    ensures AllTrue(bs + [b]) <==> AllTrue(bs) && b
  {
    assert (bs + [b])[|bs|] == b;
    assert forall k | 0 <= k < |bs| :: (bs + [b])[k] == bs[k];
  }

  lemma RoundStepPhases(n: nat, r: Round, e: Event)
    requires RoundInv(n, r) && RoundEnabled(n, r, e)
    ensures Phases(n, RoundStep(n, r, e)) && !Panics(r, e)
  {
    var r' := RoundStep(n, r, e);
    var i := WorkerOf(r, e);
    SumIsZero(r.workers, Active);
    if i >= 0 { assert forall k | 0 <= k < n && k != i :: r'.workers[k] == r.workers[k]; }
    if e.ReadResult? {
      SendKeepsFalse(r.consumed, r.buffer[0]);
      assert r'.consumed[..|r.consumed|] == r.consumed;
    }
  }

  lemma InitInv(n: nat)
    ensures Inv(n, Init(n))
  {
    NewRoundInv(n);
  }

  lemma ReplaceRound(n: nat, g: Gate, k: nat, r: Round, main: Main)
    requires Inv(n, g) && k < |g.rounds| && RoundInv(n, r)
    requires if k == |g.rounds| - 1 then Fits(main, r.reader) else r.reader.Broke? && main == g.main
    requires main == g.main || (g.main.InRound? && (main.Sleeping? || main.Announcing?))
    ensures Inv(n, g.(rounds := g.rounds[k := r], main := main))
  {
  }

  lemma ReaderStep(n: nat, r: Round, e: Event)
    requires RoundInv(n, r) && RoundEnabled(n, r, e)
    ensures var r' := RoundStep(n, r, e).reader;
            && (e == ReadClose ==> r'.Drained? && r.reader.Reading?)
            && (e == ReadResult ==> r.reader.Reading? && (r'.Reading? || r'.Broke?))
            && (e != ReadClose && e != ReadResult ==>
                  r' == r.reader || (!r.reader.Broke? && !r.reader.Drained? && (r'.Spawning? || r'.Reading?)))
  {
  }

  lemma RoundEventInv(n: nat, g: Gate, e: Event)
    requires Inv(n, g) && Enabled(n, g, e) && RoundOf(g, e) >= 0
    ensures Inv(n, Step(n, g, e))
  {
    var k := RoundOf(g, e);
    var r' := RoundStep(n, g.rounds[k], e);
    RoundStepCounts(n, g.rounds[k], e);
    RoundStepPhases(n, g.rounds[k], e);
    ReaderStep(n, g.rounds[k], e);
    ReplaceRound(n, g, k, r', Step(n, g, e).main);
  }

  lemma StepInv(n: nat, g: Gate, e: Event)
    requires Inv(n, g) && Enabled(n, g, e)
    ensures Inv(n, Step(n, g, e))
  {
    if RoundOf(g, e) >= 0 {
      RoundEventInv(n, g, e);
    } else {
      NewRoundInv(n);
    }
  }

  // Every reachable state satisfies the invariant.
  lemma {:induction false} RunInv(n: nat, es: seq<Event>, g: Gate)
    requires Run(n, es, g)
    ensures Inv(n, g)
  {
    if es == [] {
      InitInv(n);
    } else {
      var last := |es| - 1;
      var h := Execute(n, es[..last]).value;
      RunInv(n, es[..last], h);
      StepInv(n, h, es[last]);
    }
  }

  // What the events say.

  // Check i of round k has returned this verdict.
  predicate Returns(es: seq<Event>, k: nat, i: nat, verdict: bool) { CheckReturns(k, i, verdict) in es }

  // The checks of a round returned true, each of them, and none returned false.
  predicate AllReturnedTrue(n: nat, es: seq<Event>, k: nat) {
    forall i: nat | i < n :: Returns(es, k, i, true) && !Returns(es, k, i, false)
  }

  predicate SomeReturnedFalse(n: nat, es: seq<Event>, k: nat) {
    exists i: nat | i < n :: Returns(es, k, i, false)
  }

  // The rounds that came after the first one.
  function MoreRounds(es: seq<Event>): nat {
    if es == [] then 0 else MoreRounds(es[..|es| - 1]) + if es[|es| - 1].NextRound? then 1 else 0
  }

  // The consumer received from healthy, the value or the close.
  predicate Received(es: seq<Event>) { Announce in es || ReceiveClose in es }

  // A worker holds what its check returned, and a check returns once.
  predicate Tells(es: seq<Event>, k: nat, i: nat, w: Worker) {
    match w
    case Unstarted => !Returns(es, k, i, true) && !Returns(es, k, i, false)
    case Checking => !Returns(es, k, i, true) && !Returns(es, k, i, false)
    case _ => Returns(es, k, i, w.verdict) && !Returns(es, k, i, !w.verdict)
  }

  ghost predicate RoundTells(es: seq<Event>, k: nat, r: Round) {
    && (forall i: nat | i < |r.workers| :: Tells(es, k, i, r.workers[i]))
    && (forall i: nat, b | i >= |r.workers| :: !Returns(es, k, i, b))
  }

  ghost predicate EventsTell(es: seq<Event>, g: Gate) {
    && |g.rounds| == MoreRounds(es) + 1
    && (forall k: nat | k < |g.rounds| :: RoundTells(es, k, g.rounds[k]))
    && (forall k: nat, i: nat, b | k >= |g.rounds| :: !Returns(es, k, i, b))
    && (g.valuesReceived > 0 <==> Announce in es) && (g.closesReceived > 0 <==> ReceiveClose in es)
  }

  lemma ReturnsStep(es: seq<Event>, e: Event, k: nat, i: nat, b: bool)
    ensures Returns(es + [e], k, i, b) <==> Returns(es, k, i, b) || e == CheckReturns(k, i, b)
  {
  }

  // One action of its own round.
  lemma RoundTellsMore(n: nat, es: seq<Event>, k: nat, r: Round, e: Event)
    requires RoundInv(n, r) && RoundEnabled(n, r, e) && RoundTells(es, k, r) && (e.CheckReturns? ==> e.round == k)
    ensures RoundTells(es + [e], k, RoundStep(n, r, e))
  {
    var r' := RoundStep(n, r, e);
    forall i: nat | i < |r'.workers| ensures Tells(es + [e], k, i, r'.workers[i]) {
      assert Tells(es, k, i, r.workers[i]);
      ReturnsStep(es, e, k, i, true);
      ReturnsStep(es, e, k, i, false);
    }
    forall i: nat, b | i >= |r'.workers| ensures !Returns(es + [e], k, i, b) { ReturnsStep(es, e, k, i, b); }
  }

  // An action of another round, or of none.
  lemma RoundTellsStill(es: seq<Event>, k: nat, r: Round, e: Event)
    requires RoundTells(es, k, r) && (e.CheckReturns? ==> e.round != k)
    ensures RoundTells(es + [e], k, r)
  {
    forall i: nat | i < |r.workers| ensures Tells(es + [e], k, i, r.workers[i]) {
      assert Tells(es, k, i, r.workers[i]);
      ReturnsStep(es, e, k, i, true);
      ReturnsStep(es, e, k, i, false);
    }
    forall i: nat, b | i >= |r.workers| ensures !Returns(es + [e], k, i, b) { ReturnsStep(es, e, k, i, b); }
  }

  lemma NewRoundTells(n: nat, es: seq<Event>, k: nat)
    requires forall i: nat, b :: !Returns(es, k, i, b)
    ensures RoundTells(es, k, NewRound(n))
  {
  }

  lemma EventsTellMore(n: nat, es: seq<Event>, g: Gate, e: Event)
    requires Inv(n, g) && EventsTell(es, g) && Enabled(n, g, e)
    ensures EventsTell(es + [e], Step(n, g, e))
  {
    var all, h := es + [e], Step(n, g, e);
    assert all[..|all| - 1] == es;
    forall k: nat, i: nat, b | k >= |h.rounds| ensures !Returns(all, k, i, b) { ReturnsStep(es, e, k, i, b); }
    forall k: nat | k < |h.rounds| ensures RoundTells(all, k, h.rounds[k]) {
      if k == |g.rounds| {
        forall i: nat, b ensures !Returns(all, k, i, b) { ReturnsStep(es, e, k, i, b); }
        NewRoundTells(n, all, k);
      } else if RoundOf(g, e) == k {
        RoundTellsMore(n, es, k, g.rounds[k], e);
      } else {
        RoundTellsStill(es, k, g.rounds[k], e);
      }
    }
  }

  lemma {:induction false} RunTells(n: nat, es: seq<Event>, g: Gate)
    requires Run(n, es, g)
    ensures EventsTell(es, g)
  {
    if es == [] {
      NewRoundTells(n, es, 0);
    } else {
      var front, e := es[..|es| - 1], es[|es| - 1];
      var h := Execute(n, front).value;
      RunTells(n, front, h);
      RunInv(n, front, h);
      EventsTellMore(n, front, h, e);
      assert front + [e] == es;
    }
  }

  lemma SentFalseWasReturned(n: nat, es: seq<Event>, g: Gate, k: nat)
    requires EventsTell(es, g) && k < |g.rounds| && |g.rounds[k].workers| == n && SomeSentFalse(g.rounds[k])
    ensures SomeReturnedFalse(n, es, k)
  {
    var r := g.rounds[k];
    var i: nat :| i < |r.workers| && SentFalse(r.workers[i]);
    assert RoundTells(es, k, r) && Tells(es, k, i, r.workers[i]);
    assert Returns(es, k, i, false);
  }

  lemma AllSentTrueWereReturned(n: nat, es: seq<Event>, g: Gate, k: nat)
    requires EventsTell(es, g) && k < |g.rounds| && |g.rounds[k].workers| == n
    requires AllFinished(g.rounds[k]) && !SomeSentFalse(g.rounds[k])
    ensures AllReturnedTrue(n, es, k)
  {
    var r := g.rounds[k];
    forall i: nat | i < n ensures Returns(es, k, i, true) && !Returns(es, k, i, false) {
      assert RoundTells(es, k, r) && Tells(es, k, i, r.workers[i]) && !SentFalse(r.workers[i]);
    }
  }

  // Main result, safety, over what the checks returned: once anything was received from healthy,
  // each check of the last round has returned true and none false, and in each earlier round some
  // check returned false.
  lemma HealthyMeansAllTrueInOneRound(n: nat, es: seq<Event>, g: Gate)
    requires Run(n, es, g) && Received(es)
    ensures |g.rounds| == MoreRounds(es) + 1
    ensures AllReturnedTrue(n, es, MoreRounds(es))
    ensures forall k: nat | k < MoreRounds(es) :: SomeReturnedFalse(n, es, k)
  {
    RunInv(n, es, g);
    RunTells(n, es, g);
    var last := |g.rounds| - 1;
    assert RoundInv(n, g.rounds[last]) && g.rounds[last].reader.Drained?;
    AllSentTrueWereReturned(n, es, g, last);
    forall k: nat | k < last ensures SomeReturnedFalse(n, es, k) {
      assert RoundInv(n, g.rounds[k]) && g.rounds[k].reader.Broke?;
      SentFalseWasReturned(n, es, g, k);
    }
  }

  // No more results than checks; closed only when every worker is done; and the reader took
  // true after true, stopping at the first false.
  predicate ResultsInOrder(n: nat, r: Round) {
    && |r.buffer| + |r.consumed| <= n
    && (r.closed ==> AllFinished(r))
    && (r.consumed != [] ==> AllTrue(r.consumed[..|r.consumed| - 1]))
    && (r.reader.Broke? <==> r.consumed != [] && !r.consumed[|r.consumed| - 1])
  }

  lemma RoundDiscipline(n: nat, r: Round)
    requires RoundInv(n, r)
    ensures ResultsInOrder(n, r)
    ensures forall i | 0 <= i < n && r.workers[i].Returned? :: RoundEnabled(n, r, SendResult(0, i)) && !r.closed
  {
    SumBound(r.workers, HasSent, 1);
    forall i | 0 <= i < n && r.workers[i].Returned? ensures |r.buffer| < n && !r.closed {
      assert HasSent(r.workers[i]) < 1;
    }
  }

  // Main result, channel discipline, in every reachable state: nothing panics, healthy carries
  // one value before its one close, a check that runs can return either verdict, and a worker that
  // has its result can always send it.
  lemma ChannelDiscipline(n: nat, es: seq<Event>, g: Gate)
    requires Run(n, es, g)
    ensures g.panics == 0 && g.valuesReceived <= 1
    ensures g.healthyClosed ==> g.valuesReceived == 1
    ensures forall k | 0 <= k < |g.rounds| :: ResultsInOrder(n, g.rounds[k])
    ensures forall k: nat, i: nat | k < |g.rounds| && i < |g.rounds[k].workers| && g.rounds[k].workers[i].Returned? ::
              Enabled(n, g, SendResult(k, i)) && !g.rounds[k].closed
    ensures forall k: nat, i: nat, verdict | k < |g.rounds| && i < |g.rounds[k].workers| && g.rounds[k].workers[i].Checking? ::
              Enabled(n, g, CheckReturns(k, i, verdict))
  {
    RunInv(n, es, g);
    forall k | 0 <= k < |g.rounds|
      ensures ResultsInOrder(n, g.rounds[k])
      ensures forall i | 0 <= i < |g.rounds[k].workers| && g.rounds[k].workers[i].Returned? ::
                RoundEnabled(n, g.rounds[k], SendResult(k, i)) && !g.rounds[k].closed
    {
      RoundDiscipline(n, g.rounds[k]);
    }
  }

  // Progress. The measure of a round counts the actions it still has before it.

  function Measure(n: nat, r: Round): int {
    Sum(r.workers, Rank) +
    (match r.closer case NotStarted => 3 case Waiting => 2 case Closing => 1 case Closed => 0) +
    (if r.reader.Broke? || r.reader.Drained? then 0 else 1 + n - |r.consumed|)
  }

  lemma MeasureDecreases(n: nat, r: Round, e: Event)
    requires RoundInv(n, r) && RoundEnabled(n, r, e)
    ensures 0 <= Measure(n, RoundStep(n, r, e)) < Measure(n, r)
  {
    var r' := RoundStep(n, r, e);
    RoundStepCounts(n, r, e);
    SumBound(r.workers, HasSent, 1);
    SumBound(r'.workers, HasSent, 1);
    var i := WorkerOf(r, e);
    if i >= 0 { SumUpdate(r.workers, i, r'.workers[i], Rank); }
  }

  function EventsOf(n: nat, es: seq<Event>, k: nat): nat {
    if es == [] then 0
    else
      var last := |es| - 1;
      var before := Execute(n, es[..last]);
      EventsOf(n, es[..last], k) + if before.Some? && RoundOf(before.value, es[last]) == k then 1 else 0
  }

  lemma MeasureOfNewRound(n: nat)
    ensures 0 <= Measure(n, NewRound(n)) <= 5 * n + 4
  {
    SumBound(NewRound(n).workers, Rank, 4);
  }

  lemma MeasureAcrossStep(n: nat, g: Gate, e: Event, k: nat)
    requires Inv(n, g) && Enabled(n, g, e)
    ensures k < |g.rounds| ==>
              k < |Step(n, g, e).rounds| &&
              Measure(n, Step(n, g, e).rounds[k]) + (if RoundOf(g, e) == k then 1 else 0) <= Measure(n, g.rounds[k])
    ensures RoundOf(g, e) == k ==> 0 <= Measure(n, Step(n, g, e).rounds[k])
    ensures k >= |g.rounds| ==> RoundOf(g, e) != k
    ensures k >= |g.rounds| && k < |Step(n, g, e).rounds| ==> Step(n, g, e).rounds[k] == NewRound(n)
    ensures k < |g.rounds| && RoundOf(g, e) != k ==> Step(n, g, e).rounds[k] == g.rounds[k]
    ensures |Step(n, g, e).rounds| >= |g.rounds|
  {
    if RoundOf(g, e) == k { MeasureDecreases(n, g.rounds[k], e); }
  }

  // Main result, termination: however the goroutines interleave, and however many rounds run
  // beside it, a round takes at most 5n + 4 actions.
  lemma {:induction false} RoundIsBounded(n: nat, es: seq<Event>, g: Gate, k: nat)
    requires Run(n, es, g)
    ensures k >= |g.rounds| ==> EventsOf(n, es, k) == 0
    ensures k < |g.rounds| ==> 0 <= Measure(n, g.rounds[k]) && EventsOf(n, es, k) + Measure(n, g.rounds[k]) <= 5 * n + 4
  {
    MeasureOfNewRound(n);
    if es != [] {
      var last := |es| - 1;
      var h := Execute(n, es[..last]).value;
      RoundIsBounded(n, es[..last], h, k);
      RunInv(n, es[..last], h);
      MeasureAcrossStep(n, h, es[last], k);
    }
  }

  predicate Over(r: Round) {
    AllFinished(r) && r.closer.Closed? && (r.reader.Broke? || r.reader.Drained?)
  }

  // Main result, no deadlock: a round that is not over always has an action that is enabled.
  lemma NoDeadlock(n: nat, es: seq<Event>, g: Gate, k: nat) returns (e: Event)
    requires Run(n, es, g) && k < |g.rounds| && !Over(g.rounds[k])
    ensures RoundOf(g, e) == k && Enabled(n, g, e)
  {
    RunInv(n, es, g);
    var r := g.rounds[k];
    assert RoundInv(n, r);
    if r.reader.Spawning? {
      e := if r.reader.next < n then Spawn else StartCloser;
    } else if i :| 0 <= i < n && !r.workers[i].Finished? {
      var w: nat := i;
      e := if r.workers[w].Checking? then CheckReturns(k, w, true)
           else if r.workers[w].Returned? then SendResult(k, w)
           else WorkerDone(k, w);
      if e.SendResult? {
        assert HasSent(r.workers[i]) < 1;
        SumBound(r.workers, HasSent, 1);
      }
    } else if !r.closer.Closed? {
      SumIsZero(r.workers, Active);
      e := if r.closer.Waiting? then CloserWakes(k) else CloseResults(k);
    } else {
      e := if r.buffer != [] then ReadResult else ReadClose;
    }
  }

  // Main result, verdict: a round that can do nothing more is over, and its reader saw the
  // channel closed exactly when every check of that round returned true, and broke off exactly when
  // one returned false.
  lemma QuietRoundHasVerdict(n: nat, es: seq<Event>, g: Gate, k: nat)
    requires Run(n, es, g) && k < |g.rounds|
    requires forall e | RoundOf(g, e) == k :: !Enabled(n, g, e)
    ensures Over(g.rounds[k])
    ensures g.rounds[k].reader.Drained? <==> AllReturnedTrue(n, es, k)
    ensures g.rounds[k].reader.Broke? <==> SomeReturnedFalse(n, es, k)
  {
    var r := g.rounds[k];
    if !Over(r) {
      var e := NoDeadlock(n, es, g, k);
      assert false;
    }
    RunInv(n, es, g);
    RunTells(n, es, g);
    assert RoundInv(n, r);
    if r.reader.Drained? {
      AllSentTrueWereReturned(n, es, g, k);
    } else {
      SentFalseWasReturned(n, es, g, k);
    }
  }

  // The actions of the gate's own goroutines; the other two are its consumer's.
  predicate Own(e: Event) { !e.ReceiveClose? && !e.ConsumerLeaves? }

  lemma OverIsQuiet(n: nat, r: Round, e: Event)
    requires RoundInv(n, r) && Over(r)
    ensures !RoundEnabled(n, r, e)
  {
  }

  // Main result, where a gate can come to rest: only at its end, or announcing to nobody.
  lemma RestsIff(n: nat, es: seq<Event>, g: Gate)
    requires Run(n, es, g)
    ensures (forall e | Own(e) :: !Enabled(n, g, e)) <==>
            (forall k | 0 <= k < |g.rounds| :: Over(g.rounds[k])) &&
            (g.main.Exited? || (g.main.Announcing? && g.consumerGone))
  {
    RunInv(n, es, g);
    if forall e | Own(e) :: !Enabled(n, g, e) {
      forall k | 0 <= k < |g.rounds| ensures Over(g.rounds[k]) {
        if !Over(g.rounds[k]) {
          var e := NoDeadlock(n, es, g, k);
          assert Own(e);
        }
      }
      assert !Enabled(n, g, NextRound) && !Enabled(n, g, Announce) && !Enabled(n, g, CloseHealthy);
      assert Over(g.rounds[|g.rounds| - 1]);
    } else if forall k | 0 <= k < |g.rounds| :: Over(g.rounds[k]) {
      var e :| Own(e) && Enabled(n, g, e);
      if RoundOf(g, e) >= 0 { OverIsQuiet(n, g.rounds[RoundOf(g, e)], e); }
    }
  }

  // Main result, leak: a gate whose consumer left before anything was received never ends,
  // whatever its checks return afterwards.
  lemma {:induction false} AbandonedGateNeverEnds(n: nat, es: seq<Event>, more: seq<Event>, g: Gate, g': Gate)
    requires Run(n, es, g) && Run(n, es + more, g')
    requires g.consumerGone && g.valuesReceived == 0
    ensures g'.consumerGone && g'.valuesReceived == 0 && !g'.main.Exited?
  {
    RunInv(n, es + more, g');
    if more == [] {
      assert es + more == es;
    } else {
      var last := |more| - 1;
      assert (es + more)[..|es + more| - 1] == es + more[..last];
      var h := Execute(n, es + more[..last]).value;
      AbandonedGateNeverEnds(n, es, more[..last], g, h);
    }
  }

  // Runs of one check.

  lemma Then(n: nat, es: seq<Event>, e: Event, g: Gate, h: Gate)
    requires Run(n, es, g) && Enabled(n, g, e) && Step(n, g, e) == h
    ensures Run(n, es + [e], h)
  {
    assert (es + [e])[..|es|] == es;
  }

  // A gate in its first round, with one check.
  function OneCheck(w: Worker, waitGroup: int, buffer: seq<bool>, consumed: seq<bool>, closer: Closer,
                    reader: Reader, main: Main): Gate
  {
    Gate([Round([w], waitGroup, buffer, consumed, closer.Closed?, closer, reader)], main, false, 0, 0, false, 0)
  }

  // One check returns true, and its reader sees the close.
  function OneCheckPasses(): seq<(Event, Gate)> {
    [
     (Spawn, OneCheck(Checking, 1, [], [], NotStarted, Spawning(1), InRound)),
     (StartCloser, OneCheck(Checking, 1, [], [], Waiting, Reading, InRound)),
     (CheckReturns(0, 0, true), OneCheck(Returned(true), 1, [], [], Waiting, Reading, InRound)),
     (SendResult(0, 0), OneCheck(Sent(true), 1, [true], [], Waiting, Reading, InRound)),
     (WorkerDone(0, 0), OneCheck(Finished(true), 0, [true], [], Waiting, Reading, InRound)),
     (ReadResult, OneCheck(Finished(true), 0, [], [true], Waiting, Reading, InRound)),
     (CloserWakes(0), OneCheck(Finished(true), 0, [], [true], Closing, Reading, InRound)),
     (CloseResults(0), OneCheck(Finished(true), 0, [], [true], Closed, Reading, InRound)),
     (ReadClose, OneCheck(Finished(true), 0, [], [true], Closed, Drained, Announcing))
    ]
  }

  function Events(steps: seq<(Event, Gate)>): seq<Event> {
    seq(|steps|, i requires 0 <= i < |steps| => steps[i].0)
  }

  function Before(steps: seq<(Event, Gate)>, k: nat): Gate
    requires k <= |steps|
  {
    if k == 0 then Init(1) else steps[k - 1].1
  }

  // A step of the only round.
  lemma OnlyRoundStep(g: Gate, e: Event, h: Gate)
    requires |g.rounds| == |h.rounds| == 1 && RoundOf(g, e) == 0 && RoundEnabled(1, g.rounds[0], e)
    requires RoundStep(1, g.rounds[0], e) == h.rounds[0] && !Panics(g.rounds[0], e)
    requires h == g.(rounds := h.rounds, main := h.main)
    requires h.main == if e == ReadClose then Announcing
                       else if e == ReadResult && h.rounds[0].reader.Broke? then Sleeping
                       else g.main
    ensures Enabled(1, g, e) && Step(1, g, e) == h
  {
    assert g.rounds[0 := h.rounds[0]] == h.rounds;
  }

  lemma OneCheckRound(k: nat)
    requires k < |OneCheckPasses()|
    ensures var (e, h) := OneCheckPasses()[k];
            var r := Before(OneCheckPasses(), k).rounds[0];
            RoundEnabled(1, r, e) && RoundStep(1, r, e) == h.rounds[0] && !Panics(r, e)
  {
    var (e, h) := OneCheckPasses()[k];
    var r, r' := Before(OneCheckPasses(), k).rounds[0], h.rounds[0];
    assert NewRound(1).workers == [Unstarted];
    assert r.workers[0 := r'.workers[0]] == r'.workers;
    assert [] + [true] == [true] && [true][1..] == [];
    if k < 3 { assert RoundStep(1, r, e) == r'; }
    else if k < 6 { assert RoundStep(1, r, e) == r'; }
    else { assert RoundStep(1, r, e) == r'; }
  }

  lemma OneCheckMain(k: nat)
    requires k < |OneCheckPasses()|
    ensures var (e, h) := OneCheckPasses()[k];
            var g := Before(OneCheckPasses(), k);
            && |g.rounds| == |h.rounds| == 1 && RoundOf(g, e) == 0 && h == g.(rounds := h.rounds, main := h.main)
            && h.main == if e == ReadClose then Announcing
                         else if e == ReadResult && h.rounds[0].reader.Broke? then Sleeping
                         else g.main
  {
  }

  lemma OneCheckStep(steps: seq<(Event, Gate)>, k: nat)
    requires steps == OneCheckPasses() && k < |steps|
    ensures Enabled(1, Before(steps, k), steps[k].0) && Step(1, Before(steps, k), steps[k].0) == steps[k].1
  {
    OneCheckRound(k);
    OneCheckMain(k);
    OnlyRoundStep(Before(steps, k), steps[k].0, steps[k].1);
  }

  lemma EventsOfMore(steps: seq<(Event, Gate)>, k: nat)
    requires k < |steps|
    ensures Events(steps[..k + 1]) == Events(steps[..k]) + [steps[k].0]
  {
  }

  lemma {:induction false} OneCheckRuns(steps: seq<(Event, Gate)>, k: nat)
    requires steps == OneCheckPasses() && k <= |steps|
    ensures Run(1, Events(steps[..k]), Before(steps, k))
  {
    if k == 0 {
    } else {
      OneCheckRuns(steps, k - 1);
      OneCheckStep(steps, k - 1);
      Then(1, Events(steps[..k - 1]), steps[k - 1].0, Before(steps, k - 1), Before(steps, k));
      EventsOfMore(steps, k - 1);
    }
  }

  lemma OneCheckAnnounces()
    ensures |OneCheckPasses()| == 9
    ensures Run(1, Events(OneCheckPasses()), OneCheckPasses()[8].1) && OneCheckPasses()[8].1.main == Announcing
  {
    OneCheckRuns(OneCheckPasses(), 9);
    assert OneCheckPasses()[..9] == OneCheckPasses();
  }

  // The consumer of this gate times out just before the announcement: nothing is left to do, and
  // the gate's goroutine stays where it is.
  lemma LateGateLeaks()
    ensures var es := Events(OneCheckPasses()) + [ConsumerLeaves];
            exists g :: Run(1, es, g) && !g.main.Exited? && forall e | Own(e) :: !Enabled(1, g, e)
  {
    OneCheckAnnounces();
    var g := OneCheckPasses()[8].1;
    var h := g.(consumerGone := true);
    Then(1, Events(OneCheckPasses()), ConsumerLeaves, g, h);
    forall e | Own(e) ensures !Enabled(1, h, e) {
      if RoundOf(h, e) >= 0 { assert !RoundEnabled(1, h.rounds[0], e); }
    }
  }

  // The consumer of a gate.

  // What a select over healthy and a timeout takes for healthy: that something was received.
  predicate GateAnswers(n: nat, es: seq<Event>, healthy: bool) {
    Execute(n, es).Some? && (healthy <==> Received(es))
  }

  // Of these events, those that can happen, up to the first that cannot.
  function Happening(n: nat, es: seq<Event>): (happened: seq<Event>)
    ensures Execute(n, happened).Some? && happened <= es
    ensures Execute(n, es).Some? ==> happened == es
  {
    if es == [] || Execute(n, es).Some? then es else Happening(n, es[..|es| - 1])
  }

  // Waits for one check per service; es is the interleaving that the goroutines have until then.
  method WaitForContainers(n: nat, es: seq<Event>) returns (healthy: bool)
    requires Execute(n, es).Some?
    ensures GateAnswers(n, es, healthy)
  {
    var g := Execute(n, es).value;
    RunTells(n, es, g);
    healthy := g.valuesReceived > 0 || g.closesReceived > 0;
  }

  lemma NothingYet(n: nat)
    ensures GateAnswers(n, [], false)
  {
  }

  // Without a check the gate can announce at once.
  function NothingToCheck(): seq<Event> { [StartCloser, CloserWakes(0), CloseResults(0), ReadClose, Announce] }

  function Unchecked(k: nat): Gate {
    var closer := if k == 0 then NotStarted else if k == 1 then Waiting else if k == 2 then Closing else Closed;
    var reader := if k == 0 then Spawning(0) else if k < 4 then Reading else Drained;
    var main := if k < 4 then InRound else if k == 4 then Announcing else Announced;
    Gate([Round([], 0, [], [], k > 2, closer, reader)], main, false, if k > 4 then 1 else 0, 0, false, 0)
  }

  lemma UncheckedStep(k: nat)
    requires k < 5
    ensures Enabled(0, Unchecked(k), NothingToCheck()[k])
    ensures Step(0, Unchecked(k), NothingToCheck()[k]) == Unchecked(k + 1)
  {
  }

  lemma {:induction false} UncheckedRuns(es: seq<Event>, k: nat)
    requires es == NothingToCheck() && k <= 5
    ensures Run(0, es[..k], Unchecked(k))
  {
    if k == 0 {
      assert NewRound(0).workers == [];
    } else {
      UncheckedRuns(es, k - 1);
      UncheckedStep(k - 1);
      assert es[..k - 1] + [es[k - 1]] == es[..k];
      Then(0, es[..k - 1], es[k - 1], Unchecked(k - 1), Unchecked(k));
    }
  }

  lemma NothingToCheckIsHealthy()
    ensures GateAnswers(0, NothingToCheck(), true)
  {
    var es := NothingToCheck();
    UncheckedRuns(es, 5);
    assert es[..5] == es;
  }

  // The reader's loop, run on results in their order of arrival.
  method ReadResults(results: seq<bool>) returns (allHealthy: bool, taken: nat)
    ensures taken <= |results|
    ensures allHealthy <==> AllTrue(results)
    ensures allHealthy ==> taken == |results|
    ensures !allHealthy ==> taken > 0 && AllTrue(results[..taken - 1]) && !results[taken - 1]
  {
    allHealthy, taken := true, 0;
    while taken < |results|
      invariant taken <= |results| && AllTrue(results[..taken]) && allHealthy
    {
      var result := results[taken];
      taken := taken + 1;
      if !result {
        allHealthy := false;
        break;
      }
    }
  }
}
