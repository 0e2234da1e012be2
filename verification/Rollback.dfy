/**
 The rollback stack: compensations registered in order, undone in reverse, each verified when its
 undo succeeded, and the deployment state compared at the end. The world that the steps act on is
 a parameter.
 */
module Rollback {
  import opened Wrappers
  import opened State

  // What one rollback or verify function does to the world. Panicked leaves the stack unwinding.
  datatype Attempt<W> = Finished(world: W) | Failed(world: W, error: string) | Panicked(world: W)

  datatype RollbackStep<!W> = RollbackStep(
    name: string,
    rollback: W -> Attempt<W>,
    verify: Option<W -> Attempt<W>>)

  datatype Entry = Undone(index: nat, ok: bool) | Verified(index: nat, ok: bool)

  datatype RollbackError = StepFailed(index: nat) | VerifyFailed(index: nat) | FinalLoadFailed | StateMismatch

  // What the descending loop leaves. panicked says that a step ended it early.
  datatype Report<W> = Report(world: W, log: seq<Entry>, errors: seq<RollbackError>, panicked: bool)

  // One step, attempted in w.
  function RunStep<W>(step: RollbackStep<W>, index: nat, w: W): Report<W> {
    match step.rollback(w)
    case Panicked(w) => Report(w, [Undone(index, false)], [], true)
    case Failed(w, _) => Report(w, [Undone(index, false)], [StepFailed(index)], false)
    case Finished(w) =>
      if step.verify.None? then Report(w, [Undone(index, true)], [], false)
      else
        match step.verify.value(w)
        case Panicked(w) => Report(w, [Undone(index, true), Verified(index, false)], [], true)
        case Failed(w, _) => Report(w, [Undone(index, true), Verified(index, false)], [VerifyFailed(index)], false)
        case Finished(w) => Report(w, [Undone(index, true), Verified(index, true)], [], false)
  }

  // All steps, the last one first.
  function Unwind<W>(steps: seq<RollbackStep<W>>, w: W): Report<W> {
    if steps == [] then Report(w, [], [], false)
    else
      var last := |steps| - 1;
      var first := RunStep(steps[last], last, w);
      if first.panicked then first
      else
        var rest := Unwind(steps[..last], first.world);
        Report(rest.world, first.log + rest.log, first.errors + rest.errors, rest.panicked)
  }

  // A report with what happened before it.
  function After<W>(log: seq<Entry>, errors: seq<RollbackError>, r: Report<W>): Report<W> {
    Report(r.world, log + r.log, errors + r.errors, r.panicked)
  }

  lemma UnwindStep<W>(steps: seq<RollbackStep<W>>, i: nat, w: W, log: seq<Entry>, errors: seq<RollbackError>)
    requires i < |steps|
    ensures var here := RunStep(steps[i], i, w);
            After(log, errors, Unwind(steps[..i + 1], w)) ==
            if here.panicked then After(log, errors, here)
            else After(log + here.log, errors + here.errors, Unwind(steps[..i], here.world))
  {
    assert steps[..i + 1][..i] == steps[..i] && steps[..i + 1][i] == steps[i];
  }

  datatype Outcome = Nil | RollbackFailed(errors: seq<RollbackError>) | RollbackPanicked

  // How Rollback ends, given what the two loads returned; the first one's error is dropped and
  // leaves the zero state.
  function Conclude<W>(report: Report<W>, before: Result<DeploymentState, string>, after: Result<DeploymentState, string>): Outcome {
    if report.panicked then RollbackPanicked
    else
      var initial := if before.Success? then before.value else ZERO;
      var comparison := if after.Success? then Compare(initial, after.value) else Different;
      if comparison == NilDereference then RollbackPanicked
      else
        var errors := report.errors + (if after.Failure? then [FinalLoadFailed]
                                       else if comparison == Different then [StateMismatch]
                                       else []);
        if errors == [] then Nil else RollbackFailed(errors)
  }

  class RollbackManager<W> {
    // Reads the deployment state; k is 0 before the steps and 1 after them.
    const load: (nat, W) -> Result<DeploymentState, string>
    var steps: seq<RollbackStep<W>>

    constructor (load: (nat, W) -> Result<DeploymentState, string>)
      ensures this.load == load && steps == []
    {
      this.load := load;
      steps := [];
    }

    method AddRollbackStep(name: string, rollback: W -> Attempt<W>, verify: Option<W -> Attempt<W>>)
      modifies this
      ensures steps == old(steps) + [RollbackStep(name, rollback, verify)]
    {
      steps := steps + [RollbackStep(name, rollback, verify)];
    }

    // The loop's work on one step.
    method UndoStep(i: nat, w: W) returns (r: Report<W>)
      requires i < |steps|
      ensures r == RunStep(steps[i], i, w)
    {
      var step := steps[i];
      var undone := step.rollback(w);
      if undone.Panicked? { return Report(undone.world, [Undone(i, false)], [], true); }
      if undone.Failed? { return Report(undone.world, [Undone(i, false)], [StepFailed(i)], false); }
      if step.verify.None? { return Report(undone.world, [Undone(i, true)], [], false); }
      var verified := step.verify.value(undone.world);
      var log := [Undone(i, true), Verified(i, verified.Finished?)];
      return Report(verified.world, log, if verified.Failed? then [VerifyFailed(i)] else [], verified.Panicked?);
    }

    // The descending loop.
    method UndoSteps(w: W) returns (r: Report<W>)
      ensures r == Unwind(steps, w)
    {
      var world, log, errors := w, [], [];
      var i := |steps| - 1;
      assert steps[..i + 1] == steps;
      while i >= 0
        invariant -1 <= i < |steps|
        invariant Unwind(steps, w) == After(log, errors, Unwind(steps[..i + 1], world))
      {
        UnwindStep(steps, i, world, log, errors);
        var here := UndoStep(i, world);
        world, log, errors := here.world, log + here.log, errors + here.errors;
        if here.panicked { return Report(world, log, errors, true); }
        i := i - 1;
      }
      return Report(world, log, errors, false);
    }

    method Rollback(w: W) returns (world: W, outcome: Outcome, report: Report<W>)
      ensures report == Unwind(steps, w) && world == report.world
      ensures outcome == Conclude(report, load(0, w), load(1, world))
    {
      var initial := load(0, w);
      report := UndoSteps(w);
      world := report.world;
      if report.panicked { return world, RollbackPanicked, report; }
      var errors := report.errors;
      var final := load(1, world);
      if final.Failure? {
        errors := errors + [FinalLoadFailed];
      } else {
        var comparison := Equal(if initial.Success? then initial.value else ZERO, final.value);
        if comparison == NilDereference { return world, RollbackPanicked, report; }
        if comparison == Different { errors := errors + [StateMismatch]; }
      }
      outcome := if |errors| > 0 then RollbackFailed(errors) else Nil;
    }
  }

  // Accounting.

  // The indices of the undos, in order of time.
  function Attempted(log: seq<Entry>): seq<nat> {
    if log == [] then []
    else (if log[0].Undone? then [log[0].index] else []) + Attempted(log[1..])
  }

  function Countdown(n: nat): seq<nat> { if n == 0 then [] else [n - 1] + Countdown(n - 1) }

  function Failures(log: seq<Entry>): nat {
    if log == [] then 0 else (if log[0].ok then 0 else 1) + Failures(log[1..])
  }

  lemma {:induction false} AttemptedOfParts(a: seq<Entry>, b: seq<Entry>)
    ensures Attempted(a + b) == Attempted(a) + Attempted(b)
  {
    if a == [] {
      assert a + b == b;
    } else {
      var ab := a + b;
      assert ab[0] == a[0] && ab[1..] == a[1..] + b;
      AttemptedOfParts(a[1..], b);
    }
  }

  lemma {:induction false} FailuresOfParts(a: seq<Entry>, b: seq<Entry>)
    ensures Failures(a + b) == Failures(a) + Failures(b)
  {
    if a == [] {
      assert a + b == b;
    } else {
      var ab := a + b;
      assert ab[0] == a[0] && ab[1..] == a[1..] + b;
      FailuresOfParts(a[1..], b);
    }
  }

  lemma LogOfParts(a: seq<Entry>, b: seq<Entry>)
    ensures Attempted(a + b) == Attempted(a) + Attempted(b)
    ensures Failures(a + b) == Failures(a) + Failures(b)
  {
    AttemptedOfParts(a, b);
    FailuresOfParts(a, b);
  }

  // Each verify stands right after its own successful undo, and such an undo is followed by the
  // verify if there is one.
  predicate VerifiedIffUndone<W>(steps: seq<RollbackStep<W>>, log: seq<Entry>) {
    forall p | 0 <= p < |log| :: InPlace(steps, log, p)
  }

  predicate InPlace<W>(steps: seq<RollbackStep<W>>, log: seq<Entry>, p: nat)
    requires p < |log|
  {
    var e := log[p];
    && e.index < |steps|
    && (e.Verified? ==> p > 0 && log[p - 1] == Undone(e.index, true))
    && (e == Undone(e.index, true) ==>
          (steps[e.index].verify.Some? <==> p + 1 < |log| && log[p + 1].Verified? && log[p + 1].index == e.index))
  }

  lemma OneEntry(e: Entry)
    ensures Attempted([e]) == if e.Undone? then [e.index] else []
    ensures Failures([e]) == if e.ok then 0 else 1
  {
    assert [e][1..] == [];
  }

  lemma UndoAndVerify(index: nat, ok: bool)
    ensures Attempted([Undone(index, true), Verified(index, ok)]) == [index]
    ensures Failures([Undone(index, true), Verified(index, ok)]) == if ok then 0 else 1
  {
    LogOfParts([Undone(index, true)], [Verified(index, ok)]);
    OneEntry(Undone(index, true));
    OneEntry(Verified(index, ok));
  }

  // The logs that one step can leave.
  predicate LogOfStep<W>(index: nat, r: Report<W>) {
    || (exists ok :: r.log == [Undone(index, ok)] && |r.errors| + (if r.panicked then 1 else 0) == if ok then 0 else 1)
    || (exists ok :: r.log == [Undone(index, true), Verified(index, ok)] &&
                     |r.errors| + (if r.panicked then 1 else 0) == if ok then 0 else 1)
  }

  lemma StepLog<W>(step: RollbackStep<W>, index: nat, w: W)
    ensures LogOfStep(index, RunStep(step, index, w))
  {
  }

  lemma LogAccounting<W>(index: nat, r: Report<W>)
    requires LogOfStep(index, r)
    ensures Attempted(r.log) == [index] && Failures(r.log) == |r.errors| + (if r.panicked then 1 else 0)
  {
    OneEntry(Undone(index, true));
    OneEntry(Undone(index, false));
    UndoAndVerify(index, true);
    UndoAndVerify(index, false);
  }

  // The log of one step in front of the log of the steps below it.
  lemma VerifiedInFront<W>(steps: seq<RollbackStep<W>>, w: W, rest: seq<Entry>)
    requires |steps| > 0 && VerifiedIffUndone(steps[..|steps| - 1], rest)
    ensures var first := RunStep(steps[|steps| - 1], |steps| - 1, w);
            VerifiedIffUndone(steps, first.log + if first.panicked then [] else rest)
  {
    var last := |steps| - 1;
    var first := RunStep(steps[last], last, w);
    var rest := if first.panicked then [] else rest;
    var all := first.log + rest;
    assert |rest| > 0 ==> InPlace(steps[..last], rest, 0);
    forall p: nat | p < |all| ensures InPlace(steps, all, p) {
      if p >= |first.log| {
        var q: nat := p - |first.log|;
        assert all[p] == rest[q] && (q + 1 < |rest| ==> all[p + 1] == rest[q + 1]);
        assert InPlace(steps[..last], rest, q);
        assert steps[..last][all[p].index] == steps[all[p].index];
      }
    }
  }

  // Main result, accounting: whatever fails, the steps are attempted in strictly descending
  // order, all of them unless one panics, and there is one error for each undo or verify that
  // failed.
  lemma {:induction false} RollbackAccounting<W>(steps: seq<RollbackStep<W>>, w: W)
    ensures var r := Unwind(steps, w);
            && Attempted(r.log) <= Countdown(|steps|)
            && (!r.panicked ==> Attempted(r.log) == Countdown(|steps|))
            && Failures(r.log) == |r.errors| + (if r.panicked then 1 else 0)
  {
    if steps != [] {
      var last := |steps| - 1;
      var first := RunStep(steps[last], last, w);
      StepLog(steps[last], last, w);
      LogAccounting(last, first);
      RollbackAccounting(steps[..last], first.world);
      LogOfParts(first.log, Unwind(steps[..last], first.world).log);
    }
  }

  // Main result, verification: a verify runs exactly after its own successful undo.
  lemma {:induction false} RollbackVerifies<W>(steps: seq<RollbackStep<W>>, w: W)
    ensures VerifiedIffUndone(steps, Unwind(steps, w).log)
  {
    if steps != [] {
      var last := |steps| - 1;
      var first := RunStep(steps[last], last, w);
      RollbackVerifies(steps[..last], first.world);
      VerifiedInFront(steps, w, Unwind(steps[..last], first.world).log);
      assert first.log + [] == first.log;
    }
  }

  // Nil is returned exactly when nothing failed, nothing panicked, and the state is the same.
  lemma NilMeansClean<W>(steps: seq<RollbackStep<W>>, w: W,
                         before: Result<DeploymentState, string>, after: Result<DeploymentState, string>)
    ensures var r := Unwind(steps, w);
            Conclude(r, before, after) == Nil <==>
            && !r.panicked && Failures(r.log) == 0
            && after.Success? && Compare(if before.Success? then before.value else ZERO, after.value) == Same
  {
    RollbackAccounting(steps, w);
  }

  // What the steps answered.

  // The step ended with a panic, attempted in w.
  predicate StepPanics<W>(step: RollbackStep<W>, w: W) {
    match step.rollback(w)
    case Panicked(_) => true
    case Failed(_, _) => false
    case Finished(v) => step.verify.Some? && step.verify.value(v).Panicked?
  }

  // The step, attempted in w, leaves v.
  predicate Leads<W(==)>(step: RollbackStep<W>, w: W, v: W) {
    match step.rollback(w)
    case Panicked(u) => v == u
    case Failed(u, _) => v == u
    case Finished(u) => if step.verify.None? then v == u else v == step.verify.value(u).world
  }

  // What is logged and reported of step i is what it answered, attempted in w: the undo is logged
  // as a success exactly when the rollback function finished, the verify runs only then and is
  // logged as a success exactly when it finished, and each failure is reported as its own.
  predicate Answered<W>(step: RollbackStep<W>, i: nat, w: W, r: Report<W>) {
    var undo := step.rollback(w);
    && (forall ok :: Undone(i, ok) in r.log <==> ok == undo.Finished?)
    && (forall ok :: Verified(i, ok) in r.log <==>
          undo.Finished? && step.verify.Some? && ok == step.verify.value(undo.world).Finished?)
    && (StepFailed(i) in r.errors <==> undo.Failed?)
    && (VerifyFailed(i) in r.errors <==>
          undo.Finished? && step.verify.Some? && step.verify.value(undo.world).Failed?)
  }

  // The steps from `low` on were attempted, each of them in the world that those above it left:
  // step i in worlds[i + 1]. Only the lowest can have panicked, and only a panic ends the loop early.
  predicate Unwound<W(==)>(steps: seq<RollbackStep<W>>, w: W, r: Report<W>, worlds: seq<W>, low: nat) {
    && |worlds| == |steps| + 1 && low <= |steps| && worlds[|steps|] == w && r.world == worlds[low]
    && (forall i | low <= i < |steps| :: Leads(steps[i], worlds[i + 1], worlds[i]) && Answered(steps[i], i, worlds[i + 1], r))
    && (forall i | low <= i < |steps| :: StepPanics(steps[i], worlds[i + 1]) <==> r.panicked && i == low)
    && (if r.panicked then low < |steps| else low == 0)
    && (forall e <- r.log :: low <= e.index < |steps|)
    && (forall e <- r.errors :: (e.StepFailed? || e.VerifyFailed?) && low <= e.index < |steps|)
  }

  lemma StepAnswers<W>(step: RollbackStep<W>, i: nat, w: W)
    ensures var r := RunStep(step, i, w);
            && Answered(step, i, w, r) && Leads(step, w, r.world) && (r.panicked <==> StepPanics(step, w))
            && (forall e <- r.log :: e.index == i)
            && (forall e <- r.errors :: (e.StepFailed? || e.VerifyFailed?) && e.index == i)
  {
  }

  // What is reported of other steps says nothing of this one.
  lemma AnsweredAmong<W>(step: RollbackStep<W>, i: nat, w: W, here: Report<W>, r: Report<W>,
                         log: seq<Entry>, errors: seq<RollbackError>)
    requires Answered(step, i, w, here)
    requires forall e :: e in r.log <==> e in here.log || e in log
    requires forall e :: e in r.errors <==> e in here.errors || e in errors
    requires forall e <- log :: e.index != i
    requires forall e <- errors :: (e.StepFailed? || e.VerifyFailed?) && e.index != i
    ensures Answered(step, i, w, r)
  {
  }

  // Main result, answers: the rollback attempts the steps in the worlds that it passes through, and
  // its log and its errors are what the steps answered there.
  lemma {:induction false} RollbackAnswers<W>(steps: seq<RollbackStep<W>>, w: W) returns (worlds: seq<W>, low: nat)
    ensures Unwound(steps, w, Unwind(steps, w), worlds, low)
  {
    if steps == [] {
      worlds, low := [w], 0;
    } else {
      var last := |steps| - 1;
      var first := RunStep(steps[last], last, w);
      StepAnswers(steps[last], last, w);
      if first.panicked {
        low := last;
        worlds := seq(last, _ => w) + [first.world, w];
      } else {
        var below, bottom := RollbackAnswers(steps[..last], first.world);
        worlds, low := below + [w], bottom;
        UnwoundBelow(steps, w, worlds, low);
      }
    }
  }

  lemma UnwoundBelow<W>(steps: seq<RollbackStep<W>>, w: W, worlds: seq<W>, low: nat)
    requires steps != [] && |worlds| == |steps| + 1 && worlds[|steps|] == w
    requires var last := |steps| - 1;
             var first := RunStep(steps[last], last, w);
             !first.panicked && Unwound(steps[..last], first.world, Unwind(steps[..last], first.world), worlds[..|steps|], low)
    ensures Unwound(steps, w, Unwind(steps, w), worlds, low)
  {
    var last := |steps| - 1;
    var first := RunStep(steps[last], last, w);
    var rest, r := Unwind(steps[..last], first.world), Unwind(steps, w);
    StepAnswers(steps[last], last, w);
    forall i | low <= i < |steps|
      ensures Leads(steps[i], worlds[i + 1], worlds[i]) && Answered(steps[i], i, worlds[i + 1], r)
      ensures StepPanics(steps[i], worlds[i + 1]) <==> r.panicked && i == low
    {
      if i == last {
        AnsweredAmong(steps[last], last, w, first, r, rest.log, rest.errors);
      } else {
        assert steps[..last][i] == steps[i] && worlds[..|steps|][i] == worlds[i] && worlds[..|steps|][i + 1] == worlds[i + 1];
        AnsweredAmong(steps[i], i, worlds[i + 1], rest, r, first.log, first.errors);
      }
    }
  }

  // From w to v the step finished, and so did its verify.
  predicate Finishes<W(==)>(step: RollbackStep<W>, w: W, v: W) {
    match step.verify
    case None => step.rollback(w) == Finished(v)
    case Some(verify) => step.rollback(w).Finished? && verify(step.rollback(w).world) == Finished(v)
  }

  // Every rollback function and every verify finished, from the last step down.
  ghost predicate AllFinish<W(!new)>(steps: seq<RollbackStep<W>>, w: W) {
    exists worlds: seq<W> ::
      && |worlds| == |steps| + 1 && worlds[|steps|] == w
      && forall i | 0 <= i < |steps| :: Finishes(steps[i], worlds[i + 1], worlds[i])
  }

  lemma CleanIffAllFinish<W(!new)>(steps: seq<RollbackStep<W>>, w: W)
    ensures var r := Unwind(steps, w); !r.panicked && r.errors == [] <==> AllFinish(steps, w)
  {
    var r := Unwind(steps, w);
    if !r.panicked && r.errors == [] {
      var worlds, low := RollbackAnswers(steps, w);
      forall i | 0 <= i < |steps| ensures Finishes(steps[i], worlds[i + 1], worlds[i]) {
        assert Answered(steps[i], i, worlds[i + 1], r) && !StepPanics(steps[i], worlds[i + 1]);
      }
    }
    if AllFinish(steps, w) {
      var worlds :| |worlds| == |steps| + 1 && worlds[|steps|] == w &&
                    forall i | 0 <= i < |steps| :: Finishes(steps[i], worlds[i + 1], worlds[i]);
      FinishedIsClean(steps, w, worlds);
    }
  }

  lemma {:induction false} FinishedIsClean<W>(steps: seq<RollbackStep<W>>, w: W, worlds: seq<W>)
    requires |worlds| == |steps| + 1 && worlds[|steps|] == w
    requires forall i | 0 <= i < |steps| :: Finishes(steps[i], worlds[i + 1], worlds[i])
    ensures var r := Unwind(steps, w); !r.panicked && r.errors == [] && r.world == worlds[0]
  {
    if steps != [] {
      var last := |steps| - 1;
      assert Finishes(steps[last], w, worlds[last]);
      FinishedIsClean(steps[..last], worlds[last], worlds[..|steps|]);
    }
  }

  // Main result, nil: it is returned exactly when every rollback function and every verify
  // finished, the final state could be loaded, and it is the same as before.
  lemma NilMeansAllFinished<W(!new)>(steps: seq<RollbackStep<W>>, w: W,
                                    before: Result<DeploymentState, string>, after: Result<DeploymentState, string>)
    ensures Conclude(Unwind(steps, w), before, after) == Nil <==>
            && AllFinish(steps, w)
            && after.Success? && Compare(if before.Success? then before.value else ZERO, after.value) == Same
  {
    CleanIffAllFinish(steps, w);
  }

  // What a failing rollback reports: one error for each failed undo and verify, and one more, of its
  // kind, when the final state cannot be loaded or differs.
  lemma ErrorsReported<W>(steps: seq<RollbackStep<W>>, w: W,
                          before: Result<DeploymentState, string>, after: Result<DeploymentState, string>)
    requires Conclude(Unwind(steps, w), before, after).RollbackFailed?
    ensures var r := Unwind(steps, w);
            var errors := Conclude(r, before, after).errors;
            var comparison := if after.Success? then Compare(if before.Success? then before.value else ZERO, after.value)
                              else Different;
            && |errors| == Failures(r.log) + (if after.Success? && comparison == Same then 0 else 1)
            && r.errors <= errors
            && (FinalLoadFailed in errors <==> after.Failure?)
            && (StateMismatch in errors <==> after.Success? && comparison == Different)
  {
    RollbackAccounting(steps, w);
    var worlds, low := RollbackAnswers(steps, w);
  }

  // The saga.

  function Forward<W>(forwards: seq<W -> W>, w: W): W {
    if forwards == [] then w else forwards[|forwards| - 1](Forward(forwards[..|forwards| - 1], w))
  }

  // Undoing the step after its forward action gives w back, and its verify is content with w.
  predicate Undoes<W(==)>(step: RollbackStep<W>, forward: W -> W, w: W) {
    && step.rollback(forward(w)) == Finished(w)
    && (step.verify.Some? ==> step.verify.value(w) == Finished(w))
  }

  // Each step undoes its forward action in the world where that action ran.
  predicate AllUndo<W(==)>(steps: seq<RollbackStep<W>>, forwards: seq<W -> W>, w: W)
    requires |steps| == |forwards|
  {
    steps == [] ||
    (var last := |steps| - 1;
     AllUndo(steps[..last], forwards[..last], w) &&
     Undoes(steps[last], forwards[last], Forward(forwards[..last], w)))
  }

  // Main result, saga: running the actions in order of registration and unwinding the stack
  // returns to the very same world, and reports no error.
  lemma {:induction false} Saga<W>(steps: seq<RollbackStep<W>>, forwards: seq<W -> W>, w: W)
    requires |steps| == |forwards| && AllUndo(steps, forwards, w)
    ensures Unwind(steps, Forward(forwards, w)).world == w
    ensures Unwind(steps, Forward(forwards, w)).errors == []
    ensures !Unwind(steps, Forward(forwards, w)).panicked
  {
    if steps != [] {
      var last := |steps| - 1;
      Saga(steps[..last], forwards[..last], w);
      assert RunStep(steps[last], last, Forward(forwards, w)).world == Forward(forwards[..last], w);
    }
  }
}
