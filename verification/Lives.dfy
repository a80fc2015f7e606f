/** The two ends of a coroutine's life, over whole runs: it is started, and once finished it is deleted. */
module Lives {
  import opened Seqs
  import opened SleepQueue
  import opened Scheduler
  import opened SchedulerInv
  import opened SchedulerFrames
  import opened SchedulerSteps
  import opened SchedulerCoSteps
  import opened SchedulerTheorems
  import opened SchedulerRuns
  import opened Sleepers

  // ---- a new coroutine starts ----

  /** `a` is a coroutine of `p` that has not run yet. */
  predicate IsNew(s: State, p: Pid, a: Addr) {
    a in s.cos && s.cos[a].owner == p && s.cos[a].pc == Fresh
  }

  /** Only its processor's drain starts it, at the head of its function. */
  lemma NewGoesOn(s: State, step: Step, p: Pid, a: Addr)
    requires Reachable(s) && Enabled(s, step) && IsNew(s, p, a)
    ensures IsNew(Apply(s, step), p, a) || (GoesOn(s, step, p, a, User) && step == OfLoop(p, DrainOne))
  {
    var w := ReachableInv(s);
    match step
    case OfLoop(o, l) =>
      if Resumes(l) && Consumed(s, o, l) == a {
        NoWakeUpDiscarded(s, o, l);
        NewIsDrained(s, o, l, a);
      } else {
        if l.ReclaimOne? { RemovedHead(s, w, o); }
        LoopStepTouchesConsumed(s, o, l, a);
      }
    case OfCo(o, c) =>
      Executing(s, w, o);
      CoStepTouchesMe(s, o, c, a);
    case _ =>
  }

  lemma NewIsDrained(s: State, o: Pid, l: LoopStep, a: Addr)
    requires Reachable(s) && EnabledLoop(s, o, l) && Resumes(l) && Consumed(s, o, l) == a
    requires a in s.cos && s.cos[a].pc == Fresh
    ensures l == DrainOne
  {
    var w := ReachableInv(s);
    match l
    case ResumeExpired => ExpiredHead(s, w, o);
    case ResumeActive => ActiveHead(s, w, o);
    case DrainOne =>
  }

  lemma {:induction false} NewUntilStarted(
    states: seq<State>, steps: seq<Step>, p: Pid, a: Addr, i: nat, j: nat)
    requires IsRun(states, steps) && i <= j <= |steps| && IsNew(states[i], p, a)
    ensures IsNew(states[j], p, a) || GoesOnIn(states, steps, p, a, User, i, j)
  {
    if i < j {
      NewUntilStarted(states, steps, p, a, i, j - 1);
      StepAt(states, steps, j - 1);
      StateReachable(states, steps, j - 1);
      if IsNew(states[j - 1], p, a) { NewGoesOn(states[j - 1], steps[j - 1], p, a); }
    }
  }

  lemma PushedIsAdding(s: State, p: Pid, a: Addr)
    requires Reachable(s) && Enabled(s, GoNew(a)) && IsNew(s, p, a)
    ensures p < |s.procs| && p < |DoGoNew(s, a).procs| && a in DoGoNew(s, a).procs[p].adding
  {
    var w := ReachableInv(s);
    assert CoOk(s, w, a);
  }

  lemma TakenGoesOn(states: seq<State>, steps: seq<Step>, p: Pid, a: Addr, i: nat, n: nat)
    requires IsRun(states, steps) && i <= n < |steps| && IsNew(states[i], p, a)
    requires steps[n] == OfLoop(p, DrainOne) && EnabledLoop(states[n], p, DrainOne)
    requires Consumed(states[n], p, DrainOne) == a
    ensures GoesOnIn(states, steps, p, a, User, i, n + 1)
  {
    NewUntilStarted(states, steps, p, a, i, n);
    StateReachable(states, steps, n);
    if IsNew(states[n], p, a) { NoWakeUpDiscarded(states[n], p, DrainOne); }
  }

  lemma PushedGoesOn(states: seq<State>, steps: seq<Step>, p: Pid, a: Addr, k: nat, j: nat)
    requires IsRun(states, steps) && k < j <= |steps| && steps[k] == GoNew(a) && IsNew(states[k], p, a)
    requires Count(steps, OfLoop(p, Clear), k + 1, j) >= 3
    ensures GoesOnIn(states, steps, p, a, User, k, j)
  {
    StepAt(states, steps, k);
    StateReachable(states, steps, k);
    PushedIsAdding(states[k], p, a);
    DeliveredWithinTwoIterations(states, steps, p, a, k + 1, j);
    var n :| k + 1 <= n < j && steps[n] == OfLoop(p, DrainOne)
      && EnabledLoop(states[n], p, DrainOne) && Consumed(states[n], p, DrainOne) == a;
    TakenGoesOn(states, steps, p, a, k, n);
  }

  /**
   * goNewCo from end to end: what it constructs for `p` at step `i` and pushes at step `k` has the thread,
   * at the head of its function, before `p`'s third iteration from the push.
   */
  lemma NewCoroutineStarts(states: seq<State>, steps: seq<Step>, p: Pid, a: Addr, i: nat, k: nat, j: nat)
    requires IsRun(states, steps) && i < k < j <= |steps| && steps[i] == NewCo(p, a) && steps[k] == GoNew(a)
    requires Count(steps, OfLoop(p, Clear), k + 1, j) >= 3
    ensures GoesOnIn(states, steps, p, a, User, i + 1, j)
  {
    StepAt(states, steps, i);
    assert IsNew(states[i + 1], p, a);
    NewUntilStarted(states, steps, p, a, i + 1, k);
    if IsNew(states[k], p, a) { PushedGoesOn(states, steps, p, a, k, j); }
  }

  // ---- a finished coroutine is deleted ----

  /** `a`, a coroutine of `p`, has returned from its function. */
  predicate IsFinished(s: State, p: Pid, a: Addr) {
    a in s.cos && s.cos[a].owner == p && s.cos[a].pc in {Exiting, Dead}
  }

  lemma FinishedGoesOn(s: State, step: Step, p: Pid, a: Addr)
    requires Reachable(s) && Enabled(s, step) && IsFinished(s, p, a)
    ensures IsFinished(Apply(s, step), p, a)
      || (step == OfLoop(p, ReclaimOne) && Deletes(s, step, a) && a !in Apply(s, step).cos)
  {
    if Deletes(s, step, a) {
      ReclaimedIsForgotten(s, step.p);
    } else {
      FinishedStep(s, step, a);
      FinishedOwner(s, step, a);
    }
  }

  lemma FinishedOwner(s: State, step: Step, a: Addr)
    requires Enabled(s, step) && !Deletes(s, step, a) && a in s.cos && a in Apply(s, step).cos
    requires step.NewCo? ==> step.a != a
    ensures Apply(s, step).cos[a].owner == s.cos[a].owner
  {
    match step
    case OfLoop(o, l) => if l != ReclaimOne { LoopKeepsOwners(s, o, l); }
    case OfCo(o, c) => CoKeepsOwners(s, o, c);
    case _ =>
  }

  lemma {:induction false} FinishedUntilDeleted(
    states: seq<State>, steps: seq<Step>, p: Pid, a: Addr, i: nat, j: nat)
    requires IsRun(states, steps) && i <= j <= |steps| && IsFinished(states[i], p, a)
    ensures IsFinished(states[j], p, a) || exists k :: i <= k < j && Deletes(states[k], steps[k], a)
  {
    if i < j {
      FinishedUntilDeleted(states, steps, p, a, i, j - 1);
      StepAt(states, steps, j - 1);
      StateReachable(states, steps, j - 1);
      if IsFinished(states[j - 1], p, a) { FinishedGoesOn(states[j - 1], steps[j - 1], p, a); }
    }
  }

  /** At the top of the loop nobody of the processor's is finished and not yet deleted. */
  lemma NoneFinishedAtTop(s: State, p: Pid, a: Addr)
    requires Reachable(s) && p < |s.procs| && s.procs[p].stage == Top
    ensures !IsFinished(s, p, a)
  {
    var w := ReachableInv(s);
    assert ProcOk(s, p);
    assert At(s, Removed(p)) == [];
    if IsFinished(s, p, a) {
      assert CoOk(s, w, a);
      InPlace(s, w, a);
    }
  }

  /** A coroutine that returns from its function is deleted before its processor's next iteration. */
  lemma FinishedIsDeleted(states: seq<State>, steps: seq<Step>, p: Pid, i: nat, j: nat)
    requires IsRun(states, steps) && i < j <= |steps| && steps[i] == OfCo(p, Kill) && p < |states[i].procs|
    requires p < |states[j].procs| && states[j].procs[p].stage == Top
    ensures exists k :: i < k < j && Deletes(states[k], steps[k], states[i].procs[p].onCpu)
  {
    var a := states[i].procs[p].onCpu;
    StepAt(states, steps, i);
    StateReachable(states, steps, i);
    var w := ReachableInv(states[i]);
    Executing(states[i], w, p);
    FinishedUntilDeleted(states, steps, p, a, i + 1, j);
    StateReachable(states, steps, j);
    NoneFinishedAtTop(states[j], p, a);
  }
}
