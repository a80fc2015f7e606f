/** The wake-up of a mutex from end to end: from the last unlock to the waiter's next attempt. */
module WakeUps {
  import opened SleepQueue
  import opened Scheduler
  import opened SchedulerInv
  import opened SchedulerFrames
  import opened SchedulerSteps
  import opened SchedulerCoSteps
  import opened SchedulerTheorems
  import opened SchedulerRuns

  /** `a`, a coroutine of `p`, is blocked in a call for `m`. */
  predicate Waits(s: State, p: Pid, a: Addr, m: Mid, kind: Kind) {
    a in s.cos && s.cos[a].owner == p && BlockedOn(s.cos[a].pc, m) && s.cos[a].pc.why.kind == kind
  }

  /** Everyone in the wait queue does. */
  lemma WaiterWaits(s: State, m: Mid, a: Addr) returns (p: Pid, kind: Kind)
    requires Reachable(s) && m < |s.mutexes| && a in s.mutexes[m].waiting
    ensures p < |s.procs| && Waits(s, p, a, m, kind)
  {
    var w := ReachableInv(s);
    PlaceOf(s, w, WaitQ(m), a);
    assert CoOk(s, w, a);
    p, kind := s.cos[a].owner, s.cos[a].pc.why.kind;
  }

  /** The step gives the thread to `a`, which is back at the head of rlock or wlock. */
  ghost predicate Retries(s: State, step: Step, p: Pid, a: Addr, m: Mid, kind: Kind) {
    && step == OfLoop(p, DrainOne) && Enabled(s, step) && InCo(Apply(s, step), p)
    && Apply(s, step).procs[p].onCpu == a && MyPc(Apply(s, step), p) == Attempt(m, kind)
  }

  /** Only its processor's drain resumes a coroutine that waits for a mutex. */
  lemma ConsumedIsRetry(s: State, o: Pid, l: LoopStep, p: Pid, a: Addr, m: Mid, kind: Kind)
    requires Reachable(s) && Waits(s, p, a, m, kind)
    requires EnabledLoop(s, o, l) && Resumes(l) && Consumed(s, o, l) == a
    ensures Retries(s, OfLoop(o, l), p, a, m, kind)
  {
    var w := ReachableInv(s);
    NoWakeUpDiscarded(s, o, l);
    match l
    case ResumeExpired => ExpiredHead(s, w, o);
    case ResumeActive => ActiveHead(s, w, o);
    case DrainOne =>
  }

  lemma StillWaits(s: State, step: Step, p: Pid, a: Addr, m: Mid, kind: Kind)
    requires Reachable(s) && Enabled(s, step) && Waits(s, p, a, m, kind)
    ensures Waits(Apply(s, step), p, a, m, kind) || Retries(s, step, p, a, m, kind)
  {
    var w := ReachableInv(s);
    match step
    case OfLoop(o, l) =>
      if Resumes(l) && Consumed(s, o, l) == a {
        ConsumedIsRetry(s, o, l, p, a, m, kind);
      } else {
        if l.ReclaimOne? { RemovedHead(s, w, o); }
        LoopStepTouchesConsumed(s, o, l, a);
      }
    case OfCo(o, c) =>
      Executing(s, w, o);
      if a != s.procs[o].onCpu { CoStepTouchesMe(s, o, c, a); }
    case _ =>
  }

  ghost predicate RetriesIn(
    states: seq<State>, steps: seq<Step>, p: Pid, a: Addr, m: Mid, kind: Kind, i: nat, j: nat)
    requires IsRun(states, steps) && j <= |steps|
  {
    exists k :: i <= k < j && Retries(states[k], steps[k], p, a, m, kind)
  }

  lemma {:induction false} WaitsUntilRetry(
    states: seq<State>, steps: seq<Step>, p: Pid, a: Addr, m: Mid, kind: Kind, i: nat, j: nat)
    requires IsRun(states, steps) && i <= j <= |steps| && Waits(states[i], p, a, m, kind)
    ensures Waits(states[j], p, a, m, kind) || RetriesIn(states, steps, p, a, m, kind, i, j)
  {
    if i < j {
      WaitsUntilRetry(states, steps, p, a, m, kind, i, j - 1);
      StepAt(states, steps, j - 1);
      StateReachable(states, steps, j - 1);
      if Waits(states[j - 1], p, a, m, kind) { StillWaits(states[j - 1], steps[j - 1], p, a, m, kind); }
    }
  }

  /** Whoever is among the woken was popped at some step. */
  lemma {:induction false} WokenAt(states: seq<State>, steps: seq<Step>, m: Mid, a: Addr, i: nat, j: nat)
    returns (k: nat)
    requires i <= j <= |steps| <= |states| && a in WokenOn(states, steps, m, i, j)
    ensures i <= k < j && WakesOn(states[k], steps[k], m) && states[k].mutexes[m].waiting[0] == a
  {
    if WakesOn(states[j - 1], steps[j - 1], m) && states[j - 1].mutexes[m].waiting[0] == a {
      k := j - 1;
    } else {
      k := WokenAt(states, steps, m, a, i, j - 1);
    }
  }

  lemma {:induction false} LaterCountsLess(steps: seq<Step>, what: Step, i: nat, k: nat, j: nat)
    requires i <= k <= j <= |steps|
    ensures Count(steps, what, k, j) <= Count(steps, what, i, j)
  {
    if k < j { LaterCountsLess(steps, what, i, k, j - 1); }
  }

  /** A waiter that freeLock pops is back in its lock call before its processor's third iteration from then. */
  lemma PoppedRetries(
    states: seq<State>, steps: seq<Step>, p: Pid, a: Addr, m: Mid, kind: Kind, k: nat, j: nat)
    requires IsRun(states, steps) && k < j <= |steps| && Waits(states[k], p, a, m, kind)
    requires WakesOn(states[k], steps[k], m) && states[k].mutexes[m].waiting[0] == a
    requires Count(steps, OfLoop(p, Clear), k + 1, j) >= 3
    ensures RetriesIn(states, steps, p, a, m, kind, k, j)
  {
    StepAt(states, steps, k);
    StateReachable(states, steps, k);
    WakeReachesOwner(states[k], steps[k].p);
    DeliveredWithinTwoIterations(states, steps, p, a, k + 1, j);
    var n :| k + 1 <= n < j && steps[n] == OfLoop(p, DrainOne)
      && EnabledLoop(states[n], p, DrainOne) && Consumed(states[n], p, DrainOne) == a;
    WaitsUntilRetry(states, steps, p, a, m, kind, k, n);
    StateReachable(states, steps, n);
    if Waits(states[n], p, a, m, kind) { ConsumedIsRetry(states[n], p, DrainOne, p, a, m, kind); }
  }

  /**
   * No wake-up is lost.  Whoever is in the wait queue while freeLock holds lock_ is executing again, at
   * the head of the lock call it blocked in, before its processor starts its third iteration after lock_
   * was released.
   */
  lemma WaiterRetries(
    states: seq<State>, steps: seq<Step>, p: Pid, a: Addr, m: Mid, kind: Kind, i: nat, r: nat, j: nat)
    requires IsRun(states, steps) && i <= r < j <= |steps| && m < |states[i].mutexes|
    requires a in states[i].mutexes[m].waiting && Waits(states[i], p, a, m, kind)
    requires forall k :: i <= k <= r ==> m < |states[k].mutexes| && states[k].mutexes[m].lock.Some?
    requires m < |states[r + 1].mutexes| && states[r + 1].mutexes[m].lock.None?
    requires Count(steps, OfLoop(p, Clear), r + 1, j) >= 3
    ensures RetriesIn(states, steps, p, a, m, kind, i, j)
  {
    ReleaseMeansAllWoken(states, steps, m, i, r);
    var k := WokenAt(states, steps, m, a, i, r);
    WaitsUntilRetry(states, steps, p, a, m, kind, i, k);
    if Waits(states[k], p, a, m, kind) {
      LaterCountsLess(steps, OfLoop(p, Clear), k + 1, r + 1, j);
      PoppedRetries(states, steps, p, a, m, kind, k, j);
    }
  }
}
