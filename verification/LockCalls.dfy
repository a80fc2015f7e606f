/** rlock, wlock, runlock and wunlock from end to end, as their callers see them. */
module LockCalls {
  import opened Seqs
  import opened SleepQueue
  import opened Scheduler
  import opened SchedulerInv
  import opened SchedulerFrames
  import opened SchedulerSteps
  import opened SchedulerCoSteps
  import opened SchedulerTheorems
  import opened SchedulerRuns
  import opened Holders
  import opened WakeUps

  /** How many times `a` holds the mutex. */
  function HoldCount(u: RWMutex, a: Addr, kind: Kind): nat {
    if kind == Reading then u.readers[a] else if a != 0 && u.writer == a then 1 else 0
  }

  /** Nobody whose hold excludes one of this kind. */
  predicate Compatible(u: RWMutex, kind: Kind) {
    u.writer == 0 && (kind == Writing ==> u.readers == multiset{})
  }

  // ---- one attempt ----

  /**
   * A reader is let in iff nobody writes, a writer iff nobody holds the mutex.  Who is let in holds it
   * once more and is back in its function; who is not is the last in the wait queue, and about to yield.
   */
  lemma AttemptAdmits(s: State, p: Pid)
    requires Reachable(s) && EnabledCo(s, p, TryLock)
    ensures var me, m, kind, s' := s.procs[p].onCpu, MyPc(s, p).m, MyPc(s, p).kind, ApplyCo(s, p, TryLock);
      var u, u' := s.mutexes[m], s'.mutexes[m];
      && me in s'.cos
      && if Compatible(u, kind) then
           && s'.cos[me].pc == User && HoldCount(u', me, kind) == HoldCount(u, me, kind) + 1
           && u'.waiting == u.waiting
           && (kind == Reading ==> u'.writer == 0 && u'.readers == u.readers + multiset{me})
           && (kind == Writing ==> u'.writer == me && u'.readers == multiset{})
         else
           && BlockedOn(s'.cos[me].pc, m) && s'.cos[me].pc.why.kind == kind
           && u'.waiting == u.waiting + [me] && u'.readers == u.readers && u'.writer == u.writer
  {
    var w := ReachableInv(s);
    Executing(s, w, p);
    assert MuOk(s, MyPc(s, p).m);
  }

  // ---- one release ----

  /** An unlock ends one hold of its caller's; the mutex is then handed out iff nobody holds it any more. */
  lemma UnlockEndsHold(s: State, p: Pid, m: Mid, kind: Kind)
    requires Reachable(s) && Enabled(s, OfCo(p, Unlock(m, kind)))
    ensures var me, s' := s.procs[p].onCpu, ApplyCo(s, p, Unlock(m, kind));
      var u, u' := s.mutexes[m], s'.mutexes[m];
      && HoldCount(u', me, kind) == HoldCount(u, me, kind) - 1 && u'.waiting == u.waiting
      && (kind == Reading ==> u'.readers == u.readers - multiset{me} && u'.writer == 0)
      && (kind == Writing ==> u'.readers == multiset{} && u'.writer == 0)
      && me in s'.cos
      && if u'.readers == multiset{} then
           u'.state == MU_FREE && u'.lock == Some(p) && s'.cos[me].pc == Freeing(m)
         else
           u'.state == MU_READING && u'.lock == None && s'.cos[me].pc == User
  {
    var w := ReachableInv(s);
    Executing(s, w, p);
    assert MuOk(s, m);
    if kind == Reading { OneReaderLess(s.mutexes[m].readers, s.procs[p].onCpu); }
  }

  lemma OneReaderLess(readers: multiset<Addr>, a: Addr)
    requires a in readers
    ensures readers - multiset{a} == multiset{} <==> |readers| == 1
  {
    var rest := readers - multiset{a};
    assert readers == rest + multiset{a};
    if x :| x in rest { assert rest == (rest - multiset{x}) + multiset{x}; }
  }

  // ---- the whole call ----

  /** `a`, a coroutine of `p`, has called rlock or wlock, and has not returned. */
  predicate Calling(s: State, p: Pid, a: Addr, m: Mid, kind: Kind) {
    (a in s.cos && s.cos[a].owner == p && s.cos[a].pc == Attempt(m, kind)) || Waits(s, p, a, m, kind)
  }

  lemma CoKeepsCount(s: State, o: Pid, c: CoStep, m: Mid, a: Addr, kind: Kind)
    requires EnabledCo(s, o, c) && Disciplined(s, o, c) && m < |s.mutexes| && s.procs[o].onCpu != a
    requires MutexOk(s.mutexes[m])
    ensures |ApplyCo(s, o, c).mutexes| == |s.mutexes|
    ensures HoldCount(ApplyCo(s, o, c).mutexes[m], a, kind) == HoldCount(s.mutexes[m], a, kind)
  {
    if !MutexCall(c) {
      OthersLeaveMutexes(s, o, c);
    } else if c.TryLock? {
      TryKeepsCount(s, o, m, a, kind);
    } else if c.Unlock? {
      UnlockKeepsCount(s, o, c.m, c.kind, m, a, kind);
    }
  }

  lemma TryKeepsCount(s: State, o: Pid, m: Mid, a: Addr, kind: Kind)
    requires EnabledCo(s, o, TryLock) && m < |s.mutexes| && s.procs[o].onCpu != a && MutexOk(s.mutexes[m])
    ensures |ApplyCo(s, o, TryLock).mutexes| == |s.mutexes|
    ensures HoldCount(ApplyCo(s, o, TryLock).mutexes[m], a, kind) == HoldCount(s.mutexes[m], a, kind)
  {
  }

  lemma UnlockKeepsCount(s: State, o: Pid, n: Mid, k: Kind, m: Mid, a: Addr, kind: Kind)
    requires EnabledCo(s, o, Unlock(n, k)) && Disciplined(s, o, Unlock(n, k))
    requires m < |s.mutexes| && s.procs[o].onCpu != a
    ensures |ApplyCo(s, o, Unlock(n, k)).mutexes| == |s.mutexes|
    ensures HoldCount(ApplyCo(s, o, Unlock(n, k)).mutexes[m], a, kind) == HoldCount(s.mutexes[m], a, kind)
  {
  }

  /** Other threads' steps leave a coroutine's holds alone. */
  lemma StepKeepsCount(s: State, step: Step, m: Mid, a: Addr, kind: Kind)
    requires Reachable(s) && Enabled(s, step) && m < |s.mutexes|
    requires step.OfCo? ==> s.procs[step.p].onCpu != a
    ensures |Apply(s, step).mutexes| == |s.mutexes|
    ensures HoldCount(Apply(s, step).mutexes[m], a, kind) == HoldCount(s.mutexes[m], a, kind)
  {
    var w := ReachableInv(s);
    assert MuOk(s, m);
    match step
    case OfLoop(o, l) => LoopLeavesMutexes(s, o, l);
    case OfCo(o, c) => CoKeepsCount(s, o, c, m, a, kind);
    case _ =>
  }

  /** In the call, or back from it with one hold more than `held`. */
  ghost predicate InCall(s: State, p: Pid, a: Addr, m: Mid, kind: Kind, held: nat) {
    m < |s.mutexes| && Calling(s, p, a, m, kind) && HoldCount(s.mutexes[m], a, kind) == held
  }

  ghost predicate Back(s: State, a: Addr, m: Mid, kind: Kind, held: nat) {
    m < |s.mutexes| && a in s.cos && s.cos[a].pc == User && HoldCount(s.mutexes[m], a, kind) == held + 1
  }

  lemma CallGoesOn(s: State, step: Step, p: Pid, a: Addr, m: Mid, kind: Kind, held: nat)
    requires Reachable(s) && Enabled(s, step) && InCall(s, p, a, m, kind, held)
    ensures InCall(Apply(s, step), p, a, m, kind, held) || Back(Apply(s, step), a, m, kind, held)
  {
    if step.OfCo? && s.procs[step.p].onCpu == a {
      MyCallGoesOn(s, step.p, step.c, m, kind, held);
    } else {
      StepKeepsCount(s, step, m, a, kind);
      OthersLeaveCall(s, step, p, a, m, kind);
    }
  }

  lemma OthersLeaveCall(s: State, step: Step, p: Pid, a: Addr, m: Mid, kind: Kind)
    requires Reachable(s) && Enabled(s, step) && Calling(s, p, a, m, kind)
    requires !(step.OfCo? && s.procs[step.p].onCpu == a)
    ensures Calling(Apply(s, step), p, a, m, kind)
  {
    if Waits(s, p, a, m, kind) {
      StillWaits(s, step, p, a, m, kind);
    } else {
      AttemptStays(s, step, a);
    }
  }

  lemma MyCallGoesOn(s: State, p: Pid, c: CoStep, m: Mid, kind: Kind, held: nat)
    requires Reachable(s) && EnabledCo(s, p, c) && Disciplined(s, p, c)
    requires InCall(s, s.cos[s.procs[p].onCpu].owner, s.procs[p].onCpu, m, kind, held)
    ensures var s', a := ApplyCo(s, p, c), s.procs[p].onCpu;
      InCall(s', s.cos[a].owner, a, m, kind, held) || Back(s', a, m, kind, held)
  {
    var w := ReachableInv(s);
    Executing(s, w, p);
    if c.TryLock? {
      AttemptAdmits(s, p);
      TryKeepsOwner(s, p);
    } else {
      assert c.Yield? || c.Switch?;
      OthersLeaveMutexes(s, p, c);
    }
  }

  lemma TryKeepsOwner(s: State, p: Pid)
    requires EnabledCo(s, p, TryLock)
    ensures var s', me := ApplyCo(s, p, TryLock), s.procs[p].onCpu;
      me in s'.cos && s'.cos[me].owner == s.cos[me].owner && |s'.mutexes| == |s.mutexes|
  {
  }

  lemma AttemptStays(s: State, step: Step, a: Addr)
    requires Reachable(s) && Enabled(s, step) && a in s.cos && s.cos[a].pc.Attempt?
    requires !(step.OfCo? && s.procs[step.p].onCpu == a)
    ensures a in Apply(s, step).cos && Apply(s, step).cos[a] == s.cos[a]
  {
    var w := ReachableInv(s);
    match step
    case OfLoop(o, l) =>
      if Resumes(l) && Consumed(s, o, l) == a { NoWakeUpDiscarded(s, o, l); }
      if l.ReclaimOne? { RemovedHead(s, w, o); }
      LoopStepTouchesConsumed(s, o, l, a);
    case OfCo(o, c) =>
      Executing(s, w, o);
      CoStepTouchesMe(s, o, c, a);
    case _ =>
  }

  lemma CallBegins(s: State, p: Pid, m: Mid, kind: Kind)
    requires Reachable(s) && EnabledCo(s, p, CallLock(m, kind))
    ensures InCall(ApplyCo(s, p, CallLock(m, kind)), p, s.procs[p].onCpu, m, kind,
      HoldCount(s.mutexes[m], s.procs[p].onCpu, kind))
  {
    var w := ReachableInv(s);
    Executing(s, w, p);
  }

  lemma {:induction false} InCallUntil(
    states: seq<State>, steps: seq<Step>, p: Pid, a: Addr, m: Mid, kind: Kind, held: nat, i: nat, j: nat)
    requires IsRun(states, steps) && i < j <= |steps| && InCall(states[i], p, a, m, kind, held)
    requires forall k :: i <= k < j ==> a in states[k].cos && states[k].cos[a].pc != User
    ensures InCall(states[j], p, a, m, kind, held) || Back(states[j], a, m, kind, held)
  {
    if i + 1 < j { InCallUntil(states, steps, p, a, m, kind, held, i, j - 1); }
    StepAt(states, steps, j - 1);
    StateReachable(states, steps, j - 1);
    CallGoesOn(states[j - 1], steps[j - 1], p, a, m, kind, held);
  }

  /** A lock call that returns, returns with exactly one more hold of the kind that was called for. */
  lemma LockCallReturns(states: seq<State>, steps: seq<Step>, p: Pid, m: Mid, kind: Kind, i: nat, j: nat)
    requires IsRun(states, steps) && i + 1 < j <= |steps| && steps[i] == OfCo(p, CallLock(m, kind))
    requires p < |states[i].procs| && m < |states[i].mutexes|
    requires var a := states[i].procs[p].onCpu;
      && (forall k :: i < k < j ==> a in states[k].cos && states[k].cos[a].pc != User)
      && a in states[j].cos && states[j].cos[a].pc == User
    ensures m < |states[j].mutexes|
    ensures var a := states[i].procs[p].onCpu;
      HoldCount(states[j].mutexes[m], a, kind) == HoldCount(states[i].mutexes[m], a, kind) + 1
  {
    var a := states[i].procs[p].onCpu;
    StepAt(states, steps, i);
    StateReachable(states, steps, i);
    CallBegins(states[i], p, m, kind);
    InCallUntil(states, steps, p, a, m, kind, HoldCount(states[i].mutexes[m], a, kind), i + 1, j);
  }
}
