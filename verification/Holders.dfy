/**
 * Who holds a mutex, and whether it can ever be given back.  The library lets a coroutine finish
 * while it holds a mutex, and lets it lock a mutex that it holds; these are the two mistakes after
 * which a waiter waits for nobody.  Without them every waiter waits for another, living coroutine.
 */
module Holders {
  import opened Seqs
  import opened SleepQueue
  import opened Scheduler
  import opened SchedulerInv
  import opened SchedulerFrames
  import opened SchedulerSteps
  import opened SchedulerCoSteps
  import opened SchedulerTheorems
  import opened SchedulerRuns

  /** `a` returned from the lock call of this kind and has not called its counterpart. */
  predicate Holds(u: RWMutex, a: Addr, kind: Kind) {
    if kind == Reading then a in u.readers else a != 0 && a == u.writer
  }

  /** `a` is constructed and has not finished. */
  predicate Alive(s: State, a: Addr) {
    a in s.cos && !s.cos[a].pc.Exiting? && !s.cos[a].pc.Dead?
  }

  ghost predicate HoldersAlive(s: State) {
    forall m, a, kind {:trigger Holds(s.mutexes[m], a, kind)} ::
      0 <= m < |s.mutexes| && Holds(s.mutexes[m], a, kind) ==> Alive(s, a)
  }

  // ---- what a step does to holds and lives ----

  predicate TriesAs(s: State, step: Step, a: Addr) {
    step.OfCo? && step.c.TryLock? && step.p < |s.procs| && s.procs[step.p].onCpu == a
  }

  predicate UnlocksAs(s: State, step: Step, a: Addr) {
    step.OfCo? && step.c.Unlock? && step.p < |s.procs| && s.procs[step.p].onCpu == a
  }

  predicate KillsAs(s: State, step: Step, a: Addr) {
    step.OfCo? && step.c.Kill? && step.p < |s.procs| && s.procs[step.p].onCpu == a
  }

  predicate MutexCall(c: CoStep) {
    c.TryLock? || c.Unlock? || c.WakeOne? || c.WakeDone?
  }

  lemma OthersLeaveMutexes(s: State, p: Pid, c: CoStep)
    requires EnabledCo(s, p, c) && !MutexCall(c)
    ensures ApplyCo(s, p, c).mutexes == s.mutexes
  {
  }

  lemma CoHolds(s: State, p: Pid, c: CoStep, m: Mid, a: Addr, kind: Kind)
    requires EnabledCo(s, p, c) && MutexCall(c) && m < |s.mutexes| && s.procs[p].onCpu != a
    requires c.Unlock? && c.kind == Writing ==> s.mutexes[c.m].writer == s.procs[p].onCpu
    requires MutexOk(s.mutexes[m])
    ensures |ApplyCo(s, p, c).mutexes| == |s.mutexes|
    ensures Holds(ApplyCo(s, p, c).mutexes[m], a, kind) <==> Holds(s.mutexes[m], a, kind)
  {
  }

  lemma CoHoldsMine(s: State, p: Pid, c: CoStep, m: Mid, kind: Kind)
    requires EnabledCo(s, p, c) && (c.WakeOne? || c.WakeDone?) && m < |s.mutexes|
    ensures |ApplyCo(s, p, c).mutexes| == |s.mutexes|
    ensures Holds(ApplyCo(s, p, c).mutexes[m], s.procs[p].onCpu, kind) <==> Holds(s.mutexes[m], s.procs[p].onCpu, kind)
  {
  }

  /** Only a coroutine's own lock and unlock calls change what it holds. */
  lemma HoldsChange(s: State, step: Step, m: Mid, a: Addr, kind: Kind)
    requires Reachable(s) && Enabled(s, step) && m < |s.mutexes| && !TriesAs(s, step, a) && !UnlocksAs(s, step, a)
    ensures |Apply(s, step).mutexes| == |s.mutexes|
    ensures Holds(Apply(s, step).mutexes[m], a, kind) <==> Holds(s.mutexes[m], a, kind)
  {
    var w := ReachableInv(s);
    assert MuOk(s, m);
    match step
    case OfLoop(p, l) => LoopLeavesMutexes(s, p, l);
    case OfCo(p, c) =>
      if !MutexCall(c) {
        OthersLeaveMutexes(s, p, c);
      } else if s.procs[p].onCpu == a {
        CoHoldsMine(s, p, c, m, kind);
      } else {
        CoHolds(s, p, c, m, a, kind);
      }
    case _ =>
  }

  /** A hold ends only by the holder's own unlock call. */
  lemma HoldKept(s: State, step: Step, m: Mid, a: Addr, kind: Kind)
    requires Reachable(s) && Enabled(s, step) && m < |s.mutexes| && Holds(s.mutexes[m], a, kind)
    requires UnlocksAs(s, step, a) ==> step.c != Unlock(m, kind)
    ensures |Apply(s, step).mutexes| == |s.mutexes| && Holds(Apply(s, step).mutexes[m], a, kind)
  {
    var w := ReachableInv(s);
    assert MuOk(s, m);
    if TriesAs(s, step, a) {
    } else if UnlocksAs(s, step, a) {
    } else {
      HoldsChange(s, step, m, a, kind);
    }
  }

  /** A hold begins only by the holder's own lock call. */
  lemma HoldBegins(s: State, step: Step, m: Mid, a: Addr, kind: Kind)
    requires Reachable(s) && Enabled(s, step) && m < |s.mutexes| && m < |Apply(s, step).mutexes|
    requires Holds(Apply(s, step).mutexes[m], a, kind) && !TriesAs(s, step, a)
    ensures Holds(s.mutexes[m], a, kind)
  {
    var w := ReachableInv(s);
    assert MuOk(s, m);
    if UnlocksAs(s, step, a) {
    } else {
      HoldsChange(s, step, m, a, kind);
    }
  }

  lemma CoAlive(s: State, p: Pid, c: CoStep)
    requires EnabledCo(s, p, c) && s.procs[p].cur == s.procs[p].onCpu
    ensures s.procs[p].onCpu in ApplyCo(s, p, c).cos
    ensures var pc := ApplyCo(s, p, c).cos[s.procs[p].onCpu].pc;
      (c.Kill? || c.Exit? <==> pc.Exiting? || pc.Dead?) && (c.Kill? ==> pc.Exiting?)
  {
  }

  lemma LoopAlive(s: State, p: Pid, l: LoopStep, a: Addr)
    requires Reachable(s) && EnabledLoop(s, p, l) && Alive(s, a)
    ensures Alive(ApplyLoop(s, p, l), a)
  {
    if Resumes(l) && Consumed(s, p, l) == a {
      var w := ReachableInv(s);
      if a != 0 { NoWakeUpDiscarded(s, p, l); }
    } else {
      if l.ReclaimOne? { ReclaimedIsForgotten(s, p); }
      LoopStepTouchesConsumed(s, p, l, a);
    }
  }

  /** A life ends only by the coroutine's own return from its function. */
  lemma AliveKept(s: State, step: Step, a: Addr)
    requires Reachable(s) && Enabled(s, step) && Alive(s, a) && !KillsAs(s, step, a)
    ensures Alive(Apply(s, step), a)
  {
    match step
    case OfLoop(p, l) => LoopAlive(s, p, l, a);
    case OfCo(p, c) =>
      var w := ReachableInv(s);
      Executing(s, w, p);
      if s.procs[p].onCpu == a { CoAlive(s, p, c); } else { CoStepTouchesMe(s, p, c, a); }
    case _ =>
  }

  // ---- finishing while holding ----

  ghost predicate HoldsSome(s: State, a: Addr) {
    exists m, kind {:trigger Holds(s.mutexes[m], a, kind)} :: 0 <= m < |s.mutexes| && Holds(s.mutexes[m], a, kind)
  }

  /** The executing coroutine's function returns although it holds a mutex. */
  ghost predicate FinishesHolding(s: State, step: Step) {
    step.OfCo? && step.c.Kill? && step.p < |s.procs| && HoldsSome(s, s.procs[step.p].onCpu)
  }

  lemma LivesKept(s: State, step: Step)
    requires Reachable(s) && Enabled(s, step) && HoldersAlive(s) && !FinishesHolding(s, step)
    ensures HoldersAlive(Apply(s, step))
  {
    var s' := Apply(s, step);
    forall m, a, kind | 0 <= m < |s'.mutexes| && Holds(s'.mutexes[m], a, kind) ensures Alive(s', a) {
      SameMutexCount(s, step);
      if TriesAs(s, step, a) {
        var w := ReachableInv(s);
        Executing(s, w, step.p);
        CoAlive(s, step.p, step.c);
      } else {
        HoldBegins(s, step, m, a, kind);
        AliveKept(s, step, a);
      }
    }
  }

  lemma SameMutexCount(s: State, step: Step)
    requires Enabled(s, step)
    ensures |Apply(s, step).mutexes| == |s.mutexes|
  {
    match step
    case OfLoop(p, l) => LoopLeavesMutexes(s, p, l);
    case _ =>
  }

  /** As long as every holder is alive, exactly a holder's own finish changes that. */
  lemma HolderDiesIff(s: State, step: Step)
    requires Reachable(s) && Enabled(s, step) && HoldersAlive(s)
    ensures HoldersAlive(Apply(s, step)) <==> !FinishesHolding(s, step)
  {
    if FinishesHolding(s, step) {
      var s' := Apply(s, step);
      var me := s.procs[step.p].onCpu;
      var m, kind :| 0 <= m < |s.mutexes| && Holds(s.mutexes[m], me, kind);
      var w := ReachableInv(s);
      Executing(s, w, step.p);
      CoAlive(s, step.p, step.c);
      HoldKept(s, step, m, me, kind);
      assert !Alive(s', me);
    } else {
      LivesKept(s, step);
    }
  }

  /** Over a whole run: every holder was alive all along if and only if no holder ever finished. */
  lemma {:induction false} HoldersAliveIff(states: seq<State>, steps: seq<Step>, n: nat)
    requires IsRun(states, steps) && n <= |steps|
    ensures (forall i :: 0 <= i <= n ==> HoldersAlive(states[i]))
       <==> (forall k :: 0 <= k < n ==> !FinishesHolding(states[k], steps[k]))
  {
    if n == 0 {
      assert HoldersAlive(states[0]);
    } else {
      HoldersAliveIff(states, steps, n - 1);
      StepAt(states, steps, n - 1);
      StateReachable(states, steps, n - 1);
      if HoldersAlive(states[n - 1]) { HolderDiesIff(states[n - 1], steps[n - 1]); }
    }
  }

  // ---- locking what one holds ----

  predicate HoldsEither(u: RWMutex, a: Addr) {
    Holds(u, a, Reading) || Holds(u, a, Writing)
  }

  /** A call that its own caller keeps from being granted: to write what one holds, or to read what one writes. */
  predicate OwnCall(u: RWMutex, a: Addr, kind: Kind) {
    Holds(u, a, Writing) || (kind == Writing && Holds(u, a, Reading))
  }

  predicate LocksOwn(s: State, step: Step) {
    && step.OfCo? && step.c.CallLock? && step.p < |s.procs| && step.c.m < |s.mutexes|
    && OwnCall(s.mutexes[step.c.m], s.procs[step.p].onCpu, step.c.kind)
  }

  /** `a` is in a lock call for `m` that it keeps from being granted. */
  predicate WaitsForItself(u: RWMutex, a: Addr, pc: Pc, m: Mid) {
    (BlockedOn(pc, m) && HoldsEither(u, a)) || (pc.Attempt? && pc.m == m && OwnCall(u, a, pc.kind))
  }

  ghost predicate NobodyWaitsForItself(s: State) {
    forall a, m {:trigger WaitsForItself(s.mutexes[m], a, s.cos[a].pc, m)} ::
      a in s.cos && 0 <= m < |s.mutexes| ==> !WaitsForItself(s.mutexes[m], a, s.cos[a].pc, m)
  }

  /** A refused call is one that a holder keeps from being granted, and that is not its caller. */
  lemma MyTry(s: State, p: Pid, m: Mid)
    requires EnabledCo(s, p, TryLock) && m < |s.mutexes| && MutexOk(s.mutexes[m])
    requires !WaitsForItself(s.mutexes[m], s.procs[p].onCpu, MyPc(s, p), m)
    ensures var s' := ApplyCo(s, p, TryLock);
      && s.procs[p].onCpu in s'.cos && |s'.mutexes| == |s.mutexes|
      && !WaitsForItself(s'.mutexes[m], s.procs[p].onCpu, s'.cos[s.procs[p].onCpu].pc, m)
  {
  }

  lemma MyWait(s: State, p: Pid, c: CoStep, m: Mid)
    requires EnabledCo(s, p, c) && Disciplined(s, p, c) && s.procs[p].cur == s.procs[p].onCpu
    requires m < |s.mutexes| && MutexOk(s.mutexes[m]) && !c.TryLock?
    requires !WaitsForItself(s.mutexes[m], s.procs[p].onCpu, MyPc(s, p), m)
    ensures var s' := ApplyCo(s, p, c);
      && s.procs[p].onCpu in s'.cos && |s'.mutexes| == |s.mutexes|
      && (WaitsForItself(s'.mutexes[m], s.procs[p].onCpu, s'.cos[s.procs[p].onCpu].pc, m)
          <==> LocksOwn(s, OfCo(p, c)) && c.m == m)
  {
  }

  lemma OtherWait(s: State, step: Step, a: Addr, m: Mid)
    requires Reachable(s) && Enabled(s, step) && m < |s.mutexes| && a in s.cos
    requires step.OfCo? && s.procs[step.p].onCpu != a
    ensures |Apply(s, step).mutexes| == |s.mutexes| && a in Apply(s, step).cos
    ensures WaitsForItself(Apply(s, step).mutexes[m], a, Apply(s, step).cos[a].pc, m)
       <==> WaitsForItself(s.mutexes[m], a, s.cos[a].pc, m)
  {
    var w := ReachableInv(s);
    Executing(s, w, step.p);
    CoStepTouchesMe(s, step.p, step.c, a);
    HoldsChange(s, step, m, a, Reading);
    HoldsChange(s, step, m, a, Writing);
  }

  lemma LoopWait(s: State, p: Pid, l: LoopStep, a: Addr, m: Mid)
    requires Reachable(s) && EnabledLoop(s, p, l) && m < |s.mutexes| && a in s.cos && a in ApplyLoop(s, p, l).cos
    requires !WaitsForItself(s.mutexes[m], a, s.cos[a].pc, m)
    ensures |ApplyLoop(s, p, l).mutexes| == |s.mutexes|
    ensures !WaitsForItself(ApplyLoop(s, p, l).mutexes[m], a, ApplyLoop(s, p, l).cos[a].pc, m)
  {
    LoopLeavesMutexes(s, p, l);
    var w := ReachableInv(s);
    if Resumes(l) && Consumed(s, p, l) == a {
      NoWakeUpDiscarded(s, p, l);
    } else {
      if l.ReclaimOne? { ReclaimedIsForgotten(s, p); }
      LoopStepTouchesConsumed(s, p, l, a);
    }
  }

  lemma NoNewCoWaits(s: State, step: Step, a: Addr)
    requires Reachable(s) && Enabled(s, step) && a !in s.cos && a in Apply(s, step).cos
    ensures Apply(s, step).cos[a].pc == Fresh
  {
    match step
    case OfLoop(p, l) => if l.ReclaimOne? { ReclaimedIsForgotten(s, p); } else { LoopKeepsOwners(s, p, l); }
    case OfCo(p, c) => CoKeepsOwners(s, p, c);
    case _ =>
  }

  lemma WaitAfter(s: State, step: Step, a: Addr, m: Mid)
    requires Reachable(s) && Enabled(s, step) && NobodyWaitsForItself(s) && !LocksOwn(s, step)
    requires a in Apply(s, step).cos && m < |s.mutexes|
    ensures |Apply(s, step).mutexes| == |s.mutexes|
    ensures !WaitsForItself(Apply(s, step).mutexes[m], a, Apply(s, step).cos[a].pc, m)
  {
    SameMutexCount(s, step);
    if a !in s.cos {
      NoNewCoWaits(s, step, a);
    } else {
      assert !WaitsForItself(s.mutexes[m], a, s.cos[a].pc, m);
      match step
      case OfLoop(p, l) => LoopWait(s, p, l, a, m);
      case OfCo(p, c) => if s.procs[p].onCpu == a { MyWaitStep(s, p, c, m); } else { OtherWait(s, step, a, m); }
      case _ =>
    }
  }

  lemma MyWaitStep(s: State, p: Pid, c: CoStep, m: Mid)
    requires Reachable(s) && Enabled(s, OfCo(p, c)) && m < |s.mutexes|
    requires !WaitsForItself(s.mutexes[m], s.procs[p].onCpu, MyPc(s, p), m)
    ensures var s' := ApplyCo(s, p, c);
      && s.procs[p].onCpu in s'.cos && |s'.mutexes| == |s.mutexes|
      && (WaitsForItself(s'.mutexes[m], s.procs[p].onCpu, s'.cos[s.procs[p].onCpu].pc, m)
          <==> LocksOwn(s, OfCo(p, c)) && c.m == m)
  {
    var w := ReachableInv(s);
    assert MuOk(s, m);
    Executing(s, w, p);
    if c.TryLock? { MyTry(s, p, m); } else { MyWait(s, p, c, m); }
  }

  /** As long as nobody waits for itself, exactly a call for a mutex one holds changes that. */
  lemma WaitsForItselfIff(s: State, step: Step)
    requires Reachable(s) && Enabled(s, step) && NobodyWaitsForItself(s)
    ensures NobodyWaitsForItself(Apply(s, step)) <==> !LocksOwn(s, step)
  {
    var s' := Apply(s, step);
    if LocksOwn(s, step) {
      assert !WaitsForItself(s.mutexes[step.c.m], s.procs[step.p].onCpu, MyPc(s, step.p), step.c.m);
      MyWaitStep(s, step.p, step.c, step.c.m);
    } else {
      SameMutexCount(s, step);
      forall a, m | a in s'.cos && 0 <= m < |s'.mutexes| ensures !WaitsForItself(s'.mutexes[m], a, s'.cos[a].pc, m) {
        WaitAfter(s, step, a, m);
      }
    }
  }

  // ---- progress ----

  /** Clients that finish only when they hold nothing, and never wait for a mutex they hold. */
  ghost predicate Careful(s: State, step: Step) {
    !FinishesHolding(s, step) && !LocksOwn(s, step)
  }

  lemma {:induction false} CarefulRun(states: seq<State>, steps: seq<Step>, n: nat)
    requires IsRun(states, steps) && n <= |steps|
    requires forall k :: 0 <= k < n ==> Careful(states[k], steps[k])
    ensures HoldersAlive(states[n]) && NobodyWaitsForItself(states[n])
  {
    if n == 0 {
      assert states[0].cos == map[];
    } else {
      CarefulRun(states, steps, n - 1);
      StepAt(states, steps, n - 1);
      StateReachable(states, steps, n - 1);
      HolderDiesIff(states[n - 1], steps[n - 1]);
      WaitsForItselfIff(states[n - 1], steps[n - 1]);
    }
  }

  /** Another coroutine, alive, holds the mutex. */
  ghost predicate HeldByAnother(s: State, m: Mid, a: Addr)
    requires m < |s.mutexes|
  {
    exists b, kind {:trigger Holds(s.mutexes[m], b, kind)} :: b != a && Holds(s.mutexes[m], b, kind) && Alive(s, b)
  }

  /** Another coroutine is inside freeLock, handing out wake-ups. */
  ghost predicate ReleasedByAnother(s: State, m: Mid, a: Addr)
    requires m < |s.mutexes|
  {
    var u := s.mutexes[m];
    u.lock.Some? && InCo(s, u.lock.value) && MyPc(s, u.lock.value) == Freeing(m) && s.procs[u.lock.value].onCpu != a
  }

  lemma SomeHolder(u: RWMutex)
    requires MutexOk(u) && u.state != MU_FREE
    ensures exists b, kind {:trigger Holds(u, b, kind)} :: Holds(u, b, kind)
  {
    if u.state == MU_READING {
      var b :| b in u.readers;
      assert Holds(u, b, Reading);
    } else {
      assert Holds(u, u.writer, Writing);
    }
  }

  /**
   * With such clients every coroutine that is blocked on a mutex waits for another coroutine that is
   * alive and holds it, or is just releasing it, or its wake-up is already in its processor's queues.
   */
  lemma BlockedWaitsForAnother(states: seq<State>, steps: seq<Step>, n: nat, a: Addr, m: Mid)
    requires IsRun(states, steps) && n <= |steps| && a in states[n].cos && BlockedOn(states[n].cos[a].pc, m)
    requires forall k :: 0 <= k < n ==> Careful(states[k], steps[k])
    ensures m < |states[n].mutexes| && states[n].cos[a].owner < |states[n].procs|
    ensures (a in states[n].mutexes[m].waiting
        && (HeldByAnother(states[n], m, a) || ReleasedByAnother(states[n], m, a)))
      || a in states[n].procs[states[n].cos[a].owner].adding || a in states[n].procs[states[n].cos[a].owner].running
  {
    var s := states[n];
    CarefulRun(states, steps, n);
    StateReachable(states, steps, n);
    BlockedMakesProgress(s, a, m);
    if a in s.mutexes[m].waiting {
      var w := ReachableInv(s);
      assert MuOk(s, m);
      if s.mutexes[m].state != MU_FREE {
        SomeHolder(s.mutexes[m]);
        var b, kind :| Holds(s.mutexes[m], b, kind);
        assert !WaitsForItself(s.mutexes[m], a, s.cos[a].pc, m);
        assert Alive(s, b) && b != a;
      }
    }
  }

  // ---- the two mistakes ----

  lemma ReachableNext(s: State, step: Step)
    requires Reachable(s) && Enabled(s, step)
    ensures Reachable(Apply(s, step))
  {
    var states, steps :| IsRun(states, steps) && states[|steps|] == s;
    var states', steps' := states + [Apply(s, step)], steps + [step];
    forall i | 0 <= i < |steps'| ensures StepOk(states', steps', i) {
      if i < |steps| { assert StepOk(states, steps, i); }
    }
    assert IsRun(states', steps') && states'[|steps'|] == Apply(s, step);
  }

  /** One processor, on the stack `onCpu`, and one mutex. */
  function Small(stage: Stage, onCpu: Addr, running: seq<Addr>, adding: seq<Addr>, known: set<Addr>, removed: seq<Addr>,
                 u: RWMutex, cos: map<Addr, Coroutine>, hand: set<Addr>, cur: Addr): State
  {
    State(0, [Processor(stage, onCpu, cur, running, adding, [], [], 0, map[], [], 0, known, removed, 0)],
      [u], cos, hand)
  }

  const FREE_MUTEX := RWMutex(MU_FREE, 0, [], None, multiset{}, 0)
  const WRITTEN := RWMutex(MU_WRITING, 0, [], None, multiset{}, 7)

  lemma ToExpiring(s: State, running: seq<Addr>, adding: seq<Addr>, cos: map<Addr, Coroutine>)
    requires Reachable(s) && s == Small(Top, 0, running, adding, {}, [], FREE_MUTEX, cos, {}, 0)
    ensures Reachable(Small(Expiring, 0, running, adding, {}, [], FREE_MUTEX, cos, {}, 0))
  {
    ReachableNext(s, OfLoop(0, Clear));
    var s1 := Apply(s, OfLoop(0, Clear));
    ReachableNext(s1, OfLoop(0, Poll([])));
    assert [] + Events(map[], []) == [];
    assert Apply(s1, OfLoop(0, Poll([]))) == Small(Expiring, 0, running, adding, {}, [], FREE_MUTEX, cos, {}, 0);
  }

  /** The loop comes from its top to the drain, nothing being due or ready. */
  lemma ToDrain(s: State, running: seq<Addr>, adding: seq<Addr>, cos: map<Addr, Coroutine>)
    requires Reachable(s) && s == Small(Top, 0, running, adding, {}, [], FREE_MUTEX, cos, {}, 0)
    ensures Reachable(Small(Drain, 0, running, adding, {}, [], FREE_MUTEX, cos, {}, 0))
  {
    ToExpiring(s, running, adding, cos);
    var s1 := Small(Expiring, 0, running, adding, {}, [], FREE_MUTEX, cos, {}, 0);
    ReachableNext(s1, OfLoop(0, Expire));
    var s2 := Apply(s1, OfLoop(0, Expire));
    ReachableNext(s2, OfLoop(0, ExpiredDone));
    assert Apply(s2, OfLoop(0, ExpiredDone)) == Small(Drain, 0, running, adding, {}, [], FREE_MUTEX, cos, {}, 0);
  }

  /** ... and from an empty drain back to its top. */
  lemma ToTop(s: State, adding: seq<Addr>, cos: map<Addr, Coroutine>)
    requires Reachable(s) && s == Small(Drain, 0, [], adding, {}, [], FREE_MUTEX, cos, {}, 0)
    ensures Reachable(Small(Top, 0, adding, [], {}, [], FREE_MUTEX, cos, {}, 0))
  {
    ReachableNext(s, OfLoop(0, Flip));
    var s1 := Apply(s, OfLoop(0, Flip));
    ReachableNext(s1, OfLoop(0, ActiveDone));
    var s2 := Apply(s1, OfLoop(0, ActiveDone));
    ReachableNext(s2, OfLoop(0, ReclaimDone));
    assert Apply(s2, OfLoop(0, ReclaimDone)) == Small(Top, 0, adding, [], {}, [], FREE_MUTEX, cos, {}, 0);
  }

  function Only(status: Status, pc: Pc): map<Addr, Coroutine> {
    map[7 := Coroutine(0, status, pc)]
  }

  lemma Started()
    ensures Reachable(Small(Drain, 0, [7], [], {}, [], FREE_MUTEX, Only(CO_READY, Fresh), {}, 0))
  {
    var s := Small(Top, 0, [], [], {}, [], FREE_MUTEX, map[], {}, 0);
    var empty: seq<Step> := [];
    assert IsRun([s], empty) && [s][|empty|] == s;
    ReachableNext(s, NewCo(0, 7));
    var s1 := Apply(s, NewCo(0, 7));
    ReachableNext(s1, GoNew(7));
    var cos := Only(CO_READY, Fresh);
    assert s1.cos == cos && s1.hand - {7} == {} && [] + [7] == [7];
    assert Apply(s1, GoNew(7)) == Small(Top, 0, [], [7], {}, [], FREE_MUTEX, cos, {}, 0);
    ToDrain(Small(Top, 0, [], [7], {}, [], FREE_MUTEX, cos, {}, 0), [], [7], cos);
    ToTop(Small(Drain, 0, [], [7], {}, [], FREE_MUTEX, cos, {}, 0), [7], cos);
    ToDrain(Small(Top, 0, [7], [], {}, [], FREE_MUTEX, cos, {}, 0), [7], [], cos);
  }

  lemma Running()
    ensures Reachable(Small(Drain, 7, [], [], {7}, [], FREE_MUTEX, Only(CO_RUNNING, User), {}, 7))
  {
    Started();
    var s := Small(Drain, 0, [7], [], {}, [], FREE_MUTEX, Only(CO_READY, Fresh), {}, 0);
    ReachableNext(s, OfLoop(0, DrainOne));
    assert Only(CO_READY, Fresh)[7 := Coroutine(0, CO_RUNNING, User)] == Only(CO_RUNNING, User);
    assert [7][1..] == [] && {} + {7} == {7};
    assert Apply(s, OfLoop(0, DrainOne)) == Small(Drain, 7, [], [], {7}, [], FREE_MUTEX, Only(CO_RUNNING, User), {}, 7);
  }

  /** Coroutine 7 holds mutex 0 to write. */
  lemma Written()
    ensures Reachable(Small(Drain, 7, [], [], {7}, [], WRITTEN, Only(CO_RUNNING, User), {}, 7))
  {
    Running();
    var s := Small(Drain, 7, [], [], {7}, [], FREE_MUTEX, Only(CO_RUNNING, User), {}, 7);
    ReachableNext(s, OfCo(0, CallLock(0, Writing)));
    var s1 := Apply(s, OfCo(0, CallLock(0, Writing)));
    ReachableNext(s1, OfCo(0, TryLock));
    assert s1.cos[7 := Coroutine(0, CO_RUNNING, User)] == Only(CO_RUNNING, User);
    assert Apply(s1, OfCo(0, TryLock)) == Small(Drain, 7, [], [], {7}, [], WRITTEN, Only(CO_RUNNING, User), {}, 7);
  }

  lemma Finished()
    ensures Reachable(Small(Drain, 0, [], [], {7}, [7], WRITTEN, Only(CO_RUNNING, Dead), {}, 7))
  {
    Written();
    var s := Small(Drain, 7, [], [], {7}, [], WRITTEN, Only(CO_RUNNING, User), {}, 7);
    ReachableNext(s, OfCo(0, Kill));
    var s1 := Apply(s, OfCo(0, Kill));
    ReachableNext(s1, OfCo(0, Exit));
    assert s1.cos[7 := Coroutine(0, CO_RUNNING, Dead)] == Only(CO_RUNNING, Dead) && [] + [7] == [7];
    assert Apply(s1, OfCo(0, Exit)) == Small(Drain, 0, [], [], {7}, [7], WRITTEN, Only(CO_RUNNING, Dead), {}, 7);
  }

  lemma Retired()
    ensures Reachable(Small(Reclaim, 0, [], [], {7}, [7], WRITTEN, Only(CO_RUNNING, Dead), {}, 7))
  {
    Finished();
    var s := Small(Drain, 0, [], [], {7}, [7], WRITTEN, Only(CO_RUNNING, Dead), {}, 7);
    ReachableNext(s, OfLoop(0, Flip));
    var s1 := Apply(s, OfLoop(0, Flip));
    ReachableNext(s1, OfLoop(0, ActiveDone));
    assert Apply(s1, OfLoop(0, ActiveDone))
        == Small(Reclaim, 0, [], [], {7}, [7], WRITTEN, Only(CO_RUNNING, Dead), {}, 7);
  }

  /** A writer that finishes leaves the mutex written by an address that is no coroutine any more. */
  lemma HeldByNobody() returns (s: State)
    ensures Reachable(s) && |s.mutexes| == 1 && Holds(s.mutexes[0], 7, Writing) && s.cos == map[]
  {
    Retired();
    var s1 := Small(Reclaim, 0, [], [], {7}, [7], WRITTEN, Only(CO_RUNNING, Dead), {}, 7);
    ReachableNext(s1, OfLoop(0, ReclaimOne));
    s := Apply(s1, OfLoop(0, ReclaimOne));
    assert Only(CO_RUNNING, Dead) - {7} == map[];
  }

  /** A writer that calls wlock again waits for itself. */
  lemma WaitingForItself() returns (s: State)
    ensures Reachable(s) && |s.mutexes| == 1 && 7 in s.cos
    ensures s.mutexes[0].waiting == [7] && WaitsForItself(s.mutexes[0], 7, s.cos[7].pc, 0)
  {
    Written();
    var s1 := Small(Drain, 7, [], [], {7}, [], WRITTEN, Only(CO_RUNNING, User), {}, 7);
    ReachableNext(s1, OfCo(0, CallLock(0, Writing)));
    var s2 := Apply(s1, OfCo(0, CallLock(0, Writing)));
    ReachableNext(s2, OfCo(0, TryLock));
    s := Apply(s2, OfCo(0, TryLock));
    assert [] + [7] == [7];
  }
}
