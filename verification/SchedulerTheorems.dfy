/** What holds in every state and over every run of disciplined clients. */
module SchedulerTheorems {
  import opened Seqs
  import opened SleepQueue
  import opened Scheduler
  import opened SchedulerInv
  import opened SchedulerFrames
  import opened SchedulerSteps
  import opened SchedulerCoSteps

  // ---- the invariant in every reachable state ----

  lemma LoopStepInv(s: State, w: Placement, p: Pid, l: LoopStep)
    requires InvW(s, w) && EnabledLoop(s, p, l)
    ensures Inv(ApplyLoop(s, p, l))
  {
    match l
    case Clear => ClearStep(s, w, p);
    case Poll(ready) => PollStep(s, w, p, ready);
    case Expire => ExpireStep(s, w, p);
    case ResumeExpired => ResumeExpiredStep(s, w, p);
    case ExpiredDone => NextStageStep(s, w, p, l);
    case DrainOne => DrainOneStep(s, w, p);
    case Flip => FlipStep(s, w, p);
    case ResumeActive => ResumeActiveStep(s, w, p);
    case ActiveDone => NextStageStep(s, w, p, l);
    case ReclaimOne => ReclaimOneStep(s, w, p);
    case ReclaimDone => NextStageStep(s, w, p, l);
  }

  lemma CoStepInv(s: State, w: Placement, p: Pid, c: CoStep)
    requires InvW(s, w) && EnabledCo(s, p, c) && Disciplined(s, p, c)
    ensures Inv(ApplyCo(s, p, c))
  {
    match c
    case CallLock(_, _) => ControlStep(s, w, p, c);
    case TryLock =>
      if Admits(s.mutexes[MyPc(s, p).m], MyPc(s, p).kind) { AcquireStep(s, w, p); } else { EnqueueStep(s, w, p); }
    case Unlock(m, kind) => UnlockStep(s, w, p, m, kind);
    case WakeOne => WakeOneStep(s, w, p);
    case WakeDone => WakeDoneStep(s, w, p);
    case Sleep(ms) => SleepStep(s, w, p, ms);
    case WaitEvent(fd) => WaitEventStep(s, w, p, fd);
    case RemoveEv => RemoveEvStep(s, w, p);
    case Yield => ControlStep(s, w, p, c);
    case Switch => ControlStep(s, w, p, c);
    case Kill => KillStep(s, w, p);
    case Exit => ControlStep(s, w, p, c);
  }

  lemma StepInv(s: State, step: Step)
    requires Inv(s) && Enabled(s, step)
    ensures Inv(Apply(s, step))
  {
    var w :| InvW(s, w);
    match step
    case OfLoop(p, l) => LoopStepInv(s, w, p, l);
    case OfCo(p, c) => CoStepInv(s, w, p, c);
    case NewCo(p, a) => NewCoStep(s, w, p, a);
    case GoNew(a) => GoNewStep(s, w, a);
    case Tick(t) => TickStep(s, w, t);
  }

  lemma {:induction false} RunInv(states: seq<State>, steps: seq<Step>, i: nat)
    requires IsRun(states, steps) && i <= |steps|
    ensures Inv(states[i])
  {
    if i == 0 {
      InitInv(states[0]);
    } else {
      RunInv(states, steps, i - 1);
      assert StepOk(states, steps, i - 1);
      StepInv(states[i - 1], steps[i - 1]);
    }
  }

  ghost predicate Reachable(s: State) {
    exists states, steps :: IsRun(states, steps) && states[|steps|] == s
  }

  lemma ReachableInv(s: State) returns (w: Placement)
    requires Reachable(s)
    ensures InvW(s, w)
  {
    var states, steps :| IsRun(states, steps) && states[|steps|] == s;
    RunInv(states, steps, |steps|);
    w :| InvW(s, w);
  }

  // ---- one wake token per coroutine ----

  /** `a` is recorded at exactly one place, once, and its own record fits that place. */
  ghost predicate RecordedOnce(s: State, a: Addr)
    requires a in s.cos
  {
    exists loc :: a in At(s, loc) && NoDup(At(s, loc)) && Fits(a, s.cos[a], loc)
      && forall other :: a in At(s, other) ==> other == loc
  }

  /** The executing coroutine outside its suspension window: in its function, in a lock call, or in freeLock. */
  predicate OutsideWindow(pc: Pc) {
    pc.User? || pc.Attempt? || pc.Freeing?
  }

  lemma SingleToken(s: State, a: Addr)
    requires Reachable(s)
    ensures a !in s.cos || OutsideWindow(s.cos[a].pc) ==> forall loc :: a !in At(s, loc)
    ensures a in s.cos && !OutsideWindow(s.cos[a].pc) ==> RecordedOnce(s, a)
  {
    var w := ReachableInv(s);
    if a in s.cos { assert CoOk(s, w, a); }
    if a in s.cos && !OutsideWindow(s.cos[a].pc) {
      NoDupAt(s, w, w[a]);
      forall other | a in At(s, other) ensures other == w[a] { PlaceOf(s, w, other, a); }
    } else if a !in s.cos || OutsideWindow(s.cos[a].pc) {
      forall loc ensures a !in At(s, loc) {
        if loc != Nowhere { Elsewhere(s, w, loc, a); }
      }
    }
  }

  // ---- no wake-up is discarded ----

  predicate Resumes(l: LoopStep) {
    l.ResumeExpired? || l.DrainOne? || l.ResumeActive?
  }

  /** The pointer that a resuming step of the loop hands to Processor::resume. */
  function Consumed(s: State, p: Pid, l: LoopStep): Addr
    requires EnabledLoop(s, p, l) && Resumes(l)
  {
    var q := s.procs[p];
    match l
    case ResumeExpired => q.expired[q.ei]
    case DrainOne => q.running[0]
    case ResumeActive => q.act[q.ai]
  }

  /** Every consumed token, except the timer's null, starts or continues its coroutine on its own thread. */
  lemma NoWakeUpDiscarded(s: State, p: Pid, l: LoopStep)
    requires Reachable(s) && EnabledLoop(s, p, l) && Resumes(l)
    requires l.ResumeActive? ==> Consumed(s, p, l) != 0
    ensures var a := Consumed(s, p, l);
      var s' := ApplyLoop(s, p, l);
      && a in s.cos && s.cos[a].owner == p && s.cos[a].status in {CO_READY, CO_WAITING}
      && (s.cos[a].pc.Fresh? || s.cos[a].pc.Suspended?)
      && s'.procs[p].onCpu == a && s'.procs[p].cur == a && a in s'.procs[p].coSet
      && s'.cos == s.cos[a := Coroutine(p, CO_RUNNING, Continue(s.cos[a].pc))]
  {
    var w := ReachableInv(s);
    var q := s.procs[p];
    var a := Consumed(s, p, l);
    match l
    case ResumeExpired => ExpiredHead(s, w, p); ResumeDelivers(WithProc(s, p, q.(ei := q.ei + 1)), p, a);
    case DrainOne =>
      RunningHead(s, w, p);
      ResumeDelivers(WithProc(s, p, q.(running := q.running[1..], coSet := q.coSet + {a})), p, a);
    case ResumeActive => ActiveHead(s, w, p); ResumeDelivers(WithProc(s, p, q.(ai := q.ai + 1)), p, a);
  }

  /** The coroutine waits for the mutex: recorded in its queue, about to switch, or switched out. */
  predicate BlockedOn(pc: Pc, m: Mid) {
    (pc.Yielding? || pc.Switching? || pc.Suspended?) && pc.why.Queueing? && pc.why.m == m
  }

  /** A waiter, even one still between recording itself and switching, is woken into its own processor's queue. */
  lemma WakeReachesOwner(s: State, p: Pid)
    requires Reachable(s) && EnabledCo(s, p, WakeOne)
    ensures var m := MyPc(s, p).m;
      var a := s.mutexes[m].waiting[0];
      var s' := ApplyCo(s, p, WakeOne);
      && a in s.cos && s.cos[a].owner < |s.procs|
      && BlockedOn(s.cos[a].pc, m)
      && s'.procs[s.cos[a].owner].adding == s.procs[s.cos[a].owner].adding + [a]
      && (forall q :: 0 <= q < |s.procs| && q != s.cos[a].owner ==> s'.procs[q] == s.procs[q])
      && s'.cos == s.cos && s'.mutexes[m].waiting == s.mutexes[m].waiting[1..]
  {
    var w := ReachableInv(s);
    var m := MyPc(s, p).m;
    WaitingHead(s, w, m);
  }

  // ---- reclamation and address reuse ----

  /** What the clean-up deletes is finished and from its own pool; afterwards nothing refers to the address. */
  lemma ReclaimedIsForgotten(s: State, p: Pid)
    requires Reachable(s) && EnabledLoop(s, p, ReclaimOne)
    ensures var a := s.procs[p].removed[s.procs[p].ri];
      var s' := ApplyLoop(s, p, ReclaimOne);
      && a in s.cos && s.cos[a].owner == p && s.cos[a].pc == Dead
      && a !in s'.cos && (forall loc :: a !in At(s', loc))
      && (forall q :: 0 <= q < |s'.procs| ==> a !in s'.procs[q].coSet && s'.procs[q].onCpu != a)
      && (forall q, i :: 0 <= q < |s'.procs| && s'.procs[q].ai <= i < |s'.procs[q].act| ==> s'.procs[q].act[i] != a)
  {
    var w := ReachableInv(s);
    RemovedHead(s, w, p);
    var a := s.procs[p].removed[s.procs[p].ri];
    var s' := ApplyLoop(s, p, ReclaimOne);
    ReclaimOneStep(s, w, p);
    NothingRefersTo(s', w - {a}, a);
  }

  /** An address that is not a constructed coroutine's occurs nowhere. */
  lemma NothingRefersTo(s: State, w: Placement, a: Addr)
    requires InvW(s, w) && a !in s.cos && a != 0
    ensures forall loc :: a !in At(s, loc)
    ensures forall q :: 0 <= q < |s.procs| ==> a !in s.procs[q].coSet && s.procs[q].onCpu != a
    ensures forall q, i :: 0 <= q < |s.procs| && s.procs[q].ai <= i < |s.procs[q].act| ==> s.procs[q].act[i] != a
  {
    forall loc ensures a !in At(s, loc) { Elsewhere(s, w, loc, a); }
    forall q | 0 <= q < |s.procs|
      ensures a !in s.procs[q].coSet && s.procs[q].onCpu != a
      ensures forall i :: s.procs[q].ai <= i < |s.procs[q].act| ==> s.procs[q].act[i] != a
    {
      assert ProcOk(s, q);
    }
  }

  /** So a coroutine constructed at a recycled address starts with no reference to it anywhere but its creator's. */
  lemma NewAddressIsClean(s: State, p: Pid, a: Addr)
    requires Reachable(s) && Enabled(s, NewCo(p, a))
    ensures forall loc :: a in At(DoNewCo(s, p, a), loc) <==> loc == Hand(a)
    ensures forall q :: 0 <= q < |s.procs| ==> a !in s.procs[q].coSet && s.procs[q].onCpu != a
    ensures forall q, i :: 0 <= q < |s.procs| && s.procs[q].ai <= i < |s.procs[q].act| ==> s.procs[q].act[i] != a
  {
    var w := ReachableInv(s);
    NothingRefersTo(s, w, a);
    forall loc ensures a in At(DoNewCo(s, p, a), loc) <==> loc == Hand(a) { assert a !in At(s, loc); }
  }

  // ---- what clients and the kernel may do ----

  /** In its function a coroutine may make any call; unlocking has to wait only for a freeLock that is under way. */
  lemma ClientsMayCall(s: State, p: Pid)
    requires InCo(s, p) && MyPc(s, p) == User
    ensures forall ms :: EnabledCo(s, p, Sleep(ms))
    ensures forall fd :: EnabledCo(s, p, WaitEvent(fd))
    ensures forall m, kind :: 0 <= m < |s.mutexes| ==> EnabledCo(s, p, CallLock(m, kind))
    ensures forall m, kind :: 0 <= m < |s.mutexes| && s.mutexes[m].lock.None? ==> EnabledCo(s, p, Unlock(m, kind))
    ensures EnabledCo(s, p, Kill)
  {
  }

  /** epoll_wait may report any registered descriptors; new_obj may return any unused address; time may pass. */
  lemma KernelMayAnswer(s: State, p: Pid)
    requires p < |s.procs|
    ensures forall ready: seq<Option<Fd>> ::
      InLoop(s, p, Polled) && PollResult(s.procs[p].interest, ready) ==> EnabledLoop(s, p, Poll(ready))
    ensures forall a :: a != 0 && a !in s.cos ==> Enabled(s, NewCo(p, a))
    ensures forall a :: a in s.hand ==> Enabled(s, GoNew(a))
    ensures forall t :: t >= s.now ==> Enabled(s, Tick(t))
  {
  }

  // ---- who executes where ----

  /** Code of a coroutine runs on its own processor, which knows it as the current one; no two threads share it. */
  lemma CurrentCoroutineAgrees(s: State, p: Pid)
    requires Reachable(s) && p < |s.procs| && s.procs[p].onCpu != 0
    ensures var me := s.procs[p].onCpu;
      && me in s.cos && s.procs[p].cur == me && s.cos[me].owner == p && me in s.procs[p].coSet
      && (s.cos[me].status == CO_WAITING <==> s.cos[me].pc.Switching?)
      && (s.cos[me].status == CO_RUNNING <==> !s.cos[me].pc.Switching?)
      && forall q :: 0 <= q < |s.procs| && s.procs[q].onCpu == me ==> q == p
  {
    var w := ReachableInv(s);
    assert ProcOk(s, p);
    Executing(s, w, p);
    forall q | 0 <= q < |s.procs| && s.procs[q].onCpu == s.procs[p].onCpu ensures q == p { assert ProcOk(s, q); }
  }

  // ---- the reader-writer mutex ----

  /** The state word says exactly what the clients hold. */
  lemma ReaderWriterExclusion(s: State, m: Mid)
    requires Reachable(s) && m < |s.mutexes|
    ensures var u := s.mutexes[m];
      && (u.state == MU_WRITING <==> u.writer != 0)
      && (u.state == MU_READING <==> u.readers != multiset{})
      && (u.state == MU_FREE <==> u.writer == 0 && u.readers == multiset{})
      && (u.writer != 0 ==> u.readers == multiset{})
      && u.readingNum == |u.readers|
  {
    var w := ReachableInv(s);
    assert MuOk(s, m);
  }

  /** Someone holds the mutex, or a thread is inside freeLock handing out wake-ups. */
  ghost predicate WillRelease(s: State, m: Mid)
    requires m < |s.mutexes|
  {
    var u := s.mutexes[m];
    u.writer != 0 || u.readers != multiset{}
    || (u.lock.Some? && InCo(s, u.lock.value) && MyPc(s, u.lock.value) == Freeing(m))
  }

  /**
   * A blocked coroutine is in the queue of a mutex that is not idle, or its wake-up is already in its
   * processor's queues.  Module Holders says whom it waits for.
   */
  lemma BlockedMakesProgress(s: State, a: Addr, m: Mid)
    requires Reachable(s) && a in s.cos && BlockedOn(s.cos[a].pc, m)
    ensures m < |s.mutexes| && s.cos[a].owner < |s.procs|
    ensures (a in s.mutexes[m].waiting && WillRelease(s, m))
      || a in s.procs[s.cos[a].owner].adding || a in s.procs[s.cos[a].owner].running
  {
    var w := ReachableInv(s);
    assert CoOk(s, w, a);
    assert MuOk(s, m);
  }

  /** A mutex that nobody holds and nobody is releasing has no waiters. */
  lemma IdleMutexHasNoWaiters(s: State, m: Mid)
    requires Reachable(s) && m < |s.mutexes| && !WillRelease(s, m)
    ensures s.mutexes[m].waiting == []
  {
    var w := ReachableInv(s);
    assert MuOk(s, m);
  }

  // ---- sleepers ----

  lemma CoStepTouchesMe(s: State, p: Pid, c: CoStep, a: Addr)
    requires EnabledCo(s, p, c) && s.procs[p].cur == s.procs[p].onCpu && a in s.cos && a != s.procs[p].onCpu
    ensures a in ApplyCo(s, p, c).cos && ApplyCo(s, p, c).cos[a] == s.cos[a]
  {
  }

  lemma LoopStepTouchesConsumed(s: State, p: Pid, l: LoopStep, a: Addr)
    requires EnabledLoop(s, p, l) && a in s.cos && !(Resumes(l) && Consumed(s, p, l) == a)
    requires l.ReclaimOne? ==> a != s.procs[p].removed[s.procs[p].ri]
    ensures a in ApplyLoop(s, p, l).cos && ApplyLoop(s, p, l).cos[a] == s.cos[a]
  {
  }

  /** A suspended coroutine changes only when its own processor's loop consumes its token. */
  lemma SuspendedUntilConsumed(s: State, step: Step, a: Addr)
    requires Reachable(s) && Enabled(s, step) && a in s.cos && s.cos[a].pc.Suspended?
    requires a !in Apply(s, step).cos || Apply(s, step).cos[a] != s.cos[a]
    ensures step.OfLoop? && step.p == s.cos[a].owner && Resumes(step.l) && Consumed(s, step.p, step.l) == a
  {
    var w := ReachableInv(s);
    assert CoOk(s, w, a);
    match step
    case OfLoop(p, l) =>
      if l.ReclaimOne? { RemovedHead(s, w, p); }
      if !(Resumes(l) && Consumed(s, p, l) == a) { LoopStepTouchesConsumed(s, p, l, a); }
      NoWakeUpDiscarded(s, p, l);
    case OfCo(p, c) =>
      Executing(s, w, p);
      CoStepTouchesMe(s, p, c, a);
    case _ =>
  }

  /** A sleeper is resumed only by the expiry loop of its processor, and not before its deadline. */
  lemma NotBeforeDeadline(s: State, step: Step, a: Addr)
    requires Reachable(s) && Enabled(s, step)
    requires a in s.cos && s.cos[a].pc.Suspended? && s.cos[a].pc.why.Sleeping?
    requires a !in Apply(s, step).cos || Apply(s, step).cos[a] != s.cos[a]
    ensures step == OfLoop(s.cos[a].owner, ResumeExpired)
    ensures s.cos[a].pc.why.due <= s.now
  {
    SuspendedUntilConsumed(s, step, a);
    var w := ReachableInv(s);
    match step.l
    case ResumeExpired => ExpiredHead(s, w, step.p);
    case DrainOne => RunningHead(s, w, step.p);
    case ResumeActive => ActiveHead(s, w, step.p);
  }

  // ---- what the descriptor discipline is for ----

  /** A failed registration leaves the caller recorded nowhere. */
  lemma NotRecorded(s: State, p: Pid, fd: Fd, loc: Loc)
    requires Reachable(s) && EnabledCo(s, p, WaitEvent(fd)) && fd in s.procs[p].interest
    ensures s.procs[p].onCpu !in At(ApplyCo(s, p, WaitEvent(fd)), loc)
  {
    SingleToken(s, s.procs[p].onCpu);
    assert At(ApplyCo(s, p, WaitEvent(fd)), loc) == At(s, loc);
  }

  /** A coroutine that calls waitEvent is recorded anywhere if and only if its descriptor was not yet registered. */
  lemma SecondWaiterIsLost(s: State, p: Pid, fd: Fd)
    requires Reachable(s) && EnabledCo(s, p, WaitEvent(fd))
    ensures var me := s.procs[p].onCpu;
      (exists loc :: me in At(ApplyCo(s, p, WaitEvent(fd)), loc)) <==> fd !in s.procs[p].interest
  {
    var me := s.procs[p].onCpu;
    if fd in s.procs[p].interest {
      forall loc ensures me !in At(ApplyCo(s, p, WaitEvent(fd)), loc) { NotRecorded(s, p, fd, loc); }
    } else {
      CurrentCoroutineAgrees(s, p);
      assert me in At(ApplyCo(s, p, WaitEvent(fd)), Event(p, fd));
    }
  }
}
