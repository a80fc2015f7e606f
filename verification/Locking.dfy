/**
 * The spinlocks of the library, taken and released step by step.  Every access to module Scheduler's
 * state that the code makes under `lock_`, `newQueLock_` or `coPoolLock_` is made here between an
 * acquire and a release of that lock, by any number of threads; a lock is only its `sem_`, which does
 * not know who is inside.  The threads of the processors come first; the others are threads outside
 * the scheduler that create coroutines.
 */
module Locking {
  import opened Seqs
  import opened SleepQueue
  import opened Scheduler
  import opened SchedulerInv
  import opened SchedulerFrames
  import opened SchedulerSteps
  import opened SchedulerCoSteps
  import opened SchedulerTheorems
  import opened SchedulerRuns
  import opened Holders
  import Spinlock

  type Tid = Spinlock.Tid

  datatype Lock = MutexLock(m: Mid) | QueueLock(p: Pid) | PoolLock(p: Pid)

  /** The guarded sections: rlock/wlock, runlock/wunlock, the flip, one deletion, and the two halves of goNewCo. */
  datatype Job =
    | Try(m: Mid) | Undo(m: Mid, kind: Kind) | Swap | Delete | Construct(p: Pid) | Push(p: Pid, a: Addr)

  /** Where a thread is with respect to the locks. */
  datatype Point =
    | Outside
    | Acquiring(job: Job)            // in Spinlock::lock
    | Inside(job: Job)               // holding the lock, the section ahead
    | Leaving(l: Lock)               // the section done, the guard's destructor ahead
    | Made(p: Pid, a: Addr)          // the same in goNewCo, with the new coroutine in hand
    | Handing(m: Mid)                // at the head of freeLock's loop, holding lock_
    | AcquiringFor(m: Mid, p: Pid)   // in goCo for a waiter of processor p, in Spinlock::lock
    | InsideFor(m: Mid, p: Pid)      // holding both locks, the push ahead
    | LeavingFor(m: Mid, p: Pid)     // holding both locks, the push done

  /** `held`: what each thread has acquired and not released; the code has no such record. */
  datatype Fine = Fine(s: State, sem: map<Lock, int>, at: map<Tid, Point>, held: map<Tid, set<Lock>>)

  function Sem(f: Fine, l: Lock): int {
    if l in f.sem then f.sem[l] else 1
  }

  function PointOf(f: Fine, t: Tid): Point {
    if t in f.at then f.at[t] else Outside
  }

  function HeldBy(f: Fine, t: Tid): set<Lock> {
    if t in f.held then f.held[t] else {}
  }

  function LockOf(t: Tid, job: Job): Lock {
    match job
    case Try(m) => MutexLock(m)
    case Undo(m, _) => MutexLock(m)
    case Swap => QueueLock(t)
    case Delete => PoolLock(t)
    case Construct(p) => PoolLock(p)
    case Push(p, _) => QueueLock(p)
  }

  /** What a thread at this point must hold. */
  function HeldAt(t: Tid, point: Point): set<Lock> {
    match point
    case Outside => {}
    case Acquiring(_) => {}
    case Inside(job) => {LockOf(t, job)}
    case Leaving(l) => {l}
    case Made(p, _) => {PoolLock(p)}
    case Handing(m) => {MutexLock(m)}
    case AcquiringFor(m, _) => {MutexLock(m)}
    case InsideFor(m, p) => {MutexLock(m), QueueLock(p)}
    case LeavingFor(m, p) => {MutexLock(m), QueueLock(p)}
  }

  /** The lock whose acquisition is this thread's next step. */
  function Wanted(t: Tid, point: Point): Option<Lock> {
    match point
    case Acquiring(job) => Some(LockOf(t, job))
    case AcquiringFor(_, p) => Some(QueueLock(p))
    case _ => None
  }

  // ---- the moves ----

  datatype Move =
    | Local(step: Step)    // a step that needs no lock
    | Begin(job: Job)      // the code reaches the acquisition
    | Acquire              // one compare-and-swap
    | Section(a: Addr)     // the guarded accesses; `a` is what new_obj returns, if it is called
    | Release
    | Pop | AcquireFor | PushWaiter | ReleaseFor | Finish   // freeLock's loop

  /** A step of thread `t` that the code makes without any lock. */
  predicate Lockless(t: Tid, step: Step) {
    match step
    case OfLoop(p, l) => p == t && l != Flip && l != ReclaimOne
    case OfCo(p, c) => p == t && !MutexCall(c)
    case Tick(_) => true
    case _ => false
  }

  /** The thread is in client code: a coroutine's function, or a thread outside the scheduler. */
  predicate InClient(s: State, t: Tid) {
    t >= |s.procs| || (InCo(s, t) && MyPc(s, t).User?)
  }

  /** The thread is where the code enters this section. */
  predicate Entering(s: State, t: Tid, job: Job) {
    match job
    case Try(m) => InCo(s, t) && MyPc(s, t).Attempt? && MyPc(s, t).m == m && m < |s.mutexes|
    case Undo(m, kind) =>
      InCo(s, t) && MyPc(s, t).User? && m < |s.mutexes| && Holds(s.mutexes[m], s.procs[t].onCpu, kind)
    case Swap => InLoop(s, t, Drain) && s.procs[t].running == []
    case Delete => InLoop(s, t, Reclaim) && s.procs[t].ri < |s.procs[t].removed|
    case Construct(p) => p < |s.procs| && InClient(s, t)
    case Push(p, a) => p < |s.procs| && InClient(s, t) && a in s.hand && a in s.cos && s.cos[a].owner == p
  }

  /** The Scheduler step that a section is. */
  function SectionStep(t: Tid, job: Job, a: Addr): Step {
    match job
    case Try(_) => OfCo(t, TryLock)
    case Undo(m, kind) => OfCo(t, Unlock(m, kind))
    case Swap => OfLoop(t, Flip)
    case Delete => OfLoop(t, ReclaimOne)
    case Construct(p) => NewCo(p, a)
    case Push(_, b) => GoNew(b)
  }

  function Under(t: Tid, point: Point, mv: Move): Option<Step> {
    match mv
    case Local(step) => Some(step)
    case Section(a) => if point.Inside? then Some(SectionStep(t, point.job, a)) else None
    case PushWaiter => Some(OfCo(t, WakeOne))
    case Finish => Some(OfCo(t, WakeDone))
    case _ => None
  }

  /** The head of the mutex's wait queue is a coroutine of processor `p`. */
  predicate NextWaiter(s: State, m: Mid, p: Pid) {
    && m < |s.mutexes| && s.mutexes[m].waiting != [] && s.mutexes[m].waiting[0] in s.cos
    && s.cos[s.mutexes[m].waiting[0]].owner == p && p < |s.procs|
  }

  predicate AtPoint(f: Fine, t: Tid, mv: Move) {
    var point := PointOf(f, t);
    match mv
    case Local(step) => point.Outside? && Lockless(t, step)
    case Begin(job) => point.Outside? && !job.Push? && Entering(f.s, t, job)
    case Acquire => point.Acquiring?
    case Section(_) => point.Inside?
    case Release => point.Leaving? || point.Made?
    case Pop =>
      point.Handing? && point.m < |f.s.mutexes| && f.s.mutexes[point.m].waiting != []
      && f.s.mutexes[point.m].waiting[0] in f.s.cos
    case AcquireFor => point.AcquiringFor?
    case PushWaiter => point.InsideFor?
    case ReleaseFor => point.LeavingFor?
    case Finish => point.Handing? && point.m < |f.s.mutexes| && f.s.mutexes[point.m].waiting == []
  }

  /**
   * Inside a section the thread needs nothing of the scheduler's state, only that new_obj returns an
   * unused address: the guards of the scheduler's own steps are not asked for.
   */
  ghost predicate Can(f: Fine, t: Tid, mv: Move) {
    && AtPoint(f, t, mv)
    && match mv
       case Local(step) => Enabled(f.s, step)
       case Section(a) => PointOf(f, t).job.Construct? ==> a != 0 && a !in f.s.cos
       case _ => true
  }

  /** ... which `Effect` takes only if its guard holds; AtomicStepsSuffice shows that it always does. */
  ghost predicate GuardHolds(f: Fine, t: Tid, mv: Move) {
    Under(t, PointOf(f, t), mv).Some? ==> Enabled(f.s, Under(t, PointOf(f, t), mv).value)
  }

  ghost function Effect(f: Fine, t: Tid, mv: Move): State {
    var step := Under(t, PointOf(f, t), mv);
    if step.Some? && Enabled(f.s, step.value) then Apply(f.s, step.value) else f.s
  }

  function AfterSection(s: State, t: Tid, job: Job, a: Addr): Point {
    match job
    case Try(m) => Leaving(MutexLock(m))
    case Undo(m, kind) => if m < |s.mutexes| && Frees(s.mutexes[m], kind) then Handing(m) else Leaving(MutexLock(m))
    case Construct(p) => Made(p, a)
    case _ => Leaving(LockOf(t, job))
  }

  function NextPoint(f: Fine, t: Tid, mv: Move): Point
    requires AtPoint(f, t, mv)
  {
    var point := PointOf(f, t);
    match mv
    case Local(_) => Outside
    case Begin(job) => Acquiring(job)
    case Acquire => if Sem(f, LockOf(t, point.job)) == 1 then Inside(point.job) else point
    case Section(a) => AfterSection(f.s, t, point.job, a)
    case Release => if point.Made? then Acquiring(Push(point.p, point.a)) else Outside
    case Pop => AcquiringFor(point.m, f.s.cos[f.s.mutexes[point.m].waiting[0]].owner)
    case AcquireFor => if Sem(f, QueueLock(point.p)) == 1 then InsideFor(point.m, point.p) else point
    case PushWaiter => LeavingFor(point.m, point.p)
    case ReleaseFor => Handing(point.m)
    case Finish => Leaving(MutexLock(point.m))
  }

  /** The lock that the move takes: a compare-and-swap that finds `sem_` at 1. */
  function Acquires(f: Fine, t: Tid, mv: Move): Option<Lock> {
    var l := Wanted(t, PointOf(f, t));
    if (mv.Acquire? || mv.AcquireFor?) && l.Some? && Sem(f, l.value) == 1 then l else None
  }

  function Releases(f: Fine, t: Tid, mv: Move): Option<Lock> {
    var point := PointOf(f, t);
    match mv
    case Release => if point.Leaving? then Some(point.l) else if point.Made? then Some(PoolLock(point.p)) else None
    case ReleaseFor => if point.LeavingFor? then Some(QueueLock(point.p)) else None
    case _ => None
  }

  ghost function Do(f: Fine, t: Tid, mv: Move): Fine
    requires Can(f, t, mv)
  {
    var takes, gives := Acquires(f, t, mv), Releases(f, t, mv);
    Fine(
      Effect(f, t, mv),
      if takes.Some? then f.sem[takes.value := 0] else if gives.Some? then f.sem[gives.value := 1] else f.sem,
      f.at[t := NextPoint(f, t, mv)],
      if takes.Some? then f.held[t := HeldBy(f, t) + {takes.value}]
      else if gives.Some? then f.held[t := HeldBy(f, t) - {gives.value}] else f.held)
  }

  // ---- the invariant ----

  predicate InFreeLock(s: State, t: Tid, m: Mid) {
    InCo(s, t) && MyPc(s, t) == Freeing(m) && m < |s.mutexes|
  }

  /** What is true of the thread's place in module Scheduler. */
  predicate Facts(s: State, t: Tid, point: Point) {
    match point
    case Outside => InCo(s, t) ==> !MyPc(s, t).Freeing?
    case Acquiring(job) => Entering(s, t, job)
    case Inside(job) => Entering(s, t, job)
    case Leaving(_) => InCo(s, t) ==> MyPc(s, t).User? || MyPc(s, t).Yielding?
    case Made(p, a) => Entering(s, t, Push(p, a))
    case Handing(m) => InFreeLock(s, t, m)
    case AcquiringFor(m, p) => InFreeLock(s, t, m) && NextWaiter(s, m, p)
    case InsideFor(m, p) => InFreeLock(s, t, m) && NextWaiter(s, m, p)
    case LeavingFor(m, _) => InFreeLock(s, t, m)
  }

  predicate ThreadOk(f: Fine, t: Tid) {
    HeldBy(f, t) == HeldAt(t, PointOf(f, t)) && Facts(f.s, t, PointOf(f, t))
  }

  predicate Has(f: Fine, t: Tid, l: Lock) {
    l in HeldBy(f, t)
  }

  ghost predicate LockOk(f: Fine, l: Lock) {
    Sem(f, l) in {0, 1} && (Sem(f, l) == 0 <==> exists t {:trigger Has(f, t, l)} :: Has(f, t, l))
  }

  ghost predicate Exclusive(f: Fine) {
    && (forall l {:trigger LockOk(f, l)} :: LockOk(f, l))
    && (forall t, u, l {:trigger Has(f, t, l), Has(f, u, l)} :: Has(f, t, l) && Has(f, u, l) ==> t == u)
  }

  /** The coroutine that the thread constructed and has yet to push. */
  function Pending(point: Point): Option<Addr> {
    match point
    case Made(_, a) => Some(a)
    case Acquiring(Push(_, a)) => Some(a)
    case Inside(Push(_, a)) => Some(a)
    case _ => None
  }

  predicate Distinct(f: Fine, t: Tid, u: Tid) {
    t == u || Pending(PointOf(f, t)).None? || Pending(PointOf(f, t)) != Pending(PointOf(f, u))
  }

  ghost predicate FineInv(f: Fine) {
    && Reachable(f.s) && Exclusive(f)
    && (forall t {:trigger ThreadOk(f, t)} :: ThreadOk(f, t))
    && (forall t, u {:trigger Distinct(f, t, u)} :: Distinct(f, t, u))
  }

  // ---- what the steps of one thread leave to another ----

  /** The thread of the step; creation and time have none of their own. */
  predicate OfThread(step: Step, u: Tid) {
    (step.OfLoop? || step.OfCo?) && step.p == u
  }

  /** Thread `u` finds itself as it was: its processor but for new arrivals, and the coroutine it executes. */
  predicate SelfKept(s: State, s': State, u: Tid) {
    && |s'.procs| == |s.procs| && |s'.mutexes| == |s.mutexes|
    && (u < |s.procs| ==> s'.procs[u] == s.procs[u].(adding := s'.procs[u].adding))
    && (InCo(s, u) ==> InCo(s', u) && s'.cos[s.procs[u].onCpu] == s.cos[s.procs[u].onCpu])
    && (InCo(s', u) ==> InCo(s, u))
  }

  lemma CoLeavesProc(s: State, p: Pid, c: CoStep, u: Tid)
    requires EnabledCo(s, p, c) && u != p
    ensures |ApplyCo(s, p, c).procs| == |s.procs|
    ensures u < |s.procs| ==> ApplyCo(s, p, c).procs[u] == s.procs[u].(adding := ApplyCo(s, p, c).procs[u].adding)
  {
  }

  lemma LoopLeavesSelf(s: State, p: Pid, l: LoopStep, u: Tid)
    requires Reachable(s) && EnabledLoop(s, p, l) && u != p
    ensures SelfKept(s, ApplyLoop(s, p, l), u)
  {
    var w := ReachableInv(s);
    LoopLeavesMutexes(s, p, l);
    LoopQueues(s, p, l, p);
    if u < |s.procs| {
      OtherLoop(s, p, l, u);
      assert ProcOk(s, u);
      var me := s.procs[u].onCpu;
      if me != 0 {
        if l.ReclaimOne? { RemovedHead(s, w, p); }
        if Resumes(l) && Consumed(s, p, l) == me { NoWakeUpDiscarded(s, p, l); }
        LoopStepTouchesConsumed(s, p, l, me);
      }
    }
  }

  lemma CoLeavesSelf(s: State, p: Pid, c: CoStep, u: Tid)
    requires Reachable(s) && EnabledCo(s, p, c) && Disciplined(s, p, c) && u != p
    ensures SelfKept(s, ApplyCo(s, p, c), u)
  {
    var w := ReachableInv(s);
    SameMutexCount(s, OfCo(p, c));
    CoLeavesProc(s, p, c, u);
    Executing(s, w, p);
    if u < |s.procs| {
      assert ProcOk(s, u);
      var me := s.procs[u].onCpu;
      if me != 0 { CoStepTouchesMe(s, p, c, me); }
    }
  }

  lemma LeavesSelf(s: State, step: Step, u: Tid)
    requires Reachable(s) && Enabled(s, step) && !OfThread(step, u)
    ensures SelfKept(s, Apply(s, step), u)
  {
    match step
    case OfLoop(p, l) => LoopLeavesSelf(s, p, l, u);
    case OfCo(p, c) => CoLeavesSelf(s, p, c, u);
    case NewCo(p, a) => NewCoLeavesSelf(s, p, a, u);
    case _ =>
  }

  lemma NewCoLeavesSelf(s: State, p: Pid, a: Addr, u: Tid)
    requires Reachable(s) && Enabled(s, NewCo(p, a))
    ensures SelfKept(s, DoNewCo(s, p, a), u)
  {
    var w := ReachableInv(s);
    if u < |s.procs| { assert ProcOk(s, u); }
  }

  lemma HandIsFresh(s: State, a: Addr)
    requires Reachable(s) && a in s.hand
    ensures a in s.cos && s.cos[a].pc.Fresh?
  {
    var w := ReachableInv(s);
    assert a in At(s, Hand(a));
    PlaceOf(s, w, Hand(a), a);
  }

  /** The step is a section of mutex `m`. */
  predicate OnMutex(s: State, step: Step, m: Mid) {
    && step.OfCo? && MutexCall(step.c) && InCo(s, step.p)
    && match step.c
       case Unlock(n, _) => n == m
       case _ => (MyPc(s, step.p).Attempt? || MyPc(s, step.p).Freeing?) && MyPc(s, step.p).m == m
  }

  lemma LeavesMutex(s: State, step: Step, m: Mid)
    requires Enabled(s, step) && m < |s.mutexes| && !OnMutex(s, step, m)
    ensures |Apply(s, step).mutexes| == |s.mutexes| && Apply(s, step).mutexes[m] == s.mutexes[m]
  {
    match step
    case OfLoop(p, l) => LoopLeavesMutexes(s, p, l);
    case _ =>
  }

  lemma WaiterKept(s: State, step: Step, m: Mid, p: Pid)
    requires Reachable(s) && Enabled(s, step) && NextWaiter(s, m, p) && !OnMutex(s, step, m)
    requires |Apply(s, step).procs| == |s.procs|
    ensures NextWaiter(Apply(s, step), m, p)
  {
    LeavesMutex(s, step, m);
    var w := ReachableInv(s);
    WaitingHead(s, w, m);
    OwnerKept(s, step, s.mutexes[m].waiting[0]);
  }

  lemma MyHoldKept(s: State, step: Step, u: Tid, m: Mid, kind: Kind)
    requires Reachable(s) && Enabled(s, step) && !OfThread(step, u)
    requires InCo(s, u) && m < |s.mutexes| && Holds(s.mutexes[m], s.procs[u].onCpu, kind)
    ensures |Apply(s, step).mutexes| == |s.mutexes| && Holds(Apply(s, step).mutexes[m], s.procs[u].onCpu, kind)
  {
    CurrentCoroutineAgrees(s, u);
    HoldKept(s, step, m, s.procs[u].onCpu, kind);
  }

  /** A thread that is about to enter a section stays so, whatever the others do. */
  lemma EnteringKept(s: State, step: Step, u: Tid, job: Job)
    requires Reachable(s) && Enabled(s, step) && !OfThread(step, u) && Entering(s, u, job)
    requires job.Push? ==> step != GoNew(job.a)
    ensures Entering(Apply(s, step), u, job)
  {
    LeavesSelf(s, step, u);
    match job
    case Undo(m, kind) => MyHoldKept(s, step, u, m, kind);
    case Push(p, a) => HandIsFresh(s, a); OwnerKept(s, step, a);
    case _ =>
  }

  lemma FactsKept(s: State, step: Step, u: Tid, point: Point)
    requires Reachable(s) && Enabled(s, step) && !OfThread(step, u) && Facts(s, u, point)
    requires point.AcquiringFor? || point.InsideFor? ==> !OnMutex(s, step, point.m)
    requires Pending(point).Some? ==> step != GoNew(Pending(point).value)
    ensures Facts(Apply(s, step), u, point)
  {
    LeavesSelf(s, step, u);
    match point
    case Acquiring(job) => EnteringKept(s, step, u, job);
    case Inside(job) => EnteringKept(s, step, u, job);
    case Made(p, a) => EnteringKept(s, step, u, Push(p, a));
    case AcquiringFor(m, p) => WaiterKept(s, step, m, p);
    case InsideFor(m, p) => WaiterKept(s, step, m, p);
    case _ =>
  }

  // ---- where a move leads ----

  lemma LoopStaysUnlocked(s: State, p: Pid, l: LoopStep)
    requires Reachable(s) && EnabledLoop(s, p, l)
    ensures InCo(ApplyLoop(s, p, l), p) ==> !MyPc(ApplyLoop(s, p, l), p).Freeing?
  {
    if Resumes(l) && Consumed(s, p, l) != 0 {
      NoWakeUpDiscarded(s, p, l);
    }
  }

  lemma LocalFacts(s: State, t: Tid, step: Step)
    requires Reachable(s) && Enabled(s, step) && Lockless(t, step) && Facts(s, t, Outside)
    ensures Facts(Apply(s, step), t, Outside)
  {
    match step
    case OfLoop(p, l) => LoopStaysUnlocked(s, p, l);
    case OfCo(p, c) =>
      var w := ReachableInv(s);
      Executing(s, w, p);
    case _ =>
  }

  lemma SectionFacts(s: State, t: Tid, job: Job, a: Addr)
    requires Reachable(s) && Entering(s, t, job) && Enabled(s, SectionStep(t, job, a))
    ensures Facts(Apply(s, SectionStep(t, job, a)), t, AfterSection(s, t, job, a))
  {
  }

  lemma WakeFacts(s: State, t: Tid, m: Mid, p: Pid)
    requires InFreeLock(s, t, m) && EnabledCo(s, t, WakeOne)
    ensures Facts(ApplyCo(s, t, WakeOne), t, LeavingFor(m, p))
  {
  }

  lemma FinishFacts(s: State, t: Tid, m: Mid)
    requires InFreeLock(s, t, m) && EnabledCo(s, t, WakeDone)
    ensures Facts(ApplyCo(s, t, WakeDone), t, Leaving(MutexLock(m)))
  {
  }

  /** The head of a wait queue has a processor. */
  lemma PopFacts(s: State, t: Tid, m: Mid)
    requires Reachable(s) && InFreeLock(s, t, m) && s.mutexes[m].waiting != [] && s.mutexes[m].waiting[0] in s.cos
    ensures Facts(s, t, AcquiringFor(m, s.cos[s.mutexes[m].waiting[0]].owner))
  {
    var w := ReachableInv(s);
    WaitingHead(s, w, m);
  }

  lemma MoverFacts(f: Fine, t: Tid, mv: Move)
    requires Reachable(f.s) && Facts(f.s, t, PointOf(f, t)) && Can(f, t, mv) && GuardHolds(f, t, mv)
    ensures Facts(Do(f, t, mv).s, t, NextPoint(f, t, mv))
  {
    var s, point := f.s, PointOf(f, t);
    match mv
    case Local(step) => LocalFacts(s, t, step);
    case Section(a) => SectionFacts(s, t, point.job, a);
    case Pop => PopFacts(s, t, point.m);
    case PushWaiter => WakeFacts(s, t, point.m, point.p);
    case Finish => FinishFacts(s, t, point.m);
    case _ =>
  }

  // ---- the locks ----

  /** A successful compare-and-swap: nobody was inside, and now exactly this thread is. */
  lemma TakenKeeps(f: Fine, f': Fine, t: Tid, l: Lock)
    requires Exclusive(f) && Sem(f, l) == 1
    requires f'.sem == f.sem[l := 0] && f'.held == f.held[t := HeldBy(f, t) + {l}]
    ensures Exclusive(f')
  {
    assert LockOk(f, l);
    forall k ensures LockOk(f', k) {
      assert LockOk(f, k);
      if k == l {
        assert Has(f', t, l);
      } else if Sem(f, k) == 0 {
        var u :| Has(f, u, k);
        assert Has(f', u, k);
      } else {
        forall u ensures !Has(f', u, k) { assert !Has(f, u, k); }
      }
    }
    forall u, v, k | Has(f', u, k) && Has(f', v, k) ensures u == v {
      assert k == l || (Has(f, u, k) && Has(f, v, k));
      assert k == l ==> !Has(f, u, k) && !Has(f, v, k);
    }
  }

  /** A release by the thread that is inside: nobody is any more. */
  lemma GivenKeeps(f: Fine, f': Fine, t: Tid, l: Lock)
    requires Exclusive(f) && Has(f, t, l)
    requires f'.sem == f.sem[l := 1] && f'.held == f.held[t := HeldBy(f, t) - {l}]
    ensures Exclusive(f')
  {
    forall k ensures LockOk(f', k) {
      assert LockOk(f, k);
      if k == l {
        forall u ensures !Has(f', u, l) { assert Has(f, u, l) ==> u == t; }
      } else if Sem(f, k) == 0 {
        var u :| Has(f, u, k);
        assert Has(f', u, k);
      } else {
        forall u ensures !Has(f', u, k) { assert !Has(f, u, k); }
      }
    }
    forall u, v, k | Has(f', u, k) && Has(f', v, k) ensures u == v { assert Has(f, u, k) && Has(f, v, k); }
  }

  lemma SameLocks(f: Fine, f': Fine)
    requires Exclusive(f) && f'.sem == f.sem && f'.held == f.held
    ensures Exclusive(f')
  {
    forall k ensures LockOk(f', k) {
      assert LockOk(f, k);
      forall u ensures Has(f', u, k) <==> Has(f, u, k) { }
    }
    forall u, v, k | Has(f', u, k) && Has(f', v, k) ensures u == v { assert Has(f, u, k) && Has(f, v, k); }
  }

  lemma LocksKept(f: Fine, t: Tid, mv: Move)
    requires Exclusive(f) && ThreadOk(f, t) && Can(f, t, mv)
    ensures Exclusive(Do(f, t, mv))
  {
    var takes, gives := Acquires(f, t, mv), Releases(f, t, mv);
    if takes.Some? {
      TakenKeeps(f, Do(f, t, mv), t, takes.value);
    } else if gives.Some? {
      assert Has(f, t, gives.value);
      GivenKeeps(f, Do(f, t, mv), t, gives.value);
    } else {
      SameLocks(f, Do(f, t, mv));
    }
  }

  /** The mover holds what its new place says. */
  lemma MoverHeld(f: Fine, t: Tid, mv: Move)
    requires ThreadOk(f, t) && Can(f, t, mv)
    ensures HeldBy(Do(f, t, mv), t) == HeldAt(t, NextPoint(f, t, mv))
  {
  }

  /** Whoever makes a step on a mutex is inside its lock_. */
  lemma OnMutexHolds(f: Fine, t: Tid, mv: Move, m: Mid)
    requires ThreadOk(f, t) && Can(f, t, mv) && Under(t, PointOf(f, t), mv).Some?
    requires OnMutex(f.s, Under(t, PointOf(f, t), mv).value, m)
    ensures Has(f, t, MutexLock(m))
  {
  }

  // ---- the locks make the guards true ----

  /** Inside lock_ of a mutex and not in freeLock, nobody is in freeLock on it. */
  lemma NobodyFrees(f: Fine, t: Tid, m: Mid)
    requires FineInv(f) && Has(f, t, MutexLock(m)) && m < |f.s.mutexes| && PointOf(f, t).Inside?
    ensures f.s.mutexes[m].lock.None?
  {
    var w := ReachableInv(f.s);
    assert MuOk(f.s, m) && ThreadOk(f, t);
    if f.s.mutexes[m].lock.Some? {
      var q := f.s.mutexes[m].lock.value;
      assert ThreadOk(f, q);
      assert Has(f, q, MutexLock(m));
    }
  }

  lemma SectionGuard(f: Fine, t: Tid, a: Addr)
    requires FineInv(f) && Can(f, t, Section(a))
    ensures Enabled(f.s, SectionStep(t, PointOf(f, t).job, a))
  {
    assert ThreadOk(f, t);
    match PointOf(f, t).job
    case Try(m) => assert Has(f, t, MutexLock(m)); NobodyFrees(f, t, m);
    case Undo(m, kind) => assert Has(f, t, MutexLock(m)); NobodyFrees(f, t, m);
    case _ =>
  }

  /** Whoever is inside a section finds the scheduler's guard open. */
  lemma GuardsHold(f: Fine, t: Tid, mv: Move)
    requires FineInv(f) && Can(f, t, mv)
    ensures GuardHolds(f, t, mv)
  {
    assert ThreadOk(f, t);
    match mv
    case Section(a) => SectionGuard(f, t, a);
    case _ =>
  }

  // ---- every move keeps the invariant ----

  lemma UnderIsMine(t: Tid, point: Point, mv: Move, u: Tid)
    requires Under(t, point, mv).Some? && u != t && (mv.Local? ==> Lockless(t, mv.step))
    ensures !OfThread(Under(t, point, mv).value, u)
  {
  }

  lemma OtherFacts(f: Fine, t: Tid, mv: Move, u: Tid)
    requires Reachable(f.s) && Exclusive(f) && Can(f, t, mv) && GuardHolds(f, t, mv) && u != t
    requires ThreadOk(f, t) && ThreadOk(f, u) && Distinct(f, t, u)
    ensures Facts(Do(f, t, mv).s, u, PointOf(f, u))
  {
    var step, point := Under(t, PointOf(f, t), mv), PointOf(f, u);
    if step.Some? {
      UnderIsMine(t, PointOf(f, t), mv, u);
      if point.AcquiringFor? || point.InsideFor? {
        assert Has(f, u, MutexLock(point.m));
        if OnMutex(f.s, step.value, point.m) { OnMutexHolds(f, t, mv, point.m); }
      }
      FactsKept(f.s, step.value, u, point);
    }
  }

  lemma ThreadsKept(f: Fine, t: Tid, mv: Move, u: Tid)
    requires FineInv(f) && Can(f, t, mv) && GuardHolds(f, t, mv)
    ensures ThreadOk(Do(f, t, mv), u)
  {
    assert ThreadOk(f, t) && ThreadOk(f, u) && Distinct(f, t, u);
    if u == t {
      MoverHeld(f, t, mv);
      MoverFacts(f, t, mv);
    } else {
      OtherFacts(f, t, mv, u);
    }
  }

  lemma PendingAfter(f: Fine, t: Tid, mv: Move)
    requires Can(f, t, mv)
    ensures var p, p' := Pending(PointOf(f, t)), Pending(NextPoint(f, t, mv));
      p' == p || p'.None? || p'.value !in f.s.cos
  {
  }

  lemma PendingExists(s: State, t: Tid, point: Point)
    requires Facts(s, t, point) && Pending(point).Some?
    ensures Pending(point).value in s.cos
  {
  }

  lemma DistinctKept(f: Fine, t: Tid, mv: Move, u: Tid, v: Tid)
    requires Can(f, t, mv) && Distinct(f, u, v)
    requires Pending(PointOf(f, u)).Some? ==> Pending(PointOf(f, u)).value in f.s.cos
    requires Pending(PointOf(f, v)).Some? ==> Pending(PointOf(f, v)).value in f.s.cos
    ensures Distinct(Do(f, t, mv), u, v)
  {
    PendingAfter(f, t, mv);
  }

  lemma MoveKeeps(f: Fine, t: Tid, mv: Move)
    requires FineInv(f) && Can(f, t, mv)
    ensures FineInv(Do(f, t, mv))
  {
    var f' := Do(f, t, mv);
    assert ThreadOk(f, t);
    GuardsHold(f, t, mv);
    LocksKept(f, t, mv);
    if Under(t, PointOf(f, t), mv).Some? { ReachableNext(f.s, Under(t, PointOf(f, t), mv).value); }
    forall u ensures ThreadOk(f', u) { ThreadsKept(f, t, mv, u); }
    forall u, v ensures Distinct(f', u, v) {
      assert Distinct(f, u, v) && ThreadOk(f, u) && ThreadOk(f, v);
      if Pending(PointOf(f, u)).Some? { PendingExists(f.s, u, PointOf(f, u)); }
      if Pending(PointOf(f, v)).Some? { PendingExists(f.s, v, PointOf(f, v)); }
      DistinctKept(f, t, mv, u, v);
    }
  }

  // ---- runs ----

  ghost predicate Start(f: Fine) {
    Init(f.s) && f.sem == map[] && f.at == map[] && f.held == map[]
  }

  lemma StartOk(f: Fine)
    requires Start(f)
    ensures FineInv(f)
  {
    var empty: seq<Step> := [];
    assert IsRun([f.s], empty) && [f.s][|empty|] == f.s;
    forall l ensures LockOk(f, l) {
      forall t ensures !Has(f, t, l) { }
    }
    forall t ensures ThreadOk(f, t) { }
    forall t, u ensures Distinct(f, t, u) { }
  }

  ghost predicate Moves(f: Fine, who: (Tid, Move), f': Fine) {
    Can(f, who.0, who.1) && f' == Do(f, who.0, who.1)
  }

  /** Any interleaving of any number of threads. */
  ghost predicate IsFineRun(states: seq<Fine>, moves: seq<(Tid, Move)>) {
    && |states| == |moves| + 1 && Start(states[0])
    && forall i, j {:trigger Moves(states[i], moves[i], states[j])} ::
      0 <= i < |moves| && j == i + 1 ==> Moves(states[i], moves[i], states[j])
  }

  lemma {:induction false} FineRunInv(states: seq<Fine>, moves: seq<(Tid, Move)>, i: nat)
    requires IsFineRun(states, moves) && i <= |moves|
    ensures FineInv(states[i])
  {
    if i == 0 {
      StartOk(states[0]);
    } else {
      FineRunInv(states, moves, i - 1);
      assert Moves(states[i - 1], moves[i - 1], states[i]);
      MoveKeeps(states[i - 1], moves[i - 1].0, moves[i - 1].1);
    }
  }

  ghost predicate FineReachable(f: Fine) {
    exists states, moves :: IsFineRun(states, moves) && states[|moves|] == f
  }

  lemma FineReachableInv(f: Fine)
    requires FineReachable(f)
    ensures FineInv(f)
  {
    var states, moves :| IsFineRun(states, moves) && states[|moves|] == f;
    FineRunInv(states, moves, |moves|);
  }

  // ---- each lock is a spinlock of module Spinlock ----

  /** Where the thread is with respect to the lock `l` alone. */
  function PcFor(t: Tid, point: Point, l: Lock): Spinlock.Pc {
    if l in HeldAt(t, point) then Spinlock.Inside
    else if Wanted(t, point) == Some(l) then Spinlock.AtCas(1)
    else Spinlock.Outside
  }

  predicate SamePc(f: Fine, l: Lock, k: Spinlock.State, t: Tid) {
    Spinlock.PcOf(k, t) == PcFor(t, PointOf(f, t), l)
  }

  /** The spinlock `k` is the lock `l`, as all threads see it. */
  ghost predicate IsLock(f: Fine, l: Lock, k: Spinlock.State) {
    k.sem == Sem(f, l) && forall t {:trigger SamePc(f, l, k, t)} :: SamePc(f, l, k, t)
  }

  /** What a move does to one lock: nothing, one action, or a failed exchange with the reset of `exp` after it. */
  datatype Use = Nothing | Does(a: Spinlock.Action) | FailsExchange

  function UseOf(f: Fine, t: Tid, mv: Move, l: Lock): Use
    requires AtPoint(f, t, mv)
  {
    var pc, pc' := PcFor(t, PointOf(f, t), l), PcFor(t, NextPoint(f, t, mv), l);
    if pc.Outside? && pc'.AtCas? then Does(Spinlock.Call)
    else if pc.Inside? && pc'.Outside? then Does(Spinlock.Unlock)
    else if pc.AtCas? && (mv.Acquire? || mv.AcquireFor?) then
      if Sem(f, l) == 1 then Does(Spinlock.Cas) else FailsExchange
    else Nothing
  }

  predicate CanUse(k: Spinlock.State, t: Tid, use: Use) {
    match use
    case Nothing => true
    case Does(a) => Spinlock.Enabled(k, t, a)
    case FailsExchange =>
      Spinlock.Enabled(k, t, Spinlock.Cas) && Spinlock.PcOf(Spinlock.Apply(k, t, Spinlock.Cas), t).AtReset?
  }

  function Used(k: Spinlock.State, t: Tid, use: Use): Spinlock.State
    requires CanUse(k, t, use)
  {
    match use
    case Nothing => k
    case Does(a) => Spinlock.Apply(k, t, a)
    case FailsExchange => Spinlock.Apply(Spinlock.Apply(k, t, Spinlock.Cas), t, Spinlock.Reset)
  }

  /** What each use takes the lock and the thread from, and to. */
  predicate UseFits(sem: int, pc: Spinlock.Pc, use: Use, sem': int, pc': Spinlock.Pc) {
    match use
    case Nothing => pc' == pc && sem' == sem
    case FailsExchange => pc == Spinlock.AtCas(1) && sem != 1 && pc' == pc && sem' == sem
    case Does(Call) => pc.Outside? && pc' == Spinlock.AtCas(1) && sem' == sem
    case Does(Cas) => pc == Spinlock.AtCas(1) && sem == 1 && pc'.Inside? && sem' == 0
    case Does(Reset) => false
    case Does(Unlock) => pc.Inside? && pc'.Outside? && sem' == 1
  }

  function SemAfter(f: Fine, t: Tid, mv: Move, l: Lock): int {
    if Acquires(f, t, mv) == Some(l) then 0 else if Releases(f, t, mv) == Some(l) then 1 else Sem(f, l)
  }

  lemma SemIs(f: Fine, t: Tid, mv: Move, l: Lock)
    requires Can(f, t, mv)
    ensures Sem(Do(f, t, mv), l) == SemAfter(f, t, mv, l)
  {
  }

  lemma MoverUses(f: Fine, t: Tid, mv: Move, l: Lock)
    requires AtPoint(f, t, mv)
    ensures UseFits(Sem(f, l), PcFor(t, PointOf(f, t), l), UseOf(f, t, mv, l),
      SemAfter(f, t, mv, l), PcFor(t, NextPoint(f, t, mv), l))
  {
  }

  lemma UseDoes(k: Spinlock.State, t: Tid, use: Use, sem': int, pc': Spinlock.Pc)
    requires UseFits(k.sem, Spinlock.PcOf(k, t), use, sem', pc')
    ensures CanUse(k, t, use) && Used(k, t, use).sem == sem' && Spinlock.PcOf(Used(k, t, use), t) == pc'
    ensures forall u :: u != t ==> Spinlock.PcOf(Used(k, t, use), u) == Spinlock.PcOf(k, u)
  {
  }

  lemma MoveUses(f: Fine, t: Tid, mv: Move, l: Lock, k: Spinlock.State)
    requires Can(f, t, mv) && IsLock(f, l, k)
    ensures CanUse(k, t, UseOf(f, t, mv, l)) && IsLock(Do(f, t, mv), l, Used(k, t, UseOf(f, t, mv, l)))
  {
    var f', use := Do(f, t, mv), UseOf(f, t, mv, l);
    assert SamePc(f, l, k, t);
    MoverUses(f, t, mv, l);
    SemIs(f, t, mv, l);
    UseDoes(k, t, use, Sem(f', l), PcFor(t, NextPoint(f, t, mv), l));
    assert PointOf(f', t) == NextPoint(f, t, mv);
    forall u ensures SamePc(f', l, Used(k, t, use), u) {
      assert SamePc(f, l, k, u);
      if u != t { assert PointOf(f', u) == PointOf(f, u); }
    }
  }

  /** A run of module Spinlock ends in `k`. */
  ghost predicate SpinlockReaches(k: Spinlock.State) {
    exists states, actions :: Spinlock.IsRun(states, actions) && states[|actions|] == k
  }

  lemma SpinlockNext(k: Spinlock.State, t: Tid, a: Spinlock.Action)
    requires SpinlockReaches(k) && Spinlock.Enabled(k, t, a)
    ensures SpinlockReaches(Spinlock.Apply(k, t, a))
  {
    var states, actions :| Spinlock.IsRun(states, actions) && states[|actions|] == k;
    var states', actions' := states + [Spinlock.Apply(k, t, a)], actions + [(t, a)];
    assert Spinlock.IsRun(states', actions') && states'[|actions'|] == Spinlock.Apply(k, t, a);
  }

  lemma UseReaches(k: Spinlock.State, t: Tid, use: Use)
    requires SpinlockReaches(k) && CanUse(k, t, use)
    ensures SpinlockReaches(Used(k, t, use))
  {
    match use
    case Nothing =>
    case Does(a) => SpinlockNext(k, t, a);
    case FailsExchange =>
      SpinlockNext(k, t, Spinlock.Cas);
      SpinlockNext(Spinlock.Apply(k, t, Spinlock.Cas), t, Spinlock.Reset);
  }

  /** In every interleaving each lock goes through a run of module Spinlock. */
  lemma {:induction false} LocksAreSpinlocks(states: seq<Fine>, moves: seq<(Tid, Move)>, i: nat, l: Lock)
    returns (k: Spinlock.State)
    requires IsFineRun(states, moves) && i <= |moves|
    ensures SpinlockReaches(k) && IsLock(states[i], l, k)
  {
    if i == 0 {
      k := Spinlock.INITIAL;
      var none: seq<(Tid, Spinlock.Action)> := [];
      assert Spinlock.IsRun([k], none) && [k][|none|] == k;
      forall t ensures SamePc(states[0], l, k, t) { }
    } else {
      var before := LocksAreSpinlocks(states, moves, i - 1, l);
      var (t, mv) := moves[i - 1];
      assert Moves(states[i - 1], moves[i - 1], states[i]);
      var use := UseOf(states[i - 1], t, mv, l);
      MoveUses(states[i - 1], t, mv, l, before);
      UseReaches(before, t, use);
      k := Used(before, t, use);
    }
  }

  // ---- what holds in every interleaving ----

  /**
   * Every move makes one atomic step of the scheduler, whose guard the locks make true, or none; so taking
   * and releasing the locks one by one reaches no state that the atomic steps do not reach.
   */
  lemma AtomicStepsSuffice(f: Fine, t: Tid, mv: Move)
    requires FineReachable(f) && Can(f, t, mv)
    ensures Reachable(f.s)
    ensures var step := Under(t, PointOf(f, t), mv);
      if step.Some? then Next(f.s, step.value, Do(f, t, mv).s) else Do(f, t, mv).s == f.s
  {
    FineReachableInv(f);
    GuardsHold(f, t, mv);
  }

  /** A thread holds exactly the locks of its program point, and `sem_` is 0 iff exactly one thread does. */
  lemma HeldIsProgramPoint(f: Fine)
    requires FineReachable(f)
    ensures forall t {:trigger HeldBy(f, t)} :: HeldBy(f, t) == HeldAt(t, PointOf(f, t))
    ensures forall l {:trigger Sem(f, l)} ::
      Sem(f, l) in {0, 1} && (Sem(f, l) == 0 <==> exists t {:trigger Has(f, t, l)} :: Has(f, t, l))
    ensures forall t, u, l {:trigger Has(f, t, l), Has(f, u, l)} :: Has(f, t, l) && Has(f, u, l) ==> t == u
  {
    FineReachableInv(f);
    forall t ensures HeldBy(f, t) == HeldAt(t, PointOf(f, t)) { assert ThreadOk(f, t); }
    forall l ensures Sem(f, l) in {0, 1} && (Sem(f, l) == 0 <==> exists t {:trigger Has(f, t, l)} :: Has(f, t, l)) {
      assert LockOk(f, l);
    }
  }

  lemma SectionStays(s: State, t: Tid, job: Job, a: Addr)
    requires Enabled(s, SectionStep(t, job, a)) && t < |s.procs|
    ensures |Apply(s, SectionStep(t, job, a)).procs| == |s.procs|
    ensures Apply(s, SectionStep(t, job, a)).procs[t].onCpu == s.procs[t].onCpu
  {
  }

  lemma FreeLockStays(s: State, t: Tid, c: CoStep)
    requires EnabledCo(s, t, c) && (c.WakeOne? || c.WakeDone?)
    ensures |ApplyCo(s, t, c).procs| == |s.procs| && ApplyCo(s, t, c).procs[t].onCpu == s.procs[t].onCpu
  {
  }

  lemma LocalKeepsCount(s: State, step: Step)
    requires Enabled(s, step)
    ensures |Apply(s, step).procs| == |s.procs|
  {
    match step
    case OfLoop(p, l) => LoopQueues(s, p, l, p);
    case OfCo(p, c) => CoQueues(s, p, c, p);
    case _ =>
  }

  /** When a thread changes stacks, into a coroutine or out of one, it holds no spinlock. */
  lemma ContextSwitchHoldsNothing(f: Fine, t: Tid, mv: Move, u: Tid)
    requires FineReachable(f) && Can(f, t, mv) && u < |f.s.procs|
    ensures u < |Do(f, t, mv).s.procs|
    ensures Do(f, t, mv).s.procs[u].onCpu != f.s.procs[u].onCpu ==>
      u == t && HeldBy(f, t) == {} && HeldBy(Do(f, t, mv), t) == {}
  {
    FineReachableInv(f);
    assert ThreadOk(f, t);
    MoverHeld(f, t, mv);
    GuardsHold(f, t, mv);
    var step := Under(t, PointOf(f, t), mv);
    if step.Some? {
      if u != t {
        UnderIsMine(t, PointOf(f, t), mv, u);
        LeavesSelf(f.s, step.value, u);
      } else {
        match mv
        case Section(a) => SectionStays(f.s, t, PointOf(f, t).job, a);
        case PushWaiter => FreeLockStays(f.s, t, WakeOne);
        case Finish => FreeLockStays(f.s, t, WakeDone);
        case Local(l) => LocalKeepsCount(f.s, l);
      }
    }
  }

  /** A coroutine that has called yield, is back from it, or has finished runs on a thread that holds no spinlock. */
  lemma HoldersAreInSections(f: Fine, t: Tid)
    requires FineReachable(f) && InCo(f.s, t) && HeldBy(f, t) != {}
    ensures MyPc(f.s, t).Attempt? || MyPc(f.s, t).User? || MyPc(f.s, t).Freeing? || MyPc(f.s, t).Yielding?
    ensures MyPc(f.s, t).Yielding? ==> PointOf(f, t).Leaving?
  {
    FineReachableInv(f);
    assert ThreadOk(f, t);
  }

  /** Only the lock_ of one mutex is ever held while another lock is being acquired, and that one is a newQueLock_. */
  lemma NestingOrder(f: Fine, t: Tid)
    requires FineReachable(f) && Wanted(t, PointOf(f, t)).Some? && HeldBy(f, t) != {}
    ensures exists m, p :: HeldBy(f, t) == {MutexLock(m)} && Wanted(t, PointOf(f, t)) == Some(QueueLock(p))
  {
    FineReachableInv(f);
    assert ThreadOk(f, t);
    var point := PointOf(f, t);
    assert HeldBy(f, t) == {MutexLock(point.m)} && Wanted(t, point) == Some(QueueLock(point.p));
  }

  // ---- no thread waits in vain ----

  predicate FailsCas(f: Fine, t: Tid, mv: Move) {
    (mv.Acquire? || mv.AcquireFor?) && Acquires(f, t, mv).None?
  }

  /** Time may pass on any thread, but is no move of its own. */
  predicate IsTick(mv: Move) {
    mv.Local? && mv.step.Tick?
  }

  ghost predicate CanAdvance(f: Fine, t: Tid) {
    exists mv {:trigger Can(f, t, mv)} :: Can(f, t, mv) && !FailsCas(f, t, mv) && !IsTick(mv)
  }

  predicate Spins(f: Fine, t: Tid, l: Lock) {
    Wanted(t, PointOf(f, t)) == Some(l) && Sem(f, l) == 0
  }

  /** An address that new_obj may return: above all that are in use. */
  lemma Above(s: set<Addr>) returns (b: Addr)
    ensures b != 0 && forall a :: a in s ==> a < b
  {
    if s == {} {
      b := 1;
    } else {
      var x :| x in s;
      var c := Above(s - {x});
      b := if x < c then c else x + 1;
      forall a | a in s ensures a < b { assert a == x || a in s - {x}; }
    }
  }

  /** A thread inside a section can make the accesses that the section is for. */
  lemma SectionAdvances(f: Fine, t: Tid)
    requires PointOf(f, t).Inside?
    ensures CanAdvance(f, t)
  {
    var a := Above(f.s.cos.Keys);
    assert Can(f, t, Section(a)) && !FailsCas(f, t, Section(a));
  }

  lemma FreeLockAdvances(f: Fine, t: Tid)
    requires FineInv(f)
    requires PointOf(f, t).Handing? || PointOf(f, t).InsideFor?
    ensures CanAdvance(f, t)
  {
    assert ThreadOk(f, t);
    var point := PointOf(f, t);
    if point.InsideFor? {
      assert Can(f, t, PushWaiter) && !FailsCas(f, t, PushWaiter);
    } else if f.s.mutexes[point.m].waiting == [] {
      assert Can(f, t, Finish) && !FailsCas(f, t, Finish);
    } else {
      var w := ReachableInv(f.s);
      WaitingHead(f.s, w, point.m);
      assert Can(f, t, Pop) && !FailsCas(f, t, Pop);
    }
  }

  lemma AcquisitionAdvances(f: Fine, t: Tid, l: Lock)
    requires FineInv(f) && Wanted(t, PointOf(f, t)) == Some(l) && !Spins(f, t, l)
    ensures CanAdvance(f, t)
  {
    assert LockOk(f, l);
    var mv := if PointOf(f, t).Acquiring? then Acquire else AcquireFor;
    assert Can(f, t, mv) && !FailsCas(f, t, mv);
  }

  /** A thread that is in the middle of a guarded call, and does not spin, can go on. */
  lemma InsideAdvances(f: Fine, t: Tid)
    requires FineInv(f) && !PointOf(f, t).Outside?
    requires Wanted(t, PointOf(f, t)).Some? ==> !Spins(f, t, Wanted(t, PointOf(f, t)).value)
    ensures CanAdvance(f, t)
  {
    var point := PointOf(f, t);
    if Wanted(t, point).Some? {
      AcquisitionAdvances(f, t, Wanted(t, point).value);
    } else if point.Inside? {
      SectionAdvances(f, t);
    } else if point.Handing? || point.InsideFor? {
      FreeLockAdvances(f, t);
    } else {
      var mv := if point.LeavingFor? then ReleaseFor else Release;
      assert Can(f, t, mv) && !FailsCas(f, t, mv);
    }
  }

  /** Whoever holds a newQueLock_ or coPoolLock_ is not acquiring anything. */
  lemma LeafHolders(f: Fine, v: Tid, k: Lock)
    requires FineInv(f) && Has(f, v, k) && !k.MutexLock?
    ensures Wanted(v, PointOf(f, v)).None? && !PointOf(f, v).Outside?
  {
    assert ThreadOk(f, v);
  }

  /** The thread spins for a lock whose holder can go on. */
  ghost predicate SpinsForAdvancing(f: Fine, u: Tid) {
    exists v, k {:trigger Has(f, v, k)} :: Spins(f, u, k) && v != u && Has(f, v, k) && CanAdvance(f, v)
  }

  /** A spinning thread waits for another that can go on, or that spins for a third that can. */
  lemma SpinningEndsInTwoHops(f: Fine, t: Tid, l: Lock)
    requires FineReachable(f) && Spins(f, t, l)
    ensures exists u {:trigger Has(f, u, l)} :: u != t && Has(f, u, l) && (CanAdvance(f, u) || SpinsForAdvancing(f, u))
  {
    FineReachableInv(f);
    assert LockOk(f, l);
    var u :| Has(f, u, l);
    assert ThreadOk(f, u) && ThreadOk(f, t);
    if k :| Spins(f, u, k) {
      assert LockOk(f, k);
      var v :| Has(f, v, k);
      LeafHolders(f, v, k);
      InsideAdvances(f, v);
      assert Spins(f, u, k) && v != u && Has(f, v, k) && CanAdvance(f, v);
    } else {
      InsideAdvances(f, u);
    }
  }

  /** Outside client code a thread of a processor can always go on, unless it spins. */
  lemma ThreadAdvances(f: Fine, t: Tid)
    requires FineReachable(f) && t < |f.s.procs|
    ensures CanAdvance(f, t) || (exists l :: Spins(f, t, l)) || (PointOf(f, t).Outside? && InClient(f.s, t))
  {
    FineReachableInv(f);
    assert ThreadOk(f, t);
    if !PointOf(f, t).Outside? {
      if Wanted(t, PointOf(f, t)).None? || !Spins(f, t, Wanted(t, PointOf(f, t)).value) { InsideAdvances(f, t); }
    } else if f.s.procs[t].onCpu == 0 {
      LoopAdvances(f, t);
    } else if !InClient(f.s, t) {
      var w := ReachableInv(f.s);
      assert ProcOk(f.s, t);
      Executing(f.s, w, t);
      CoAdvances(f, t);
    }
  }

  lemma LoopAdvances(f: Fine, t: Tid)
    requires t < |f.s.procs| && f.s.procs[t].onCpu == 0 && PointOf(f, t).Outside?
    ensures CanAdvance(f, t)
  {
    var q := f.s.procs[t];
    var mv :=
      if q.stage == Drain && q.running == [] then Begin(Swap)
      else if q.stage == Reclaim && q.ri < |q.removed| then Begin(Delete)
      else Local(OfLoop(t, match q.stage
        case Top => Clear
        case Polled => Poll([])
        case Expiring => Expire
        case RunExpired => if q.ei < |q.expired| then ResumeExpired else ExpiredDone
        case Drain => DrainOne
        case RunActive => if q.ai < |q.act| then ResumeActive else ActiveDone
        case Reclaim => ReclaimDone));
    assert Can(f, t, mv) && !FailsCas(f, t, mv);
  }

  lemma CoAdvances(f: Fine, t: Tid)
    requires InCo(f.s, t) && OnCpuPc(MyPc(f.s, t)) && PcInRange(f.s, MyPc(f.s, t))
    requires !MyPc(f.s, t).User? && !MyPc(f.s, t).Freeing? && PointOf(f, t).Outside?
    ensures CanAdvance(f, t)
  {
    var mv := match MyPc(f.s, t)
      case Attempt(m, _) => Begin(Try(m))
      case Yielding(_) => Local(OfCo(t, Yield))
      case Switching(_) => Local(OfCo(t, Switch))
      case Removing(_) => Local(OfCo(t, RemoveEv))
      case _ => Local(OfCo(t, Exit));
    assert Can(f, t, mv) && !FailsCas(f, t, mv);
  }

  // ---- every holder leaves ----

  function Waiters(s: State, m: Mid): nat {
    if m < |s.mutexes| then |s.mutexes[m].waiting| else 0
  }

  /** How many of its own moves a holder is away from holding nothing, at most. */
  function Work(s: State, point: Point): nat {
    match point
    case Outside => 0
    case Acquiring(_) => 0
    case Inside(Undo(m, _)) => 4 * Waiters(s, m) + 3
    case Inside(_) => 2
    case Leaving(_) => 1
    case Made(_, _) => 1
    case Handing(m) => 4 * Waiters(s, m) + 2
    case AcquiringFor(m, _) => 4 * Waiters(s, m) + 1
    case InsideFor(m, _) => 4 * Waiters(s, m)
    case LeavingFor(m, _) => 4 * Waiters(s, m) + 3
  }

  lemma UndoWaiters(s: State, t: Tid, m: Mid, kind: Kind)
    requires EnabledCo(s, t, Unlock(m, kind))
    ensures Waiters(ApplyCo(s, t, Unlock(m, kind)), m) == Waiters(s, m)
  {
  }

  lemma WakeWaiters(s: State, t: Tid, m: Mid)
    requires InFreeLock(s, t, m) && EnabledCo(s, t, WakeOne)
    ensures Waiters(ApplyCo(s, t, WakeOne), m) == Waiters(s, m) - 1
  {
  }

  /** Every move of a holder that is not a failed compare-and-swap brings it closer to holding nothing. */
  lemma HolderLeaves(f: Fine, t: Tid, mv: Move)
    requires FineReachable(f) && Can(f, t, mv) && HeldBy(f, t) != {} && !FailsCas(f, t, mv)
    ensures Work(Do(f, t, mv).s, PointOf(Do(f, t, mv), t)) < Work(f.s, PointOf(f, t))
  {
    FineReachableInv(f);
    GuardsHold(f, t, mv);
    assert ThreadOk(f, t);
    var point := PointOf(f, t);
    match mv
    case Section(a) => if point.job.Undo? { UndoWaiters(f.s, t, point.job.m, point.job.kind); }
    case PushWaiter => WakeWaiters(f.s, t, point.m);
    case _ =>
  }

  /** ... and no other thread pushes it back. */
  lemma HolderIsLeftAlone(f: Fine, t: Tid, mv: Move, u: Tid)
    requires FineReachable(f) && Can(f, t, mv) && u != t && HeldBy(f, u) != {}
    ensures Work(Do(f, t, mv).s, PointOf(Do(f, t, mv), u)) == Work(f.s, PointOf(f, u))
  {
    FineReachableInv(f);
    GuardsHold(f, t, mv);
    assert ThreadOk(f, t) && ThreadOk(f, u);
    var step, point := Under(t, PointOf(f, t), mv), PointOf(f, u);
    var m := MutexOf(point);
    if step.Some? && m.Some? {
      assert Has(f, u, MutexLock(m.value));
      if OnMutex(f.s, step.value, m.value) { OnMutexHolds(f, t, mv, m.value); }
      SameMutexCount(f.s, step.value);
      if m.value < |f.s.mutexes| { LeavesMutex(f.s, step.value, m.value); }
    }
  }

  /** The mutex whose wait queue the holder's way out depends on. */
  function MutexOf(point: Point): Option<Mid> {
    match point
    case Inside(Undo(m, _)) => Some(m)
    case Handing(m) => Some(m)
    case AcquiringFor(m, _) => Some(m)
    case InsideFor(m, _) => Some(m)
    case LeavingFor(m, _) => Some(m)
    case _ => None
  }
}
