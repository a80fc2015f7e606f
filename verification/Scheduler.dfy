/**
 * The scheduling core as a step system: any number of processors (threads), coroutines and
 * reader-writer mutexes.  One step is one access to shared state, or a stretch of code of one
 * thread that no other thread can observe.  Sections guarded by `newQueLock_` and `coPoolLock_`
 * contain no other lock and are single steps, and so are the sections of a mutex; module Locking takes
 * and releases the locks step by step, TaskQueue and MutexSections take the sections themselves apart.
 * A mutex's `lock_` is held across the pushes of `freeLock`, so it is explicit here.
 */
module Scheduler {
  import opened Seqs
  import opened SleepQueue

  type Pid = nat
  type Mid = nat
  type Fd = nat

  datatype Kind = Reading | Writing
  datatype Status = CO_READY | CO_RUNNING | CO_WAITING | CO_DEAD
  datatype MuStatus = MU_FREE | MU_READING | MU_WRITING

  /** What a coroutine that gave up its thread is waiting for. */
  datatype Why = Sleeping(due: int) | Polling(fd: Fd) | Queueing(m: Mid, kind: Kind)

  /** Where a coroutine's own control is. */
  datatype Pc =
    | Fresh                          // constructed, never resumed
    | User                           // in the client's function
    | Attempt(m: Mid, kind: Kind)    // at the head of rlock/wlock
    | Freeing(m: Mid)                // in the loop of freeLock, holding the mutex's lock_
    | Yielding(why: Why)             // recorded itself, about to call Processor::yield
    | Switching(why: Why)            // status set, about to swap to the loop
    | Suspended(why: Why)            // swapped out
    | Removing(fd: Fd)               // back in waitEvent, about to call removeEv
    | Exiting                        // killCurCo done, about to leave its stack
    | Dead                           // left its stack for good

  datatype Coroutine = Coroutine(owner: Pid, status: Status, pc: Pc)

  /** The program point of Processor::loop. */
  datatype Stage = Top | Polled | Expiring | RunExpired | Drain | RunActive | Reclaim

  datatype Processor = Processor(
    stage: Stage,
    onCpu: Addr,              // whose stack the thread is on; 0 is the loop itself
    cur: Addr,                // pCurCoroutine_
    running: seq<Addr>,       // newCoroutines_[runningNewQue_]
    adding: seq<Addr>,        // newCoroutines_[!runningNewQue_]
    heap: seq<Entry>,         // timer_.timerCoHeap_
    expired: seq<Addr>, ei: nat,   // timerExpiredCo_ and the index of its loop
    interest: map<Fd, Addr>,  // what is registered with epoll
    act: seq<Addr>, ai: nat,  // actCoroutines_ and the index of its loop
    coSet: set<Addr>,
    removed: seq<Addr>, ri: nat)   // removedCo_ and the position of its loop

  /** `readers` and `writer` are the clients' view: who returned from a lock call and has not unlocked. */
  datatype RWMutex = RWMutex(
    state: MuStatus, readingNum: int, waiting: seq<Addr>, lock: Option<Pid>,
    readers: multiset<Addr>, writer: Addr)

  /** `hand`: constructed by goNewCo and not yet pushed. `cos`: every constructed, undeleted coroutine. */
  datatype State = State(
    now: int, procs: seq<Processor>, mutexes: seq<RWMutex>, cos: map<Addr, Coroutine>, hand: set<Addr>)

  /** Steps of Processor::loop. */
  datatype LoopStep =
    | Clear | Poll(ready: seq<Option<Fd>>) | Expire | ResumeExpired | ExpiredDone | DrainOne | Flip
    | ResumeActive | ActiveDone | ReclaimOne | ReclaimDone

  /** Steps of the coroutine that has the thread: library code, and the calls its function may make. */
  datatype CoStep =
    | CallLock(m: Mid, kind: Kind) | TryLock | Unlock(m: Mid, kind: Kind) | WakeOne | WakeDone
    | Sleep(ms: int) | WaitEvent(fd: Fd) | RemoveEv | Yield | Switch | Kill | Exit

  /** `NewCo` and `GoNew` are the two halves of goNewCo, on any thread. */
  datatype Step =
    | OfLoop(p: Pid, l: LoopStep) | OfCo(p: Pid, c: CoStep)
    | NewCo(p: Pid, a: Addr) | GoNew(a: Addr) | Tick(t: int)

  // ---- small updates ----

  function WithProc(s: State, p: Pid, q: Processor): State
    requires p < |s.procs|
  {
    s.(procs := s.procs[p := q])
  }

  function WithMutex(s: State, m: Mid, u: RWMutex): State
    requires m < |s.mutexes|
  {
    s.(mutexes := s.mutexes[m := u])
  }

  function SetPc(s: State, a: Addr, pc: Pc): State
    requires a in s.cos
  {
    s.(cos := s.cos[a := s.cos[a].(pc := pc)])
  }

  /** Coroutine::yield on whatever pointer the caller has. */
  function SetWaiting(s: State, a: Addr): State {
    if a in s.cos then s.(cos := s.cos[a := s.cos[a].(status := CO_WAITING)]) else s
  }

  predicate InLoop(s: State, p: Pid, stage: Stage) {
    p < |s.procs| && s.procs[p].onCpu == 0 && s.procs[p].stage == stage
  }

  predicate InCo(s: State, p: Pid) {
    p < |s.procs| && s.procs[p].onCpu != 0 && s.procs[p].onCpu in s.cos
  }

  /** The program counter of the coroutine that thread `p` executes. */
  function MyPc(s: State, p: Pid): Pc
    requires InCo(s, p)
  {
    s.cos[s.procs[p].onCpu].pc
  }

  // ---- Processor::resume and Coroutine::resume ----

  function Continue(pc: Pc): Pc {
    match pc
    case Fresh => User
    case Suspended(Sleeping(_)) => User
    case Suspended(Polling(fd)) => Removing(fd)
    case Suspended(Queueing(m, kind)) => Attempt(m, kind)
    case _ => pc
  }

  /** Processor::resume: null and unknown pointers are ignored, and so is any status but READY and WAITING. */
  function Resume(s: State, p: Pid, a: Addr): State
    requires p < |s.procs|
  {
    if a == 0 || a !in s.procs[p].coSet then s
    else
      var s1 := WithProc(s, p, s.procs[p].(cur := a));
      if a in s.cos && s.cos[a].status in {CO_READY, CO_WAITING} then
        var c := s.cos[a];
        WithProc(s1, p, s1.procs[p].(onCpu := a)).(
          cos := s.cos[a := c.(status := CO_RUNNING, pc := Continue(c.pc))])
      else s1
  }

  // ---- the loop ----

  /** epoll_wait reports each ready fd at most once; the timer's fd carries a null pointer. */
  ghost predicate PollResult(interest: map<Fd, Addr>, ready: seq<Option<Fd>>) {
    NoDup(ready) && forall i :: 0 <= i < |ready| && ready[i].Some? ==> ready[i].value in interest
  }

  function Events(interest: map<Fd, Addr>, ready: seq<Option<Fd>>): (r: seq<Addr>)
    ensures |r| == |ready|
  {
    seq(|ready|, i requires 0 <= i < |ready| =>
      if ready[i].Some? && ready[i].value in interest then interest[ready[i].value] else 0)
  }

  function DoExpire(q: Processor, now: int): Processor {
    var k := DueCount(q.heap, now);
    q.(stage := RunExpired, expired := q.expired + Cos(q.heap[..k]), heap := q.heap[k..])
  }

  function DoResumeExpired(s: State, p: Pid): State
    requires p < |s.procs| && s.procs[p].ei < |s.procs[p].expired|
  {
    var q := s.procs[p];
    Resume(WithProc(s, p, q.(ei := q.ei + 1)), p, q.expired[q.ei])
  }

  function DoDrainOne(s: State, p: Pid): State
    requires p < |s.procs| && s.procs[p].running != []
  {
    var q := s.procs[p];
    var a := q.running[0];
    Resume(WithProc(s, p, q.(running := q.running[1..], coSet := q.coSet + {a})), p, a)
  }

  function DoResumeActive(s: State, p: Pid): State
    requires p < |s.procs| && s.procs[p].ai < |s.procs[p].act|
  {
    var q := s.procs[p];
    Resume(WithProc(s, p, q.(ai := q.ai + 1)), p, q.act[q.ai])
  }

  function DoReclaimOne(s: State, p: Pid): State
    requires p < |s.procs| && s.procs[p].ri < |s.procs[p].removed|
  {
    var q := s.procs[p];
    var a := q.removed[q.ri];
    WithProc(s, p, q.(coSet := q.coSet - {a}, ri := q.ri + 1)).(cos := s.cos - {a})
  }

  // ---- RWMutex ----

  predicate Admits(u: RWMutex, kind: Kind) {
    u.state == MU_FREE || (kind == Reading && u.state == MU_READING)
  }

  /** The guarded section of rlock or wlock: the lock is taken, or the current coroutine enqueued. */
  function Tried(u: RWMutex, kind: Kind, cur: Addr, me: Addr): RWMutex {
    if !Admits(u, kind) then u.(waiting := u.waiting + [cur])
    else if kind == Reading then
      u.(state := MU_READING, readingNum := u.readingNum + 1, readers := u.readers + multiset{me})
    else u.(state := MU_WRITING, writer := me)
  }

  function DoTryLock(s: State, p: Pid): State
    requires InCo(s, p) && MyPc(s, p).Attempt? && MyPc(s, p).m < |s.mutexes|
  {
    var me := s.procs[p].onCpu;
    var Attempt(m, kind) := MyPc(s, p);
    var u := s.mutexes[m];
    SetPc(WithMutex(s, m, Tried(u, kind, s.procs[p].cur, me)), me,
      if Admits(u, kind) then User else Yielding(Queueing(m, kind)))
  }

  /** Whether the unlock goes on to freeLock. */
  predicate Frees(u: RWMutex, kind: Kind) {
    kind == Writing || u.readingNum == 1
  }

  /** The guarded section of runlock or wunlock, up to freeLock's loop. */
  function Unlocked(u: RWMutex, kind: Kind, p: Pid, me: Addr): RWMutex {
    if kind == Writing then u.(state := MU_FREE, lock := Some(p), writer := 0)
    else
      var v := u.(readingNum := u.readingNum - 1, readers := u.readers - multiset{me});
      if Frees(u, kind) then v.(state := MU_FREE, lock := Some(p)) else v
  }

  function DoUnlock(s: State, p: Pid, m: Mid, kind: Kind): State
    requires InCo(s, p) && m < |s.mutexes|
  {
    var me := s.procs[p].onCpu;
    var u := s.mutexes[m];
    var s1 := WithMutex(s, m, Unlocked(u, kind, p, me));
    if Frees(u, kind) then SetPc(s1, me, Freeing(m)) else s1
  }

  /** One turn of freeLock's loop: pop a waiter and hand it to its own processor (goCo). */
  function DoWakeOne(s: State, p: Pid): State
    requires InCo(s, p) && MyPc(s, p).Freeing? && MyPc(s, p).m < |s.mutexes|
    requires s.mutexes[MyPc(s, p).m].waiting != []
  {
    var m := MyPc(s, p).m;
    var u := s.mutexes[m];
    var s1 := WithMutex(s, m, u.(waiting := u.waiting[1..]));
    GoCo(s1, u.waiting[0])
  }

  /** goCo on the processor of the coroutine. */
  function GoCo(s: State, a: Addr): State {
    if a in s.cos && s.cos[a].owner < |s.procs| then
      var o := s.cos[a].owner;
      WithProc(s, o, s.procs[o].(adding := s.procs[o].adding + [a]))
    else s
  }

  function DoWakeDone(s: State, p: Pid): State
    requires InCo(s, p) && MyPc(s, p).Freeing? && MyPc(s, p).m < |s.mutexes|
  {
    var m := MyPc(s, p).m;
    SetPc(WithMutex(s, m, s.mutexes[m].(lock := None)), s.procs[p].onCpu, User)
  }

  // ---- the other calls a coroutine can make ----

  function DoSleep(s: State, p: Pid, ms: int): State
    requires InCo(s, p)
  {
    var q := s.procs[p];
    var due := s.now + ms;
    SetPc(WithProc(SetWaiting(s, q.cur), p, q.(heap := Insert(q.heap, Entry(due, q.cur)))),
      q.onCpu, Switching(Sleeping(due)))
  }

  /** EPOLL_CTL_ADD fails on a descriptor that is already registered, and waitEvent ignores the failure. */
  function DoWaitEvent(s: State, p: Pid, fd: Fd): State
    requires InCo(s, p)
  {
    var q := s.procs[p];
    var i := if fd in q.interest then q.interest else q.interest[fd := q.cur];
    SetPc(WithProc(s, p, q.(interest := i)), q.onCpu, Yielding(Polling(fd)))
  }

  // ---- the step relation ----

  ghost predicate EnabledLoop(s: State, p: Pid, l: LoopStep) {
    match l
    case Clear => InLoop(s, p, Top)
    case Poll(ready) => InLoop(s, p, Polled) && PollResult(s.procs[p].interest, ready)
    case Expire => InLoop(s, p, Expiring)
    case ResumeExpired => InLoop(s, p, RunExpired) && s.procs[p].ei < |s.procs[p].expired|
    case ExpiredDone => InLoop(s, p, RunExpired) && s.procs[p].ei >= |s.procs[p].expired|
    case DrainOne => InLoop(s, p, Drain) && s.procs[p].running != []
    case Flip => InLoop(s, p, Drain) && s.procs[p].running == []
    case ResumeActive => InLoop(s, p, RunActive) && s.procs[p].ai < |s.procs[p].act|
    case ActiveDone => InLoop(s, p, RunActive) && s.procs[p].ai >= |s.procs[p].act|
    case ReclaimOne => InLoop(s, p, Reclaim) && s.procs[p].ri < |s.procs[p].removed|
    case ReclaimDone => InLoop(s, p, Reclaim) && s.procs[p].ri >= |s.procs[p].removed|
  }

  predicate EnabledCo(s: State, p: Pid, c: CoStep) {
    InCo(s, p) &&
    match c
    case CallLock(m, _) => MyPc(s, p).User? && m < |s.mutexes|
    case TryLock => MyPc(s, p).Attempt? && MyPc(s, p).m < |s.mutexes| && s.mutexes[MyPc(s, p).m].lock.None?
    case Unlock(m, _) => MyPc(s, p).User? && m < |s.mutexes| && s.mutexes[m].lock.None?
    case WakeOne => MyPc(s, p).Freeing? && MyPc(s, p).m < |s.mutexes| && s.mutexes[MyPc(s, p).m].waiting != []
    case WakeDone => MyPc(s, p).Freeing? && MyPc(s, p).m < |s.mutexes| && s.mutexes[MyPc(s, p).m].waiting == []
    case Sleep(_) => MyPc(s, p).User?
    case WaitEvent(_) => MyPc(s, p).User?
    case RemoveEv => MyPc(s, p).Removing?
    case Yield => MyPc(s, p).Yielding?
    case Switch => MyPc(s, p).Switching?
    case Kill => MyPc(s, p).User?
    case Exit => MyPc(s, p).Exiting?
  }

  /** What clients owe the library: unlock only what you hold, and one waiter per descriptor and processor. */
  predicate Disciplined(s: State, p: Pid, c: CoStep)
    requires EnabledCo(s, p, c)
  {
    match c
    case Unlock(m, Reading) => s.procs[p].onCpu in s.mutexes[m].readers
    case Unlock(m, Writing) => s.procs[p].onCpu == s.mutexes[m].writer
    case WaitEvent(fd) => fd !in s.procs[p].interest
    case _ => true
  }

  function ApplyLoop(s: State, p: Pid, l: LoopStep): State
    requires EnabledLoop(s, p, l)
  {
    var q := s.procs[p];
    match l
    case Clear => WithProc(s, p, q.(stage := Polled, act := [], ai := 0, expired := [], ei := 0))
    case Poll(ready) => WithProc(s, p, q.(stage := Expiring, act := q.act + Events(q.interest, ready)))
    case Expire => WithProc(s, p, DoExpire(q, s.now))
    case ResumeExpired => DoResumeExpired(s, p)
    case ExpiredDone => WithProc(s, p, q.(stage := Drain))
    case DrainOne => DoDrainOne(s, p)
    case Flip => WithProc(s, p, q.(stage := RunActive, running := q.adding, adding := q.running))
    case ResumeActive => DoResumeActive(s, p)
    case ActiveDone => WithProc(s, p, q.(stage := Reclaim))
    case ReclaimOne => DoReclaimOne(s, p)
    case ReclaimDone => WithProc(s, p, q.(stage := Top, removed := [], ri := 0))
  }

  function ApplyCo(s: State, p: Pid, c: CoStep): State
    requires EnabledCo(s, p, c)
  {
    var q := s.procs[p];
    match c
    case CallLock(m, kind) => SetPc(s, q.onCpu, Attempt(m, kind))
    case TryLock => DoTryLock(s, p)
    case Unlock(m, kind) => DoUnlock(s, p, m, kind)
    case WakeOne => DoWakeOne(s, p)
    case WakeDone => DoWakeDone(s, p)
    case Sleep(ms) => DoSleep(s, p, ms)
    case WaitEvent(fd) => DoWaitEvent(s, p, fd)
    case RemoveEv =>
      SetPc(WithProc(s, p, q.(interest := q.interest - {MyPc(s, p).fd})), q.onCpu, User)
    case Yield => SetPc(SetWaiting(s, q.cur), q.onCpu, Switching(MyPc(s, p).why))
    case Switch => SetPc(WithProc(s, p, q.(onCpu := 0)), q.onCpu, Suspended(MyPc(s, p).why))
    case Kill => SetPc(WithProc(s, p, q.(removed := q.removed + [q.cur])), q.onCpu, Exiting)
    case Exit => SetPc(WithProc(s, p, q.(onCpu := 0)), q.onCpu, Dead)
  }

  ghost predicate Enabled(s: State, step: Step) {
    match step
    case OfLoop(p, l) => EnabledLoop(s, p, l)
    case OfCo(p, c) => EnabledCo(s, p, c) && Disciplined(s, p, c)
    case NewCo(p, a) => p < |s.procs| && a != 0 && a !in s.cos
    case GoNew(a) => a in s.hand
    case Tick(t) => s.now <= t
  }

  /** new_obj on `p`'s pool returned the address `a`. */
  function DoNewCo(s: State, p: Pid, a: Addr): State {
    s.(cos := s.cos[a := Coroutine(p, CO_READY, Fresh)], hand := s.hand + {a})
  }

  function DoGoNew(s: State, a: Addr): State {
    GoCo(s.(hand := s.hand - {a}), a)
  }

  function Apply(s: State, step: Step): State
    requires Enabled(s, step)
  {
    match step
    case OfLoop(p, l) => ApplyLoop(s, p, l)
    case OfCo(p, c) => ApplyCo(s, p, c)
    case NewCo(p, a) => DoNewCo(s, p, a)
    case GoNew(a) => DoGoNew(s, a)
    case Tick(t) => s.(now := t)
  }

  /** All processors at the top of their loops, nothing created, every mutex free. */
  predicate Init(s: State) {
    && s.cos == map[] && s.hand == {}
    && (forall p :: 0 <= p < |s.procs| ==>
      s.procs[p] == Processor(Top, 0, 0, [], [], [], [], 0, map[], [], 0, {}, [], 0))
    && (forall m :: 0 <= m < |s.mutexes| ==> s.mutexes[m] == RWMutex(MU_FREE, 0, [], None, multiset{}, 0))
  }

  ghost predicate Next(s: State, step: Step, s': State) {
    Enabled(s, step) && s' == Apply(s, step)
  }

  ghost predicate StepOk(states: seq<State>, steps: seq<Step>, i: nat)
    requires i < |steps| && i + 1 < |states|
  {
    Next(states[i], steps[i], states[i + 1])
  }

  /** A run of disciplined clients: `steps[i]` leads from `states[i]` to `states[i + 1]`. */
  ghost predicate IsRun(states: seq<State>, steps: seq<Step>) {
    && |states| == |steps| + 1
    && Init(states[0])
    && forall i {:trigger StepOk(states, steps, i)} :: 0 <= i < |steps| ==> StepOk(states, steps, i)
  }
}
