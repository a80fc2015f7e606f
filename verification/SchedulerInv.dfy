/**
 * The inductive invariant of the step system.  A placement `w` says for every constructed
 * coroutine in which single place it is recorded; it is a witness, not part of the state.
 */
module SchedulerInv {
  import opened Seqs
  import opened SleepQueue
  import opened Scheduler

  datatype Loc =
    | Nowhere | Hand(a: Addr) | Adding(p: Pid) | Running(p: Pid) | Heap(p: Pid) | Expired(p: Pid)
    | Event(p: Pid, fd: Fd) | WaitQ(m: Mid) | Removed(p: Pid)

  type Placement = map<Addr, Loc>

  /** What is recorded at a place: lists that are consumed by index count from the index on. */
  ghost function At(s: State, loc: Loc): seq<Addr> {
    match loc
    case Nowhere => []
    case Hand(a) => if a in s.hand then [a] else []
    case Adding(p) => if p < |s.procs| then s.procs[p].adding else []
    case Running(p) => if p < |s.procs| then s.procs[p].running else []
    case Heap(p) => if p < |s.procs| then Cos(s.procs[p].heap) else []
    case Expired(p) =>
      if p < |s.procs| && s.procs[p].ei <= |s.procs[p].expired| then s.procs[p].expired[s.procs[p].ei..] else []
    case Event(p, fd) => if p < |s.procs| && fd in s.procs[p].interest then [s.procs[p].interest[fd]] else []
    case WaitQ(m) => if m < |s.mutexes| then s.mutexes[m].waiting else []
    case Removed(p) =>
      if p < |s.procs| && s.procs[p].ri <= |s.procs[p].removed| then s.procs[p].removed[s.procs[p].ri..] else []
  }

  /** Every place lists exactly the coroutines that `w` puts there, each once. */
  ghost predicate Placed(at: Loc -> seq<Addr>, cos: set<Addr>, w: Placement) {
    && w.Keys == cos
    && at(Nowhere) == []
    && (forall loc :: NoDup(at(loc)))
    && (forall loc, a :: a in at(loc) ==> a in w && w[a] == loc)
    && (forall a :: a in w && w[a] != Nowhere ==> a in at(w[a]))
  }

  ghost function Lists(s: State): Loc -> seq<Addr> {
    loc => At(s, loc)
  }

  ghost predicate TokenInv(s: State, w: Placement) {
    Placed(Lists(s), s.cos.Keys, w)
  }

  predicate OnCpuPc(pc: Pc) {
    !pc.Fresh? && !pc.Suspended? && !pc.Dead?
  }

  /** Where a coroutine that parked itself for `why` may be recorded. */
  predicate Parked(o: Pid, why: Why, loc: Loc) {
    match why
    case Sleeping(_) => loc in {Heap(o), Expired(o)}
    case Polling(fd) => loc == Event(o, fd)
    case Queueing(m, _) => loc in {WaitQ(m), Adding(o), Running(o)}
  }

  /** Status, control and place of a coroutine agree. */
  predicate Fits(a: Addr, c: Coroutine, loc: Loc) {
    match c.pc
    case Fresh => c.status == CO_READY && loc in {Hand(a), Adding(c.owner), Running(c.owner)}
    case User => c.status == CO_RUNNING && loc == Nowhere
    case Attempt(_, _) => c.status == CO_RUNNING && loc == Nowhere
    case Freeing(_) => c.status == CO_RUNNING && loc == Nowhere
    case Yielding(why) => c.status == CO_RUNNING && !why.Sleeping? && Parked(c.owner, why, loc)
    case Switching(why) => c.status == CO_WAITING && Parked(c.owner, why, loc)
    case Suspended(why) => c.status == CO_WAITING && Parked(c.owner, why, loc)
    case Removing(fd) => c.status == CO_RUNNING && loc == Event(c.owner, fd)
    case Exiting => c.status == CO_RUNNING && loc == Removed(c.owner)
    case Dead => c.status == CO_RUNNING && loc == Removed(c.owner)
  }

  ghost predicate PcInRange(s: State, pc: Pc) {
    match pc
    case Attempt(m, _) => m < |s.mutexes|
    case Freeing(m) => m < |s.mutexes|
    case Yielding(Queueing(m, _)) => m < |s.mutexes|
    case Switching(Queueing(m, _)) => m < |s.mutexes|
    case Suspended(Queueing(m, _)) => m < |s.mutexes|
    case _ => true
  }

  /**
   * One coroutine: its record fits its place; if it is executing, its own thread is on its stack; if it
   * is inside freeLock, its thread holds that mutex's lock_; and its processor knows it once it started.
   */
  ghost predicate CoOk(s: State, w: Placement, a: Addr)
    requires a in s.cos && a in w
  {
    var c := s.cos[a];
    && c.owner < |s.procs| && Fits(a, c, w[a]) && PcInRange(s, c.pc)
    && (OnCpuPc(c.pc) ==> s.procs[c.owner].onCpu == a)
    && (c.pc.Freeing? ==> s.mutexes[c.pc.m].lock == Some(c.owner))
    && (a in s.procs[c.owner].coSet <==> !c.pc.Fresh?)
  }

  /** The thread is on the stack that pCurCoroutine_ names, and the coroutine there belongs to it. */
  ghost predicate ProcExec(s: State, p: Pid)
    requires p < |s.procs|
  {
    var q := s.procs[p];
    q.onCpu != 0 ==>
      && q.onCpu in s.cos && s.cos[q.onCpu].owner == p && OnCpuPc(s.cos[q.onCpu].pc)
      && q.cur == q.onCpu && q.stage in {RunExpired, Drain, RunActive}
  }

  /** Which lists are used up at which point of the loop. */
  predicate ProcStage(q: Processor) {
    && q.ei <= |q.expired| && q.ai <= |q.act| && q.ri <= |q.removed|
    && (q.stage !in {RunExpired} ==> q.ei == |q.expired|)
    && (q.stage in {Top, Polled, Reclaim} ==> q.ai == |q.act|)
    && (q.stage in {Polled, Expiring} ==> q.ei == 0)
    && (q.stage == Polled ==> q.ai == 0)
    && (q.stage in {Top, Polled, Expiring} ==> q.removed == [])
    && (q.stage != Reclaim ==> q.ri == 0)
  }

  /** `a` is swapped out in waitEvent on `p`, its descriptor registered. */
  ghost predicate AwaitsEvent(s: State, p: Pid, a: Addr)
    requires p < |s.procs|
  {
    && a in s.cos && s.cos[a].owner == p
    && s.cos[a].pc.Suspended? && s.cos[a].pc.why.Polling?
  }

  /** An unprocessed active entry is null or a waiting coroutine, and none is listed twice. */
  ghost predicate ProcAct(s: State, p: Pid)
    requires p < |s.procs|
  {
    var q := s.procs[p];
    && (forall i, j :: q.ai <= i < j < |q.act| && q.act[i] != 0 ==> q.act[i] != q.act[j])
    && (forall i :: q.ai <= i < |q.act| && q.act[i] != 0 ==> AwaitsEvent(s, p, q.act[i]))
  }

  predicate DueOf(pc: Pc, due: int) {
    pc in {Switching(Sleeping(due)), Suspended(Sleeping(due))}
  }

  /** `e.co` is a coroutine of `p` that parked itself in wait until `e.due`. */
  ghost predicate Sleeps(s: State, p: Pid, e: Entry) {
    e.co in s.cos && s.cos[e.co].owner == p && DueOf(s.cos[e.co].pc, e.due)
  }

  /** `a` is a coroutine of `p`, swapped out in wait with a deadline that has passed. */
  ghost predicate Overdue(s: State, p: Pid, a: Addr) {
    && a in s.cos && s.cos[a].owner == p
    && s.cos[a].pc.Suspended? && s.cos[a].pc.why.Sleeping? && s.cos[a].pc.why.due <= s.now
  }

  ghost predicate ProcTime(s: State, p: Pid)
    requires p < |s.procs|
  {
    var q := s.procs[p];
    && Sorted(q.heap)
    && (forall i :: 0 <= i < |q.heap| ==> Sleeps(s, p, q.heap[i]))
    && (forall i :: q.ei <= i < |q.expired| ==> Overdue(s, p, q.expired[i]))
  }

  ghost predicate ProcOk(s: State, p: Pid)
    requires p < |s.procs|
  {
    && ProcExec(s, p) && ProcStage(s.procs[p]) && ProcAct(s, p) && ProcTime(s, p)
    && forall a :: a in s.procs[p].coSet ==> a in s.cos && s.cos[a].owner == p && !s.cos[a].pc.Fresh?
  }

  /** The state word, the counter and the clients' view of one mutex agree. */
  ghost predicate MutexOk(u: RWMutex) {
    && (u.state == MU_FREE ==> u.readers == multiset{} && u.writer == 0 && u.readingNum == 0)
    && (u.state == MU_READING ==> u.writer == 0 && u.readingNum == |u.readers| > 0)
    && (u.state == MU_WRITING ==> u.readers == multiset{} && u.writer != 0 && u.readingNum == 0)
    && (u.lock.Some? ==> u.state == MU_FREE)
    && (u.waiting != [] ==> u.state != MU_FREE || u.lock.Some?)
  }

  /** Unlocking is by a holder; a mutex that stays held keeps its lock word. */
  lemma UnlockedOk(u: RWMutex, kind: Kind, p: Pid, me: Addr)
    requires MutexOk(u) && u.lock.None?
    requires if kind == Reading then me in u.readers else me != 0 && me == u.writer
    ensures MutexOk(Unlocked(u, kind, p, me))
    ensures Unlocked(u, kind, p, me).lock == if Frees(u, kind) then Some(p) else None
  {
  }

  /** ... and a held lock_ is held by a thread whose coroutine is inside freeLock. */
  ghost predicate MuOk(s: State, m: Mid)
    requires m < |s.mutexes|
  {
    && MutexOk(s.mutexes[m])
    && (s.mutexes[m].lock.Some? ==>
      InCo(s, s.mutexes[m].lock.value) && MyPc(s, s.mutexes[m].lock.value) == Freeing(m))
  }

  ghost predicate Core(s: State, w: Placement) {
    && w.Keys == s.cos.Keys && 0 !in s.cos
    && (forall a {:trigger CoOk(s, w, a)} :: a in s.cos ==> CoOk(s, w, a))
    && (forall p {:trigger ProcOk(s, p)} :: 0 <= p < |s.procs| ==> ProcOk(s, p))
    && (forall m {:trigger MuOk(s, m)} :: 0 <= m < |s.mutexes| ==> MuOk(s, m))
  }

  ghost predicate InvW(s: State, w: Placement) {
    TokenInv(s, w) && Core(s, w)
  }

  ghost predicate Inv(s: State) {
    exists w :: InvW(s, w)
  }

  lemma InitInv(s: State)
    requires Init(s)
    ensures InvW(s, map[])
  {
    forall loc ensures At(s, loc) == [] { }
    forall p | 0 <= p < |s.procs| ensures ProcOk(s, p) { }
  }
}
