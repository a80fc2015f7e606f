/** Properties of whole runs: delivery bounds, order, and one reclamation per life. */
module SchedulerRuns {
  import opened Seqs
  import opened SleepQueue
  import opened Scheduler
  import opened SchedulerInv
  import opened SchedulerFrames
  import opened SchedulerSteps
  import opened SchedulerCoSteps
  import opened SchedulerTheorems
  import TaskQueue

  lemma StepAt(states: seq<State>, steps: seq<Step>, i: nat)
    requires IsRun(states, steps) && i < |steps|
    ensures Enabled(states[i], steps[i]) && states[i + 1] == Apply(states[i], steps[i])
  {
    assert StepOk(states, steps, i);
  }

  lemma StateReachable(states: seq<State>, steps: seq<Step>, i: nat)
    requires IsRun(states, steps) && i <= |steps|
    ensures Reachable(states[i])
  {
    var states', steps' := states[..i + 1], steps[..i];
    forall k | 0 <= k < |steps'| ensures StepOk(states', steps', k) { assert StepOk(states, steps, k); }
    assert IsRun(states', steps') && states'[|steps'|] == states[i];
  }

  // ---- the new-task queue of one processor ----

  function QueueView(q: Processor): TaskQueue.View {
    TaskQueue.View(q.running, q.adding)
  }

  /** What the step appends to `p`'s adding queue: the waiter that freeLock wakes, or a new coroutine. */
  function Appends(s: State, step: Step, p: Pid): seq<Addr> {
    if step.OfCo? && step.c.WakeOne? && EnabledCo(s, step.p, WakeOne) then
      OwnedBy(s, s.mutexes[MyPc(s, step.p).m].waiting[0], p)
    else if step.GoNew? then OwnedBy(s, step.a, p)
    else []
  }

  function OwnedBy(s: State, a: Addr, p: Pid): seq<Addr> {
    if a in s.cos && s.cos[a].owner == p then [a] else []
  }

  /** A step does to a processor's two queues what TaskQueue's atomic operations do: flip, take the head, append. */
  ghost predicate QueueEffect(q: Processor, step: Step, p: Pid, q': Processor, appended: seq<Addr>) {
    var v, v' := QueueView(q), QueueView(q');
    if step == OfLoop(p, Flip) then TaskQueue.AbstractStep(v, TaskQueue.Flip, [], v')
    else if step == OfLoop(p, DrainOne) then TaskQueue.AbstractStep(v, TaskQueue.Pop, [], v')
    else v'.running == v.running && v'.adding == v.adding + appended
  }

  lemma MyLoopQueues(s: State, p: Pid, l: LoopStep)
    requires EnabledLoop(s, p, l)
    ensures |ApplyLoop(s, p, l).procs| == |s.procs|
    ensures QueueEffect(s.procs[p], OfLoop(p, l), p, ApplyLoop(s, p, l).procs[p], [])
  {
  }

  lemma LoopQueues(s: State, o: Pid, l: LoopStep, p: Pid)
    requires EnabledLoop(s, o, l) && p < |s.procs|
    ensures |ApplyLoop(s, o, l).procs| == |s.procs|
    ensures QueueEffect(s.procs[p], OfLoop(o, l), p, ApplyLoop(s, o, l).procs[p], [])
  {
    if o == p { MyLoopQueues(s, p, l); } else { OtherLoop(s, o, l, p); }
  }

  lemma CoQueues(s: State, o: Pid, c: CoStep, p: Pid)
    requires EnabledCo(s, o, c) && p < |s.procs|
    ensures |ApplyCo(s, o, c).procs| == |s.procs|
    ensures QueueEffect(s.procs[p], OfCo(o, c), p, ApplyCo(s, o, c).procs[p], Appends(s, OfCo(o, c), p))
  {
  }

  /** Which step appends which pointer, takes the head, or flips; every other leaves the queues of `p` alone. */
  lemma QueueStep(s: State, step: Step, p: Pid)
    requires Enabled(s, step) && p < |s.procs|
    ensures |Apply(s, step).procs| == |s.procs|
    ensures QueueEffect(s.procs[p], step, p, Apply(s, step).procs[p], Appends(s, step, p))
  {
    match step
    case OfLoop(o, l) => LoopQueues(s, o, l, p);
    case OfCo(o, c) => CoQueues(s, o, c, p);
    case _ =>
  }

  lemma QueueAt(states: seq<State>, steps: seq<Step>, i: nat, p: Pid)
    requires IsRun(states, steps) && i < |steps| && p < |states[i].procs|
    ensures p < |states[i + 1].procs|
    ensures QueueEffect(states[i].procs[p], steps[i], p, states[i + 1].procs[p], Appends(states[i], steps[i], p))
    ensures steps[i] == OfLoop(p, DrainOne) ==> EnabledLoop(states[i], p, DrainOne)
  {
    StepAt(states, steps, i);
    QueueStep(states[i], steps[i], p);
  }

  function Ready(q: Processor): seq<Addr> {
    q.running + q.adding
  }

  /** The two queues together are one FIFO: appended to at the tail, taken from at the head, unchanged by a flip. */
  lemma ReadyIsFifo(s: State, step: Step, p: Pid)
    requires Enabled(s, step) && p < |s.procs|
    ensures p < |Apply(s, step).procs|
    ensures var r, r' := Ready(s.procs[p]), Ready(Apply(s, step).procs[p]);
      if step == OfLoop(p, DrainOne) then r == [s.procs[p].running[0]] + r'
      else r' == r + Appends(s, step, p)
  {
    QueueStep(s, step, p);
    var q, q' := s.procs[p], Apply(s, step).procs[p];
    if step == OfLoop(p, DrainOne) {
      assert q.running == [q.running[0]] + q.running[1..];
    }
  }

  function Count(steps: seq<Step>, what: Step, i: nat, j: nat): nat
    requires i <= j <= |steps|
  {
    if i == j then 0 else Count(steps, what, i, j - 1) + if steps[j - 1] == what then 1 else 0
  }

  /** Some step of the run from `i` on and before `j` takes `a` from the head of `p`'s running queue. */
  ghost predicate Taken(states: seq<State>, steps: seq<Step>, p: Pid, a: Addr, i: nat, j: nat)
    requires IsRun(states, steps) && j <= |steps|
  {
    exists k :: i <= k < j && steps[k] == OfLoop(p, DrainOne)
      && EnabledLoop(states[k], p, DrainOne) && Consumed(states[k], p, DrainOne) == a
  }

  /** Until it is taken, what was pushed is in the adding queue, and after the next flip in the running queue. */
  lemma {:induction false} PushedStays(states: seq<State>, steps: seq<Step>, p: Pid, a: Addr, i: nat, j: nat)
    requires IsRun(states, steps) && i <= j <= |steps| && p < |states[i].procs|
    requires a in states[i].procs[p].adding && !Taken(states, steps, p, a, i, j)
    ensures p < |states[j].procs| && Count(steps, OfLoop(p, Flip), i, j) <= 1
    ensures if Count(steps, OfLoop(p, Flip), i, j) == 0 then a in states[j].procs[p].adding
      else a in states[j].procs[p].running
  {
    if i < j {
      PushedStays(states, steps, p, a, i, j - 1);
      QueueAt(states, steps, j - 1, p);
    }
  }

  /** Whether the loop is past this iteration's flip. */
  predicate PastFlip(stage: Stage) {
    stage in {RunActive, Reclaim, Top}
  }

  function Bit(b: bool): int { if b then 1 else 0 }

  /** Flips and iteration starts alternate. */
  lemma {:induction false} FlipPerIteration(states: seq<State>, steps: seq<Step>, p: Pid, i: nat, j: nat)
    requires IsRun(states, steps) && i <= j <= |steps| && p < |states[i].procs|
    ensures p < |states[j].procs|
    ensures Count(steps, OfLoop(p, Flip), i, j) - Count(steps, OfLoop(p, Clear), i, j)
      == Bit(PastFlip(states[j].procs[p].stage)) - Bit(PastFlip(states[i].procs[p].stage))
  {
    if i < j {
      FlipPerIteration(states, steps, p, i, j - 1);
      StageAt(states, steps, j - 1, p);
    }
  }

  predicate StageEffect(g: Stage, step: Step, p: Pid, g': Stage) {
    if step == OfLoop(p, Flip) then !PastFlip(g) && PastFlip(g')
    else if step == OfLoop(p, Clear) then PastFlip(g) && !PastFlip(g')
    else PastFlip(g) == PastFlip(g')
  }

  lemma LoopStage(s: State, o: Pid, l: LoopStep, p: Pid)
    requires EnabledLoop(s, o, l) && p < |s.procs|
    ensures |ApplyLoop(s, o, l).procs| == |s.procs|
    ensures StageEffect(s.procs[p].stage, OfLoop(o, l), p, ApplyLoop(s, o, l).procs[p].stage)
  {
  }

  lemma CoStage(s: State, o: Pid, c: CoStep, p: Pid)
    requires EnabledCo(s, o, c) && p < |s.procs|
    ensures |ApplyCo(s, o, c).procs| == |s.procs| && ApplyCo(s, o, c).procs[p].stage == s.procs[p].stage
  {
  }

  lemma StageAt(states: seq<State>, steps: seq<Step>, i: nat, p: Pid)
    requires IsRun(states, steps) && i < |steps| && p < |states[i].procs|
    ensures p < |states[i + 1].procs|
    ensures StageEffect(states[i].procs[p].stage, steps[i], p, states[i + 1].procs[p].stage)
  {
    StepAt(states, steps, i);
    match steps[i]
    case OfLoop(o, l) => LoopStage(states[i], o, l, p);
    case OfCo(o, c) => CoStage(states[i], o, c, p);
    case _ =>
  }

  /**
   * Bounded delivery.  What is in the adding queue in some iteration has been taken from the running
   * queue before the second iteration start from then on if the push came before that iteration's
   * flip, and before the third one otherwise: no later than the drain two iterations on.
   */
  lemma DeliveredWithinTwoIterations(states: seq<State>, steps: seq<Step>, p: Pid, a: Addr, i: nat, j: nat)
    requires IsRun(states, steps) && i <= j <= |steps| && p < |states[i].procs|
    requires a in states[i].procs[p].adding
    requires Count(steps, OfLoop(p, Clear), i, j) >= if PastFlip(states[i].procs[p].stage) then 3 else 2
    ensures Taken(states, steps, p, a, i, j)
  {
    FlipPerIteration(states, steps, p, i, j);
    if !Taken(states, steps, p, a, i, j) {
      PushedStays(states, steps, p, a, i, j);
    }
  }

  /** The drain ends: while it lasts every step leaves the running queue as it is or takes its head. */
  lemma {:induction false} DrainTerminates(states: seq<State>, steps: seq<Step>, p: Pid, i: nat, j: nat)
    requires IsRun(states, steps) && i <= j <= |steps| && p < |states[i].procs|
    requires Count(steps, OfLoop(p, Flip), i, j) == 0
    ensures p < |states[j].procs|
    ensures Count(steps, OfLoop(p, DrainOne), i, j) <= |states[i].procs[p].running|
    ensures states[j].procs[p].running == states[i].procs[p].running[Count(steps, OfLoop(p, DrainOne), i, j)..]
  {
    if i < j {
      DrainTerminates(states, steps, p, i, j - 1);
      QueueAt(states, steps, j - 1, p);
    }
  }

  // ---- the last unlock wakes every waiter ----

  /** The step is a turn of freeLock's loop on `m`. */
  predicate WakesOn(s: State, step: Step, m: Mid) {
    step.OfCo? && step.c.WakeOne? && EnabledCo(s, step.p, WakeOne) && MyPc(s, step.p).m == m
  }

  /** Whom the freeLock loops on `m` woke, in order. */
  function WokenOn(states: seq<State>, steps: seq<Step>, m: Mid, i: nat, j: nat): seq<Addr>
    requires i <= j <= |steps| <= |states|
  {
    if i == j then []
    else
      WokenOn(states, steps, m, i, j - 1) +
        if WakesOn(states[j - 1], steps[j - 1], m) then [states[j - 1].mutexes[m].waiting[0]] else []
  }

  /** While a mutex's lock_ is held, its wait queue is only popped. */
  ghost predicate WaitEffect(u: RWMutex, wakes: bool, u': RWMutex) {
    if wakes then u.waiting != [] && u'.waiting == u.waiting[1..] else u'.waiting == u.waiting
  }

  lemma LoopLeavesMutexes(s: State, p: Pid, l: LoopStep)
    requires EnabledLoop(s, p, l)
    ensures ApplyLoop(s, p, l).mutexes == s.mutexes
  {
  }

  lemma WaitQueueAt(states: seq<State>, steps: seq<Step>, i: nat, m: Mid)
    requires IsRun(states, steps) && i < |steps| && m < |states[i].mutexes| && states[i].mutexes[m].lock.Some?
    ensures m < |states[i + 1].mutexes|
    ensures WaitEffect(states[i].mutexes[m], WakesOn(states[i], steps[i], m), states[i + 1].mutexes[m])
  {
    StepAt(states, steps, i);
    match steps[i]
    case OfLoop(p, l) => LoopLeavesMutexes(states[i], p, l);
    case _ =>
  }

  /**
   * From an unlock that frees the mutex to the release of its lock_, exactly the coroutines that were
   * waiting are woken, in the order of the wait queue (each into its own processor's queue, by
   * WakeReachesOwner).
   */
  lemma {:induction false} LastUnlockWakesAll(states: seq<State>, steps: seq<Step>, m: Mid, i: nat, j: nat)
    requires IsRun(states, steps) && i <= j <= |steps| && m < |states[i].mutexes|
    requires forall k :: i <= k < j ==> m < |states[k].mutexes| && states[k].mutexes[m].lock.Some?
    ensures m < |states[j].mutexes|
    ensures states[i].mutexes[m].waiting == WokenOn(states, steps, m, i, j) + states[j].mutexes[m].waiting
  {
    if i < j {
      LastUnlockWakesAll(states, steps, m, i, j - 1);
      WaitQueueAt(states, steps, j - 1, m);
      var u := states[j - 1].mutexes[m].waiting;
      assert u != [] ==> u == [u[0]] + u[1..];
    }
  }

  /** ... and lock_ is released only when nobody is left. */
  lemma ReleaseMeansAllWoken(states: seq<State>, steps: seq<Step>, m: Mid, i: nat, j: nat)
    requires IsRun(states, steps) && i <= j < |steps| && m < |states[i].mutexes|
    requires forall k :: i <= k <= j ==> m < |states[k].mutexes| && states[k].mutexes[m].lock.Some?
    requires m < |states[j + 1].mutexes| && states[j + 1].mutexes[m].lock.None?
    ensures WokenOn(states, steps, m, i, j) == states[i].mutexes[m].waiting && states[j + 1].mutexes[m].waiting == []
  {
    LastUnlockWakesAll(states, steps, m, i, j);
    WaitQueueAt(states, steps, j, m);
    ReleaseAt(states, steps, j, m);
  }

  lemma ReleaseAt(states: seq<State>, steps: seq<Step>, i: nat, m: Mid)
    requires IsRun(states, steps) && i < |steps| && m < |states[i].mutexes| && states[i].mutexes[m].lock.Some?
    requires m < |states[i + 1].mutexes| && states[i + 1].mutexes[m].lock.None?
    ensures states[i].mutexes[m].waiting == [] && states[i + 1].mutexes[m].waiting == []
  {
    StepAt(states, steps, i);
    match steps[i]
    case OfLoop(p, l) => LoopLeavesMutexes(states[i], p, l);
    case _ =>
  }

  // ---- sleepers leave in deadline order ----

  /** The sleepers of a processor in the order in which they will be resumed. */
  function SleepLine(q: Processor): seq<Addr> {
    (if q.ei <= |q.expired| then q.expired[q.ei..] else []) + Cos(q.heap)
  }

  /** `x` enters the line `r` behind the first `n`. */
  ghost predicate Enters(r: seq<Addr>, x: Addr, n: int, r': seq<Addr>) {
    exists k :: 0 <= k <= |r| && n <= k && r' == r[..k] + [x] + r[k..]
  }

  /** What a step may do to the line. */
  ghost predicate LineEffect(q: Processor, step: Step, p: Pid, q': Processor) {
    var r, r' := SleepLine(q), SleepLine(q');
    if step == OfLoop(p, ResumeExpired) then q.ei < |q.expired| && r == [q.expired[q.ei]] + r'
    else if step.OfCo? && step.p == p && step.c.Sleep? then Enters(r, q.onCpu, |q.expired| - q.ei, r')
    else r' == r
  }

  /** A step leaves the line alone, takes its head, or lets the executing coroutine enter behind all overdue ones. */
  lemma SleepersKeepOrder(s: State, step: Step, p: Pid)
    requires Reachable(s) && Enabled(s, step) && p < |s.procs|
    ensures |Apply(s, step).procs| == |s.procs|
    ensures LineEffect(s.procs[p], step, p, Apply(s, step).procs[p])
  {
    var w := ReachableInv(s);
    assert ProcOk(s, p);
    match step
    case OfLoop(o, l) => if o == p { LoopKeepsLine(s, p, l); } else { OtherLoop(s, o, l, p); }
    case OfCo(o, c) =>
      Executing(s, w, o);
      if o == p && c.Sleep? { SleepEntersLine(s, p, c.ms); } else { CoKeepsLine(s, o, c, p); }
    case _ =>
  }

  lemma OtherLoop(s: State, o: Pid, l: LoopStep, p: Pid)
    requires EnabledLoop(s, o, l) && p < |s.procs| && p != o
    ensures |ApplyLoop(s, o, l).procs| == |s.procs| && ApplyLoop(s, o, l).procs[p] == s.procs[p]
  {
  }

  lemma CoKeepsLine(s: State, o: Pid, c: CoStep, p: Pid)
    requires EnabledCo(s, o, c) && p < |s.procs| && (o != p || !c.Sleep?)
    ensures var s' := ApplyCo(s, o, c);
      && |s'.procs| == |s.procs| && s'.procs[p].heap == s.procs[p].heap
      && s'.procs[p].expired == s.procs[p].expired && s'.procs[p].ei == s.procs[p].ei
  {
  }

  /** What the loop does to the two lists that make up the line. */
  lemma LoopLists(s: State, p: Pid, l: LoopStep)
    requires EnabledLoop(s, p, l)
    ensures |ApplyLoop(s, p, l).procs| == |s.procs|
    ensures var q, q' := s.procs[p], ApplyLoop(s, p, l).procs[p];
      && (l != Expire ==> q'.heap == q.heap)
      && (l == ResumeExpired ==> q.ei < |q.expired|)
      && (l != Expire && l != Clear ==>
        q'.expired == q.expired && q'.ei == if l == ResumeExpired then q.ei + 1 else q.ei)
      && (l == Clear ==> q'.expired == [] && q'.ei == 0 && q.stage == Top)
  {
  }

  lemma LoopKeepsLine(s: State, p: Pid, l: LoopStep)
    requires EnabledLoop(s, p, l) && ProcStage(s.procs[p])
    ensures |ApplyLoop(s, p, l).procs| == |s.procs|
    ensures LineEffect(s.procs[p], OfLoop(p, l), p, ApplyLoop(s, p, l).procs[p])
  {
    LoopLists(s, p, l);
    if l == Expire {
      ExpireKeepsLine(s, p);
    } else {
      ListsMakeLine(s.procs[p], p, l, ApplyLoop(s, p, l).procs[p]);
    }
  }

  lemma ExpireKeepsLine(s: State, p: Pid)
    requires EnabledLoop(s, p, Expire) && ProcStage(s.procs[p])
    ensures |ApplyLoop(s, p, Expire).procs| == |s.procs|
    ensures SleepLine(ApplyLoop(s, p, Expire).procs[p]) == SleepLine(s.procs[p])
  {
  }

  lemma ListsMakeLine(q: Processor, p: Pid, l: LoopStep, q': Processor)
    requires l != Expire && q'.heap == q.heap && q.ei <= |q.expired|
    requires l == Clear ==> q'.expired == [] && q'.ei == 0 && q.ei == |q.expired|
    requires l != Clear ==> q'.expired == q.expired
    requires l == ResumeExpired ==> q.ei < |q.expired| && q'.ei == q.ei + 1
    requires l != Clear && l != ResumeExpired ==> q'.ei == q.ei
    ensures LineEffect(q, OfLoop(p, l), p, q')
  {
  }

  lemma SleepEntersLine(s: State, p: Pid, ms: int)
    requires EnabledCo(s, p, Sleep(ms)) && s.procs[p].cur == s.procs[p].onCpu && ProcStage(s.procs[p])
    ensures var q, q' := s.procs[p], ApplyCo(s, p, Sleep(ms)).procs[p];
      Enters(SleepLine(q), q.onCpu, |q.expired| - q.ei, SleepLine(q'))
  {
    var q, q' := s.procs[p], ApplyCo(s, p, Sleep(ms)).procs[p];
    var e := Entry(s.now + ms, q.cur);
    assert q'.heap == Insert(q.heap, e) && q'.expired == q.expired && q'.ei == q.ei;
    CosOfInsert(q.heap, e);
    EntersLater(q.expired[q.ei..], Cos(q.heap), Rank(q.heap, e), e.co);
  }

  lemma EntersLater(x: seq<Addr>, h: seq<Addr>, k: nat, a: Addr)
    requires k <= |h|
    ensures Enters(x + h, a, |x|, x + (h[..k] + [a] + h[k..]))
  {
    var n := |x| + k;
    assert x + (h[..k] + [a] + h[k..]) == (x + h)[..n] + [a] + (x + h)[n..];
  }

  ghost predicate Ahead(r: seq<Addr>, a: Addr, b: Addr) {
    exists x, y :: 0 <= x < y < |r| && r[x] == a && r[y] == b
  }

  lemma LineHasNoDup(s: State, p: Pid)
    requires Reachable(s) && p < |s.procs|
    ensures NoDup(SleepLine(s.procs[p]))
  {
    var w := ReachableInv(s);
    assert ProcOk(s, p);
    var x, y := At(s, Expired(p)), At(s, Heap(p));
    NoDupAt(s, w, Expired(p));
    NoDupAt(s, w, Heap(p));
    forall i, j | 0 <= i < |x| && 0 <= j < |y| ensures x[i] != y[j] {
      PlaceOf(s, w, Expired(p), x[i]);
      PlaceOf(s, w, Heap(p), y[j]);
    }
    ConcatNoDup(x, y);
  }

  lemma AheadOfHead(r: seq<Addr>, a: Addr, b: Addr)
    requires r != [] && NoDup(r) && Ahead(r, a, b) && r[0] != a
    ensures Ahead(r[1..], a, b) && r[0] != b
  {
  }

  lemma AheadAfterEntry(r: seq<Addr>, k: nat, c: Addr, a: Addr, b: Addr)
    requires k <= |r| && Ahead(r, a, b)
    ensures Ahead(r[..k] + [c] + r[k..], a, b)
  {
    var x, y :| 0 <= x < y < |r| && r[x] == a && r[y] == b;
    var x', y' := if x < k then x else x + 1, if y < k then y else y + 1;
    var r' := r[..k] + [c] + r[k..];
    assert r'[x'] == a && r'[y'] == b;
  }

  /** Whoever is ahead stays ahead until it is taken itself. */
  lemma AheadStep(q: Processor, step: Step, p: Pid, q': Processor, a: Addr, b: Addr)
    requires LineEffect(q, step, p, q') && NoDup(SleepLine(q)) && Ahead(SleepLine(q), a, b)
    requires step == OfLoop(p, ResumeExpired) && q.ei < |q.expired| ==> q.expired[q.ei] != a
    ensures Ahead(SleepLine(q'), a, b)
    ensures step == OfLoop(p, ResumeExpired) && q.ei < |q.expired| ==> q.expired[q.ei] != b
  {
    var r, r' := SleepLine(q), SleepLine(q');
    if step == OfLoop(p, ResumeExpired) {
      assert r[0] == q.expired[q.ei] && r[1..] == r';
      AheadOfHead(r, a, b);
    } else if step.OfCo? && step.p == p && step.c.Sleep? {
      var k :| 0 <= k <= |r| && r' == r[..k] + [q.onCpu] + r[k..];
      AheadAfterEntry(r, k, q.onCpu, a, b);
    }
  }

  predicate Sooner(x: Entry, y: Entry) {
    x.due < y.due || (x.due == y.due && x.co < y.co)
  }

  ghost predicate Resumed(s: State, step: Step, p: Pid, a: Addr) {
    step == OfLoop(p, ResumeExpired) && EnabledLoop(s, p, ResumeExpired) && Consumed(s, p, ResumeExpired) == a
  }

  lemma AheadAt(states: seq<State>, steps: seq<Step>, i: nat, p: Pid, a: Addr, b: Addr)
    requires IsRun(states, steps) && i < |steps| && p < |states[i].procs|
    requires Ahead(SleepLine(states[i].procs[p]), a, b) && !Resumed(states[i], steps[i], p, a)
    ensures p < |states[i + 1].procs| && Ahead(SleepLine(states[i + 1].procs[p]), a, b)
    ensures !Resumed(states[i], steps[i], p, b)
  {
    StepAt(states, steps, i);
    StateReachable(states, steps, i);
    SleepersKeepOrder(states[i], steps[i], p);
    LineHasNoDup(states[i], p);
    AheadStep(states[i].procs[p], steps[i], p, states[i + 1].procs[p], a, b);
  }

  lemma {:induction false} AheadUntilResumed(
    states: seq<State>, steps: seq<Step>, i: nat, j: nat, p: Pid, a: Addr, b: Addr)
    requires IsRun(states, steps) && i <= j <= |steps| && p < |states[i].procs|
    requires Ahead(SleepLine(states[i].procs[p]), a, b)
    requires forall k :: i <= k < j ==> !Resumed(states[k], steps[k], p, a)
    ensures p < |states[j].procs| && Ahead(SleepLine(states[j].procs[p]), a, b)
  {
    if i < j {
      AheadUntilResumed(states, steps, i, j - 1, p, a, b);
      AheadAt(states, steps, j - 1, p, a, b);
    }
  }

  /** Of two sleepers in one heap together the one with the earlier deadline, or else the lower address, is first. */
  lemma SleepersResumeByDeadline(states: seq<State>, steps: seq<Step>, i: nat, j: nat, p: Pid, x: Entry, y: Entry)
    requires IsRun(states, steps) && i <= j < |steps| && p < |states[i].procs|
    requires x in states[i].procs[p].heap && y in states[i].procs[p].heap && Sooner(x, y)
    requires Resumed(states[j], steps[j], p, y.co)
    ensures exists k :: i <= k < j && Resumed(states[k], steps[k], p, x.co)
  {
    EarlierIsAhead(states, steps, i, p, x, y);
    if forall k :: i <= k < j ==> !Resumed(states[k], steps[k], p, x.co) {
      AheadUntilResumed(states, steps, i, j, p, x.co, y.co);
      if !Resumed(states[j], steps[j], p, x.co) {
        AheadAt(states, steps, j, p, x.co, y.co);
      } else {
        DifferentSleepers(states, steps, i, p, x, y);
      }
    }
  }

  lemma HeapOrder(q: Processor, x: Entry, y: Entry)
    requires Sorted(q.heap) && x in q.heap && y in q.heap && Sooner(x, y)
    ensures Ahead(SleepLine(q), x.co, y.co)
  {
    var u :| 0 <= u < |q.heap| && q.heap[u] == x;
    var v :| 0 <= v < |q.heap| && q.heap[v] == y;
    var n := |SleepLine(q)| - |q.heap|;
    assert u < v by { assert Less(q.heap[u], q.heap[v]); }
    assert SleepLine(q)[n + u] == x.co && SleepLine(q)[n + v] == y.co;
  }

  lemma EarlierIsAhead(states: seq<State>, steps: seq<Step>, i: nat, p: Pid, x: Entry, y: Entry)
    requires IsRun(states, steps) && i <= |steps| && p < |states[i].procs|
    requires x in states[i].procs[p].heap && y in states[i].procs[p].heap && Sooner(x, y)
    ensures Ahead(SleepLine(states[i].procs[p]), x.co, y.co)
  {
    StateReachable(states, steps, i);
    var w := ReachableInv(states[i]);
    assert ProcOk(states[i], p);
    HeapOrder(states[i].procs[p], x, y);
  }

  lemma DifferentSleepers(states: seq<State>, steps: seq<Step>, i: nat, p: Pid, x: Entry, y: Entry)
    requires IsRun(states, steps) && i <= |steps| && p < |states[i].procs|
    requires x in states[i].procs[p].heap && y in states[i].procs[p].heap && Sooner(x, y)
    ensures x.co != y.co
  {
    StateReachable(states, steps, i);
    EarlierIsAhead(states, steps, i, p, x, y);
    LineHasNoDup(states[i], p);
  }

  // ---- one reclamation per life ----

  predicate Deletes(s: State, step: Step, a: Addr) {
    step.OfLoop? && step.l.ReclaimOne? && step.p < |s.procs| && s.procs[step.p].ri < |s.procs[step.p].removed|
    && s.procs[step.p].removed[s.procs[step.p].ri] == a
  }

  predicate Finishes(s: State, step: Step, a: Addr) {
    step.OfCo? && step.c.Kill? && step.p < |s.procs| && s.procs[step.p].cur == a
  }

  lemma {:induction false} GoneUntilRebuilt(states: seq<State>, steps: seq<Step>, a: Addr, i: nat, j: nat)
    requires IsRun(states, steps) && i <= j <= |steps| && a !in states[i].cos
    requires forall k :: i <= k < j && steps[k].NewCo? ==> steps[k].a != a
    ensures a !in states[j].cos
  {
    if i < j {
      GoneUntilRebuilt(states, steps, a, i, j - 1);
      StepAt(states, steps, j - 1);
      StateReachable(states, steps, j - 1);
    }
  }

  lemma DeletedNow(states: seq<State>, steps: seq<Step>, a: Addr, i: nat)
    requires IsRun(states, steps) && i < |steps| && Deletes(states[i], steps[i], a)
    ensures a in states[i].cos && a !in states[i + 1].cos
  {
    StepAt(states, steps, i);
    StateReachable(states, steps, i);
    var w := ReachableInv(states[i]);
    RemovedHead(states[i], w, steps[i].p);
  }

  /** An address is handed to delete_obj twice only with a construction at that address in between. */
  lemma DeletedOncePerLife(states: seq<State>, steps: seq<Step>, a: Addr, i: nat, j: nat)
    requires IsRun(states, steps) && i < j < |steps|
    requires Deletes(states[i], steps[i], a) && Deletes(states[j], steps[j], a)
    ensures exists k :: i < k < j && steps[k].NewCo? && steps[k].a == a
  {
    DeletedNow(states, steps, a, i);
    DeletedNow(states, steps, a, j);
    if forall k :: i < k < j && steps[k].NewCo? ==> steps[k].a != a {
      GoneUntilRebuilt(states, steps, a, i + 1, j);
    }
  }

  /** A coroutine that finished stays on its way out until its address is deleted. */
  lemma {:induction false} FinishedStays(states: seq<State>, steps: seq<Step>, a: Addr, i: nat, j: nat)
    requires IsRun(states, steps) && i <= j <= |steps|
    requires a in states[i].cos && states[i].cos[a].pc in {Exiting, Dead}
    requires forall k :: i <= k < j ==> !Deletes(states[k], steps[k], a)
    ensures a in states[j].cos && states[j].cos[a].pc in {Exiting, Dead}
  {
    if i < j {
      FinishedStays(states, steps, a, i, j - 1);
      StepAt(states, steps, j - 1);
      StateReachable(states, steps, j - 1);
      FinishedStep(states[j - 1], steps[j - 1], a);
    }
  }

  lemma FinishedStep(s: State, step: Step, a: Addr)
    requires Reachable(s) && Enabled(s, step) && !Deletes(s, step, a)
    requires a in s.cos && s.cos[a].pc in {Exiting, Dead}
    ensures a in Apply(s, step).cos && Apply(s, step).cos[a].pc in {Exiting, Dead}
  {
    var w := ReachableInv(s);
    match step
    case OfLoop(p, l) =>
      if Resumes(l) && Consumed(s, p, l) == a { NoWakeUpDiscarded(s, p, l); }
      LoopStepTouchesConsumed(s, p, l, a);
    case OfCo(p, c) =>
      Executing(s, w, p);
      if a != s.procs[p].onCpu { CoStepTouchesMe(s, p, c, a); }
    case _ =>
  }

  lemma FinishingNow(states: seq<State>, steps: seq<Step>, a: Addr, i: nat)
    requires IsRun(states, steps) && i < |steps| && Finishes(states[i], steps[i], a)
    ensures a in states[i].cos && states[i].cos[a].pc.User?
    ensures a in states[i + 1].cos && states[i + 1].cos[a].pc.Exiting?
  {
    StepAt(states, steps, i);
    StateReachable(states, steps, i);
    var w := ReachableInv(states[i]);
    Executing(states[i], w, steps[i].p);
  }

  /** A coroutine enters removedCo_ once per life: between two entries of one address lies its deletion. */
  lemma FinishedOncePerLife(states: seq<State>, steps: seq<Step>, a: Addr, i: nat, j: nat)
    requires IsRun(states, steps) && i < j < |steps|
    requires Finishes(states[i], steps[i], a) && Finishes(states[j], steps[j], a)
    ensures exists k :: i < k < j && Deletes(states[k], steps[k], a)
  {
    FinishingNow(states, steps, a, i);
    FinishingNow(states, steps, a, j);
    if forall k :: i < k < j ==> !Deletes(states[k], steps[k], a) {
      FinishedStays(states, steps, a, i + 1, j);
    }
  }

  // ---- the object pool of a processor ----

  /** The coroutines constructed from processor `p`'s pool and not yet deleted. */
  function PoolOf(s: State, p: Pid): set<Addr> {
    set a | a in s.cos && s.cos[a].owner == p
  }

  /** No coroutine appears or disappears, or changes its processor. */
  ghost predicate SameOwners(s: State, s': State) {
    s'.cos.Keys == s.cos.Keys && forall a :: a in s.cos ==> s'.cos[a].owner == s.cos[a].owner
  }

  lemma LoopKeepsOwners(s: State, o: Pid, l: LoopStep)
    requires EnabledLoop(s, o, l) && !l.ReclaimOne?
    ensures SameOwners(s, ApplyLoop(s, o, l))
  {
  }

  lemma CoKeepsOwners(s: State, o: Pid, c: CoStep)
    requires EnabledCo(s, o, c)
    ensures SameOwners(s, ApplyCo(s, o, c))
  {
  }

  /** A step allocates an address that is not in the pool's use, frees one that is, or leaves the pool alone. */
  lemma PoolDiscipline(s: State, step: Step, p: Pid)
    requires Reachable(s) && Enabled(s, step)
    ensures var pool, pool' := PoolOf(s, p), PoolOf(Apply(s, step), p);
      if step.NewCo? && step.p == p then step.a !in pool && pool' == pool + {step.a}
      else if step == OfLoop(p, ReclaimOne) then
        var a := s.procs[p].removed[s.procs[p].ri]; a in pool && pool' == pool - {a}
      else pool' == pool
  {
    match step
    case OfLoop(o, l) =>
      if l == ReclaimOne { ReclaimedIsForgotten(s, o); } else { LoopKeepsOwners(s, o, l); }
    case OfCo(o, c) => CoKeepsOwners(s, o, c);
    case GoNew(a) => assert SameOwners(s, Apply(s, step));
    case _ =>
  }

  // ---- waiters come back in the order in which they waited ----

  /** Coroutines that are not finished stay, and stay with their processor. */
  lemma OwnerKept(s: State, step: Step, a: Addr)
    requires Reachable(s) && Enabled(s, step) && a in s.cos && !s.cos[a].pc.Dead?
    ensures a in Apply(s, step).cos && Apply(s, step).cos[a].owner == s.cos[a].owner
  {
    match step
    case OfLoop(p, l) => if l.ReclaimOne? { ReclaimedIsForgotten(s, p); } else { LoopKeepsOwners(s, p, l); }
    case OfCo(p, c) => CoKeepsOwners(s, p, c);
    case _ =>
  }

  /** What is ready on `p`, followed by what waits for `m`. */
  function WaitLine(s: State, p: Pid, m: Mid): seq<Addr>
    requires p < |s.procs| && m < |s.mutexes|
  {
    Ready(s.procs[p]) + s.mutexes[m].waiting
  }

  lemma ListedIsAlive(s: State, loc: Loc, a: Addr)
    requires Reachable(s) && a in At(s, loc) && !loc.Removed?
    ensures a in s.cos && !s.cos[a].pc.Dead?
  {
    var w := ReachableInv(s);
    PlaceOf(s, w, loc, a);
  }

  lemma InWaitLine(s: State, p: Pid, m: Mid, a: Addr)
    requires Reachable(s) && p < |s.procs| && m < |s.mutexes| && a in WaitLine(s, p, m)
    ensures a in s.cos && !s.cos[a].pc.Dead?
  {
    var q := s.procs[p];
    ListedIsAlive(s, if a in q.running then Running(p) else if a in q.adding then Adding(p) else WaitQ(m), a);
  }

  lemma WaitLineHasNoDup(s: State, p: Pid, m: Mid)
    requires Reachable(s) && p < |s.procs| && m < |s.mutexes|
    ensures NoDup(WaitLine(s, p, m))
  {
    var w := ReachableInv(s);
    var x, y, z := At(s, Running(p)), At(s, Adding(p)), At(s, WaitQ(m));
    NoDupAt(s, w, Running(p));
    NoDupAt(s, w, Adding(p));
    NoDupAt(s, w, WaitQ(m));
    ApartAt(s, w, Running(p), Adding(p));
    ApartAt(s, w, Running(p), WaitQ(m));
    ApartAt(s, w, Adding(p), WaitQ(m));
    ConcatNoDup(x, y);
    assert forall i, j :: 0 <= i < |x + y| && 0 <= j < |z| ==> (x + y)[i] != z[j];
    ConcatNoDup(x + y, z);
  }

  lemma ApartAt(s: State, w: Placement, from: Loc, to: Loc)
    requires InvW(s, w) && from != to
    ensures forall i, j :: 0 <= i < |At(s, from)| && 0 <= j < |At(s, to)| ==> At(s, from)[i] != At(s, to)[j]
  {
    forall i, j | 0 <= i < |At(s, from)| && 0 <= j < |At(s, to)| ensures At(s, from)[i] != At(s, to)[j] {
      PlaceOf(s, w, from, At(s, from)[i]);
      PlaceOf(s, w, to, At(s, to)[j]);
    }
  }

  /** How a step changes a wait queue: one waiter is woken, or at most one enters at the end. */
  ghost predicate WaitChange(u: RWMutex, wakes: bool, u': RWMutex) {
    if wakes then u.waiting != [] && u.waiting == [u.waiting[0]] + u'.waiting
    else exists x: seq<Addr> :: u'.waiting == u.waiting + x
  }

  lemma WaitStep(s: State, step: Step, m: Mid)
    requires Enabled(s, step) && m < |s.mutexes|
    ensures |Apply(s, step).mutexes| == |s.mutexes|
    ensures WaitChange(s.mutexes[m], WakesOn(s, step, m), Apply(s, step).mutexes[m])
  {
    assert s.mutexes[m].waiting + [] == s.mutexes[m].waiting;
    match step
    case OfLoop(p, l) => LoopLeavesMutexes(s, p, l);
    case _ =>
  }

  lemma AheadAfterGrowth(q: seq<Addr>, t: seq<Addr>, x: seq<Addr>, y: seq<Addr>, a: Addr, b: Addr)
    requires Ahead(q + t, a, b)
    ensures Ahead((q + x) + (t + y), a, b)
  {
    var i, j :| 0 <= i < j < |q + t| && (q + t)[i] == a && (q + t)[j] == b;
    var r := (q + x) + (t + y);
    var i', j' := if i < |q| then i else i + |x|, if j < |q| then j else j + |x|;
    assert r[i'] == a && r[j'] == b;
  }

  lemma AheadAfterRemoval(q: seq<Addr>, h: Addr, t: seq<Addr>, a: Addr, b: Addr)
    requires Ahead(q + ([h] + t), a, b) && h != a && h != b
    ensures Ahead(q + t, a, b)
  {
    var s := q + ([h] + t);
    var i, j :| 0 <= i < j < |s| && s[i] == a && s[j] == b;
    assert s[|q|] == h;
    var i', j' := if i < |q| then i else i - 1, if j < |q| then j else j - 1;
    assert (q + t)[i'] == a && (q + t)[j'] == b;
  }

  /** Two coroutines of `p`, the first ahead of the second among what is ready on `p` or waits for `m`. */
  ghost predicate InOrder(s: State, p: Pid, m: Mid, a: Addr, b: Addr) {
    && p < |s.procs| && m < |s.mutexes| && Ahead(WaitLine(s, p, m), a, b)
    && a in s.cos && b in s.cos && s.cos[a].owner == p && s.cos[b].owner == p
  }

  /** A waiter that is woken moves from the head of the wait queue to the tail of its processor's queue. */
  lemma OrderAfterWake(s: State, step: Step, p: Pid, m: Mid, a: Addr, b: Addr)
    requires Enabled(s, step) && InOrder(s, p, m, a, b) && WakesOn(s, step, m)
    ensures p < |Apply(s, step).procs| && m < |Apply(s, step).mutexes|
    ensures Ahead(WaitLine(Apply(s, step), p, m), a, b)
  {
    ReadyIsFifo(s, step, p);
    WaitStep(s, step, m);
    var q, h := Ready(s.procs[p]), s.mutexes[m].waiting[0];
    var t := Apply(s, step).mutexes[m].waiting;
    if OwnedBy(s, h, p) == [h] {
      assert (q + [h]) + t == q + ([h] + t);
    } else {
      assert q + [] == q;
      AheadAfterRemoval(q, h, t, a, b);
    }
  }

  lemma OrderAfterOther(s: State, step: Step, p: Pid, m: Mid, a: Addr, b: Addr)
    requires Enabled(s, step) && InOrder(s, p, m, a, b) && !WakesOn(s, step, m) && step != OfLoop(p, DrainOne)
    ensures p < |Apply(s, step).procs| && m < |Apply(s, step).mutexes|
    ensures Ahead(WaitLine(Apply(s, step), p, m), a, b)
  {
    ReadyIsFifo(s, step, p);
    WaitStep(s, step, m);
    var y: seq<Addr> :| Apply(s, step).mutexes[m].waiting == s.mutexes[m].waiting + y;
    AheadAfterGrowth(Ready(s.procs[p]), s.mutexes[m].waiting, Appends(s, step, p), y, a, b);
  }

  predicate Takes(s: State, step: Step, p: Pid, a: Addr) {
    step == OfLoop(p, DrainOne) && p < |s.procs| && s.procs[p].running != [] && s.procs[p].running[0] == a
  }

  lemma OrderAfterTake(s: State, p: Pid, m: Mid, a: Addr, b: Addr)
    requires Reachable(s) && EnabledLoop(s, p, DrainOne) && InOrder(s, p, m, a, b) && s.procs[p].running[0] != a
    ensures p < |ApplyLoop(s, p, DrainOne).procs| && m < |ApplyLoop(s, p, DrainOne).mutexes|
    ensures Ahead(WaitLine(ApplyLoop(s, p, DrainOne), p, m), a, b) && s.procs[p].running[0] != b
  {
    ReadyIsFifo(s, OfLoop(p, DrainOne), p);
    LoopLeavesMutexes(s, p, DrainOne);
    WaitLineHasNoDup(s, p, m);
    var s' := ApplyLoop(s, p, DrainOne);
    var h := s.procs[p].running[0];
    assert WaitLine(s, p, m) == [h] + WaitLine(s', p, m);
    AheadOfHead(WaitLine(s, p, m), a, b);
    assert WaitLine(s, p, m)[1..] == WaitLine(s', p, m);
  }

  lemma OrderStep(s: State, step: Step, p: Pid, m: Mid, a: Addr, b: Addr)
    requires Reachable(s) && Enabled(s, step) && InOrder(s, p, m, a, b) && !Takes(s, step, p, a)
    ensures InOrder(Apply(s, step), p, m, a, b) && !Takes(s, step, p, b)
  {
    InWaitLine(s, p, m, a);
    InWaitLine(s, p, m, b);
    OwnerKept(s, step, a);
    OwnerKept(s, step, b);
    if step == OfLoop(p, DrainOne) {
      OrderAfterTake(s, p, m, a, b);
    } else if WakesOn(s, step, m) {
      OrderAfterWake(s, step, p, m, a, b);
    } else {
      OrderAfterOther(s, step, p, m, a, b);
    }
  }

  lemma {:induction false} OrderUntilTaken(
    states: seq<State>, steps: seq<Step>, i: nat, j: nat, p: Pid, m: Mid, a: Addr, b: Addr)
    requires IsRun(states, steps) && i <= j <= |steps| && InOrder(states[i], p, m, a, b)
    requires forall k :: i <= k < j ==> !Takes(states[k], steps[k], p, a)
    ensures InOrder(states[j], p, m, a, b)
  {
    if i < j {
      OrderUntilTaken(states, steps, i, j - 1, p, m, a, b);
      StepAt(states, steps, j - 1);
      StateReachable(states, steps, j - 1);
      OrderStep(states[j - 1], steps[j - 1], p, m, a, b);
    }
  }

  /** Of two waiters of one processor, the one that waited first is taken from its queue first, in every run. */
  lemma WaitersResumeInOrder(states: seq<State>, steps: seq<Step>, i: nat, j: nat, p: Pid, m: Mid, u: nat, v: nat)
    requires IsRun(states, steps) && i <= j < |steps| && m < |states[i].mutexes|
    requires u < v < |states[i].mutexes[m].waiting|
    requires var a, b := states[i].mutexes[m].waiting[u], states[i].mutexes[m].waiting[v];
      && a in states[i].cos && b in states[i].cos && states[i].cos[a].owner == p && states[i].cos[b].owner == p
      && Takes(states[j], steps[j], p, b)
    ensures exists k :: i <= k < j && Takes(states[k], steps[k], p, states[i].mutexes[m].waiting[u])
  {
    var s := states[i];
    var a, b := s.mutexes[m].waiting[u], s.mutexes[m].waiting[v];
    StateReachable(states, steps, i);
    WaitersAreInOrder(s, p, m, u, v);
    if forall k :: i <= k < j ==> !Takes(states[k], steps[k], p, a) {
      OrderUntilTaken(states, steps, i, j, p, m, a, b);
      StepAt(states, steps, j);
      StateReachable(states, steps, j);
      if !Takes(states[j], steps[j], p, a) { OrderStep(states[j], steps[j], p, m, a, b); }
    }
  }

  lemma WaitersOwner(s: State, m: Mid, u: nat)
    requires Reachable(s) && m < |s.mutexes| && u < |s.mutexes[m].waiting| && s.mutexes[m].waiting[u] in s.cos
    ensures s.cos[s.mutexes[m].waiting[u]].owner < |s.procs| && NoDup(s.mutexes[m].waiting)
  {
    var w := ReachableInv(s);
    NoDupAt(s, w, WaitQ(m));
    assert CoOk(s, w, s.mutexes[m].waiting[u]);
  }

  lemma WaitersAreInOrder(s: State, p: Pid, m: Mid, u: nat, v: nat)
    requires Reachable(s) && m < |s.mutexes| && u < v < |s.mutexes[m].waiting|
    requires var a, b := s.mutexes[m].waiting[u], s.mutexes[m].waiting[v];
      a in s.cos && b in s.cos && s.cos[a].owner == p && s.cos[b].owner == p
    ensures InOrder(s, p, m, s.mutexes[m].waiting[u], s.mutexes[m].waiting[v])
    ensures s.mutexes[m].waiting[u] != s.mutexes[m].waiting[v]
  {
    WaitersOwner(s, m, u);
    var n, r := |Ready(s.procs[p])|, WaitLine(s, p, m);
    assert r[n + u] == s.mutexes[m].waiting[u] && r[n + v] == s.mutexes[m].waiting[v];
  }
}
