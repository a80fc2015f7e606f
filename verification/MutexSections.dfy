/**
 * The sections of one `RWMutex` under its `lock_` (src/mutex.cc:22-85), any number of threads, every
 * access to a field a step; the lock is the one of module Spinlock.  The result is that the fields
 * change as by the atomic sections of module Scheduler, whoever steps between two accesses.
 */
module MutexSections {
  import Spinlock
  import opened Seqs
  import opened SleepQueue
  import opened Scheduler

  type Tid = Spinlock.Tid

  /** rlock or wlock of the coroutine `cur`, runlock or wunlock. */
  datatype Call = Try(kind: Kind, cur: Addr) | Undo(kind: Kind)

  /** Where a thread is in its call. */
  datatype Job =
    | Idle
    | Claiming(call: Call)               // in Spinlock::lock
    | Testing(kind: Kind, cur: Addr)     // about to read state_
    | Counting                           // admitted to read, about to add 1 to readingNum_
    | Marking(kind: Kind)                // admitted, about to store state_
    | Enqueuing(kind: Kind, cur: Addr)   // not admitted, about to push
    | Dropping                           // in runlock, about to subtract 1 from readingNum_
    | Clearing(kind: Kind)               // at the store of freeLock
    | AtLoop                             // at the head of freeLock's loop
    | Popping(a: Addr)                   // has read the front, about to pop it
    | Handing(a: Addr)                   // has popped it, in goCo
    | Leaving                            // about to release

  /** The fields of the object. */
  datatype Words = Words(state: MuStatus, readingNum: int, waiting: seq<Addr>)

  /** `now`: the fields in memory; `seen`: what they were when the last section, or turn of the loop, was through. */
  datatype Cell = Cell(now: Words, seen: Words, lock: Spinlock.State, jobs: map<Tid, Job>)

  const NEW := Words(MU_FREE, 0, [])
  const INITIAL := Cell(NEW, NEW, Spinlock.INITIAL, map[])

  function JobOf(s: Cell, t: Tid): Job {
    if t in s.jobs then s.jobs[t] else Idle
  }

  // ---- the steps ----

  datatype Action = Enter(call: Call) | Spin(a: Spinlock.Action) | Access | Leave

  predicate InSection(job: Job) {
    !job.Idle? && !job.Claiming? && !job.Leaving?
  }

  predicate Can(s: Cell, t: Tid, act: Action) {
    match act
    case Enter(_) => JobOf(s, t).Idle? && Spinlock.Enabled(s.lock, t, Spinlock.Call)
    case Spin(a) => (a.Cas? || a.Reset?) && Spinlock.Enabled(s.lock, t, a)
    case Access => InSection(JobOf(s, t))
    case Leave => JobOf(s, t).Leaving? && Spinlock.Enabled(s.lock, t, Spinlock.Unlock)
  }

  function FirstIn(call: Call): Job {
    match call
    case Try(kind, cur) => Testing(kind, cur)
    case Undo(Reading) => Dropping
    case Undo(Writing) => Clearing(Writing)
  }

  /** One access: the fields after it, and where the thread goes on. */
  function Accessed(w: Words, job: Job): (Words, Job) {
    match job
    case Testing(Reading, cur) =>
      (w, if w.state == MU_FREE || w.state == MU_READING then Counting else Enqueuing(Reading, cur))
    case Testing(Writing, cur) => (w, if w.state == MU_FREE then Marking(Writing) else Enqueuing(Writing, cur))
    case Counting => (w.(readingNum := w.readingNum + 1), Marking(Reading))
    case Marking(kind) => (w.(state := if kind == Reading then MU_READING else MU_WRITING), Leaving)
    case Enqueuing(_, cur) => (w.(waiting := w.waiting + [cur]), Leaving)
    case Dropping => (w.(readingNum := w.readingNum - 1), if w.readingNum == 1 then Clearing(Reading) else Leaving)
    case Clearing(_) => (w.(state := MU_FREE), AtLoop)
    case AtLoop => (w, if w.waiting == [] then Leaving else Popping(w.waiting[0]))
    case Popping(a) => (w.(waiting := if w.waiting == [] then [] else w.waiting[1..]), Handing(a))
    case Handing(_) => (w, AtLoop)
    case _ => (w, job)
  }

  /** After this access the section, or the turn of the loop, is through. */
  predicate Through(w: Words, job: Job) {
    job.Marking? || job.Enqueuing? || job.Clearing? || job.Handing? || (job.Dropping? && w.readingNum != 1)
  }

  function Do(s: Cell, t: Tid, act: Action): Cell
    requires Can(s, t, act)
  {
    match act
    case Enter(call) =>
      s.(lock := Spinlock.Apply(s.lock, t, Spinlock.Call), jobs := s.jobs[t := Claiming(call)])
    case Spin(a) =>
      var k := Spinlock.Apply(s.lock, t, a);
      if Spinlock.PcOf(k, t).Inside? && JobOf(s, t).Claiming? then
        s.(lock := k, jobs := s.jobs[t := FirstIn(JobOf(s, t).call)])
      else s.(lock := k)
    case Access =>
      var (w, job) := Accessed(s.now, JobOf(s, t));
      s.(now := w, seen := if Through(s.now, JobOf(s, t)) then w else s.seen, jobs := s.jobs[t := job])
    case Leave => s.(lock := Spinlock.Apply(s.lock, t, Spinlock.Unlock), jobs := s.jobs[t := Idle])
  }

  // ---- the atomic sections ----

  function WordsOf(u: RWMutex): Words {
    Words(u.state, u.readingNum, u.waiting)
  }

  /** A mutex with these fields. */
  function MutexOf(v: Words): RWMutex {
    RWMutex(v.state, v.readingNum, v.waiting, None, multiset{}, 0)
  }

  /** What the scheduler's step makes of the fields when a thread at `job` makes its access; most make none. */
  predicate AtomicStep(v: Words, job: Job, v': Words) {
    match job
    case Marking(kind) => Admits(MutexOf(v), kind) && v' == WordsOf(Tried(MutexOf(v), kind, 0, 0))
    case Enqueuing(kind, cur) => !Admits(MutexOf(v), kind) && v' == WordsOf(Tried(MutexOf(v), kind, cur, cur))
    case Dropping =>
      v' == if Frees(MutexOf(v), Reading) then v else WordsOf(Unlocked(MutexOf(v), Reading, 0, 0))
    case Clearing(kind) => Frees(MutexOf(v), kind) && v' == WordsOf(Unlocked(MutexOf(v), kind, 0, 0))
    case Handing(a) => v.waiting != [] && a == v.waiting[0] && v' == v.(waiting := v.waiting[1..])
    case _ => v' == v
  }

  // ---- the invariant ----

  /** How far the thread inside has got from `seen`. */
  predicate Between(now: Words, seen: Words, job: Job) {
    match job
    case Counting => now == seen && Admits(MutexOf(seen), Reading)
    case Marking(Reading) => now == seen.(readingNum := seen.readingNum + 1) && Admits(MutexOf(seen), Reading)
    case Marking(Writing) => now == seen && Admits(MutexOf(seen), Writing)
    case Enqueuing(kind, _) => now == seen && !Admits(MutexOf(seen), kind)
    case Clearing(Reading) => now == seen.(readingNum := seen.readingNum - 1) && seen.readingNum == 1
    case Popping(a) => now == seen && seen.waiting != [] && a == seen.waiting[0]
    case Handing(a) => seen.waiting != [] && a == seen.waiting[0] && now == seen.(waiting := seen.waiting[1..])
    case _ => now == seen
  }

  /** A free mutex has no waiters. */
  predicate NoneForgotten(w: Words) {
    w.state == MU_FREE ==> w.waiting == []
  }

  /** ... unless the thread inside is handing them out. */
  predicate Served(seen: Words, job: Job) {
    if job.AtLoop? || job.Popping? || job.Handing? then seen.state == MU_FREE else NoneForgotten(seen)
  }

  predicate JobOk(s: Cell, t: Tid) {
    var pc := Spinlock.PcOf(s.lock, t);
    match JobOf(s, t)
    case Idle => pc.Outside?
    case Claiming(_) => pc.AtCas? || pc.AtReset?
    case job => pc.Inside? && Between(s.now, s.seen, job) && Served(s.seen, job)
  }

  ghost predicate Inv(s: Cell) {
    && Spinlock.Exclusive(s.lock)
    && (forall t {:trigger JobOk(s, t)} :: JobOk(s, t))
    && (s.lock.sem != 0 ==> s.now == s.seen && NoneForgotten(s.seen))
  }

  lemma InitialOk()
    ensures Inv(INITIAL)
  {
  }

  /** The thread inside makes one access. */
  lemma AccessedBetween(now: Words, seen: Words, job: Job)
    requires InSection(job) && Between(now, seen, job) && Served(seen, job)
    ensures var (w, job') := Accessed(now, job);
      var seen' := if Through(now, job) then w else seen;
      && !job'.Idle? && !job'.Claiming? && Between(w, seen', job') && Served(seen', job')
      && AtomicStep(seen, job, seen')
  {
  }

  lemma Alone(s: Cell, t: Tid)
    requires Inv(s) && Spinlock.In(s.lock, t)
    ensures forall u :: u != t ==> JobOf(s, u).Idle? || JobOf(s, u).Claiming?
  {
    forall u | u != t ensures JobOf(s, u).Idle? || JobOf(s, u).Claiming? {
      assert JobOk(s, u);
      assert Spinlock.In(s.lock, u) ==> u == t;
    }
  }

  lemma AccessKeeps(s: Cell, t: Tid)
    requires Inv(s) && Can(s, t, Access)
    ensures Inv(Do(s, t, Access)) && AtomicStep(s.seen, JobOf(s, t), Do(s, t, Access).seen)
  {
    var s' := Do(s, t, Access);
    assert JobOk(s, t) && Spinlock.In(s.lock, t);
    Alone(s, t);
    AccessedBetween(s.now, s.seen, JobOf(s, t));
    forall u ensures JobOk(s', u) { assert JobOk(s, u); }
  }

  lemma LockKeeps(s: Cell, t: Tid, act: Action)
    requires Inv(s) && Can(s, t, act) && !act.Access?
    ensures Inv(Do(s, t, act)) && Do(s, t, act).seen == s.seen
  {
    var s' := Do(s, t, act);
    var a := match act case Enter(_) => Spinlock.Call case Spin(a) => a case _ => Spinlock.Unlock;
    assert JobOk(s, t) && Spinlock.ExpectsFree(s.lock, t);
    Spinlock.ActionKeepsExclusion(s.lock, t, a);
    if s.lock.sem == 0 && s'.lock.sem != 0 { assert JobOf(s, t) == Leaving; }
    forall u ensures JobOk(s', u) { assert JobOk(s, u); }
  }

  /** Whatever the step, to the fields as last left it is one atomic section of the scheduler, or nothing. */
  lemma StepRefines(s: Cell, t: Tid, act: Action)
    requires Inv(s) && Can(s, t, act)
    ensures Inv(Do(s, t, act))
    ensures if act.Access? then AtomicStep(s.seen, JobOf(s, t), Do(s, t, act).seen)
      else Do(s, t, act).seen == s.seen
  {
    if act.Access? { AccessKeeps(s, t); } else { LockKeeps(s, t, act); }
  }

  // ---- runs ----

  ghost predicate Moves(s: Cell, who: (Tid, Action), s': Cell) {
    Can(s, who.0, who.1) && s' == Do(s, who.0, who.1)
  }

  ghost predicate IsCellRun(states: seq<Cell>, moves: seq<(Tid, Action)>) {
    && |states| == |moves| + 1 && states[0] == INITIAL
    && forall i, j {:trigger Moves(states[i], moves[i], states[j])} ::
      0 <= i < |moves| && j == i + 1 ==> Moves(states[i], moves[i], states[j])
  }

  lemma {:induction false} RunInv(states: seq<Cell>, moves: seq<(Tid, Action)>, i: nat)
    requires IsCellRun(states, moves) && i <= |moves|
    ensures Inv(states[i])
  {
    if i == 0 {
      InitialOk();
    } else {
      RunInv(states, moves, i - 1);
      assert Moves(states[i - 1], moves[i - 1], states[i]);
      StepRefines(states[i - 1], moves[i - 1].0, moves[i - 1].1);
    }
  }

  /**
   * In every interleaving the fields are, whenever nobody is inside, what a sequence of the scheduler's
   * atomic sections made of them.
   */
  lemma FieldsAreAtomic(states: seq<Cell>, moves: seq<(Tid, Action)>, i: nat)
    requires IsCellRun(states, moves) && i < |moves|
    ensures states[i].lock.sem in {0, 1} && (states[i].lock.sem == 1 ==> states[i].now == states[i].seen)
    ensures var (t, act) := moves[i];
      if act.Access? then AtomicStep(states[i].seen, JobOf(states[i], t), states[i + 1].seen)
      else states[i + 1].seen == states[i].seen
  {
    RunInv(states, moves, i);
    assert Moves(states[i], moves[i], states[i + 1]);
    StepRefines(states[i], moves[i].0, moves[i].1);
  }

  /** In every interleaving, whenever nobody is inside a mutex that is free, nobody waits for it. */
  lemma NobodyIsForgotten(states: seq<Cell>, moves: seq<(Tid, Action)>, i: nat)
    requires IsCellRun(states, moves) && i <= |moves|
    ensures states[i].lock.sem == 1 && states[i].now.state == MU_FREE ==> states[i].now.waiting == []
  {
    RunInv(states, moves, i);
  }

  // ---- whole calls ----

  /** freeLock hands out the waiters one by one, in order. */
  function Handings(waiting: seq<Addr>): seq<Job> {
    seq(|waiting|, i requires 0 <= i < |waiting| => Handing(waiting[i]))
  }

  /** The atomic sections that a call owes if it finds the fields `v`, in order. */
  function Owed(call: Call, v: Words): seq<Job> {
    match call
    case Try(kind, cur) => if Admits(MutexOf(v), kind) then [Marking(kind)] else [Enqueuing(kind, cur)]
    case Undo(kind) => if Frees(MutexOf(v), kind) then [Clearing(kind)] + Handings(v.waiting) else [Dropping]
  }

  /** The fields that the call leaves. */
  function LeftBy(call: Call, v: Words): Words {
    match call
    case Try(kind, cur) => WordsOf(Tried(MutexOf(v), kind, cur, cur))
    case Undo(kind) =>
      var u := WordsOf(Unlocked(MutexOf(v), kind, 0, 0));
      if Frees(MutexOf(v), kind) then u.(waiting := []) else u
  }

  /** What the thread has still to do, seen from the fields as last left; Leaving is the end. */
  function ToDo(seen: Words, job: Job): seq<Job> {
    match job
    case Testing(kind, cur) => Owed(Try(kind, cur), seen)
    case Counting => [Marking(Reading)]
    case Marking(_) => [job]
    case Enqueuing(_, _) => [job]
    case Dropping => Owed(Undo(Reading), seen)
    case Clearing(_) => [job] + Handings(seen.waiting)
    case AtLoop => Handings(seen.waiting)
    case Popping(_) => Handings(seen.waiting)
    case Handing(_) => Handings(seen.waiting)
    case _ => []
  }

  /** The fields that it will leave. */
  function Final(seen: Words, job: Job): Words {
    match job
    case Testing(kind, cur) => LeftBy(Try(kind, cur), seen)
    case Counting => LeftBy(Try(Reading, 0), seen)
    case Marking(kind) => LeftBy(Try(kind, 0), seen)
    case Enqueuing(kind, cur) => LeftBy(Try(kind, cur), seen)
    case Dropping => LeftBy(Undo(Reading), seen)
    case Clearing(kind) => LeftBy(Undo(kind), seen)
    case AtLoop => seen.(waiting := [])
    case Popping(_) => seen.(waiting := [])
    case Handing(_) => seen.(waiting := [])
    case _ => seen
  }

  /** The atomic section that an access completes, if it does. */
  function Completed(w: Words, job: Job): seq<Job> {
    if Through(w, job) then [job] else []
  }

  /** What is owed before an access is what it completes and what is owed after it. */
  predicate Owes(now: Words, seen: Words, job: Job) {
    var (w, job') := Accessed(now, job);
    var seen' := if Through(now, job) then w else seen;
    ToDo(seen, job) == Completed(now, job) + ToDo(seen', job') && Final(seen', job') == Final(seen, job)
  }

  lemma AttemptOwes(now: Words, seen: Words, job: Job)
    requires job.Testing? || job.Counting? || job.Marking? || job.Enqueuing?
    requires Between(now, seen, job)
    ensures Owes(now, seen, job)
  {
  }

  lemma UnlockOwes(now: Words, seen: Words, job: Job)
    requires (job.Dropping? || job.Clearing?) && Between(now, seen, job)
    ensures Owes(now, seen, job)
  {
  }

  lemma LoopOwes(now: Words, seen: Words, job: Job)
    requires (job.AtLoop? || job.Popping? || job.Handing?) && Between(now, seen, job)
    ensures Owes(now, seen, job)
  {
    if job.Handing? { assert Handings(seen.waiting) == [job] + Handings(seen.waiting[1..]); }
  }

  lemma AccessedOwes(now: Words, seen: Words, job: Job)
    requires InSection(job) && Between(now, seen, job)
    ensures Owes(now, seen, job)
  {
    if job.AtLoop? || job.Popping? || job.Handing? {
      LoopOwes(now, seen, job);
    } else if job.Dropping? || job.Clearing? {
      UnlockOwes(now, seen, job);
    } else {
      AttemptOwes(now, seen, job);
    }
  }

  /** What the thread's accesses from `i` on and before `j` completed, in order. */
  function CompletedIn(states: seq<Cell>, moves: seq<(Tid, Action)>, t: Tid, i: nat, j: nat): seq<Job>
    requires i <= j <= |moves| <= |states|
  {
    if i == j then []
    else
      CompletedIn(states, moves, t, i, j - 1)
        + if moves[j - 1] == (t, Access) then Completed(states[j - 1].now, JobOf(states[j - 1], t)) else []
  }

  /** A thread inside, with this much behind it and this much to come. */
  ghost predicate InCall(s: Cell, t: Tid, call: Call, v: Words, done: seq<Job>) {
    && Spinlock.In(s.lock, t) && !JobOf(s, t).Idle? && !JobOf(s, t).Claiming?
    && done + ToDo(s.seen, JobOf(s, t)) == Owed(call, v) && Final(s.seen, JobOf(s, t)) == LeftBy(call, v)
  }

  lemma CallBegins(s: Cell, t: Tid, a: Spinlock.Action)
    requires Inv(s) && Can(s, t, Spin(a)) && JobOf(s, t).Claiming? && !JobOf(Do(s, t, Spin(a)), t).Claiming?
    ensures InCall(Do(s, t, Spin(a)), t, JobOf(s, t).call, s.now, [])
  {
    assert JobOk(s, t) && Spinlock.ExpectsFree(s.lock, t);
  }

  lemma MyCallGoesOn(s: Cell, t: Tid, act: Action, call: Call, v: Words, done: seq<Job>)
    requires Inv(s) && Can(s, t, act) && InCall(s, t, call, v, done) && act != Leave
    ensures InCall(Do(s, t, act), t, call, v, done + Completed(s.now, JobOf(s, t))) && act == Access
  {
    assert JobOk(s, t);
    AccessedOwes(s.now, s.seen, JobOf(s, t));
    var (w, job') := Accessed(s.now, JobOf(s, t));
    var seen' := if Through(s.now, JobOf(s, t)) then w else s.seen;
    assert done + (Completed(s.now, JobOf(s, t)) + ToDo(seen', job')) ==
      (done + Completed(s.now, JobOf(s, t))) + ToDo(seen', job');
  }

  lemma OthersLeaveCall(s: Cell, u: Tid, act: Action, t: Tid, call: Call, v: Words, done: seq<Job>)
    requires Inv(s) && Can(s, u, act) && InCall(s, t, call, v, done) && u != t
    ensures InCall(Do(s, u, act), t, call, v, done)
  {
    Alone(s, t);
  }

  /** The state from which the thread acquires the lock for this call. */
  ghost predicate Acquires(states: seq<Cell>, i: nat, t: Tid, call: Call) {
    i + 1 < |states| && JobOf(states[i], t) == Claiming(call) && !JobOf(states[i + 1], t).Claiming?
  }

  /** The thread has acquired the lock, and with what it found then, this is how far it has got. */
  ghost predicate InCallSince(
    states: seq<Cell>, moves: seq<(Tid, Action)>, t: Tid, call: Call, h: nat, i: nat, j: nat)
    requires h <= j <= |moves| < |states|
  {
    h < i < j && Acquires(states, i, t, call)
    && InCall(states[j], t, call, states[i].now, CompletedIn(states, moves, t, h, j))
  }

  /** Still claiming the lock, or past the acquisition. */
  ghost predicate Underway(states: seq<Cell>, moves: seq<(Tid, Action)>, t: Tid, call: Call, h: nat, j: nat)
    requires h <= j <= |moves| < |states|
  {
    (JobOf(states[j], t) == Claiming(call) && CompletedIn(states, moves, t, h, j) == [])
    || exists i: nat :: InCallSince(states, moves, t, call, h, i, j)
  }

  lemma {:induction false} CallUntil(
    states: seq<Cell>, moves: seq<(Tid, Action)>, t: Tid, call: Call, h: nat, j: nat)
    requires IsCellRun(states, moves) && h < j <= |moves| && moves[h] == (t, Enter(call))
    requires forall k :: h < k < j ==> moves[k] != (t, Leave)
    ensures Underway(states, moves, t, call, h, j)
  {
    assert Moves(states[j - 1], moves[j - 1], states[j]);
    if h + 1 == j {
      assert CompletedIn(states, moves, t, h, h) == [];
    } else {
      CallUntil(states, moves, t, call, h, j - 1);
      CallNext(states, moves, t, call, h, j - 1);
    }
  }

  lemma CallNext(states: seq<Cell>, moves: seq<(Tid, Action)>, t: Tid, call: Call, h: nat, n: nat)
    requires IsCellRun(states, moves) && h < n < |moves| && moves[n] != (t, Leave)
    requires Underway(states, moves, t, call, h, n)
    ensures Underway(states, moves, t, call, h, n + 1)
  {
    var s := states[n];
    var (u, act) := moves[n];
    RunInv(states, moves, n);
    assert Moves(s, moves[n], states[n + 1]);
    var done := CompletedIn(states, moves, t, h, n);
    if i: nat :| InCallSince(states, moves, t, call, h, i, n) {
      if u == t {
        MyCallGoesOn(s, t, act, call, states[i].now, done);
      } else {
        OthersLeaveCall(s, u, act, t, call, states[i].now, done);
        assert done + [] == done;
      }
      assert InCallSince(states, moves, t, call, h, i, n + 1);
    } else if JobOf(states[n + 1], t) != Claiming(call) {
      CallBegins(s, t, act.a);
      assert InCallSince(states, moves, t, call, h, n, n + 1);
    }
  }

  /**
   * A call does its work: between its entry and its release it completes exactly the atomic sections that
   * it owes, in order, for the fields it finds at its acquisition, and leaves the fields that these make.
   * An attempt marks or enqueues, once; an unlock that frees the mutex hands out everyone who waits.
   */
  lemma CallDoesItsWork(states: seq<Cell>, moves: seq<(Tid, Action)>, t: Tid, call: Call, h: nat, j: nat)
    requires IsCellRun(states, moves) && h < j < |moves|
    requires moves[h] == (t, Enter(call)) && moves[j] == (t, Leave)
    requires forall k :: h < k < j ==> moves[k] != (t, Leave)
    ensures exists i: nat {:trigger Acquires(states, i, t, call)} ::
      && h < i < j && Acquires(states, i, t, call)
      && CompletedIn(states, moves, t, h, j) == Owed(call, states[i].now)
      && states[j].now == LeftBy(call, states[i].now)
  {
    CallUntil(states, moves, t, call, h, j);
    RunInv(states, moves, j);
    assert Moves(states[j], moves[j], states[j + 1]) && JobOk(states[j], t);
    var done := CompletedIn(states, moves, t, h, j);
    var i: nat :| InCallSince(states, moves, t, call, h, i, j);
    assert done + [] == done;
    assert Acquires(states, i, t, call);
  }

  /** How many accesses a thread inside is away from its release, at most. */
  function Left(w: Words, job: Job): nat {
    match job
    case Testing(_, _) => 3
    case Counting => 2
    case Marking(_) => 1
    case Enqueuing(_, _) => 1
    case Dropping => 3 * |w.waiting| + 3
    case Clearing(_) => 3 * |w.waiting| + 2
    case AtLoop => 3 * |w.waiting| + 1
    case Popping(_) => 3 * |w.waiting|
    case Handing(_) => 3 * |w.waiting| + 2
    case _ => 0
  }

  /** Whoever is inside can go on, and comes closer to its release with every access. */
  lemma InsiderLeaves(s: Cell, t: Tid)
    requires Inv(s) && Spinlock.In(s.lock, t)
    ensures JobOf(s, t) == Leaving ==> Can(s, t, Leave)
    ensures JobOf(s, t) != Leaving ==>
      && Can(s, t, Access)
      && Left(Do(s, t, Access).now, JobOf(Do(s, t, Access), t)) < Left(s.now, JobOf(s, t))
  {
    assert JobOk(s, t);
  }

  /** No other thread pushes it back. */
  lemma InsiderIsLeftAlone(s: Cell, u: Tid, act: Action, t: Tid)
    requires Inv(s) && Can(s, u, act) && Spinlock.In(s.lock, t) && u != t
    ensures Left(Do(s, u, act).now, JobOf(Do(s, u, act), t)) == Left(s.now, JobOf(s, t))
  {
    Alone(s, t);
  }
}
