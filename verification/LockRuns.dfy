/**
 * The converse of Locking.AtomicStepsSuffice: whatever the atomic steps of module Scheduler reach, some
 * interleaving of acquisitions, sections and releases reaches too.  So the locks change nothing.
 */
module LockRuns {
  import opened Seqs
  import opened SleepQueue
  import opened Scheduler
  import opened SchedulerInv
  import opened SchedulerFrames
  import opened SchedulerSteps
  import opened SchedulerCoSteps
  import opened SchedulerTheorems
  import opened SchedulerRuns
  import opened Holders
  import opened Locking

  /** Between two atomic steps a thread is outside, in freeLock's loop, or, if a stranger, on its way to push. */
  predicate Rests(f: Fine, t: Tid) {
    match PointOf(f, t)
    case Outside => true
    case Handing(_) => true
    case Acquiring(Push(_, _)) => t >= |f.s.procs|
    case _ => false
  }

  predicate Brings(f: Fine, t: Tid, a: Addr) {
    Pending(PointOf(f, t)) == Some(a)
  }

  ghost predicate Resting(f: Fine) {
    && FineReachable(f)
    && (forall t {:trigger Rests(f, t)} :: Rests(f, t))
    && (forall a :: a in f.s.hand ==> exists t {:trigger Brings(f, t, a)} :: Brings(f, t, a))
  }

  /** No thread but `t` has moved. */
  ghost predicate OthersStand(f: Fine, f': Fine, t: Tid) {
    forall u {:trigger PointOf(f', u)} :: u != t ==> PointOf(f', u) == PointOf(f, u)
  }

  // ---- single moves ----

  lemma FineNext(f: Fine, t: Tid, mv: Move)
    requires FineReachable(f) && Can(f, t, mv)
    ensures FineReachable(Do(f, t, mv)) && OthersStand(f, Do(f, t, mv), t)
    ensures PointOf(Do(f, t, mv), t) == NextPoint(f, t, mv)
  {
    var states, moves :| IsFineRun(states, moves) && states[|moves|] == f;
    assert Moves(f, (t, mv), Do(f, t, mv));
    RunGrows(states, moves, (t, mv), Do(f, t, mv));
  }

  lemma RunGrows(states: seq<Fine>, moves: seq<(Tid, Move)>, who: (Tid, Move), f': Fine)
    requires IsFineRun(states, moves) && Moves(states[|moves|], who, f')
    ensures FineReachable(f')
  {
    var states', moves' := states + [f'], moves + [who];
    forall i, j | 0 <= i < |moves'| && j == i + 1 ensures Moves(states'[i], moves'[i], states'[j]) {
      if i < |moves| { assert Moves(states[i], moves[i], states[j]); }
    }
    assert IsFineRun(states', moves') && states'[|moves'|] == f';
  }

  /** A lock that nobody needs between atomic steps is free. */
  lemma FreeAtRest(f: Fine, l: Lock)
    requires FineReachable(f) && forall t {:trigger Rests(f, t)} :: Rests(f, t)
    requires l.MutexLock? ==> l.m < |f.s.mutexes| && f.s.mutexes[l.m].lock.None?
    ensures Sem(f, l) == 1
  {
    FineReachableInv(f);
    assert LockOk(f, l);
    if Sem(f, l) == 0 {
      var t :| Has(f, t, l);
      assert Rests(f, t) && ThreadOk(f, t);
      var w := ReachableInv(f.s);
      Executing(f.s, w, t);
    }
  }

  /** Acquire and make the accesses. */
  lemma EnterSection(f: Fine, t: Tid, job: Job, a: Addr) returns (f': Fine)
    requires FineReachable(f) && PointOf(f, t) == Acquiring(job) && Sem(f, LockOf(t, job)) == 1
    requires job.Construct? ==> a != 0 && a !in f.s.cos
    ensures FineReachable(f') && OthersStand(f, f', t) && PointOf(f', t) == AfterSection(f.s, t, job, a)
    ensures Enabled(f.s, SectionStep(t, job, a)) && f'.s == Apply(f.s, SectionStep(t, job, a))
  {
    FineNext(f, t, Acquire);
    var g := Do(f, t, Acquire);
    FineReachableInv(g);
    GuardsHold(g, t, Section(a));
    FineNext(g, t, Section(a));
    f' := Do(g, t, Section(a));
  }

  lemma ReleaseIt(f: Fine, t: Tid) returns (f': Fine)
    requires FineReachable(f) && (PointOf(f, t).Leaving? || PointOf(f, t).Made?)
    ensures FineReachable(f') && OthersStand(f, f', t) && f'.s == f.s
    ensures PointOf(f', t) == if PointOf(f, t).Made? then Acquiring(Push(PointOf(f, t).p, PointOf(f, t).a)) else Outside
  {
    FineNext(f, t, Release);
    f' := Do(f, t, Release);
  }

  lemma BeginIt(f: Fine, t: Tid, job: Job) returns (f': Fine)
    requires FineReachable(f) && PointOf(f, t).Outside? && !job.Push? && Entering(f.s, t, job)
    ensures FineReachable(f') && OthersStand(f, f', t) && f'.s == f.s && PointOf(f', t) == Acquiring(job)
    ensures Sem(f', LockOf(t, job)) == Sem(f, LockOf(t, job))
  {
    FineNext(f, t, Begin(job));
    f' := Do(f, t, Begin(job));
  }

  /** A whole section of a thread that is outside, up to its release unless it goes on to freeLock's loop. */
  lemma WholeSection(f: Fine, t: Tid, job: Job, a: Addr) returns (f': Fine)
    requires FineReachable(f) && PointOf(f, t).Outside? && !job.Push? && Entering(f.s, t, job)
    requires Sem(f, LockOf(t, job)) == 1 && (job.Construct? ==> a != 0 && a !in f.s.cos)
    ensures FineReachable(f') && OthersStand(f, f', t)
    ensures Enabled(f.s, SectionStep(t, job, a)) && f'.s == Apply(f.s, SectionStep(t, job, a))
    ensures PointOf(f', t) ==
      if AfterSection(f.s, t, job, a).Handing? then AfterSection(f.s, t, job, a)
      else if job.Construct? then Acquiring(Push(job.p, a)) else Outside
  {
    var g := BeginIt(f, t, job);
    f' := EnterSection(g, t, job, a);
    if !PointOf(f', t).Handing? { f' := ReleaseIt(f', t); }
  }

  // ---- the atomic steps, one by one ----

  lemma OtherHands(s: State, step: Step)
    requires Enabled(s, step) && !step.NewCo? && !step.GoNew?
    ensures Apply(s, step).hand == s.hand && |Apply(s, step).procs| == |s.procs|
  {
    LocalKeepsCount(s, step);
    match step
    case OfLoop(p, l) => LoopHands(s, p, l);
    case OfCo(p, c) => CoHands(s, p, c);
    case _ =>
  }

  lemma LoopHands(s: State, p: Pid, l: LoopStep)
    requires EnabledLoop(s, p, l)
    ensures ApplyLoop(s, p, l).hand == s.hand
  {
  }

  lemma CoHands(s: State, p: Pid, c: CoStep)
    requires EnabledCo(s, p, c)
    ensures ApplyCo(s, p, c).hand == s.hand
  {
  }

  /** After a thread that brings nobody has made an atomic step, all rest again. */
  lemma RestsAgain(f: Fine, f': Fine, t: Tid)
    requires Resting(f) && FineReachable(f') && OthersStand(f, f', t) && Rests(f', t)
    requires f'.s.hand == f.s.hand && |f'.s.procs| == |f.s.procs| && Pending(PointOf(f, t)).None?
    ensures Resting(f')
  {
    forall u ensures Rests(f', u) { assert Rests(f, u); }
    forall a | a in f'.s.hand ensures exists u {:trigger Brings(f', u, a)} :: Brings(f', u, a) {
      var u :| Brings(f, u, a);
      assert Brings(f', u, a);
    }
  }

  /** Where the thread of a processor rests. */
  lemma OutsideUnlessFreeing(f: Fine, p: Pid)
    requires Resting(f) && p < |f.s.procs|
    ensures Pending(PointOf(f, p)).None?
    ensures if InCo(f.s, p) && MyPc(f.s, p).Freeing? then PointOf(f, p) == Handing(MyPc(f.s, p).m)
      else PointOf(f, p).Outside?
  {
    FineReachableInv(f);
    assert ThreadOk(f, p) && Rests(f, p);
  }

  lemma LocalStep(f: Fine, t: Tid, step: Step) returns (f': Fine)
    requires Resting(f) && Enabled(f.s, step) && Lockless(t, step) && PointOf(f, t).Outside?
    ensures Resting(f') && f'.s == Apply(f.s, step)
  {
    FineNext(f, t, Local(step));
    f' := Do(f, t, Local(step));
    OtherHands(f.s, step);
    RestsAgain(f, f', t);
  }

  lemma SectionOf(f: Fine, p: Pid, job: Job) returns (f': Fine)
    requires Resting(f) && PointOf(f, p).Outside? && Entering(f.s, p, job) && !job.Push? && !job.Construct?
    requires LockOf(p, job).MutexLock? ==> job.m < |f.s.mutexes| && f.s.mutexes[job.m].lock.None?
    ensures Resting(f') && Enabled(f.s, SectionStep(p, job, 0)) && f'.s == Apply(f.s, SectionStep(p, job, 0))
  {
    FreeAtRest(f, LockOf(p, job));
    f' := WholeSection(f, p, job, 0);
    OtherHands(f.s, SectionStep(p, job, 0));
    RestsAgain(f, f', p);
  }

  lemma LoopStepOf(f: Fine, p: Pid, l: LoopStep) returns (f': Fine)
    requires Resting(f) && EnabledLoop(f.s, p, l)
    ensures Resting(f') && f'.s == ApplyLoop(f.s, p, l)
  {
    OutsideUnlessFreeing(f, p);
    if l == Flip {
      f' := SectionOf(f, p, Swap);
    } else if l == ReclaimOne {
      f' := SectionOf(f, p, Delete);
    } else {
      f' := LocalStep(f, p, OfLoop(p, l));
    }
  }

  lemma CoStepOf(f: Fine, p: Pid, c: CoStep) returns (f': Fine)
    requires Resting(f) && EnabledCo(f.s, p, c) && Disciplined(f.s, p, c)
    ensures Resting(f') && f'.s == ApplyCo(f.s, p, c)
  {
    OutsideUnlessFreeing(f, p);
    match c
    case TryLock => f' := SectionOf(f, p, Try(MyPc(f.s, p).m));
    case Unlock(m, kind) => f' := SectionOf(f, p, Undo(m, kind));
    case WakeOne => f' := WakeStepOf(f, p);
    case WakeDone => f' := FinishStepOf(f, p);
    case _ => f' := LocalStep(f, p, OfCo(p, c));
  }

  lemma WakeStepOf(f: Fine, p: Pid) returns (f': Fine)
    requires Resting(f) && EnabledCo(f.s, p, WakeOne)
    ensures Resting(f') && f'.s == ApplyCo(f.s, p, WakeOne)
  {
    OutsideUnlessFreeing(f, p);
    var m := MyPc(f.s, p).m;
    FineReachableInv(f);
    var w := ReachableInv(f.s);
    WaitingHead(f.s, w, m);
    var o := f.s.cos[f.s.mutexes[m].waiting[0]].owner;
    FineNext(f, p, Pop);
    var g := Do(f, p, Pop);
    FreeAtRest(f, QueueLock(o));
    f' := PushTo(g, p, m, o);
    OtherHands(f.s, OfCo(p, WakeOne));
    RestsAgain(f, f', p);
  }

  lemma PushTo(f: Fine, p: Pid, m: Mid, o: Pid) returns (f': Fine)
    requires FineReachable(f) && PointOf(f, p) == AcquiringFor(m, o) && Sem(f, QueueLock(o)) == 1
    ensures FineReachable(f') && OthersStand(f, f', p) && PointOf(f', p) == Handing(m)
    ensures EnabledCo(f.s, p, WakeOne) && f'.s == ApplyCo(f.s, p, WakeOne)
  {
    FineNext(f, p, AcquireFor);
    var g := Do(f, p, AcquireFor);
    FineReachableInv(g);
    GuardsHold(g, p, PushWaiter);
    FineNext(g, p, PushWaiter);
    var h := Do(g, p, PushWaiter);
    FineNext(h, p, ReleaseFor);
    f' := Do(h, p, ReleaseFor);
  }

  lemma FinishStepOf(f: Fine, p: Pid) returns (f': Fine)
    requires Resting(f) && EnabledCo(f.s, p, WakeDone)
    ensures Resting(f') && f'.s == ApplyCo(f.s, p, WakeDone)
  {
    OutsideUnlessFreeing(f, p);
    FineReachableInv(f);
    GuardsHold(f, p, Finish);
    FineNext(f, p, Finish);
    f' := ReleaseIt(Do(f, p, Finish), p);
    OtherHands(f.s, OfCo(p, WakeDone));
    RestsAgain(f, f', p);
  }

  /** A thread that is no processor's and has not moved yet. */
  lemma Stranger(f: Fine) returns (t: Tid)
    ensures t >= |f.s.procs| && PointOf(f, t).Outside?
  {
    var b := Above(f.at.Keys);
    t := b + |f.s.procs|;
  }

  lemma NewCoOf(f: Fine, p: Pid, a: Addr) returns (f': Fine)
    requires Resting(f) && Enabled(f.s, NewCo(p, a))
    ensures Resting(f') && f'.s == DoNewCo(f.s, p, a)
  {
    var t := Stranger(f);
    FreeAtRest(f, PoolLock(p));
    f' := WholeSection(f, t, Construct(p), a);
    forall u ensures Rests(f', u) { assert Rests(f, u); }
    forall b | b in f'.s.hand ensures exists u {:trigger Brings(f', u, b)} :: Brings(f', u, b) {
      if b == a {
        assert Brings(f', t, b);
      } else {
        var u :| Brings(f, u, b);
        assert Brings(f', u, b);
      }
    }
  }

  lemma GoNewOf(f: Fine, a: Addr) returns (f': Fine)
    requires Resting(f) && Enabled(f.s, GoNew(a))
    ensures Resting(f') && f'.s == DoGoNew(f.s, a)
  {
    var t :| Brings(f, t, a);
    assert Rests(f, t);
    var job := PointOf(f, t).job;
    FreeAtRest(f, QueueLock(job.p));
    var g := EnterSection(f, t, job, 0);
    f' := ReleaseIt(g, t);
    forall u ensures Rests(f', u) { assert Rests(f, u); }
    forall b | b in f'.s.hand ensures exists u {:trigger Brings(f', u, b)} :: Brings(f', u, b) {
      assert b in f.s.hand && b != a;
      var u :| Brings(f, u, b);
      assert Brings(f', u, b);
    }
  }

  lemma StepOf(f: Fine, step: Step) returns (f': Fine)
    requires Resting(f) && Enabled(f.s, step)
    ensures Resting(f') && f'.s == Apply(f.s, step)
  {
    match step
    case OfLoop(p, l) => f' := LoopStepOf(f, p, l);
    case OfCo(p, c) => f' := CoStepOf(f, p, c);
    case NewCo(p, a) => f' := NewCoOf(f, p, a);
    case GoNew(a) => f' := GoNewOf(f, a);
    case Tick(t) =>
      var u := Stranger(f);
      f' := LocalStep(f, u, step);
  }

  // ---- whole runs ----

  lemma StartRests(s: State) returns (f: Fine)
    requires Init(s)
    ensures Resting(f) && f.s == s
  {
    f := Fine(s, map[], map[], map[]);
    var none: seq<(Tid, Move)> := [];
    assert IsFineRun([f], none) && [f][|none|] == f;
  }

  lemma {:induction false} RunOf(states: seq<State>, steps: seq<Step>, i: nat) returns (f: Fine)
    requires IsRun(states, steps) && i <= |steps|
    ensures Resting(f) && f.s == states[i]
  {
    if i == 0 {
      f := StartRests(states[0]);
    } else {
      f := RunOf(states, steps, i - 1);
      StepAt(states, steps, i - 1);
      f := StepOf(f, steps[i - 1]);
    }
  }

  /** Taking and releasing the locks one by one reaches exactly the states that the atomic steps reach. */
  lemma ReachableIff(s: State)
    ensures Reachable(s) <==> exists f :: FineReachable(f) && f.s == s
  {
    if f :| FineReachable(f) && f.s == s {
      FineReachableInv(f);
    }
    if Reachable(s) {
      var states, steps :| IsRun(states, steps) && states[|steps|] == s;
      var f := RunOf(states, steps, |steps|);
      assert FineReachable(f) && f.s == s;
    }
  }
}
