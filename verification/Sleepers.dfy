/** A sleep from end to end, over whole runs: it lasts as long as asked for, and it ends. */
module Sleepers {
  import opened Seqs
  import opened SleepQueue
  import opened Scheduler
  import opened SchedulerInv
  import opened SchedulerFrames
  import opened SchedulerSteps
  import opened SchedulerCoSteps
  import opened SchedulerTheorems
  import opened SchedulerRuns

  /** The loop of `p` gives its thread to the coroutine `a`, which goes on at `pc`. */
  ghost predicate GoesOn(s: State, step: Step, p: Pid, a: Addr, pc: Pc) {
    && step.OfLoop? && step.p == p && Enabled(s, step) && InCo(Apply(s, step), p)
    && Apply(s, step).procs[p].onCpu == a && MyPc(Apply(s, step), p) == pc
  }

  /** ... at some step from `i` on and before `j`. */
  ghost predicate GoesOnIn(states: seq<State>, steps: seq<Step>, p: Pid, a: Addr, pc: Pc, i: nat, j: nat)
    requires IsRun(states, steps) && j <= |steps|
  {
    exists k :: i <= k < j && GoesOn(states[k], steps[k], p, a, pc)
  }

  /** `a`, a coroutine of `p`, sleeps until `due`; on its way to the switch or swapped out. */
  predicate Asleep(s: State, p: Pid, a: Addr, due: int) {
    a in s.cos && s.cos[a].owner == p && DueOf(s.cos[a].pc, due)
  }

  // ---- what getExpiredCoroutines takes ----

  lemma SplitByDue(h: seq<Entry>, now: int)
    requires Sorted(h)
    ensures forall e :: e in h[..DueCount(h, now)] ==> e.due <= now
    ensures forall e :: e in h[DueCount(h, now)..] ==> e.due > now
  {
    forall i | 0 <= i < |h| ensures h[i].due <= now <==> i < DueCount(h, now) { DueExactly(h, now, i); }
  }

  lemma InEither(h: seq<Entry>, k: nat, e: Entry)
    requires k <= |h|
    ensures e in h <==> e in h[..k] || e in h[k..]
  {
    assert h == h[..k] + h[k..];
  }

  lemma StayingAreLater(h: seq<Entry>, now: int, e: Entry)
    requires Sorted(h)
    ensures e in h[DueCount(h, now)..] <==> e in h && e.due > now
  {
    SplitByDue(h, now);
    InEither(h, DueCount(h, now), e);
  }

  lemma LeavingAreDue(h: seq<Entry>, now: int)
    requires Sorted(h)
    ensures forall e :: e in h && e.due <= now ==> e.co in Cos(h[..DueCount(h, now)])
    ensures forall a :: a in Cos(h[..DueCount(h, now)]) ==> exists e :: e in h && e.co == a && e.due <= now
  {
    var k := DueCount(h, now);
    var out := Cos(h[..k]);
    forall e | e in h && e.due <= now ensures e.co in out {
      var i :| 0 <= i < |h| && h[i] == e;
      DueExactly(h, now, i);
      assert out[i] == e.co;
    }
    forall a | a in out ensures exists e :: e in h && e.co == a && e.due <= now {
      var i :| 0 <= i < |out| && out[i] == a;
      assert h[i] in h && h[i].co == a && h[i].due <= now;
    }
  }

  lemma ExpireSplits(q: Processor, now: int, q': Processor)
    requires Sorted(q.heap) && q.expired == [] && q' == DoExpire(q, now)
    ensures forall e :: e in q'.heap <==> e in q.heap && e.due > now
    ensures forall e :: e in q.heap && e.due <= now ==> e.co in q'.expired
    ensures forall a :: a in q'.expired ==> exists e :: e in q.heap && e.co == a && e.due <= now
    ensures |q'.expired| + |q'.heap| == |q.heap|
  {
    var k := DueCount(q.heap, now);
    assert q'.heap == q.heap[k..] && q'.expired == Cos(q.heap[..k]);
    forall e ensures e in q'.heap <==> e in q.heap && e.due > now { StayingAreLater(q.heap, now, e); }
    LeavingAreDue(q.heap, now);
  }

  /** Every entry whose deadline has passed leaves the heap for the expired ones, and every other stays. */
  lemma ExpireTakesWhatIsDue(s: State, p: Pid)
    requires Reachable(s) && EnabledLoop(s, p, Expire)
    ensures var q, q' := s.procs[p], ApplyLoop(s, p, Expire).procs[p];
      && q'.stage == RunExpired && q'.ei == 0 && |q'.expired| + |q'.heap| == |q.heap|
      && (forall e :: e in q'.heap <==> e in q.heap && e.due > s.now)
      && (forall e :: e in q.heap && e.due <= s.now ==> e.co in q'.expired)
      && (forall a :: a in q'.expired ==> exists e :: e in q.heap && e.co == a && e.due <= s.now)
  {
    var w := ReachableInv(s);
    assert ProcOk(s, p);
    ExpireSplits(s.procs[p], s.now, ApplyLoop(s, p, Expire).procs[p]);
  }

  // ---- an overdue sleeper goes on in the same iteration ----

  /** `a` is among those that the loop over timerExpiredCo_ has still to resume. */
  predicate IsExpired(s: State, p: Pid, a: Addr) {
    && p < |s.procs| && s.procs[p].stage == RunExpired && s.procs[p].ei <= |s.procs[p].expired|
    && a in s.procs[p].expired[s.procs[p].ei..]
  }

  /** Whoever sleeps when the loop comes to getExpiredCoroutines is in the heap with its deadline. */
  lemma SleeperInHeap(s: State, p: Pid, a: Addr, due: int)
    requires Reachable(s) && EnabledLoop(s, p, Expire) && Asleep(s, p, a, due)
    ensures Entry(due, a) in s.procs[p].heap && s.cos[a].pc.Suspended?
  {
    var w := ReachableInv(s);
    assert ProcOk(s, p) && CoOk(s, w, a);
    InPlace(s, w, a);
    assert a in At(s, Heap(p));
    var i :| 0 <= i < |s.procs[p].heap| && Cos(s.procs[p].heap)[i] == a;
    assert Sleeps(s, p, s.procs[p].heap[i]);
  }

  /** Only the loop over timerExpiredCo_ ends a sleep, and not before the deadline. */
  lemma SleepGoesOn(s: State, step: Step, p: Pid, a: Addr, due: int)
    requires Reachable(s) && Enabled(s, step) && Asleep(s, p, a, due)
    ensures Asleep(Apply(s, step), p, a, due)
      || (GoesOn(s, step, p, a, User) && step == OfLoop(p, ResumeExpired) && due <= s.now)
  {
    var w := ReachableInv(s);
    match step
    case OfLoop(o, l) =>
      if Resumes(l) && Consumed(s, o, l) == a {
        NoWakeUpDiscarded(s, o, l);
        NotBeforeDeadline(s, step, a);
      } else {
        if l.ReclaimOne? { RemovedHead(s, w, o); }
        LoopStepTouchesConsumed(s, o, l, a);
      }
    case OfCo(o, c) =>
      Executing(s, w, o);
      if a != s.procs[o].onCpu { CoStepTouchesMe(s, o, c, a); }
    case _ =>
  }

  lemma CoKeepsLoop(s: State, o: Pid, c: CoStep, p: Pid)
    requires EnabledCo(s, o, c) && p < |s.procs|
    ensures var s' := ApplyCo(s, o, c);
      && |s'.procs| == |s.procs| && s'.procs[p].stage == s.procs[p].stage
      && s'.procs[p].expired == s.procs[p].expired && s'.procs[p].ei == s.procs[p].ei
      && s'.procs[p].act == s.procs[p].act && s'.procs[p].ai == s.procs[p].ai
  {
  }

  lemma ExpiredStays(s: State, step: Step, p: Pid, a: Addr, due: int)
    requires Reachable(s) && Enabled(s, step) && Asleep(s, p, a, due) && IsExpired(s, p, a)
    ensures IsExpired(Apply(s, step), p, a) || GoesOn(s, step, p, a, User)
  {
    SleepGoesOn(s, step, p, a, due);
    match step
    case OfLoop(o, l) =>
      if o != p { OtherLoop(s, o, l, p); } else { ExpiredConsumed(s, p, l, a, due); }
    case OfCo(o, c) => CoKeepsLoop(s, o, c, p);
    case _ =>
  }

  lemma ExpiredConsumed(s: State, p: Pid, l: LoopStep, a: Addr, due: int)
    requires Reachable(s) && EnabledLoop(s, p, l) && Asleep(s, p, a, due) && IsExpired(s, p, a)
    ensures IsExpired(ApplyLoop(s, p, l), p, a) || GoesOn(s, OfLoop(p, l), p, a, User)
  {
    assert l == ResumeExpired;
    if Consumed(s, p, l) == a {
      NoWakeUpDiscarded(s, p, l);
    } else {
      HeadLeaves(s.procs[p].expired, s.procs[p].ei, a);
      ResumeLeavesLists(s, p);
    }
  }

  lemma ResumeLeavesLists(s: State, p: Pid)
    requires EnabledLoop(s, p, ResumeExpired)
    ensures var s' := ApplyLoop(s, p, ResumeExpired);
      && |s'.procs| == |s.procs| && s'.procs[p].stage == RunExpired
      && s'.procs[p].expired == s.procs[p].expired && s'.procs[p].ei == s.procs[p].ei + 1
  {
  }

  lemma BecomesExpired(s: State, p: Pid, a: Addr, due: int)
    requires Reachable(s) && EnabledLoop(s, p, Expire) && Asleep(s, p, a, due) && due <= s.now
    ensures Asleep(ApplyLoop(s, p, Expire), p, a, due) && IsExpired(ApplyLoop(s, p, Expire), p, a)
  {
    SleeperInHeap(s, p, a, due);
    ExpireTakesWhatIsDue(s, p);
    LoopStepTouchesConsumed(s, p, Expire, a);
    var q := ApplyLoop(s, p, Expire).procs[p];
    assert q.expired[0..] == q.expired;
  }

  lemma HeadLeaves(s: seq<Addr>, i: nat, a: Addr)
    requires i < |s| && a in s[i..] && s[i] != a
    ensures a in s[i + 1..]
  {
    assert s[i..] == [s[i]] + s[i + 1..];
  }

  lemma {:induction false} ExpiredUntilResumed(
    states: seq<State>, steps: seq<Step>, p: Pid, a: Addr, due: int, i: nat, j: nat)
    requires IsRun(states, steps) && i <= j <= |steps|
    requires Asleep(states[i], p, a, due) && IsExpired(states[i], p, a)
    ensures GoesOnIn(states, steps, p, a, User, i, j)
      || (Asleep(states[j], p, a, due) && IsExpired(states[j], p, a))
  {
    if i < j {
      ExpiredUntilResumed(states, steps, p, a, due, i, j - 1);
      StepAt(states, steps, j - 1);
      StateReachable(states, steps, j - 1);
      if Asleep(states[j - 1], p, a, due) && IsExpired(states[j - 1], p, a) {
        SleepGoesOn(states[j - 1], steps[j - 1], p, a, due);
        ExpiredStays(states[j - 1], steps[j - 1], p, a, due);
      }
    }
  }

  /**
   * A sleeper whose deadline has passed when its loop looks is back in its function before that loop
   * leaves the expired ones, and so before the drain and the flip of the same iteration.
   */
  lemma OverdueGoesOn(states: seq<State>, steps: seq<Step>, p: Pid, a: Addr, due: int, i: nat, j: nat)
    requires IsRun(states, steps) && i < j <= |steps| && steps[i] == OfLoop(p, Expire)
    requires Asleep(states[i], p, a, due) && due <= states[i].now
    requires p < |states[j].procs| && states[j].procs[p].stage != RunExpired
    ensures GoesOnIn(states, steps, p, a, User, i + 1, j)
  {
    StepAt(states, steps, i);
    StateReachable(states, steps, i);
    BecomesExpired(states[i], p, a, due);
    ExpiredUntilResumed(states, steps, p, a, due, i + 1, j);
  }

  // ---- a sleep lasts as long as asked for ----

  lemma {:induction false} SleepsUntilResumed(
    states: seq<State>, steps: seq<Step>, p: Pid, a: Addr, due: int, i: nat, j: nat)
    requires IsRun(states, steps) && i <= j <= |steps| && Asleep(states[i], p, a, due)
    ensures GoesOnIn(states, steps, p, a, User, i, j) || Asleep(states[j], p, a, due)
  {
    if i < j {
      SleepsUntilResumed(states, steps, p, a, due, i, j - 1);
      StepAt(states, steps, j - 1);
      StateReachable(states, steps, j - 1);
      if Asleep(states[j - 1], p, a, due) { SleepGoesOn(states[j - 1], steps[j - 1], p, a, due); }
    }
  }

  /** Whoever calls wait for `ms` milliseconds sleeps from then on, until the clock as it was then plus `ms`. */
  lemma SleepBegins(s: State, p: Pid, ms: int)
    requires Reachable(s) && EnabledCo(s, p, Sleep(ms))
    ensures Asleep(ApplyCo(s, p, Sleep(ms)), p, s.procs[p].onCpu, s.now + ms)
  {
    var w := ReachableInv(s);
    Executing(s, w, p);
  }

  /** ... and the next time that its loop gives it the thread, that much time has passed. */
  lemma SleepsLongEnough(states: seq<State>, steps: seq<Step>, p: Pid, ms: int, i: nat, j: nat)
    requires IsRun(states, steps) && i < j < |steps| && steps[i] == OfCo(p, Sleep(ms)) && p < |states[i].procs|
    requires var a := states[i].procs[p].onCpu;
      !GoesOnIn(states, steps, p, a, User, i + 1, j) && GoesOn(states[j], steps[j], p, a, User)
    ensures states[j].now >= states[i].now + ms
  {
    var a, due := states[i].procs[p].onCpu, states[i].now + ms;
    StepAt(states, steps, i);
    StateReachable(states, steps, i);
    SleepBegins(states[i], p, ms);
    SleepsUntilResumed(states, steps, p, a, due, i + 1, j);
    StepAt(states, steps, j);
    StateReachable(states, steps, j);
    SleepGoesOn(states[j], steps[j], p, a, due);
  }

  /** The clock is what it was last set to. */
  lemma {:induction false} ClockIsLastTick(states: seq<State>, steps: seq<Step>, t: int, i: nat, j: nat)
    requires IsRun(states, steps) && i < j <= |steps| && steps[i] == Tick(t)
    requires forall k :: i < k < j ==> !steps[k].Tick?
    ensures states[j].now == t
  {
    StepAt(states, steps, j - 1);
    if i + 1 < j {
      ClockIsLastTick(states, steps, t, i, j - 1);
      OnlyTicksTime(states[j - 1], steps[j - 1]);
    }
  }

  lemma OnlyTicksTime(s: State, step: Step)
    requires Enabled(s, step) && !step.Tick?
    ensures Apply(s, step).now == s.now
  {
  }
}
