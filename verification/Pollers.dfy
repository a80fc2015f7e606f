/** waitEvent from end to end, over whole runs: it ends when epoll reports the descriptor, and only then. */
module Pollers {
  import opened Seqs
  import opened SleepQueue
  import opened Scheduler
  import opened SchedulerInv
  import opened SchedulerFrames
  import opened SchedulerSteps
  import opened SchedulerCoSteps
  import opened SchedulerTheorems
  import opened SchedulerRuns
  import opened Sleepers

  /** `a`, a coroutine of `p`, is in waitEvent for `fd`, from its registration until it goes on. */
  predicate Polls(s: State, p: Pid, a: Addr, fd: Fd) {
    && a in s.cos && s.cos[a].owner == p
    && (s.cos[a].pc == Yielding(Polling(fd)) || s.cos[a].pc == Switching(Polling(fd))
        || s.cos[a].pc == Suspended(Polling(fd)))
  }

  /** The step is an epoll_wait of `p`'s loop that reports `fd`. */
  predicate Reports(step: Step, p: Pid, fd: Fd) {
    step.OfLoop? && step.p == p && step.l.Poll? && Some(fd) in step.l.ready
  }

  /** `a` is among those that the loop over actCoroutines_ has still to resume. */
  predicate IsActive(s: State, p: Pid, a: Addr) {
    && p < |s.procs| && s.procs[p].ai <= |s.procs[p].act| && a in s.procs[p].act[s.procs[p].ai..]
  }

  // ---- what a step does to a coroutine in waitEvent ----

  /** Only the loop over actCoroutines_ gives it the thread. */
  lemma PollGoesOn(s: State, step: Step, p: Pid, a: Addr, fd: Fd)
    requires Reachable(s) && Enabled(s, step) && Polls(s, p, a, fd)
    ensures Polls(Apply(s, step), p, a, fd)
      || (GoesOn(s, step, p, a, Removing(fd)) && step == OfLoop(p, ResumeActive) && IsActive(s, p, a))
  {
    var w := ReachableInv(s);
    match step
    case OfLoop(o, l) =>
      if Resumes(l) && Consumed(s, o, l) == a {
        PollConsumed(s, o, l, p, a, fd);
      } else {
        if l.ReclaimOne? { RemovedHead(s, w, o); }
        LoopStepTouchesConsumed(s, o, l, a);
      }
    case OfCo(o, c) =>
      Executing(s, w, o);
      if a != s.procs[o].onCpu { CoStepTouchesMe(s, o, c, a); }
    case _ =>
  }

  lemma PollConsumed(s: State, o: Pid, l: LoopStep, p: Pid, a: Addr, fd: Fd)
    requires Reachable(s) && EnabledLoop(s, o, l) && Resumes(l) && Consumed(s, o, l) == a && Polls(s, p, a, fd)
    ensures o == p && l == ResumeActive && GoesOn(s, OfLoop(o, l), p, a, Removing(fd)) && IsActive(s, p, a)
  {
    var w := ReachableInv(s);
    assert CoOk(s, w, a);
    NoWakeUpDiscarded(s, o, l);
    ActiveIsConsumed(s, o, l, a);
  }

  lemma ActiveIsConsumed(s: State, o: Pid, l: LoopStep, a: Addr)
    requires Reachable(s) && EnabledLoop(s, o, l) && Resumes(l) && Consumed(s, o, l) == a
    requires a in s.cos && s.cos[a].pc.Suspended? && s.cos[a].pc.why.Polling?
    ensures l == ResumeActive && IsActive(s, o, a)
  {
    var w := ReachableInv(s);
    match l
    case ResumeExpired => ExpiredHead(s, w, o);
    case DrainOne => RunningHead(s, w, o);
    case ResumeActive => assert s.procs[o].act[s.procs[o].ai..][0] == a;
  }

  // ---- what is reported is resumed ----

  lemma PollLists(s: State, p: Pid, ready: seq<Option<Fd>>)
    requires EnabledLoop(s, p, Poll(ready)) && ProcStage(s.procs[p])
    ensures |ApplyLoop(s, p, Poll(ready)).procs| == |s.procs|
    ensures var q := ApplyLoop(s, p, Poll(ready)).procs[p];
      q.stage == Expiring && q.ai == 0 && q.act == Events(s.procs[p].interest, ready)
  {
  }

  /** While the loop has the thread, whoever is in waitEvent is swapped out, and registered for its descriptor alone. */
  lemma Registered(s: State, p: Pid, a: Addr, fd: Fd)
    requires Reachable(s) && p < |s.procs| && s.procs[p].onCpu == 0 && Polls(s, p, a, fd)
    ensures s.cos[a].pc == Suspended(Polling(fd)) && a != 0
    ensures forall other :: (other in s.procs[p].interest && s.procs[p].interest[other] == a) <==> other == fd
  {
    var w := ReachableInv(s);
    RegisteredOnce(s, w, p, a, fd);
    forall other | other in s.procs[p].interest && s.procs[p].interest[other] == a ensures other == fd {
      PolledEvent(s, w, p, other);
    }
  }

  lemma RegisteredOnce(s: State, w: Placement, p: Pid, a: Addr, fd: Fd)
    requires InvW(s, w) && p < |s.procs| && s.procs[p].onCpu == 0 && Polls(s, p, a, fd)
    ensures s.cos[a].pc == Suspended(Polling(fd)) && a != 0 && w[a] == Event(p, fd)
    ensures fd in s.procs[p].interest && s.procs[p].interest[fd] == a
  {
    assert CoOk(s, w, a);
    EventPlace(s, w, p, a, fd);
  }

  lemma EventPlace(s: State, w: Placement, p: Pid, a: Addr, fd: Fd)
    requires TokenInv(s, w) && p < |s.procs| && a in w && w[a] == Event(p, fd)
    ensures fd in s.procs[p].interest && s.procs[p].interest[fd] == a
  {
    InPlace(s, w, a);
  }

  /** Which coroutines an epoll_wait makes active. */
  lemma PollFinds(s: State, p: Pid, ready: seq<Option<Fd>>, a: Addr, fd: Fd)
    requires Reachable(s) && EnabledLoop(s, p, Poll(ready)) && Polls(s, p, a, fd)
    ensures s.cos[a].pc == Suspended(Polling(fd))
    ensures IsActive(ApplyLoop(s, p, Poll(ready)), p, a) <==> Some(fd) in ready
    ensures ApplyLoop(s, p, Poll(ready)).procs[p].stage == Expiring
  {
    var w := ReachableInv(s);
    assert ProcOk(s, p);
    PollLists(s, p, ready);
    Registered(s, p, a, fd);
    EventsOf(s.procs[p].interest, ready, a, fd);
    var q' := ApplyLoop(s, p, Poll(ready)).procs[p];
    assert q'.act[0..] == q'.act;
  }

  lemma EventsOf(interest: map<Fd, Addr>, ready: seq<Option<Fd>>, a: Addr, fd: Fd)
    requires PollResult(interest, ready) && a != 0
    requires forall other :: (other in interest && interest[other] == a) <==> other == fd
    ensures a in Events(interest, ready) <==> Some(fd) in ready
  {
    if Some(fd) in ready {
      var i :| 0 <= i < |ready| && ready[i] == Some(fd);
      assert Events(interest, ready)[i] == a;
    }
    if a in Events(interest, ready) {
      var i :| 0 <= i < |ready| && Events(interest, ready)[i] == a;
      assert ready[i] == Some(fd);
    }
  }

  /** From epoll_wait to the end of the loop over actCoroutines_. */
  predicate BeforeEnd(stage: Stage) {
    stage in {Expiring, RunExpired, Drain, RunActive}
  }

  lemma LoopActs(s: State, p: Pid, l: LoopStep)
    requires EnabledLoop(s, p, l)
    ensures |ApplyLoop(s, p, l).procs| == |s.procs|
    ensures var q, q' := s.procs[p], ApplyLoop(s, p, l).procs[p];
      && (!l.Poll? && l != Clear ==> q'.act == q.act && q'.ai == if l == ResumeActive then q.ai + 1 else q.ai)
      && (l == Clear ==> q'.act == [])
      && (BeforeEnd(q.stage) && l != ActiveDone ==> BeforeEnd(q'.stage) && !l.Poll? && l != Clear)
      && (l == ActiveDone ==> q.ai >= |q.act|) && (l == ResumeActive ==> q.ai < |q.act|)
  {
  }

  lemma ActiveStays(s: State, step: Step, p: Pid, a: Addr, fd: Fd)
    requires Reachable(s) && Enabled(s, step) && Polls(s, p, a, fd) && IsActive(s, p, a)
    requires BeforeEnd(s.procs[p].stage)
    ensures GoesOn(s, step, p, a, Removing(fd))
      || (IsActive(Apply(s, step), p, a) && BeforeEnd(Apply(s, step).procs[p].stage))
  {
    match step
    case OfLoop(o, l) =>
      if o != p {
        OtherLoop(s, o, l, p);
      } else {
        LoopActs(s, p, l);
        PollGoesOn(s, step, p, a, fd);
        if l == ResumeActive {
          if Consumed(s, p, l) == a {
            ActiveResumed(s, p, a, fd);
          } else {
            HeadLeaves(s.procs[p].act, s.procs[p].ai, a);
          }
        }
      }
    case OfCo(o, c) => CoKeepsLoop(s, o, c, p);
    case _ =>
  }

  lemma ActiveResumed(s: State, p: Pid, a: Addr, fd: Fd)
    requires Reachable(s) && EnabledLoop(s, p, ResumeActive) && Consumed(s, p, ResumeActive) == a
    requires Polls(s, p, a, fd)
    ensures GoesOn(s, OfLoop(p, ResumeActive), p, a, Removing(fd))
  {
    var w := ReachableInv(s);
    assert CoOk(s, w, a);
    NoWakeUpDiscarded(s, p, ResumeActive);
  }

  lemma {:induction false} ActiveUntilResumed(
    states: seq<State>, steps: seq<Step>, p: Pid, a: Addr, fd: Fd, i: nat, j: nat)
    requires IsRun(states, steps) && i <= j <= |steps|
    requires Polls(states[i], p, a, fd) && IsActive(states[i], p, a) && BeforeEnd(states[i].procs[p].stage)
    ensures GoesOnIn(states, steps, p, a, Removing(fd), i, j)
      || (Polls(states[j], p, a, fd) && IsActive(states[j], p, a) && BeforeEnd(states[j].procs[p].stage))
  {
    if i < j {
      ActiveUntilResumed(states, steps, p, a, fd, i, j - 1);
      var s, step := states[j - 1], steps[j - 1];
      StepAt(states, steps, j - 1);
      StateReachable(states, steps, j - 1);
      if Polls(s, p, a, fd) && IsActive(s, p, a) && BeforeEnd(s.procs[p].stage) {
        PollGoesOn(s, step, p, a, fd);
        ActiveStays(s, step, p, a, fd);
      }
    }
  }

  /**
   * Whoever waits for a descriptor that an epoll_wait of its loop reports has the thread, on its way out
   * of waitEvent, before that loop comes to the clean-up, and so before its next iteration.
   */
  lemma ReportedGoesOn(states: seq<State>, steps: seq<Step>, p: Pid, a: Addr, fd: Fd, i: nat, j: nat)
    requires IsRun(states, steps) && i < j <= |steps| && Reports(steps[i], p, fd) && Polls(states[i], p, a, fd)
    requires p < |states[j].procs| && states[j].procs[p].stage in {Reclaim, Top, Polled}
    ensures GoesOnIn(states, steps, p, a, Removing(fd), i + 1, j)
  {
    StepAt(states, steps, i);
    StateReachable(states, steps, i);
    PollFinds(states[i], p, steps[i].l.ready, a, fd);
    PollGoesOn(states[i], steps[i], p, a, fd);
    ActiveUntilResumed(states, steps, p, a, fd, i + 1, j);
  }

  // ---- waitEvent returns only for its descriptor ----

  /** Some step from `i` on and before `j` reports the descriptor. */
  ghost predicate ReportedIn(steps: seq<Step>, p: Pid, fd: Fd, i: nat, j: nat)
    requires j <= |steps|
  {
    exists k :: i <= k < j && Reports(steps[k], p, fd)
  }

  /** In waitEvent: not active without a report, and on the way out only after one. */
  ghost predicate InWaitEvent(s: State, p: Pid, a: Addr, fd: Fd, reported: bool) {
    if Polls(s, p, a, fd) then IsActive(s, p, a) ==> reported
    else a in s.cos && s.cos[a].owner == p && s.cos[a].pc == Removing(fd) && reported
  }

  lemma BecomesActive(s: State, step: Step, p: Pid, a: Addr, fd: Fd)
    requires Reachable(s) && Enabled(s, step) && Polls(s, p, a, fd) && !IsActive(s, p, a)
    requires IsActive(Apply(s, step), p, a) && p < |s.procs|
    ensures Reports(step, p, fd)
  {
    var w := ReachableInv(s);
    assert ProcOk(s, p);
    match step
    case OfLoop(o, l) =>
      if o != p {
        OtherLoop(s, o, l, p);
      } else if l.Poll? {
        PollFinds(s, p, l.ready, a, fd);
      } else {
        LoopActs(s, p, l);
      }
    case OfCo(o, c) => CoKeepsLoop(s, o, c, p);
    case _ =>
  }

  /** What removeEv leaves: the coroutine in its function, and its descriptor unregistered. */
  predicate Returned(s: State, p: Pid, a: Addr, fd: Fd) {
    a in s.cos && s.cos[a].pc == User && p < |s.procs| && fd !in s.procs[p].interest
  }

  lemma RemovingStays(s: State, step: Step, p: Pid, a: Addr, fd: Fd)
    requires Reachable(s) && Enabled(s, step) && a in s.cos && s.cos[a].owner == p && s.cos[a].pc == Removing(fd)
    ensures (a in Apply(s, step).cos && Apply(s, step).cos[a] == s.cos[a]) || Returned(Apply(s, step), p, a, fd)
  {
    var w := ReachableInv(s);
    assert CoOk(s, w, a);
    match step
    case OfLoop(o, l) =>
      if Resumes(l) && Consumed(s, o, l) == a { NoWakeUpDiscarded(s, o, l); }
      if l.ReclaimOne? { RemovedHead(s, w, o); }
      LoopStepTouchesConsumed(s, o, l, a);
    case OfCo(o, c) =>
      Executing(s, w, o);
      if a != s.procs[o].onCpu { CoStepTouchesMe(s, o, c, a); }
    case _ =>
  }

  lemma WaitEventStays(s: State, step: Step, p: Pid, a: Addr, fd: Fd, reported: bool)
    requires Reachable(s) && Enabled(s, step) && InWaitEvent(s, p, a, fd, reported)
    ensures InWaitEvent(Apply(s, step), p, a, fd, reported || Reports(step, p, fd))
      || (reported && Returned(Apply(s, step), p, a, fd))
  {
    if Polls(s, p, a, fd) {
      var w := ReachableInv(s);
      assert CoOk(s, w, a);
      PollGoesOn(s, step, p, a, fd);
      if IsActive(Apply(s, step), p, a) && !IsActive(s, p, a) { BecomesActive(s, step, p, a, fd); }
    } else {
      RemovingStays(s, step, p, a, fd);
    }
  }

  /** A coroutine that calls waitEvent executes, so that it is not active. */
  lemma WaitEventBegins(s: State, p: Pid, fd: Fd)
    requires Reachable(s) && Enabled(s, OfCo(p, WaitEvent(fd)))
    ensures InWaitEvent(ApplyCo(s, p, WaitEvent(fd)), p, s.procs[p].onCpu, fd, false)
  {
    var w := ReachableInv(s);
    Executing(s, w, p);
    var q, me := s.procs[p], s.procs[p].onCpu;
    CoKeepsLoop(s, p, WaitEvent(fd), p);
    forall i | q.ai <= i < |q.act| ensures q.act[i] != me {
      assert q.act[i] != 0 ==> AwaitsEvent(s, p, q.act[i]);
    }
  }

  lemma {:induction false} InWaitEventUntil(
    states: seq<State>, steps: seq<Step>, p: Pid, a: Addr, fd: Fd, i: nat, j: nat)
    requires IsRun(states, steps) && i < j <= |steps| && steps[i] == OfCo(p, WaitEvent(fd))
    requires p < |states[i].procs| && states[i].procs[p].onCpu == a
    requires forall k :: i < k < j ==> a in states[k].cos && states[k].cos[a].pc != User
    ensures InWaitEvent(states[j], p, a, fd, ReportedIn(steps, p, fd, i + 1, j))
      || (ReportedIn(steps, p, fd, i + 1, j - 1) && Returned(states[j], p, a, fd))
  {
    StepAt(states, steps, j - 1);
    StateReachable(states, steps, j - 1);
    if i + 1 == j {
      WaitEventBegins(states[i], p, fd);
    } else {
      InWaitEventUntil(states, steps, p, a, fd, i, j - 1);
      WaitEventStays(states[j - 1], steps[j - 1], p, a, fd, ReportedIn(steps, p, fd, i + 1, j - 1));
      assert ReportedIn(steps, p, fd, i + 1, j) <==>
        ReportedIn(steps, p, fd, i + 1, j - 1) || Reports(steps[j - 1], p, fd);
    }
  }

  /** When waitEvent returns, its descriptor was reported during the call, and is not registered any more. */
  lemma WaitEventReturns(states: seq<State>, steps: seq<Step>, p: Pid, fd: Fd, i: nat, j: nat)
    requires IsRun(states, steps) && i < j <= |steps| && steps[i] == OfCo(p, WaitEvent(fd)) && p < |states[i].procs|
    requires var a := states[i].procs[p].onCpu;
      && (forall k :: i < k < j ==> a in states[k].cos && states[k].cos[a].pc != User)
      && a in states[j].cos && states[j].cos[a].pc == User
    ensures ReportedIn(steps, p, fd, i + 1, j - 1)
    ensures p < |states[j].procs| && fd !in states[j].procs[p].interest
  {
    InWaitEventUntil(states, steps, p, states[i].procs[p].onCpu, fd, i, j);
  }
}
