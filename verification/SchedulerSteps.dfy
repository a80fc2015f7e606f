/** Every step of Processor::loop keeps the invariant; each lemma names the placement afterwards. */
module SchedulerSteps {
  import opened Seqs
  import opened SleepQueue
  import opened Scheduler
  import opened SchedulerInv
  import opened SchedulerFrames

  // ---- steps that only advance the loop ----

  lemma ClearStep(s: State, w: Placement, p: Pid)
    requires InvW(s, w) && EnabledLoop(s, p, Clear)
    ensures InvW(ApplyLoop(s, p, Clear), w)
  {
    var s' := ApplyLoop(s, p, Clear);
    assert ProcOk(s, p);
    assert ProcTime(s', p) by {
      forall i | 0 <= i < |s'.procs[p].heap| ensures Sleeps(s', p, s'.procs[p].heap[i]) {
        assert Sleeps(s, p, s.procs[p].heap[i]);
      }
    }
    LoopLocal(s, s', w, w, p);
    SameTokens(s, s', w);
  }

  /** One reported descriptor: its coroutine is swapped out in waitEvent. */
  lemma PolledEvent(s: State, w: Placement, p: Pid, fd: Fd)
    requires InvW(s, w) && p < |s.procs| && fd in s.procs[p].interest && s.procs[p].onCpu == 0
    ensures var a := s.procs[p].interest[fd]; AwaitsEvent(s, p, a) && w[a] == Event(p, fd) && a != 0
  {
    PlaceOf(s, w, Event(p, fd), s.procs[p].interest[fd]);
  }

  /** What epoll_wait returns are coroutines swapped out in waitEvent, or null, and none twice. */
  lemma PolledEvents(s: State, w: Placement, p: Pid, ready: seq<Option<Fd>>)
    requires InvW(s, w) && EnabledLoop(s, p, Poll(ready))
    ensures ProcAct(ApplyLoop(s, p, Poll(ready)), p)
  {
    var s' := ApplyLoop(s, p, Poll(ready));
    assert ProcOk(s, p);
    var interest := s.procs[p].interest;
    assert s'.procs[p].act == Events(interest, ready);
    forall i | 0 <= i < |ready| && ready[i].Some?
      ensures AwaitsEvent(s', p, interest[ready[i].value]) && w[interest[ready[i].value]] == Event(p, ready[i].value)
    {
      PolledEvent(s, w, p, ready[i].value);
    }
  }

  lemma PollStep(s: State, w: Placement, p: Pid, ready: seq<Option<Fd>>)
    requires InvW(s, w) && EnabledLoop(s, p, Poll(ready))
    ensures InvW(ApplyLoop(s, p, Poll(ready)), w)
  {
    var s' := ApplyLoop(s, p, Poll(ready));
    assert ProcOk(s, p);
    PolledEvents(s, w, p, ready);
    LoopLocal(s, s', w, w, p);
    SameTokens(s, s', w);
  }

  /** The three steps that leave one loop over a list for the next stage. */
  lemma NextStageStep(s: State, w: Placement, p: Pid, l: LoopStep)
    requires InvW(s, w) && EnabledLoop(s, p, l) && l in {ExpiredDone, ActiveDone, ReclaimDone}
    ensures InvW(ApplyLoop(s, p, l), w)
  {
    var s' := ApplyLoop(s, p, l);
    assert ProcOk(s, p);
    LoopLocal(s, s', w, w, p);
    SameTokens(s, s', w);
  }

  lemma FlipCore(s: State, w: Placement, p: Pid)
    requires InvW(s, w) && EnabledLoop(s, p, Flip)
    ensures Core(ApplyLoop(s, p, Flip), Moved(w, s.procs[p].adding, Running(p)))
  {
    var s' := ApplyLoop(s, p, Flip);
    assert ProcOk(s, p);
    forall a | a in s.procs[p].adding ensures a in s.cos && Fits(a, s.cos[a], Running(p)) {
      PlaceOf(s, w, Adding(p), a);
    }
    LoopLocal(s, s', w, Moved(w, s.procs[p].adding, Running(p)), p);
  }

  lemma FlipStep(s: State, w: Placement, p: Pid)
    requires InvW(s, w) && EnabledLoop(s, p, Flip)
    ensures InvW(ApplyLoop(s, p, Flip), Moved(w, s.procs[p].adding, Running(p)))
  {
    FlipCore(s, w, p);
    assert At(s, Adding(p)) + [] == At(s, Adding(p));
    MoveAll(Lists(s), Lists(ApplyLoop(s, p, Flip)), s.cos.Keys, w, Adding(p), Running(p), s.procs[p].adding);
  }

  lemma ExpireLists(s: State, p: Pid)
    requires EnabledLoop(s, p, Expire) && s.procs[p].expired == [] && s.procs[p].ei == 0
    ensures var s' := ApplyLoop(s, p, Expire);
      var gone := s'.procs[p].expired;
      && At(s, Expired(p)) == [] && At(s', Expired(p)) == gone
      && At(s, Heap(p)) == gone + At(s', Heap(p))
  {
  }

  lemma ExpirePlaces(s: State, p: Pid)
    requires EnabledLoop(s, p, Expire)
    ensures forall loc :: loc != Heap(p) && loc != Expired(p) ==>
      At(ApplyLoop(s, p, Expire), loc) == At(s, loc)
  {
  }

  lemma ExpireTokens(s: State, w: Placement, p: Pid)
    requires TokenInv(s, w) && EnabledLoop(s, p, Expire) && s.procs[p].expired == [] && s.procs[p].ei == 0
    ensures var s' := ApplyLoop(s, p, Expire);
      TokenInv(s', Moved(w, s'.procs[p].expired, Expired(p)))
  {
    var s' := ApplyLoop(s, p, Expire);
    ExpireLists(s, p);
    ExpirePlaces(s, p);
    MoveAll(Lists(s), Lists(s'), s.cos.Keys, w, Heap(p), Expired(p), s'.procs[p].expired);
  }

  lemma ExpireTimes(s: State, w: Placement, p: Pid)
    requires InvW(s, w) && EnabledLoop(s, p, Expire)
    ensures ProcTime(ApplyLoop(s, p, Expire), p)
  {
    var s' := ApplyLoop(s, p, Expire);
    var q := s.procs[p];
    var k := DueCount(q.heap, s.now);
    assert ProcOk(s, p);
    forall i | 0 <= i < |q.heap| - k ensures Sleeps(s', p, s'.procs[p].heap[i]) { assert Sleeps(s, p, q.heap[k + i]); }
    forall i | 0 <= i < k ensures Overdue(s', p, s'.procs[p].expired[i]) {
      assert Sleeps(s, p, q.heap[i]);
      assert CoOk(s, w, q.heap[i].co);
    }
  }

  lemma ExpireFits(s: State, w: Placement, p: Pid, a: Addr)
    requires InvW(s, w) && EnabledLoop(s, p, Expire) && a in ApplyLoop(s, p, Expire).procs[p].expired
    ensures a in s.cos && Fits(a, s.cos[a], Expired(p))
  {
    var q := s.procs[p];
    var k := DueCount(q.heap, s.now);
    assert ProcOk(s, p);
    assert q.expired == [] && Cos(q.heap[..k]) == Cos(q.heap)[..k];
    PlaceOf(s, w, Heap(p), a);
  }

  lemma ExpireCore(s: State, w: Placement, p: Pid)
    requires InvW(s, w) && EnabledLoop(s, p, Expire)
    ensures Core(ApplyLoop(s, p, Expire), Moved(w, ApplyLoop(s, p, Expire).procs[p].expired, Expired(p)))
  {
    var s' := ApplyLoop(s, p, Expire);
    var gone := s'.procs[p].expired;
    assert ProcOk(s, p);
    ExpireTimes(s, w, p);
    forall a | a in gone ensures a in s.cos && Fits(a, s.cos[a], Expired(p)) { ExpireFits(s, w, p, a); }
    LoopLocal(s, s', w, Moved(w, gone, Expired(p)), p);
  }

  lemma ExpireStep(s: State, w: Placement, p: Pid)
    requires InvW(s, w) && EnabledLoop(s, p, Expire)
    ensures InvW(ApplyLoop(s, p, Expire), Moved(w, ApplyLoop(s, p, Expire).procs[p].expired, Expired(p)))
  {
    assert ProcOk(s, p);
    ExpireTokens(s, w, p);
    ExpireCore(s, w, p);
  }

  // ---- steps that resume a coroutine ----

  /** The coroutine at the head of timerExpiredCo_ is asleep and overdue. */
  lemma ExpiredHead(s: State, w: Placement, p: Pid)
    requires InvW(s, w) && EnabledLoop(s, p, ResumeExpired)
    ensures var a := s.procs[p].expired[s.procs[p].ei];
      && a in s.cos && s.cos[a].owner == p && w[a] == Expired(p) && s.cos[a].status == CO_WAITING
      && s.cos[a].pc.Suspended? && s.cos[a].pc.why.Sleeping? && s.cos[a].pc.why.due <= s.now
      && a in s.procs[p].coSet && a != 0
  {
    var q := s.procs[p];
    assert ProcOk(s, p);
    assert q.expired[q.ei..][0] == q.expired[q.ei];
    PlaceOf(s, w, Expired(p), q.expired[q.ei]);
    assert Overdue(s, p, q.expired[q.ei]);
  }

  /** `s'` is `s` but for where processor `p`'s thread is, and its loop is one further in timerExpiredCo_. */
  ghost predicate ExpiredConsumed(s: State, s': State, p: Pid)
    requires p < |s.procs|
  {
    var q := s.procs[p];
    && OnlyProc(s, s', p) && s'.cos.Keys == s.cos.Keys && s'.mutexes == s.mutexes && s'.hand == s.hand
    && q.ei < |q.expired|
    && s'.procs[p] == q.(ei := q.ei + 1, cur := s'.procs[p].cur, onCpu := s'.procs[p].onCpu, coSet := s'.procs[p].coSet)
  }

  lemma ResumeExpiredTokens(s: State, s': State, w: Placement, p: Pid)
    requires p < |s.procs| && TokenInv(s, w) && ExpiredConsumed(s, s', p)
    ensures var a := s.procs[p].expired[s.procs[p].ei];
      TokenInv(s', w[a := Nowhere])
      && forall i :: s.procs[p].ei < i < |s.procs[p].expired| ==> s.procs[p].expired[i] != a
  {
    var q := s.procs[p];
    var a := q.expired[q.ei];
    NoDupAt(s, w, Expired(p));
    PopLoses(At(s, Expired(p)));
    ConsumeToken(s, s', w, a, Expired(p));
  }

  lemma ResumeExpiredStep(s: State, w: Placement, p: Pid)
    requires InvW(s, w) && EnabledLoop(s, p, ResumeExpired)
    ensures InvW(ApplyLoop(s, p, ResumeExpired), w[s.procs[p].expired[s.procs[p].ei] := Nowhere])
  {
    var s' := ApplyLoop(s, p, ResumeExpired);
    var q := s.procs[p];
    var a := q.expired[q.ei];
    ExpiredHead(s, w, p);
    ResumeDelivers(WithProc(s, p, q.(ei := q.ei + 1)), p, a);
    ResumeExpiredTokens(s, s', w, p);
    assert ProcOk(s, p) && CoOk(s, w, a);
    ActKept(s, s', p, a);
    Elsewhere(s, w, Heap(p), a);
    TimeKept(s, s', p, a);
    HandOver(s, s', w, w[a := Nowhere], p, a);
  }

  /** The head of the running queue is fresh or was woken from a mutex. */
  lemma RunningHead(s: State, w: Placement, p: Pid)
    requires InvW(s, w) && EnabledLoop(s, p, DrainOne)
    ensures var a := s.procs[p].running[0];
      && a in s.cos && s.cos[a].owner == p && w[a] == Running(p) && a != 0
      && ((s.cos[a].pc.Fresh? && s.cos[a].status == CO_READY)
        || (s.cos[a].pc.Suspended? && s.cos[a].pc.why.Queueing? && s.cos[a].status == CO_WAITING))
  {
    PlaceOf(s, w, Running(p), s.procs[p].running[0]);
  }

  ghost predicate RunningConsumed(s: State, s': State, p: Pid)
    requires p < |s.procs|
  {
    var q := s.procs[p];
    && OnlyProc(s, s', p) && s'.cos.Keys == s.cos.Keys && s'.mutexes == s.mutexes && s'.hand == s.hand
    && q.running != []
    && s'.procs[p] == q.(running := q.running[1..], coSet := s'.procs[p].coSet,
      cur := s'.procs[p].cur, onCpu := s'.procs[p].onCpu)
  }

  lemma DrainTokens(s: State, s': State, w: Placement, p: Pid)
    requires p < |s.procs| && TokenInv(s, w) && RunningConsumed(s, s', p)
    ensures TokenInv(s', w[s.procs[p].running[0] := Nowhere])
  {
    NoDupAt(s, w, Running(p));
    PopLoses(At(s, Running(p)));
    ConsumeToken(s, s', w, s.procs[p].running[0], Running(p));
  }

  lemma DrainOneStep(s: State, w: Placement, p: Pid)
    requires InvW(s, w) && EnabledLoop(s, p, DrainOne)
    ensures InvW(ApplyLoop(s, p, DrainOne), w[s.procs[p].running[0] := Nowhere])
  {
    var s' := ApplyLoop(s, p, DrainOne);
    var q := s.procs[p];
    var a := q.running[0];
    RunningHead(s, w, p);
    ResumeDelivers(WithProc(s, p, q.(running := q.running[1..], coSet := q.coSet + {a})), p, a);
    DrainTokens(s, s', w, p);
    assert ProcOk(s, p) && CoOk(s, w, a);
    ActKept(s, s', p, a);
    Elsewhere(s, w, Heap(p), a);
    TimeKept(s, s', p, a);
    HandOver(s, s', w, w[a := Nowhere], p, a);
  }

  /** An unprocessed active entry that is not null is a coroutine waiting in epoll. */
  lemma ActiveHead(s: State, w: Placement, p: Pid)
    requires InvW(s, w) && EnabledLoop(s, p, ResumeActive) && s.procs[p].act[s.procs[p].ai] != 0
    ensures var a := s.procs[p].act[s.procs[p].ai];
      && AwaitsEvent(s, p, a) && w[a] == Event(p, s.cos[a].pc.why.fd)
      && s.cos[a].status == CO_WAITING && a in s.procs[p].coSet
  {
    var a := s.procs[p].act[s.procs[p].ai];
    assert ProcOk(s, p);
    assert AwaitsEvent(s, p, a);
    assert CoOk(s, w, a);
  }

  lemma ActiveTokens(s: State, s': State, w: Placement, p: Pid)
    requires TokenInv(s, w) && OnlyProc(s, s', p) && s'.cos.Keys == s.cos.Keys
    requires s'.mutexes == s.mutexes && s'.hand == s.hand
    requires var q := s.procs[p];
      s'.procs[p] == q.(ai := q.ai + 1, cur := s'.procs[p].cur, onCpu := s'.procs[p].onCpu)
    ensures TokenInv(s', w)
  {
    SameTokens(s, s', w);
  }

  /** The timer's null pointer is skipped. */
  lemma SkipNull(s: State, w: Placement, p: Pid)
    requires Core(s, w) && EnabledLoop(s, p, ResumeActive) && s.procs[p].act[s.procs[p].ai] == 0
    ensures Core(ApplyLoop(s, p, ResumeActive), w)
  {
    var s' := ApplyLoop(s, p, ResumeActive);
    assert ProcOk(s, p);
    LoopLocal(s, s', w, w, p);
  }

  lemma ResumeActiveCore(s: State, w: Placement, p: Pid)
    requires InvW(s, w) && EnabledLoop(s, p, ResumeActive) && s.procs[p].act[s.procs[p].ai] != 0
    ensures Core(ApplyLoop(s, p, ResumeActive), w)
  {
    var s' := ApplyLoop(s, p, ResumeActive);
    var q := s.procs[p];
    var a := q.act[q.ai];
    assert ProcOk(s, p);
    ActiveHead(s, w, p);
    ResumeDelivers(WithProc(s, p, q.(ai := q.ai + 1)), p, a);
    assert CoOk(s, w, a);
    ActKept(s, s', p, a);
    Elsewhere(s, w, Heap(p), a);
    TimeKept(s, s', p, a);
    assert s'.procs[p].coSet == q.coSet + {a};
    HandOver(s, s', w, w, p, a);
  }

  lemma ResumeActiveTokens(s: State, w: Placement, p: Pid)
    requires InvW(s, w) && EnabledLoop(s, p, ResumeActive)
    ensures TokenInv(ApplyLoop(s, p, ResumeActive), w)
  {
    var q := s.procs[p];
    if q.act[q.ai] != 0 {
      ActiveHead(s, w, p);
      ResumeDelivers(WithProc(s, p, q.(ai := q.ai + 1)), p, q.act[q.ai]);
      assert q.coSet + {q.act[q.ai]} == q.coSet;
    }
    ActiveTokens(s, ApplyLoop(s, p, ResumeActive), w, p);
  }

  lemma ResumeActiveStep(s: State, w: Placement, p: Pid)
    requires InvW(s, w) && EnabledLoop(s, p, ResumeActive)
    ensures InvW(ApplyLoop(s, p, ResumeActive), w)
  {
    ResumeActiveTokens(s, w, p);
    if s.procs[p].act[s.procs[p].ai] == 0 { SkipNull(s, w, p); } else { ResumeActiveCore(s, w, p); }
  }

  // ---- reclamation ----

  /** What the clean-up loop deletes is finished and the processor's own. */
  lemma RemovedHead(s: State, w: Placement, p: Pid)
    requires InvW(s, w) && EnabledLoop(s, p, ReclaimOne)
    ensures var a := s.procs[p].removed[s.procs[p].ri];
      a in s.cos && s.cos[a].owner == p && s.cos[a].pc == Dead && w[a] == Removed(p) && a != 0
  {
    var q := s.procs[p];
    assert ProcOk(s, p);
    assert q.removed[q.ri..][0] == q.removed[q.ri];
    PlaceOf(s, w, Removed(p), q.removed[q.ri]);
  }

  lemma ReclaimTokens(s: State, w: Placement, p: Pid)
    requires TokenInv(s, w) && EnabledLoop(s, p, ReclaimOne)
    ensures var a := s.procs[p].removed[s.procs[p].ri];
      TokenInv(ApplyLoop(s, p, ReclaimOne), w - {a})
  {
    var q := s.procs[p];
    var a := q.removed[q.ri];
    NoDupAt(s, w, Removed(p));
    PopLoses(At(s, Removed(p)));
    DeleteToken(s, ApplyLoop(s, p, ReclaimOne), w, a, Removed(p));
  }

  lemma ReclaimCos(s: State, w: Placement, p: Pid)
    requires InvW(s, w) && EnabledLoop(s, p, ReclaimOne)
    ensures var s' := ApplyLoop(s, p, ReclaimOne);
      var w' := w - {s.procs[p].removed[s.procs[p].ri]};
      w'.Keys == s'.cos.Keys && forall a {:trigger CoOk(s', w', a)} :: a in s'.cos ==> CoOk(s', w', a)
  {
    var s' := ApplyLoop(s, p, ReclaimOne);
    var d := s.procs[p].removed[s.procs[p].ri];
    RemovedHead(s, w, p);
    forall a | a in s'.cos ensures CoOk(s', w - {d}, a) { assert CoOk(s, w, a); }
  }

  lemma ReclaimProcs(s: State, w: Placement, p: Pid, q: Pid)
    requires InvW(s, w) && EnabledLoop(s, p, ReclaimOne) && q < |s.procs|
    ensures |ApplyLoop(s, p, ReclaimOne).procs| == |s.procs| && ProcOk(ApplyLoop(s, p, ReclaimOne), q)
  {
    RemovedHead(s, w, p);
    assert ProcOk(s, q);
    SameProc(s, ApplyLoop(s, p, ReclaimOne), q);
  }

  lemma ReclaimCore(s: State, w: Placement, p: Pid)
    requires InvW(s, w) && EnabledLoop(s, p, ReclaimOne)
    ensures Core(ApplyLoop(s, p, ReclaimOne), w - {s.procs[p].removed[s.procs[p].ri]})
  {
    var s' := ApplyLoop(s, p, ReclaimOne);
    RemovedHead(s, w, p);
    ReclaimCos(s, w, p);
    forall q | 0 <= q < |s'.procs| ensures ProcOk(s', q) { ReclaimProcs(s, w, p, q); }
    forall m | 0 <= m < |s'.mutexes| ensures MuOk(s', m) { assert MuOk(s, m); }
  }

  lemma ReclaimOneStep(s: State, w: Placement, p: Pid)
    requires InvW(s, w) && EnabledLoop(s, p, ReclaimOne)
    ensures InvW(ApplyLoop(s, p, ReclaimOne), w - {s.procs[p].removed[s.procs[p].ri]})
  {
    ReclaimTokens(s, w, p);
    ReclaimCore(s, w, p);
  }
}
