/** Steps of coroutine code, and of creation, keep the invariant. */
module SchedulerCoSteps {
  import opened Seqs
  import opened SleepQueue
  import opened Scheduler
  import opened SchedulerInv
  import opened SchedulerFrames

  /** The executing coroutine is the processor's own and is what `pCurCoroutine_` names. */
  lemma Executing(s: State, w: Placement, p: Pid)
    requires Core(s, w) && InCo(s, p)
    ensures var me := s.procs[p].onCpu;
      && s.procs[p].cur == me && s.cos[me].owner == p && CoOk(s, w, me) && ProcOk(s, p) && ProcExec(s, p)
  {
    assert ProcOk(s, p);
    assert CoOk(s, w, s.procs[p].onCpu);
  }

  /** Steps that only move the coroutine's own control: enter a lock call, yield, swap out, leave the stack. */
  lemma ControlStep(s: State, w: Placement, p: Pid, c: CoStep)
    requires InvW(s, w) && EnabledCo(s, p, c) && (c.CallLock? || c.Yield? || c.Switch? || c.Exit?)
    ensures InvW(ApplyCo(s, p, c), w)
  {
    ControlCore(s, w, p, c);
    ControlRecords(s, p, c);
    SameTokens(s, ApplyCo(s, p, c), w);
  }

  lemma ControlMine(s: State, w: Placement, p: Pid, c: CoStep)
    requires EnabledCo(s, p, c) && (c.CallLock? || c.Yield? || c.Switch? || c.Exit?)
    requires s.procs[p].cur == s.procs[p].onCpu && s.procs[p].onCpu in w
    requires CoOk(s, w, s.procs[p].onCpu) && s.cos[s.procs[p].onCpu].owner == p
    ensures var s', me := ApplyCo(s, p, c), s.procs[p].onCpu; me in s'.cos && CoOk(s', w, me)
  {
  }

  lemma ControlShape(s: State, p: Pid, c: CoStep)
    requires EnabledCo(s, p, c) && (c.CallLock? || c.Yield? || c.Switch? || c.Exit?)
    requires s.procs[p].cur == s.procs[p].onCpu
    ensures var s', me := ApplyCo(s, p, c), s.procs[p].onCpu;
      && s'.mutexes == s.mutexes && s'.now == s.now && s'.hand == s.hand
      && s'.procs == s.procs[p := s.procs[p].(onCpu := if c.Switch? || c.Exit? then 0 else me)]
      && me in s'.cos && s'.cos == s.cos[me := s'.cos[me]] && s'.cos[me].owner == s.cos[me].owner
      && !s'.cos[me].pc.Fresh? && !s'.cos[me].pc.Freeing? && (OnCpuPc(s'.cos[me].pc) <==> !c.Switch? && !c.Exit?)
      && forall due :: DueOf(s.cos[me].pc, due) ==> DueOf(s'.cos[me].pc, due)
  {
  }

  lemma ControlCore(s: State, w: Placement, p: Pid, c: CoStep)
    requires InvW(s, w) && EnabledCo(s, p, c) && (c.CallLock? || c.Yield? || c.Switch? || c.Exit?)
    ensures Core(ApplyCo(s, p, c), w)
  {
    var s' := ApplyCo(s, p, c);
    var me := s.procs[p].onCpu;
    Executing(s, w, p);
    ControlShape(s, p, c);
    ThreadProc(s, s', p, me);
    ControlMine(s, w, p, c);
    Local(s, s', w, w, p, me);
  }

  lemma ControlRecords(s: State, p: Pid, c: CoStep)
    requires EnabledCo(s, p, c) && (c.CallLock? || c.Yield? || c.Switch? || c.Exit?)
    ensures SameRecords(s, ApplyCo(s, p, c))
  {
  }

  // ---- RWMutex ----

  /** The lock was free for the caller: it returns to its function holding it. */
  lemma AcquireStep(s: State, w: Placement, p: Pid)
    requires InvW(s, w) && EnabledCo(s, p, TryLock)
    requires Admits(s.mutexes[MyPc(s, p).m], MyPc(s, p).kind)
    ensures InvW(ApplyCo(s, p, TryLock), w)
  {
    var s' := ApplyCo(s, p, TryLock);
    var me := s.procs[p].onCpu;
    var m := MyPc(s, p).m;
    Executing(s, w, p);
    assert MuOk(s, m);
    ThreadProc(s, s', p, me);
    Local(s, s', w, w, p, me);
    SameTokens(s, s', w);
  }

  lemma EnqueuePlaces(s: State, p: Pid)
    requires EnabledCo(s, p, TryLock) && !Admits(s.mutexes[MyPc(s, p).m], MyPc(s, p).kind)
    ensures var s', m := ApplyCo(s, p, TryLock), MyPc(s, p).m;
      && At(s', WaitQ(m)) == At(s, WaitQ(m)) + [s.procs[p].cur]
      && forall loc :: loc != WaitQ(m) ==> At(s', loc) == At(s, loc)
  {
  }

  lemma EnqueueTokens(s: State, w: Placement, p: Pid)
    requires TokenInv(s, w) && EnabledCo(s, p, TryLock) && s.procs[p].cur == s.procs[p].onCpu
    requires !Admits(s.mutexes[MyPc(s, p).m], MyPc(s, p).kind)
    requires s.procs[p].onCpu in w && w[s.procs[p].onCpu] == Nowhere
    ensures TokenInv(ApplyCo(s, p, TryLock), w[s.procs[p].onCpu := WaitQ(MyPc(s, p).m)])
  {
    var s' := ApplyCo(s, p, TryLock);
    var me := s.procs[p].onCpu;
    var m := MyPc(s, p).m;
    Elsewhere(s, w, WaitQ(m), me);
    NoDupAt(s, w, WaitQ(m));
    PushGains(At(s, WaitQ(m)), me);
    EnqueuePlaces(s, p);
    RecordToken(s, s', w, me, WaitQ(m));
  }

  /** The lock was taken: the caller records itself in the wait queue. */
  lemma EnqueueStep(s: State, w: Placement, p: Pid)
    requires InvW(s, w) && EnabledCo(s, p, TryLock)
    requires !Admits(s.mutexes[MyPc(s, p).m], MyPc(s, p).kind)
    ensures InvW(ApplyCo(s, p, TryLock), w[s.procs[p].onCpu := WaitQ(MyPc(s, p).m)])
  {
    var s' := ApplyCo(s, p, TryLock);
    var me := s.procs[p].onCpu;
    var m := MyPc(s, p).m;
    Executing(s, w, p);
    assert MuOk(s, m);
    ThreadProc(s, s', p, me);
    Local(s, s', w, w[me := WaitQ(m)], p, me);
    EnqueueTokens(s, w, p);
  }

  /** What an unlock changes: one mutex, and the caller's control if it goes on to freeLock. */
  lemma UnlockShape(s: State, p: Pid, m: Mid, kind: Kind)
    requires EnabledCo(s, p, Unlock(m, kind))
    ensures var s', me := ApplyCo(s, p, Unlock(m, kind)), s.procs[p].onCpu;
      && s'.procs == s.procs && s'.now == s.now && s'.hand == s.hand
      && s'.mutexes == s.mutexes[m := Unlocked(s.mutexes[m], kind, p, me)]
      && s'.cos == s.cos[me := s.cos[me].(pc := if Frees(s.mutexes[m], kind) then Freeing(m) else User)]
  {
    assert s.cos[s.procs[p].onCpu := s.cos[s.procs[p].onCpu]] == s.cos;
  }

  lemma UnlockMine(s: State, w: Placement, p: Pid, m: Mid, kind: Kind)
    requires EnabledCo(s, p, Unlock(m, kind)) && Disciplined(s, p, Unlock(m, kind)) && MuOk(s, m)
    requires s.procs[p].onCpu in w && CoOk(s, w, s.procs[p].onCpu) && s.cos[s.procs[p].onCpu].owner == p
    ensures var s', me := ApplyCo(s, p, Unlock(m, kind)), s.procs[p].onCpu;
      && me in s'.cos && m < |s'.mutexes| && CoOk(s', w, me) && MuOk(s', m) && LocksOf(s, s', p)
  {
    UnlockShape(s, p, m, kind);
    UnlockedOk(s.mutexes[m], kind, p, s.procs[p].onCpu);
  }

  lemma UnlockCore(s: State, w: Placement, p: Pid, m: Mid, kind: Kind)
    requires InvW(s, w) && EnabledCo(s, p, Unlock(m, kind)) && Disciplined(s, p, Unlock(m, kind))
    ensures Core(ApplyCo(s, p, Unlock(m, kind)), w)
  {
    var s' := ApplyCo(s, p, Unlock(m, kind));
    var me := s.procs[p].onCpu;
    Executing(s, w, p);
    assert MuOk(s, m);
    UnlockShape(s, p, m, kind);
    ThreadProc(s, s', p, me);
    UnlockMine(s, w, p, m, kind);
    Local(s, s', w, w, p, me);
  }

  lemma UnlockStep(s: State, w: Placement, p: Pid, m: Mid, kind: Kind)
    requires InvW(s, w) && EnabledCo(s, p, Unlock(m, kind)) && Disciplined(s, p, Unlock(m, kind))
    ensures InvW(ApplyCo(s, p, Unlock(m, kind)), w)
  {
    UnlockCore(s, w, p, m, kind);
    UnlockShape(s, p, m, kind);
    SameTokens(s, ApplyCo(s, p, Unlock(m, kind)), w);
  }

  lemma WakeDoneStep(s: State, w: Placement, p: Pid)
    requires InvW(s, w) && EnabledCo(s, p, WakeDone)
    ensures InvW(ApplyCo(s, p, WakeDone), w)
  {
    var s' := ApplyCo(s, p, WakeDone);
    var me := s.procs[p].onCpu;
    Executing(s, w, p);
    assert MuOk(s, MyPc(s, p).m);
    ThreadProc(s, s', p, me);
    Local(s, s', w, w, p, me);
    SameTokens(s, s', w);
  }

  /** The head of a wait queue is a live coroutine that is, or is about to be, suspended for that mutex. */
  lemma WaitingHead(s: State, w: Placement, m: Mid)
    requires InvW(s, w) && m < |s.mutexes| && s.mutexes[m].waiting != []
    ensures var a := s.mutexes[m].waiting[0];
      a in s.cos && w[a] == WaitQ(m) && s.cos[a].owner < |s.procs| && Fits(a, s.cos[a], WaitQ(m))
  {
    PlaceOf(s, w, WaitQ(m), s.mutexes[m].waiting[0]);
  }

  /** What a turn of freeLock's loop changes: two queues. */
  lemma WakeOneShape(s: State, p: Pid)
    requires EnabledCo(s, p, WakeOne)
    requires var a := s.mutexes[MyPc(s, p).m].waiting[0]; a in s.cos && s.cos[a].owner < |s.procs|
    ensures var s' := ApplyCo(s, p, WakeOne);
      var m := MyPc(s, p).m;
      var a := s.mutexes[m].waiting[0];
      var o := s.cos[a].owner;
      && s'.cos == s.cos && s'.hand == s.hand && s'.now == s.now
      && s'.mutexes == s.mutexes[m := s.mutexes[m].(waiting := s.mutexes[m].waiting[1..])]
      && s'.procs == s.procs[o := s.procs[o].(adding := s.procs[o].adding + [a])]
  {
  }

  lemma HandedPlaces(s: State, s': State, m: Mid, o: Pid, a: Addr)
    requires m < |s.mutexes| && o < |s.procs| && s.mutexes[m].waiting != [] && s'.hand == s.hand
    requires s'.mutexes == s.mutexes[m := s.mutexes[m].(waiting := s.mutexes[m].waiting[1..])]
    requires s'.procs == s.procs[o := s.procs[o].(adding := s.procs[o].adding + [a])]
    ensures At(s', WaitQ(m)) == At(s, WaitQ(m))[1..] && At(s', Adding(o)) == At(s, Adding(o)) + [a]
    ensures forall loc :: loc != WaitQ(m) && loc != Adding(o) ==> At(s', loc) == At(s, loc)
  {
  }

  lemma WakeOnePlaces(s: State, p: Pid)
    requires EnabledCo(s, p, WakeOne)
    requires var a := s.mutexes[MyPc(s, p).m].waiting[0]; a in s.cos && s.cos[a].owner < |s.procs|
    ensures var s' := ApplyCo(s, p, WakeOne);
      var m := MyPc(s, p).m;
      var a := s.mutexes[m].waiting[0];
      var o := s.cos[a].owner;
      && At(s', WaitQ(m)) == At(s, WaitQ(m))[1..] && At(s', Adding(o)) == At(s, Adding(o)) + [a]
      && forall loc :: loc != WaitQ(m) && loc != Adding(o) ==> At(s', loc) == At(s, loc)
  {
    var m := MyPc(s, p).m;
    var a := s.mutexes[m].waiting[0];
    WakeOneShape(s, p);
    HandedPlaces(s, ApplyCo(s, p, WakeOne), m, s.cos[a].owner, a);
  }

  lemma WakeOneTokens(s: State, w: Placement, p: Pid)
    requires TokenInv(s, w) && EnabledCo(s, p, WakeOne)
    requires var a := s.mutexes[MyPc(s, p).m].waiting[0];
      a in s.cos && w[a] == WaitQ(MyPc(s, p).m) && s.cos[a].owner < |s.procs|
    ensures var a := s.mutexes[MyPc(s, p).m].waiting[0];
      TokenInv(ApplyCo(s, p, WakeOne), w[a := Adding(s.cos[a].owner)])
  {
    var m := MyPc(s, p).m;
    var a := s.mutexes[m].waiting[0];
    var o := s.cos[a].owner;
    NoDupAt(s, w, WaitQ(m));
    PopLoses(At(s, WaitQ(m)));
    Elsewhere(s, w, Adding(o), a);
    NoDupAt(s, w, Adding(o));
    PushGains(At(s, Adding(o)), a);
    WakeOnePlaces(s, p);
    MoveToken(Lists(s), Lists(ApplyCo(s, p, WakeOne)), s.cos.Keys, w, a, Adding(o));
  }

  lemma WakeOneStep(s: State, w: Placement, p: Pid)
    requires InvW(s, w) && EnabledCo(s, p, WakeOne)
    ensures var a := s.mutexes[MyPc(s, p).m].waiting[0];
      a in s.cos && InvW(ApplyCo(s, p, WakeOne), w[a := Adding(s.cos[a].owner)])
  {
    WaitingHead(s, w, MyPc(s, p).m);
    WakeOneTokens(s, w, p);
    WakeOneCore(s, w, p);
  }

  lemma WakeOneCore(s: State, w: Placement, p: Pid)
    requires Core(s, w) && EnabledCo(s, p, WakeOne)
    requires var a := s.mutexes[MyPc(s, p).m].waiting[0];
      a in s.cos && s.cos[a].owner < |s.procs| && Fits(a, s.cos[a], WaitQ(MyPc(s, p).m))
    ensures var a := s.mutexes[MyPc(s, p).m].waiting[0];
      Core(ApplyCo(s, p, WakeOne), w[a := Adding(s.cos[a].owner)])
  {
    var m := MyPc(s, p).m;
    var a := s.mutexes[m].waiting[0];
    WakeOneShape(s, p);
    Woken(s, ApplyCo(s, p, WakeOne), w, w[a := Adding(s.cos[a].owner)], m);
  }

  /** Only queues changed: a wait queue got shorter, and new-task queues longer. */
  lemma Woken(s: State, s': State, w: Placement, w': Placement, m: Mid)
    requires Core(s, w) && s'.cos == s.cos && s'.now == s.now && |s'.procs| == |s.procs| && m < |s.mutexes|
    requires forall q :: 0 <= q < |s.procs| ==> s'.procs[q] == s.procs[q].(adding := s'.procs[q].adding)
    requires |s'.mutexes| == |s.mutexes|
    requires s'.mutexes == s.mutexes[m := s.mutexes[m].(waiting := s'.mutexes[m].waiting)]
    requires s.mutexes[m].waiting != []
    requires w'.Keys == w.Keys && forall a :: a in w && w'[a] != w[a] ==> Fits(a, s.cos[a], w'[a])
    ensures Core(s', w')
  {
    forall a | a in s'.cos ensures CoOk(s', w', a) { assert CoOk(s, w, a); }
    forall q | 0 <= q < |s'.procs| ensures ProcOk(s', q) { assert ProcOk(s, q); SameProc(s, s', q); }
    forall n | 0 <= n < |s'.mutexes| ensures MuOk(s', n) { assert MuOk(s, n); }
  }

  // ---- sleeping, waiting for events, finishing ----

  /** The executing coroutine records itself in a list of its own processor. */
  lemma RecordToken(s: State, s': State, w: Placement, me: Addr, to: Loc)
    requires TokenInv(s, w) && me in w && w[me] == Nowhere && to != Nowhere && s'.cos.Keys == s.cos.Keys
    requires forall loc :: loc != to ==> At(s', loc) == At(s, loc)
    requires Gains(At(s, to), At(s', to), me)
    ensures TokenInv(s', w[me := to])
  {
    MoveToken(Lists(s), Lists(s'), s.cos.Keys, w, me, to);
  }

  lemma SleepPlaces(s: State, p: Pid, ms: int)
    requires EnabledCo(s, p, Sleep(ms)) && s.procs[p].cur == s.procs[p].onCpu
    ensures var s' := ApplyCo(s, p, Sleep(ms));
      var e := Entry(s.now + ms, s.procs[p].onCpu);
      && s'.cos.Keys == s.cos.Keys && At(s', Heap(p)) == Cos(Insert(s.procs[p].heap, e))
      && forall loc :: loc != Heap(p) ==> At(s', loc) == At(s, loc)
  {
  }

  lemma SleepTokens(s: State, w: Placement, p: Pid, ms: int)
    requires TokenInv(s, w) && EnabledCo(s, p, Sleep(ms)) && s.procs[p].cur == s.procs[p].onCpu
    requires s.procs[p].onCpu in w && w[s.procs[p].onCpu] == Nowhere
    ensures TokenInv(ApplyCo(s, p, Sleep(ms)), w[s.procs[p].onCpu := Heap(p)])
  {
    var me := s.procs[p].onCpu;
    var h := s.procs[p].heap;
    var e := Entry(s.now + ms, me);
    Elsewhere(s, w, Heap(p), me);
    NoDupAt(s, w, Heap(p));
    CosOfInsert(h, e);
    InsertGains(Cos(h), Rank(h, e), me);
    SleepPlaces(s, p, ms);
    RecordToken(s, ApplyCo(s, p, Sleep(ms)), w, me, Heap(p));
  }

  lemma SleepTimes(s: State, s': State, p: Pid, e: Entry)
    requires p < |s.procs| == |s'.procs| && OnlyCo(s, s', e.co) && ProcTime(s, p) && s'.now == s.now
    requires s'.procs[p].heap == Insert(s.procs[p].heap, e)
    requires s'.procs[p].expired == s.procs[p].expired && s'.procs[p].ei == s.procs[p].ei
    requires s.cos[e.co].pc == User && Sleeps(s', p, e)
    ensures ProcTime(s', p)
  {
  }

  lemma SleepShape(s: State, p: Pid, ms: int)
    requires EnabledCo(s, p, Sleep(ms)) && s.procs[p].cur == s.procs[p].onCpu
    ensures var s', me := ApplyCo(s, p, Sleep(ms)), s.procs[p].onCpu;
      var e := Entry(s.now + ms, me);
      && s'.mutexes == s.mutexes && s'.now == s.now && s'.hand == s.hand
      && s'.procs == s.procs[p := s.procs[p].(heap := Insert(s.procs[p].heap, e))]
      && s'.cos == s.cos[me := Coroutine(s.cos[me].owner, CO_WAITING, Switching(Sleeping(e.due)))]
  {
    assert s.cos[s.procs[p].onCpu := s.cos[s.procs[p].onCpu]] == s.cos;
  }

  lemma SleepMine(s: State, w: Placement, p: Pid, ms: int)
    requires Core(s, w) && EnabledCo(s, p, Sleep(ms))
    ensures var s', me := ApplyCo(s, p, Sleep(ms)), s.procs[p].onCpu; me in s'.cos && CoOk(s', w[me := Heap(p)], me)
  {
    Executing(s, w, p);
    SleepShape(s, p, ms);
  }

  lemma SleepCore(s: State, w: Placement, p: Pid, ms: int)
    requires InvW(s, w) && EnabledCo(s, p, Sleep(ms))
    ensures Core(ApplyCo(s, p, Sleep(ms)), w[s.procs[p].onCpu := Heap(p)])
  {
    var s' := ApplyCo(s, p, Sleep(ms));
    var me := s.procs[p].onCpu;
    Executing(s, w, p);
    SleepShape(s, p, ms);
    SleepMine(s, w, p, ms);
    SleepTimes(s, s', p, Entry(s.now + ms, me));
    ActKept(s, s', p, me);
    Local(s, s', w, w[me := Heap(p)], p, me);
  }

  lemma SleepStep(s: State, w: Placement, p: Pid, ms: int)
    requires InvW(s, w) && EnabledCo(s, p, Sleep(ms))
    ensures InvW(ApplyCo(s, p, Sleep(ms)), w[s.procs[p].onCpu := Heap(p)])
  {
    Executing(s, w, p);
    SleepCore(s, w, p, ms);
    SleepTokens(s, w, p, ms);
  }

  lemma WaitEventPlaces(s: State, p: Pid, fd: Fd)
    requires EnabledCo(s, p, WaitEvent(fd)) && fd !in s.procs[p].interest
    ensures var s' := ApplyCo(s, p, WaitEvent(fd));
      && At(s, Event(p, fd)) == [] && At(s', Event(p, fd)) == [s.procs[p].cur]
      && forall loc :: loc != Event(p, fd) ==> At(s', loc) == At(s, loc)
  {
  }

  lemma WaitEventTokens(s: State, w: Placement, p: Pid, fd: Fd)
    requires TokenInv(s, w) && EnabledCo(s, p, WaitEvent(fd)) && s.procs[p].cur == s.procs[p].onCpu
    requires fd !in s.procs[p].interest
    requires s.procs[p].onCpu in w && w[s.procs[p].onCpu] == Nowhere
    ensures TokenInv(ApplyCo(s, p, WaitEvent(fd)), w[s.procs[p].onCpu := Event(p, fd)])
  {
    WaitEventPlaces(s, p, fd);
    RecordToken(s, ApplyCo(s, p, WaitEvent(fd)), w, s.procs[p].onCpu, Event(p, fd));
  }

  lemma WaitEventStep(s: State, w: Placement, p: Pid, fd: Fd)
    requires InvW(s, w) && EnabledCo(s, p, WaitEvent(fd)) && Disciplined(s, p, WaitEvent(fd))
    ensures InvW(ApplyCo(s, p, WaitEvent(fd)), w[s.procs[p].onCpu := Event(p, fd)])
  {
    var s' := ApplyCo(s, p, WaitEvent(fd));
    var me := s.procs[p].onCpu;
    Executing(s, w, p);
    ThreadProc(s, s', p, me);
    Local(s, s', w, w[me := Event(p, fd)], p, me);
    WaitEventTokens(s, w, p, fd);
  }

  lemma RemoveEvPlaces(s: State, p: Pid)
    requires EnabledCo(s, p, RemoveEv)
    ensures var fd := MyPc(s, p).fd;
      At(ApplyCo(s, p, RemoveEv), Event(p, fd)) == [] && |At(s, Event(p, fd))| <= 1
      && forall loc :: loc != Event(p, fd) ==> At(ApplyCo(s, p, RemoveEv), loc) == At(s, loc)
  {
  }

  lemma RemoveEvTokens(s: State, w: Placement, p: Pid)
    requires TokenInv(s, w) && EnabledCo(s, p, RemoveEv)
    requires s.procs[p].onCpu in w && w[s.procs[p].onCpu] == Event(p, MyPc(s, p).fd)
    ensures TokenInv(ApplyCo(s, p, RemoveEv), w[s.procs[p].onCpu := Nowhere])
  {
    var me := s.procs[p].onCpu;
    InPlace(s, w, me);
    RemoveEvPlaces(s, p);
    ConsumeToken(s, ApplyCo(s, p, RemoveEv), w, me, Event(p, MyPc(s, p).fd));
  }

  lemma RemoveEvStep(s: State, w: Placement, p: Pid)
    requires InvW(s, w) && EnabledCo(s, p, RemoveEv)
    ensures InvW(ApplyCo(s, p, RemoveEv), w[s.procs[p].onCpu := Nowhere])
  {
    var s' := ApplyCo(s, p, RemoveEv);
    var me := s.procs[p].onCpu;
    Executing(s, w, p);
    ThreadProc(s, s', p, me);
    Local(s, s', w, w[me := Nowhere], p, me);
    RemoveEvTokens(s, w, p);
  }

  lemma KillPlaces(s: State, p: Pid)
    requires EnabledCo(s, p, Kill) && s.procs[p].ri == 0
    ensures var s' := ApplyCo(s, p, Kill);
      && At(s', Removed(p)) == At(s, Removed(p)) + [s.procs[p].cur]
      && forall loc :: loc != Removed(p) ==> At(s', loc) == At(s, loc)
  {
  }

  lemma KillTokens(s: State, w: Placement, p: Pid)
    requires TokenInv(s, w) && EnabledCo(s, p, Kill) && s.procs[p].cur == s.procs[p].onCpu
    requires s.procs[p].ri == 0 && s.procs[p].onCpu in w && w[s.procs[p].onCpu] == Nowhere
    ensures TokenInv(ApplyCo(s, p, Kill), w[s.procs[p].onCpu := Removed(p)])
  {
    var me := s.procs[p].onCpu;
    Elsewhere(s, w, Removed(p), me);
    NoDupAt(s, w, Removed(p));
    PushGains(At(s, Removed(p)), me);
    KillPlaces(s, p);
    RecordToken(s, ApplyCo(s, p, Kill), w, me, Removed(p));
  }

  lemma KillStep(s: State, w: Placement, p: Pid)
    requires InvW(s, w) && EnabledCo(s, p, Kill)
    ensures InvW(ApplyCo(s, p, Kill), w[s.procs[p].onCpu := Removed(p)])
  {
    var s' := ApplyCo(s, p, Kill);
    var me := s.procs[p].onCpu;
    Executing(s, w, p);
    ThreadProc(s, s', p, me);
    Local(s, s', w, w[me := Removed(p)], p, me);
    KillTokens(s, w, p);
  }

  // ---- creation and time ----

  /** One coroutine enters the system and one list. */
  lemma NewToken(f: Loc -> seq<Addr>, g: Loc -> seq<Addr>, cos: set<Addr>, w: Placement, a: Addr, to: Loc)
    requires Placed(f, cos, w) && a !in w && to != Nowhere
    requires forall loc :: loc != to ==> g(loc) == f(loc)
    requires Gains(f(to), g(to), a)
    ensures Placed(g, cos + {a}, w[a := to])
  {
  }

  lemma NewCoCos(s: State, w: Placement, p: Pid, a: Addr, b: Addr)
    requires Core(s, w) && Enabled(s, NewCo(p, a)) && (b == a || b in s.cos)
    ensures CoOk(DoNewCo(s, p, a), w[a := Hand(a)], b)
  {
    assert ProcOk(s, p);
    if b != a { assert CoOk(s, w, b); }
  }

  lemma NewCoCore(s: State, w: Placement, p: Pid, a: Addr)
    requires Core(s, w) && Enabled(s, NewCo(p, a))
    ensures Core(DoNewCo(s, p, a), w[a := Hand(a)])
  {
    var s' := DoNewCo(s, p, a);
    forall b | b in s'.cos ensures CoOk(s', w[a := Hand(a)], b) { NewCoCos(s, w, p, a, b); }
    forall q | 0 <= q < |s'.procs| ensures ProcOk(s', q) { assert ProcOk(s, q); SameProc(s, s', q); }
    forall n | 0 <= n < |s'.mutexes| ensures MuOk(s', n) { assert MuOk(s, n); }
  }

  lemma NewCoStep(s: State, w: Placement, p: Pid, a: Addr)
    requires InvW(s, w) && Enabled(s, NewCo(p, a))
    ensures InvW(DoNewCo(s, p, a), w[a := Hand(a)])
  {
    NewCoTokens(s, w, p, a);
    NewCoCore(s, w, p, a);
  }

  lemma NewCoTokens(s: State, w: Placement, p: Pid, a: Addr)
    requires TokenInv(s, w) && a !in s.cos
    ensures TokenInv(DoNewCo(s, p, a), w[a := Hand(a)])
  {
    var s' := DoNewCo(s, p, a);
    Elsewhere(s, w, Hand(a), a);
    NewToken(Lists(s), Lists(s'), s.cos.Keys, w, a, Hand(a));
    assert s'.cos.Keys == s.cos.Keys + {a};
  }

  lemma GoNewPlaces(s: State, a: Addr)
    requires a in s.hand && a in s.cos && s.cos[a].owner < |s.procs|
    ensures var s' := DoGoNew(s, a);
      && At(s, Hand(a)) == [a] && At(s', Hand(a)) == []
      && At(s', Adding(s.cos[a].owner)) == At(s, Adding(s.cos[a].owner)) + [a]
      && forall loc :: loc != Hand(a) && loc != Adding(s.cos[a].owner) ==> At(s', loc) == At(s, loc)
  {
  }

  lemma GoNewTokens(s: State, w: Placement, a: Addr)
    requires TokenInv(s, w) && a in s.hand && a in s.cos && s.cos[a].owner < |s.procs| && w[a] == Hand(a)
    ensures TokenInv(DoGoNew(s, a), w[a := Adding(s.cos[a].owner)])
  {
    var o := s.cos[a].owner;
    Elsewhere(s, w, Adding(o), a);
    NoDupAt(s, w, Adding(o));
    PushGains(At(s, Adding(o)), a);
    GoNewPlaces(s, a);
    MoveToken(Lists(s), Lists(DoGoNew(s, a)), s.cos.Keys, w, a, Adding(o));
  }

  lemma GoNewCore(s: State, w: Placement, a: Addr)
    requires Core(s, w) && a in s.cos && CoOk(s, w, a) && w[a] == Hand(a)
    ensures Core(DoGoNew(s, a), w[a := Adding(s.cos[a].owner)])
  {
    var s' := DoGoNew(s, a);
    var w' := w[a := Adding(s.cos[a].owner)];
    forall b | b in s'.cos ensures CoOk(s', w', b) { assert CoOk(s, w, b); }
    forall q | 0 <= q < |s'.procs| ensures ProcOk(s', q) { assert ProcOk(s, q); SameProc(s, s', q); }
    forall n | 0 <= n < |s'.mutexes| ensures MuOk(s', n) { assert MuOk(s, n); }
  }

  lemma GoNewStep(s: State, w: Placement, a: Addr)
    requires InvW(s, w) && Enabled(s, GoNew(a))
    ensures a in s.cos && InvW(DoGoNew(s, a), w[a := Adding(s.cos[a].owner)])
  {
    assert a in At(s, Hand(a));
    PlaceOf(s, w, Hand(a), a);
    GoNewTokens(s, w, a);
    GoNewCore(s, w, a);
  }

  lemma TickStep(s: State, w: Placement, t: int)
    requires InvW(s, w) && s.now <= t
    ensures InvW(s.(now := t), w)
  {
    var s' := s.(now := t);
    SameTokens(s, s', w);
    forall b | b in s'.cos ensures CoOk(s', w, b) { assert CoOk(s, w, b); }
    forall q | 0 <= q < |s'.procs| ensures ProcOk(s', q) { assert ProcOk(s, q); SameProc(s, s', q); }
    forall n | 0 <= n < |s'.mutexes| ensures MuOk(s', n) { assert MuOk(s, n); }
  }
}
