/**
 * What a step leaves alone.  The invariant is a conjunction over coroutines, processors and mutexes,
 * and a step touches one coroutine, one processor and one mutex; the rest keeps its share.
 */
module SchedulerFrames {
  import opened Seqs
  import opened SleepQueue
  import opened Scheduler
  import opened SchedulerInv

  // ---- places ----

  /** One coroutine leaves one list and enters another. */
  lemma MoveToken(f: Loc -> seq<Addr>, g: Loc -> seq<Addr>, cos: set<Addr>, w: Placement, a: Addr, to: Loc)
    requires Placed(f, cos, w) && a in w && w[a] != to
    requires forall loc :: loc != w[a] && loc != to ==> g(loc) == f(loc)
    requires if w[a] == Nowhere then g(Nowhere) == [] else Loses(f(w[a]), g(w[a]), a)
    requires if to == Nowhere then g(Nowhere) == [] else Gains(f(to), g(to), a)
    ensures Placed(g, cos, w[a := to])
  {
  }

  /** One coroutine leaves its list and the system. */
  lemma DropToken(f: Loc -> seq<Addr>, g: Loc -> seq<Addr>, cos: set<Addr>, w: Placement, a: Addr)
    requires Placed(f, cos, w) && a in w && w[a] != Nowhere
    requires forall loc :: loc != w[a] ==> g(loc) == f(loc)
    requires Loses(f(w[a]), g(w[a]), a)
    ensures Placed(g, cos - {a}, w - {a})
  {
  }

  /** A token is consumed: its coroutine is recorded nowhere. */
  lemma ConsumeToken(s: State, s': State, w: Placement, a: Addr, from: Loc)
    requires TokenInv(s, w) && from != Nowhere && s'.cos.Keys == s.cos.Keys
    requires forall loc :: loc != from ==> At(s', loc) == At(s, loc)
    requires Loses(At(s, from), At(s', from), a)
    ensures TokenInv(s', w[a := Nowhere])
  {
    assert a in Lists(s)(from);
    MoveToken(Lists(s), Lists(s'), s.cos.Keys, w, a, Nowhere);
  }

  /** A token is consumed together with its coroutine. */
  lemma DeleteToken(s: State, s': State, w: Placement, a: Addr, from: Loc)
    requires TokenInv(s, w) && from != Nowhere && s'.cos.Keys == s.cos.Keys - {a}
    requires forall loc :: loc != from ==> At(s', loc) == At(s, loc)
    requires Loses(At(s, from), At(s', from), a)
    ensures TokenInv(s', w - {a})
  {
    assert a in Lists(s)(from);
    DropToken(Lists(s), Lists(s'), s.cos.Keys, w, a);
  }

  function Moved(w: Placement, which: seq<Addr>, to: Loc): Placement {
    map a | a in w :: if a in which then to else w[a]
  }

  /** The leading part `k` of one list becomes the whole of an empty one. */
  lemma MoveAll(
    f: Loc -> seq<Addr>, g: Loc -> seq<Addr>, cos: set<Addr>, w: Placement, from: Loc, to: Loc, k: seq<Addr>)
    requires Placed(f, cos, w) && from != to && from != Nowhere && to != Nowhere
    requires forall loc :: loc != from && loc != to ==> g(loc) == f(loc)
    requires f(to) == [] && g(to) == k && f(from) == k + g(from)
    ensures Placed(g, cos, Moved(w, k, to))
  {
    var w' := Moved(w, k, to);
    assert NoDup(f(from));
    forall i, j | 0 <= i < j < |k| ensures k[i] != k[j] { assert f(from)[i] == k[i] && f(from)[j] == k[j]; }
    forall i, j | 0 <= i < j < |g(from)| ensures g(from)[i] != g(from)[j] {
      assert f(from)[|k| + i] == g(from)[i] && f(from)[|k| + j] == g(from)[j];
    }
    forall b | b in g(from) ensures b in w && w[b] == from && b !in k {
      assert b in f(from);
      var j :| 0 <= j < |g(from)| && g(from)[j] == b;
      assert f(from)[|k| + j] == b;
      forall i | 0 <= i < |k| ensures k[i] != b { assert f(from)[i] == k[i]; }
    }
    forall b | b in k ensures b in w && w[b] == from { assert b in f(from); }
    forall loc, b | b in g(loc) ensures b in w' && w'[b] == loc {
      if loc != from && loc != to { assert b in f(loc); }
    }
    forall b | b in w' && w'[b] != Nowhere ensures b in g(w'[b]) {
      if b !in k { assert b in f(w[b]); }
    }
  }

  /** No list changed that records a coroutine. */
  ghost predicate SameRecords(s: State, s': State) {
    && s'.cos.Keys == s.cos.Keys && s'.hand == s.hand
    && |s'.procs| == |s.procs| && |s'.mutexes| == |s.mutexes|
    && (forall m :: 0 <= m < |s.mutexes| ==> s'.mutexes[m].waiting == s.mutexes[m].waiting)
    && (forall p :: 0 <= p < |s.procs| ==>
      var q, q' := s.procs[p], s'.procs[p];
      && q'.adding == q.adding && q'.running == q.running && q'.heap == q.heap && q'.interest == q.interest
      && ((q'.expired == q.expired && q'.ei == q.ei) || (q.ei == |q.expired| && q'.ei == |q'.expired|))
      && ((q'.removed == q.removed && q'.ri == q.ri) || (q.ri == |q.removed| && q'.ri == |q'.removed|)))
  }

  lemma SamePlace(s: State, s': State, loc: Loc)
    requires SameRecords(s, s')
    ensures At(s', loc) == At(s, loc)
  {
  }

  lemma SameTokens(s: State, s': State, w: Placement)
    requires TokenInv(s, w) && SameRecords(s, s')
    ensures TokenInv(s', w)
  {
    forall loc ensures At(s', loc) == At(s, loc) { SamePlace(s, s', loc); }
    SamePlaces(Lists(s), Lists(s'), s.cos.Keys, w);
  }

  lemma SamePlaces(f: Loc -> seq<Addr>, g: Loc -> seq<Addr>, cos: set<Addr>, w: Placement)
    requires Placed(f, cos, w) && forall loc :: g(loc) == f(loc)
    ensures Placed(g, cos, w)
  {
  }

  /** A list entry is a coroutine whose record fits that place. */
  lemma PlaceOf(s: State, w: Placement, loc: Loc, a: Addr)
    requires InvW(s, w) && a in At(s, loc)
    ensures a in s.cos && w[a] == loc && CoOk(s, w, a) && a != 0
  {
    assert a in Lists(s)(loc);
  }

  lemma InPlace(s: State, w: Placement, a: Addr)
    requires TokenInv(s, w) && a in w && w[a] != Nowhere
    ensures a in At(s, w[a])
  {
  }

  lemma Elsewhere(s: State, w: Placement, loc: Loc, a: Addr)
    requires TokenInv(s, w) && (a !in w || w[a] != loc)
    ensures a !in At(s, loc)
  {
    assert a in At(s, loc) <==> a in Lists(s)(loc);
  }

  lemma NoDupAt(s: State, w: Placement, loc: Loc)
    requires TokenInv(s, w)
    ensures NoDup(At(s, loc))
  {
    assert NoDup(Lists(s)(loc));
  }

  // ---- coroutines, processors, mutexes ----

  /** At most the coroutine `a` changed, and not its owner. */
  ghost predicate OnlyCo(s: State, s': State, a: Addr) {
    && s'.cos.Keys == s.cos.Keys && a in s.cos && s'.cos[a].owner == s.cos[a].owner
    && forall b :: b in s.cos && b != a ==> s'.cos[b] == s.cos[b]
  }

  ghost predicate OnlyProc(s: State, s': State, p: Pid) {
    && p < |s.procs| == |s'.procs|
    && forall q :: 0 <= q < |s.procs| && q != p ==> s'.procs[q] == s.procs[q]
  }

  /** Thread `p` took or released a mutex's lock_ at most for itself. */
  ghost predicate LocksOf(s: State, s': State, p: Pid) {
    && |s'.mutexes| == |s.mutexes|
    && forall m :: 0 <= m < |s.mutexes| && s'.mutexes[m].lock != s.mutexes[m].lock ==>
      s.mutexes[m].lock == None || s.mutexes[m].lock == Some(p)
  }

  /** What another processor owns is not `a`, whose owner is `p`. */
  lemma OtherProc(s: State, s': State, p: Pid, a: Addr, q: Pid)
    requires OnlyCo(s, s', a) && OnlyProc(s, s', p) && s.cos[a].owner == p && s.now <= s'.now
    requires q < |s.procs| && q != p && ProcOk(s, q)
    ensures ProcOk(s', q)
  {
  }

  lemma OtherCo(s: State, s': State, w: Placement, w': Placement, p: Pid, a: Addr, b: Addr)
    requires OnlyCo(s, s', a) && OnlyProc(s, s', p) && LocksOf(s, s', p)
    requires b in s.cos && b != a && b in w && b in w' && w'[b] == w[b] && CoOk(s, w, b)
    requires s.procs[p].onCpu in {0, a} && 0 !in s.cos
    requires b in s'.procs[p].coSet <==> b in s.procs[p].coSet
    ensures CoOk(s', w', b)
  {
  }

  /**
   * A step that changes the coroutine `a` and its processor `p`, while `p` is in the loop or executes
   * `a`, keeps the invariant if it keeps the shares of `a`, `p` and the mutexes it touches.
   */
  lemma Local(s: State, s': State, w: Placement, w': Placement, p: Pid, a: Addr)
    requires Core(s, w) && OnlyCo(s, s', a) && OnlyProc(s, s', p) && LocksOf(s, s', p)
    requires s.cos[a].owner == p && s.procs[p].onCpu in {0, a} && s.now <= s'.now
    requires w'.Keys == w.Keys && forall b :: b in w && b != a ==> w'[b] == w[b]
    requires forall b :: b != a ==> (b in s'.procs[p].coSet <==> b in s.procs[p].coSet)
    requires CoOk(s', w', a) && ProcOk(s', p)
    requires forall m {:trigger MuOk(s', m)} :: 0 <= m < |s.mutexes| ==>
      s'.mutexes[m] != s.mutexes[m] || s.cos[a].pc == Freeing(m) ==> MuOk(s', m)
    ensures Core(s', w')
  {
    forall b | b in s'.cos ensures CoOk(s', w', b) {
      if b != a { OtherCo(s, s', w, w', p, a, b) by { assert CoOk(s, w, b); } }
    }
    forall q | 0 <= q < |s'.procs| ensures ProcOk(s', q) {
      if q != p { OtherProc(s, s', p, a, q) by { assert ProcOk(s, q); } }
    }
    forall m | 0 <= m < |s'.mutexes| ensures MuOk(s', m) {
      if s'.mutexes[m] == s.mutexes[m] && s.cos[a].pc != Freeing(m) {
        OtherMutex(s, s', p, a, m) by { assert MuOk(s, m); }
      }
    }
  }

  lemma OtherMutex(s: State, s': State, p: Pid, a: Addr, m: Mid)
    requires OnlyCo(s, s', a) && OnlyProc(s, s', p) && s.procs[p].onCpu in {0, a}
    requires m < |s.mutexes| == |s'.mutexes| && s'.mutexes[m] == s.mutexes[m] && s.cos[a].pc != Freeing(m)
    requires MuOk(s, m)
    ensures MuOk(s', m)
  {
  }

  /** A step of the loop that moves no control; coroutines may change place, not state. */
  lemma LoopLocal(s: State, s': State, w: Placement, w': Placement, p: Pid)
    requires Core(s, w) && OnlyProc(s, s', p) && s'.cos == s.cos && s'.mutexes == s.mutexes && s'.now == s.now
    requires s'.procs[p].onCpu == s.procs[p].onCpu && s'.procs[p].coSet == s.procs[p].coSet
    requires w'.Keys == w.Keys
    requires forall a :: a in w && w'[a] != w[a] ==> Fits(a, s.cos[a], w'[a])
    requires ProcOk(s', p)
    ensures Core(s', w')
  {
    forall a | a in s'.cos ensures CoOk(s', w', a) { assert CoOk(s, w, a); }
    forall q | 0 <= q < |s'.procs| ensures ProcOk(s', q) {
      if q != p { SameProc(s, s', q) by { assert ProcOk(s, q); } }
    }
    forall m | 0 <= m < |s'.mutexes| ensures MuOk(s', m) { assert MuOk(s, m); }
  }

  /** Nothing that matters to `q` changed. */
  lemma SameProc(s: State, s': State, q: Pid)
    requires q < |s.procs| == |s'.procs| && ProcOk(s, q) && s.now <= s'.now
    requires forall b :: b in s.cos && s.cos[b].owner == q && s.cos[b].pc != Dead ==>
      b in s'.cos && s'.cos[b] == s.cos[b]
    requires forall b :: b in s'.procs[q].coSet ==> b in s.procs[q].coSet && b in s'.cos && s'.cos[b] == s.cos[b]
    requires var r, r' := s.procs[q], s'.procs[q];
      r' == r.(adding := r'.adding, running := r'.running, interest := r'.interest, removed := r'.removed,
        ri := r'.ri, coSet := r'.coSet)
    requires ProcStage(s'.procs[q])
    ensures ProcOk(s', q)
  {
  }

  // ---- the lists of one processor when its coroutine `a` changes ----

  /** `a` is not among the active entries that remain. */
  lemma ActKept(s: State, s': State, p: Pid, a: Addr)
    requires OnlyCo(s, s', a) && p < |s.procs| == |s'.procs| && ProcAct(s, p)
    requires s'.procs[p].act == s.procs[p].act && s.procs[p].ai <= s'.procs[p].ai
    requires s.procs[p].ai < |s.procs[p].act| || s'.procs[p].ai == s.procs[p].ai
    requires !AwaitsEvent(s, p, a)
      || (s.procs[p].ai < s'.procs[p].ai && s.procs[p].act[s.procs[p].ai] == a && a != 0)
    ensures ProcAct(s', p)
  {
  }

  /** `a` is not among the expired entries that remain, and in the heap only with its own deadline. */
  lemma TimeKept(s: State, s': State, p: Pid, a: Addr)
    requires OnlyCo(s, s', a) && p < |s.procs| == |s'.procs| && ProcTime(s, p) && s.now <= s'.now
    requires s'.procs[p].heap == s.procs[p].heap && s'.procs[p].expired == s.procs[p].expired
    requires s.procs[p].ei <= s'.procs[p].ei
    requires a !in Cos(s.procs[p].heap) || forall due :: DueOf(s.cos[a].pc, due) ==> DueOf(s'.cos[a].pc, due)
    requires forall i :: s'.procs[p].ei <= i < |s.procs[p].expired| ==> s.procs[p].expired[i] != a
    ensures ProcTime(s', p)
  {
  }

  /** The executing coroutine moves its control; it keeps the thread or gives it back to the loop. */
  lemma ThreadProc(s: State, s': State, p: Pid, me: Addr)
    requires InCo(s, p) && me == s.procs[p].onCpu && ProcOk(s, p)
    requires OnlyCo(s, s', me) && OnlyProc(s, s', p) && s'.now == s.now
    requires var q, q' := s.procs[p], s'.procs[p];
      q' == q.(onCpu := q'.onCpu, interest := q'.interest, removed := q'.removed)
    requires s'.procs[p].onCpu == 0 || (s'.procs[p].onCpu == me && OnCpuPc(s'.cos[me].pc))
    requires !s'.cos[me].pc.Fresh?
    requires forall due :: DueOf(s.cos[me].pc, due) ==> DueOf(s'.cos[me].pc, due)
    ensures ProcOk(s', p)
  {
  }

  // ---- Processor::resume delivers ----

  lemma ResumeDelivers(s: State, p: Pid, a: Addr)
    requires p < |s.procs| && a != 0 && a in s.procs[p].coSet
    requires a in s.cos && s.cos[a].status in {CO_READY, CO_WAITING}
    ensures Resume(s, p, a) == WithProc(s, p, s.procs[p].(cur := a, onCpu := a)).(
      cos := s.cos[a := s.cos[a].(status := CO_RUNNING, pc := Continue(s.cos[a].pc))])
  {
  }

  /** The loop of `p` hands the thread to its suspended or fresh coroutine `a`. */
  lemma HandOver(s: State, s': State, w: Placement, w': Placement, p: Pid, a: Addr)
    requires Core(s, w) && OnlyCo(s, s', a) && OnlyProc(s, s', p) && s'.now == s.now && s'.mutexes == s.mutexes
    requires s.procs[p].onCpu == 0 && s.cos[a].owner == p && CoOk(s, w, a)
    requires s.cos[a].pc.Fresh? || s.cos[a].pc.Suspended?
    requires s'.cos[a] == s.cos[a].(status := CO_RUNNING, pc := Continue(s.cos[a].pc))
    requires var q, q' := s.procs[p], s'.procs[p];
      && q' == q.(running := q'.running, coSet := q.coSet + {a}, ei := q'.ei, ai := q'.ai, cur := a, onCpu := a)
      && ProcStage(q') && q'.stage in {RunExpired, Drain, RunActive}
    requires w'.Keys == w.Keys && forall b :: b in w && b != a ==> w'[b] == w[b]
    requires w'[a] == if s'.cos[a].pc.Removing? then w[a] else Nowhere
    requires ProcAct(s', p) && ProcTime(s', p) && ProcOk(s, p)
    ensures Core(s', w')
  {
    Local(s, s', w, w', p, a);
  }
}
