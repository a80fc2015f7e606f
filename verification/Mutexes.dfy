/**
 * `RWMutex` (src/mutex.cc) as the object it is: the sections that its methods run under `lock_`.
 * Each does to the object what the step of module Scheduler does to its mutex (`Tried`, `Unlocked`);
 * Scheduler has the yield and the retry between them.
 */
module Mutexes {
  import opened Seqs
  import opened SleepQueue
  import opened Scheduler
  import opened SchedulerInv
  import TaskQueue

  /** The members of `s` that belong to processor `p`, in order. */
  function Mine(s: seq<Addr>, owner: map<Addr, Pid>, p: Pid): seq<Addr> {
    if s == [] then []
    else
      var n := |s| - 1;
      Mine(s[..n], owner, p) + if s[n] in owner && owner[s[n]] == p then [s[n]] else []
  }

  /** Splitting a queue by owner loses nothing and adds nothing. */
  lemma {:induction false} MineIsAll(s: seq<Addr>, owner: map<Addr, Pid>, a: Addr)
    requires a in owner
    ensures multiset(Mine(s, owner, owner[a]))[a] == multiset(s)[a]
    ensures forall p: Pid :: p != owner[a] ==> a !in Mine(s, owner, p)
  {
    if s != [] {
      var n := |s| - 1;
      MineIsAll(s[..n], owner, a);
      assert s == s[..n] + [s[n]];
    }
  }

  /** ... nor does it lose anybody's place, */
  lemma {:induction false} MineHas(s: seq<Addr>, owner: map<Addr, Pid>, i: nat)
    requires i < |s| && s[i] in owner
    ensures s[i] in Mine(s, owner, owner[s[i]])
  {
    if i < |s| - 1 { MineHas(s[..|s| - 1], owner, i); }
  }

  /** ... or changes the order of two that belong together. */
  lemma {:induction false} MineKeepsOrder(s: seq<Addr>, owner: map<Addr, Pid>, i: nat, j: nat, p: Pid)
    requires i < j < |s| && s[i] in owner && s[j] in owner && owner[s[i]] == owner[s[j]] == p
    ensures var mine := Mine(s, owner, p);
      exists x, y :: 0 <= x < y < |mine| && mine[x] == s[i] && mine[y] == s[j]
  {
    var front := s[..|s| - 1];
    var mine := Mine(front, owner, p);
    assert front[i] == s[i] && (j < |s| - 1 ==> front[j] == s[j]);
    assert mine <= Mine(s, owner, p);
    if j < |s| - 1 {
      MineKeepsOrder(front, owner, i, j, p);
      var x, y :| 0 <= x < y < |mine| && mine[x] == s[i] && mine[y] == s[j];
      assert Mine(s, owner, p)[x] == s[i] && Mine(s, owner, p)[y] == s[j];
    } else {
      MineHas(front, owner, i);
      var x :| 0 <= x < |mine| && mine[x] == s[i];
      assert Mine(s, owner, p)[x] == s[i] && Mine(s, owner, p)[|mine|] == s[j];
    }
  }

  /** Every waiter has a processor. */
  predicate Owned(s: seq<Addr>, owner: map<Addr, Pid>, n: nat) {
    forall i :: 0 <= i < |s| ==> s[i] in owner && owner[s[i]] < n
  }

  /** One waiter moves from the waiting to the woken. */
  lemma WakeMoves(woken: seq<Addr>, waiting: seq<Addr>, owner: map<Addr, Pid>, n: nat)
    requires waiting != [] && Owned(waiting, owner, n)
    ensures waiting[0] in owner && owner[waiting[0]] < n && Owned(waiting[1..], owner, n)
    ensures woken + [waiting[0]] + waiting[1..] == woken + waiting
    ensures forall p: Pid {:trigger Mine(woken + [waiting[0]], owner, p)} ::
      Mine(woken + [waiting[0]], owner, p)
        == Mine(woken, owner, p) + if p == owner[waiting[0]] then [waiting[0]] else []
  {
  }

  ghost predicate Distinct(queues: seq<TaskQueue.NewTaskQueues>) {
    forall i, j :: 0 <= i < j < |queues| ==> queues[i] != queues[j]
  }

  /** What freeLock, once entered, leaves of a mutex: nobody waits, and lock_ is free again. */
  function Released(u: RWMutex): RWMutex {
    if u.lock.Some? then u.(waiting := [], lock := None) else u
  }

  /** The last reader is the one that finds the counter at 1. */
  lemma LastReader(u: RWMutex, cur: Addr)
    requires MutexOk(u) && cur in u.readers
    ensures u.state == MU_READING && (u.readingNum == 1 <==> u.readers - multiset{cur} == multiset{})
    ensures |u.readers - multiset{cur}| == |u.readers| - 1
  {
    var rest := u.readers - multiset{cur};
    assert u.readers == rest + multiset{cur};
    if x :| x in rest { assert rest == (rest - multiset{x}) + multiset{x}; }
  }

  class Mutex {
    var state: MuStatus
    var readingNum: int
    var waitingCo: seq<Addr>
    ghost var readers: multiset<Addr>   // who returned from rlock and has not called runlock
    ghost var writer: Addr              // who returned from wlock and has not called wunlock; 0 is nobody

    ghost function Value(): RWMutex
      reads this
    {
      RWMutex(state, readingNum, waitingCo, None, readers, writer)
    }

    /** State word, counter and wait queue agree with what the clients hold. */
    ghost predicate Valid()
      reads this
    {
      MutexOk(Value())
    }

    constructor ()
      ensures Valid() && state == MU_FREE && waitingCo == [] && readers == multiset{} && writer == 0
    {
      state, readingNum, waitingCo, readers, writer := MU_FREE, 0, [], multiset{}, 0;
    }

    /** rlock up to its return or its yield; `cur` is the running coroutine. */
    method RLock(cur: Addr) returns (got: bool)
      requires Valid()
      modifies this
      ensures Valid() && (got <==> Admits(old(Value()), Reading)) && writer == old(writer)
      ensures Value() == Tried(old(Value()), Reading, cur, cur)
      ensures got ==> readers == old(readers) + multiset{cur} && waitingCo == old(waitingCo)
      ensures !got ==> waitingCo == old(waitingCo) + [cur] && Value() == old(Value()).(waiting := waitingCo)
    {
      if state == MU_FREE || state == MU_READING {
        readingNum := readingNum + 1;
        state := MU_READING;
        readers := readers + multiset{cur};
        return true;
      }
      waitingCo := waitingCo + [cur];
      return false;
    }

    /** wlock up to its return or its yield. */
    method WLock(cur: Addr) returns (got: bool)
      requires Valid() && cur != 0
      modifies this
      ensures Valid() && (got <==> Admits(old(Value()), Writing)) && readers == old(readers)
      ensures Value() == Tried(old(Value()), Writing, cur, cur)
      ensures got ==> writer == cur && old(writer) == 0 && readers == multiset{} && waitingCo == old(waitingCo)
      ensures !got ==> waitingCo == old(waitingCo) + [cur] && Value() == old(Value()).(waiting := waitingCo)
    {
      if state == MU_FREE {
        state := MU_WRITING;
        writer := cur;
        return true;
      }
      waitingCo := waitingCo + [cur];
      return false;
    }

    /** goCo on the waiter's own processor. */
    static method Wake(wakeCo: Addr, queues: seq<TaskQueue.NewTaskQueues>, o: Pid)
      requires Distinct(queues) && o < |queues|
      modifies queues[o]
      ensures forall p {:trigger queues[p]} :: 0 <= p < |queues| ==>
        && queues[p].Running() == old(queues[p].Running())
        && queues[p].Adding() == old(queues[p].Adding()) + if p == o then [wakeCo] else []
    {
      queues[o].GoCo(wakeCo);
    }

    /** freeLock: every waiter goes to the queue of its own processor, in the order in which they waited. */
    method FreeLock(queues: seq<TaskQueue.NewTaskQueues>, owner: map<Addr, Pid>)
      requires Distinct(queues) && Owned(waitingCo, owner, |queues|)
      modifies this`state, this`waitingCo, queues
      ensures state == MU_FREE && waitingCo == []
      ensures forall p {:trigger queues[p]} :: 0 <= p < |queues| ==>
        && queues[p].Running() == old(queues[p].Running())
        && queues[p].Adding() == old(queues[p].Adding()) + Mine(old(waitingCo), owner, p)
    {
      state := MU_FREE;
      ghost var woken := [];
      while waitingCo != []
        invariant state == MU_FREE && woken + waitingCo == old(waitingCo) && Owned(waitingCo, owner, |queues|)
        invariant forall p {:trigger queues[p]} :: 0 <= p < |queues| ==>
          && queues[p].Running() == old(queues[p].Running())
          && queues[p].Adding() == old(queues[p].Adding()) + Mine(woken, owner, p)
        decreases |waitingCo|
      {
        var wakeCo := waitingCo[0];
        WakeMoves(woken, waitingCo, owner, |queues|);
        waitingCo := waitingCo[1..];
        Wake(wakeCo, queues, owner[wakeCo]);
        woken := woken + [wakeCo];
      }
      assert woken == old(waitingCo);
    }

    /** runlock: the last reader frees the lock and wakes everyone. */
    method RUnlock(ghost me: Pid, cur: Addr, queues: seq<TaskQueue.NewTaskQueues>, owner: map<Addr, Pid>)
      requires Valid() && cur in readers
      requires Distinct(queues) && Owned(waitingCo, owner, |queues|)
      modifies this, queues
      ensures Valid() && readers == old(readers) - multiset{cur} && writer == old(writer)
      ensures Value() == Released(Unlocked(old(Value()), Reading, me, cur))
      ensures if readers == multiset{} then state == MU_FREE && waitingCo == [] else waitingCo == old(waitingCo)
      ensures forall p {:trigger queues[p]} :: 0 <= p < |queues| ==>
        && queues[p].Running() == old(queues[p].Running())
        && queues[p].Adding() == old(queues[p].Adding())
          + if readers == multiset{} then Mine(old(waitingCo), owner, p) else []
    {
      LastReader(Value(), cur);
      var before := readingNum;
      readingNum := readingNum - 1;
      readers := readers - multiset{cur};
      if before == 1 {
        FreeLock(queues, owner);
      }
    }

    /** wunlock: the writer frees the lock and wakes everyone. */
    method WUnlock(ghost me: Pid, queues: seq<TaskQueue.NewTaskQueues>, owner: map<Addr, Pid>)
      requires Valid() && writer != 0
      requires Distinct(queues) && Owned(waitingCo, owner, |queues|)
      modifies this, queues
      ensures Valid() && writer == 0 && readers == multiset{} && state == MU_FREE && waitingCo == []
      ensures Value() == Released(Unlocked(old(Value()), Writing, me, old(writer)))
      ensures forall p {:trigger queues[p]} :: 0 <= p < |queues| ==>
        && queues[p].Running() == old(queues[p].Running())
        && queues[p].Adding() == old(queues[p].Adding()) + Mine(old(waitingCo), owner, p)
    {
      writer := 0;
      FreeLock(queues, owner);
    }
  }
}
