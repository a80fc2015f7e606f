/**
 * The parts of `Processor` and `Coroutine` (src/processor.cc, src/coroutine.cc) that work on one
 * processor's own objects: the status of a coroutine, and its life from goNewCo to the clean-up,
 * over the object pool.  Module Scheduler interleaves these with everything else.
 */
module Processors {
  import opened Seqs
  import opened SleepQueue
  import opened MemPools
  import opened ObjPools
  import Scheduler
  import TaskQueue

  type Status = Scheduler.Status

  class Coroutine {
    var status: Status

    constructor ()
      ensures status == Scheduler.CO_READY
    {
      status := Scheduler.CO_READY;
    }

    /** Coroutine::resume; `switched` tells whether the context was switched. */
    method Resume() returns (switched: bool)
      modifies this
      ensures switched <==> old(status) == Scheduler.CO_READY || old(status) == Scheduler.CO_WAITING
      ensures status == if switched then Scheduler.CO_RUNNING else old(status)
    {
      match status
      case CO_READY => status := Scheduler.CO_RUNNING; return true;
      case CO_WAITING => status := Scheduler.CO_RUNNING; return true;
      case _ => return false;
    }

    method Yield()
      modifies this
      ensures status == Scheduler.CO_WAITING
    {
      status := Scheduler.CO_WAITING;
    }
  }

  /** At different addresses are different objects. */
  predicate Separate(objects: map<Addr, Coroutine>) {
    forall a, b :: a in objects && b in objects && a != b ==> objects[a] != objects[b]
  }

  /** What the clean-up leaves in the pool's history: each address once, in order. */
  function AllGone(traits: Traits, dead: seq<Addr>): seq<Event> {
    if dead == [] then [] else AllGone(traits, dead[..|dead| - 1]) + Gone(traits, dead[|dead| - 1])
  }

  lemma AllGonePush(traits: Traits, dead: seq<Addr>, a: Addr)
    ensures AllGone(traits, dead + [a]) == AllGone(traits, dead) + Gone(traits, a)
  {
  }

  /** The retired coroutines are distinct objects of the pool. */
  ghost predicate Retired(dead: seq<Addr>, live: set<nat>) {
    NoDup(dead) && forall i :: 0 <= i < |dead| ==> dead[i] != 0 && dead[i] in live
  }

  /** What the clean-up acts on. */
  datatype Books = Books(coSet: set<Addr>, live: set<nat>, events: seq<Event>)

  ghost function Without(b: Books, traits: Traits, dead: seq<Addr>): Books {
    Books(b.coSet - Elems(dead), b.live - Elems(dead), b.events + AllGone(traits, dead))
  }

  lemma OneMoreGone(b: Books, traits: Traits, dead: seq<Addr>, i: nat)
    requires i < |dead| && Retired(dead, b.live)
    ensures dead[i] != 0 && dead[i] in Without(b, traits, dead[..i]).live
    ensures var c := Without(b, traits, dead[..i]);
      Without(b, traits, dead[..i + 1])
        == Books(c.coSet - {dead[i]}, c.live - {dead[i]}, c.events + Gone(traits, dead[i]))
  {
    assert dead[..i + 1] == dead[..i] + [dead[i]];
    AllGonePush(traits, dead[..i], dead[i]);
    ElemsOfPush(dead[..i], dead[i]);
  }

  lemma AllOfIt(dead: seq<Addr>, i: nat)
    requires i == |dead|
    ensures dead[..i] == dead
  {
  }

  class Processor {
    const coPool: ObjPool
    const newQueue: TaskQueue.NewTaskQueues
    var coSet: set<Addr>
    var removedCo: seq<Addr>
    var pCurCoroutine: Addr

    ghost predicate Valid()
      reads this, coPool, coPool.memPool
    {
      coPool.Valid() && Retired(removedCo, coPool.memPool.live)
    }

    constructor (sizeOfCoroutine: nat)
      ensures Valid() && coSet == {} && removedCo == [] && pCurCoroutine == 0
      ensures coPool.memPool.live == {} && newQueue.Running() == [] && newQueue.Adding() == []
    {
      coPool := new ObjPool(sizeOfCoroutine, Traits(false, false));
      newQueue := new TaskQueue.NewTaskQueues();
      coSet, removedCo, pCurCoroutine := {}, [], 0;
    }

    /** goNewCo: a coroutine at an address that is not in use is constructed and pushed; `p` is malloc's result. */
    method GoNewCo(p: nat) returns (pCo: Addr)
      requires Valid()
      requires coPool.memPool.freeListHead == 0 ==> coPool.memPool.MallocResult(p, coPool.memPool.NextMalloc())
      modifies coPool, coPool.memPool, newQueue
      ensures Valid() && pCo != 0 && pCo !in old(coPool.memPool.live) && pCo !in removedCo
      ensures coPool.memPool.live == old(coPool.memPool.live) + {pCo}
      ensures coPool.events == old(coPool.events) + Born(coPool.traits, pCo)
      ensures newQueue.Adding() == old(newQueue.Adding()) + [pCo] && newQueue.Running() == old(newQueue.Running())
    {
      pCo := coPool.NewObj(p);
      newQueue.GoCo(pCo);
    }

    /** What module Scheduler has of this: one processor, whose thread is on the stack `onCpu`. */
    ghost function AsState(objects: map<Addr, Coroutine>, onCpu: Addr): Scheduler.State
      reads this, objects.Values
    {
      Scheduler.State(0,
        [Scheduler.Processor(Scheduler.Drain, onCpu, pCurCoroutine, [], [], [], [], 0, map[], [], 0, coSet, [], 0)],
        [], map a | a in objects :: Scheduler.Coroutine(0, objects[a].status, Scheduler.User), {})
    }

    /** Processor::resume: a null or unknown pointer is ignored.  It is what the scheduler's loop does. */
    method Resume(pCo: Addr, objects: map<Addr, Coroutine>) returns (switched: bool)
      requires coSet <= objects.Keys
      requires Separate(objects)
      modifies this`pCurCoroutine, if pCo in objects then {objects[pCo]} else {}
      ensures switched <==> (pCo != 0 && pCo in coSet
        && (old(objects[pCo].status) == Scheduler.CO_READY || old(objects[pCo].status) == Scheduler.CO_WAITING))
      ensures AsState(objects, if switched then pCo else 0)
        == Scheduler.Resume(old(AsState(objects, 0)), 0, pCo)
      ensures switched ==> pCurCoroutine == pCo && objects[pCo].status == Scheduler.CO_RUNNING
      ensures !switched && pCo in objects ==> objects[pCo].status == old(objects[pCo].status)
      ensures pCurCoroutine == if pCo != 0 && pCo in coSet then pCo else old(pCurCoroutine)
    {
      if pCo == 0 || pCo !in coSet {
        return false;
      }
      pCurCoroutine := pCo;
      switched := objects[pCo].Resume();
    }

    /** One turn of the drain: the first of the running queue becomes known, and has the thread if it is new. */
    method ResumeFirst(objects: map<Addr, Coroutine>) returns (pNewCo: Addr, switched: bool)
      requires newQueue.Running() != [] && coSet + {newQueue.Running()[0]} <= objects.Keys
      requires Separate(objects)
      modifies this`pCurCoroutine, this`coSet, newQueue, objects[newQueue.Running()[0]]
      ensures [pNewCo] + newQueue.Running() == old(newQueue.Running()) && newQueue.Adding() == old(newQueue.Adding())
      ensures coSet == old(coSet) + {pNewCo}
      ensures pNewCo != 0 && old(objects[pNewCo].status) == Scheduler.CO_READY ==>
        switched && pCurCoroutine == pNewCo && objects[pNewCo].status == Scheduler.CO_RUNNING
    {
      pNewCo := newQueue.Take(newQueue.runningNewQue);
      coSet := coSet + {pNewCo};
      switched := Resume(pNewCo, objects);
    }

    /** Processor::yield up to the switch: the current coroutine waits, and nothing else about it changes. */
    method Yield(objects: map<Addr, Coroutine>)
      requires pCurCoroutine in objects
      modifies objects[pCurCoroutine]
      ensures objects[pCurCoroutine].status == Scheduler.CO_WAITING
    {
      objects[pCurCoroutine].Yield();
    }

    /**
     * Whoever yields is switched back to by the next resume of its pointer, on the same processor and as
     * the same current coroutine.
     */
    method YieldThenResume(objects: map<Addr, Coroutine>) returns (switched: bool)
      requires coSet <= objects.Keys && pCurCoroutine in coSet && pCurCoroutine != 0
      requires Separate(objects)
      requires objects[pCurCoroutine].status == Scheduler.CO_RUNNING
      modifies this`pCurCoroutine, objects[pCurCoroutine]
      ensures switched && pCurCoroutine == old(pCurCoroutine)
      ensures objects[pCurCoroutine].status == old(objects[pCurCoroutine].status)
    {
      Yield(objects);
      switched := Resume(pCurCoroutine, objects);
    }

    /** killCurCo: the running coroutine, which is an object of the pool and not yet retired, retires. */
    method KillCurCo()
      requires Valid() && pCurCoroutine != 0 && pCurCoroutine in coPool.memPool.live && pCurCoroutine !in removedCo
      modifies this`removedCo
      ensures Valid() && removedCo == old(removedCo) + [pCurCoroutine]
    {
      removedCo := removedCo + [pCurCoroutine];
    }

    ghost function Ledger(): Books
      reads this, coPool, coPool.memPool
    {
      Books(coSet, coPool.memPool.live, coPool.events)
    }

    method Forget(deadCo: Addr)
      requires coPool.Valid() && deadCo != 0 && deadCo in coPool.memPool.live
      modifies this`coSet, coPool, coPool.memPool
      ensures coPool.Valid()
      ensures var b := old(Ledger());
        Ledger() == Books(b.coSet - {deadCo}, b.live - {deadCo}, b.events + Gone(coPool.traits, deadCo))
    {
      coSet := coSet - {deadCo};
      coPool.DeleteObj(deadCo);
    }

    /** The loop of the clean-up. */
    method ForgetAll()
      requires Valid()
      modifies this`coSet, coPool, coPool.memPool
      ensures coPool.Valid() && Ledger() == Without(old(Ledger()), coPool.traits, removedCo)
    {
      var i := 0;
      while i < |removedCo|
        invariant 0 <= i <= |removedCo| && coPool.Valid()
        invariant Ledger() == Without(old(Ledger()), coPool.traits, removedCo[..i])
      {
        OneMoreGone(old(Ledger()), coPool.traits, removedCo, i);
        Forget(removedCo[i]);
        i := i + 1;
      }
      AllOfIt(removedCo, i);
    }

    /** The clean-up of one loop iteration: each retired coroutine is forgotten, destroyed and freed, once. */
    method CleanUp()
      requires Valid()
      modifies this`coSet, this`removedCo, coPool, coPool.memPool
      ensures Valid() && removedCo == [] && Ledger() == Without(old(Ledger()), coPool.traits, old(removedCo))
      ensures forall a :: a in coSet <==> a in old(coSet) && a !in old(removedCo)
      ensures forall a :: a in coPool.memPool.live <==> a in old(coPool.memPool.live) && a !in old(removedCo)
    {
      ForgetAll();
      removedCo := [];
    }
  }
}
