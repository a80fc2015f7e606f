/**
 * `ObjPool<T>` (src/objpool.h): objects constructed in and destroyed from blocks of a `MemPool`.
 * Which of the two overloads of `new_aux` and `delete_aux` is chosen depends on two traits of `T`.
 */
module ObjPools {
  import opened Seqs
  import opened MemPools

  /** `trivialCtor`: std::is_trivially_constructible<T>; `trivialDtor`: std::is_trivially_destructible<T>. */
  datatype Traits = Traits(trivialCtor: bool, trivialDtor: bool)

  /** What happens at an address. */
  datatype Event = Allocated(at: nat) | Constructed(at: nat) | Destroyed(at: nat) | Released(at: nat)

  /** No storage of ours; storage without an object; storage with an object in its lifetime. */
  datatype Phase = Out | Raw | Standing

  /** The C++ object model: what may happen next at an address, and where it leads. */
  function After(traits: Traits, p: Phase, e: Event): Option<Phase> {
    match e
    case Allocated(_) => if p == Out then Some(Raw) else None
    case Constructed(_) => if p == Raw then Some(Standing) else None
    case Destroyed(_) => if p == Standing then Some(Raw) else None
    case Released(_) => if p == Raw || (p == Standing && traits.trivialDtor) then Some(Out) else None
  }

  /** Where the history leaves the address; None if something happened there that may not. */
  function PhaseOf(traits: Traits, events: seq<Event>, at: nat): Option<Phase> {
    if events == [] then Some(Out)
    else
      var n := |events| - 1;
      var p := PhaseOf(traits, events[..n], at);
      if events[n].at != at || p.None? then p else After(traits, p.value, events[n])
  }

  function Count(events: seq<Event>, e: Event): nat {
    if events == [] then 0 else Count(events[..|events| - 1], e) + if events[|events| - 1] == e then 1 else 0
  }

  /** In a legal history every construction but the standing one has been paired with a destruction. */
  lemma {:induction false} DestroyedOncePerObject(traits: Traits, events: seq<Event>, at: nat)
    requires PhaseOf(traits, events, at).Some? && !traits.trivialDtor
    ensures Count(events, Constructed(at))
         == Count(events, Destroyed(at)) + if PhaseOf(traits, events, at).value == Standing then 1 else 0
    ensures Count(events, Allocated(at))
         == Count(events, Released(at)) + if PhaseOf(traits, events, at).value == Out then 0 else 1
  {
    if events != [] { DestroyedOncePerObject(traits, events[..|events| - 1], at); }
  }

  lemma PhasePush(traits: Traits, events: seq<Event>, e: Event, at: nat)
    ensures PhaseOf(traits, events + [e], at)
         == var p := PhaseOf(traits, events, at);
            if e.at != at || p.None? then p else After(traits, p.value, e)
  {
  }

  function Born(traits: Traits, at: nat): seq<Event> {
    if traits.trivialCtor then [Allocated(at)] else [Allocated(at), Constructed(at)]
  }

  function Gone(traits: Traits, at: nat): seq<Event> {
    if traits.trivialDtor then [Released(at)] else [Destroyed(at), Released(at)]
  }

  /** In use, an address holds an object, unless making one takes no action. */
  function InUse(traits: Traits): Phase {
    if traits.trivialCtor then Raw else Standing
  }

  lemma BornPhase(traits: Traits, events: seq<Event>, at: nat, other: nat)
    requires PhaseOf(traits, events, at) == Some(Out)
    ensures PhaseOf(traits, events + Born(traits, at), at) == Some(InUse(traits))
    ensures other != at ==> PhaseOf(traits, events + Born(traits, at), other) == PhaseOf(traits, events, other)
  {
    forall x ensures PhaseOf(traits, events + [Allocated(at)], x)
                  == if x == at then Some(Raw) else PhaseOf(traits, events, x) {
      PhasePush(traits, events, Allocated(at), x);
    }
    if !traits.trivialCtor {
      var more := events + [Allocated(at)];
      assert events + Born(traits, at) == more + [Constructed(at)];
      PhasePush(traits, more, Constructed(at), at);
      PhasePush(traits, more, Constructed(at), other);
    }
  }

  lemma GonePhase(traits: Traits, events: seq<Event>, at: nat, other: nat)
    requires traits.trivialCtor ==> traits.trivialDtor
    requires PhaseOf(traits, events, at) == Some(InUse(traits))
    ensures PhaseOf(traits, events + Gone(traits, at), at) == Some(Out)
    ensures other != at ==> PhaseOf(traits, events + Gone(traits, at), other) == PhaseOf(traits, events, other)
  {
    if traits.trivialDtor {
      PhasePush(traits, events, Released(at), at);
      PhasePush(traits, events, Released(at), other);
    } else {
      var more := events + [Destroyed(at)];
      PhasePush(traits, events, Destroyed(at), at);
      PhasePush(traits, events, Destroyed(at), other);
      assert events + Gone(traits, at) == more + [Released(at)];
      PhasePush(traits, more, Released(at), at);
      PhasePush(traits, more, Released(at), other);
    }
  }

  /** Every address has had a legal history, and exactly the live blocks are in use. */
  ghost predicate Lives(traits: Traits, events: seq<Event>, live: set<nat>) {
    forall at: nat :: PhaseOf(traits, events, at) == Some(if at in live then InUse(traits) else Out)
  }

  lemma BornLives(traits: Traits, events: seq<Event>, live: set<nat>, at: nat)
    requires Lives(traits, events, live) && at !in live
    ensures Lives(traits, events + Born(traits, at), live + {at})
  {
    forall x: nat ensures PhaseOf(traits, events + Born(traits, at), x)
                       == Some(if x in live + {at} then InUse(traits) else Out) {
      BornPhase(traits, events, at, x);
    }
  }

  lemma GoneLives(traits: Traits, events: seq<Event>, live: set<nat>, at: nat)
    requires Lives(traits, events, live) && at in live && (traits.trivialCtor ==> traits.trivialDtor)
    ensures Lives(traits, events + Gone(traits, at), live - {at})
  {
    forall x: nat ensures PhaseOf(traits, events + Gone(traits, at), x)
                       == Some(if x in live - {at} then InUse(traits) else Out) {
      GonePhase(traits, events, at, x);
    }
  }

  class ObjPool {
    const traits: Traits
    const memPool: MemPool
    ghost var events: seq<Event>

    ghost predicate Valid()
      reads this, memPool
    {
      && memPool.Valid()
      && Lives(traits, events, memPool.live)
      // a type whose construction is trivial is trivially destructible
      && (traits.trivialCtor ==> traits.trivialDtor)
    }

    constructor (sizeOfT: nat, traits: Traits)
      requires traits.trivialCtor ==> traits.trivialDtor
      ensures Valid() && fresh(memPool) && this.traits == traits && events == [] && memPool.live == {}
    {
      this.traits := traits;
      memPool := new MemPool(sizeOfT);
      events := [];
    }

    /** The block has been allocated; an object is constructed in it, unless that is trivial. */
    method Record(obj: nat)
      modifies this`events
      ensures events == old(events) + Born(traits, obj)
    {
      events := events + [Allocated(obj)];
      if !traits.trivialCtor {
        events := events + [Constructed(obj)]; // placement new
      }
      assert events == old(events) + Born(traits, obj);
    }

    /** new_obj; `p` is what malloc returns if the memory pool calls it. */
    method NewObj(p: nat) returns (obj: nat)
      requires Valid() && (memPool.freeListHead == 0 ==> memPool.MallocResult(p, memPool.NextMalloc()))
      modifies this, memPool
      ensures Valid() && AllocEffect(old(memPool.Snap()), p, obj, memPool.Snap())
      ensures events == old(events) + Born(traits, obj)
      ensures events == old(events)
        + if traits.trivialCtor then [Allocated(obj)] else [Allocated(obj), Constructed(obj)]
    {
      obj := memPool.AllocAMemBlock(p);
      Record(obj);
      BornLives(traits, old(events), old(memPool.live), obj);
    }

    /** delete_obj: null is ignored; otherwise the destructor runs, if it does anything, before the block is freed. */
    method DeleteObj(obj: nat)
      requires Valid() && (obj == 0 || obj in memPool.live)
      modifies this, memPool
      ensures Valid()
      ensures obj == 0 ==> events == old(events) && memPool.Snap() == old(memPool.Snap())
      ensures obj != 0 ==> events == old(events) + Gone(traits, obj) && memPool.live == old(memPool.live) - {obj}
      ensures obj != 0 ==>
        events == old(events) + if traits.trivialDtor then [Released(obj)] else [Destroyed(obj), Released(obj)]
      ensures BlocksKept(old(memPool.mem), memPool.mem, memPool.live, memPool.objSize)
    {
      if obj == 0 {
        UntouchedKeeps(memPool.mem, memPool.chunks, memPool.live, memPool.objSize);
        return;
      }
      GoneLives(traits, events, memPool.live, obj);
      if !traits.trivialDtor {
        events := events + [Destroyed(obj)]; // ~T
      }
      memPool.FreeAMemBlock(obj);
      events := events + [Released(obj)];
      assert events == old(events) + Gone(traits, obj);
    }
  }
}
