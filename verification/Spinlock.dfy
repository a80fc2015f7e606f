/**
 * `Spinlock` (src/spinlock.h): a compare-and-swap loop on `sem_`, any number of threads, every atomic
 * operation a step of its own.  `SpinlockGuard` makes the unlocking thread the one that locked.
 */
module Spinlock {

  type Tid = nat

  datatype Pc =
    | Outside
    | AtCas(exp: int)     // about to compare_exchange_strong(exp, 0)
    | AtReset(exp: int)   // the exchange failed and overwrote exp
    | Inside

  datatype State = State(sem: int, pcs: map<Tid, Pc>)

  datatype Action = Call | Cas | Reset | Unlock

  function PcOf(s: State, t: Tid): Pc {
    if t in s.pcs then s.pcs[t] else Outside
  }

  const INITIAL := State(1, map[])

  predicate Enabled(s: State, t: Tid, a: Action) {
    match a
    case Call => PcOf(s, t).Outside?
    case Cas => PcOf(s, t).AtCas?
    case Reset => PcOf(s, t).AtReset?
    case Unlock => PcOf(s, t).Inside?
  }

  function Apply(s: State, t: Tid, a: Action): State
    requires Enabled(s, t, a)
  {
    match a
    case Call => s.(pcs := s.pcs[t := AtCas(1)])
    case Cas =>
      if s.sem == PcOf(s, t).exp then State(0, s.pcs[t := Inside])
      else s.(pcs := s.pcs[t := AtReset(s.sem)])
    case Reset => s.(pcs := s.pcs[t := AtCas(1)])
    case Unlock => State(1, s.pcs[t := Outside])
  }

  predicate In(s: State, t: Tid) {
    PcOf(s, t).Inside?
  }

  /** The exchange always expects 1. */
  predicate ExpectsFree(s: State, t: Tid) {
    PcOf(s, t).AtCas? ==> PcOf(s, t).exp == 1
  }

  /** `sem_` is 0 iff exactly one thread is inside, and otherwise 1. */
  ghost predicate Exclusive(s: State) {
    && s.sem in {0, 1}
    && (s.sem == 0 <==> exists t {:trigger In(s, t)} :: In(s, t))
    && (forall t, u {:trigger In(s, t), In(s, u)} :: In(s, t) && In(s, u) ==> t == u)
    && (forall t {:trigger ExpectsFree(s, t)} :: ExpectsFree(s, t))
  }

  lemma ActionKeepsExclusion(s: State, t: Tid, a: Action)
    requires Exclusive(s) && Enabled(s, t, a)
    ensures Exclusive(Apply(s, t, a))
  {
    var s' := Apply(s, t, a);
    assert PcOf(s', t) == s'.pcs[t];
    assert ExpectsFree(s, t);
    assert In(s, t) ==> s.sem == 0;
    forall u ensures ExpectsFree(s', u) { assert ExpectsFree(s, u); }
    forall u, v | In(s', u) && In(s', v) ensures u == v {
      assert u == t || In(s, u);
      assert v == t || In(s, v);
    }
    if s'.sem == 0 && s.sem == 0 {
      var u :| In(s, u);
      assert In(s', u);
    } else if s'.sem == 0 {
      assert In(s', t);
    } else {
      forall u ensures !In(s', u) { assert !In(s, u) || In(s, t); }
    }
  }

  /** The states that any interleaving of any number of threads reaches. */
  ghost predicate IsRun(states: seq<State>, moves: seq<(Tid, Action)>) {
    && |states| == |moves| + 1 && states[0] == INITIAL
    && forall i :: 0 <= i < |moves| ==>
      Enabled(states[i], moves[i].0, moves[i].1) && states[i + 1] == Apply(states[i], moves[i].0, moves[i].1)
  }

  /** Mutual exclusion over all interleavings. */
  lemma {:induction false} AlwaysExclusive(states: seq<State>, moves: seq<(Tid, Action)>, i: nat)
    requires IsRun(states, moves) && i <= |moves|
    ensures Exclusive(states[i])
  {
    if i > 0 {
      AlwaysExclusive(states, moves, i - 1);
      assert states[i - 1 + 1] == Apply(states[i - 1], moves[i - 1].0, moves[i - 1].1);
      ActionKeepsExclusion(states[i - 1], moves[i - 1].0, moves[i - 1].1);
    }
  }

  /** An exchange succeeds exactly when nobody is inside. */
  lemma CasSucceedsIffFree(s: State, t: Tid)
    requires Exclusive(s) && Enabled(s, t, Cas)
    ensures In(Apply(s, t, Cas), t) <==> forall u :: !In(s, u)
  {
    assert ExpectsFree(s, t);
    assert PcOf(Apply(s, t, Cas), t) == Apply(s, t, Cas).pcs[t];
  }
}
