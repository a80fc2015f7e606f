/** Options, and the few facts about duplicate-free sequences that the queues of the library need. */
module Seqs {

  datatype Option<+T> = None | Some(value: T)

  ghost predicate NoDup<T>(s: seq<T>) {
    forall i, j :: 0 <= i < j < |s| ==> s[i] != s[j]
  }

  /** `t` holds `x` on top of what `s` holds. */
  ghost predicate Gains<T(!new)>(s: seq<T>, t: seq<T>, x: T) {
    NoDup(t) && forall y :: y in t <==> y in s || y == x
  }

  /** `t` holds what `s` holds, except `x`. */
  ghost predicate Loses<T(!new)>(s: seq<T>, t: seq<T>, x: T) {
    x in s && NoDup(t) && forall y :: y in t <==> y in s && y != x
  }

  lemma PopLoses<T(!new)>(s: seq<T>)
    requires |s| > 0 && NoDup(s)
    ensures Loses(s, s[1..], s[0])
  {
  }

  lemma PushGains<T(!new)>(s: seq<T>, x: T)
    requires x !in s && NoDup(s)
    ensures Gains(s, s + [x], x)
  {
  }

  lemma InsertGains<T(!new)>(s: seq<T>, k: nat, x: T)
    requires x !in s && NoDup(s) && k <= |s|
    ensures Gains(s, s[..k] + [x] + s[k..], x)
  {
  }

  lemma ConcatNoDup<T>(s: seq<T>, t: seq<T>)
    requires NoDup(s) && NoDup(t) && forall i, j :: 0 <= i < |s| && 0 <= j < |t| ==> s[i] != t[j]
    ensures NoDup(s + t)
  {
  }
}
