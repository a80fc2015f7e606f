/**
 * What `Timer::TimerHeap` (src/timer.h:37) is to its user: a `std::priority_queue` of
 * (deadline, coroutine) pairs ordered by `std::greater`, seen as the sequence of its elements in
 * the order in which repeated `top`/`pop` would deliver them.
 */
module SleepQueue {
  import opened Seqs

  /** The address of a `Coroutine`; 0 is the null pointer. */
  type Addr = nat

  datatype Entry = Entry(due: int, co: Addr)

  /** `std::pair` order on (Time, Coroutine*). */
  predicate Less(x: Entry, y: Entry) {
    x.due < y.due || (x.due == y.due && x.co < y.co)
  }

  ghost predicate Sorted(h: seq<Entry>) {
    forall i, j :: 0 <= i < j < |h| ==> !Less(h[j], h[i])
  }

  /** How many leading entries leave before `e`. */
  function Rank(h: seq<Entry>, e: Entry): (k: nat)
    ensures k <= |h|
    ensures forall i :: 0 <= i < k ==> Less(h[i], e)
    ensures k < |h| ==> !Less(h[k], e)
  {
    if h != [] && Less(h[0], e) then 1 + Rank(h[1..], e) else 0
  }

  function Insert(h: seq<Entry>, e: Entry): seq<Entry> {
    h[..Rank(h, e)] + [e] + h[Rank(h, e)..]
  }

  /** How many leading entries are due at `now`. */
  function DueCount(h: seq<Entry>, now: int): (k: nat)
    ensures k <= |h|
    ensures forall i :: 0 <= i < k ==> h[i].due <= now
    ensures k < |h| ==> h[k].due > now
  {
    if h != [] && h[0].due <= now then 1 + DueCount(h[1..], now) else 0
  }

  function Cos(h: seq<Entry>): (s: seq<Addr>)
    ensures |s| == |h| && forall i :: 0 <= i < |h| ==> s[i] == h[i].co
  {
    seq(|h|, i requires 0 <= i < |h| => h[i].co)
  }

  lemma InsertSorted(h: seq<Entry>, e: Entry)
    requires Sorted(h)
    ensures Sorted(Insert(h, e))
  {
  }

  /** ... of what was there and the new entry, once. */
  lemma InsertAdds(h: seq<Entry>, e: Entry)
    ensures multiset(Insert(h, e)) == multiset(h) + multiset{e}
  {
    assert h == h[..Rank(h, e)] + h[Rank(h, e)..];
  }

  lemma CosOfInsert(h: seq<Entry>, e: Entry)
    ensures var k := Rank(h, e); Cos(Insert(h, e)) == Cos(h)[..k] + [e.co] + Cos(h)[k..]
  {
  }

  /** The due entries are exactly the leading `DueCount` ones. */
  lemma DueExactly(h: seq<Entry>, now: int, i: nat)
    requires Sorted(h) && i < |h|
    ensures h[i].due <= now <==> i < DueCount(h, now)
  {
  }
}
