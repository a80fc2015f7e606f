/**
 * `ProcessorSelector` (src/processor_selector.cc): on which processor the next coroutine starts.
 * A processor is its index in `processors_`; `loads` are their coroutine counts at the time of the call.
 */
module Selectors {

  const MIN_EVENT_FIRST: int := 0
  const ROUND_ROBIN: int := 1

  /** The null pointer, an element of the vector, or an index past its end. */
  datatype Choice = Nobody | Chosen(i: nat) | OutOfRange(index: int)

  function Element(i: int, n: nat): Choice {
    if 0 <= i < n then Chosen(i) else OutOfRange(i)
  }

  // ---- least load ----

  predicate Worker(loads: seq<nat>, j: int) {
    1 <= j < |loads|
  }

  /** Worker `m` is the first of the least loaded workers. */
  ghost predicate FirstLeast(loads: seq<nat>, m: int) {
    && Worker(loads, m)
    && (forall j :: Worker(loads, j) ==> loads[m] <= loads[j])
    && (forall j :: Worker(loads, j) && j < m ==> loads[m] < loads[j])
  }

  /** Some worker has less to do than processor 0. */
  ghost predicate SomeBelowZero(loads: seq<nat>) {
    exists j :: Worker(loads, j) && loads[j] < loads[0]
  }

  /** What the scan finds. */
  ghost predicate LeastLoad(loads: seq<nat>, m: int) {
    if SomeBelowZero(loads) then FirstLeast(loads, m) else m == 1
  }

  /** The scan leaves no choice. */
  lemma LeastLoadUnique(loads: seq<nat>, m: int, k: int)
    requires LeastLoad(loads, m) && LeastLoad(loads, k)
    ensures m == k
  {
  }

  /** The choice is a least loaded worker exactly if one has less to do than processor 0, or the first is one anyway. */
  lemma LeastLoadedIff(loads: seq<nat>, m: int)
    requires |loads| >= 2 && LeastLoad(loads, m)
    ensures (forall j :: Worker(loads, j) ==> loads[m] <= loads[j])
       <==> SomeBelowZero(loads) || (forall j :: Worker(loads, j) ==> loads[1] <= loads[j])
  {
  }

  /** With processor 0 idle, the busier of two workers is chosen. */
  lemma BusierWorkerChosen()
    ensures LeastLoad([0, 5, 1], 1)
  {
  }

  // ---- round robin ----

  function After(cur: int, n: nat): int {
    if cur + 1 >= n then 1 else cur + 1
  }

  /** How often `w` is chosen in the next `calls` calls. */
  function Times(cur: int, n: nat, calls: nat, w: int): nat
    decreases calls
  {
    if calls == 0 then 0
    else (if After(cur, n) == w then 1 else 0) + Times(After(cur, n), n, calls - 1, w)
  }

  /** How many calls until `w` is chosen next. */
  function Distance(cur: int, n: nat, w: int): int {
    if w > cur then w - cur else w - cur + (n - 1)
  }

  lemma QuotientStep(x: nat, m: nat)
    requires m > 0
    ensures (x + m) / m == x / m + 1
  {
    assert (x + m) / m == x / m + 1 by { QuotientIs(x + m, m, x / m + 1, x % m); }
  }

  lemma QuotientIs(x: nat, m: nat, q: int, r: int)
    requires m > 0 && x == q * m + r && 0 <= r < m
    ensures x / m == q
  {
    var d := x / m - q;
    assert x == x / m * m + x % m;
    assert d * m == r - x % m;
  }

  lemma RoundUp(x: nat, m: nat)
    requires m > 0
    ensures (x + (m - 1)) / m <= x / m + 1
    ensures x % m == 0 ==> (x + (m - 1)) / m == x / m
  {
    QuotientStep(x, m);
    QuotientMonotone(x + (m - 1), x + m, m);
    if x % m == 0 { QuotientIs(x + (m - 1), m, x / m, m - 1); }
  }

  lemma {:induction false} QuotientMonotone(x: nat, y: nat, m: nat)
    requires m > 0 && x <= y
    ensures x / m <= y / m
    decreases y
  {
    if y >= m {
      QuotientStep(y - m, m);
      if x >= m {
        QuotientStep(x - m, m);
        QuotientMonotone(x - m, y - m, m);
      } else {
        QuotientIs(x, m, 0, x);
        assert (y - m) / m >= 0;
      }
    } else {
      QuotientIs(x, m, 0, x);
      QuotientIs(y, m, 0, y);
    }
  }

  /** A worker's turn comes after `Distance` calls, and then every n - 1 calls. */
  lemma {:induction false} TimesIs(cur: int, n: nat, calls: nat, w: int)
    requires 0 <= cur < n && 1 <= w < n
    ensures var d := Distance(cur, n, w);
      Times(cur, n, calls, w) == if calls < d then 0 else 1 + (calls - d) / (n - 1)
    decreases calls
  {
    if calls > 0 {
      var c := After(cur, n);
      TimesIs(c, n, calls - 1, w);
      if c == w && calls - 1 >= n - 1 { QuotientStep(calls - 1 - (n - 1), n - 1); }
      if c == w && calls - 1 < n - 1 { QuotientIs(calls - 1, n - 1, 0, calls - 1); }
    }
  }

  /** In any window after the first call every worker is chosen as often as any other, give or take one. */
  lemma RoundRobinIsFair(cur: int, n: nat, calls: nat, w: int)
    requires 0 <= cur < n && 1 <= w < n
    ensures calls / (n - 1) <= Times(cur, n, calls, w) <= (calls + (n - 2)) / (n - 1)
  {
    var m, d := n - 1, Distance(cur, n, w);
    TimesIs(cur, n, calls, w);
    if calls < d {
      QuotientIs(calls, m, 0, calls);
    } else {
      QuotientStep(calls - d, m);
      QuotientMonotone(calls, calls - d + m, m);
      QuotientMonotone(calls - d + m, calls + (m - 1), m);
    }
  }

  /** ... so the numbers for two workers differ by one at most, and not at all over whole rounds. */
  lemma WorkersShareEvenly(cur: int, n: nat, calls: nat, v: int, w: int)
    requires 0 <= cur < n && 1 <= v < n && 1 <= w < n
    ensures -1 <= Times(cur, n, calls, v) - Times(cur, n, calls, w) <= 1
    ensures calls % (n - 1) == 0 ==> Times(cur, n, calls, v) == Times(cur, n, calls, w)
  {
    RoundRobinIsFair(cur, n, calls, v);
    RoundRobinIsFair(cur, n, calls, w);
    RoundUp(calls, n - 1);
  }

  lemma {:induction false} ZeroIsLeftAlone(cur: int, n: nat, calls: nat)
    requires 0 <= cur < n && n >= 2
    ensures Times(cur, n, calls, 0) == 0
    decreases calls
  {
    if calls > 0 { ZeroIsLeftAlone(After(cur, n), n, calls - 1); }
  }

  /** From the start, processor 0 is chosen by the first call and never again. */
  lemma ZeroOnlyOnce(n: nat, calls: nat)
    requires n >= 2
    ensures Times(-1, n, calls, 0) == if calls == 0 then 0 else 1
  {
    if calls > 0 { ZeroIsLeftAlone(0, n, calls - 1); }
  }

  class ProcessorSelector {
    var curPro: int
    var strategy: int

    predicate Valid()
      reads this
    {
      curPro >= -1
    }

    constructor (strategy: int := ROUND_ROBIN)
      ensures Valid() && curPro == -1 && this.strategy == strategy
    {
      curPro, this.strategy := -1, strategy;
    }

    method SetStrategy(strategy: int)
      requires Valid()
      modifies this`strategy
      ensures Valid() && this.strategy == strategy
    {
      this.strategy := strategy;
    }

    /** The scan for the least load, from processor 0's. */
    method Scan(loads: seq<nat>) returns (minCoProIdx: int)
      requires loads != []
      ensures LeastLoad(loads, minCoProIdx)
    {
      var minCoCnt := loads[0];
      minCoProIdx := 1;
      var i := 1;
      while i < |loads|
        invariant 1 <= i <= |loads|
        invariant forall j :: 1 <= j < i ==> minCoCnt <= loads[j]
        invariant (minCoCnt == loads[0] && minCoProIdx == 1)
          || (1 <= minCoProIdx < i && minCoCnt == loads[minCoProIdx] < loads[0]
              && forall j :: 1 <= j < minCoProIdx ==> minCoCnt < loads[j])
      {
        var coCnt := loads[i];
        if coCnt < minCoCnt {
          minCoCnt := coCnt;
          minCoProIdx := i;
        }
        i := i + 1;
      }
      if minCoCnt < loads[0] { assert Worker(loads, minCoProIdx); }
    }

    /** With at least two processors, one of them is chosen; with just one, the index may run past it. */
    method Next(loads: seq<nat>) returns (r: Choice)
      requires Valid()
      modifies this`curPro
      ensures Valid()
      ensures loads == [] ==> r == Nobody && curPro == old(curPro)
      ensures loads != [] ==> r == Element(curPro, |loads|)
      ensures loads != [] && strategy == MIN_EVENT_FIRST ==> LeastLoad(loads, curPro)
      ensures loads != [] && strategy != MIN_EVENT_FIRST ==> curPro == After(old(curPro), |loads|)
      ensures r.OutOfRange? <==> |loads| == 1 && !(strategy != MIN_EVENT_FIRST && old(curPro) == -1)
    {
      var n := |loads|;
      if n == 0 {
        return Nobody;
      }
      var minCoProIdx := Scan(loads);
      if strategy == MIN_EVENT_FIRST {
        curPro := minCoProIdx;
      } else {
        curPro := curPro + 1;
        if curPro >= n {
          curPro := 1;
        }
      }
      return Element(curPro, n);
    }
  }
}
