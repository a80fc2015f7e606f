/**
 * `Timer` (src/timer.cc) over a one-shot kernel timer (timerfd), with `Time::timeIntervalFromNow`
 * (src/mstime.cc).  The owner's steps are interleaved with the clock, with the firing of the kernel
 * timer and with `wakeUp` calls of other threads.
 */
module Timers {
  import opened Seqs
  import opened SleepQueue

  /** TIMER_DUMMYBUF_SIZE */
  const BUFFER: int := 1024

  datatype TimeSpec = TimeSpec(sec: int, nsec: int)

  /** What timerfd_settime accepts. */
  predicate Acceptable(ts: TimeSpec) {
    ts.sec >= 0 && 0 <= ts.nsec < 1_000_000_000
  }

  function Micros(ts: TimeSpec): int {
    1_000_000 * ts.sec + ts.nsec / 1000
  }

  /** The clock in microseconds, and the timer: when it will fire, and when it fired if that has not been read. */
  datatype Kernel = Kernel(clock: int, armed: Option<int>, fired: Option<int>)

  /** A timer that is due has fired. */
  predicate Settled(k: Kernel) {
    k.armed.Some? ==> k.armed.value > k.clock
  }

  function Advance(k: Kernel, d: nat): Kernel {
    if k.armed.Some? && k.armed.value <= k.clock + d then Kernel(k.clock + d, None, k.armed)
    else k.(clock := k.clock + d)
  }

  /** timerfd_settime, relative: an interval of zero disarms the timer; any other replaces what it was set to. */
  function SetTime(k: Kernel, ts: TimeSpec): Kernel {
    if !Acceptable(ts) then k
    else Kernel(k.clock, if ts == TimeSpec(0, 0) then None else Some(k.clock + Micros(ts)), None)
  }

  /** The interval of timeIntervalFromNow for a time that is not in the future. */
  const SOON := TimeSpec(0, 1000)

  /** The timer has fired, or fires by `bound` or within a microsecond. */
  predicate Covers(k: Kernel, bound: int) {
    k.fired.Some? || (k.armed.Some? && (k.armed.value <= bound || k.armed.value <= k.clock + 1))
  }

  /** When a timer that `resetTimeOfTimefd` sets for `time` fires: clock read at `sampled`, armed at `armed`. */
  function FiresAt(time: int, sampled: int, armed: int): int {
    armed + if time - sampled / 1000 < 1 then 1 else 1000 * (time - sampled / 1000)
  }

  /**
   * The promise "no later than the deadline, or a microsecond from now" holds exactly if the deadline
   * has passed, or the clock stood at a whole millisecond when it was read and did not move until
   * the timer was armed: the reading is rounded down.
   */
  lemma ArmedInTimeIff(time: int, sampled: int, armed: int)
    requires sampled <= armed
    ensures (FiresAt(time, sampled, armed) <= 1000 * time || FiresAt(time, sampled, armed) <= armed + 1)
       <==> (time <= sampled / 1000 || (sampled % 1000 == 0 && armed == sampled))
  {
  }

  /** Half a millisecond past a whole one, a timer for the next millisecond fires 500 microseconds after it. */
  lemma ArmedTooLate()
    ensures FiresAt(1, 500, 500) == 1500
    ensures !Covers(SetTime(Kernel(500, None, None), TimeSpec(0, 1_000_000)), 1000 * 1)
  {
  }

  /** In the library's own unit, the millisecond, the promise holds unless the rounding and the delay add up to one. */
  lemma ArmedInTheMillisecondIff(time: int, sampled: int, armed: int)
    requires sampled <= armed
    ensures (FiresAt(time, sampled, armed) / 1000 <= time || FiresAt(time, sampled, armed) <= armed + 1)
       <==> (time <= sampled / 1000 || sampled % 1000 + (armed - sampled) < 1000)
  {
  }

  /** A `wakeUp` leaves no trace once the owner arms the timer again. */
  lemma WakeUpIsOverwritten(k: Kernel, ts: TimeSpec)
    requires Acceptable(ts)
    ensures SetTime(SetTime(k, SOON), ts) == SetTime(k, ts)
  {
  }

  /** It is still answered within a microsecond exactly if the owner's interval is that short too. */
  lemma WakeUpSurvivesIff(k: Kernel, ts: TimeSpec)
    requires Acceptable(ts) && ts != TimeSpec(0, 0)
    ensures Covers(SetTime(SetTime(k, SOON), ts), k.clock + 1) <==> Micros(ts) <= 1
  {
    WakeUpIsOverwritten(k, ts);
  }

  /** For the owner's resetTimeOfTimefd that is: exactly if the deadline it arms for has passed. */
  lemma WakeUpSurvivesResetIff(k: Kernel, time: int, sampled: int, ts: TimeSpec)
    requires Acceptable(ts) && k.clock + Micros(ts) == FiresAt(time, sampled, k.clock)
    ensures Covers(SetTime(SetTime(k, SOON), ts), k.clock + 1) <==> time <= sampled / 1000
  {
    WakeUpSurvivesIff(k, ts);
  }

  /** However long it takes, `wakeUp` arms the timer one microsecond ahead. */
  lemma WakeUpIsSoon(start: int, sampled: int, armed: int)
    requires start <= sampled <= armed
    ensures FiresAt(start / 1000, sampled, armed) == armed + 1
  {
  }

  /**
   * A sleeper that read the clock at `start` and asked for `time` ms is among those that leave the heap
   * at the clock reading `end` exactly if the time it asked for has passed, less the microseconds that
   * were already gone of the starting millisecond.
   */
  lemma SleepEndsIff(h: seq<Entry>, i: nat, start: int, time: int, end: int)
    requires Sorted(h) && i < |h| && h[i].due == start / 1000 + time
    ensures i < DueCount(h, end / 1000) <==> end - start >= 1000 * time - start % 1000
  {
    DueExactly(h, end / 1000, i);
  }

  /** Asked to sleep for a millisecond at 999 us, a coroutine leaves the heap at 1000 us. */
  lemma SleepTooShort(co: Addr)
    ensures var h := Insert([], Entry(999 / 1000 + 1, co)); DueCount(h, 1000 / 1000) == 1 && Cos(h) == [co]
    ensures 1000 - 999 < 1000 * 1
  {
    assert Insert([], Entry(1, co)) == [Entry(1, co)];
  }

  /** What leaves the heap at `now`: all that is due and nothing else, by deadline, each entry once. */
  lemma ExpiredExactly(h: seq<Entry>, now: int)
    requires Sorted(h)
    ensures var k := DueCount(h, now);
      && multiset(h) == multiset(h[..k]) + multiset(h[k..])
      && (forall e :: e in h[..k] ==> e.due <= now) && (forall e :: e in h[k..] ==> e.due > now)
      && (forall i, j :: 0 <= i < j < k ==> h[i].due <= h[j].due)
      && Sorted(h[k..])
  {
    var k := DueCount(h, now);
    assert h == h[..k] + h[k..];
    forall i, j | 0 <= i < j < k ensures h[i].due <= h[j].due { assert !Less(h[j], h[i]); }
  }

  class Timer {
    var kernel: Kernel
    var timerCoHeap: seq<Entry>
    ghost var readAt: int   // when resetTimeOfTimefd last read the clock,
    ghost var setAt: int    // and when it armed the timer

    /** How late, past the deadline, the timer may be: the rounding of the reading, and the delay since. */
    ghost function Slack(): int
      reads this
    {
      readAt % 1000 + (setAt - readAt)
    }

    /** While anyone sleeps, the timer covers the earliest deadline. */
    ghost predicate Valid()
      reads this
    {
      && Settled(kernel) && Sorted(timerCoHeap) && readAt <= setAt
      && (timerCoHeap != [] ==> Covers(kernel, 1000 * timerCoHeap[0].due + Slack()))
    }

    constructor (clock: int)
      ensures Valid() && timerCoHeap == [] && kernel == Kernel(clock, None, None)
    {
      kernel := Kernel(clock, None, None);
      timerCoHeap := [];
      readAt, setAt := clock, clock;
    }

    /** What may happen between two steps of the owner: time passes, the timer fires, other threads wake it up. */
    method Interfere()
      requires Settled(kernel)
      modifies this`kernel
      ensures Settled(kernel) && kernel.clock >= old(kernel.clock)
      ensures forall b: int {:trigger Covers(kernel, b)} :: Covers(old(kernel), b) ==> Covers(kernel, b)
      ensures kernel.fired.Some? ==> kernel.fired == old(kernel.fired) || kernel.fired.value > old(kernel.clock)
      ensures old(Valid()) ==> Valid()
    {
      var rounds: nat :| rounds >= 0;
      while rounds > 0
        invariant Settled(kernel) && kernel.clock >= old(kernel.clock)
        invariant forall b: int {:trigger Covers(kernel, b)} :: Covers(old(kernel), b) ==> Covers(kernel, b)
        invariant kernel.fired.Some? ==> kernel.fired == old(kernel.fired) || kernel.fired.value > old(kernel.clock)
      {
        var d: nat :| d >= 0;
        var foreign: bool := *;
        forall b: int | Covers(kernel, b) ensures Covers(Advance(kernel, d), b) { }
        kernel := Advance(kernel, d);
        if foreign {
          forall b: int | Covers(kernel, b) ensures Covers(SetTime(kernel, SOON), b) { }
          kernel := SetTime(kernel, SOON);
        }
        rounds := rounds - 1;
      }
    }

    /** Time::now: milliseconds. */
    method Now() returns (ms: int)
      ensures ms == kernel.clock / 1000
    {
      ms := kernel.clock / 1000;
    }

    /** Time::timeIntervalFromNow: never zero, so that it never disarms the timer. */
    method TimeIntervalFromNow(timeVal: int) returns (ts: TimeSpec)
      ensures Acceptable(ts) && ts != TimeSpec(0, 0)
      ensures kernel.clock + Micros(ts) == FiresAt(timeVal, kernel.clock, kernel.clock)
    {
      var now := Now();
      var microseconds := timeVal - now;
      if microseconds < 1 {
        ts := TimeSpec(0, 1000);
      } else {
        ts := TimeSpec(microseconds / 1000, microseconds % 1000 * 1000 * 1000);
      }
    }

    /** timerfd_settime */
    method TimerfdSettime(ts: TimeSpec) returns (ret: int)
      modifies this`kernel
      ensures kernel == SetTime(old(kernel), ts) && (ret < 0 <==> !Acceptable(ts))
    {
      ret := if Acceptable(ts) then 0 else -1;
      kernel := SetTime(kernel, ts);
    }

    method ResetTimeOfTimefd(time: int) returns (ok: bool)
      requires Settled(kernel)
      modifies this`kernel, this`readAt, this`setAt
      ensures ok && Settled(kernel)
      ensures old(kernel.clock) <= readAt <= setAt <= kernel.clock
      ensures Covers(kernel, 1000 * time + Slack())
      ensures kernel.fired.Some? ==> kernel.fired.value > old(kernel.clock)
    {
      readAt := kernel.clock;
      var newValue := TimeIntervalFromNow(time);
      Interfere();
      setAt := kernel.clock;
      var ret := TimerfdSettime(newValue);
      assert kernel.armed == Some(FiresAt(time, readAt, setAt));
      assert Covers(kernel, 1000 * time + Slack());
      Interfere();
      ok := !(ret < 0);
    }

    /** read on the timer's descriptor: eight bytes if it has fired, and an error otherwise. */
    method ReadTimeFd() returns (cnt: int)
      modifies this`kernel
      ensures cnt < BUFFER && kernel == old(kernel).(fired := None)
    {
      cnt := if kernel.fired.Some? then 8 else -1;
      kernel := kernel.(fired := None);
    }

    /** The loop of getExpiredCoroutines. */
    method PopDue(nowTime: int, expiredCoroutines: seq<Addr>) returns (expired: seq<Addr>)
      modifies this`timerCoHeap
      ensures var k := DueCount(old(timerCoHeap), nowTime);
        expired == expiredCoroutines + Cos(old(timerCoHeap)[..k]) && timerCoHeap == old(timerCoHeap)[k..]
    {
      expired := expiredCoroutines;
      ghost var h, k := timerCoHeap, 0;
      while timerCoHeap != [] && timerCoHeap[0].due <= nowTime
        invariant k <= |h| && timerCoHeap == h[k..] && expired == expiredCoroutines + Cos(h[..k])
        invariant forall i :: 0 <= i < k ==> h[i].due <= nowTime
      {
        assert Cos(h[..k + 1]) == Cos(h[..k]) + [h[k].co];
        expired := expired + [timerCoHeap[0].co];
        timerCoHeap := timerCoHeap[1..];
        k := k + 1;
      }
    }

    /** The descriptor is read until less than a buffer full comes back: no firing from before is left unread. */
    method DrainTimeFd()
      requires Settled(kernel)
      modifies this`kernel
      ensures Settled(kernel) && kernel.clock >= old(kernel.clock)
      ensures kernel.fired.Some? ==> kernel.fired.value > old(kernel.clock)
    {
      var cnt := BUFFER;
      while cnt >= BUFFER
        invariant Settled(kernel) && kernel.clock >= old(kernel.clock)
        invariant cnt < BUFFER && kernel.fired.Some? ==> kernel.fired.value > old(kernel.clock)
        decreases cnt
      {
        cnt := ReadTimeFd();
        Interfere();
      }
    }

    /**
     * The due entries leave the heap for the vector; `end` is the one reading of the clock that decides.
     * Afterwards the descriptor is readable only if the timer fired since.
     */
    method GetExpiredCoroutines(expiredCoroutines: seq<Addr>) returns (expired: seq<Addr>, ghost end: int)
      requires Valid()
      modifies this
      ensures Valid() && old(kernel.clock) <= end <= kernel.clock
      ensures var k := DueCount(old(timerCoHeap), end / 1000);
        expired == expiredCoroutines + Cos(old(timerCoHeap)[..k]) && timerCoHeap == old(timerCoHeap)[k..]
      ensures kernel.fired.Some? ==> kernel.fired.value > end
    {
      var nowTime := Now();
      end := kernel.clock;
      Interfere();
      ghost var h := timerCoHeap;
      expired := PopDue(nowTime, expiredCoroutines);
      DrainTimeFd();
      if timerCoHeap != [] {
        var ok := ResetTimeOfTimefd(timerCoHeap[0].due);
      }
    }

    method RunAt(time: int, co: Addr)
      requires Valid()
      modifies this
      ensures Valid() && timerCoHeap == Insert(old(timerCoHeap), Entry(time, co))
      ensures kernel.clock >= old(kernel.clock)
    {
      InsertSorted(timerCoHeap, Entry(time, co));
      timerCoHeap := Insert(timerCoHeap, Entry(time, co));
      if timerCoHeap[0].due == time {
        var ok := ResetTimeOfTimefd(time);
      }
    }

    /** The sleeper is due `time` milliseconds after `start`, a reading of the clock during the call, rounded down. */
    method RunAfter(time: int, co: Addr) returns (ghost start: int)
      requires Valid()
      modifies this
      ensures Valid() && old(kernel.clock) <= start <= kernel.clock
      ensures timerCoHeap == Insert(old(timerCoHeap), Entry(start / 1000 + time, co))
    {
      var now := Now();
      start := kernel.clock;
      Interfere();
      RunAt(now + time, co);
    }

    /** wakeUp: the timer is set to fire at once, and so still covers the earliest sleeper. */
    method WakeUp()
      requires Valid()
      modifies this`kernel
      ensures Valid() && Covers(kernel, kernel.clock + 1)
    {
      var sampled := Now();
      ghost var first := kernel.clock;
      Interfere();
      WakeUpIsSoon(first, kernel.clock, kernel.clock);
      var newValue := TimeIntervalFromNow(sampled);
      Interfere();
      var ret := TimerfdSettime(newValue);
      Interfere();
    }
  }
}
