/**
 * The double-buffered new-task queue of a Processor (src/processor.h:99-105).  Producers push under
 * `newQueLock_` into the queue that is not running; the loop reads the running queue without the lock
 * and takes the lock only to flip.  Every access to shared memory is a step; the spinlock is the one
 * of module Spinlock.  The result is that the two queues are the pair (running, adding) that module
 * Scheduler steps atomically, and together one FIFO queue.
 */
module TaskQueue {
  import Spinlock
  import opened SleepQueue

  type Tid = Spinlock.Tid

  /** A goCo (a batch of one) or goCoBatch call of one thread. */
  datatype Job =
    | Idle
    | Claiming(batch: seq<Addr>)
    | Pushing(batch: seq<Addr>, n: nat)               // n pushed, about to read runningNewQue_
    | Storing(que: bool, batch: seq<Addr>, n: nat)    // about to push batch[n] on newCoroutines_[que]

  /** The loop of the owner: elsewhere, draining queue `que`, or flipping. */
  datatype Owner =
    | Elsewhere
    | Draining(que: bool)
    | WantsFlip(que: bool)
    | Flipped(que: bool)

  /** `done`: what complete calls have pushed since the flip; `partial`: what the lock's present holder has pushed. */
  datatype State = State(
    que0: seq<Addr>, que1: seq<Addr>, running: bool, lock: Spinlock.State,
    jobs: map<Tid, Job>, owner: Owner, done: seq<Addr>, partial: seq<Addr>)

  const INITIAL := State([], [], false, Spinlock.INITIAL, map[], Elsewhere, [], [])

  /** The loop's thread; a coroutine that it runs pushes as some other `Tid`, while the loop stands still. */
  const LOOP: Tid := 0

  function Que(s: State, which: bool): seq<Addr> {
    if which then s.que1 else s.que0
  }

  function SetQue(s: State, which: bool, q: seq<Addr>): State {
    if which then s.(que1 := q) else s.(que0 := q)
  }

  function JobOf(s: State, t: Tid): Job {
    if t in s.jobs then s.jobs[t] else Idle
  }

  datatype Step =
    | Go(t: Tid, batch: seq<Addr>) | Spin(t: Tid, a: Spinlock.Action) | Read(t: Tid) | Store(t: Tid) | Leave(t: Tid)
    | BeginDrain | Pop | SeeEmpty | Flip | EndFlip

  predicate Enabled(s: State, step: Step) {
    match step
    case Go(t, batch) => t != LOOP && JobOf(s, t).Idle? && Spinlock.Enabled(s.lock, t, Spinlock.Call)
    case Spin(t, a) => (a.Cas? || a.Reset?) && Spinlock.Enabled(s.lock, t, a)
    case Read(t) => JobOf(s, t).Pushing? && JobOf(s, t).n < |JobOf(s, t).batch|
    case Store(t) => JobOf(s, t).Storing?
    case Leave(t) =>
      Spinlock.Enabled(s.lock, t, Spinlock.Unlock) && JobOf(s, t).Pushing? && JobOf(s, t).n >= |JobOf(s, t).batch|
    case BeginDrain => s.owner.Elsewhere?
    case Pop => s.owner.Draining? && Que(s, s.owner.que) != []
    case SeeEmpty => s.owner.Draining? && Que(s, s.owner.que) == [] && Spinlock.Enabled(s.lock, LOOP, Spinlock.Call)
    case Flip => s.owner.WantsFlip? && Spinlock.PcOf(s.lock, LOOP).Inside?
    case EndFlip => s.owner.Flipped? && Spinlock.Enabled(s.lock, LOOP, Spinlock.Unlock)
  }

  /** Claiming the lock starts the pushes of a producer. */
  function AfterSpin(s: State, t: Tid, lock: Spinlock.State): State {
    if Spinlock.PcOf(lock, t).Inside? && JobOf(s, t).Claiming? then
      s.(lock := lock, jobs := s.jobs[t := Pushing(JobOf(s, t).batch, 0)], partial := [])
    else s.(lock := lock)
  }

  function Apply(s: State, step: Step): State
    requires Enabled(s, step)
  {
    match step
    case Go(t, batch) => s.(lock := Spinlock.Apply(s.lock, t, Spinlock.Call), jobs := s.jobs[t := Claiming(batch)])
    case Spin(t, a) => AfterSpin(s, t, Spinlock.Apply(s.lock, t, a))
    case Read(t) => s.(jobs := s.jobs[t := Storing(!s.running, JobOf(s, t).batch, JobOf(s, t).n)])
    case Store(t) =>
      var Storing(que, batch, n) := JobOf(s, t);
      if n >= |batch| then s
      else SetQue(s, que, Que(s, que) + [batch[n]]).(
        jobs := s.jobs[t := Pushing(batch, n + 1)], partial := s.partial + [batch[n]])
    case Leave(t) =>
      s.(lock := Spinlock.Apply(s.lock, t, Spinlock.Unlock), jobs := s.jobs[t := Idle],
        done := s.done + s.partial, partial := [])
    case BeginDrain => s.(owner := Draining(s.running))
    case Pop => SetQue(s, s.owner.que, Que(s, s.owner.que)[1..])
    case SeeEmpty =>
      s.(lock := Spinlock.Apply(s.lock, LOOP, Spinlock.Call), owner := WantsFlip(s.owner.que))
    case Flip => s.(running := !s.owner.que, owner := Flipped(s.owner.que), done := [])
    case EndFlip => s.(lock := Spinlock.Apply(s.lock, LOOP, Spinlock.Unlock), owner := Elsewhere)
  }

  // ---- the invariant ----

  /** A thread's place in its call and its place in the lock agree; inside, it has pushed exactly `partial`. */
  predicate JobOk(s: State, t: Tid) {
    match JobOf(s, t)
    case Idle => t != LOOP ==> Spinlock.PcOf(s.lock, t).Outside?
    case Claiming(_) => t != LOOP && (Spinlock.PcOf(s.lock, t).AtCas? || Spinlock.PcOf(s.lock, t).AtReset?)
    case Pushing(batch, n) =>
      t != LOOP && Spinlock.PcOf(s.lock, t).Inside? && n <= |batch| && s.partial == batch[..n]
    case Storing(que, batch, n) =>
      t != LOOP && Spinlock.PcOf(s.lock, t).Inside? && n < |batch| && s.partial == batch[..n] && que == !s.running
  }

  predicate OwnerOk(s: State) {
    match s.owner
    case Elsewhere => Spinlock.PcOf(s.lock, LOOP).Outside?
    case Draining(que) => Spinlock.PcOf(s.lock, LOOP).Outside? && que == s.running
    case WantsFlip(que) => !Spinlock.PcOf(s.lock, LOOP).Outside? && que == s.running && Que(s, que) == []
    case Flipped(que) => Spinlock.PcOf(s.lock, LOOP).Inside? && que == !s.running && Que(s, que) == []
  }

  /** Outside every producer's critical section nothing is half pushed. */
  ghost predicate Inv(s: State) {
    && Spinlock.Exclusive(s.lock)
    && (forall t {:trigger JobOk(s, t)} :: JobOk(s, t))
    && OwnerOk(s)
    && Que(s, !s.running) == s.done + s.partial
    && (s.partial != [] ==> exists t {:trigger HasPushed(s, t)} :: HasPushed(s, t))
  }

  predicate HasPushed(s: State, t: Tid) {
    JobOf(s, t).Pushing? || JobOf(s, t).Storing?
  }

  // ---- the abstract queue ----

  /** What the loop may take now, and what complete calls have put up for later. */
  datatype View = View(running: seq<Addr>, adding: seq<Addr>)

  function Abs(s: State): View {
    View(Que(s, s.running), s.done)
  }

  /** The atomic operations, as module Scheduler performs them. */
  predicate AbstractStep(v: View, step: Step, batch: seq<Addr>, v': View) {
    match step
    case Leave(_) => v' == View(v.running, v.adding + batch)
    case Pop => v.running != [] && v' == View(v.running[1..], v.adding)
    case Flip => v.running == [] && v' == View(v.adding, [])
    case _ => v' == v
  }

  lemma InitialOk()
    ensures Inv(INITIAL) && Abs(INITIAL) == View([], [])
  {
  }

  lemma SpinlockStep(s: State, t: Tid, a: Spinlock.Action)
    requires Spinlock.Exclusive(s.lock) && Spinlock.Enabled(s.lock, t, a)
    ensures Spinlock.Exclusive(Spinlock.Apply(s.lock, t, a))
    ensures forall u :: u != t ==>
      Spinlock.PcOf(Spinlock.Apply(s.lock, t, a), u) == Spinlock.PcOf(s.lock, u)
    ensures Spinlock.PcOf(Spinlock.Apply(s.lock, t, a), t) == Spinlock.Apply(s.lock, t, a).pcs[t]
  {
    Spinlock.ActionKeepsExclusion(s.lock, t, a);
  }

  /** A thread inside the lock excludes every other. */
  lemma OneInside(s: State, t: Tid)
    requires Inv(s) && Spinlock.In(s.lock, t)
    ensures forall u :: u != t ==> !HasPushed(s, u)
    ensures !HasPushed(s, t) ==> s.partial == []
  {
    forall u | u != t ensures !HasPushed(s, u) {
      assert JobOk(s, u);
      assert Spinlock.In(s.lock, u) ==> u == t;
    }
  }

  /** Nothing is half pushed when nobody is inside. */
  lemma FreeMeansNoPartial(s: State)
    requires Inv(s) && s.lock.sem != 0
    ensures s.partial == [] && forall t :: !HasPushed(s, t)
  {
    forall t ensures !HasPushed(s, t) {
      assert JobOk(s, t);
      assert !Spinlock.In(s.lock, t);
    }
  }

  /** A half pushed batch stays its thread's while other threads step. */
  lemma PusherStays(s: State, s': State, t: Tid)
    requires s.partial != [] ==> exists u {:trigger HasPushed(s, u)} :: HasPushed(s, u)
    requires forall u :: u != t ==> JobOf(s', u) == JobOf(s, u)
    requires HasPushed(s, t) ==> HasPushed(s', t)
    ensures s.partial != [] ==> exists u {:trigger HasPushed(s', u)} :: HasPushed(s', u)
  {
    if s.partial != [] {
      var u :| HasPushed(s, u);
      assert HasPushed(s', u);
    }
  }

  /** A step of the thread `t` leaves the calls of the others as they are. */
  lemma OthersKeep(s: State, s': State, t: Tid)
    requires forall u {:trigger JobOk(s, u)} :: JobOk(s, u)
    requires forall u :: u != t ==>
      JobOf(s', u) == JobOf(s, u) && Spinlock.PcOf(s'.lock, u) == Spinlock.PcOf(s.lock, u)
    requires (s'.running == s.running && s'.partial == s.partial) || forall u :: u != t ==> !HasPushed(s, u)
    requires JobOk(s', t)
    ensures forall u {:trigger JobOk(s', u)} :: JobOk(s', u)
  {
    forall u ensures JobOk(s', u) {
      assert JobOk(s, u);
      assert u == t || !HasPushed(s, u) || (s'.running == s.running && s'.partial == s.partial);
    }
  }

  // ---- every step keeps the invariant and acts on the abstract queue atomically or not at all ----

  /** A step that leaves the queues, and what is half pushed, leaves the abstract queue. */
  ghost predicate SameQueues(s: State, s': State) {
    s'.que0 == s.que0 && s'.que1 == s.que1 && s'.running == s.running && s'.done == s.done && s'.partial == s.partial
  }

  lemma InvFrom(s: State, s': State)
    requires SameQueues(s, s') && Que(s, !s.running) == s.done + s.partial
    requires Spinlock.Exclusive(s'.lock) && OwnerOk(s') && forall t {:trigger JobOk(s', t)} :: JobOk(s', t)
    requires s'.partial != [] ==> exists t {:trigger HasPushed(s', t)} :: HasPushed(s', t)
    ensures Inv(s') && Abs(s') == Abs(s)
  {
  }

  lemma GoStep(s: State, t: Tid, batch: seq<Addr>)
    requires Inv(s) && Enabled(s, Go(t, batch))
    ensures Inv(Apply(s, Go(t, batch))) && Abs(Apply(s, Go(t, batch))) == Abs(s)
  {
    GoJobs(s, t, batch);
    PusherStays(s, Apply(s, Go(t, batch)), t);
    InvFrom(s, Apply(s, Go(t, batch)));
  }

  lemma GoJobs(s: State, t: Tid, batch: seq<Addr>)
    requires Enabled(s, Go(t, batch)) && Spinlock.Exclusive(s.lock) && OwnerOk(s)
    requires forall u {:trigger JobOk(s, u)} :: JobOk(s, u)
    ensures var s' := Apply(s, Go(t, batch));
      && Spinlock.Exclusive(s'.lock) && OwnerOk(s')
      && forall u {:trigger JobOk(s', u)} :: JobOk(s', u)
  {
    SpinlockStep(s, t, Spinlock.Call);
    OthersKeep(s, Apply(s, Go(t, batch)), t);
  }

  lemma SpinStep(s: State, t: Tid, a: Spinlock.Action)
    requires Inv(s) && Enabled(s, Spin(t, a))
    ensures Inv(Apply(s, Spin(t, a))) && Abs(Apply(s, Spin(t, a))) == Abs(s)
  {
    if s.lock.sem != 0 { FreeMeansNoPartial(s); }
    SpinJobs(s, t, a);
    PusherStays(s, Apply(s, Spin(t, a)), t);
    InvFrom(s, Apply(s, Spin(t, a)));
  }

  lemma SpinJobs(s: State, t: Tid, a: Spinlock.Action)
    requires Enabled(s, Spin(t, a)) && Spinlock.Exclusive(s.lock) && OwnerOk(s)
    requires forall u {:trigger JobOk(s, u)} :: JobOk(s, u)
    requires s.lock.sem != 0 ==> s.partial == []
    ensures var s' := Apply(s, Spin(t, a));
      && Spinlock.Exclusive(s'.lock) && OwnerOk(s')
      && SameQueues(s, s')
      && (forall u :: u != t ==> JobOf(s', u) == JobOf(s, u)) && !HasPushed(s, t)
      && forall u {:trigger JobOk(s', u)} :: JobOk(s', u)
  {
    SpinlockStep(s, t, a);
    assert JobOk(s, t) && Spinlock.ExpectsFree(s.lock, t);
    OthersKeep(s, Apply(s, Spin(t, a)), t);
  }

  lemma ReadStep(s: State, t: Tid)
    requires Inv(s) && Enabled(s, Read(t))
    ensures Inv(Apply(s, Read(t))) && Abs(Apply(s, Read(t))) == Abs(s)
  {
    ReadJobs(s, t);
    PusherStays(s, Apply(s, Read(t)), t);
    InvFrom(s, Apply(s, Read(t)));
  }

  lemma ReadJobs(s: State, t: Tid)
    requires Enabled(s, Read(t)) && OwnerOk(s)
    requires forall u {:trigger JobOk(s, u)} :: JobOk(s, u)
    ensures var s' := Apply(s, Read(t));
      && OwnerOk(s') && HasPushed(s', t)
      && (forall u :: u != t ==> JobOf(s', u) == JobOf(s, u))
      && forall u {:trigger JobOk(s', u)} :: JobOk(s', u)
  {
    assert JobOk(s, t);
    OthersKeep(s, Apply(s, Read(t)), t);
  }

  lemma StoreJobs(s: State, t: Tid)
    requires Enabled(s, Store(t)) && Spinlock.Exclusive(s.lock) && OwnerOk(s) && JobOf(s, t).que == !s.running
    requires forall u {:trigger JobOk(s, u)} :: JobOk(s, u)
    requires forall u :: u != t ==> !HasPushed(s, u)
    ensures var s' := Apply(s, Store(t));
      && Spinlock.Exclusive(s'.lock) && OwnerOk(s')
      && forall u {:trigger JobOk(s', u)} :: JobOk(s', u)
  {
    assert JobOk(s, t);
    assert Spinlock.In(s.lock, t);
    assert !Spinlock.In(s.lock, LOOP);
    OthersKeep(s, Apply(s, Store(t)), t);
  }

  lemma StoreStep(s: State, t: Tid)
    requires Inv(s) && Enabled(s, Store(t))
    ensures Inv(Apply(s, Store(t))) && Abs(Apply(s, Store(t))) == Abs(s)
  {
    assert JobOk(s, t);
    OneInside(s, t);
    StoreJobs(s, t);
    assert HasPushed(Apply(s, Store(t)), t);
    var a := JobOf(s, t).batch[JobOf(s, t).n];
    assert s.done + s.partial + [a] == s.done + (s.partial + [a]);
  }

  lemma LeaveStep(s: State, t: Tid)
    requires Inv(s) && Enabled(s, Leave(t))
    ensures Inv(Apply(s, Leave(t)))
    ensures AbstractStep(Abs(s), Leave(t), JobOf(s, t).batch, Abs(Apply(s, Leave(t))))
  {
    var s' := Apply(s, Leave(t));
    assert JobOk(s, t);
    OneInside(s, t);
    LeaveJobs(s, t);
  }

  lemma LeaveJobs(s: State, t: Tid)
    requires Enabled(s, Leave(t)) && Spinlock.Exclusive(s.lock) && t != LOOP && OwnerOk(s)
    requires forall u {:trigger JobOk(s, u)} :: JobOk(s, u)
    requires forall u :: u != t ==> !HasPushed(s, u)
    ensures var s' := Apply(s, Leave(t));
      && Spinlock.Exclusive(s'.lock) && OwnerOk(s')
      && forall u {:trigger JobOk(s', u)} :: JobOk(s', u)
  {
    SpinlockStep(s, t, Spinlock.Unlock);
    OthersKeep(s, Apply(s, Leave(t)), t);
  }

  lemma DrainStep(s: State, step: Step)
    requires Inv(s) && Enabled(s, step) && step in {BeginDrain, Pop, SeeEmpty}
    ensures Inv(Apply(s, step)) && AbstractStep(Abs(s), step, [], Abs(Apply(s, step)))
  {
    var s' := Apply(s, step);
    if step == SeeEmpty { SpinlockStep(s, LOOP, Spinlock.Call); }
    assert JobOk(s, LOOP);
    OthersKeep(s, s', LOOP);
    PusherStays(s, s', LOOP);
  }

  lemma FlipStep(s: State)
    requires Inv(s) && Enabled(s, Flip)
    ensures Inv(Apply(s, Flip)) && AbstractStep(Abs(s), Flip, [], Abs(Apply(s, Flip)))
  {
    assert JobOk(s, LOOP);
    OneInside(s, LOOP);
    OthersKeep(s, Apply(s, Flip), LOOP);
  }

  lemma EndFlipStep(s: State)
    requires Inv(s) && Enabled(s, EndFlip)
    ensures Inv(Apply(s, EndFlip)) && Abs(Apply(s, EndFlip)) == Abs(s)
  {
    assert JobOk(s, LOOP);
    OneInside(s, LOOP);
    EndFlipJobs(s);
    InvFrom(s, Apply(s, EndFlip));
  }

  lemma EndFlipJobs(s: State)
    requires Enabled(s, EndFlip) && Spinlock.Exclusive(s.lock) && OwnerOk(s)
    requires forall u {:trigger JobOk(s, u)} :: JobOk(s, u)
    ensures var s' := Apply(s, EndFlip);
      && Spinlock.Exclusive(s'.lock) && OwnerOk(s')
      && forall u {:trigger JobOk(s', u)} :: JobOk(s', u)
  {
    assert JobOk(s, LOOP);
    SpinlockStep(s, LOOP, Spinlock.Unlock);
    OthersKeep(s, Apply(s, EndFlip), LOOP);
  }

  /** What a completed call appended: all of its batch, in order, in one piece. */
  function Batch(s: State, step: Step): seq<Addr> {
    if step.Leave? && JobOf(s, step.t).Pushing? then JobOf(s, step.t).batch else []
  }

  /** The fine-grained queue refines the atomic pair. */
  lemma StepRefines(s: State, step: Step)
    requires Inv(s) && Enabled(s, step)
    ensures Inv(Apply(s, step)) && AbstractStep(Abs(s), step, Batch(s, step), Abs(Apply(s, step)))
  {
    match step
    case Go(t, batch) => GoStep(s, t, batch);
    case Spin(t, a) => SpinStep(s, t, a);
    case Read(t) => ReadStep(s, t);
    case Store(t) => StoreStep(s, t);
    case Leave(t) => LeaveStep(s, t);
    case Flip => FlipStep(s);
    case EndFlip => EndFlipStep(s);
    case _ => DrainStep(s, step);
  }

  /** The unlocked reads are safe: no producer stores into the queue that the loop is draining. */
  lemma NoProducerOnDrainedQueue(s: State, t: Tid)
    requires Inv(s) && s.owner.Draining? && Enabled(s, Store(t))
    ensures JobOf(s, t).que != s.owner.que
    ensures Que(Apply(s, Store(t)), s.owner.que) == Que(s, s.owner.que)
  {
    assert JobOk(s, t);
  }

  // ---- whoever is inside comes out ----

  function ThreadOf(step: Step): Tid {
    match step
    case Go(t, _) => t
    case Spin(t, _) => t
    case Read(t) => t
    case Store(t) => t
    case Leave(t) => t
    case _ => LOOP
  }

  /** How many of its own steps a thread inside the lock is away from its release. */
  function Left(s: State, t: Tid): int {
    if t == LOOP then
      match s.owner
      case WantsFlip(_) => 2
      case Flipped(_) => 1
      case _ => 0
    else
      match JobOf(s, t)
      case Pushing(batch, n) => 2 * (|batch| - n) + 1
      case Storing(_, batch, n) => 2 * (|batch| - n)
      case _ => 0
  }

  lemma InsideCountsDown(s: State, step: Step)
    requires JobOk(s, ThreadOf(step)) && OwnerOk(s) && Enabled(s, step) && Spinlock.In(s.lock, ThreadOf(step))
    ensures 0 <= Left(Apply(s, step), ThreadOf(step)) < Left(s, ThreadOf(step))
    ensures Left(Apply(s, step), ThreadOf(step)) == 0 <==> step.Leave? || step.EndFlip?
  {
  }

  /** Every step of the thread inside brings it closer to Leave or EndFlip, which are the releases. */
  lemma InsiderLeaves(s: State, step: Step)
    requires Inv(s) && Enabled(s, step) && Spinlock.In(s.lock, ThreadOf(step))
    ensures 0 <= Left(Apply(s, step), ThreadOf(step)) < Left(s, ThreadOf(step))
    ensures Left(Apply(s, step), ThreadOf(step)) == 0 <==> step.Leave? || step.EndFlip?
  {
    assert JobOk(s, ThreadOf(step));
    InsideCountsDown(s, step);
  }

  lemma InsideHasStep(s: State, t: Tid)
    requires JobOk(s, t) && OwnerOk(s) && Spinlock.In(s.lock, t)
    ensures exists step {:trigger Enabled(s, step)} :: ThreadOf(step) == t && Enabled(s, step) && !step.Spin?
  {
    var step :=
      if t == LOOP then (if s.owner.WantsFlip? then Flip else EndFlip)
      else if JobOf(s, t).Storing? then Store(t)
      else if JobOf(s, t).n < |JobOf(s, t).batch| then Read(t)
      else Leave(t);
    assert Enabled(s, step) && ThreadOf(step) == t;
  }

  /** It can always make one, and never has to spin for it. */
  lemma InsiderCanStep(s: State, t: Tid)
    requires Inv(s) && Spinlock.In(s.lock, t)
    ensures exists step {:trigger Enabled(s, step)} :: ThreadOf(step) == t && Enabled(s, step) && !step.Spin?
  {
    assert JobOk(s, t);
    InsideHasStep(s, t);
  }

  /** Other threads do not push it back. */
  lemma InsiderIsLeftAlone(s: State, step: Step, t: Tid)
    requires Enabled(s, step) && Spinlock.In(s.lock, t) && ThreadOf(step) != t
    ensures Left(Apply(s, step), t) == Left(s, t) && Spinlock.In(Apply(s, step).lock, t)
  {
  }

  // ---- whole runs ----

  ghost predicate Next(s: State, step: Step, s': State) {
    Enabled(s, step) && s' == Apply(s, step)
  }

  ghost predicate IsRun(states: seq<State>, steps: seq<Step>) {
    && |states| == |steps| + 1 && states[0] == INITIAL
    && forall i, j {:trigger Next(states[i], steps[i], states[j])} ::
      0 <= i < |steps| && j == i + 1 ==> Next(states[i], steps[i], states[j])
  }

  /** The batches of completed calls, in the order in which the calls completed. */
  function Appended(states: seq<State>, steps: seq<Step>, n: nat): seq<Addr>
    requires n <= |steps| <= |states|
  {
    if n == 0 then [] else Appended(states, steps, n - 1) + Batch(states[n - 1], steps[n - 1])
  }

  /** What a step takes from the queue being drained. */
  function Taken(s: State, step: Step): seq<Addr> {
    if step == Pop && s.owner.Draining? && Que(s, s.owner.que) != [] then [Que(s, s.owner.que)[0]] else []
  }

  function Popped(states: seq<State>, steps: seq<Step>, n: nat): seq<Addr>
    requires n <= |steps| <= |states|
  {
    if n == 0 then [] else Popped(states, steps, n - 1) + Taken(states[n - 1], steps[n - 1])
  }

  /** The thread is in a call for this batch. */
  predicate CallsFor(s: State, t: Tid, batch: seq<Addr>) {
    !JobOf(s, t).Idle? && JobOf(s, t).batch == batch
  }

  lemma {:induction false} CallKeepsBatch(
    states: seq<State>, steps: seq<Step>, t: Tid, batch: seq<Addr>, i: nat, j: nat)
    requires IsRun(states, steps) && i < j <= |steps| && steps[i] == Go(t, batch)
    requires forall k :: i < k < j ==> steps[k] != Leave(t)
    ensures CallsFor(states[j], t, batch)
  {
    assert Next(states[j - 1], steps[j - 1], states[j]);
    if i + 1 < j { CallKeepsBatch(states, steps, t, batch, i, j - 1); }
  }

  /** What a call appends when it leaves is what it was called with: nothing less, nothing else. */
  lemma CallAppendsItsBatch(states: seq<State>, steps: seq<Step>, t: Tid, batch: seq<Addr>, i: nat, j: nat)
    requires IsRun(states, steps) && i < j < |steps| && steps[i] == Go(t, batch) && steps[j] == Leave(t)
    requires forall k :: i < k < j ==> steps[k] != Leave(t)
    ensures Abs(states[j + 1]).running == Abs(states[j]).running
    ensures Abs(states[j + 1]).adding == Abs(states[j]).adding + batch
  {
    CallKeepsBatch(states, steps, t, batch, i, j);
    RunInv(states, steps, j);
    assert Next(states[j], steps[j], states[j + 1]);
    StepRefines(states[j], steps[j]);
  }

  function Content(v: View): seq<Addr> {
    v.running + v.adding
  }

  lemma AbstractIsFifo(v: View, step: Step, batch: seq<Addr>, v': View)
    requires AbstractStep(v, step, batch, v') && (!step.Leave? ==> batch == [])
    ensures Content(v) + batch == (if step == Pop then [v.running[0]] else []) + Content(v')
  {
  }

  lemma TakenIsHead(s: State, step: Step)
    requires OwnerOk(s) && Enabled(s, step)
    ensures Taken(s, step) == if step == Pop then [Abs(s).running[0]] else []
  {
  }

  /** A step appends at the tail, takes at the head, or leaves the content alone. */
  lemma StepIsFifo(s: State, step: Step, s': State)
    requires Inv(s) && Next(s, step, s')
    ensures Inv(s') && Content(Abs(s)) + Batch(s, step) == Taken(s, step) + Content(Abs(s'))
  {
    StepRefines(s, step);
    TakenIsHead(s, step);
    AbstractIsFifo(Abs(s), step, Batch(s, step), Abs(s'));
  }

  lemma {:induction false} RunInv(states: seq<State>, steps: seq<Step>, n: nat)
    requires IsRun(states, steps) && n <= |steps|
    ensures Inv(states[n])
  {
    if n == 0 {
      InitialOk();
    } else {
      RunInv(states, steps, n - 1);
      assert Next(states[n - 1], steps[n - 1], states[n]);
      StepIsFifo(states[n - 1], steps[n - 1], states[n]);
    }
  }

  lemma FifoAt(states: seq<State>, steps: seq<Step>, i: nat)
    requires IsRun(states, steps) && i < |steps|
    ensures Content(Abs(states[i])) + Batch(states[i], steps[i])
      == Taken(states[i], steps[i]) + Content(Abs(states[i + 1]))
  {
    RunInv(states, steps, i);
    assert Next(states[i], steps[i], states[i + 1]);
    StepIsFifo(states[i], steps[i], states[i + 1]);
  }

  lemma Regroup(popped: seq<Addr>, before: seq<Addr>, batch: seq<Addr>, taken: seq<Addr>, after: seq<Addr>)
    requires before + batch == taken + after
    ensures popped + before + batch == popped + taken + after
  {
    assert popped + before + batch == popped + (before + batch);
    assert popped + taken + after == popped + (taken + after);
  }

  /** Everything appended is taken once, in order: taken so far, running, adding, in this order. */
  lemma {:induction false} OneFifo(states: seq<State>, steps: seq<Step>, n: nat)
    requires IsRun(states, steps) && n <= |steps|
    ensures Appended(states, steps, n) == Popped(states, steps, n) + Content(Abs(states[n]))
  {
    if n > 0 {
      OneFifo(states, steps, n - 1);
      FifoAt(states, steps, n - 1);
      var s, step := states[n - 1], steps[n - 1];
      Regroup(Popped(states, steps, n - 1), Content(Abs(s)), Batch(s, step), Taken(s, step), Content(Abs(states[n])));
    }
  }

  // ---- the same queue as the object the loop works on ----

  /** The fields of Processor that make up the queue, and the methods that work on them (one thread's view). */
  class NewTaskQueues {
    var newCoroutines0: seq<Addr>
    var newCoroutines1: seq<Addr>
    var runningNewQue: bool

    function Queue(which: bool): seq<Addr> reads this {
      if which then newCoroutines1 else newCoroutines0
    }

    function Running(): seq<Addr> reads this {
      Queue(runningNewQue)
    }

    function Adding(): seq<Addr> reads this {
      Queue(!runningNewQue)
    }

    constructor ()
      ensures Running() == [] && Adding() == [] && !runningNewQue
    {
      newCoroutines0, newCoroutines1, runningNewQue := [], [], false;
    }

    method GoCo(co: Addr)
      modifies this
      ensures Running() == old(Running()) && Adding() == old(Adding()) + [co]
      ensures runningNewQue == old(runningNewQue)
    {
      if !runningNewQue {
        newCoroutines1 := newCoroutines1 + [co];
      } else {
        newCoroutines0 := newCoroutines0 + [co];
      }
    }

    method GoCoBatch(cos: seq<Addr>)
      modifies this
      ensures Running() == old(Running()) && Adding() == old(Adding()) + cos
      ensures runningNewQue == old(runningNewQue)
    {
      for i := 0 to |cos|
        invariant Running() == old(Running()) && Adding() == old(Adding()) + cos[..i]
        invariant runningNewQue == old(runningNewQue)
      {
        GoCo(cos[i]);
      }
    }

    /** While a resumed coroutine runs, it and other threads push what they like. */
    method Resume(co: Addr) returns (pushed: seq<Addr>)
      modifies this
      ensures Running() == old(Running()) && Adding() == old(Adding()) + pushed
      ensures runningNewQue == old(runningNewQue)
    {
      pushed := *;
      GoCoBatch(pushed);
    }

    /** front and pop, without the lock. */
    method Take(runningQue: bool) returns (newCo: Addr)
      requires runningQue == runningNewQue && Running() != []
      modifies this
      ensures [newCo] + Running() == old(Running()) && Adding() == old(Adding())
      ensures runningNewQue == old(runningNewQue)
    {
      newCo := Queue(runningQue)[0];
      if runningQue {
        newCoroutines1 := newCoroutines1[1..];
      } else {
        newCoroutines0 := newCoroutines0[1..];
      }
    }

    /**
     * The drain and flip of one loop iteration: it ends although resumed coroutines keep pushing,
     * resumes exactly what was in the running queue, in order, and leaves all that was pushed, before
     * or meanwhile, to the next drain.
     */
    method DrainAndFlip() returns (resumed: seq<Addr>, pushed: seq<Addr>)
      modifies this
      ensures resumed == old(Running())
      ensures Running() == old(Adding()) + pushed && Adding() == []
      ensures runningNewQue == !old(runningNewQue)
    {
      resumed, pushed := [], [];
      var runningQue := runningNewQue;
      while Queue(runningQue) != []
        invariant runningQue == runningNewQue == old(runningNewQue)
        invariant resumed + Running() == old(Running())
        invariant Adding() == old(Adding()) + pushed
        decreases |Running()|
      {
        var newCo := Take(runningQue);
        resumed := resumed + [newCo];
        var more := Resume(newCo);
        pushed := pushed + more;
      }
      runningNewQue := !runningQue;
    }
  }
}
