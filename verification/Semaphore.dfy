/** The waiting semaphore of sync/semaphore_inner.rs with the FIFO waker list of
    sync/wake_list.rs.  One step is one atomic operation on the permit word or
    one use of the locked waker list; `release_multi` keeps the list locked over
    several steps, because a waiter it has woken may run before it ends.
    The semaphore is not closed, queued futures are not dropped, and a queued
    future is polled again only after it was notified. */
module Semaphore {
  import opened Tally
  import Runs

  // The word holds the free permits shifted left by one; bit 0 is the closed
  // flag.  One permit is therefore 2 in the word.
  const MAX_PERMITS := 0x7FFF_FFFF_FFFF_FFFF

  /** Where a thread is in an operation on the semaphore. */
  datatype Proc =
    | Idle
    | Trying(curr: nat)      // try_acquire, holding the word it read
    | Starting               // poll_acquire, about to read the word
    | Checking(curr: nat)    // in the loop, not enqueued
    | Inserted               // enqueued, about to read the word again
    | Rechecking(curr: nat)  // in the loop, enqueued
    | GivingBack             // took a permit although enqueued, about to release it
    | Pending                // the poll returned Pending
    | Granted                // the poll returned Ready
    | Releasing              // release, about to lock the list
    | ReleasingMulti(n: nat) // release_multi, about to lock the list
    | Handing(n: nat)        // release_multi, list locked, n permits left

  /** `queue` is the waker list, `notified` the waiters taken off it and not yet
      polled again.  The last three fields count permits over the whole run. */
  datatype Sem = Sem(
    word: nat,
    locked: bool,
    queue: seq<nat>,
    notified: set<nat>,
    procs: seq<Proc>,
    initial: nat,
    released: nat,
    granted: nat)

  datatype Event =
    | TryAcquire(t: nat)
    | Acquire(t: nat)
    | Release(t: nat)
    | ReleaseMulti(t: nat, n: nat)
    | Finish(t: nat)
    | Go(t: nat)             // the next atomic step of a thread inside an operation

  ghost predicate Init(s: Sem) {
    && s.word == s.initial * 2 && !s.locked
    && s.initial < MAX_PERMITS
    && s.queue == [] && s.notified == {}
    && (forall t | 0 <= t < |s.procs| :: s.procs[t] == Idle)
    && s.released == 0 && s.granted == 0
  }

  /** Whether the next step of a thread needs the lock of the waker list. */
  predicate NeedsLock(p: Proc) {
    || (p.Checking? && p.curr < 2)
    || p.GivingBack? || p.Releasing? || p.ReleasingMulti?
  }

  predicate Enabled(s: Sem, e: Event) {
    && e.t < |s.procs|
    && var p := s.procs[e.t];
    match e
    case Go(t) =>
      && !p.Idle? && !p.Granted?
      && (p.Pending? ==> t in s.notified)
      && (NeedsLock(p) ==> !s.locked)
    case Finish(_) => p.Granted?
    case _ => p.Idle?
  }

  function Put(s: Sem, t: nat, p: Proc): Sem
    requires t < |s.procs|
  {
    s.(procs := s.procs[t := p])
  }

  /** `notify_one`: the waiter at the head of the list is taken off it and woken. */
  function NotifyOne(s: Sem): Sem
    requires s.queue != []
  {
    s.(queue := s.queue[1..], notified := s.notified + {s.queue[0]})
  }

  /** `release`, inside the list lock. */
  function ReleaseOne(s: Sem): Sem {
    if s.queue != [] then NotifyOne(s) else s.(word := s.word + 2)
  }

  /** The next atomic step of thread t. */
  function Advance(s: Sem, t: nat): Sem
    requires Enabled(s, Go(t))
  {
    match s.procs[t]
    case Trying(curr) =>
      if curr < 2 then Put(s, t, Idle)  // no permit; bit 0 alone would mean closed
      else if s.word == curr
      then Put(s.(word := Minus(curr), granted := s.granted + 1), t, Granted)
      else Put(s, t, Trying(s.word))
    case Starting => Put(s, t, Checking(s.word))
    case Checking(curr) =>
      if curr < 2 then Put(s.(queue := s.queue + [t]), t, Inserted)
      else if s.word == curr
      then Put(s.(word := Minus(curr), granted := s.granted + 1), t, Granted)
      else Put(s, t, Checking(s.word))
    case Inserted => Put(s, t, Rechecking(s.word))
    case Rechecking(curr) =>
      if curr < 2 then Put(s, t, Pending)
      else if s.word == curr then Put(s.(word := Minus(curr)), t, GivingBack)
      else Put(s, t, Rechecking(s.word))
    case GivingBack => Put(ReleaseOne(s), t, Pending)
    case Pending => Put(s.(notified := s.notified - {t}, granted := s.granted + 1), t, Granted)
    case Releasing => Put(ReleaseOne(s), t, Idle)
    case ReleasingMulti(n) => Put(s.(locked := true), t, Handing(n))
    case Handing(n) =>
      if n > 0 && s.queue != [] then Put(NotifyOne(s), t, Handing(n - 1))
      else Put(s.(word := s.word + n * 2, locked := false), t, Idle)
  }

  /** `curr - permit_num`; the guards keep it from wrapping. */
  function Minus(word: nat): nat { if word < 2 then 0 else word - 2 }

  function Step(s: Sem, e: Event): Sem
    requires Enabled(s, e)
  {
    match e
    case TryAcquire(t) => Put(s, t, Trying(s.word))
    case Acquire(t) => Put(s, t, Starting)
    case Release(t) => Put(s.(released := s.released + 1), t, Releasing)
    case ReleaseMulti(t, n) => Put(s.(released := s.released + n), t, ReleasingMulti(n))
    case Finish(t) => Put(s, t, Idle)
    case Go(t) => Advance(s, t)
  }

  ghost predicate Next(s: Sem, s': Sem) {
    exists e :: Enabled(s, e) && s' == Step(s, e)
  }

  // ----- what the invariants count -----

  predicate IsHanding(p: Proc) { p.Handing? }
  predicate IsGivingBack(p: Proc) { p.GivingBack? }

  /** Permits a thread has in hand on their way back to the semaphore. */
  function InHand(p: Proc): nat {
    match p
    case GivingBack => 1
    case Releasing => 1
    case ReleasingMulti(n) => n
    case Handing(n) => n
    case _ => 0
  }

  /** An enqueued thread that has not finished its second look at the word and
      did not find it empty. */
  predicate Looking(p: Proc) {
    p.Inserted? || (p.Rechecking? && p.curr >= 2) || p.GivingBack?
  }

  predicate Enqueued(p: Proc) {
    p.Inserted? || p.Rechecking? || p.GivingBack? || p.Pending?
  }

  /** `current_permits`. */
  function Free(s: Sem): nat { s.word / 2 }

  function Min(a: nat, b: nat): nat { if a < b then a else b }

  /** Each enqueued thread is in the list once, or notified, and not both. */
  ghost predicate QueueMatches(queue: seq<nat>, notified: set<nat>, procs: seq<Proc>) {
    && (forall i, j | 0 <= i < j < |queue| :: queue[i] != queue[j])
    && (forall t | t in queue :: t < |procs| && Enqueued(procs[t]) && t !in notified)
    && (forall t | t in notified :: t < |procs| && Enqueued(procs[t]))
    && (forall t | 0 <= t < |procs| && Enqueued(procs[t]) :: t in queue || t in notified)
  }

  /** Every permit there ever was is free, in hand, handed off or granted. */
  ghost predicate Conserved(s: Sem) {
    s.word + 2 * (Sum(s.procs, InHand) + |s.notified| + s.granted) == 2 * (s.initial + s.released)
  }

  /** As many queued waiters as there are permits they could have are matched by
      threads that are still looking. */
  ghost predicate NoneStranded(s: Sem) {
    && (|| s.word + 2 * Count(s.procs, IsGivingBack) <= 2 * Count(s.procs, Looking)
        || |s.queue| <= Count(s.procs, Looking))
    && Count(s.procs, IsGivingBack) <= Count(s.procs, Looking)
    && Count(s.procs, IsHanding) == One(s.locked)
  }

  ghost predicate Inv(s: Sem) {
    QueueMatches(s.queue, s.notified, s.procs) && Conserved(s) && NoneStranded(s)
  }

  lemma InitInv(s: Sem)
    requires Init(s)
    ensures Inv(s)
  {
    CountZero(s.procs, IsGivingBack);
    CountZero(s.procs, Looking);
    CountZero(s.procs, IsHanding);
    IdleSum(s.procs, |s.procs|);
  }

  lemma {:induction false} IdleSum(procs: seq<Proc>, n: nat)
    requires n <= |procs| && forall t | 0 <= t < n :: procs[t] == Idle
    ensures SumTo(procs, InHand, n) == 0
  {
    if n > 0 {
      IdleSum(procs, n - 1);
    }
  }

  // Queue and notifications, by what a step does to them.

  lemma PutKeepsQueue(queue: seq<nat>, notified: set<nat>, procs: seq<Proc>, t: nat, p: Proc)
    requires QueueMatches(queue, notified, procs) && t < |procs| && Enqueued(procs[t]) == Enqueued(p)
    ensures QueueMatches(queue, notified, procs[t := p])
  {
  }

  lemma NotifyKeepsQueue(queue: seq<nat>, notified: set<nat>, procs: seq<Proc>)
    requires QueueMatches(queue, notified, procs) && queue != []
    ensures QueueMatches(queue[1..], notified + {queue[0]}, procs)
    ensures queue[0] !in notified
  {
    assert queue == [queue[0]] + queue[1..];
    assert queue[0] in queue;
  }

  lemma EnqueueKeepsQueue(queue: seq<nat>, notified: set<nat>, procs: seq<Proc>, t: nat)
    requires QueueMatches(queue, notified, procs) && t < |procs| && !Enqueued(procs[t])
    ensures QueueMatches(queue + [t], notified, procs[t := Inserted])
  {
    assert t !in queue && t !in notified;
  }

  lemma RepollKeepsQueue(queue: seq<nat>, notified: set<nat>, procs: seq<Proc>, t: nat)
    requires QueueMatches(queue, notified, procs) && t in notified
    ensures t < |procs|
    ensures QueueMatches(queue, notified - {t}, procs[t := Granted])
  {
  }

  // Counts.

  /** What moving thread t to p does to the counts. */
  lemma Recount(procs: seq<Proc>, t: nat, p: Proc)
    requires t < |procs|
    ensures Count(procs[t := p], IsGivingBack) ==
            Count(procs, IsGivingBack) - One(IsGivingBack(procs[t])) + One(IsGivingBack(p))
    ensures Count(procs[t := p], Looking) == Count(procs, Looking) - One(Looking(procs[t])) + One(Looking(p))
    ensures Count(procs[t := p], IsHanding) == Count(procs, IsHanding) - One(IsHanding(procs[t])) + One(IsHanding(p))
    ensures Sum(procs[t := p], InHand) == Sum(procs, InHand) - InHand(procs[t]) + InHand(p)
    ensures Count(procs[t := p], IsGivingBack) <= Count(procs[t := p], Looking)
  {
    CountUpdate(procs, t, p, IsGivingBack);
    CountUpdate(procs, t, p, Looking);
    CountUpdate(procs, t, p, IsHanding);
    SumUpdate(procs, t, p, InHand);
    CountMono(procs[t := p], IsGivingBack, Looking);
  }

  /** What the count lemmas need to know of the queue. */
  ghost predicate CountsInv(s: Sem) {
    Conserved(s) && NoneStranded(s) && (s.queue != [] ==> s.queue[0] !in s.notified)
  }

  // One lemma for each place a thread can step from.

  lemma StartKeepsCounts(s: Sem, e: Event)
    requires CountsInv(s) && Enabled(s, e) && !e.Go?
    ensures Conserved(Step(s, e)) && NoneStranded(Step(s, e))
  {
    Recount(s.procs, e.t, Step(s, e).procs[e.t]);
  }

  lemma TryingKeepsCounts(s: Sem, t: nat)
    requires CountsInv(s) && Enabled(s, Go(t)) && (s.procs[t].Trying? || s.procs[t].Starting?)
    ensures Conserved(Advance(s, t)) && NoneStranded(Advance(s, t))
  {
    Recount(s.procs, t, Advance(s, t).procs[t]);
  }

  lemma CheckingKeepsCounts(s: Sem, t: nat)
    requires CountsInv(s) && Enabled(s, Go(t)) && s.procs[t].Checking?
    ensures Conserved(Advance(s, t)) && NoneStranded(Advance(s, t))
  {
    Recount(s.procs, t, Advance(s, t).procs[t]);
  }

  lemma RecheckingKeepsCounts(s: Sem, t: nat)
    requires CountsInv(s) && Enabled(s, Go(t)) && (s.procs[t].Inserted? || s.procs[t].Rechecking?)
    ensures Conserved(Advance(s, t)) && NoneStranded(Advance(s, t))
  {
    Recount(s.procs, t, Advance(s, t).procs[t]);
  }

  lemma PendingKeepsCounts(s: Sem, t: nat)
    requires CountsInv(s) && Enabled(s, Go(t)) && s.procs[t].Pending?
    ensures Conserved(Advance(s, t)) && NoneStranded(Advance(s, t))
  {
    Recount(s.procs, t, Granted);
  }

  lemma ReleasingKeepsCounts(s: Sem, t: nat)
    requires CountsInv(s) && Enabled(s, Go(t)) && (s.procs[t].GivingBack? || s.procs[t].Releasing?)
    ensures Conserved(Advance(s, t)) && NoneStranded(Advance(s, t))
  {
    Recount(s.procs, t, Advance(s, t).procs[t]);
  }

  lemma HandingKeepsCounts(s: Sem, t: nat)
    requires CountsInv(s) && Enabled(s, Go(t)) && (s.procs[t].ReleasingMulti? || s.procs[t].Handing?)
    ensures Conserved(Advance(s, t)) && NoneStranded(Advance(s, t))
  {
    Recount(s.procs, t, Advance(s, t).procs[t]);
    if s.procs[t].Handing? {
      CountHas(s.procs, t, IsHanding);
    }
  }

  lemma StepKeepsCounts(s: Sem, e: Event)
    requires CountsInv(s) && Enabled(s, e)
    ensures Conserved(Step(s, e)) && NoneStranded(Step(s, e))
  {
    if !e.Go? {
      StartKeepsCounts(s, e);
    } else {
      match s.procs[e.t]
      case Trying(_) => TryingKeepsCounts(s, e.t);
      case Starting => TryingKeepsCounts(s, e.t);
      case Checking(_) => CheckingKeepsCounts(s, e.t);
      case Inserted => RecheckingKeepsCounts(s, e.t);
      case Rechecking(_) => RecheckingKeepsCounts(s, e.t);
      case Pending => PendingKeepsCounts(s, e.t);
      case GivingBack => ReleasingKeepsCounts(s, e.t);
      case Releasing => ReleasingKeepsCounts(s, e.t);
      case _ => HandingKeepsCounts(s, e.t);
    }
  }

  lemma StepKeepsQueue(s: Sem, e: Event)
    requires QueueMatches(s.queue, s.notified, s.procs) && Enabled(s, e)
    ensures QueueMatches(Step(s, e).queue, Step(s, e).notified, Step(s, e).procs)
  {
    var p, p' := s.procs[e.t], Step(s, e).procs[e.t];
    if e.Go? && p.Pending? {
      RepollKeepsQueue(s.queue, s.notified, s.procs, e.t);
    } else if e.Go? && p.Checking? && p.curr < 2 {
      EnqueueKeepsQueue(s.queue, s.notified, s.procs, e.t);
    } else if Step(s, e).queue == s.queue {
      PutKeepsQueue(s.queue, s.notified, s.procs, e.t, p');
    } else {
      NotifyKeepsQueue(s.queue, s.notified, s.procs);
      PutKeepsQueue(s.queue[1..], s.notified + {s.queue[0]}, s.procs, e.t, p');
    }
  }

  lemma StepKeepsInv(s: Sem, e: Event)
    requires Inv(s) && Enabled(s, e)
    ensures Inv(Step(s, e))
  {
    if s.queue != [] {
      NotifyKeepsQueue(s.queue, s.notified, s.procs);
    }
    StepKeepsCounts(s, e);
    StepKeepsQueue(s, e);
  }

  lemma RunsKeepInv(run: seq<Sem>)
    requires Runs.IsRun(Init, Next, run)
    ensures forall i | 0 <= i < |run| :: Inv(run[i])
  {
    forall s | Init(s)
      ensures Inv(s)
    {
      InitInv(s);
    }
    forall s, s' | Inv(s) && Next(s, s')
      ensures Inv(s')
    {
      var e :| Enabled(s, e) && s' == Step(s, e);
      StepKeepsInv(s, e);
    }
    Runs.Invariance(Init, Next, Inv, run);
  }

  // ----- the theorems -----

  /** In every run: free, in-hand, handed-off and granted permits add up to the
      initial permits plus everything released. */
  lemma PermitsConserved(run: seq<Sem>, i: nat)
    requires Runs.IsRun(Init, Next, run) && i < |run|
    ensures Free(run[i]) + Sum(run[i].procs, InHand) + |run[i].notified| + run[i].granted ==
            run[i].initial + run[i].released
  {
    RunsKeepInv(run);
  }

  /** In every run the free permits that queued waiters could take never
      outnumber the threads still between enqueueing themselves and the end of
      their second look; so when no thread is there, no waiter is queued beside
      a free permit. */
  lemma NoWaiterStranded(run: seq<Sem>, i: nat)
    requires Runs.IsRun(Init, Next, run) && i < |run|
    ensures Min(Free(run[i]), |run[i].queue|) <= Count(run[i].procs, Looking)
    ensures (forall t | 0 <= t < |run[i].procs| :: !Looking(run[i].procs[t])) ==>
              Free(run[i]) == 0 || run[i].queue == []
  {
    RunsKeepInv(run);
    CountZero(run[i].procs, Looking);
  }

  /** Thread t is about to add permits to the word and then assert that it was
      below the capacity; `release_multi` does so with nothing left to add, too. */
  predicate Asserts(s: Sem, t: nat) {
    && t < |s.procs|
    && match s.procs[t]
       case Releasing => !s.locked && s.queue == []
       case GivingBack => !s.locked && s.queue == []
       case Handing(n) => n == 0 || s.queue == []
       case _ => false
  }

  /** In every run whose permits stay within the capacity, the overflow assertion
      holds unless the capacity is reached, every permit is free, and the thread
      has nothing to add; the sum fits a 64-bit word. */
  lemma NoOverflow(run: seq<Sem>, i: nat, t: nat)
    requires Runs.IsRun(Init, Next, run) && i < |run| && Asserts(run[i], t)
    requires run[i].initial + run[i].released <= MAX_PERMITS
    ensures InHand(run[i].procs[t]) > 0 ==> Free(run[i]) < MAX_PERMITS
    ensures Free(run[i]) < MAX_PERMITS <==>
              || run[i].initial + run[i].released < MAX_PERMITS
              || Sum(run[i].procs, InHand) + |run[i].notified| + run[i].granted > 0
    ensures run[i].word + 2 * InHand(run[i].procs[t]) < 0x1_0000_0000_0000_0000
  {
    RunsKeepInv(run);
    SumUpdate(run[i].procs, t, Idle, InHand);
  }

  lemma Take(run: seq<Sem>, s: Sem, e: Event) returns (longer: seq<Sem>, s': Sem)
    requires Runs.IsRun(Init, Next, run) && run[|run| - 1] == s && Enabled(s, e)
    ensures Runs.IsRun(Init, Next, longer) && longer[|longer| - 1] == s'
    ensures s' == Step(s, e)
  {
    s' := Step(s, e);
    assert Next(s, s');
    Runs.Extend(Init, Next, run, s');
    longer := run + [s'];
  }

  /** One release fills the semaphore, and then a release of no permits meets an
      assertion that fails. */
  lemma ReleaseOfNoneFails() returns (run: seq<Sem>, s: Sem)
    ensures Runs.IsRun(Init, Next, run) && run[|run| - 1] == s
    ensures s.initial + s.released == MAX_PERMITS && s.procs == [Handing(0)] && Asserts(s, 0)
    ensures Free(s) == MAX_PERMITS
  {
    s := Sem(2 * (MAX_PERMITS - 1), false, [], {}, [Idle], MAX_PERMITS - 1, 0, 0);
    run := [s];
    run, s := Take(run, s, Release(0));
    run, s := Take(run, s, Go(0));
    run, s := Take(run, s, ReleaseMulti(0, 0));
    run, s := Take(run, s, Go(0));
  }

  /** A point of a run with at most `most` permits in all where thread t runs the
      assertion. */
  ghost predicate AssertsIn(most: nat, run: seq<Sem>, i: nat, t: nat) {
    Runs.IsRun(Init, Next, run) && i < |run| && run[i].initial + run[i].released <= most && Asserts(run[i], t)
  }

  /** The overflow assertion holds in all runs with at most `most` permits in all
      exactly when that is below the capacity. */
  lemma OverflowAssertedIff(most: nat)
    ensures (forall run: seq<Sem>, i: nat, t: nat | AssertsIn(most, run, i, t) :: Free(run[i]) < MAX_PERMITS)
            <==> most < MAX_PERMITS
  {
    if most < MAX_PERMITS {
      forall run: seq<Sem>, i: nat, t: nat | AssertsIn(most, run, i, t)
        ensures Free(run[i]) < MAX_PERMITS
      {
        NoOverflow(run, i, t);
      }
    } else {
      var run, s := ReleaseOfNoneFails();
      assert AssertsIn(most, run, |run| - 1, 0);
    }
  }

  /** In every run each thread whose poll is waiting is in the list exactly
      once or was notified; no notification goes to anyone else. */
  lemma WaitersQueuedOnce(run: seq<Sem>, i: nat, t: nat)
    requires Runs.IsRun(Init, Next, run) && i < |run| && t < |run[i].procs|
    ensures Enqueued(run[i].procs[t]) <==> t in run[i].queue || t in run[i].notified
    ensures !(t in run[i].queue && t in run[i].notified)
    ensures multiset(run[i].queue)[t] <= 1
  {
    RunsKeepInv(run);
    DistinctOnce(run[i].queue, t);
  }

  lemma {:induction false} DistinctOnce(queue: seq<nat>, t: nat)
    requires forall i, j | 0 <= i < j < |queue| :: queue[i] != queue[j]
    ensures multiset(queue)[t] <= 1
  {
    if queue != [] {
      assert queue == [queue[0]] + queue[1..];
      DistinctOnce(queue[1..], t);
      if queue[0] == t {
        assert t !in queue[1..];
      }
    }
  }

  // ----- the list lock's critical sections on the mutable structure -----

  class SemaphoreInner {
    var permits: nat
    var wakerList: seq<nat>

    constructor (n: nat)
      ensures permits == 2 * n && wakerList == []
    {
      permits, wakerList := 2 * n, [];
    }

    /** `notify_one` of the list: reports whether there was a waiter to wake. */
    method NotifyFirst() returns (woke: bool, waiter: nat)
      modifies this`wakerList
      ensures woke == (old(wakerList) != [])
      ensures woke ==> [waiter] + wakerList == old(wakerList)
      ensures !woke ==> wakerList == []
    {
      woke, waiter := wakerList != [], 0;
      if woke {
        waiter := wakerList[0];
        wakerList := wakerList[1..];
      }
    }

    /** A release wakes the oldest waiter or else leaves one more permit. */
    method Release() returns (woken: seq<nat>)
      modifies this
      ensures woken + wakerList == old(wakerList) && |woken| == Min(1, |old(wakerList)|)
      ensures permits + 2 * |woken| == old(permits) + 2
    {
      woken := [];
      var woke, waiter := NotifyFirst();
      if woke {
        woken := [waiter];
      } else {
        permits := permits + 2;
      }
    }

    /** The oldest waiters are woken, one a permit, and only the permits left
        over go into the word. */
    method ReleaseMulti(n: nat) returns (woken: seq<nat>)
      modifies this
      ensures woken + wakerList == old(wakerList) && |woken| == Min(n, |old(wakerList)|)
      ensures permits + 2 * |woken| == old(permits) + 2 * n
    {
      woken := [];
      var left := n;
      while left > 0 && wakerList != []
        invariant woken + wakerList == old(wakerList) && |woken| + left == n
        invariant permits == old(permits)
      {
        var _, waiter := NotifyFirst();
        woken := woken + [waiter];
        left := left - 1;
      }
      permits := permits + 2 * left;
    }
  }

  // ----- the counting semaphore this implements -----

  datatype Status = Out | Waiting | Holding

  /** A plain counting semaphore: a number of permits, how many were released so
      far, and what each thread is doing about one. */
  datatype Spec = Spec(avail: nat, released: nat, status: seq<Status>)

  function StatusOf(p: Proc, notified: bool): Status {
    if p.Granted? || (Enqueued(p) && notified) then Holding
    else if p.Starting? || p.Checking? || Enqueued(p) then Waiting
    else Out
  }

  ghost function StatusSeq(procs: seq<Proc>, notified: set<nat>): seq<Status> {
    seq(|procs|, t requires 0 <= t < |procs| => StatusOf(procs[t], t in notified))
  }

  ghost function Abs(s: Sem): Spec {
    Spec(Free(s) + Sum(s.procs, InHand), s.released, StatusSeq(s.procs, s.notified))
  }

  /** A thread asks, is granted a permit, finishes, or permits are released; only
      a release adds permits, and exactly those released. */
  ghost predicate SpecNext(a: Spec, a': Spec) {
    || (a'.released == a.released && a'.avail == a.avail && QuietMove(a.status, a'.status))
    || (a'.released == a.released && a.avail > 0 && a'.avail == a.avail - 1 && GrantMove(a.status, a'.status))
    || (a'.released >= a.released && a'.avail == a.avail + (a'.released - a.released) && a'.status == a.status)
  }

  ghost predicate QuietMove(st: seq<Status>, st': seq<Status>) {
    || st' == st
    || (exists t :: Moved(st, st', t, Out, Waiting))
    || (exists t :: Moved(st, st', t, Holding, Out))
  }

  ghost predicate GrantMove(st: seq<Status>, st': seq<Status>) {
    || (exists t :: Moved(st, st', t, Waiting, Holding))
    || (exists t :: Moved(st, st', t, Out, Holding))
  }

  ghost predicate Moved(st: seq<Status>, st': seq<Status>, t: nat, from: Status, to: Status) {
    t < |st| && st[t] == from && st' == st[t := to]
  }

  lemma StatusPut(procs: seq<Proc>, notified: set<nat>, t: nat, p: Proc)
    requires t < |procs|
    ensures StatusSeq(procs[t := p], notified) == StatusSeq(procs, notified)[t := StatusOf(p, t in notified)]
  {
  }

  lemma StatusSame(procs: seq<Proc>, notified: set<nat>, t: nat, p: Proc)
    requires t < |procs| && StatusOf(procs[t], t in notified) == StatusOf(p, t in notified)
    ensures StatusSeq(procs[t := p], notified) == StatusSeq(procs, notified)
  {
  }

  lemma StatusNotify(procs: seq<Proc>, notified: set<nat>, h: nat)
    requires h < |procs| && Enqueued(procs[h]) && h !in notified
    ensures Moved(StatusSeq(procs, notified), StatusSeq(procs, notified + {h}), h, Waiting, Holding)
  {
    assert StatusSeq(procs, notified + {h}) == StatusSeq(procs, notified)[h := Holding];
  }

  lemma StatusRepoll(procs: seq<Proc>, notified: set<nat>, t: nat)
    requires t < |procs| && Enqueued(procs[t]) && t in notified
    ensures StatusSeq(procs[t := Granted], notified - {t}) == StatusSeq(procs, notified)
  {
  }

  /** The permits of the specification are what is not handed off or granted. */
  lemma AvailIs(s: Sem)
    requires Conserved(s)
    ensures Abs(s).avail == s.initial + s.released - |s.notified| - s.granted
  {
  }

  /** What the refinement lemmas need to know of the queue. */
  ghost predicate Fits(s: Sem, t: nat) {
    && t < |s.procs| && (t in s.notified ==> Enqueued(s.procs[t]))
    && (s.queue != [] ==>
          s.queue[0] < |s.procs| && Enqueued(s.procs[s.queue[0]]) && s.queue[0] !in s.notified)
  }

  /** Permits handed to a waiter or taken so far. */
  function HandedOut(s: Sem): nat { |s.notified| + s.granted }

  lemma StartStatus(s: Sem, e: Event)
    requires Enabled(s, e) && !e.Go? && Fits(s, e.t)
    ensures QuietMove(StatusSeq(s.procs, s.notified), StatusSeq(Step(s, e).procs, Step(s, e).notified))
    ensures e.Release? || e.ReleaseMulti? ==>
      StatusSeq(s.procs, s.notified) == StatusSeq(Step(s, e).procs, Step(s, e).notified)
  {
    var st, t := StatusSeq(s.procs, s.notified), e.t;
    StatusPut(s.procs, s.notified, t, Step(s, e).procs[t]);
    if e.Acquire? {
      assert Moved(st, st[t := Waiting], t, Out, Waiting);
    } else if e.Finish? {
      assert Moved(st, st[t := Out], t, Holding, Out);
    }
  }

  /** Steps of a thread outside the list: it may take a permit for itself. */
  lemma TakeStatus(s: Sem, t: nat)
    requires Enabled(s, Go(t)) && Fits(s, t)
    requires s.procs[t].Trying? || s.procs[t].Starting? || s.procs[t].Checking?
    ensures var st, st' := StatusSeq(s.procs, s.notified), StatusSeq(Advance(s, t).procs, Advance(s, t).notified);
      if Advance(s, t).procs[t].Granted?
      then GrantMove(st, st') && HandedOut(Advance(s, t)) == HandedOut(s) + 1
      else st == st' && HandedOut(Advance(s, t)) == HandedOut(s)
  {
    var st, p' := StatusSeq(s.procs, s.notified), Advance(s, t).procs[t];
    StatusPut(s.procs, s.notified, t, p');
    if p'.Granted? {
      assert Moved(st, st[t := Holding], t, if s.procs[t].Trying? then Out else Waiting, Holding);
    }
  }

  /** Steps of a thread in the list: none of them is visible. */
  lemma EnqueuedStatus(s: Sem, t: nat)
    requires Enabled(s, Go(t)) && Fits(s, t)
    requires s.procs[t].Inserted? || s.procs[t].Rechecking?
    ensures StatusSeq(Advance(s, t).procs, Advance(s, t).notified) == StatusSeq(s.procs, s.notified)
    ensures HandedOut(Advance(s, t)) == HandedOut(s)
  {
    StatusPut(s.procs, s.notified, t, Advance(s, t).procs[t]);
  }

  lemma RepollStatus(s: Sem, t: nat)
    requires Enabled(s, Go(t)) && Fits(s, t) && s.procs[t].Pending?
    ensures StatusSeq(Advance(s, t).procs, Advance(s, t).notified) == StatusSeq(s.procs, s.notified)
    ensures HandedOut(Advance(s, t)) == HandedOut(s)
  {
    StatusRepoll(s.procs, s.notified, t);
  }

  /** Steps of a releasing thread: it may grant a permit to the head of the list. */
  lemma ReleaseStatus(s: Sem, t: nat)
    requires Enabled(s, Go(t)) && Fits(s, t)
    requires s.procs[t].GivingBack? || s.procs[t].Releasing? || s.procs[t].ReleasingMulti? || s.procs[t].Handing?
    ensures var st, st' := StatusSeq(s.procs, s.notified), StatusSeq(Advance(s, t).procs, Advance(s, t).notified);
      if Advance(s, t).queue == s.queue
      then st == st' && HandedOut(Advance(s, t)) == HandedOut(s)
      else GrantMove(st, st') && HandedOut(Advance(s, t)) == HandedOut(s) + 1
  {
    var s' := Advance(s, t);
    StatusSame(s.procs, s'.notified, t, s'.procs[t]);
    if s'.queue != s.queue {
      StatusNotify(s.procs, s.notified, s.queue[0]);
    }
  }

  /** A status move and the permits it goes with. */
  ghost predicate Matched(s: Sem, s': Sem) {
    var st, st' := StatusSeq(s.procs, s.notified), StatusSeq(s'.procs, s'.notified);
    && s'.initial == s.initial
    && (|| (s'.released == s.released && HandedOut(s') == HandedOut(s) && QuietMove(st, st'))
        || (s'.released == s.released && HandedOut(s') == HandedOut(s) + 1 && GrantMove(st, st'))
        || (s'.released >= s.released && HandedOut(s') == HandedOut(s) && st' == st))
  }

  lemma MatchedRefines(s: Sem, s': Sem)
    requires Matched(s, s') && Conserved(s) && Conserved(s')
    ensures SpecNext(Abs(s), Abs(s'))
  {
    AvailIs(s);
    AvailIs(s');
  }

  lemma StepMatched(s: Sem, e: Event)
    requires Enabled(s, e) && Fits(s, e.t)
    ensures Matched(s, Step(s, e))
  {
    if !e.Go? {
      StartStatus(s, e);
    } else {
      match s.procs[e.t]
      case Trying(_) => TakeStatus(s, e.t);
      case Starting => TakeStatus(s, e.t);
      case Checking(_) => TakeStatus(s, e.t);
      case Inserted => EnqueuedStatus(s, e.t);
      case Rechecking(_) => EnqueuedStatus(s, e.t);
      case Pending => RepollStatus(s, e.t);
      case _ => ReleaseStatus(s, e.t);
    }
  }

  /** Every step of the implementation is a step of the counting semaphore, or
      none: a permit in the word, in hand or being given back is available, and
      a waiter holds one from the moment it is notified. */
  lemma RefinesCounting(run: seq<Sem>, i: nat)
    requires Runs.IsRun(Init, Next, run) && 0 < i < |run|
    ensures SpecNext(Abs(run[i - 1]), Abs(run[i]))
  {
    RunsKeepInv(run);
    var s, s' := run[i - 1], run[i];
    assert Next(s, s') && Inv(s) && Inv(s');
    var e :| Enabled(s, e) && s' == Step(s, e);
    if s.queue != [] {
      assert s.queue[0] in s.queue;
    }
    StepMatched(s, e);
    MatchedRefines(s, s');
  }
}
