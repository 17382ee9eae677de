/** The writer-preferring reader-writer lock of sync/rwlock.rs.
    One step is one atomic operation on `read_count` or `read_wait`, or one
    operation on a semaphore.  The three semaphores are the counting semaphores
    that module Semaphore shows the waiting semaphore to implement: acquiring
    waits for a permit and takes it, releasing adds permits.  A permit that is
    being released counts as available there, so `try_write` may be refused it.
    Futures are not dropped while they wait. */
module RwLock {
  import opened Tally
  import Runs

  /** `i64::MAX >> 2`. */
  const MAX_READS := 0x1FFF_FFFF_FFFF_FFFF

  datatype Thread =
    | Idle
    | ReadBlocked               // read: saw a writer, waiting on read_sem
    | TryingRead(curr: int)     // try_read: holding the count it read
    | Reading                   // a read guard
    | Unlocking                 // unlock: saw a writer, about to lower read_wait
    | WakingWriter              // unlock: was the last one, about to release write_sem
    | WriteQueued               // write: waiting on write_mutex
    | Announcing                // write: about to subtract MAX_READS
    | Announced(readers: nat)   // write: about to add the readers to read_wait
    | WriteBlocked              // write: waiting on write_sem
    | Writing                   // a write guard
    | WakingReaders(n: nat)     // write drop: about to release read_sem n times
    | Unlatching                // write drop: about to release write_mutex
    | TryingWrite               // try_write: has write_mutex, about to compare-exchange
    | Withdrawing               // try_write: failed, about to release write_mutex

  /** `maxReads` is the constant MAX_READS, whose size plays no part in the steps.
      The fields after `threads` are history: how often a writer went to wait
      and how often `write_sem` was released, and, since the last writer
      announced itself, the readers it counted, those of them already reading,
      and the readers that got their guard afterwards. */
  datatype Lock = Lock(
    maxReads: nat,
    readCount: int,
    readWait: int,
    readSem: nat,
    writeSem: nat,
    writeMutex: nat,
    threads: seq<Thread>,
    waits: nat,
    wakes: nat,
    counted: nat,
    active: nat,
    passed: nat)

  datatype Event =
    | Read(t: nat)
    | TryRead(t: nat)
    | Write(t: nat)
    | TryWrite(t: nat, refused: bool)
    | Drop(t: nat)              // a guard is dropped
    | Go(t: nat)                // the next step of a thread inside an operation

  ghost predicate Init(l: Lock) {
    && l.readCount == 0 && l.readWait == 0
    && l.readSem == 0 && l.writeSem == 0 && l.writeMutex == 1
    && |l.threads| < l.maxReads == MAX_READS
    && (forall t | 0 <= t < |l.threads| :: l.threads[t] == Idle)
    && l.waits == 0 && l.wakes == 0 && l.counted == 0 && l.active == 0 && l.passed == 0
  }

  /** Whether a thread at th can take part in the event, given the semaphores. */
  predicate Allowed(l: Lock, e: Event, th: Thread) {
    match e
    case Drop(_) => th.Reading? || th.Writing?
    case Go(_) =>
      && !th.Idle? && !th.Reading? && !th.Writing?
      && (th.ReadBlocked? ==> l.readSem > 0)
      && (th.WriteBlocked? ==> l.writeSem > 0)
      && (th.WriteQueued? ==> l.writeMutex > 0)
    case _ => th.Idle?
  }

  predicate Enabled(l: Lock, e: Event) {
    e.t < |l.threads| && Allowed(l, e, l.threads[e.t])
  }

  function Put(l: Lock, t: nat, th: Thread): Lock
    requires t < |l.threads|
  {
    l.(threads := l.threads[t := th])
  }

  predicate IsReading(th: Thread) { th.Reading? }
  predicate IsReadBlocked(th: Thread) { th.ReadBlocked? }
  predicate IsUnlocking(th: Thread) { th.Unlocking? }
  predicate IsWakingWriter(th: Thread) { th.WakingWriter? }
  predicate IsAnnounced(th: Thread) { th.Announced? }
  predicate IsWriteBlocked(th: Thread) { th.WriteBlocked? }
  predicate IsWriting(th: Thread) { th.Writing? }
  predicate IsWakingReaders(th: Thread) { th.WakingReaders? }

  /** Threads that hold `write_mutex` but have not announced themselves, or no
      longer are announced, and are not handing out read permits. */
  predicate IsLatched(th: Thread) {
    th.Announcing? || th.Unlatching? || th.TryingWrite? || th.Withdrawing?
  }

  predicate WriterPresent(l: Lock) {
    exists t | 0 <= t < |l.threads| ::
      l.threads[t].Announced? || l.threads[t].WriteBlocked? || l.threads[t].Writing?
  }

  /** `read_count as usize`. */
  function AsUsize(n: int): nat {
    if n >= 0 then n else if n + 0x1_0000_0000_0000_0000 >= 0 then n + 0x1_0000_0000_0000_0000 else 0
  }

  /** A thread gets a read guard, by whichever way; under an announced writer that
      is counted. */
  function Entered(l: Lock, writer: bool): (Lock, Thread) {
    (l.(passed := if writer then l.passed + 1 else l.passed), Reading)
  }

  /** What the next step of a thread at th does to the lock, threads aside, and
      where it leaves the thread; `writer` says whether one is announced and
      `reading` how many read guards there are. */
  function Advance(l: Lock, th: Thread, writer: bool, reading: nat): (Lock, Thread)
    requires Allowed(l, Go(0), th)
  {
    match th
    case ReadBlocked => Entered(l.(readSem := l.readSem - 1), writer)
    case TryingRead(curr) =>
      if curr < 0 then (l, Idle)
      else if l.readCount == curr then Entered(l.(readCount := curr + 1), writer)
      else (l, TryingRead(l.readCount))
    case Unlocking => (l.(readWait := l.readWait - 1), if l.readWait == 1 then WakingWriter else Idle)
    case WakingWriter => (l.(writeSem := l.writeSem + 1, wakes := l.wakes + 1), Idle)
    case WriteQueued => (l.(writeMutex := l.writeMutex - 1), Announcing)
    case Announcing =>
      (l.(readCount := l.readCount - l.maxReads, counted := AsUsize(l.readCount), active := reading, passed := 0),
       if l.readCount >= 0 then Announced(l.readCount) else Writing)
    case Announced(readers) =>
      var added := l.(readWait := l.readWait + readers);
      if added.readWait != 0 then (added.(waits := l.waits + 1), WriteBlocked) else (added, Writing)
    case WriteBlocked => (l.(writeSem := l.writeSem - 1), Writing)
    case WakingReaders(n) => (l.(readSem := l.readSem + n), Unlatching)
    case Unlatching => (l.(writeMutex := l.writeMutex + 1), Idle)
    case TryingWrite =>
      if l.readCount == 0
      then (l.(readCount := 0 - l.maxReads, counted := 0, active := reading, passed := 0), Writing)
      else (l, Withdrawing)
    case Withdrawing => (l.(writeMutex := l.writeMutex + 1), Idle)
  }

  function Move(l: Lock, e: Event, th: Thread, writer: bool, reading: nat): (Lock, Thread)
    requires Allowed(l, e, th)
  {
    match e
    case Read(_) =>
      var counted := l.(readCount := l.readCount + 1);
      if l.readCount < 0 then (counted, ReadBlocked) else Entered(counted, writer)
    case TryRead(_) => (l, TryingRead(l.readCount))
    case Write(_) => (l, WriteQueued)
    case TryWrite(_, refused) =>
      if l.writeMutex > 0 && !refused then (l.(writeMutex := l.writeMutex - 1), TryingWrite) else (l, Idle)
    case Drop(_) =>
      if th.Reading? then (l.(readCount := l.readCount - 1), if l.readCount < 0 then Unlocking else Idle)
      else
        var readers := l.readCount + l.maxReads;
        (l.(readCount := readers), WakingReaders(AsUsize(readers)))
    case Go(_) => Advance(l, th, writer, reading)
  }

  function Step(l: Lock, e: Event): Lock
    requires Enabled(l, e)
  {
    var (l', th) := Move(l, e, l.threads[e.t], WriterPresent(l), Count(l.threads, IsReading));
    Put(l', e.t, th)
  }

  ghost predicate Next(l: Lock, l': Lock) {
    exists e :: Enabled(l, e) && l' == Step(l, e)
  }

  // ----- the counting invariant -----

  function SavedBy(th: Thread): nat { if th.Announced? then th.readers else 0 }
  function OwedBy(th: Thread): nat { if th.WakingReaders? then th.n else 0 }

  /** How many threads are where, and the readers saved by an announced writer
      and owed by one that has just left. */
  datatype Census = Census(
    reading: int,
    readBlocked: int,
    unlocking: int,
    wakingWriter: int,
    announced: int,
    writeBlocked: int,
    writing: int,
    wakingReaders: int,
    latched: int,
    saved: int,
    owed: int)

  function CensusOf(threads: seq<Thread>): Census {
    Census(Count(threads, IsReading), Count(threads, IsReadBlocked), Count(threads, IsUnlocking),
           Count(threads, IsWakingWriter), Count(threads, IsAnnounced), Count(threads, IsWriteBlocked),
           Count(threads, IsWriting), Count(threads, IsWakingReaders), Count(threads, IsLatched),
           Sum(threads, SavedBy), Sum(threads, OwedBy))
  }

  /** The announced writers: there is at most one. */
  function Writers(c: Census): int { c.announced + c.writeBlocked + c.writing }

  ghost predicate Balanced(l: Lock, c: Census) {
    // write_mutex is free or has one holder
    && l.writeMutex + Writers(c) + c.wakingReaders + c.latched == 1
    && c.reading + c.readBlocked < l.maxReads && c.saved < l.maxReads
    && (c.announced == 0 ==> c.saved == 0)
    && (c.wakingReaders == 0 ==> c.owed == 0)
    // read_count counts reading and blocked readers, biased while a writer is announced
    && l.readCount == c.reading + c.readBlocked - (if Writers(c) == 1 then l.maxReads else 0)
    && (Writers(c) == 0 ==>
          l.readWait == 0 && c.unlocking == 0 && c.wakingWriter == 0 && l.writeSem == 0 &&
          c.readBlocked == l.readSem + c.owed)
    // the readers an announced writer has still to wait for
    && (Writers(c) == 1 ==>
          c.reading + l.readSem + c.unlocking == l.readWait + c.saved && l.readSem <= c.readBlocked)
    && (c.announced == 1 ==> l.readWait <= 0 && l.writeSem == 0 && c.wakingWriter == 0)
    && (c.writeBlocked == 1 ==> l.readWait >= 0 && l.writeSem + c.wakingWriter == One(l.readWait == 0))
    && (c.writing == 1 ==> l.readWait == 0 && l.writeSem == 0 && c.wakingWriter == 0)
  }

  /** `write_sem` is released once for each wait, and the readers that pass an
      announced writer are among those it counted. */
  ghost predicate Recorded(l: Lock, c: Census) {
    && l.waits + l.writeSem == l.wakes + c.writeBlocked
    && (Writers(c) == 1 ==> l.passed + l.readSem + l.active == l.counted)
  }

  /** The invariant, of the words and a census. */
  ghost predicate Kept(l: Lock, c: Census) { Balanced(l, c) && Recorded(l, c) }

  ghost predicate Inv(l: Lock) { |l.threads| < l.maxReads && Kept(l, CensusOf(l.threads)) }

  /** What a census is known to be. */
  ghost predicate Plain(c: Census, threads: nat) {
    && c.reading >= 0 && c.readBlocked >= 0 && c.unlocking >= 0 && c.wakingWriter >= 0
    && c.announced >= 0 && c.writeBlocked >= 0 && c.writing >= 0 && c.wakingReaders >= 0 && c.latched >= 0
    && c.saved >= 0 && c.owed >= 0
    && (c.announced == 0 ==> c.saved == 0)
    && (c.wakingReaders == 0 ==> c.owed == 0)
    && c.reading + c.readBlocked <= threads
  }

  lemma CensusPlain(threads: seq<Thread>)
    ensures Plain(CensusOf(threads), |threads|)
  {
    if Count(threads, IsAnnounced) == 0 {
      SumZero(threads, SavedBy, IsAnnounced);
    }
    if Count(threads, IsWakingReaders) == 0 {
      SumZero(threads, OwedBy, IsWakingReaders);
    }
    CountToDisjoint(threads, IsReading, IsReadBlocked, |threads|);
  }

  /** The census after one thread has moved. */
  function Shift(c: Census, was: Thread, th: Thread): Census {
    Census(c.reading - One(was.Reading?) + One(th.Reading?),
           c.readBlocked - One(was.ReadBlocked?) + One(th.ReadBlocked?),
           c.unlocking - One(was.Unlocking?) + One(th.Unlocking?),
           c.wakingWriter - One(was.WakingWriter?) + One(th.WakingWriter?),
           c.announced - One(was.Announced?) + One(th.Announced?),
           c.writeBlocked - One(was.WriteBlocked?) + One(th.WriteBlocked?),
           c.writing - One(was.Writing?) + One(th.Writing?),
           c.wakingReaders - One(was.WakingReaders?) + One(th.WakingReaders?),
           c.latched - One(IsLatched(was)) + One(IsLatched(th)),
           c.saved - SavedBy(was) + SavedBy(th),
           c.owed - OwedBy(was) + OwedBy(th))
  }

  lemma Recensus(threads: seq<Thread>, t: nat, th: Thread)
    requires t < |threads|
    ensures CensusOf(threads[t := th]) == Shift(CensusOf(threads), threads[t], th)
  {
    CountUpdate(threads, t, th, IsReading);
    CountUpdate(threads, t, th, IsReadBlocked);
    CountUpdate(threads, t, th, IsUnlocking);
    CountUpdate(threads, t, th, IsWakingWriter);
    CountUpdate(threads, t, th, IsAnnounced);
    CountUpdate(threads, t, th, IsWriteBlocked);
    CountUpdate(threads, t, th, IsWriting);
    CountUpdate(threads, t, th, IsWakingReaders);
    CountUpdate(threads, t, th, IsLatched);
    SumUpdate(threads, t, th, SavedBy);
    SumUpdate(threads, t, th, OwedBy);
  }

  lemma WriterPresentIff(l: Lock)
    ensures WriterPresent(l) <==> Writers(CensusOf(l.threads)) > 0
  {
    CountZero(l.threads, IsAnnounced);
    CountZero(l.threads, IsWriteBlocked);
    CountZero(l.threads, IsWriting);
  }

  /** A move that keeps the census plain keeps the invariant: first the reader's
      moves, then the writer's, then the calls. */
  lemma ReaderKeeps(l: Lock, c: Census, th: Thread, threads: nat)
    requires Kept(l, c) && Plain(c, threads) && threads < l.maxReads && Allowed(l, Go(0), th)
    requires th.ReadBlocked? || th.TryingRead? || th.Unlocking? || th.WakingWriter?
    requires Plain(Shift(c, th, Advance(l, th, Writers(c) > 0, c.reading).1), threads)
    ensures var (l', th') := Advance(l, th, Writers(c) > 0, c.reading); Kept(l', Shift(c, th, th'))
  {
  }

  predicate Entering(th: Thread) { th.WriteQueued? || th.Announcing? || th.Announced? || th.WriteBlocked? }

  lemma EnteringKeeps(l: Lock, c: Census, th: Thread, threads: nat)
    requires Kept(l, c) && Plain(c, threads) && threads < l.maxReads && Allowed(l, Go(0), th) && Entering(th)
    requires Plain(Shift(c, th, Advance(l, th, Writers(c) > 0, c.reading).1), threads)
    ensures var (l', th') := Advance(l, th, Writers(c) > 0, c.reading); Kept(l', Shift(c, th, th'))
  {
  }

  lemma WriterKeeps(l: Lock, c: Census, th: Thread, threads: nat)
    requires Kept(l, c) && Plain(c, threads) && threads < l.maxReads && Allowed(l, Go(0), th)
    requires th.WakingReaders? || th.Unlatching? || th.TryingWrite? || th.Withdrawing?
    requires Plain(Shift(c, th, Advance(l, th, Writers(c) > 0, c.reading).1), threads)
    ensures var (l', th') := Advance(l, th, Writers(c) > 0, c.reading); Kept(l', Shift(c, th, th'))
  {
  }

  lemma CallKeeps(l: Lock, c: Census, e: Event, th: Thread, threads: nat)
    requires Kept(l, c) && Plain(c, threads) && threads < l.maxReads && Allowed(l, e, th) && !e.Go?
    requires Plain(Shift(c, th, Move(l, e, th, Writers(c) > 0, c.reading).1), threads)
    ensures var (l', th') := Move(l, e, th, Writers(c) > 0, c.reading); Kept(l', Shift(c, th, th'))
  {
  }

  lemma MoveKeeps(l: Lock, c: Census, e: Event, th: Thread, threads: nat)
    requires Kept(l, c) && Plain(c, threads) && threads < l.maxReads && Allowed(l, e, th)
    requires Plain(Shift(c, th, Move(l, e, th, Writers(c) > 0, c.reading).1), threads)
    ensures var (l', th') := Move(l, e, th, Writers(c) > 0, c.reading); Kept(l', Shift(c, th, th'))
  {
    if !e.Go? {
      CallKeeps(l, c, e, th, threads);
    } else if th.ReadBlocked? || th.TryingRead? || th.Unlocking? || th.WakingWriter? {
      ReaderKeeps(l, c, th, threads);
    } else if Entering(th) {
      EnteringKeeps(l, c, th, threads);
    } else {
      WriterKeeps(l, c, th, threads);
    }
  }

  /** A step in which one thread moves to th, the census going from c to c'. */
  ghost predicate Moves(l: Lock, l': Lock, e: Event, c: Census, c': Census, th: Thread) {
    && Enabled(l, e) && c' == Shift(c, l.threads[e.t], th) && l'.maxReads == l.maxReads && c.reading >= 0
    && var m := Move(l, e, l.threads[e.t], Writers(c) > 0, c.reading);
    m.1 == th && l' == m.0.(threads := l.threads[e.t := th])
  }

  lemma MovesKept(l: Lock, l': Lock, e: Event, c: Census, c': Census, th: Thread, threads: nat)
    requires Moves(l, l', e, c, c', th) && Kept(l, c)
    requires Plain(c, threads) && Plain(c', threads) && threads < l.maxReads
    ensures Kept(l', c')
  {
    MoveKeeps(l, c, e, l.threads[e.t], threads);
  }

  lemma StepMoves(l: Lock, e: Event) returns (th: Thread)
    requires Enabled(l, e)
    ensures Moves(l, Step(l, e), e, CensusOf(l.threads), CensusOf(Step(l, e).threads), th)
    ensures |Step(l, e).threads| == |l.threads|
  {
    WriterPresentIff(l);
    var m := Move(l, e, l.threads[e.t], WriterPresent(l), Count(l.threads, IsReading));
    th := m.1;
    assert m.0.threads == l.threads;
    Recensus(l.threads, e.t, th);
  }

  lemma StepKeepsInv(l: Lock, e: Event)
    requires Inv(l) && Enabled(l, e)
    ensures Inv(Step(l, e))
  {
    var l' := Step(l, e);
    var th := StepMoves(l, e);
    CensusPlain(l.threads);
    CensusPlain(l'.threads);
    MovesKept(l, l', e, CensusOf(l.threads), CensusOf(l'.threads), th, |l.threads|);
  }

  lemma InitInv(l: Lock)
    requires Init(l)
    ensures Inv(l)
  {
    CountZero(l.threads, IsReading);
    CountZero(l.threads, IsReadBlocked);
    CountZero(l.threads, IsUnlocking);
    CountZero(l.threads, IsWakingWriter);
    CountZero(l.threads, IsAnnounced);
    CountZero(l.threads, IsWriteBlocked);
    CountZero(l.threads, IsWriting);
    CountZero(l.threads, IsWakingReaders);
    CountZero(l.threads, IsLatched);
    SumZero(l.threads, SavedBy, IsAnnounced);
    SumZero(l.threads, OwedBy, IsWakingReaders);
  }

  lemma RunsKeepInv(run: seq<Lock>)
    requires Runs.IsRun(Init, Next, run)
    ensures forall i | 0 <= i < |run| :: Inv(run[i])
  {
    forall l | Init(l)
      ensures Inv(l)
    {
      InitInv(l);
    }
    forall l, l' | Inv(l) && Next(l, l')
      ensures Inv(l')
    {
      var e :| Enabled(l, e) && l' == Step(l, e);
      StepKeepsInv(l, e);
    }
    Runs.Invariance(Init, Next, Inv, run);
  }

  // ----- the theorems -----

  /** In every run a write guard excludes every other guard. */
  lemma MutualExclusion(run: seq<Lock>, i: nat, t: nat, u: nat)
    requires Runs.IsRun(Init, Next, run) && i < |run|
    requires t < |run[i].threads| && u < |run[i].threads| && t != u
    requires run[i].threads[t].Writing?
    ensures !run[i].threads[u].Writing? && !run[i].threads[u].Reading?
  {
    RunsKeepInv(run);
    var threads := run[i].threads;
    CountHas(threads, t, IsWriting);
    if threads[u].Reading? {
      CountHas(threads, u, IsReading);
    }
    if threads[u].Writing? {
      CountUnique(threads, t, u, IsWriting);
    }
  }

  /** In every run, while a writer is announced, the readers it must wait for
      (those reading, those holding a read permit they have not used, and those
      between their two decrements) number exactly `read_wait`, plus the count
      the writer saved if it has not added it yet. */
  lemma ReadersOwed(run: seq<Lock>, i: nat, t: nat)
    requires Runs.IsRun(Init, Next, run) && i < |run| && t < |run[i].threads|
    requires run[i].threads[t].Announced? || run[i].threads[t].WriteBlocked?
    ensures Count(run[i].threads, IsReading) + run[i].readSem + Count(run[i].threads, IsUnlocking) ==
            run[i].readWait + SavedBy(run[i].threads[t])
  {
    RunsKeepInv(run);
    var threads := run[i].threads;
    SumUpdate(threads, t, Idle, SavedBy);
    CountUpdate(threads, t, Idle, IsAnnounced);
    CountUpdate(threads, t, Idle, IsWriteBlocked);
    CensusPlain(threads[t := Idle]);
  }

  /** In every run `write_sem` has been released exactly once for each writer
      that went to wait and came back, at most once for the one waiting now,
      and never for a writer that did not wait. */
  lemma WakeupsExact(run: seq<Lock>, i: nat)
    requires Runs.IsRun(Init, Next, run) && i < |run|
    ensures run[i].waits + run[i].writeSem == run[i].wakes + Count(run[i].threads, IsWriteBlocked)
    ensures run[i].writeSem <= Count(run[i].threads, IsWriteBlocked) <= 1
    ensures Count(run[i].threads, IsWriteBlocked) == 0 ==> run[i].waits == run[i].wakes
  {
    RunsKeepInv(run);
  }

  /** In every run the readers that get their guard after a writer has
      announced itself are among those it counted and were not yet reading. */
  lemma WriterNotPassed(run: seq<Lock>, i: nat, t: nat)
    requires Runs.IsRun(Init, Next, run) && i < |run| && t < |run[i].threads|
    requires run[i].threads[t].Announced? || run[i].threads[t].WriteBlocked? || run[i].threads[t].Writing?
    ensures run[i].active + run[i].passed <= run[i].counted
  {
    RunsKeepInv(run);
    WriterPresentIff(run[i]);
    assert WriterPresent(run[i]);
  }

  lemma {:induction false} MaxReadsFixed(run: seq<Lock>, i: nat)
    requires Runs.IsRun(Init, Next, run) && i < |run|
    ensures run[i].maxReads == MAX_READS
  {
    if i > 0 {
      MaxReadsFixed(run, i - 1);
      assert Next(run[i - 1], run[i]);
    }
  }

  /** In every run the counters stay far inside the range of an i64, and the
      count `write`'s drop casts to usize is not negative. */
  lemma CountersInRange(run: seq<Lock>, i: nat)
    requires Runs.IsRun(Init, Next, run) && i < |run|
    ensures -MAX_READS <= run[i].readCount < MAX_READS
    ensures -MAX_READS < run[i].readWait < 3 * MAX_READS
    ensures forall t | 0 <= t < |run[i].threads| && run[i].threads[t].Writing? :: run[i].readCount + MAX_READS >= 0
    ensures forall t | 0 <= t < |run[i].threads| && run[i].threads[t].Announcing? :: run[i].readCount >= 0
  {
    RunsKeepInv(run);
    MaxReadsFixed(run, i);
    var threads := run[i].threads;
    CountBound(threads, IsUnlocking);
    forall t | 0 <= t < |threads| && threads[t].Announcing?
      ensures Count(threads, IsLatched) >= 1
    {
      CountHas(threads, t, IsLatched);
    }
  }

  /** A thread that can go on by itself: it is inside an operation and its
      semaphore, if it waits on one, has a permit; or it holds a guard. */
  ghost predicate CanGo(l: Lock, e: Event) {
    (e.Go? || e.Drop?) && Enabled(l, e)
  }

  predicate IsActive(th: Thread) {
    !th.Idle? && !th.ReadBlocked? && !th.WriteQueued? && !th.WriteBlocked?
  }

  /** In every run, if some operation is unfinished or some guard is held, some
      thread can go on.  So with no guard held and no thread able to go on,
      nobody is blocked. */
  lemma NobodyBlocked(run: seq<Lock>, i: nat, t: nat)
    requires Runs.IsRun(Init, Next, run) && i < |run|
    requires t < |run[i].threads| && !run[i].threads[t].Idle?
    ensures exists e :: CanGo(run[i], e)
  {
    RunsKeepInv(run);
    var l := run[i];
    if Count(l.threads, IsActive) > 0 {
      var u := CountFind(l.threads, IsActive);
      if l.threads[u].Reading? || l.threads[u].Writing? {
        assert CanGo(l, Drop(u));
      } else {
        assert CanGo(l, Go(u));
      }
    } else {
      WaitersCanGo(l, t);
    }
  }

  lemma OnlyWaitersCounted(threads: seq<Thread>)
    requires Count(threads, IsActive) == 0
    ensures var c := CensusOf(threads);
      c.reading == c.unlocking == c.wakingWriter == c.announced == c.writing == c.wakingReaders == c.latched == 0
  {
    CountMono(threads, IsReading, IsActive);
    CountMono(threads, IsUnlocking, IsActive);
    CountMono(threads, IsWakingWriter, IsActive);
    CountMono(threads, IsAnnounced, IsActive);
    CountMono(threads, IsWriting, IsActive);
    CountMono(threads, IsWakingReaders, IsActive);
    CountMono(threads, IsLatched, IsActive);
  }

  /** With only waiters left: a read permit has a blocked reader, a blocked
      writer without one has its own, and otherwise the mutex is free. */
  lemma WaitersSupplied(l: Lock)
    requires Inv(l) && Count(l.threads, IsActive) == 0
    ensures l.readSem > 0 ==> Count(l.threads, IsReadBlocked) > 0
    ensures l.readSem == 0 && Count(l.threads, IsWriteBlocked) > 0 ==> l.writeSem > 0
    ensures l.readSem == 0 && Count(l.threads, IsWriteBlocked) == 0 ==>
              Count(l.threads, IsReadBlocked) == 0 && l.writeMutex > 0
  {
    OnlyWaitersCounted(l.threads);
  }

  lemma WaitersCanGo(l: Lock, t: nat)
    requires Inv(l) && Count(l.threads, IsActive) == 0
    requires t < |l.threads| && !l.threads[t].Idle?
    ensures exists e :: CanGo(l, e)
  {
    WaitersSupplied(l);
    if l.readSem > 0 {
      var u := CountFind(l.threads, IsReadBlocked);
      assert CanGo(l, Go(u));
    } else if Count(l.threads, IsWriteBlocked) > 0 {
      var u := CountFind(l.threads, IsWriteBlocked);
      assert CanGo(l, Go(u));
    } else {
      CountZero(l.threads, IsActive);
      CountZero(l.threads, IsReadBlocked);
      CountZero(l.threads, IsWriteBlocked);
      assert l.threads[t].WriteQueued?;
      assert CanGo(l, Go(t));
    }
  }

  /** How many steps a thread has at most before it, retries aside. */
  function Weight(th: Thread): nat {
    match th
    case Idle => 0
    case WakingWriter => 1
    case Withdrawing => 1
    case Unlocking => 2
    case Reading => 3
    case ReadBlocked => 4
    case TryingRead(_) => 4
    case Unlatching => 1
    case WakingReaders(_) => 2
    case Writing => 3
    case WriteBlocked => 4
    case Announced(_) => 5
    case Announcing => 6
    case TryingWrite => 4
    case WriteQueued => 7
  }

  /** A thread in `try_read` whose compare-exchange is bound to fail. */
  function Stale(readCount: int): Thread -> bool {
    (th: Thread) => th.TryingRead? && th.curr != readCount
  }

  function WorkLeft(l: Lock): nat {
    Sum(l.threads, Weight) * (|l.threads| + 1) + Count(l.threads, Stale(l.readCount))
  }

  lemma Lexicographic(w: nat, w': nat, n: nat, k: nat, k': nat)
    requires w' < w && k' <= n
    ensures w' * (n + 1) + k' < w * (n + 1) + k
  {
    assert w * (n + 1) >= (w' + 1) * (n + 1) == w' * (n + 1) + (n + 1);
  }

  /** Every step but a new call uses up work. */
  lemma StepUsesWork(l: Lock, e: Event)
    requires CanGo(l, e)
    ensures WorkLeft(Step(l, e)) < WorkLeft(l)
  {
    var l' := Step(l, e);
    var was, th := l.threads[e.t], l'.threads[e.t];
    SumUpdate(l.threads, e.t, th, Weight);
    CountBound(l'.threads, Stale(l'.readCount));
    if Weight(th) < Weight(was) {
      Lexicographic(Sum(l.threads, Weight), Sum(l'.threads, Weight), |l.threads|,
                    Count(l.threads, Stale(l.readCount)), Count(l'.threads, Stale(l'.readCount)));
    } else {
      assert was.TryingRead? && th == TryingRead(l.readCount) && l'.readCount == l.readCount;
      CountUpdate(l.threads, e.t, th, Stale(l.readCount));
    }
  }

  /** A step that is not a new call. */
  ghost predicate Continues(l: Lock, l': Lock) {
    exists e :: CanGo(l, e) && l' == Step(l, e)
  }

  /** In every run, once no new calls are made, only a bounded number of steps
      follows; by NobodyBlocked they end with every thread idle. */
  lemma CallsFinish(run: seq<Lock>, i: nat, j: nat)
    requires Runs.IsRun(Init, Next, run) && i <= j < |run|
    requires forall k | i < k <= j :: Continues(run[k - 1], run[k])
    ensures (j - i) + WorkLeft(run[j]) <= WorkLeft(run[i])
  {
    forall k | i < k <= j
      ensures WorkLeft(run[k]) < WorkLeft(run[k - 1])
    {
      assert Continues(run[k - 1], run[k]);
      var e :| CanGo(run[k - 1], e) && run[k] == Step(run[k - 1], e);
      StepUsesWork(run[k - 1], e);
    }
    Runs.Descent(WorkLeft, run, i, j);
  }
}
