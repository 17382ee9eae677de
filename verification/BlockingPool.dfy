/** The blocking thread pool of executor/blocking_pool.rs.
    One step is one critical section of the pool mutex: from taking the lock to
    releasing it or to going to sleep on the condition variable.  A thread comes
    out of the condition variable when a notify picks it, on a timeout or
    spuriously; it goes on once it has the lock again.  A notify picks any one
    of the threads still inside and is lost when there is none.
    Counters are unbounded; the program's are bytes, and a run past the first
    overflow of one, where the program panics or wraps, is not its run. */
module BlockingPool {
  import opened Tally
  import Runs

  type Task = nat

  /** The fields of `Shared` that the protocol reads and writes. */
  datatype Shared = Shared(
    queue: seq<Task>,
    total: int,
    idle: int,
    notify: int,
    permanent: int,
    handles: seq<nat>)

  /** Where a worker thread is.  Starting and Running threads come back for the
      lock at the top of the loop in `run`; the two waits are the two condition
      variable waits inside `wait`, with `woken` once the thread is out of the
      condition variable and on its way to the lock. */
  datatype Worker =
    | Starting
    | Running(task: Task)
    | WaitPermanent(woken: bool)
    | WaitTemporary(woken: bool)
    | Exited

  /** What `spawn` does for a task besides queueing it: `notify_one`, create a
      thread, or leave the task to the busy threads. */
  datatype Answer = Notify | Create | LeaveToBusy

  // ----- the critical sections, as functions of the shared fields -----

  /** The head of the loop in `wait`: sleep as a permanent thread while there
      is room for one, otherwise with a timeout. */
  function Settle(sh: Shared, maxPermanent: nat): (Shared, Worker) {
    if sh.permanent < maxPermanent
    then (sh.(permanent := sh.permanent + 1), WaitPermanent(false))
    else (sh, WaitTemporary(false))
  }

  /** The loop of `run`: take the oldest task, or become idle and wait. */
  function TakeOrWait(sh: Shared, maxPermanent: nat): (Shared, Worker) {
    if sh.queue != []
    then (sh.(queue := sh.queue[1..]), Running(sh.queue[0]))
    else Settle(sh.(idle := sh.idle + 1), maxPermanent)
  }

  function WakePermanent(sh: Shared, maxPermanent: nat): (Shared, Worker) {
    var awake := sh.(permanent := sh.permanent - 1);
    if awake.notify != 0
    then TakeOrWait(awake.(notify := awake.notify - 1), maxPermanent)
    else Settle(awake, maxPermanent)
  }

  function WakeTemporary(sh: Shared, maxPermanent: nat, worker: nat, timedOut: bool): (Shared, Worker) {
    if sh.notify != 0
    then TakeOrWait(sh.(notify := sh.notify - 1), maxPermanent)
    else if timedOut
    then (sh.(total := sh.total - 1, idle := sh.idle - 1, handles := Without(sh.handles, worker)), Exited)
    else Settle(sh, maxPermanent)
  }

  /** `worker_threads` without the first entry of the given worker. */
  function Without(handles: seq<nat>, worker: nat): (r: seq<nat>)
    ensures worker !in handles ==> r == handles
  {
    if handles == [] then []
    else if handles[0] == worker then handles[1..]
    else [handles[0]] + Without(handles[1..], worker)
  }

  /** `spawn`: queue the task, then wake an idle thread, or leave it to the
      busy ones when the pool is at its maximum, or create a thread. */
  function Submit(sh: Shared, maxThreads: nat, task: Task, newId: nat): (Shared, Answer) {
    var queued := sh.(queue := sh.queue + [task]);
    if queued.idle != 0
    then (queued.(idle := queued.idle - 1, notify := queued.notify + 1), Notify)
    else if queued.total == maxThreads
    then (queued, LeaveToBusy)
    else (queued.(total := queued.total + 1, handles := queued.handles + [newId]), Create)
  }

  // ----- the same sections on the mutable structure -----

  /** `inPermanent`, `inTemporary` and `busy` are the threads in either wait and
      the others, `woken` those of the waiting ones that are out of the condition
      variable; `Valid` is what holds whenever the lock is free. */
  class PoolShared {
    var queue: seq<Task>
    var total: int
    var idle: int
    var notify: int
    var permanent: int
    var workerThreads: seq<nat>
    var workerId: nat
    const maxThreads: nat
    const maxPermanent: nat
    ghost var inPermanent: nat
    ghost var inTemporary: nat
    ghost var busy: nat
    ghost var woken: nat

    ghost function View(): Shared
      reads this
    {
      Shared(queue, total, idle, notify, permanent, workerThreads)
    }

    /** The counters, with `leaving` threads still counted as idle that are no
        longer waiting.  No notification waits for a thread nobody woke. */
    ghost predicate Counted(leaving: nat)
      reads this
    {
      && idle >= 0 && notify >= 0 && idle + notify == inPermanent + inTemporary + leaving
      && permanent == inPermanent <= maxPermanent
      && total == inPermanent + inTemporary + busy
      && (inTemporary > 0 ==> inPermanent + busy >= maxPermanent)
      && notify <= woken <= inPermanent + inTemporary
    }

    /** No thread idles past a queued task, but for `taking` of them that a
        thread holding the lock is about to take. */
    ghost predicate Conserving(taking: nat)
      reads this
    {
      (idle > 0 ==> |queue| <= notify + taking) && (queue != [] ==> total > 0)
    }

    ghost predicate Valid()
      reads this
    {
      Counted(0) && Conserving(0)
    }

    /** Where the thread that held the lock has gone, from being busy. */
    twostate predicate Gone(next: Worker)
      reads this
    {
      && woken == old(woken)
      && inPermanent == old(inPermanent) + One(next.WaitPermanent?)
      && inTemporary == old(inTemporary) + One(next.WaitTemporary?)
      && busy == old(busy) - One(next.WaitPermanent? || next.WaitTemporary?)
    }

    constructor (maxThreads: nat, maxPermanent: nat)
      ensures Valid() && View() == Shared([], 0, 0, 0, 0, []) && workerId == 0
      ensures this.maxThreads == maxThreads && this.maxPermanent == maxPermanent
    {
      this.maxThreads, this.maxPermanent := maxThreads, maxPermanent;
      queue, total, idle, notify, permanent, workerThreads, workerId := [], 0, 0, 0, 0, [], 0;
      inPermanent, inTemporary, busy, woken := 0, 0, 0, 0;
    }

    /** The loop of `create_permanent_threads`, every thread creation succeeding. */
    method CreatePermanentThreads()
      requires Valid()
      modifies this
      ensures Valid() && busy == old(busy) + maxPermanent
      ensures View() == old(View()).(total := old(total) + maxPermanent,
                                     handles := old(workerThreads) + seq(maxPermanent, i => old(workerId) + i))
      ensures workerId == old(workerId) + maxPermanent
    {
      ghost var ids := seq(maxPermanent, i => old(workerId) + i);
      for k := 0 to maxPermanent
        invariant Valid() && busy == old(busy) + k
        invariant View() == old(View()).(total := old(total) + k, handles := old(workerThreads) + ids[..k])
        invariant workerId == old(workerId) + k
      {
        assert ids[..k + 1] == ids[..k] + [workerId];
        total := total + 1;
        workerThreads := workerThreads + [workerId];
        workerId := workerId + 1;
        busy := busy + 1;
      }
    }

    /** `condvar.notify_one`: one more waiting thread is on its way, if any is
        still inside. */
    method NotifyOne()
      modifies this`woken
      ensures woken == old(woken) + One(old(woken) < inPermanent + inTemporary)
    {
      woken := woken + One(woken < inPermanent + inTemporary);
    }

    /** A waiting thread comes out by itself, on a timeout or spuriously. */
    method ComeOut()
      requires Valid() && woken < inPermanent + inTemporary
      modifies this`woken
      ensures Valid() && woken == old(woken) + 1
    {
      woken := woken + 1;
    }

    /** The task is queued behind the others.  Beside an idle thread it raises the
        notify count and wakes a thread still inside the condition variable, so
        that the count never exceeds the threads on their way; otherwise a new
        thread or a pool at its maximum answers for it. */
    method Spawn(task: Task) returns (answer: Answer)
      requires Valid() && maxThreads > 0
      modifies this
      ensures Valid() && queue == old(queue) + [task]
      ensures answer.Notify? <==> old(idle) != 0
      ensures notify == old(notify) + One(answer.Notify?)
      ensures woken == old(woken) + One(answer.Notify? && old(woken) < inPermanent + inTemporary)
      ensures answer.LeaveToBusy? ==> old(idle) == 0 && total == maxThreads
      ensures busy == old(busy) + One(answer.Create?)
      ensures inPermanent == old(inPermanent) && inTemporary == old(inTemporary)
      ensures (View(), answer) == Submit(old(View()), maxThreads, task, old(workerId))
      ensures workerId == old(workerId) + One(answer.Create?)
    {
      queue := queue + [task];
      if idle != 0 {
        idle := idle - 1;
        notify := notify + 1;
        NotifyOne();
        return Notify;
      }
      if total == maxThreads {
        return LeaveToBusy;
      }
      total := total + 1;
      workerThreads := workerThreads + [workerId];
      workerId := workerId + 1;
      busy := busy + 1;
      return Create;
    }

    /** A thread counted as idle goes to sleep, without a timeout exactly as long
        as the permanent complement is not asleep. */
    method Wait() returns (next: Worker)
      requires Counted(1) && Conserving(0) && busy > 0
      modifies this
      ensures Valid() && Gone(next)
      ensures next == if old(permanent) < maxPermanent then WaitPermanent(false) else WaitTemporary(false)
      ensures (View(), next) == Settle(old(View()), maxPermanent)
      ensures workerId == old(workerId)
    {
      busy := busy - 1;
      if permanent < maxPermanent {
        permanent := permanent + 1;
        inPermanent := inPermanent + 1;
        return WaitPermanent(false);
      }
      inTemporary := inTemporary + 1;
      return WaitTemporary(false);
    }

    /** A busy thread takes the oldest task, or goes to wait if there is none. */
    method NextTask() returns (next: Worker)
      requires Counted(0) && Conserving(1) && busy > 0
      modifies this
      ensures Valid() && Gone(next) && (next.Running? <==> old(queue) != [])
      ensures next.Running? ==> [next.task] + queue == old(queue)
      ensures (View(), next) == TakeOrWait(old(View()), maxPermanent)
      ensures workerId == old(workerId)
    {
      if queue != [] {
        next := Running(queue[0]);
        queue := queue[1..];
      } else {
        idle := idle + 1;
        next := Wait();
      }
    }

    /** A thread out of the untimed wait has the lock; without a notification it
        waits again. */
    method WokenPermanent() returns (next: Worker)
      requires Valid() && inPermanent > 0 && woken > 0
      modifies this
      ensures Valid() && woken == old(woken) - 1 && total == old(total) && (next.Running? ==> notify == old(notify) - 1)
      ensures (View(), next) == WakePermanent(old(View()), maxPermanent)
      ensures workerId == old(workerId)
    {
      permanent := permanent - 1;
      inPermanent, woken, busy := inPermanent - 1, woken - 1, busy + 1;
      if notify != 0 {
        notify := notify - 1;
        next := NextTask();
      } else {
        next := Wait();
      }
    }

    /** A thread out of the timed wait has the lock; it leaves the pool only on a timeout
        without a notification, and then the permanent complement stays. */
    method WokenTemporary(worker: nat, timedOut: bool) returns (next: Worker)
      requires Valid() && inTemporary > 0 && woken > 0
      modifies this
      ensures Valid() && woken == old(woken) - 1 && (next.Exited? <==> timedOut && old(notify) == 0)
      ensures total == old(total) - One(next.Exited?) && (next.Exited? ==> total >= maxPermanent)
      ensures (View(), next) == WakeTemporary(old(View()), maxPermanent, worker, timedOut)
      ensures workerId == old(workerId)
    {
      inTemporary, woken, busy := inTemporary - 1, woken - 1, busy + 1;
      if notify != 0 {
        notify := notify - 1;
        next := NextTask();
      } else if timedOut {
        Leave(worker);
        next := Exited;
      } else {
        next := Wait();
      }
    }

    /** A thread counted as idle leaves the pool; neither subtraction can fail. */
    method Leave(worker: nat)
      requires Counted(1) && Conserving(0) && busy > 0 && notify == 0 && inPermanent + busy > maxPermanent
      modifies this
      ensures Valid() && woken == old(woken) && total == old(total) - 1 >= maxPermanent
      ensures View() == old(View()).(total := old(total) - 1, idle := old(idle) - 1,
                                     handles := Without(old(workerThreads), worker))
      ensures workerId == old(workerId)
    {
      RemoveHandle(worker);
      total := total - 1;
      idle := idle - 1;
      busy := busy - 1;
    }

    /** The search through `worker_threads` for the thread's own handle. */
    method RemoveHandle(worker: nat)
      modifies this`workerThreads
      ensures workerThreads == Without(old(workerThreads), worker)
    {
      for k := 0 to |workerThreads|
        invariant workerThreads == old(workerThreads) && worker !in workerThreads[..k]
      {
        if workerThreads[k] == worker {
          WithoutAt(workerThreads, k);
          workerThreads := workerThreads[..k] + workerThreads[k + 1..];
          return;
        }
      }
    }
  }

  lemma {:induction false} WithoutAt(handles: seq<nat>, k: nat)
    requires k < |handles| && handles[k] !in handles[..k]
    ensures Without(handles, handles[k]) == handles[..k] + handles[k + 1..]
  {
    if k > 0 {
      assert handles[0] in handles[..k];
      assert handles[1..][..k - 1] == handles[1..k];
      WithoutAt(handles[1..], k - 1);
    }
  }

  // ----- the pool as a transition system -----

  /** `toCreate` counts the permanent threads the builder has still to create;
      `submitted` and `taken` record the tasks in the order they were spawned
      and the order they were taken off the queue. */
  datatype Pool = Pool(
    maxThreads: nat,
    maxPermanent: nat,
    shared: Shared,
    workers: seq<Worker>,
    toCreate: nat,
    submitted: seq<Task>,
    taken: seq<Task>)

  /** A notify of SpawnTask picks worker `pick`.  ComeOut is a timeout or a
      spurious wakeup; Wake is a thread that is out getting the lock again. */
  datatype Event =
    | CreatePermanent
    | SpawnTask(task: Task, pick: nat)
    | Lock(worker: nat)
    | ComeOut(worker: nat)
    | Wake(worker: nat, timedOut: bool)

  /** The builder bounds the pool size to 1..64 (16 by default) and leaves the
      number of permanent threads unbounded within its u8. */
  ghost predicate Init(p: Pool) {
    && 1 <= p.maxThreads <= 64
    && p.toCreate == p.maxPermanent <= 255
    && p.shared == Shared([], 0, 0, 0, 0, [])
    && p.workers == [] && p.submitted == [] && p.taken == []
  }

  predicate Asleep(w: Worker) { (w.WaitPermanent? || w.WaitTemporary?) && !w.woken }
  predicate Woken(w: Worker) { (w.WaitPermanent? || w.WaitTemporary?) && w.woken }

  predicate CanPick(workers: seq<Worker>, pick: nat) {
    (pick < |workers| && Asleep(workers[pick])) || forall w | 0 <= w < |workers| :: !Asleep(workers[w])
  }

  /** The threads after a notify or a wakeup of thread `pick`. */
  function Rouse(workers: seq<Worker>, pick: nat): seq<Worker> {
    if pick < |workers| && Asleep(workers[pick]) then workers[pick := workers[pick].(woken := true)] else workers
  }

  predicate Enabled(p: Pool, e: Event) {
    match e
    case CreatePermanent => p.toCreate > 0
    case SpawnTask(_, pick) => p.toCreate == 0 && CanPick(p.workers, pick)
    case Lock(w) => w < |p.workers| && (p.workers[w].Starting? || p.workers[w].Running?)
    case ComeOut(w) => w < |p.workers| && Asleep(p.workers[w])
    case Wake(w, timedOut) => w < |p.workers| && Woken(p.workers[w]) && (timedOut ==> p.workers[w].WaitTemporary?)
  }

  function Step(p: Pool, e: Event): Pool
    requires Enabled(p, e)
  {
    match e
    case CreatePermanent =>
      p.(shared := p.shared.(total := p.shared.total + 1, handles := p.shared.handles + [|p.workers|]),
         workers := p.workers + [Starting],
         toCreate := p.toCreate - 1)
    case SpawnTask(task, pick) =>
      var (sh, answer) := Submit(p.shared, p.maxThreads, task, |p.workers|);
      p.(shared := sh,
         workers := match answer
                    case Notify => Rouse(p.workers, pick)
                    case Create => p.workers + [Starting]
                    case LeaveToBusy => p.workers,
         submitted := p.submitted + [task])
    case Lock(w) =>
      Become(p, w, TakeOrWait(p.shared, p.maxPermanent))
    case ComeOut(w) => p.(workers := Rouse(p.workers, w))
    case Wake(w, timedOut) =>
      Become(p, w,
             if p.workers[w].WaitPermanent?
             then WakePermanent(p.shared, p.maxPermanent)
             else WakeTemporary(p.shared, p.maxPermanent, w, timedOut))
  }

  /** Worker w leaves the critical section in the given state. */
  function Become(p: Pool, w: nat, after: (Shared, Worker)): Pool
    requires w < |p.workers|
  {
    p.(shared := after.0,
       workers := p.workers[w := after.1],
       taken := if after.1.Running? then p.taken + [after.1.task] else p.taken)
  }

  ghost predicate Next(p: Pool, p': Pool) {
    exists e :: Enabled(p, e) && p' == Step(p, e)
  }

  predicate InPermanentWait(w: Worker) { w.WaitPermanent? }
  predicate InTemporaryWait(w: Worker) { w.WaitTemporary? }
  predicate Busy(w: Worker) { w.Starting? || w.Running? }
  predicate Live(w: Worker) { !w.Exited? }

  ghost function PermanentWaits(p: Pool): nat { Count(p.workers, InPermanentWait) }
  ghost function TemporaryWaits(p: Pool): nat { Count(p.workers, InTemporaryWait) }
  ghost function BusyThreads(p: Pool): nat { Count(p.workers, Busy) }
  ghost function LiveThreads(p: Pool): nat { Count(p.workers, Live) }

  // ----- the invariants -----

  /** Every counter equals the number of threads it stands for. */
  ghost predicate Accounted(p: Pool) {
    && p.shared.idle >= 0 && p.shared.notify >= 0
    && p.shared.idle + p.shared.notify == PermanentWaits(p) + TemporaryWaits(p)
    && p.shared.permanent == PermanentWaits(p) <= p.maxPermanent
    && p.shared.total == LiveThreads(p) == PermanentWaits(p) + TemporaryWaits(p) + BusyThreads(p)
    && (p.toCreate > 0 ==> LiveThreads(p) + p.toCreate == p.maxPermanent)
  }

  ghost predicate Capped(p: Pool) {
    p.maxPermanent <= p.maxThreads ==> p.shared.total + p.toCreate <= p.maxThreads
  }

  /** No thread idles past a queued task it was not notified for. */
  ghost predicate WorkConserving(p: Pool) {
    && (p.shared.idle > 0 ==> |p.shared.queue| <= p.shared.notify)
    && (p.shared.queue != [] ==> p.shared.total > 0)
    && (p.toCreate > 0 ==> p.submitted == [])
  }

  /** Every notification has a thread on its way to the lock that can use it. */
  ghost predicate Signalled(p: Pool) {
    && p.shared.notify <= Count(p.workers, Woken)
    && Count(p.workers, Woken) + Count(p.workers, Asleep) == PermanentWaits(p) + TemporaryWaits(p)
  }

  /** Tasks leave the queue once each, in the order they were spawned. */
  ghost predicate InOrder(p: Pool) {
    p.taken + p.shared.queue == p.submitted
  }

  /** A thread waits with a timeout only when the permanent complement is there
      without it. */
  ghost predicate KeepsPermanent(p: Pool) {
    TemporaryWaits(p) > 0 ==> PermanentWaits(p) + BusyThreads(p) >= p.maxPermanent
  }

  /** Once created, the permanent complement never shrinks. */
  ghost predicate PermanentComplement(p: Pool) {
    LiveThreads(p) + p.toCreate >= p.maxPermanent
  }

  /** `handles` lists the live ones among the workers, each once. */
  ghost predicate Listed(handles: seq<nat>, workers: seq<Worker>) {
    && (forall i, j | 0 <= i < j < |handles| :: handles[i] != handles[j])
    && (forall w | 0 <= w :: w in handles <==> w < |workers| && Live(workers[w]))
  }

  /** `worker_threads` lists the live workers, each once. */
  ghost predicate HandlesListed(p: Pool) { Listed(p.shared.handles, p.workers) }

  ghost predicate CountsInv(p: Pool) {
    && 1 <= p.maxThreads <= 64
    && p.maxPermanent <= 255
    && Accounted(p) && Capped(p) && WorkConserving(p)
    && KeepsPermanent(p) && PermanentComplement(p)
  }

  ghost predicate Inv(p: Pool) {
    CountsInv(p) && Signalled(p) && InOrder(p) && HandlesListed(p)
  }

  /** What moving worker w into state v does to every count. */
  lemma Recount(workers: seq<Worker>, w: nat, v: Worker)
    requires w < |workers|
    ensures Count(workers[w := v], InPermanentWait) ==
            Count(workers, InPermanentWait) - One(InPermanentWait(workers[w])) + One(InPermanentWait(v))
    ensures Count(workers[w := v], InTemporaryWait) ==
            Count(workers, InTemporaryWait) - One(InTemporaryWait(workers[w])) + One(InTemporaryWait(v))
    ensures Count(workers[w := v], Busy) == Count(workers, Busy) - One(Busy(workers[w])) + One(Busy(v))
    ensures Count(workers[w := v], Live) == Count(workers, Live) - One(Live(workers[w])) + One(Live(v))
  {
    CountUpdate(workers, w, v, InPermanentWait);
    CountUpdate(workers, w, v, InTemporaryWait);
    CountUpdate(workers, w, v, Busy);
    CountUpdate(workers, w, v, Live);
  }

  lemma RecountNew(workers: seq<Worker>)
    ensures Count(workers + [Starting], InPermanentWait) == Count(workers, InPermanentWait)
    ensures Count(workers + [Starting], InTemporaryWait) == Count(workers, InTemporaryWait)
    ensures Count(workers + [Starting], Busy) == Count(workers, Busy) + 1
    ensures Count(workers + [Starting], Live) == Count(workers, Live) + 1
  {
    CountAppend(workers, Starting, InPermanentWait);
    CountAppend(workers, Starting, InTemporaryWait);
    CountAppend(workers, Starting, Busy);
    CountAppend(workers, Starting, Live);
  }

  lemma {:induction false} WithoutDistinct(handles: seq<nat>, worker: nat)
    requires forall i, j | 0 <= i < j < |handles| :: handles[i] != handles[j]
    ensures forall x :: x in Without(handles, worker) <==> x in handles && x != worker
    ensures forall i, j | 0 <= i < j < |Without(handles, worker)| ::
      Without(handles, worker)[i] != Without(handles, worker)[j]
  {
    if handles != [] {
      if handles[0] != worker {
        WithoutDistinct(handles[1..], worker);
        assert handles[0] !in Without(handles[1..], worker);
      }
    }
  }

  lemma AddedListed(handles: seq<nat>, workers: seq<Worker>)
    requires Listed(handles, workers)
    ensures Listed(handles + [|workers|], workers + [Starting])
  {
    assert |workers| !in handles;
  }

  lemma ExitListed(handles: seq<nat>, workers: seq<Worker>, w: nat)
    requires Listed(handles, workers) && w < |workers|
    ensures Listed(Without(handles, w), workers[w := Exited])
  {
    WithoutDistinct(handles, w);
  }

  lemma MovedListed(handles: seq<nat>, workers: seq<Worker>, w: nat, v: Worker)
    requires Listed(handles, workers) && w < |workers| && Live(workers[w]) && Live(v)
    ensures Listed(handles, workers[w := v])
  {
  }

  lemma WorkerKeepsHandles(p: Pool, e: Event)
    requires HandlesListed(p) && Enabled(p, e) && (e.Lock? || e.Wake?)
    ensures HandlesListed(Step(p, e))
  {
    var v := Step(p, e).workers[e.worker];
    if v.Exited? {
      ExitListed(p.shared.handles, p.workers, e.worker);
    } else {
      MovedListed(p.shared.handles, p.workers, e.worker, v);
    }
  }

  lemma ArrivalKeepsHandles(p: Pool, e: Event)
    requires HandlesListed(p) && Enabled(p, e) && !e.Lock? && !e.Wake?
    ensures HandlesListed(Step(p, e))
  {
    AddedListed(p.shared.handles, p.workers);
    var w := if e.SpawnTask? then e.pick else if e.ComeOut? then e.worker else 0;
    if w < |p.workers| && Asleep(p.workers[w]) {
      MovedListed(p.shared.handles, p.workers, w, p.workers[w].(woken := true));
    }
  }

  /** Waking a thread that is asleep moves it from one count to the other and
      leaves every other count alone. */
  lemma RecountRouse(workers: seq<Worker>, w: nat)
    ensures Count(Rouse(workers, w), InPermanentWait) == Count(workers, InPermanentWait)
    ensures Count(Rouse(workers, w), InTemporaryWait) == Count(workers, InTemporaryWait)
    ensures Count(Rouse(workers, w), Busy) == Count(workers, Busy)
    ensures Count(Rouse(workers, w), Live) == Count(workers, Live)
    ensures Count(Rouse(workers, w), Woken) == Count(workers, Woken) + One(w < |workers| && Asleep(workers[w]))
    ensures Count(Rouse(workers, w), Asleep) == Count(workers, Asleep) - One(w < |workers| && Asleep(workers[w]))
  {
    if w < |workers| && Asleep(workers[w]) {
      Recount(workers, w, workers[w].(woken := true));
      CountUpdate(workers, w, workers[w].(woken := true), Woken);
      CountUpdate(workers, w, workers[w].(woken := true), Asleep);
    }
  }

  lemma ArrivalKeepsCounts(p: Pool, e: Event)
    requires CountsInv(p) && Enabled(p, e)
    requires e.CreatePermanent? || e.SpawnTask? || e.ComeOut?
    ensures CountsInv(Step(p, e))
  {
    if e.ComeOut? {
      RecountRouse(p.workers, e.worker);
    } else {
      RecountNew(p.workers);
      if e.SpawnTask? {
        RecountRouse(p.workers, e.pick);
      }
    }
  }

  /** A notify raises both sides of the bound, unless every waiting thread is on
      its way already, and then the idle ones are among them. */
  lemma NotifyKeepsSignals(p: Pool, pick: nat)
    requires Accounted(p) && Signalled(p) && CanPick(p.workers, pick) && p.shared.idle > 0
    ensures p.shared.notify + 1 <= Count(Rouse(p.workers, pick), Woken)
  {
    RecountRouse(p.workers, pick);
    if !(pick < |p.workers| && Asleep(p.workers[pick])) {
      CountZero(p.workers, Asleep);
    }
  }

  lemma ArrivalKeepsSignals(p: Pool, e: Event)
    requires Accounted(p) && Signalled(p) && Enabled(p, e)
    requires e.CreatePermanent? || e.SpawnTask? || e.ComeOut?
    ensures Signalled(Step(p, e))
  {
    if e.ComeOut? {
      RecountRouse(p.workers, e.worker);
    } else {
      RecountNew(p.workers);
      CountAppend(p.workers, Starting, Woken);
      CountAppend(p.workers, Starting, Asleep);
      if e.SpawnTask? {
        RecountRouse(p.workers, e.pick);
        if p.shared.idle > 0 {
          NotifyKeepsSignals(p, e.pick);
        }
      }
    }
  }

  /** A thread with the lock uses up at most one notification, and only one that
      was woken does. */
  lemma WorkerKeepsSignals(p: Pool, e: Event)
    requires p.shared.notify >= 0 && Signalled(p) && Enabled(p, e) && (e.Lock? || e.Wake?)
    ensures Signalled(Step(p, e))
  {
    var v := Step(p, e).workers[e.worker];
    Recount(p.workers, e.worker, v);
    CountUpdate(p.workers, e.worker, v, Woken);
    CountUpdate(p.workers, e.worker, v, Asleep);
    if e.Wake? {
      CountHas(p.workers, e.worker, Woken);
    }
  }

  lemma LockKeepsCounts(p: Pool, w: nat)
    requires CountsInv(p) && Enabled(p, Lock(w))
    ensures CountsInv(Step(p, Lock(w)))
  {
    Recount(p.workers, w, Step(p, Lock(w)).workers[w]);
  }

  lemma WakePermanentKeepsCounts(p: Pool, w: nat)
    requires CountsInv(p) && Enabled(p, Wake(w, false)) && p.workers[w].WaitPermanent?
    ensures CountsInv(Step(p, Wake(w, false)))
  {
    Recount(p.workers, w, WakePermanent(p.shared, p.maxPermanent).1);
    CountHas(p.workers, w, InPermanentWait);
  }

  lemma WakeTemporaryKeepsCounts(p: Pool, w: nat, timedOut: bool)
    requires CountsInv(p) && Enabled(p, Wake(w, timedOut)) && p.workers[w].WaitTemporary?
    ensures CountsInv(Step(p, Wake(w, timedOut)))
  {
    Recount(p.workers, w, WakeTemporary(p.shared, p.maxPermanent, w, timedOut).1);
    CountHas(p.workers, w, InTemporaryWait);
  }

  lemma StepKeepsOrder(p: Pool, e: Event)
    requires InOrder(p) && Enabled(p, e)
    ensures InOrder(Step(p, e))
  {
    if p.shared.queue != [] {
      assert p.shared.queue == [p.shared.queue[0]] + p.shared.queue[1..];
    }
  }

  lemma StepKeepsInv(p: Pool, e: Event)
    requires Inv(p) && Enabled(p, e)
    ensures Inv(Step(p, e))
  {
    StepKeepsOrder(p, e);
    if e.Lock? || e.Wake? {
      WorkerKeepsHandles(p, e);
      WorkerKeepsSignals(p, e);
    } else {
      ArrivalKeepsHandles(p, e);
      ArrivalKeepsSignals(p, e);
    }
    match e
    case Lock(w) => LockKeepsCounts(p, w);
    case Wake(w, timedOut) =>
      if p.workers[w].WaitPermanent? {
        WakePermanentKeepsCounts(p, w);
      } else {
        WakeTemporaryKeepsCounts(p, w, timedOut);
      }
    case _ => ArrivalKeepsCounts(p, e);
  }

  lemma InitInv(p: Pool)
    requires Init(p)
    ensures Inv(p)
  {
  }

  lemma RunsKeepInv(run: seq<Pool>)
    requires Runs.IsRun(Init, Next, run)
    ensures forall i | 0 <= i < |run| :: Inv(run[i])
  {
    forall p, p' | Inv(p) && Next(p, p')
      ensures Inv(p')
    {
      var e :| Enabled(p, e) && p' == Step(p, e);
      StepKeepsInv(p, e);
    }
    Runs.Invariance(Init, Next, Inv, run);
  }

  // ----- the theorems -----

  /** In every run the counters are exact: `idle + notify` is the number of
      threads inside `wait`, `total` the number of live threads, and a thread
      that times out finds both counters it subtracts from positive.  They are
      numbers without a bound here; CountersFitIff says when a u8 holds them. */
  lemma CountersExact(run: seq<Pool>, i: nat)
    requires Runs.IsRun(Init, Next, run) && i < |run|
    ensures run[i].shared.idle + run[i].shared.notify ==
            Count(run[i].workers, InPermanentWait) + Count(run[i].workers, InTemporaryWait)
    ensures run[i].shared.permanent == Count(run[i].workers, InPermanentWait) <= run[i].maxPermanent
    ensures run[i].shared.total == Count(run[i].workers, Live)
    ensures run[i].shared.idle >= 0 && run[i].shared.notify >= 0
    ensures forall w | 0 <= w < |run[i].workers| && run[i].workers[w].WaitTemporary? && run[i].shared.notify == 0 ::
      run[i].shared.total >= 1 && run[i].shared.idle >= 1
  {
    RunsKeepInv(run);
    forall w | 0 <= w < |run[i].workers| && run[i].workers[w].WaitTemporary?
      ensures Count(run[i].workers, InTemporaryWait) >= 1
    {
      CountHas(run[i].workers, w, InTemporaryWait);
    }
  }

  /** Thread w is busy, or out of the condition variable with a notification to
      find, and its next step takes the first queued task. */
  ghost predicate TakesFirst(p: Pool, w: nat)
    requires p.shared.queue != []
  {
    && w < |p.workers|
    && (Busy(p.workers[w]) || (Woken(p.workers[w]) && p.shared.notify > 0))
    && var p' := Step(p, if Busy(p.workers[w]) then Lock(w) else Wake(w, false));
       p'.shared.queue == p.shared.queue[1..] && p'.taken == p.taken + [p.shared.queue[0]]
  }

  /** In every run every notification has a thread that was woken for it, no idle
      thread is left without a notification while tasks are queued, and a queued
      task has a thread that needs no further wakeup to take it. */
  lemma NoTaskStranded(run: seq<Pool>, i: nat)
    requires Runs.IsRun(Init, Next, run) && i < |run|
    ensures run[i].shared.notify <= Count(run[i].workers, Woken)
    ensures run[i].shared.idle > 0 ==> |run[i].shared.queue| <= run[i].shared.notify
    ensures run[i].shared.queue != [] ==> exists w :: TakesFirst(run[i], w)
  {
    RunsKeepInv(run);
    var p := run[i];
    if p.shared.queue != [] {
      if Count(p.workers, Busy) > 0 {
        var w := CountFind(p.workers, Busy);
        assert TakesFirst(p, w);
      } else {
        var w := CountFind(p.workers, Woken);
        assert TakesFirst(p, w);
      }
    }
  }

  /** In every run tasks are taken once each, in submission order. */
  lemma TakenInOrder(run: seq<Pool>, i: nat)
    requires Runs.IsRun(Init, Next, run) && i < |run|
    ensures run[i].taken + run[i].shared.queue == run[i].submitted
  {
    RunsKeepInv(run);
  }

  /** In every run, once the builder is done, at least `maxPermanent` threads
      stay alive, and a thread can only be about to time out while that many
      others are waiting permanently or busy. */
  lemma PermanentThreadsStay(run: seq<Pool>, i: nat)
    requires Runs.IsRun(Init, Next, run) && i < |run|
    ensures run[i].toCreate == 0 ==> Count(run[i].workers, Live) >= run[i].maxPermanent
    ensures forall w | 0 <= w < |run[i].workers| && run[i].workers[w].WaitTemporary? ::
      Count(run[i].workers, InPermanentWait) + Count(run[i].workers, Busy) >= run[i].maxPermanent
  {
    RunsKeepInv(run);
    forall w | 0 <= w < |run[i].workers| && run[i].workers[w].WaitTemporary?
      ensures TemporaryWaits(run[i]) >= 1
    {
      CountHas(run[i].workers, w, InTemporaryWait);
    }
  }

  /** In every run `worker_threads` lists exactly the live threads, once each. */
  lemma JoinHandlesMatch(run: seq<Pool>, i: nat)
    requires Runs.IsRun(Init, Next, run) && i < |run|
    ensures HandlesListed(run[i])
  {
    RunsKeepInv(run);
  }

  // ----- the size of the pool -----

  ghost function Fresh(maxThreads: nat, maxPermanent: nat): Pool {
    Pool(maxThreads, maxPermanent, Shared([], 0, 0, 0, 0, []), [], maxPermanent, [], [])
  }

  /** A run of the pool that the builder makes with these sizes. */
  ghost predicate RunOf(maxThreads: nat, maxPermanent: nat, run: seq<Pool>) {
    Runs.IsRun(Init, Next, run) && run[0] == Fresh(maxThreads, maxPermanent)
  }

  lemma Take(run: seq<Pool>, p: Pool, e: Event) returns (longer: seq<Pool>, p': Pool)
    requires Runs.IsRun(Init, Next, run) && run[|run| - 1] == p && Enabled(p, e)
    ensures Runs.IsRun(Init, Next, longer) && longer[0] == run[0] && longer[|longer| - 1] == p'
    ensures p' == Step(p, e)
  {
    p' := Step(p, e);
    assert Next(p, p');
    Runs.Extend(Init, Next, run, p');
    longer := run + [p'];
  }

  /** The builder's own steps, from a fresh pool. */
  lemma {:induction false} BuilderRun(maxThreads: nat, maxPermanent: nat, k: nat) returns (run: seq<Pool>, p: Pool)
    requires 1 <= maxThreads <= 64 && k <= maxPermanent <= 255
    ensures RunOf(maxThreads, maxPermanent, run) && run[|run| - 1] == p
    ensures p.shared.total == k && p.shared.idle == 0 && p.toCreate == maxPermanent - k && p.maxThreads == maxThreads
  {
    if k == 0 {
      p := Fresh(maxThreads, maxPermanent);
      run := [p];
    } else {
      run, p := BuilderRun(maxThreads, maxPermanent, k - 1);
      run, p := Take(run, p, CreatePermanent);
    }
  }

  lemma SomePick(workers: seq<Worker>) returns (pick: nat)
    ensures CanPick(workers, pick)
  {
    if w: nat :| w < |workers| && Asleep(workers[w]) {
      pick := w;
    } else {
      pick := 0;
    }
  }

  /** With more permanent threads than the maximum, which is then never met
      again, every task spawned beside busy threads adds one. */
  lemma {:induction false} GrowingRun(maxThreads: nat, maxPermanent: nat, k: nat) returns (run: seq<Pool>, p: Pool)
    requires 1 <= maxThreads <= 64 && maxThreads < maxPermanent <= 255
    ensures RunOf(maxThreads, maxPermanent, run) && run[|run| - 1] == p
    ensures p.shared.total == maxPermanent + k && p.shared.idle == 0 && p.toCreate == 0 && p.maxThreads == maxThreads
  {
    if k == 0 {
      run, p := BuilderRun(maxThreads, maxPermanent, maxPermanent);
    } else {
      run, p := GrowingRun(maxThreads, maxPermanent, k - 1);
      var pick := SomePick(p.workers);
      run, p := Take(run, p, SpawnTask(0, pick));
    }
  }

  ghost predicate ReachesSize(maxThreads: nat, maxPermanent: nat, run: seq<Pool>, n: nat) {
    RunOf(maxThreads, maxPermanent, run) && run[|run| - 1].shared.total >= n
  }

  ghost predicate CanReachSize(maxThreads: nat, maxPermanent: nat, n: nat) {
    exists run :: ReachesSize(maxThreads, maxPermanent, run, n)
  }

  lemma SizeCapped(maxThreads: nat, maxPermanent: nat, run: seq<Pool>, i: nat)
    requires RunOf(maxThreads, maxPermanent, run) && i < |run| && maxPermanent <= maxThreads
    ensures run[i].shared.total <= maxThreads && Small(run[i].shared)
  {
    RunsKeepInv(run);
    SizesFixed(run, i);
  }

  /** If the permanent threads do not exceed the maximum size, every run stays
      within it; if they do, no size bounds all runs.  Nothing in the builder
      rules that out. */
  lemma SizeBoundedIff(maxThreads: nat, maxPermanent: nat)
    requires 1 <= maxThreads <= 64 && maxPermanent <= 255
    ensures maxPermanent <= maxThreads ==>
              forall run: seq<Pool>, i | RunOf(maxThreads, maxPermanent, run) && 0 <= i < |run| ::
                run[i].shared.total <= maxThreads
    ensures maxPermanent > maxThreads ==> forall n: nat :: CanReachSize(maxThreads, maxPermanent, n)
  {
    if maxPermanent <= maxThreads {
      forall run: seq<Pool>, i | RunOf(maxThreads, maxPermanent, run) && 0 <= i < |run|
        ensures run[i].shared.total <= maxThreads
      {
        SizeCapped(maxThreads, maxPermanent, run, i);
      }
    } else {
      forall n: nat
        ensures CanReachSize(maxThreads, maxPermanent, n)
      {
        var run, p := GrowingRun(maxThreads, maxPermanent, n);
        assert ReachesSize(maxThreads, maxPermanent, run, n);
      }
    }
  }

  /** All four counters fit the u8 the program keeps them in. */
  predicate Small(sh: Shared) { sh.total < 256 && sh.idle < 256 && sh.notify < 256 && sh.permanent < 256 }

  /** A run whose last spawn takes the thread count beyond a u8. */
  lemma OverflowingRun(maxThreads: nat, maxPermanent: nat) returns (run: seq<Pool>)
    requires 1 <= maxThreads <= 64 && maxThreads < maxPermanent <= 255
    ensures RunOf(maxThreads, maxPermanent, run) && run[|run| - 1].shared.total == 256
  {
    var p;
    run, p := GrowingRun(maxThreads, maxPermanent, 256 - maxPermanent);
  }

  /** In all runs no counter overflows exactly when the permanent threads do not
      exceed the maximum size. */
  lemma CountersFitIff(maxThreads: nat, maxPermanent: nat)
    requires 1 <= maxThreads <= 64 && maxPermanent <= 255
    ensures (forall run: seq<Pool>, i | RunOf(maxThreads, maxPermanent, run) && 0 <= i < |run| :: Small(run[i].shared))
            <==> maxPermanent <= maxThreads
  {
    if maxPermanent <= maxThreads {
      forall run: seq<Pool>, i | RunOf(maxThreads, maxPermanent, run) && 0 <= i < |run|
        ensures Small(run[i].shared)
      {
        SizeCapped(maxThreads, maxPermanent, run, i);
      }
    } else {
      var run := OverflowingRun(maxThreads, maxPermanent);
      assert !Small(run[|run| - 1].shared);
    }
  }

  lemma {:induction false} SizesFixed(run: seq<Pool>, i: nat)
    requires Runs.IsRun(Init, Next, run) && i < |run|
    ensures run[i].maxThreads == run[0].maxThreads && run[i].maxPermanent == run[0].maxPermanent
  {
    if i > 0 {
      SizesFixed(run, i - 1);
      assert Next(run[i - 1], run[i]);
    }
  }
}
