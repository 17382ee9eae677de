/** The work-stealing run queues of executor/queue.rs: one bounded local queue
    for each worker, which its owner pushes to and pops from and which every
    worker steals from, and a locked global queue.  One step is one atomic
    operation on a `front` or `rear` word or on the global length, one slot read
    or written or copied into another, or one use of the locked global list.  A load of the own `rear`,
    which nobody else writes, is part of the step that uses it.  Steps are
    sequentially consistent. */
module RunQueue {
  import opened Options
  import opened Positions

  type Slots = s: seq<Task> | |s| == CAP witness seq(CAP, _ => 0)

  /** A local queue: the words and slots the program has, and beside them the
      unbounded positions the words stand for.  `log` is every task ever
      published, so the rear position is its length; `thief` is the worker that
      has claimed the positions from `steal` up to `end` and not yet let go. */
  datatype Queue = Queue(
    front: nat,
    rear: nat,
    buf: Slots,
    steal: nat,
    head: nat,
    log: seq<Task>,
    thief: Option<nat>,
    end: nat)

  /** Where a worker is.  `item` and `due` are the tasks that the slots it is
      still going to read should hold; `h0`, `r0` and `s0` are the unbounded
      positions behind words it has loaded.  The program has none of these. */
  datatype Worker =
    | Idle
    // pop_front
    | Pop(word: nat)                        // has loaded front, about to compare-exchange it
    | PopTake(pos: nat, item: Task)         // owns the slot at pos, about to read it
    // push_back
    | Push(task: Task)                      // about to load front
    | PushWrite(task: Task)                 // there is room, about to write the slot
    | PushStore(task: Task)                 // about to store rear
    // push_overflowed
    | OverCas(task: Task, steal: nat, s0: nat)
    | OverCopy(task: Task, pos: nat, left: nat, next: nat, tmp: seq<Task>, due: seq<Task>)
    | OverSync(task: Task, tmp: seq<Task>, prev: nat)
    | OverGive(task: Task, tmp: seq<Task>)  // about to lock the global list
    // steal_into, src being the queue stolen from
    | StealLoad(src: nat)                   // about to load front
    | StealRear(src: nat, word: nat, h0: nat)                  // about to load rear
    | StealCas(src: nat, word: nat, n: nat, h0: nat, r0: nat)  // about to compare-exchange front
    | StealCopy(src: nat, pos: nat, left: nat, next: nat, out: seq<Task>, due: seq<Task>)
    | StealPublish(src: nat, next: nat, out: seq<Task>, last: Task)
    | StealSync(src: nat, prev: nat, last: Task)
    // pop_batch
    | BatchLen(limit: nat)                  // about to load the global length
    | BatchLock(num: nat)                   // about to lock the global list
    | BatchSub(count: nat, out: seq<Task>, first: Task)
    | BatchStore(out: seq<Task>, first: Task)

  /** `submitted` and `done` are the tasks that ever entered and the tasks that
      were handed out to be run. */
  datatype System = System(
    queues: seq<Queue>,
    workers: seq<Worker>,
    globals: seq<Task>,
    len: nat,
    submitted: seq<Task>,
    done: seq<Task>)

  datatype Event =
    | Submit(task: Task)                       // push_back of the global queue
    | StartPop(w: nat)
    | StartPush(w: nat, task: Task)
    | StartSteal(w: nat, src: nat)             // src may be the own queue: see Stealing
    | StartBatch(w: nat, onlyIfEmpty: bool)    // remaining, then pop_batch
    | Go(w: nat)

  ghost predicate Fresh(q: Queue) {
    q.front == 0 && q.rear == 0 && q.steal == q.head == 0 && q.log == [] && q.thief == None
  }

  ghost predicate Init(s: System) {
    && |s.queues| == |s.workers|
    && (forall q | 0 <= q < |s.queues| :: Fresh(s.queues[q]))
    && (forall w | 0 <= w < |s.workers| :: s.workers[w] == Idle)
    && s.globals == s.submitted == s.done == [] && s.len == 0
  }

  /** The queue whose front a worker works on: the one it steals from, or else
      its own. */
  function Target(w: nat, p: Worker): nat { if Stealing(p) then p.src else w }

  /** In steal_into.  `steal` of async_pool.rs means to skip the own queue, but it
      compares the addresses of two handles to the same buffer, which differ: a
      worker does call steal_into on its own queue. */
  predicate Stealing(p: Worker) {
    p.StealLoad? || p.StealRear? || p.StealCas? || p.StealCopy? || p.StealPublish? || p.StealSync?
  }

  predicate Enabled(s: System, e: Event) {
    match e
    case Submit(_) => true
    case StartPop(w) => w < |s.workers| == |s.queues| && s.workers[w].Idle?
    case StartPush(w, _) => w < |s.workers| == |s.queues| && s.workers[w].Idle?
    case StartSteal(w, src) => w < |s.workers| == |s.queues| && s.workers[w].Idle? && src < |s.queues|
    case StartBatch(w, _) => w < |s.workers| == |s.queues| && s.workers[w].Idle?
    case Go(w) => w < |s.workers| == |s.queues| && !s.workers[w].Idle? && Target(w, s.workers[w]) < |s.queues|
  }

  function Sub16(a: nat, b: nat): nat { WrapSub(a % M, b % M) }

  /** Tasks of the log at positions from lo up to hi. */
  function Slice(log: seq<Task>, lo: nat, hi: nat): seq<Task> {
    if lo <= hi <= |log| then log[lo..hi] else []
  }

  function Tail(s: seq<Task>): seq<Task> { if s == [] then [] else s[1..] }

  function Min(a: nat, b: nat): nat { if a < b then a else b }
  function Max(a: nat, b: nat): nat { if a < b then b else a }

  // ----- what the steps do to one queue -----

  /** The compare-exchange of `pop_front` when it succeeds. */
  function Popped(q: Queue): Queue {
    var next := WrapAdd(HeadOf(q.front), 1);
    if StealOf(q.front) == HeadOf(q.front)
    then q.(front := Wrap(next, next), steal := q.head + 1, head := q.head + 1)
    else q.(front := Wrap(StealOf(q.front), next), head := q.head + 1)
  }

  /** A successful claim of n positions from the head on. */
  function Claimed(q: Queue, w: nat, n: nat): Queue {
    q.(front := Wrap(StealOf(q.front), WrapAdd(HeadOf(q.front), n)),
       head := q.head + n, thief := Some(w), end := q.head + n)
  }

  /** The compare-exchange of `sync_steal_pos` when it succeeds. */
  function Synced(q: Queue): Queue {
    q.(front := Wrap(HeadOf(q.front), HeadOf(q.front)), steal := q.head, thief := None)
  }

  /** A slot write at a distance behind the rear. */
  function Filled(q: Queue, k: nat, v: Task): Queue {
    q.(buf := q.buf[SlotOf(WrapAdd(q.rear, k)) := v])
  }

  function FilledAll(q: Queue, out: seq<Task>): (r: Queue)
    ensures r == q.(buf := r.buf)
  {
    if out == [] then q else Filled(FilledAll(q, out[..|out| - 1]), |out| - 1, out[|out| - 1])
  }

  /** The store to `rear`. */
  function Published(q: Queue, out: seq<Task>): Queue {
    q.(rear := WrapAdd(q.rear, |out|), log := q.log + out)
  }

  /** The slots taken since the steal position, as `remaining` and
      `is_half_full` see them. */
  function Used(q: Queue): nat { Sub16(q.rear, StealOf(q.front)) }

  // ----- what a worker does next -----

  /** The global queue: its list, oldest task first, and its length word. */
  datatype Global = Global(tasks: seq<Task>, len: nat)

  /** What a step leaves: the place of the worker, the one queue it may have
      changed, the global queue, and the tasks it handed out. */
  datatype Move = Move(p: Worker, q: Queue, g: Global, handed: seq<Task>)

  function PopMove(p: Worker, q: Queue, g: Global): Move
    requires p.Pop? || p.PopTake?
  {
    match p
    case Pop(word) =>
      if HeadOf(word) == q.rear then Move(Idle, q, g, [])
      else if q.front != word then Move(Pop(q.front), q, g, [])
      else Move(PopTake(HeadOf(word), if q.head < |q.log| then q.log[q.head] else 0), Popped(q), g, [])
    case PopTake(pos, _) => Move(Idle, q, g, [q.buf[SlotOf(pos)]])
  }

  function PushMove(p: Worker, q: Queue, g: Global): Move
    requires p.Push? || p.PushWrite? || p.PushStore?
  {
    match p
    case Push(task) =>
      Move(if Used(q) < CAP then PushWrite(task) else OverCas(task, StealOf(q.front), q.steal), q, g, [])
    case PushWrite(task) => Move(PushStore(task), Filled(q, 0, task), g, [])
    case PushStore(task) => Move(Idle, Published(q, [task]), g, [])
  }

  predicate Overflowing(p: Worker) { p.OverCas? || p.OverCopy? || p.OverSync? || p.OverGive? }

  function OverMove(w: nat, p: Worker, q: Queue, g: Global): Move
    requires Overflowing(p)
  {
    match p
    case OverCas(task, steal, _) =>
      if q.front != Wrap(steal, steal) then Move(Push(task), q, g, [])
      else
        var due := Slice(q.log, q.head, q.head + CAP / 2);
        var next := Wrap(steal, WrapAdd(steal, CAP / 2));
        Move(OverCopy(task, steal, CAP / 2, next, [], due), Claimed(q, w, CAP / 2), g, [])
    case OverCopy(task, pos, left, next, tmp, due) =>
      if left == 0 then Move(OverSync(task, tmp, next), q, g, [])
      else
        var read := tmp + [q.buf[SlotOf(pos)]];
        Move(OverCopy(task, WrapAdd(pos, 1), left - 1, next, read, Tail(due)), q, g, [])
    case OverSync(task, tmp, prev) =>
      if q.front != prev then Move(OverSync(task, tmp, q.front), q, g, [])
      else Move(OverGive(task, tmp), Synced(q), g, [])
    case OverGive(task, tmp) => Move(Idle, q, Global(g.tasks + tmp + [task], g.len + |tmp| + 1), [])
  }

  /** The loop of `steal_into` up to its load of `rear`, with the front loaded. */
  function Loaded(src: nat, q: Queue): Worker {
    if StealOf(q.front) != HeadOf(q.front) then Idle else StealRear(src, q.front, q.head)
  }

  predicate Claiming(p: Worker) { p.StealLoad? || p.StealRear? || p.StealCas? || p.StealSync? }

  /** The steps of `steal_into` on the queue stolen from. */
  function ClaimMove(w: nat, p: Worker, q: Queue, g: Global): Move
    requires Claiming(p)
  {
    match p
    case StealLoad(src) => Move(Loaded(src, q), q, g, [])
    case StealRear(src, word, h0) =>
      var n := Half(Sub16(q.rear, HeadOf(word)));
      Move(if n == 0 then Idle else StealCas(src, word, n, h0, |q.log|), q, g, [])
    case StealCas(src, word, n, _, _) =>
      if q.front != word then Move(Loaded(src, q), q, g, [])
      else
        var due := Slice(q.log, q.head, q.head + n);
        var next := Wrap(StealOf(word), WrapAdd(HeadOf(word), n));
        Move(StealCopy(src, StealOf(word), n, next, [], due), Claimed(q, w, n), g, [])
    case StealSync(src, prev, last) =>
      if q.front != prev then Move(StealSync(src, q.front, last), q, g, []) else Move(Idle, Synced(q), g, [last])
  }

  /** The steps of `steal_into` on the own queue, which may be the same one. */
  function CopyMove(p: Worker, own: Queue, q: Queue, g: Global): Move
    requires p.StealCopy? || p.StealPublish?
  {
    match p
    case StealCopy(src, pos, left, next, out, due) =>
      var task := q.buf[SlotOf(pos)];
      if left <= 1 then Move(StealPublish(src, next, out, task), own, g, [])
      else Move(StealCopy(src, WrapAdd(pos, 1), left - 1, next, out + [task], Tail(due)),
                Filled(own, |out|, task), g, [])
    case StealPublish(src, next, out, last) =>
      Move(StealSync(src, next, last), if out == [] then own else Published(own, out), g, [])
  }

  predicate Batching(p: Worker) { p.BatchLen? || p.BatchLock? || p.BatchSub? || p.BatchStore? }

  function BatchMove(p: Worker, q: Queue, g: Global, workers: nat): Move
    requires Batching(p) && workers > 0
  {
    match p
    case BatchLen(limit) => Move(BatchLock(Min(g.len / workers, limit)), q, g, [])
    case BatchLock(num) =>
      if g.tasks == [] then Move(Idle, q, g, [])
      else
        var count := Max(1, Min(num, |g.tasks|));
        var out := g.tasks[1..count];
        Move(BatchSub(count, out, g.tasks[0]), FilledAll(q, out), Global(g.tasks[count..], g.len), [])
    case BatchSub(count, out, first) =>
      Move(BatchStore(out, first), q, Global(g.tasks, if count <= g.len then g.len - count else 0), [])
    case BatchStore(out, first) => Move(Idle, Published(q, out), g, [first])
  }

  /** The next step of worker w at p, with its own queue and the one it targets. */
  function NextMove(w: nat, p: Worker, own: Queue, q: Queue, g: Global, workers: nat): Move
    requires !p.Idle? && workers > 0
  {
    if p.Pop? || p.PopTake? then PopMove(p, own, g)
    else if p.Push? || p.PushWrite? || p.PushStore? then PushMove(p, own, g)
    else if Overflowing(p) then OverMove(w, p, own, g)
    else if Claiming(p) then ClaimMove(w, p, q, g)
    else if Batching(p) then BatchMove(p, own, g, workers)
    else CopyMove(p, own, q, g)
  }

  // ----- steps of the system -----

  predicate ChangesOwn(p: Worker) { p.StealCopy? || p.StealPublish? || !Stealing(p) }

  /** The queue a step of worker w may change. */
  function Changed(w: nat, p: Worker): nat { if ChangesOwn(p) then w else Target(w, p) }

  function MoveOf(s: System, w: nat): Move
    requires Enabled(s, Go(w))
  {
    var p := s.workers[w];
    NextMove(w, p, s.queues[w], s.queues[Target(w, p)], Global(s.globals, s.len), |s.workers|)
  }

  function GoStep(s: System, w: nat): System
    requires Enabled(s, Go(w))
  {
    var m := MoveOf(s, w);
    s.(workers := s.workers[w := m.p], queues := s.queues[Changed(w, s.workers[w]) := m.q],
       globals := m.g.tasks, len := m.g.len, done := s.done + m.handed)
  }

  /** The free slots `get_task_from_queues` and `steal` pass to `pop_batch`. */
  function Limit(q: Queue, onlyIfEmpty: bool): nat {
    var remaining := if Used(q) <= CAP then CAP - Used(q) else 0;
    if onlyIfEmpty && remaining != CAP then 0 else remaining
  }

  /** Where a call leaves a worker with the given queue. */
  function Started(e: Event, q: Queue): Worker
    requires !e.Go? && !e.Submit?
  {
    match e
    case StartPop(_) => Pop(q.front)
    case StartPush(_, task) => Push(task)
    case StartSteal(_, src) => if Used(q) > CAP / 2 then Idle else StealLoad(src)
    case StartBatch(_, onlyIfEmpty) => BatchLen(Limit(q, onlyIfEmpty))
  }

  function Entering(e: Event): seq<Task> { if e.Submit? || e.StartPush? then [e.task] else [] }

  function Step(s: System, e: Event): System
    requires Enabled(s, e)
  {
    if e.Go? then GoStep(s, e.w)
    else
      var s' := s.(submitted := s.submitted + Entering(e));
      if e.Submit? then s'.(globals := s.globals + [e.task], len := s.len + 1)
      else s'.(workers := s.workers[e.w := Started(e, s.queues[e.w])])
  }

  /** How far the head of the queue has moved since a thief about to
      compare-exchange its front loaded it. */
  function Lag(s: System, w: nat): nat
    requires w < |s.workers|
  {
    match s.workers[w]
    case StealCas(src, _, _, h0, _) =>
      if src < |s.queues| && h0 <= s.queues[src].head then s.queues[src].head - h0 else 0
    case _ => 0
  }

  /** A step in which no thief's compare-exchange comes `bound` or more head
      moves after its load. */
  ghost predicate NextWithin(bound: nat, s: System, s': System) {
    exists e :: Enabled(s, e) && (e.Go? ==> Lag(s, e.w) < bound) && s' == Step(s, e)
  }

  ghost predicate Next(s: System, s': System) { NextWithin(M, s, s') }

  // ----- the invariant -----

  /** Positions from lo on are in their slots. */
  ghost predicate Live(buf: Slots, log: seq<Task>, lo: nat) {
    forall k | lo <= k < |log| :: buf[SlotOf(k)] == log[k]
  }

  ghost predicate Ordered(q: Queue) {
    && q.steal <= q.head <= |q.log| <= q.steal + CAP
    && (if q.thief.None? then q.steal == q.head else q.steal < q.end <= q.head)
  }

  ghost predicate Encoded(q: Queue) {
    q.front == Wrap(Res(q.steal), Res(q.head)) && q.rear == Res(|q.log|)
  }

  ghost predicate QueueOk(q: Queue) {
    Ordered(q) && Encoded(q) && Live(q.buf, q.log, q.steal)
  }

  /** Slots behind the rear that the owner counts on. */
  function Reserve(p: Worker): nat {
    match p
    case PushWrite(_) => 1
    case PushStore(_) => 1
    case StealLoad(_) => CAP / 2
    case StealRear(_, _, _) => CAP / 2
    case StealCas(_, _, _, _, _) => CAP / 2
    case StealCopy(_, _, left, _, out, _) => |out| + left
    case StealPublish(_, _, out, _) => |out|
    case BatchLen(limit) => limit
    case BatchLock(num) => num
    case BatchSub(_, out, _) => |out|
    case BatchStore(out, _) => |out|
    case _ => 0
  }

  /** Tasks written behind the rear and not published. */
  function Out(p: Worker): seq<Task> {
    match p
    case PushStore(task) => [task]
    case StealCopy(_, _, _, _, out, _) => out
    case StealPublish(_, _, out, _) => out
    case BatchSub(_, out, _) => out
    case BatchStore(out, _) => out
    case _ => []
  }

  ghost predicate Written(buf: Slots, rear: nat, out: seq<Task>) {
    forall j | 0 <= j < |out| :: buf[SlotOf(rear + j)] == out[j]
  }

  /** What a worker knows of its own queue. */
  ghost predicate Local(q: Queue, p: Worker) {
    && |q.log| + Reserve(p) <= q.steal + CAP
    && Written(q.buf, |q.log|, Out(p))
    && (p.PopTake? ==> q.buf[SlotOf(p.pos)] == p.item)
    && (p.OverCas? ==> |q.log| == p.s0 + CAP && p.steal == Res(p.s0) && p.s0 <= q.steal)
  }

  predicate Claims(p: Worker) {
    p.OverCopy? || p.OverSync? || p.StealCopy? || p.StealPublish? || p.StealSync?
  }

  /** `due` are the last `left` positions of a claim and pos is the first of them. */
  ghost predicate Reading(q: Queue, pos: nat, left: nat, due: seq<Task>) {
    && left <= q.end <= |q.log| && q.steal <= q.end - left
    && due == q.log[q.end - left..q.end] && pos == Res(q.end - left)
  }

  /** What worker w knows of the queue it claims from. */
  ghost predicate Remote(q: Queue, w: nat, p: Worker) {
    && (Claims(p) ==> q.thief == Some(w))
    && (p.OverCopy? ==> Reading(q, p.pos, p.left, p.due))
    && (p.StealCopy? ==> Reading(q, p.pos, p.left, p.due) && p.left > 0)
    && (p.StealRear? || p.StealCas? ==> p.word == Wrap(Res(p.h0), Res(p.h0)) && p.h0 <= q.head)
    && (p.StealCas? ==>
          && p.h0 <= p.r0 <= |q.log| && (q.head == p.h0 ==> p.r0 <= p.h0 + CAP)
          && p.n == Half(Sub16(Res(p.r0), Res(p.h0))) && p.n > 0)
  }

  ghost predicate WorkerOk(queues: seq<Queue>, w: nat, p: Worker)
    requires w < |queues|
  {
    && Target(w, p) < |queues|
    && Local(queues[w], p) && Remote(queues[Target(w, p)], w, p)
  }

  /** The thief a queue names is at work on it. */
  ghost predicate ThiefOk(workers: seq<Worker>, i: nat, q: Queue) {
    q.thief.Some? ==>
      q.thief.value < |workers| && Claims(workers[q.thief.value]) && Target(q.thief.value, workers[q.thief.value]) == i
  }

  ghost predicate Shape(queues: seq<Queue>, workers: seq<Worker>) {
    && |queues| == |workers|
    && (forall i | 0 <= i < |queues| :: QueueOk(queues[i]) && ThiefOk(workers, i, queues[i]))
    && (forall w | 0 <= w < |workers| :: WorkerOk(queues, w, workers[w]))
  }

  /** How a queue may change under worker w: positions only grow, the log is
      only appended to, only the owner touches slots and log, and another
      worker's claim stays as it is. */
  ghost predicate Evolves(q: Queue, q': Queue, w: nat, owner: bool) {
    && q.steal <= q'.steal && q.head <= q'.head && q.log <= q'.log
    && (!owner ==> q'.buf == q.buf && q'.log == q.log)
    && (q.thief.Some? && q.thief.value != w ==> q'.steal == q.steal && q'.end == q.end && q'.thief == q.thief)
    && (q'.thief.Some? ==> q'.thief == q.thief || q'.thief.value == w)
  }

  lemma RemoteKept(q: Queue, q': Queue, w: nat, owner: bool, x: nat, p: Worker)
    requires Evolves(q, q', w, owner) && x != w && Remote(q, x, p)
    ensures Remote(q', x, p)
  {
  }

  lemma LocalKept(q: Queue, q': Queue, w: nat, p: Worker)
    requires Evolves(q, q', w, false) && Local(q, p)
    ensures Local(q', p)
  {
  }

  /** A step that moves worker w and one queue keeps the shape if the queue
      evolves, the worker's knowledge holds and it accounts for its claim. */
  lemma MoveKeepsShape(queues: seq<Queue>, workers: seq<Worker>, w: nat, p: Worker, i: nat, q: Queue)
    requires Shape(queues, workers) && w < |workers| && i < |queues|
    requires QueueOk(q) && Evolves(queues[i], q, w, i == w)
    requires WorkerOk(queues[i := q], w, p)
    requires Claims(workers[w]) && Target(w, workers[w]) != i ==> Claims(p) && Target(w, p) == Target(w, workers[w])
    requires q.thief == Some(w) ==> Claims(p) && Target(w, p) == i
    ensures Shape(queues[i := q], workers[w := p])
  {
    var queues', workers' := queues[i := q], workers[w := p];
    forall x | 0 <= x < |workers|
      ensures WorkerOk(queues', x, workers'[x])
    {
      if x != w {
        assert WorkerOk(queues, x, workers[x]);
        if Target(x, workers[x]) == i {
          RemoteKept(queues[i], q, w, i == w, x, workers[x]);
        }
        if x == i {
          LocalKept(queues[i], q, w, workers[x]);
        }
      }
    }
    forall j | 0 <= j < |queues|
      ensures QueueOk(queues'[j]) && ThiefOk(workers', j, queues'[j])
    {
      assert QueueOk(queues[j]) && ThiefOk(workers, j, queues[j]);
    }
  }

  // ----- one queue: the words decide right and the moves are sound -----

  lemma Decode(q: Queue)
    requires Encoded(q)
    ensures StealOf(q.front) == Res(q.steal) && HeadOf(q.front) == Res(q.head)
  {
    UnwrapWrap(Res(q.steal), Res(q.head));
  }

  lemma Sub16Near(a: nat, b: nat)
    requires a <= b < a + M
    ensures Sub16(Res(b), Res(a)) == b - a
  {
    Near(a, b);
  }

  /** Whatever the number of wraps: the used slots, the emptiness test and the
      test for a steal in progress are right. */
  lemma TestsExact(q: Queue)
    requires QueueOk(q)
    ensures Used(q) == |q.log| - q.steal <= CAP
    ensures HeadOf(q.front) == q.rear <==> q.head == |q.log|
    ensures StealOf(q.front) == HeadOf(q.front) <==> q.thief.None?
  {
    Decode(q);
    Sub16Near(q.steal, |q.log|);
    Near(q.head, |q.log|);
    Near(q.steal, q.head);
  }

  lemma PoppedOk(q: Queue, w: nat)
    requires QueueOk(q) && q.head < |q.log|
    ensures var r := Popped(q);
      && QueueOk(r) && Evolves(q, r, w, true)
      && r == q.(front := r.front, head := q.head + 1, steal := if q.thief.None? then q.head + 1 else q.steal)
  {
    Decode(q);
    TestsExact(q);
    AddRes(q.head, 1);
  }

  lemma ClaimedOk(q: Queue, w: nat, n: nat, owner: bool)
    requires QueueOk(q) && q.thief.None? && n > 0 && q.head + n <= |q.log|
    ensures QueueOk(Claimed(q, w, n)) && Evolves(q, Claimed(q, w, n), w, owner)
  {
    Decode(q);
    AddRes(q.head, n);
  }

  lemma SyncedOk(q: Queue, w: nat, owner: bool)
    requires QueueOk(q) && q.thief == Some(w)
    ensures QueueOk(Synced(q)) && Evolves(q, Synced(q), w, owner)
  {
    Decode(q);
  }

  /** A write behind the rear goes to the slot of that position, and to no live
      or unpublished one. */
  lemma FilledOk(q: Queue, w: nat, out: seq<Task>, v: Task)
    requires QueueOk(q) && Written(q.buf, |q.log|, out) && |q.log| + |out| < q.steal + CAP
    ensures var r := Filled(q, |out|, v);
      QueueOk(r) && Evolves(q, r, w, true) && Written(r.buf, |q.log|, out + [v])
  {
    var at := |q.log| + |out|;
    AddRes(|q.log|, |out|);
    SlotRes(at);
    forall k | q.steal <= k < at
      ensures SlotOf(k) != SlotOf(at)
    {
      SlotsDiffer(k, at);
    }
  }

  lemma {:induction false} FilledAllOk(q: Queue, w: nat, out: seq<Task>)
    requires QueueOk(q) && |q.log| + |out| <= q.steal + CAP
    ensures var r := FilledAll(q, out);
      QueueOk(r) && Evolves(q, r, w, true) && Written(r.buf, |q.log|, out)
    decreases |out|
  {
    if out != [] {
      var before, last := out[..|out| - 1], out[|out| - 1];
      FilledAllOk(q, w, before);
      FilledOk(FilledAll(q, before), w, before, last);
      assert before + [last] == out;
    }
  }

  lemma PublishedOk(q: Queue, w: nat, out: seq<Task>)
    requires QueueOk(q) && Written(q.buf, |q.log|, out) && |q.log| + |out| <= q.steal + CAP
    ensures QueueOk(Published(q, out)) && Evolves(q, Published(q, out), w, true)
  {
    AddRes(|q.log|, |out|);
    forall k | q.steal <= k < |q.log + out|
      ensures q.buf[SlotOf(k)] == (q.log + out)[k]
    {
      if k >= |q.log| {
        assert q.buf[SlotOf(|q.log| + (k - |q.log|))] == out[k - |q.log|];
      }
    }
  }

  // ----- every step keeps what its worker and the others know -----

  /** What a worker at p knows of its own queue and of the one it targets; `same`
      says that they are one. */
  ghost predicate Ready(w: nat, p: Worker, own: Queue, q: Queue, same: bool) {
    && (same ==> own == q) && (Stealing(p) || same)
    && (q.thief == Some(w) ==> Claims(p))
    && QueueOk(own) && QueueOk(q) && Local(own, p) && Remote(q, w, p)
  }

  /** A step is sound if the queue it changes evolves and stays well-formed, the
      worker knows what it has to, and it accounts for its claim. */
  ghost predicate Sound(w: nat, p: Worker, own: Queue, q: Queue, same: bool, m: Move) {
    && QueueOk(m.q)
    && Evolves(if ChangesOwn(p) then own else q, m.q, w, same || ChangesOwn(p))
    && (Stealing(m.p) ==> Stealing(p) && m.p.src == p.src) && (Stealing(p) ==> Stealing(m.p) || m.p.Idle?)
    && Local(if same || ChangesOwn(p) then m.q else own, m.p)
    && Remote(if same || !ChangesOwn(p) then m.q else q, w, m.p)
    && (if same || !ChangesOwn(p) then m.q.thief == Some(w) ==> Claims(m.p)
        else Claims(m.p) && m.q.thief == own.thief)
  }

  lemma PopSound(w: nat, p: Worker, q: Queue, g: Global)
    requires Ready(w, p, q, q, true) && (p.Pop? || p.PopTake?)
    ensures Sound(w, p, q, q, true, PopMove(p, q, g))
  {
    if p.Pop? && q.front == p.word && HeadOf(q.front) != q.rear {
      TestsExact(q);
      Decode(q);
      SlotRes(q.head);
      PoppedOk(q, w);
    }
  }

  lemma PushSound(w: nat, p: Worker, q: Queue, g: Global)
    requires Ready(w, p, q, q, true) && (p.Push? || p.PushStore?)
    ensures Sound(w, p, q, q, true, PushMove(p, q, g))
  {
    if p.Push? {
      TestsExact(q);
      Decode(q);
    } else {
      PublishedOk(q, w, [p.task]);
    }
  }

  lemma PushWriteSound(w: nat, p: Worker, q: Queue, g: Global)
    requires Ready(w, p, q, q, true) && p.PushWrite?
    ensures Sound(w, p, q, q, true, PushMove(p, q, g))
  {
    FilledOk(q, w, [], p.task);
    assert [] + [p.task] == [p.task];
  }

  /** The compare-exchange of an overflow succeeds only on a full queue nobody
      steals from. */
  lemma OverCasOk(q: Queue, p: Worker)
    requires QueueOk(q) && p.OverCas? && Local(q, p) && q.front == Wrap(p.steal, p.steal)
    ensures q.thief.None? && q.head == q.steal == p.s0 && |q.log| == q.head + CAP
  {
    Near(p.s0, q.steal);
    Near(q.steal, q.head);
    WordsDiffer(Res(q.steal), Res(q.head), p.steal, p.steal);
  }

  /** The slot a claim reads next holds the task it is due. */
  lemma NextDue(q: Queue, pos: nat, left: nat, due: seq<Task>)
    requires QueueOk(q) && Reading(q, pos, left, due) && left > 0
    ensures |due| == left && q.buf[SlotOf(pos)] == due[0] && Tail(due) == due[1..]
    ensures Reading(q, WrapAdd(pos, 1), left - 1, due[1..])
  {
    var at := q.end - left;
    SlotRes(at);
    AddRes(at, 1);
    assert q.buf[SlotOf(at)] == q.log[at];
  }

  lemma OverClaimSound(w: nat, p: Worker, q: Queue, g: Global)
    requires Ready(w, p, q, q, true) && p.OverCas?
    ensures Sound(w, p, q, q, true, OverMove(w, p, q, g))
  {
    if q.front == Wrap(p.steal, p.steal) {
      OverCasOk(q, p);
      ClaimedOk(q, w, CAP / 2, true);
    }
  }

  lemma OverSound(w: nat, p: Worker, q: Queue, g: Global)
    requires Ready(w, p, q, q, true) && (p.OverCopy? || p.OverSync? || p.OverGive?)
    ensures Sound(w, p, q, q, true, OverMove(w, p, q, g))
  {
    if p.OverCopy? && p.left > 0 {
      NextDue(q, p.pos, p.left, p.due);
    } else if p.OverSync? && q.front == p.prev {
      SyncedOk(q, w, true);
    }
  }

  /** The compare-exchange of a thief that is not too late succeeds only if
      nothing has left the queue since it looked, and then what it claims is
      there: at most 128 tasks. */
  lemma StealCasOk(q: Queue, w: nat, p: Worker)
    requires QueueOk(q) && p.StealCas? && Remote(q, w, p) && q.front == p.word && q.head - p.h0 < M
    ensures q.thief.None? && q.head == q.steal == p.h0
    ensures p.n == Half(p.r0 - p.h0) && 0 < p.n <= CAP / 2 && q.head + p.n <= |q.log|
  {
    Near(p.h0, q.head);
    Near(q.steal, q.head);
    WordsDiffer(Res(q.steal), Res(q.head), Res(p.h0), Res(p.h0));
    Sub16Near(p.h0, p.r0);
  }

  lemma LookSound(w: nat, p: Worker, own: Queue, q: Queue, same: bool, g: Global)
    requires Ready(w, p, own, q, same) && (p.StealLoad? || p.StealRear? || (p.StealCas? && q.front != p.word))
    ensures Sound(w, p, own, q, same, ClaimMove(w, p, q, g))
  {
    if p.StealRear? {
      UnwrapWrap(Res(p.h0), Res(p.h0));
    } else {
      Decode(q);
    }
  }

  lemma SyncSound(w: nat, p: Worker, own: Queue, q: Queue, same: bool, g: Global)
    requires Ready(w, p, own, q, same) && p.StealSync?
    ensures Sound(w, p, own, q, same, ClaimMove(w, p, q, g))
  {
    if q.front == p.prev {
      SyncedOk(q, w, same);
    }
  }

  /** The winner's claim: the tasks it is going to read are those it has claimed. */
  lemma WinOk(q: Queue, w: nat, p: Worker, g: Global, owner: bool)
    requires QueueOk(q) && p.StealCas? && Remote(q, w, p) && q.front == p.word && q.head - p.h0 < M
    ensures var m := ClaimMove(w, p, q, g);
      && QueueOk(m.q) && Evolves(q, m.q, w, owner) && Remote(m.q, w, m.p)
      && m.p.StealCopy? && m.p.src == p.src && m.p.out == [] && m.p.left == p.n <= CAP / 2
      && m.q.log == q.log && m.q.steal == q.steal
  {
    StealCasOk(q, w, p);
    UnwrapWrap(Res(p.h0), Res(p.h0));
    ClaimedOk(q, w, p.n, owner);
  }

  lemma WinSound(w: nat, p: Worker, own: Queue, q: Queue, same: bool, g: Global)
    requires Ready(w, p, own, q, same) && p.StealCas? && q.front == p.word && q.head - p.h0 < M
    ensures Sound(w, p, own, q, same, ClaimMove(w, p, q, g))
  {
    WinOk(q, w, p, g, same);
  }

  lemma CopySound(w: nat, p: Worker, own: Queue, q: Queue, same: bool, g: Global)
    requires Ready(w, p, own, q, same) && p.StealCopy? && p.left > 1
    ensures Sound(w, p, own, q, same, CopyMove(p, own, q, g))
  {
    NextDue(q, p.pos, p.left, p.due);
    FilledOk(own, w, p.out, p.due[0]);
  }

  lemma PublishSound(w: nat, p: Worker, own: Queue, q: Queue, same: bool, g: Global)
    requires Ready(w, p, own, q, same) && ((p.StealCopy? && p.left <= 1) || p.StealPublish?)
    ensures Sound(w, p, own, q, same, CopyMove(p, own, q, g))
  {
    if p.StealPublish? && p.out != [] {
      PublishedOk(own, w, p.out);
    }
  }

  lemma BatchSound(w: nat, p: Worker, q: Queue, g: Global, workers: nat)
    requires Ready(w, p, q, q, true) && Batching(p) && workers > 0
    ensures Sound(w, p, q, q, true, BatchMove(p, q, g, workers))
  {
    if p.BatchLock? && g.tasks != [] {
      var m := BatchMove(p, q, g, workers);
      FilledAllOk(q, w, m.p.out);
      BatchLocal(q, m.q, p, m.p.count, m.p.out, m.p.first);
    } else if p.BatchStore? {
      PublishedOk(q, w, p.out);
    }
  }

  lemma BatchLocal(q: Queue, r: Queue, p: Worker, count: nat, out: seq<Task>, first: Task)
    requires p.BatchLock? && Local(q, p) && |out| <= p.num
    requires r.steal == q.steal && r.log == q.log && Written(r.buf, |q.log|, out)
    ensures Local(r, BatchSub(count, out, first))
  {
  }

  lemma NextMoveSound(w: nat, p: Worker, own: Queue, q: Queue, same: bool, g: Global, workers: nat)
    requires Ready(w, p, own, q, same) && !p.Idle? && workers > 0 && (p.StealCas? ==> q.head - p.h0 < M)
    ensures Sound(w, p, own, q, same, NextMove(w, p, own, q, g, workers))
  {
    if p.Pop? || p.PopTake? {
      PopSound(w, p, own, g);
    } else if p.PushWrite? {
      PushWriteSound(w, p, own, g);
    } else if p.Push? || p.PushStore? {
      PushSound(w, p, own, g);
    } else if p.OverCas? {
      OverClaimSound(w, p, own, g);
    } else if Overflowing(p) {
      OverSound(w, p, own, g);
    } else if p.StealCas? && q.front == p.word {
      WinSound(w, p, own, q, same, g);
    } else if p.StealSync? {
      SyncSound(w, p, own, q, same, g);
    } else if Claiming(p) {
      LookSound(w, p, own, q, same, g);
    } else if Batching(p) {
      BatchSound(w, p, own, g, workers);
    } else if p.StealCopy? && p.left > 1 {
      CopySound(w, p, own, q, same, g);
    } else {
      PublishSound(w, p, own, q, same, g);
    }
  }

  // ----- every step keeps the shape -----

  lemma Grasp(s: System, w: nat)
    requires Shape(s.queues, s.workers) && w < |s.workers|
    ensures var p := s.workers[w];
      Target(w, p) < |s.queues| && Ready(w, p, s.queues[w], s.queues[Target(w, p)], Target(w, p) == w)
    ensures ThiefOk(s.workers, w, s.queues[w])
  {
    var t := Target(w, s.workers[w]);
    assert WorkerOk(s.queues, w, s.workers[w]);
    assert QueueOk(s.queues[t]) && ThiefOk(s.workers, t, s.queues[t]);
  }

  lemma GoKeepsShape(s: System, w: nat)
    requires Shape(s.queues, s.workers) && Enabled(s, Go(w)) && Lag(s, w) < M
    ensures Shape(GoStep(s, w).queues, GoStep(s, w).workers)
  {
    Grasp(s, w);
    var p := s.workers[w];
    var own, t := s.queues[w], Target(w, p);
    var m := MoveOf(s, w);
    NextMoveSound(w, p, own, s.queues[t], t == w, Global(s.globals, s.len), |s.workers|);
    MoveKeepsShape(s.queues, s.workers, w, m.p, Changed(w, p), m.q);
  }

  lemma StartedLocal(e: Event, w: nat, q: Queue)
    requires !e.Go? && !e.Submit? && QueueOk(q)
    ensures Local(q, Started(e, q)) && !Claims(Started(e, q))
  {
    TestsExact(q);
  }

  lemma StartKeepsShape(s: System, e: Event)
    requires Shape(s.queues, s.workers) && Enabled(s, e) && !e.Go?
    ensures Shape(Step(s, e).queues, Step(s, e).workers)
  {
    if !e.Submit? {
      Grasp(s, e.w);
      var q := s.queues[e.w];
      StartedLocal(e, e.w, q);
      var p := Started(e, q);
      var i := Target(e.w, p);
      assert QueueOk(s.queues[i]) && s.queues[i := s.queues[i]] == s.queues;
      MoveKeepsShape(s.queues, s.workers, e.w, p, e.w, q);
      assert s.queues[e.w := q] == s.queues;
    }
  }
}
