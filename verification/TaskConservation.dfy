/** No task is lost or duplicated by the run queues: in every run each submitted
    task is in exactly one place, a local queue, a worker's hands, the global
    list or the tasks handed out. */
module TaskConservation {
  import opened Options
  import opened Tally
  import opened Positions
  import opened RunQueue
  import Runs

  function Is(x: Task): Task -> bool { t => t == x }

  /** How often a task occurs in a sequence. */
  function Occ(s: seq<Task>, x: Task): nat { Count(s, Is(x)) }

  lemma OccAppend(a: seq<Task>, b: seq<Task>, x: Task)
    ensures Occ(a + b, x) == Occ(a, x) + Occ(b, x)
  {
    CountConcat(a, b, Is(x));
  }

  lemma OccSnoc(s: seq<Task>, t: Task, x: Task)
    ensures Occ(s + [t], x) == Occ(s, x) + One(t == x)
  {
    CountAppend(s, t, Is(x));
  }

  /** How often x is in a queue, not claimed by anybody. */
  function Inside(q: Queue, x: Task): nat { Occ(Slice(q.log, q.head, |q.log|), x) }

  /** How often a worker has x or has claimed it. */
  function Hands(p: Worker, x: Task): nat {
    match p
    case PopTake(_, item) => One(item == x)
    case Push(task) => One(task == x)
    case PushWrite(task) => One(task == x)
    case PushStore(task) => One(task == x)
    case OverCas(task, _, _) => One(task == x)
    case OverCopy(task, _, _, _, tmp, due) => One(task == x) + Occ(tmp, x) + Occ(due, x)
    case OverSync(task, tmp, _) => One(task == x) + Occ(tmp, x)
    case OverGive(task, tmp) => One(task == x) + Occ(tmp, x)
    case StealCopy(_, _, _, _, out, due) => Occ(out, x) + Occ(due, x)
    case StealPublish(_, _, out, last) => Occ(out, x) + One(last == x)
    case StealSync(_, _, last) => One(last == x)
    case BatchSub(_, out, first) => Occ(out, x) + One(first == x)
    case BatchStore(out, first) => Occ(out, x) + One(first == x)
    case _ => 0
  }

  function InsideOf(x: Task): Queue -> nat { q => Inside(q, x) }
  function HandsOf(x: Task): Worker -> nat { p => Hands(p, x) }

  /** How often x is anywhere in the system. */
  function Everywhere(s: System, x: Task): nat {
    Sum(s.queues, InsideOf(x)) + Sum(s.workers, HandsOf(x)) + Occ(s.globals, x) + Occ(s.done, x)
  }

  ghost predicate Conserved(s: System) { forall x :: Everywhere(s, x) == Occ(s.submitted, x) }

  /** A step that takes the worker from p and the queue it changes from q keeps
      every task it has in view. */
  ghost predicate Balanced(p: Worker, q: Queue, g: Global, m: Move, x: Task) {
    Inside(m.q, x) + Hands(m.p, x) + Occ(m.g.tasks, x) + Occ(m.handed, x) ==
    Inside(q, x) + Hands(p, x) + Occ(g.tasks, x)
  }

  lemma SplitAt(log: seq<Task>, a: nat, b: nat, x: Task)
    requires a <= b <= |log|
    ensures Occ(Slice(log, a, |log|), x) == Occ(Slice(log, a, b), x) + Occ(Slice(log, b, |log|), x)
  {
    assert log[a..|log|] == log[a..b] + log[b..|log|];
    OccAppend(log[a..b], log[b..|log|], x);
  }

  lemma OccOne(t: Task, x: Task)
    ensures Occ([t], x) == One(t == x)
  {
    assert [] + [t] == [t];
    OccSnoc([], t, x);
  }

  lemma PopMoves(q: Queue, w: nat, x: Task)
    requires QueueOk(q) && q.head < |q.log|
    ensures Inside(q, x) == Inside(Popped(q), x) + One(q.log[q.head] == x)
  {
    PoppedOk(q, w);
    SplitAt(q.log, q.head, q.head + 1, x);
    assert Slice(q.log, q.head, q.head + 1) == [q.log[q.head]];
    OccOne(q.log[q.head], x);
  }

  lemma ClaimMoves(q: Queue, w: nat, n: nat, x: Task)
    requires q.head + n <= |q.log|
    ensures Inside(q, x) == Inside(Claimed(q, w, n), x) + Occ(Slice(q.log, q.head, q.head + n), x)
  {
    SplitAt(q.log, q.head, q.head + n, x);
  }

  lemma BatchMoves(g: seq<Task>, count: nat, x: Task)
    requires 1 <= count <= |g|
    ensures Occ(g, x) == One(g[0] == x) + Occ(g[1..count], x) + Occ(g[count..], x)
  {
    assert g == [g[0]] + g[1..count] + g[count..];
    OccAppend([g[0]] + g[1..count], g[count..], x);
    OccAppend([g[0]], g[1..count], x);
    OccOne(g[0], x);
  }

  lemma PopBalanced(w: nat, p: Worker, q: Queue, g: Global, x: Task)
    requires QueueOk(q) && Local(q, p) && (p.Pop? || p.PopTake?)
    ensures Balanced(p, q, g, PopMove(p, q, g), x)
  {
    if p.PopTake? {
      OccOne(p.item, x);
    } else if q.front == p.word && HeadOf(q.front) != q.rear {
      TestsExact(q);
      PopMoves(q, w, x);
    }
  }

  lemma PublishInside(q: Queue, out: seq<Task>, x: Task)
    requires q.head <= |q.log|
    ensures Inside(Published(q, out), x) == Inside(q, x) + Occ(out, x)
  {
    var log := q.log + out;
    assert log[q.head..|log|] == q.log[q.head..|q.log|] + out;
    OccAppend(q.log[q.head..|q.log|], out, x);
  }

  lemma PushBalanced(p: Worker, q: Queue, g: Global, x: Task)
    requires q.head <= |q.log| && (p.Push? || p.PushWrite? || p.PushStore?)
    ensures Balanced(p, q, g, PushMove(p, q, g), x)
  {
    PublishInside(q, [p.task], x);
    OccOne(p.task, x);
  }

  lemma HeadTail(due: seq<Task>, x: Task)
    requires due != []
    ensures Occ(due, x) == One(due[0] == x) + Occ(due[1..], x)
  {
    assert due == [due[0]] + due[1..];
    OccAppend([due[0]], due[1..], x);
    OccOne(due[0], x);
  }

  /** The task a copy reads next is the first one due. */
  ghost predicate Due(q: Queue, pos: nat, left: nat, due: seq<Task>) {
    left == |due| && (left > 0 ==> q.buf[SlotOf(pos)] == due[0])
  }

  lemma OverClaimBalanced(w: nat, p: Worker, q: Queue, g: Global, x: Task)
    requires p.OverCas? && (q.front == Wrap(p.steal, p.steal) ==> q.head + CAP / 2 <= |q.log|)
    ensures Balanced(p, q, g, OverMove(w, p, q, g), x)
  {
    if q.front == Wrap(p.steal, p.steal) {
      ClaimMoves(q, w, CAP / 2, x);
    }
  }

  lemma OverCopyBalanced(w: nat, p: Worker, q: Queue, g: Global, x: Task)
    requires p.OverCopy? && Due(q, p.pos, p.left, p.due)
    ensures Balanced(p, q, g, OverMove(w, p, q, g), x)
  {
    if p.left > 0 {
      HeadTail(p.due, x);
      OccSnoc(p.tmp, p.due[0], x);
    }
  }

  lemma OverEndBalanced(w: nat, p: Worker, q: Queue, g: Global, x: Task)
    requires p.OverSync? || p.OverGive?
    ensures Balanced(p, q, g, OverMove(w, p, q, g), x)
  {
    OccAppend(g.tasks, p.tmp, x);
    OccSnoc(g.tasks + p.tmp, p.task, x);
  }

  lemma ClaimBalanced(w: nat, p: Worker, q: Queue, g: Global, x: Task)
    requires Claiming(p) && (p.StealCas? && q.front == p.word ==> q.head + p.n <= |q.log|)
    ensures Balanced(p, q, g, ClaimMove(w, p, q, g), x)
  {
    if p.StealCas? && q.front == p.word {
      ClaimMoves(q, w, p.n, x);
    } else if p.StealSync? {
      OccOne(p.last, x);
    }
  }

  lemma CopyBalanced(p: Worker, own: Queue, q: Queue, g: Global, x: Task)
    requires p.StealCopy? && p.left > 0 && Due(q, p.pos, p.left, p.due)
    ensures Balanced(p, own, g, CopyMove(p, own, q, g), x)
  {
    HeadTail(p.due, x);
    OccSnoc(p.out, p.due[0], x);
  }

  lemma PublishBalanced(p: Worker, own: Queue, q: Queue, g: Global, x: Task)
    requires own.head <= |own.log| && p.StealPublish?
    ensures Balanced(p, own, g, CopyMove(p, own, q, g), x)
  {
    var m := CopyMove(p, own, q, g);
    if p.out != [] {
      PublishInside(own, p.out, x);
    }
    assert Inside(m.q, x) == Inside(own, x) + Occ(p.out, x);
    assert Hands(m.p, x) + Occ(p.out, x) == Hands(p, x);
  }

  lemma BatchLockBalanced(p: Worker, q: Queue, g: Global, workers: nat, x: Task)
    requires p.BatchLock? && workers > 0
    ensures Balanced(p, q, g, BatchMove(p, q, g, workers), x)
  {
    if g.tasks != [] {
      BatchMoves(g.tasks, Max(1, Min(p.num, |g.tasks|)), x);
    }
  }

  lemma BatchBalanced(p: Worker, q: Queue, g: Global, workers: nat, x: Task)
    requires q.head <= |q.log| && (p.BatchLen? || p.BatchSub? || p.BatchStore?) && workers > 0
    ensures Balanced(p, q, g, BatchMove(p, q, g, workers), x)
  {
    if p.BatchStore? {
      PublishInside(q, p.out, x);
      OccOne(p.first, x);
      assert Hands(p, x) == Occ(p.out, x) + Occ([p.first], x);
    }
  }

  lemma OverBalanced(w: nat, p: Worker, q: Queue, g: Global, x: Task)
    requires QueueOk(q) && Local(q, p) && Remote(q, w, p) && Overflowing(p)
    ensures Balanced(p, q, g, OverMove(w, p, q, g), x)
  {
    if p.OverCas? {
      if q.front == Wrap(p.steal, p.steal) {
        OverCasOk(q, p);
      }
      OverClaimBalanced(w, p, q, g, x);
    } else if p.OverCopy? {
      if p.left > 0 {
        NextDue(q, p.pos, p.left, p.due);
      }
      OverCopyBalanced(w, p, q, g, x);
    } else {
      OverEndBalanced(w, p, q, g, x);
    }
  }

  lemma NextMoveBalanced(w: nat, p: Worker, own: Queue, q: Queue, same: bool, g: Global, workers: nat, x: Task)
    requires Ready(w, p, own, q, same) && !p.Idle? && workers > 0 && (p.StealCas? ==> q.head - p.h0 < M)
    ensures Balanced(p, if ChangesOwn(p) then own else q, g, NextMove(w, p, own, q, g, workers), x)
  {
    if p.Pop? || p.PopTake? {
      PopBalanced(w, p, own, g, x);
    } else if p.Push? || p.PushWrite? || p.PushStore? {
      PushBalanced(p, own, g, x);
    } else if Overflowing(p) {
      OverBalanced(w, p, own, g, x);
    } else if Claiming(p) {
      if p.StealCas? && q.front == p.word {
        StealCasOk(q, w, p);
      }
      ClaimBalanced(w, p, q, g, x);
    } else if p.BatchLock? {
      BatchLockBalanced(p, own, g, workers, x);
    } else if Batching(p) {
      BatchBalanced(p, own, g, workers, x);
    } else if p.StealCopy? {
      NextDue(q, p.pos, p.left, p.due);
      CopyBalanced(p, own, q, g, x);
    } else {
      PublishBalanced(p, own, q, g, x);
    }
  }

  lemma GoConserves(s: System, w: nat, x: Task)
    requires Shape(s.queues, s.workers) && Enabled(s, Go(w)) && Lag(s, w) < M
    requires Everywhere(s, x) == Occ(s.submitted, x)
    ensures Everywhere(GoStep(s, w), x) == Occ(s.submitted, x)
  {
    Grasp(s, w);
    var p, m := s.workers[w], MoveOf(s, w);
    var t, c := Target(w, p), Changed(w, p);
    NextMoveBalanced(w, p, s.queues[w], s.queues[t], t == w, Global(s.globals, s.len), |s.workers|, x);
    SumUpdate(s.queues, c, m.q, InsideOf(x));
    SumUpdate(s.workers, w, m.p, HandsOf(x));
    OccAppend(s.done, m.handed, x);
  }

  lemma StartConserves(s: System, e: Event, x: Task)
    requires Enabled(s, e) && !e.Go? && Everywhere(s, x) == Occ(s.submitted, x)
    ensures Everywhere(Step(s, e), x) == Occ(Step(s, e).submitted, x)
  {
    OccAppend(s.submitted, Entering(e), x);
    if e.Submit? {
      OccSnoc(s.globals, e.task, x);
      OccOne(e.task, x);
    } else {
      if e.StartPush? {
        OccOne(e.task, x);
      }
      SumUpdate(s.workers, e.w, Started(e, s.queues[e.w]), HandsOf(x));
    }
  }

  // ----- the length of the global queue -----

  function Owed(p: Worker): nat { if p.BatchSub? then p.count else 0 }

  /** The length word counts the list and what a batch has taken off it and not
      yet subtracted.  Inside a push, with the list locked, the program raises
      the word after the list; those two are one step here. */
  ghost predicate LenExact(s: System) { s.len == |s.globals| + Sum(s.workers, Owed) }

  lemma NextMoveCounts(w: nat, p: Worker, own: Queue, q: Queue, g: Global, workers: nat)
    requires !p.Idle? && workers > 0 && |g.tasks| + Owed(p) <= g.len
    ensures var m := NextMove(w, p, own, q, g, workers);
      m.g.len + |g.tasks| + Owed(p) == g.len + |m.g.tasks| + Owed(m.p)
  {
  }

  lemma StepKeepsLen(s: System, e: Event)
    requires Enabled(s, e) && LenExact(s)
    ensures LenExact(Step(s, e))
    ensures e.Go? ==> Owed(s.workers[e.w]) <= s.len
  {
    if e.Go? {
      var p, m := s.workers[e.w], MoveOf(s, e.w);
      SumUpdate(s.workers, e.w, m.p, Owed);
      NextMoveCounts(e.w, p, s.queues[e.w], s.queues[Target(e.w, p)], Global(s.globals, s.len), |s.workers|);
    } else if !e.Submit? {
      SumUpdate(s.workers, e.w, Started(e, s.queues[e.w]), Owed);
    }
  }

  // ----- over all runs -----

  ghost predicate Inv(s: System) {
    Shape(s.queues, s.workers) && Conserved(s) && LenExact(s)
  }

  lemma InitInv(s: System)
    requires Init(s)
    ensures Inv(s)
  {
    forall x
      ensures Everywhere(s, x) == Occ(s.submitted, x)
    {
      SumToZero(s.queues, InsideOf(x), |s.queues|);
      SumToZero(s.workers, HandsOf(x), |s.workers|);
    }
    SumToZero(s.workers, Owed, |s.workers|);
    forall i | 0 <= i < |s.queues|
      ensures QueueOk(s.queues[i])
    {
      assert Fresh(s.queues[i]);
    }
  }

  lemma StepKeepsInv(s: System, s': System)
    requires Inv(s) && Next(s, s')
    ensures Inv(s')
  {
    var e :| Enabled(s, e) && (e.Go? ==> Lag(s, e.w) < M) && s' == Step(s, e);
    StepKeepsLen(s, e);
    if e.Go? {
      GoKeepsShape(s, e.w);
    } else {
      StartKeepsShape(s, e);
    }
    forall x
      ensures Everywhere(s', x) == Occ(s'.submitted, x)
    {
      if e.Go? {
        GoConserves(s, e.w, x);
      } else {
        StartConserves(s, e, x);
      }
    }
  }

  lemma RunsKeepInv(run: seq<System>)
    requires Runs.IsRun(Init, Next, run)
    ensures forall i | 0 <= i < |run| :: Inv(run[i])
  {
    forall s | Init(s)
      ensures Inv(s)
    {
      InitInv(s);
    }
    forall s, s' | Inv(s) && Next(s, s')
      ensures Inv(s')
    {
      StepKeepsInv(s, s');
    }
    Runs.Invariance(Init, Next, Inv, run);
  }

  // ----- theorems -----

  /** In every run in which no thief's compare-exchange comes 2^16 or more head
      moves after its load, each task is in all places together exactly as often
      as it was submitted. */
  lemma NoTaskLostOrDuplicated(run: seq<System>, i: nat, x: Task)
    requires Runs.IsRun(Init, Next, run) && i < |run|
    ensures Everywhere(run[i], x) == Occ(run[i].submitted, x)
  {
    RunsKeepInv(run);
  }

  /** No task is handed out more often than it was submitted. */
  lemma HandedOutOnce(run: seq<System>, i: nat)
    requires Runs.IsRun(Init, Next, run) && i < |run|
    ensures multiset(run[i].done) <= multiset(run[i].submitted)
  {
    forall x: Task
      ensures multiset(run[i].done)[x] <= multiset(run[i].submitted)[x]
    {
      NoTaskLostOrDuplicated(run, i, x);
      OccIs(run[i].done, x);
      OccIs(run[i].submitted, x);
    }
  }

  lemma {:induction false} OccIs(s: seq<Task>, x: Task)
    ensures Occ(s, x) == multiset(s)[x]
    decreases |s|
  {
    if s != [] {
      var before, last := s[..|s| - 1], s[|s| - 1];
      assert s == before + [last];
      OccIs(before, x);
      OccSnoc(before, last, x);
    }
  }

  /** The words of every queue are the residues of positions that are in order
      and at most 256 apart, every position not given back is in its slot, and
      so the tests on the words are right after any number of wraps. */
  lemma PositionsExact(run: seq<System>, i: nat, j: nat)
    requires Runs.IsRun(Init, Next, run) && i < |run| && j < |run[i].queues|
    ensures var q := run[i].queues[j];
      && q.steal <= q.head <= |q.log| <= q.steal + CAP
      && q.front == Wrap(Res(q.steal), Res(q.head)) && q.rear == Res(|q.log|)
      && (forall k | q.steal <= k < |q.log| :: q.buf[SlotOf(k)] == q.log[k])
      && Used(q) == |q.log| - q.steal
      && (HeadOf(q.front) == q.rear <==> q.head == |q.log|)
      && (StealOf(q.front) == HeadOf(q.front) <==> q.thief.None?)
  {
    assert QueueOk(run[i].queues[j]) by {
      RunsKeepInv(run);
    }
    TestsExact(run[i].queues[j]);
  }

  lemma Knows(run: seq<System>, i: nat, w: nat)
    requires Runs.IsRun(Init, Next, run) && i < |run| && w < |run[i].workers| == |run[i].queues|
    ensures var s, p := run[i], run[i].workers[w];
      Target(w, p) < |s.queues| && Ready(w, p, s.queues[w], s.queues[Target(w, p)], Target(w, p) == w)
  {
    RunsKeepInv(run);
    Grasp(run[i], w);
  }

  /** A slot that a worker is going to write belongs to no position that is live,
      being stolen or already written behind the rear. */
  lemma WritesMissLiveSlots(run: seq<System>, i: nat, w: nat, j: nat, k: nat)
    requires Runs.IsRun(Init, Next, run) && i < |run| && w < |run[i].workers| == |run[i].queues|
    requires |Out(run[i].workers[w])| <= j < Reserve(run[i].workers[w])
    requires run[i].queues[w].steal <= k < |run[i].queues[w].log| + j
    ensures SlotOf(k) != SlotOf(WrapAdd(run[i].queues[w].rear, j))
  {
    Knows(run, i, w);
    var at := |run[i].queues[w].log| + j;
    AddRes(|run[i].queues[w].log|, j);
    SlotRes(at);
    SlotsDiffer(k, at);
  }

  /** The slot that a worker is about to read holds the task it has claimed. */
  lemma ReadsWhatIsDue(run: seq<System>, i: nat, w: nat)
    requires Runs.IsRun(Init, Next, run) && i < |run| && w < |run[i].workers| == |run[i].queues|
    ensures var p := run[i].workers[w];
      && Target(w, p) < |run[i].queues|
      && (p.PopTake? ==> run[i].queues[w].buf[SlotOf(p.pos)] == p.item)
      && ((p.OverCopy? || p.StealCopy?) && p.left > 0 ==>
            p.due != [] && run[i].queues[Target(w, p)].buf[SlotOf(p.pos)] == p.due[0])
  {
    Knows(run, i, w);
    var p := run[i].workers[w];
    if (p.OverCopy? || p.StealCopy?) && p.left > 0 {
      NextDue(run[i].queues[Target(w, p)], p.pos, p.left, p.due);
    }
  }

  /** The assertion in `sync_steal_pos` holds whenever its compare-exchange can
      fail: the claim is still open, so the two positions differ. */
  lemma SyncNeverPanics(run: seq<System>, i: nat, w: nat)
    requires Runs.IsRun(Init, Next, run) && i < |run| && w < |run[i].workers| == |run[i].queues|
    requires run[i].workers[w].OverSync? || run[i].workers[w].StealSync?
    ensures Target(w, run[i].workers[w]) < |run[i].queues|
    ensures var q := run[i].queues[Target(w, run[i].workers[w])]; StealOf(q.front) != HeadOf(q.front)
  {
    Knows(run, i, w);
    TestsExact(run[i].queues[Target(w, run[i].workers[w])]);
  }

  /** With the list lock free the global length is at least the length of the
      list, and the late subtraction of a batch never takes it below zero. */
  lemma LengthNeverUnderflows(run: seq<System>, i: nat, w: nat)
    requires Runs.IsRun(Init, Next, run) && i < |run| && w < |run[i].workers| == |run[i].queues|
    ensures run[i].len >= |run[i].globals|
    ensures run[i].workers[w].BatchSub? ==> run[i].workers[w].count <= run[i].len
  {
    RunsKeepInv(run);
    if run[i].workers[w].BatchSub? {
      StepKeepsLen(run[i], Go(w));
    }
  }
}
