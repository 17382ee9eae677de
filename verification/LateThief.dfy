/** How late a thief may be: a thief whose compare-exchange comes 2^16 head moves
    after its load finds the same word again and takes a task that was already
    handed out.  One move fewer is always safe. */
module LateThief {
  import opened Options
  import opened Positions
  import opened RunQueue
  import TaskConservation
  import Runs

  ghost function Within(bound: nat): (System, System) -> bool {
    (s, s') => NextWithin(bound, s, s')
  }

  /** The steps of a run that lets thieves be one move too late. */
  ghost predicate Late(s: System, s': System) { NextWithin(M + 1, s, s') }

  lemma Take(run: seq<System>, s: System, e: Event) returns (longer: seq<System>, s': System)
    requires Runs.IsRun(Init, Late, run) && run[|run| - 1] == s && Enabled(s, e) && (e.Go? ==> Lag(s, e.w) <= M)
    ensures Runs.IsRun(Init, Late, longer) && longer[|longer| - 1] == s'
    ensures s' == Step(s, e)
  {
    s' := Step(s, e);
    assert Late(s, s');
    Runs.Extend(Init, Late, run, s');
    longer := run + [s'];
  }

  /** A queue at positions k and r that nobody steals from. */
  ghost predicate At(q: Queue, k: nat, r: nat) {
    && q.steal == q.head == k && |q.log| == r && q.thief == None
    && q.front == Wrap(Res(k), Res(k)) && q.rear == Res(r)
  }

  /** Two workers: the owner of queue 0 is idle after r pushes and k pops, the
      other is at p. */
  ghost predicate Quiet(s: System, k: nat, r: nat, p: Worker) {
    && |s.queues| == 2 && s.workers == [Idle, p] && s.globals == []
    && At(s.queues[0], k, r) && At(s.queues[1], 0, 0)
    && |s.submitted| == r && |s.done| == k
  }

  ghost predicate Reaches(run: seq<System>, s: System, k: nat, r: nat, p: Worker) {
    Runs.IsRun(Init, Late, run) && run[|run| - 1] == s && Quiet(s, k, r, p)
  }

  lemma PublishedAt(q: Queue, k: nat, task: Task)
    requires At(q, k, k)
    ensures At(Published(Filled(q, 0, task), [task]), k, k + 1)
  {
    AddRes(k, 1);
  }

  lemma PushOne(run: seq<System>, s: System, k: nat, p: Worker) returns (longer: seq<System>, s': System)
    requires Reaches(run, s, k, k, p)
    ensures Reaches(longer, s', k, k + 1, p)
  {
    UnwrapWrap(Res(k), Res(k));
    longer, s' := Take(run, s, StartPush(0, 0));
    assert Used(s.queues[0]) == 0;
    longer, s' := Take(longer, s', Go(0));
    assert s'.workers == [PushWrite(0), p] && s'.queues == s.queues;
    longer, s' := Take(longer, s', Go(0));
    assert s'.workers == [PushStore(0), p] && s'.queues == s.queues[0 := Filled(s.queues[0], 0, 0)];
    longer, s' := Take(longer, s', Go(0));
    PublishedAt(s.queues[0], k, 0);
  }

  lemma PoppedAt(q: Queue, k: nat)
    requires At(q, k, k + 1)
    ensures HeadOf(q.front) != q.rear && At(Popped(q), k + 1, k + 1)
  {
    UnwrapWrap(Res(k), Res(k));
    Near(k, k + 1);
    AddRes(k, 1);
  }

  lemma PopOne(run: seq<System>, s: System, k: nat, p: Worker) returns (longer: seq<System>, s': System)
    requires Reaches(run, s, k, k + 1, p)
    ensures Reaches(longer, s', k + 1, k + 1, p)
  {
    PoppedAt(s.queues[0], k);
    longer, s' := Take(run, s, StartPop(0));
    assert s'.workers == [Pop(s.queues[0].front), p] && s'.queues == s.queues;
    longer, s' := Take(longer, s', Go(0));
    assert s'.workers[0].PopTake? && s'.queues == s.queues[0 := Popped(s.queues[0])];
    longer, s' := Take(longer, s', Go(0));
    assert s'.workers == [Idle, p];
  }

  lemma {:induction false} PushAndPop(run: seq<System>, s: System, k: nat, n: nat, p: Worker)
    returns (longer: seq<System>, s': System)
    requires Reaches(run, s, k, k, p)
    ensures Reaches(longer, s', k + n, k + n, p)
    decreases n
  {
    longer, s' := run, s;
    if n > 0 {
      longer, s' := PushOne(longer, s', k, p);
      longer, s' := PopOne(longer, s', k, p);
      longer, s' := PushAndPop(longer, s', k + 1, n - 1, p);
    }
  }

  function Start(): System {
    var q := Queue(0, 0, seq(CAP, _ => 0), 0, 0, [], None, 0);
    System([q, q], [Idle, Idle], [], 0, [], [])
  }

  const LOOKED := StealCas(0, 0, 1, 0, 1)

  lemma PushedOnce() returns (run: seq<System>, s: System)
    ensures Reaches(run, s, 0, 1, Idle)
  {
    s := Start();
    run := [s];
    run, s := PushOne(run, s, 0, Idle);
  }

  /** Worker 1 sees one task in queue 0 and pauses before its compare-exchange. */
  lemma LooksOnce() returns (run: seq<System>, s: System)
    ensures Reaches(run, s, 0, 1, LOOKED)
  {
    run, s := PushedOnce();
    UnwrapWrap(0, 0);
    run, s := Take(run, s, StartSteal(1, 0));
    assert s.workers == [Idle, StealLoad(0)];
    run, s := Take(run, s, Go(1));
    assert s.workers == [Idle, StealRear(0, 0, 0)];
    run, s := Take(run, s, Go(1));
    assert s.workers == [Idle, LOOKED];
  }

  /** The paused thief wins its compare-exchange on the empty queue. */
  lemma WinsLate(run: seq<System>, s: System) returns (longer: seq<System>, s': System)
    requires Reaches(run, s, M, M, LOOKED)
    ensures Runs.IsRun(Init, Late, longer) && longer[|longer| - 1] == s'
    ensures |s'.queues| == 2 && s'.queues[0].front == Wrap(0, 1) && |s'.done| == |s'.submitted|
    ensures s'.workers == [Idle, StealCopy(0, 0, 1, Wrap(0, 1), [], [])]
  {
    UnwrapWrap(0, 0);
    assert Res(M) == 0;
    longer, s' := Take(run, s, Go(1));
  }

  /** Then it takes a slot of that queue. */
  lemma TakesStale(run: seq<System>, s: System) returns (longer: seq<System>, s': System)
    requires Reaches(run, s, M, M, LOOKED)
    ensures Runs.IsRun(Init, Late, longer) && longer[|longer| - 1] == s'
    ensures |s'.done| == |s'.submitted| + 1
  {
    longer, s' := WinsLate(run, s);
    longer, s' := Take(longer, s', Go(1));
    var last := s'.workers[1].last;
    assert s'.workers == [Idle, StealPublish(0, Wrap(0, 1), [], last)];
    longer, s' := Take(longer, s', Go(1));
    assert s'.workers == [Idle, StealSync(0, Wrap(0, 1), last)];
    longer, s' := Take(longer, s', Go(1));
  }

  lemma DuplicatingRun() returns (run: seq<System>, s: System)
    ensures Runs.IsRun(Init, Late, run) && run[|run| - 1] == s
    ensures |s.done| == |s.submitted| + 1
  {
    run, s := LooksOnce();
    run, s := PopOne(run, s, 0, LOOKED);
    run, s := PushAndPop(run, s, 1, M - 1, LOOKED);
    run, s := TakesStale(run, s);
  }

  /** In all runs whose thieves are less than `bound` head moves late every task
      is handed out at most as often as it was submitted, exactly when bound is
      at most 2^16. */
  lemma HandedOutOnceIff(bound: nat)
    ensures (forall run: seq<System>, i | Runs.IsRun(Init, Within(bound), run) && 0 <= i < |run| ::
               multiset(run[i].done) <= multiset(run[i].submitted))
            <==> bound <= M
  {
    if bound <= M {
      forall run: seq<System>, i | Runs.IsRun(Init, Within(bound), run) && 0 <= i < |run|
        ensures multiset(run[i].done) <= multiset(run[i].submitted)
      {
        TightRun(run, bound);
        TaskConservation.HandedOutOnce(run, i);
      }
    } else {
      var run, s := DuplicatingRun();
      LooseRun(run, bound);
      if multiset(s.done) <= multiset(s.submitted) {
        NoMore(multiset(s.done), multiset(s.submitted));
      }
      assert run[|run| - 1] == s;
    }
  }

  lemma NoMore(a: multiset<Task>, b: multiset<Task>)
    requires a <= b
    ensures |a| <= |b|
  {
    assert b == a + (b - a);
  }

  lemma TightRun(run: seq<System>, bound: nat)
    requires Runs.IsRun(Init, Within(bound), run) && bound <= M
    ensures Runs.IsRun(Init, Next, run)
  {
    forall i | 0 < i < |run|
      ensures Next(run[i - 1], run[i])
    {
      assert Within(bound)(run[i - 1], run[i]);
      assert NextWithin(bound, run[i - 1], run[i]);
    }
  }

  lemma LooseRun(run: seq<System>, bound: nat)
    requires Runs.IsRun(Init, Late, run) && bound > M
    ensures Runs.IsRun(Init, Within(bound), run)
  {
    forall i | 0 < i < |run|
      ensures Within(bound)(run[i - 1], run[i])
    {
      assert Late(run[i - 1], run[i]);
      assert NextWithin(bound, run[i - 1], run[i]);
    }
  }
}
