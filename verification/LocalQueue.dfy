/** The run queues of executor/queue.rs as objects, for calls that nobody
    interferes with: every compare-exchange succeeds at once.  A steal may still
    be open when a call starts, as another worker leaves it between its claim
    and its sync. */
module LocalQueue {
  import opened Options
  import opened Positions

  const HALF := CAP / 2

  /** The tasks s are in the slots from position pos on. */
  ghost predicate Holds(buf: seq<Task>, pos: nat, s: seq<Task>) {
    |buf| == CAP && |s| <= CAP && forall j | 0 <= j < |s| :: buf[SlotOf(pos + j)] == s[j]
  }

  /** Writing the next slot adds a task and disturbs none. */
  lemma HoldsOneMore(buf: seq<Task>, pos: nat, s: seq<Task>, v: Task)
    requires Holds(buf, pos, s) && |s| < CAP
    ensures Holds(buf[SlotOf(pos + |s|) := v], pos, s + [v])
  {
    var slot, s' := SlotOf(pos + |s|), s + [v];
    forall j | 0 <= j < |s'|
      ensures buf[slot := v][SlotOf(pos + j)] == s'[j]
    {
      if j < |s| {
        SlotsDiffer(pos + j, pos + |s|);
      }
    }
  }

  /** The tasks after the first n are in the slots n further on. */
  lemma HoldsRest(buf: seq<Task>, pos: nat, s: seq<Task>, n: nat)
    requires Holds(buf, pos, s) && n <= |s|
    ensures Holds(buf, pos + n, s[n..])
  {
    forall j | 0 <= j < |s| - n
      ensures buf[SlotOf(pos + n + j)] == s[n..][j]
    {
      assert buf[SlotOf(pos + (n + j))] == s[n + j];
    }
  }

  lemma HoldsFirst(buf: seq<Task>, pos: nat, s: seq<Task>, more: seq<Task>)
    requires Holds(buf, pos, s + more)
    ensures Holds(buf, pos, s)
  {
    assert forall j | 0 <= j < |s| :: (s + more)[j] == s[j];
  }

  /** The slot of a 16-bit position reads the task held there. */
  lemma HoldsAt(buf: seq<Task>, pos: nat, s: seq<Task>, j: nat)
    requires Holds(buf, pos, s) && j < |s|
    ensures buf[SlotOf(Res(pos + j))] == s[j]
  {
    SlotRes(pos + j);
  }

  /** A worker's fair share of the global list, as far as the limit allows. */
  function Share(len: nat, workers: nat, limit: nat): (n: nat)
    requires workers > 0
    ensures n <= limit
  {
    if len / workers < limit then len / workers else limit
  }

  /** How many tasks `pop_batch` takes off a list that is not empty. */
  function BatchSize(len: nat, num: nat): nat {
    if num <= 1 then 1 else if num < len then num else len
  }

  class InnerBuffer {
    var front: nat
    var rear: nat
    const buffer: array<Task>
    ghost var steal: nat       // the unbounded steal position
    ghost var taken: nat       // positions from there that an open steal has claimed
    ghost var live: seq<Task>  // the tasks from the steal position up to the rear

    ghost predicate Valid()
      reads this, buffer
    {
      && Holds(buffer[..], steal, live) && taken <= |live|
      && front == Wrap(Res(steal), Res(steal + taken)) && rear == Res(steal + |live|)
    }

    /** The tasks that can be popped or stolen. */
    ghost function Contents(): seq<Task>
      reads this
      requires taken <= |live|
    {
      live[taken..]
    }

    constructor ()
      ensures Valid() && fresh(buffer) && Contents() == [] && taken == 0
    {
      front, rear := 0, 0;
      buffer := new Task[CAP];
      steal, taken, live := 0, 0, [];
    }

    /** The positions the two words stand for. */
    lemma Words()
      requires Valid()
      ensures StealOf(front) == Res(steal) && HeadOf(front) == Res(steal + taken) && rear < M
      ensures WrapSub(rear, StealOf(front)) == |live|
      ensures WrapSub(rear, HeadOf(front)) == |live| - taken
      ensures HeadOf(front) == rear <==> |live| == taken
      ensures StealOf(front) == HeadOf(front) <==> taken == 0
    {
      UnwrapWrap(Res(steal), Res(steal + taken));
      Near(steal, steal + |live|);
      Near(steal + taken, steal + |live|);
      Near(steal, steal + taken);
    }

    method IsEmpty() returns (r: bool)
      requires Valid()
      ensures r <==> Contents() == []
    {
      Words();
      r := HeadOf(front) == rear;
    }

    method Remaining() returns (n: nat)
      requires Valid()
      ensures n == CAP - |live|
    {
      Words();
      n := CAP - WrapSub(rear, StealOf(front));
    }

    method IsHalfFull() returns (r: bool)
      requires Valid()
      ensures r <==> |live| > HALF
    {
      Words();
      r := WrapSub(rear, StealOf(front)) > HALF;
    }

    method PopFront() returns (r: Option<Task>)
      requires Valid()
      modifies this
      ensures Valid() && buffer[..] == old(buffer[..])
      ensures taken == old(taken) + if r.Some? && old(taken) > 0 then 1 else 0
      ensures old(Contents()) == [] ==> r == None && Contents() == []
      ensures old(Contents()) != [] ==> r == Some(old(Contents())[0]) && Contents() == old(Contents())[1..]
    {
      Words();
      var stealPos, realPos := StealOf(front), HeadOf(front);
      if realPos == rear {
        return None;
      }
      var next := WrapAdd(realPos, 1);
      AddRes(steal + taken, 1);
      HoldsAt(buffer[..], steal, live, taken);
      r := Some(buffer[SlotOf(realPos)]);
      if stealPos == realPos {
        HoldsRest(buffer[..], steal, live, 1);
        front := Wrap(next, next);
        steal, live := steal + 1, live[1..];
      } else {
        front := Wrap(stealPos, next);
        taken := taken + 1;
      }
    }

    /** One turn of the loop of `push_back`.  The task goes to the back, or, when
        the queue is full, it follows the older half of the queue to the global
        one; a full queue with an open steal is left alone, and the loop goes
        round. */
    method PushBack(task: Task, global: GlobalQueue) returns (done: bool)
      requires Valid() && global.Valid()
      modifies this, buffer, global
      ensures Valid() && global.Valid() && taken == old(taken)
      ensures done <==> old(|live| < CAP || taken == 0)
      ensures !done ==> Contents() == old(Contents()) && global.globals == old(global.globals)
      ensures old(|live|) < CAP ==> Contents() == old(Contents()) + [task] && global.globals == old(global.globals)
      ensures done && old(|live|) == CAP ==>
                && Contents() == old(Contents())[HALF..]
                && global.globals == old(global.globals) + old(Contents())[..HALF] + [task]
    {
      Words();
      var stealPos := StealOf(front);
      if WrapSub(rear, stealPos) < CAP {
        assert live + [] == live && [] + [task] == [task];
        Write(rear, [], task);
        AddRes(steal + |live|, 1);
        rear := WrapAdd(rear, 1);
        live := live + [task];
        done := true;
      } else {
        done := PushOverflowed(task, global, stealPos);
      }
    }

    /** A slot behind the rear and behind the tasks `out` written there before. */
    method Write(at: nat, ghost out: seq<Task>, task: Task)
      requires Holds(buffer[..], steal, live + out) && |live| + |out| < CAP && at == Res(steal + |live| + |out|)
      modifies buffer
      ensures Holds(buffer[..], steal, live + (out + [task]))
    {
      SlotRes(steal + |live| + |out|);
      HoldsOneMore(buffer[..], steal, live + out, task);
      assert live + out + [task] == live + (out + [task]);
      ghost var slots := buffer[..][SlotOf(at) := task];
      buffer[SlotOf(at)] := task;
      assert buffer[..] == slots;
    }

    /** The store to `rear` that publishes the tasks `out` written behind it. */
    method Publish(at: nat, ghost out: seq<Task>)
      requires Valid() && Holds(buffer[..], steal, live + out) && at == Res(steal + |live| + |out|)
      modifies this`rear, this`live
      ensures Valid() && live == old(live) + out
    {
      rear := at;
      live := live + out;
    }

    /** False, with nothing changed, if its compare-exchange fails. */
    method PushOverflowed(task: Task, global: GlobalQueue, stealPos: nat) returns (ok: bool)
      requires Valid() && global.Valid() && |live| == CAP && stealPos == StealOf(front)
      modifies this, global
      ensures Valid() && global.Valid() && buffer[..] == old(buffer[..]) && taken == old(taken)
      ensures ok <==> old(taken) == 0
      ensures !ok ==> live == old(live) && global.globals == old(global.globals)
      ensures ok ==> live == old(live)[HALF..]
      ensures ok ==> global.globals == old(global.globals) + old(live)[..HALF] + [task]
    {
      Words();
      UnwrapWrap(stealPos, stealPos);
      if front != Wrap(stealPos, stealPos) {
        return false;
      }
      Claim(HALF);
      var tmp := CopyOut(stealPos, HALF);
      SyncStealPos();
      global.PushBatch(tmp, task);
      return true;
    }

    /** The first n tasks are claimed; they stay in their slots. */
    method Claim(n: nat)
      requires Valid() && taken == 0 && n <= |live|
      modifies this
      ensures Valid() && taken == n && live == old(live) && steal == old(steal)
    {
      Words();
      AddRes(steal, n);
      front := Wrap(StealOf(front), WrapAdd(HeadOf(front), n));
      taken := n;
    }

    /** The copy loop of `push_overflowed`. */
    method CopyOut(stealPos: nat, count: nat) returns (tmp: seq<Task>)
      requires Valid() && stealPos == Res(steal) && count <= |live|
      ensures tmp == live[..count]
    {
      var pos := stealPos;
      tmp := [];
      for i := 0 to count
        invariant pos == Res(steal + i) && tmp == live[..i]
      {
        HoldsAt(buffer[..], steal, live, i);
        AddRes(steal + i, 1);
        tmp := tmp + [buffer[SlotOf(pos)]];
        pos := WrapAdd(pos, 1);
      }
    }

    /** The open steal is given back: the steal position moves up to the head. */
    method SyncStealPos()
      requires Valid()
      modifies this
      ensures Valid() && buffer[..] == old(buffer[..])
      ensures taken == 0 && live == old(Contents()) && steal == old(steal + taken)
    {
      Words();
      HoldsRest(buffer[..], steal, live, taken);
      front := Wrap(HeadOf(front), HeadOf(front));
      steal, live, taken := steal + taken, live[taken..], 0;
    }

    /** The older half of this queue, rounded up, moves over: its last task is
        returned, the others go to the back of dst, which may be this queue.
        Nothing happens if dst is more than half full, if there is nothing to
        take or if another steal is open. */
    method StealInto(dst: InnerBuffer) returns (r: Option<Task>)
      requires Valid() && dst.Valid() && (dst != this ==> dst.buffer != buffer)
      modifies this, dst, dst.buffer
      ensures Valid() && dst.Valid() && taken == old(taken) && dst.taken == old(dst.taken)
      ensures r.Some? <==> old(|dst.live| <= HALF && taken == 0 && Contents() != [])
      ensures r == None ==> Contents() == old(Contents()) && dst.Contents() == old(dst.Contents())
      ensures r.Some? ==>
                var n := Half(old(|Contents()|));
                && 1 <= n <= old(|Contents()|) && r.value == old(Contents())[n - 1]
                && (dst != this ==> Contents() == old(Contents())[n..])
                && (dst != this ==> dst.Contents() == old(dst.Contents()) + old(Contents())[..n - 1])
                && (dst == this ==> Contents() == old(Contents())[n..] + old(Contents())[..n - 1])
    {
      var full := dst.IsHalfFull();
      if full {
        return None;
      }
      Words();
      var stealPos, realPos := StealOf(front), HeadOf(front);
      if stealPos != realPos {
        return None;
      }
      var n := Half(WrapSub(rear, realPos));
      if n == 0 {
        return None;
      }
      var last := TakeOver(dst, n);
      return Some(last);
    }

    /** The claim of n tasks, the copying and the sync. */
    method TakeOver(dst: InnerBuffer, n: nat) returns (last: Task)
      requires Valid() && dst.Valid() && (dst != this ==> dst.buffer != buffer)
      requires taken == 0 && 1 <= n <= |live| && |dst.live| + n <= CAP
      modifies this, dst, dst.buffer
      ensures Valid() && dst.Valid() && taken == 0 && dst.taken == old(dst.taken) && last == old(live)[n - 1]
      ensures dst != this ==> live == old(live)[n..] && dst.live == old(dst.live) + old(live)[..n - 1]
      ensures dst == this ==> live == old(live)[n..] + old(live)[..n - 1]
    {
      ghost var was := live;
      Words();
      var stealPos := StealOf(front);
      Claim(n);
      last := MoveTo(dst, stealPos, n - 1);
      SyncStealPos();
      assert (was + was[..n - 1])[n..] == was[n..] + was[..n - 1];
    }

    /** The copying in `steal_into`, from its claim on. */
    method MoveTo(dst: InnerBuffer, stealPos: nat, count: nat) returns (last: Task)
      requires Valid() && dst.Valid() && (dst != this ==> dst.buffer != buffer)
      requires stealPos == Res(steal) && count < |live| && |dst.live| + count <= CAP
      modifies dst, dst.buffer
      ensures Valid() && dst.Valid() && dst.taken == old(dst.taken)
      ensures last == old(live)[count] && dst.live == old(dst.live) + old(live)[..count]
    {
      var dstRear;
      dstRear, last := CopyBehind(dst, stealPos, count);
      if count != 0 {
        dst.Publish(dstRear, live[..count]);
      }
    }

    method CopyOne(dst: InnerBuffer, pos: nat, dstRear: nat, ghost i: nat)
      requires Holds(buffer[..], steal, live) && (dst != this ==> dst.buffer != buffer)
      requires i < |live| && |dst.live| + i < CAP && Holds(dst.buffer[..], dst.steal, dst.live + live[..i])
      requires pos == Res(steal + i) && dstRear == Res(dst.steal + |dst.live| + i)
      modifies dst.buffer
      ensures Holds(buffer[..], steal, live) && Holds(dst.buffer[..], dst.steal, dst.live + live[..i + 1])
    {
      HoldsAt(buffer[..], steal, live, i);
      assert live[..i + 1] == live[..i] + [live[i]];
      dst.Write(dstRear, live[..i], buffer[SlotOf(pos)]);
      HoldsFirst(dst.buffer[..], dst.steal, dst.live, live[..i + 1]);
    }

    /** Its loop, and the last read. */
    method CopyBehind(dst: InnerBuffer, stealPos: nat, count: nat) returns (dstRear: nat, last: Task)
      requires Holds(buffer[..], steal, live) && dst.Valid() && (dst != this ==> dst.buffer != buffer)
      requires stealPos == Res(steal) && count < |live| && |dst.live| + count <= CAP
      modifies dst.buffer
      ensures dst.Valid() && Holds(dst.buffer[..], dst.steal, dst.live + live[..count])
      ensures dstRear == Res(dst.steal + |dst.live| + count) && last == live[count]
    {
      var pos := stealPos;
      dstRear := dst.rear;
      assert dst.live + live[..0] == dst.live;
      for i := 0 to count
        invariant pos == Res(steal + i) && dstRear == Res(dst.steal + |dst.live| + i)
        invariant Holds(dst.buffer[..], dst.steal, dst.live + live[..i]) && Holds(buffer[..], steal, live)
      {
        CopyOne(dst, pos, dstRear, i);
        AddRes(steal + i, 1);
        AddRes(dst.steal + |dst.live| + i, 1);
        pos, dstRear := WrapAdd(pos, 1), WrapAdd(dstRear, 1);
      }
      HoldsAt(buffer[..], steal, live, count);
      last := buffer[SlotOf(pos)];
      HoldsFirst(dst.buffer[..], dst.steal, dst.live, live[..count]);
    }
  }

  class GlobalQueue {
    var len: nat
    var globals: seq<Task>  // oldest first

    ghost predicate Valid()
      reads this
    {
      len == |globals|
    }

    constructor ()
      ensures Valid() && globals == []
    {
      len, globals := 0, [];
    }

    method PushBack(task: Task)
      requires Valid()
      modifies this
      ensures Valid() && globals == old(globals) + [task]
    {
      globals := globals + [task];
      len := len + 1;
    }

    method PushBatch(tasks: seq<Task>, task: Task)
      requires Valid()
      modifies this
      ensures Valid() && globals == old(globals) + tasks + [task]
    {
      for i := 0 to |tasks|
        invariant globals == old(globals) + tasks[..i] && len == old(len)
      {
        globals := globals + [tasks[i]];
      }
      globals := globals + [task];
      len := len + |tasks| + 1;
    }

    /** The oldest tasks go to the caller and its queue: one to run, and up to a
        fair share of the list, as far as the limit allows, to its back. */
    method PopBatch(workers: nat, queue: InnerBuffer, limit: nat) returns (r: Option<Task>)
      requires Valid() && queue.Valid() && workers > 0 && limit <= CAP - |queue.live|
      modifies this, queue, queue.buffer
      ensures Valid() && queue.Valid() && queue.taken == old(queue.taken)
      ensures old(globals) == [] ==> r == None && globals == [] && queue.live == old(queue.live)
      ensures old(globals) != [] ==>
                var k := BatchSize(old(|globals|), Share(old(|globals|), workers, limit));
                && 1 <= k <= old(|globals|) && r == Some(old(globals)[0]) && globals == old(globals)[k..]
                && queue.live == old(queue.live) + old(globals)[1..k]
    {
      var num := Share(len, workers, limit);
      if globals == [] {
        return None;
      }
      ghost var all := globals;
      r := Some(globals[0]);
      globals := globals[1..];
      var count, curr := MoveBehind(queue, num);
      assert all[1..][..count - 1] == all[1..count];
      len := len - count;
      queue.Publish(curr, all[1..count]);
    }

    /** The loop of `pop_batch`: with the first task taken, tasks follow it off
        the list into the slots behind the rear until there are num. */
    method MoveBehind(queue: InnerBuffer, num: nat) returns (count: nat, curr: nat)
      requires queue.Valid() && num <= CAP - |queue.live|
      modifies this`globals, queue.buffer
      ensures count == BatchSize(old(|globals|) + 1, num) && globals == old(globals)[count - 1..]
      ensures queue.Valid() && curr == Res(queue.steal + |queue.live| + (count - 1))
      ensures Holds(queue.buffer[..], queue.steal, queue.live + old(globals)[..count - 1])
    {
      ghost var all := globals;
      count, curr := 1, queue.rear;
      assert queue.live + all[..0] == queue.live;
      while count < num && globals != []
        invariant 1 <= count <= |all| + 1 && (count <= num || count == 1) && globals == all[count - 1..]
        invariant curr == Res(queue.steal + |queue.live| + (count - 1))
        invariant Holds(queue.buffer[..], queue.steal, queue.live + all[..count - 1])
      {
        assert all[..count] == all[..count - 1] + [globals[0]];
        queue.Write(curr, all[..count - 1], globals[0]);
        AddRes(queue.steal + |queue.live| + (count - 1), 1);
        globals, curr, count := globals[1..], WrapAdd(curr, 1), count + 1;
      }
      HoldsFirst(queue.buffer[..], queue.steal, queue.live, all[..count - 1]);
    }
  }
}
