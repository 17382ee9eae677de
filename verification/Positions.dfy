/** The 16-bit positions of a local run queue (executor/queue.rs): `front` packs
    the steal and the head position into 32 bits, `rear` is a third one, and all
    three wrap around.  The lemmas say when residues decide about the unbounded
    positions they stand for. */
module Positions {

  /** What the queues hold: a task, by its identity. */
  type Task = nat

  const M := 0x1_0000
  const CAP := 256  // LOCAL_QUEUE_CAP

  /** The residue of an unbounded position. */
  function Res(a: nat): nat { a % M }

  /** The slot of a 16-bit position, `pos & MASK`. */
  function SlotOf(pos: nat): nat { pos % CAP }

  function Wrap(steal: nat, head: nat): nat { head + steal * M }
  function StealOf(word: nat): nat { word / M }
  function HeadOf(word: nat): nat { word % M }

  function WrapAdd(a: nat, n: nat): nat { (a + n) % M }
  function WrapSub(a: nat, b: nat): nat
    requires a < M && b < M
  {
    if b <= a then a - b else a + M - b
  }

  /** Half of a queue, rounded up: what a thief takes. */
  function Half(n: nat): nat { n - n / 2 }

  lemma UnwrapWrap(steal: nat, head: nat)
    requires steal < M && head < M
    ensures StealOf(Wrap(steal, head)) == steal && HeadOf(Wrap(steal, head)) == head
  {
  }

  /** The packed word of two positions determines their residues. */
  lemma WordsDiffer(a: nat, b: nat, c: nat, d: nat)
    requires a < M && b < M && c < M && d < M && Wrap(a, b) == Wrap(c, d)
    ensures a == c && b == d
  {
    UnwrapWrap(a, b);
    UnwrapWrap(c, d);
  }

  /** Residues of positions less than 2^16 apart are equal only if the positions
      are, and their wrapping difference is the true one. */
  lemma Near(a: nat, b: nat)
    requires a <= b < a + M
    ensures Res(a) < M && Res(b) < M
    ensures Res(a) == Res(b) <==> a == b
    ensures WrapSub(Res(b), Res(a)) == b - a
  {
    var qa, qb := a / M, b / M;
    assert a == qa * M + Res(a) && b == qb * M + Res(b);
    assert qa <= qb <= qa + 1;
  }

  lemma AddRes(a: nat, n: nat)
    ensures WrapAdd(Res(a), n) == Res(a + n)
  {
    var q := a / M;
    assert a + n == (Res(a) + n) + q * M;
    ModPlus(Res(a) + n, q);
  }

  lemma {:induction false} ModPlus(x: nat, q: nat)
    ensures (x + q * M) % M == x % M
  {
    if q > 0 {
      ModPlus(x, q - 1);
    }
  }

  /** A residue has the slot of its position. */
  lemma SlotRes(a: nat)
    ensures SlotOf(Res(a)) == SlotOf(a)
  {
    assert a == a / M * M + Res(a);
  }

  /** Positions less than 256 apart have different slots. */
  lemma SlotsDiffer(a: nat, b: nat)
    requires a < b < a + CAP
    ensures SlotOf(a) != SlotOf(b)
  {
  }
}
