/** Counting and summing over the threads of a protocol.
    A protocol state keeps its threads in a sequence, one entry per thread, and
    a step replaces one entry or appends one.  The lemmas below say what such a
    step does to a count or to a sum. */
module Tally {

  function One(b: bool): nat { if b then 1 else 0 }

  /** How many of the first n entries satisfy p. */
  function CountTo<T>(s: seq<T>, p: T -> bool, n: nat): nat
    requires n <= |s|
  {
    if n == 0 then 0 else CountTo(s, p, n - 1) + One(p(s[n - 1]))
  }

  /** The number of entries that satisfy p. */
  function Count<T>(s: seq<T>, p: T -> bool): nat { CountTo(s, p, |s|) }

  lemma {:induction false} CountToAgrees<T>(s: seq<T>, s': seq<T>, p: T -> bool, n: nat)
    requires n <= |s| && n <= |s'|
    requires forall i | 0 <= i < n :: p(s[i]) == p(s'[i])
    ensures CountTo(s, p, n) == CountTo(s', p, n)
  {
    if n > 0 {
      CountToAgrees(s, s', p, n - 1);
    }
  }

  lemma {:induction false} CountToUpdate<T>(s: seq<T>, i: nat, v: T, p: T -> bool, n: nat)
    requires i < n <= |s|
    ensures CountTo(s[i := v], p, n) == CountTo(s, p, n) - One(p(s[i])) + One(p(v))
  {
    if i == n - 1 {
      CountToAgrees(s, s[i := v], p, n - 1);
    } else {
      CountToUpdate(s, i, v, p, n - 1);
    }
  }

  lemma CountUpdate<T>(s: seq<T>, i: nat, v: T, p: T -> bool)
    requires i < |s|
    ensures Count(s[i := v], p) == Count(s, p) - One(p(s[i])) + One(p(v))
  {
    CountToUpdate(s, i, v, p, |s|);
  }

  lemma CountAppend<T>(s: seq<T>, v: T, p: T -> bool)
    ensures Count(s + [v], p) == Count(s, p) + One(p(v))
  {
    CountToAgrees(s, s + [v], p, |s|);
  }

  lemma {:induction false} CountToConcat<T>(a: seq<T>, b: seq<T>, p: T -> bool, n: nat)
    requires n <= |b|
    ensures CountTo(a + b, p, |a| + n) == CountTo(a, p, |a|) + CountTo(b, p, n)
  {
    if n == 0 {
      CountToAgrees(a, a + b, p, |a|);
    } else {
      CountToConcat(a, b, p, n - 1);
    }
  }

  lemma CountConcat<T>(a: seq<T>, b: seq<T>, p: T -> bool)
    ensures Count(a + b, p) == Count(a, p) + Count(b, p)
  {
    CountToConcat(a, b, p, |b|);
  }

  lemma {:induction false} CountFindTo<T>(s: seq<T>, p: T -> bool, n: nat) returns (i: nat)
    requires n <= |s| && CountTo(s, p, n) > 0
    ensures i < n && p(s[i])
  {
    if p(s[n - 1]) {
      i := n - 1;
    } else {
      i := CountFindTo(s, p, n - 1);
    }
  }

  lemma CountFind<T>(s: seq<T>, p: T -> bool) returns (i: nat)
    requires Count(s, p) > 0
    ensures i < |s| && p(s[i])
  {
    i := CountFindTo(s, p, |s|);
  }

  lemma {:induction false} CountHasTo<T>(s: seq<T>, i: nat, p: T -> bool, n: nat)
    requires i < n <= |s| && p(s[i])
    ensures CountTo(s, p, n) >= 1
  {
    if i < n - 1 {
      CountHasTo(s, i, p, n - 1);
    }
  }

  lemma CountHas<T>(s: seq<T>, i: nat, p: T -> bool)
    requires i < |s| && p(s[i])
    ensures Count(s, p) >= 1
  {
    CountHasTo(s, i, p, |s|);
  }

  /** A count is zero exactly when no entry satisfies the predicate. */
  lemma CountZero<T>(s: seq<T>, p: T -> bool)
    ensures Count(s, p) == 0 <==> forall i | 0 <= i < |s| :: !p(s[i])
  {
    if Count(s, p) > 0 {
      var i := CountFind(s, p);
    } else {
      forall i | 0 <= i < |s|
        ensures !p(s[i])
      {
        if p(s[i]) {
          CountHas(s, i, p);
        }
      }
    }
  }

  lemma {:induction false} CountTwoTo<T>(s: seq<T>, i: nat, j: nat, p: T -> bool, n: nat)
    requires i < j < n <= |s| && p(s[i]) && p(s[j])
    ensures CountTo(s, p, n) >= 2
  {
    if j == n - 1 {
      CountHasTo(s, i, p, n - 1);
    } else {
      CountTwoTo(s, i, j, p, n - 1);
    }
  }

  /** Two entries that satisfy a predicate counted at most once are the same entry. */
  lemma CountUnique<T>(s: seq<T>, i: nat, j: nat, p: T -> bool)
    requires i < |s| && j < |s| && p(s[i]) && p(s[j])
    requires Count(s, p) <= 1
    ensures i == j
  {
    if i < j {
      CountTwoTo(s, i, j, p, |s|);
    } else if j < i {
      CountTwoTo(s, j, i, p, |s|);
    }
  }

  /** A predicate that implies another is counted no more often. */
  lemma {:induction false} CountToMono<T>(s: seq<T>, p: T -> bool, q: T -> bool, n: nat)
    requires n <= |s|
    requires forall i | 0 <= i < n :: p(s[i]) ==> q(s[i])
    ensures CountTo(s, p, n) <= CountTo(s, q, n)
  {
    if n > 0 {
      CountToMono(s, p, q, n - 1);
    }
  }

  lemma CountMono<T>(s: seq<T>, p: T -> bool, q: T -> bool)
    requires forall i | 0 <= i < |s| :: p(s[i]) ==> q(s[i])
    ensures Count(s, p) <= Count(s, q)
  {
    CountToMono(s, p, q, |s|);
  }

  lemma {:induction false} CountToBound<T>(s: seq<T>, p: T -> bool, n: nat)
    requires n <= |s|
    ensures CountTo(s, p, n) <= n
  {
    if n > 0 {
      CountToBound(s, p, n - 1);
    }
  }

  /** Two predicates no entry satisfies at once. */
  lemma {:induction false} CountToDisjoint<T>(s: seq<T>, p: T -> bool, q: T -> bool, n: nat)
    requires n <= |s|
    requires forall i | 0 <= i < n :: !(p(s[i]) && q(s[i]))
    ensures CountTo(s, p, n) + CountTo(s, q, n) <= n
  {
    if n > 0 {
      CountToDisjoint(s, p, q, n - 1);
    }
  }

  lemma CountBound<T>(s: seq<T>, p: T -> bool)
    ensures Count(s, p) <= |s|
  {
    CountToBound(s, p, |s|);
  }

  /** The total weight of the first n entries. */
  function SumTo<T>(s: seq<T>, w: T -> nat, n: nat): nat
    requires n <= |s|
  {
    if n == 0 then 0 else SumTo(s, w, n - 1) + w(s[n - 1])
  }

  function Sum<T>(s: seq<T>, w: T -> nat): nat { SumTo(s, w, |s|) }

  lemma {:induction false} SumToAgrees<T>(s: seq<T>, s': seq<T>, w: T -> nat, n: nat)
    requires n <= |s| && n <= |s'|
    requires forall i | 0 <= i < n :: w(s[i]) == w(s'[i])
    ensures SumTo(s, w, n) == SumTo(s', w, n)
  {
    if n > 0 {
      SumToAgrees(s, s', w, n - 1);
    }
  }

  lemma {:induction false} SumToUpdate<T>(s: seq<T>, i: nat, v: T, w: T -> nat, n: nat)
    requires i < n <= |s|
    ensures SumTo(s[i := v], w, n) == SumTo(s, w, n) - w(s[i]) + w(v)
  {
    if i == n - 1 {
      SumToAgrees(s, s[i := v], w, n - 1);
    } else {
      SumToUpdate(s, i, v, w, n - 1);
    }
  }

  lemma SumUpdate<T>(s: seq<T>, i: nat, v: T, w: T -> nat)
    requires i < |s|
    ensures Sum(s[i := v], w) == Sum(s, w) - w(s[i]) + w(v)
  {
    SumToUpdate(s, i, v, w, |s|);
  }

  lemma {:induction false} SumToZero<T>(s: seq<T>, w: T -> nat, n: nat)
    requires n <= |s| && forall i | 0 <= i < n :: w(s[i]) == 0
    ensures SumTo(s, w, n) == 0
  {
    if n > 0 {
      SumToZero(s, w, n - 1);
    }
  }

  /** Entries outside p weigh nothing; when none is in p, nothing weighs. */
  lemma SumZero<T>(s: seq<T>, w: T -> nat, p: T -> bool)
    requires forall i | 0 <= i < |s| :: !p(s[i]) ==> w(s[i]) == 0
    requires Count(s, p) == 0
    ensures Sum(s, w) == 0
  {
    CountZero(s, p);
    SumToZero(s, w, |s|);
  }
}
