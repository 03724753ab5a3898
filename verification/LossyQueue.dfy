/** The reference the capture transport is measured against: a queue that may
    lose entries but never reorders, duplicates or alters them. */
module LossyQueue {

  datatype Queue<T> = Queue(delivered: seq<T>, pending: seq<T>)

  ghost predicate Enqueues<T(!new)>(q: Queue<T>, q': Queue<T>) {
    exists x :: q' == Queue(q.delivered, q.pending + [x])
  }

  ghost predicate Loses<T>(q: Queue<T>, q': Queue<T>) {
    exists i | 0 <= i < |q.pending| :: q' == Queue(q.delivered, q.pending[..i] + q.pending[i + 1..])
  }

  ghost predicate Delivers<T>(q: Queue<T>, q': Queue<T>) {
    q.pending != [] && q' == Queue(q.delivered + [q.pending[0]], q.pending[1..])
  }

  ghost predicate QueueStep<T(!new)>(q: Queue<T>, q': Queue<T>) {
    q' == q || Enqueues(q, q') || Loses(q, q') || Delivers(q, q')
  }

  /** The indices below n that are not in `dropped`, in increasing order. */
  function Kept(n: nat, dropped: set<nat>): seq<nat> {
    if n == 0 then [] else
    Kept(n - 1, dropped) + if n - 1 in dropped then [] else [n - 1]
  }

  /** The elements of `xs` whose positions are not in `dropped`, in their original order. */
  function Survivors<T>(xs: seq<T>, dropped: set<nat>): seq<T> {
    if xs == [] then [] else
    Survivors(xs[..|xs| - 1], dropped) + if |xs| - 1 in dropped then [] else [xs[|xs| - 1]]
  }

  /** The elements of `xs` at the given positions. */
  function Pick<T>(xs: seq<T>, at: seq<nat>): seq<T>
    requires forall i | 0 <= i < |at| :: at[i] < |xs|
  {
    seq(|at|, i requires 0 <= i < |at| => xs[at[i]])
  }

  lemma {:induction false} KeptBelow(n: nat, dropped: set<nat>)
    ensures forall i | 0 <= i < |Kept(n, dropped)| :: Kept(n, dropped)[i] < n
    ensures forall i | 0 <= i < |Kept(n, dropped)| :: Kept(n, dropped)[i] !in dropped
  {
    if n > 0 {
      KeptBelow(n - 1, dropped);
    }
  }

  lemma {:induction false} KeptIgnores(n: nat, dropped: set<nat>, x: nat)
    requires n <= x
    ensures Kept(n, dropped + {x}) == Kept(n, dropped)
  {
    if n > 0 {
      KeptIgnores(n - 1, dropped, x);
    }
  }

  /** Dropping one more index takes exactly that index out of the kept ones. */
  lemma {:induction false} KeptRemove(n: nat, dropped: set<nat>, before: seq<nat>, x: nat, after: seq<nat>)
    requires Kept(n, dropped) == before + [x] + after
    ensures Kept(n, dropped + {x}) == before + after
    ensures x !in dropped && x < n
  {
    KeptBelow(n, dropped);
    assert Kept(n, dropped)[|before|] == x;
    if n - 1 in dropped {
      KeptRemove(n - 1, dropped, before, x, after);
    } else if after == [] {
      assert before == Kept(n, dropped)[..|before|];
      assert Kept(n - 1, dropped) == Kept(n, dropped)[..|Kept(n - 1, dropped)|];
      KeptIgnores(n - 1, dropped, x);
    } else {
      var last := |after| - 1;
      assert Kept(n, dropped)[..|before| + 1 + last] == before + [x] + after[..last];
      assert Kept(n, dropped)[|before| + 1 + last] == after[last];
      KeptRemove(n - 1, dropped, before, x, after[..last]);
      assert before + after == before + after[..last] + [n - 1];
    }
  }

  /** Survivors are the elements at the kept positions. */
  lemma {:induction false} SurvivorsArePicked<T>(xs: seq<T>, dropped: set<nat>)
    ensures forall i | 0 <= i < |Kept(|xs|, dropped)| :: Kept(|xs|, dropped)[i] < |xs|
    ensures Survivors(xs, dropped) == Pick(xs, Kept(|xs|, dropped))
  {
    KeptBelow(|xs|, dropped);
    if xs != [] {
      var front := xs[..|xs| - 1];
      SurvivorsArePicked(front, dropped);
      KeptBelow(|front|, dropped);
    }
  }

  lemma {:induction false} NothingDropped<T>(xs: seq<T>)
    ensures Survivors(xs, {}) == xs
  {
    if xs != [] {
      NothingDropped(xs[..|xs| - 1]);
    }
  }

  /** Each index is either kept or dropped. */
  lemma {:induction false} KeptCount(n: nat, dropped: set<nat>)
    requires forall i | i in dropped :: i < n
    ensures |Kept(n, dropped)| + |dropped| == n
  {
    if n == 0 {
      assert dropped == {};
    } else if n - 1 in dropped {
      var rest := dropped - {n - 1};
      KeptCount(n - 1, rest);
      KeptIgnores(n - 1, rest, n - 1);
      assert rest + {n - 1} == dropped;
    } else {
      KeptCount(n - 1, dropped);
    }
  }

  // ---------------------------------------------------- counts over whole runs

  function CountTrue(xs: seq<bool>): nat {
    if xs == [] then 0 else CountTrue(xs[..|xs| - 1]) + if xs[|xs| - 1] then 1 else 0
  }

  /** The length of the run of `true` at the end. */
  function TrailingTrue(xs: seq<bool>): nat {
    if xs == [] || !xs[|xs| - 1] then 0 else TrailingTrue(xs[..|xs| - 1]) + 1
  }

  lemma {:induction false} TrailingBounded(xs: seq<bool>)
    ensures TrailingTrue(xs) <= CountTrue(xs) <= |xs|
  {
    if xs != [] {
      TrailingBounded(xs[..|xs| - 1]);
    }
  }
}
