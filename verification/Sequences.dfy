/** The few sequence and multiset facts that the queue proofs share. */
module Sequences {

  ghost predicate NoDuplicates<T(!new)>(q: seq<T>) {
    forall x :: multiset(q)[x] <= 1
  }

  /** The elements of `q` that satisfy `keep`, in their order. */
  function Keep<T>(q: seq<T>, keep: T -> bool): seq<T> {
    if q == [] then [] else
      var rest := Keep(q[..|q| - 1], keep);
      if keep(q[|q| - 1]) then rest + [q[|q| - 1]] else rest
  }

  function Not<T>(p: T -> bool): T -> bool {
    x => !p(x)
  }

  lemma {:induction false} KeepCounts<T>(q: seq<T>, p: T -> bool, x: T)
    ensures multiset(Keep(q, p))[x] == if p(x) then multiset(q)[x] else 0
  {
    if q != [] {
      KeepCounts(q[..|q| - 1], p, x);
      assert q == q[..|q| - 1] + [q[|q| - 1]];
    }
  }

  /** What is kept stays in its order: keeping works piece by piece, element by element. */
  lemma {:induction false} KeepInOrder<T>(q: seq<T>, more: seq<T>, x: T, p: T -> bool)
    ensures Keep(q + more, p) == Keep(q, p) + Keep(more, p)
    ensures Keep([x], p) == if p(x) then [x] else []
    decreases more
  {
    assert Keep([], p) == [];
    if more == [] {
      assert q + more == q;
    } else {
      KeepInOrder(q, more[..|more| - 1], x, p);
      assert (q + more)[..|q + more| - 1] == q + more[..|more| - 1];
    }
    assert [x][..0] == [];
  }

  lemma KeepUnfolds<T>(q: seq<T>, p: T -> bool)
    requires q != []
    ensures var init, last := q[..|q| - 1], q[|q| - 1];
      Keep(q, p) == if p(last) then Keep(init, p) + [last] else Keep(init, p)
  {
  }

  lemma CountSnoc<T>(q: seq<T>, x: T)
    ensures multiset(q + [x]) == multiset(q) + multiset{x}
  {
  }

  lemma AddToOneSide<T>(all: multiset<T>, a: multiset<T>, b: multiset<T>, one: multiset<T>)
    requires all == a + b
    ensures all + one == (a + one) + b == a + (b + one)
  {
  }

  /** Keeping and discarding split a sequence: nothing is lost, nothing is invented. */
  lemma {:induction false} KeepSplits<T>(q: seq<T>, p: T -> bool)
    ensures multiset(q) == multiset(Keep(q, p)) + multiset(Keep(q, Not(p)))
  {
    hide Keep;
    if q != [] {
      var init, last := q[..|q| - 1], q[|q| - 1];
      KeepSplits(init, p);
      KeepUnfolds(q, p);
      KeepUnfolds(q, Not(p));
      CountSnoc(init, last);
      CountSnoc(Keep(init, p), last);
      CountSnoc(Keep(init, Not(p)), last);
      AddToOneSide(multiset(init), multiset(Keep(init, p)), multiset(Keep(init, Not(p))), multiset{last});
      assert q == init + [last];
    } else {
      assert Keep(q, p) == [] && Keep(q, Not(p)) == [] by { KeepNothing(p); KeepNothing(Not(p)); }
    }
  }

  lemma KeepNothing<T>(p: T -> bool)
    ensures Keep([], p) == []
  {
  }

  lemma KeepMembers<T>(q: seq<T>, p: T -> bool)
    ensures forall x :: x in Keep(q, p) <==> x in q && p(x)
  {
    forall x ensures x in Keep(q, p) <==> x in q && p(x) {
      KeepCounts(q, p, x);
      assert x in q <==> multiset(q)[x] > 0;
      assert x in Keep(q, p) <==> multiset(Keep(q, p))[x] > 0;
    }
  }

  lemma KeepNoDuplicates<T(!new)>(q: seq<T>, p: T -> bool)
    requires NoDuplicates(q)
    ensures NoDuplicates(Keep(q, p))
  {
    forall x ensures multiset(Keep(q, p))[x] <= 1 { KeepCounts(q, p, x); }
  }

  lemma NoDuplicatesAt<T(!new)>(q: seq<T>, i: nat, j: nat)
    requires NoDuplicates(q) && i < j < |q|
    ensures q[i] != q[j]
  {
    assert q == q[..j] + q[j..];
    assert q[i] in q[..j] && q[j] in q[j..];
    assert multiset(q) == multiset(q[..j]) + multiset(q[j..]);
    assert multiset(q)[q[i]] <= 1;
  }

  lemma PopTwoSplits<T>(q: seq<T>)
    requires |q| >= 2
    ensures multiset(q) == multiset{q[0], q[1]} + multiset(q[2..])
  {
    assert q == [q[0], q[1]] + q[2..];
  }
}
