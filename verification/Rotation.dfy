/** Progress under rejection: which pairs a queue that nobody joins or leaves can still form. */
module Rotation {
  import opened Ids
  import opened Store
  import opened MatchCycle

  type Env = nat -> Turn

  ghost predicate Faultless(env: Env) {
    forall k: nat :: env(k).Faultless()
  }

  /** `a` modulo `n`, by repeated subtraction so that the solver only sees linear arithmetic. */
  function Wrap(a: nat, n: nat): (r: nat)
    requires n > 0
    ensures r < n
  {
    if a < n then a else Wrap(a - n, n)
  }

  lemma {:induction false} WrapOfQuotient(a: nat, n: nat, d: nat, r: nat)
    requires r < n && a == n * d + r
    ensures Wrap(a, n) == r
    decreases d
  {
    if d == 0 {
      assert n * d == 0;
    } else {
      assert n * d == n * (d - 1) + n && n * (d - 1) >= 0;
      WrapOfQuotient(a - n, n, d - 1, r);
    }
  }

  lemma WrapIsModulo(a: nat, n: nat)
    requires n > 0
    ensures Wrap(a, n) == a % n
  {
    var d, r := a / n, a % n;
    assert a == n * d + r;
    WrapOfQuotient(a, n, d, r);
  }

  lemma {:induction false} WrapSum(a: nat, b: nat, n: nat)
    requires n > 0
    ensures Wrap(Wrap(a, n) + b, n) == Wrap(a + b, n)
    decreases a
  {
    if a >= n { WrapSum(a - n, b, n); }
  }

  lemma {:induction false} WrapEven(a: nat, h: nat)
    requires h > 0
    ensures Wrap(2 * a, 2 * h) == 2 * Wrap(a, h)
    decreases a
  {
    if a >= h { WrapEven(a - h, h); }
  }

  function Rotated(q: seq<UserId>, shift: nat): seq<UserId>
    requires q != []
  {
    seq(|q|, i requires 0 <= i < |q| => q[Wrap(i + shift, |q|)])
  }

  /** The pair (q[2k mod n], q[(2k+1) mod n]). */
  function HeadPair(q: seq<UserId>, k: nat): (UserId, UserId)
    requires q != []
  {
    (q[Wrap(2 * k, |q|)], q[Wrap(2 * k + 1, |q|)])
  }

  lemma HeadPairIsModulo(q: seq<UserId>, k: nat)
    requires q != []
    ensures HeadPair(q, k) == (q[(2 * k) % |q|], q[(2 * k + 1) % |q|])
  {
    WrapIsModulo(2 * k, |q|);
    WrapIsModulo(2 * k + 1, |q|);
  }

  predicate HeadOpen(s: Redis, k: nat)
    requires |s.queue| >= 2
  {
    var (a, b) := HeadPair(s.queue, k);
    !s.PairBlocked(a, b)
  }

  lemma RotatedZero(q: seq<UserId>)
    requires q != []
    ensures Rotated(q, 0) == q
  {
    forall i | 0 <= i < |q| ensures Rotated(q, 0)[i] == q[i] { assert Wrap(i, |q|) == i; }
  }

  lemma RotatedHead(q: seq<UserId>, k: nat)
    requires |q| >= 2
    ensures (Rotated(q, 2 * k)[0], Rotated(q, 2 * k)[1]) == HeadPair(q, k)
  {
  }

  /** Sending the head pair to the tail is a rotation by two. */
  lemma RejectionRotates(q: seq<UserId>, shift: nat)
    requires |q| >= 2
    ensures Rotated(q, shift)[2..] + [Rotated(q, shift)[0], Rotated(q, shift)[1]] == Rotated(q, shift + 2)
  {
    var n, r := |q|, Rotated(q, shift);
    var turned := r[2..] + [r[0], r[1]];
    assert |turned| == n;
    forall i | 0 <= i < n ensures turned[i] == q[Wrap(i + shift + 2, n)] {
      if i < n - 2 {
        assert turned[i] == r[i + 2];
      } else {
        assert turned[i] == r[i + 2 - n];
        assert Wrap(i + shift + 2, n) == Wrap(i + 2 - n + shift, n);
      }
    }
  }

  ghost function At(s: Redis, k: nat): Redis
    requires |s.queue| >= 2
  {
    s.(queue := Rotated(s.queue, 2 * k))
  }

  lemma RejectTurn(c: Cycle, t: Turn, s: Redis, k: nat)
    requires |s.queue| >= 2 && c.store == At(s, k) && t.Faultless()
    ensures (c.store.queue[0], c.store.queue[1]) == HeadPair(s.queue, k)
    ensures CheckedBlocked(c.store, c.store.queue[0], c.store.queue[1], t) <==> !HeadOpen(s, k)
    ensures Rejected(c) == c.(store := At(s, k + 1), pops := c.pops + 1, rejections := c.rejections + 1)
  {
    RotatedHead(s.queue, k);
    RejectionRotates(s.queue, 2 * k);
  }

  lemma DrainRejects(c: Cycle, env: Env, s: Redis, k: nat)
    requires |s.queue| >= 2 && Faultless(env) && c.store == At(s, k)
    requires c.rejections < MAX_REJECTIONS && !HeadOpen(s, k)
    ensures var next := Cycle(At(s, k + 1), c.pops + 1, c.rejections + 1, c.matched, c.lost);
      Drain(c, env) == if next.rejections < MAX_REJECTIONS then Drain(next, env) else Outcome(next, BudgetSpent)
  {
    assert env(c.pops).Faultless();
    RejectTurn(c, env(c.pops), s, k);
  }

  /** The cycle that has turned the queue of `s` to its k-th head pair. */
  ghost function CycleAt(s: Redis, k: nat, pops: nat, rejections: nat): Cycle
    requires |s.queue| >= 2
  {
    Cycle(At(s, k), pops, rejections, [], [])
  }

  /** Head pairs k, ..., k+m-1 are all blocked. */
  ghost predicate Stretch(s: Redis, k: nat, m: nat)
    requires |s.queue| >= 2
  {
    m == 0 || (!HeadOpen(s, k + m - 1) && Stretch(s, k, m - 1))
  }

  /** What the call goes on to do once it has made `i` rejections from head pair k on. */
  ghost function Onward(env: Env, s: Redis, k: nat, i: nat): Outcome
    requires |s.queue| >= 2 && i <= MAX_REJECTIONS
  {
    var c := CycleAt(s, k + i, i, i);
    if i < MAX_REJECTIONS then Drain(c, env) else Outcome(c, BudgetSpent)
  }

  lemma OnwardStep(env: Env, s: Redis, k: nat, i: nat)
    requires |s.queue| >= 2 && Faultless(env) && i < MAX_REJECTIONS && !HeadOpen(s, k + i)
    ensures Onward(env, s, k, i) == Onward(env, s, k, i + 1)
  {
    hide Drain;
    DrainRejects(CycleAt(s, k + i, i, i), env, s, k + i);
  }

  lemma {:induction false} Chain<T>(f: nat -> T, m: nat)
    requires forall i: nat | i < m :: f(i) == f(i + 1)
    ensures f(0) == f(m)
  {
    if m > 0 { Chain(f, m - 1); }
  }

  lemma HeadAt(s: Redis, k: nat)
    requires |s.queue| >= 2
    ensures var q, n, turned := s.queue, |s.queue|, At(s, k).queue;
      |turned| == n && turned[0] == q[(2 * k) % n] && turned[1] == q[(2 * k + 1) % n]
  {
    RotatedHead(s.queue, k);
    HeadPairIsModulo(s.queue, k);
    hide Wrap;
  }

  /** `m` straight rejections, within the budget, turn the queue by 2m and do nothing else; the
      pair at the head is then (q[2(k+m) mod n], q[(2(k+m)+1) mod n]). */
  lemma Spin(env: Env, s: Redis, k: nat, m: nat)
    requires |s.queue| >= 2 && Faultless(env)
    requires m <= MAX_REJECTIONS && Stretch(s, k, m)
    ensures Onward(env, s, k, 0) == Onward(env, s, k, m)
    ensures var q, n, turned := s.queue, |s.queue|, At(s, k + m).queue;
      |turned| == n && turned[0] == q[(2 * (k + m)) % n] && turned[1] == q[(2 * (k + m) + 1) % n]
  {
    hide Drain, Wrap, At, Rotated;
    HeadAt(s, k + m);
    ghost var f: nat -> Outcome := (i: nat) => if i <= MAX_REJECTIONS then Onward(env, s, k, i) else Onward(env, s, k, 0);
    forall i: nat | i < m ensures f(i) == f(i + 1) {
      StretchAt(s, k, m, i);
      OnwardStep(env, s, k, i);
    }
    Chain(f, m);
  }

  lemma {:induction false} StretchAt(s: Redis, k: nat, m: nat, i: nat)
    requires |s.queue| >= 2 && Stretch(s, k, m) && i < m
    ensures !HeadOpen(s, k + i)
  {
    hide Wrap;
    if i < m - 1 { StretchAt(s, k, m - 1, i); }
  }

  lemma {:induction false} DrainExtendsMatches(c: Cycle, env: Env)
    requires c.rejections < MAX_REJECTIONS
    ensures c.matched <= Drain(c, env).end.matched
    decreases MAX_REJECTIONS - c.rejections, |c.store.queue|
  {
    var t := env(c.pops);
    if !t.popFails && |c.store.queue| >= 2 {
      if !CheckedBlocked(c.store, c.store.queue[0], c.store.queue[1], t) {
        DrainExtendsMatches(Accepted(c, t.now), env);
      } else if !t.requeueFails && c.rejections + 1 < MAX_REJECTIONS {
        DrainExtendsMatches(Rejected(c), env);
      }
    }
  }

  /** A whole call on a queue whose next 32 head pairs are all blocked matches nobody and
      leaves the queue turned by 64. */
  lemma FruitlessCall(s: Redis, env: Env, k: nat)
    requires |s.queue| >= 2 && Faultless(env)
    requires Stretch(s, k, 32)
    ensures Drain(Start(At(s, k)), env) == Outcome(CycleAt(s, k + 32, 32, 32), BudgetSpent)
  {
    hide Drain, Wrap;
    Spin(env, s, k, 32);
  }

  lemma DrainAccepts(c: Cycle, env: Env, s: Redis, k: nat)
    requires |s.queue| >= 2 && Faultless(env) && c.store == At(s, k)
    requires c.rejections < MAX_REJECTIONS && HeadOpen(s, k) && c.matched == []
    ensures var e := Drain(c, env).end;
      && e.matched != []
      && (e.matched[0].first, e.matched[0].second) == HeadPair(s.queue, k)
  {
    assert env(c.pops).Faultless();
    RejectTurn(c, env(c.pops), s, k);
    DrainExtendsMatches(Accepted(c, env(c.pops).now), env);
  }

  /** A call whose first open head pair is the j-th, within budget, matches exactly that pair first. */
  lemma FruitfulCall(s: Redis, env: Env, k: nat, j: nat)
    requires |s.queue| >= 2 && Faultless(env)
    requires k <= j < k + 32 && HeadOpen(s, j)
    requires Stretch(s, k, j - k)
    ensures var e := Drain(Start(At(s, k)), env).end;
      && e.matched != []
      && (e.matched[0].first, e.matched[0].second) == HeadPair(s.queue, j)
  {
    hide Drain, Wrap;
    var at := CycleAt(s, j, j - k, j - k);
    DrainAccepts(at, env, s, j);
    Spin(env, s, k, j - k);
  }

  // ---- several calls in a row, nobody joining or leaving -----------------------------------

  function AfterCalls(s: Redis, envs: nat -> Env, calls: nat): Redis {
    if calls == 0 then s else Drain(Start(AfterCalls(s, envs, calls - 1)), envs(calls - 1)).end.store
  }

  predicate MatchesInCall(s: Redis, envs: nat -> Env, i: nat) {
    Drain(Start(AfterCalls(s, envs, i)), envs(i)).end.matched != []
  }

  ghost predicate MatchesWithin(s: Redis, envs: nat -> Env, calls: nat) {
    exists i: nat :: i < calls && MatchesInCall(s, envs, i)
  }

  ghost predicate OpensWithin(s: Redis, heads: nat)
    requires |s.queue| >= 2
  {
    exists k: nat :: k < heads && HeadOpen(s, k)
  }

  lemma {:induction false} StretchSplits(s: Redis, k: nat, m: nat, m': nat)
    requires |s.queue| >= 2 && Stretch(s, k, m + m')
    ensures Stretch(s, k, m) && Stretch(s, k + m, m')
    decreases m'
  {
    hide Wrap;
    if m' > 0 { StretchSplits(s, k, m, m' - 1); }
  }

  lemma {:induction false} StretchOrOpen(s: Redis, m: nat) returns (j: nat)
    requires |s.queue| >= 2
    ensures j <= m && Stretch(s, 0, j) && (j < m ==> HeadOpen(s, j))
    ensures Stretch(s, 0, m) <==> !OpensWithin(s, m)
  {
    hide Wrap;
    if m == 0 {
      j := 0;
    } else {
      j := StretchOrOpen(s, m - 1);
    }
    if j < m && !HeadOpen(s, j) { j := j + 1; }
  }

  lemma {:induction false} WhileBlocked(s: Redis, envs: nat -> Env, calls: nat)
    requires |s.queue| >= 2
    requires forall i: nat :: Faultless(envs(i))
    requires Stretch(s, 0, 32 * calls)
    ensures AfterCalls(s, envs, calls) == At(s, 32 * calls)
    ensures !MatchesWithin(s, envs, calls)
  {
    hide Drain, Wrap;
    if calls == 0 {
      RotatedZero(s.queue);
    } else {
      var before := calls - 1;
      StretchSplits(s, 0, 32 * before, 32);
      WhileBlocked(s, envs, before);
      FruitlessCall(s, envs(before), 32 * before);
      assert !MatchesInCall(s, envs, before);
    }
  }

  /** Within any number of calls there is a match iff one of the first 32 * calls head
      pairs, taken cyclically two apart, is open. */
  lemma MatchesIffHeadOpens(s: Redis, envs: nat -> Env, calls: nat)
    requires |s.queue| >= 2
    requires forall i: nat :: Faultless(envs(i))
    ensures MatchesWithin(s, envs, calls) <==> OpensWithin(s, 32 * calls)
  {
    hide Drain, Wrap;
    var j := StretchOrOpen(s, 32 * calls);
    if j < 32 * calls {
      var i := j / 32;
      StretchSplits(s, 0, 32 * i, j - 32 * i);
      WhileBlocked(s, envs, i);
      FruitfulCall(s, envs(i), 32 * i, j);
      assert MatchesInCall(s, envs, i);
    } else {
      WhileBlocked(s, envs, calls);
    }
  }

  // ---- which pairs come to the head ---------------------------------------------------------

  predicate AdjacentOpen(s: Redis, i: nat)
    requires i < |s.queue|
  {
    !s.PairBlocked(s.queue[i], s.queue[if i + 1 < |s.queue| then i + 1 else 0])
  }

  ghost predicate SomeAdjacentOpen(s: Redis) {
    exists i: nat :: i < |s.queue| && AdjacentOpen(s, i)
  }

  ghost predicate SomeAlignedOpen(s: Redis) {
    exists i: nat :: i < |s.queue| - 1 && i % 2 == 0 && AdjacentOpen(s, i)
  }

  /** The k-th head pair is the cyclically adjacent pair that starts at 2k mod n. */
  lemma HeadIsAdjacent(s: Redis, k: nat)
    requires |s.queue| >= 2
    ensures HeadOpen(s, k) <==> AdjacentOpen(s, Wrap(2 * k, |s.queue|))
  {
    WrapSum(2 * k, 1, |s.queue|);
  }

  lemma HeadIsAligned(s: Redis, k: nat)
    requires |s.queue| >= 2 && |s.queue| % 2 == 0 && HeadOpen(s, k)
    ensures SomeAlignedOpen(s)
  {
    hide Wrap;
    HeadIsAdjacent(s, k);
    WrapEven(k, |s.queue| / 2);
    assert AdjacentOpen(s, Wrap(2 * k, |s.queue|));
  }

  /** Odd length: two is invertible modulo n, so every cyclically adjacent pair comes to
      the head within one revolution. */
  lemma AdjacentComesToHead(s: Redis)
    requires |s.queue| >= 3 && |s.queue| % 2 == 1 && SomeAdjacentOpen(s)
    ensures OpensWithin(s, |s.queue|)
  {
    var n := |s.queue|;
    var i: nat :| i < n && AdjacentOpen(s, i);
    var k := if i % 2 == 0 then i / 2 else (i + n) / 2;
    assert 2 * k == i || 2 * k == i + n;
    assert Wrap(2 * k, n) == i;
    HeadIsAdjacent(s, k);
  }

  /** Even length: an aligned pair comes to the head within half a revolution. */
  lemma AlignedComesToHead(s: Redis)
    requires |s.queue| >= 2 && |s.queue| % 2 == 0 && SomeAlignedOpen(s)
    ensures OpensWithin(s, |s.queue| / 2)
  {
    var i: nat :| i < |s.queue| - 1 && i % 2 == 0 && AdjacentOpen(s, i);
    assert Wrap(2 * (i / 2), |s.queue|) == i;
    HeadIsAdjacent(s, i / 2);
  }

  /** The progress theorem. Without arrivals, a queue of odd length n >= 3 forms a match
      within ceil(n/32) calls iff some cyclically adjacent pair is open; if none is, no
      number of calls ever forms one. */
  lemma OddQueueProgress(s: Redis, envs: nat -> Env, calls: nat)
    requires |s.queue| >= 3 && |s.queue| % 2 == 1
    requires forall i: nat :: Faultless(envs(i))
    ensures MatchesWithin(s, envs, calls) ==> SomeAdjacentOpen(s)
    ensures 32 * calls >= |s.queue| && SomeAdjacentOpen(s) ==> MatchesWithin(s, envs, calls)
  {
    hide Wrap;
    MatchesIffHeadOpens(s, envs, calls);
    if MatchesWithin(s, envs, calls) {
      var k: nat :| k < 32 * calls && HeadOpen(s, k);
      HeadIsAdjacent(s, k);
    }
    if SomeAdjacentOpen(s) {
      AdjacentComesToHead(s);
    }
  }

  /** Even length: only the aligned pairs (q[2i], q[2i+1]) ever meet, and they all do within
      ceil(n/64) calls. */
  lemma EvenQueueProgress(s: Redis, envs: nat -> Env, calls: nat)
    requires |s.queue| >= 2 && |s.queue| % 2 == 0
    requires forall i: nat :: Faultless(envs(i))
    ensures MatchesWithin(s, envs, calls) ==> SomeAlignedOpen(s)
    ensures 64 * calls >= |s.queue| && SomeAlignedOpen(s) ==> MatchesWithin(s, envs, calls)
  {
    hide Wrap;
    MatchesIffHeadOpens(s, envs, calls);
    if MatchesWithin(s, envs, calls) {
      var k: nat :| k < 32 * calls && HeadOpen(s, k);
      HeadIsAligned(s, k);
    }
    if SomeAlignedOpen(s) {
      AlignedComesToHead(s);
    }
  }
}
