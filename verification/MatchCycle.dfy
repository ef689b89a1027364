/** processMatches as a function of the shared state, and what one call guarantees. */
module MatchCycle {
  import opened Ids
  import opened Sequences
  import opened Store

  const MAX_REJECTIONS: nat := 32   // maxBlockedRejectionsPerCycle

  /** What the environment decides for one turn of the loop: which Redis commands fail,
      and the clock when the pair is committed. */
  datatype Turn = Turn(popFails: bool, firstCheckFails: bool, secondCheckFails: bool,
                       requeueFails: bool, now: int)
  {
    predicate Faultless() {
      !popFails && !firstCheckFails && !secondCheckFails && !requeueFails
    }
  }

  datatype Match = Match(first: UserId, second: UserId, turn: nat)

  /** One call in progress: the shared state, pops so far, rejections so far, and what left the queue. */
  datatype Cycle = Cycle(store: Redis, pops: nat, rejections: nat, matched: seq<Match>, lost: seq<UserId>)

  datatype Exit = QueueShort | BudgetSpent | PopError | RequeueError

  datatype Outcome = Outcome(end: Cycle, exit: Exit)

  function Start(s: Redis): Cycle {
    Cycle(s, 0, 0, [], [])
  }

  /** pairBlocked: a failing SISMEMBER counts as "not a member". */
  predicate CheckedBlocked(s: Redis, a: UserId, b: UserId, t: Turn) {
    (!t.firstCheckFails && s.IsBlockMember(a, b)) || (!t.secondCheckFails && s.IsBlockMember(b, a))
  }

  // The three things that can happen to a popped pair.
  function Popped(c: Cycle): Cycle
    requires |c.store.queue| >= 2
  {
    c.(store := c.store.PopPair(), pops := c.pops + 1)
  }

  function Rejected(c: Cycle): Cycle
    requires |c.store.queue| >= 2
  {
    var p := Popped(c);
    p.(store := p.store.Requeue(c.store.queue[0], c.store.queue[1]), rejections := c.rejections + 1)
  }

  function Lost(c: Cycle): Cycle
    requires |c.store.queue| >= 2
  {
    Popped(c).(lost := c.lost + [c.store.queue[0], c.store.queue[1]])
  }

  function Accepted(c: Cycle, now: int): Cycle
    requires |c.store.queue| >= 2
  {
    var p := Popped(c);
    p.(store := p.store.Commit(c.store.queue[0], c.store.queue[1], now),
       matched := c.matched + [Match(c.store.queue[0], c.store.queue[1], c.pops)])
  }

  function Drain(c: Cycle, env: nat -> Turn): Outcome
    requires c.rejections < MAX_REJECTIONS
    decreases MAX_REJECTIONS - c.rejections, |c.store.queue|
  {
    var t := env(c.pops);
    if t.popFails then Outcome(c, PopError)
    else if |c.store.queue| < 2 then Outcome(c, QueueShort)
    else if CheckedBlocked(c.store, c.store.queue[0], c.store.queue[1], t) then
      if t.requeueFails then Outcome(Lost(c), RequeueError)
      else if c.rejections + 1 >= MAX_REJECTIONS then Outcome(Rejected(c), BudgetSpent)
      else Drain(Rejected(c), env)
    else Drain(Accepted(c, t.now), env)
  }

  /** The users of a list of matches, with multiplicity. */
  function Users(ms: seq<Match>): multiset<UserId> {
    if ms == [] then multiset{} else
      Users(ms[..|ms| - 1]) + multiset{ms[|ms| - 1].first, ms[|ms| - 1].second}
  }

  function AllUsers(c: Cycle): multiset<UserId> {
    multiset(c.store.queue) + Users(c.matched) + multiset(c.lost)
  }

  lemma UsersSnoc(ms: seq<Match>, m: Match)
    ensures Users(ms + [m]) == Users(ms) + multiset{m.first, m.second}
  {
    assert (ms + [m])[..|ms|] == ms;
  }

  lemma TurnsConserve(c: Cycle, now: int)
    requires |c.store.queue| >= 2
    ensures AllUsers(Rejected(c)) == AllUsers(c)
    ensures AllUsers(Lost(c)) == AllUsers(c)
    ensures AllUsers(Accepted(c, now)) == AllUsers(c)
  {
    hide Waits;
    PopTwoSplits(c.store.queue);
    UsersSnoc(c.matched, Match(c.store.queue[0], c.store.queue[1], c.pops));
  }

  /** Conservation: a call only moves users between the queue, the matches and, when a
      re-queue fails, the lost pair. */
  lemma {:induction false} DrainConserves(c: Cycle, env: nat -> Turn)
    requires c.rejections < MAX_REJECTIONS
    ensures AllUsers(Drain(c, env).end) == AllUsers(c)
    decreases MAX_REJECTIONS - c.rejections, |c.store.queue|
  {
    hide Waits;
    var t := env(c.pops);
    if !t.popFails && |c.store.queue| >= 2 {
      TurnsConserve(c, t.now);
      if !CheckedBlocked(c.store, c.store.queue[0], c.store.queue[1], t) {
        DrainConserves(Accepted(c, t.now), env);
      } else if !t.requeueFails && c.rejections + 1 < MAX_REJECTIONS {
        DrainConserves(Rejected(c), env);
      }
    }
  }

  lemma TurnSizes(c: Cycle, now: int)
    requires |c.store.queue| >= 2
    ensures var r := Rejected(c);
      && |r.store.queue| == |c.store.queue| && r.store.blocks == c.store.blocks
      && r.pops == c.pops + 1 && r.rejections == c.rejections + 1 && r.matched == c.matched && r.lost == c.lost
    ensures var l := Lost(c);
      && |l.store.queue| == |c.store.queue| - 2 && l.store.blocks == c.store.blocks
      && l.pops == c.pops + 1 && l.rejections == c.rejections && l.matched == c.matched && |l.lost| == |c.lost| + 2
    ensures var a := Accepted(c, now);
      && |a.store.queue| == |c.store.queue| - 2 && a.store.blocks == c.store.blocks
      && a.pops == c.pops + 1 && a.rejections == c.rejections && |a.matched| == |c.matched| + 1 && a.lost == c.lost
  {
    hide Waits;
  }

  /** Termination bound. Each pop matches, is rejected, or loses its pair; so a call makes
      at most floor(n/2) + 32 pops, and the queue keeps its parity. */
  lemma {:induction false} DrainCounts(c: Cycle, env: nat -> Turn)
    requires c.rejections < MAX_REJECTIONS
    ensures var o := Drain(c, env);
      var lostNow := if o.exit.RequeueError? then 1 else 0;
      var matchedNow := |o.end.matched| - |c.matched|;
      && o.end.pops - c.pops == matchedNow + (o.end.rejections - c.rejections) + lostNow
      && o.end.pops - c.pops <= |c.store.queue| / 2 + (MAX_REJECTIONS - c.rejections)
      && |c.store.queue| - |o.end.store.queue| == 2 * matchedNow + 2 * lostNow
      && |o.end.lost| - |c.lost| == 2 * lostNow
      && o.end.store.blocks == c.store.blocks
    decreases MAX_REJECTIONS - c.rejections, |c.store.queue|
  {
    hide Accepted, Rejected, Lost;
    var t := env(c.pops);
    if !t.popFails && |c.store.queue| >= 2 {
      TurnSizes(c, t.now);
      if !CheckedBlocked(c.store, c.store.queue[0], c.store.queue[1], t) {
        DrainCounts(Accepted(c, t.now), env);
      } else if !t.requeueFails && c.rejections + 1 < MAX_REJECTIONS {
        DrainCounts(Rejected(c), env);
      }
    }
  }

  /** Why a call stops: a call that meets no failing command stops for want of a pair or
      for want of budget, and exactly one of the two. */
  lemma {:induction false} DrainStops(c: Cycle, env: nat -> Turn)
    requires c.rejections < MAX_REJECTIONS
    ensures var o := Drain(c, env);
      && (o.exit.QueueShort? ==> |o.end.store.queue| < 2 && o.end.rejections < MAX_REJECTIONS)
      && (o.exit.BudgetSpent? ==> |o.end.store.queue| >= 2 && o.end.rejections == MAX_REJECTIONS)
      && (o.exit.PopError? ==> env(o.end.pops).popFails)
      && (o.exit.RequeueError? ==> o.end.pops > 0 && env(o.end.pops - 1).requeueFails)
    decreases MAX_REJECTIONS - c.rejections, |c.store.queue|
  {
    hide Accepted, Rejected, Lost;
    var t := env(c.pops);
    if !t.popFails && |c.store.queue| >= 2 {
      TurnSizes(c, t.now);
      if !CheckedBlocked(c.store, c.store.queue[0], c.store.queue[1], t) {
        DrainStops(Accepted(c, t.now), env);
      } else if !t.requeueFails && c.rejections + 1 < MAX_REJECTIONS {
        DrainStops(Rejected(c), env);
      }
    }
  }

  /** A match is a pair that was not blocked, unless a check failed in that very turn. */
  ghost predicate MatchesRespectBlocks(c: Cycle, env: nat -> Turn) {
    forall m :: m in c.matched && c.store.PairBlocked(m.first, m.second)
      ==> env(m.turn).firstCheckFails || env(m.turn).secondCheckFails
  }

  lemma {:induction false} DrainRespectsBlocks(c: Cycle, env: nat -> Turn)
    requires c.rejections < MAX_REJECTIONS
    requires MatchesRespectBlocks(c, env)
    ensures MatchesRespectBlocks(Drain(c, env).end, env)
    decreases MAX_REJECTIONS - c.rejections, |c.store.queue|
  {
    hide Waits;
    var t := env(c.pops);
    if !t.popFails && |c.store.queue| >= 2 {
      if !CheckedBlocked(c.store, c.store.queue[0], c.store.queue[1], t) {
        DrainRespectsBlocks(Accepted(c, t.now), env);
      } else if !t.requeueFails && c.rejections + 1 < MAX_REJECTIONS {
        DrainRespectsBlocks(Rejected(c), env);
      }
    }
  }

  /** The pairs that a call turns away, re-queued or lost, with the turn in which it does. */
  function TurnedAway(c: Cycle, env: nat -> Turn): seq<Match>
    requires c.rejections < MAX_REJECTIONS
    decreases MAX_REJECTIONS - c.rejections, |c.store.queue|
  {
    var t, q := env(c.pops), c.store.queue;
    if t.popFails || |q| < 2 then []
    else if !CheckedBlocked(c.store, q[0], q[1], t) then TurnedAway(Accepted(c, t.now), env)
    else
      [Match(q[0], q[1], c.pops)] +
        if t.requeueFails || c.rejections + 1 >= MAX_REJECTIONS then [] else TurnedAway(Rejected(c), env)
  }

  /** Nobody is turned away without need: every pair turned away was listed by one of its two sides
      in a lookup that did not fail in that turn. And each of them was re-queued, except that the
      last one is lost if and only if its re-queue failed. */
  lemma {:induction false} TurnedAwayWereListed(c: Cycle, env: nat -> Turn)
    requires c.rejections < MAX_REJECTIONS
    ensures var away, o := TurnedAway(c, env), Drain(c, env);
      && (forall m :: m in away ==>
            || (!env(m.turn).firstCheckFails && c.store.IsBlockMember(m.first, m.second))
            || (!env(m.turn).secondCheckFails && c.store.IsBlockMember(m.second, m.first)))
      && o.end.rejections >= c.rejections
      && |away| == o.end.rejections - c.rejections + (if o.exit.RequeueError? then 1 else 0)
      && (forall i :: 0 <= i < |away| ==>
            (env(away[i].turn).requeueFails <==> o.exit.RequeueError? && i == |away| - 1))
    decreases MAX_REJECTIONS - c.rejections, |c.store.queue|
  {
    hide Accepted, Rejected, Lost;
    var t, q := env(c.pops), c.store.queue;
    if !t.popFails && |q| >= 2 {
      TurnSizes(c, t.now);
      if !CheckedBlocked(c.store, q[0], q[1], t) {
        TurnedAwayWereListed(Accepted(c, t.now), env);
      } else if !t.requeueFails && c.rejections + 1 < MAX_REJECTIONS {
        TurnedAwayWereListed(Rejected(c), env);
        LostIsEnd(c);
        var away, rest := TurnedAway(c, env), TurnedAway(Rejected(c), env);
        assert away == [Match(q[0], q[1], c.pops)] + rest;
        forall i | 0 < i < |away| ensures away[i] == rest[i - 1] {}
      } else {
        LostIsEnd(c);
      }
    }
  }

  lemma LostIsEnd(c: Cycle)
    requires |c.store.queue| >= 2
    ensures Lost(c).rejections == c.rejections && Rejected(c).rejections == c.rejections + 1
  {
  }

  /** A call goes on exactly until a pop fails or one of the other ends is reached. */
  lemma {:induction false} DrainStopsAtFailedPop(c: Cycle, env: nat -> Turn)
    requires c.rejections < MAX_REJECTIONS
    ensures var o := Drain(c, env);
      && (forall k: nat :: c.pops <= k < o.end.pops ==> !env(k).popFails)
      && (env(o.end.pops).popFails ==> o.exit.PopError? || o.exit.BudgetSpent? || o.exit.RequeueError?)
    decreases MAX_REJECTIONS - c.rejections, |c.store.queue|
  {
    hide Accepted, Rejected, Lost;
    var t, q := env(c.pops), c.store.queue;
    if !t.popFails && |q| >= 2 {
      TurnSizes(c, t.now);
      if !CheckedBlocked(c.store, q[0], q[1], t) {
        DrainStopsAtFailedPop(Accepted(c, t.now), env);
      } else if !t.requeueFails && c.rejections + 1 < MAX_REJECTIONS {
        DrainStopsAtFailedPop(Rejected(c), env);
      }
    }
  }

  // ---- sessions and notifications -------------------------------------------------------

  /** The session keys that a list of matches writes, later matches winning. */
  function Paired(ms: seq<Match>): map<UserId, UserId> {
    if ms == [] then map[] else
      var m := ms[|ms| - 1];
      Paired(ms[..|ms| - 1])[m.first := m.second][m.second := m.first]
  }

  /** Both sides of every match are notified of each other, in match order. */
  function Notices(ms: seq<Match>): seq<Notice> {
    if ms == [] then [] else
      var m := ms[|ms| - 1];
      Notices(ms[..|ms| - 1]) + [Notice(m.first, m.second), Notice(m.second, m.first)]
  }

  ghost predicate Announces(c: Cycle, base: Redis) {
    c.store.sessions == base.sessions + Paired(c.matched) && c.store.published == base.published + Notices(c.matched)
  }

  lemma AnnounceSnoc(ms: seq<Match>, m: Match)
    ensures Paired(ms + [m]) == Paired(ms)[m.first := m.second][m.second := m.first]
    ensures Notices(ms + [m]) == Notices(ms) + [Notice(m.first, m.second), Notice(m.second, m.first)]
  {
    assert (ms + [m])[..|ms|] == ms;
  }

  lemma AcceptedAnnounces(c: Cycle, base: Redis, now: int)
    requires |c.store.queue| >= 2 && Announces(c, base)
    ensures Announces(Accepted(c, now), base)
  {
    hide Waits, Paired, Notices;
    var m := Match(c.store.queue[0], c.store.queue[1], c.pops);
    AnnounceSnoc(c.matched, m);
    var a := Accepted(c, now).store;
    assert a.published == c.store.published + [Notice(m.first, m.second), Notice(m.second, m.first)];
    assert a.sessions == c.store.sessions[m.first := m.second][m.second := m.first];
  }

  lemma {:induction false} DrainAnnounces(c: Cycle, env: nat -> Turn, base: Redis)
    requires c.rejections < MAX_REJECTIONS
    requires Announces(c, base)
    ensures Announces(Drain(c, env).end, base)
    decreases MAX_REJECTIONS - c.rejections, |c.store.queue|
  {
    hide Waits;
    var t := env(c.pops);
    if !t.popFails && |c.store.queue| >= 2 {
      if !CheckedBlocked(c.store, c.store.queue[0], c.store.queue[1], t) {
        AcceptedAnnounces(c, base, t.now);
        DrainAnnounces(Accepted(c, t.now), env, base);
      } else if !t.requeueFails && c.rejections + 1 < MAX_REJECTIONS {
        DrainAnnounces(Rejected(c), env, base);
      }
    }
  }

  ghost predicate FixedPointFreeInvolution(p: map<UserId, UserId>) {
    forall u :: u in p ==> p[u] != u && p[u] in p && p[p[u]] == u
  }

  lemma {:induction false} PairedKeys(ms: seq<Match>)
    ensures forall u :: u in Paired(ms) <==> u in Users(ms)
  {
    if ms != [] { PairedKeys(ms[..|ms| - 1]); }
  }

  lemma {:induction false} PairedIsInvolution(ms: seq<Match>)
    requires forall u :: Users(ms)[u] <= 1
    ensures FixedPointFreeInvolution(Paired(ms))
  {
    if ms != [] {
      var init, m := ms[..|ms| - 1], ms[|ms| - 1];
      UsersSnoc(init, m);
      forall u ensures Users(init)[u] <= 1 { assert Users(ms)[u] <= 1; }
      PairedIsInvolution(init);
      PairedKeys(init);
      assert Users(ms)[m.first] <= 1 && Users(ms)[m.second] <= 1;
      assert Users(ms)[m.first] == Users(init)[m.first] + multiset{m.first, m.second}[m.first];
      assert m.first != m.second && m.first !in Paired(init) && m.second !in Paired(init);
      forall u | u in Paired(ms)
        ensures Paired(ms)[u] != u && Paired(ms)[u] in Paired(ms) && Paired(ms)[Paired(ms)[u]] == u
      {
        if u != m.first && u != m.second {
          assert Paired(ms)[u] == Paired(init)[u];
        }
      }
    }
  }

  /** Where a user of the initial queue is after one call, with multiplicity. */
  lemma DrainAccountsFor(s: Redis, env: nat -> Turn, u: UserId)
    ensures var e := Drain(Start(s), env).end;
      multiset(s.queue)[u] == Users(e.matched)[u] + multiset(e.store.queue)[u] + multiset(e.lost)[u]
  {
    DrainConserves(Start(s), env);
    assert AllUsers(Start(s))[u] == multiset(s.queue)[u];
    assert AllUsers(Drain(Start(s), env).end)[u] == multiset(s.queue)[u];
  }

  /** One call on a duplicate-free queue: the matched users are paired off by a
      fixed-point-free involution, everybody else's session is as before, and those who
      stay in the queue are exactly those neither matched nor lost. */
  lemma DrainPairsOff(s: Redis, env: nat -> Turn)
    requires NoDuplicates(s.queue)
    ensures var e := Drain(Start(s), env).end;
      && FixedPointFreeInvolution(Paired(e.matched))
      && e.store.sessions == s.sessions + Paired(e.matched)
      && e.store.published == s.published + Notices(e.matched)
      && NoDuplicates(e.store.queue)
    ensures var e := Drain(Start(s), env).end;
      forall u :: u in s.queue <==> u in Paired(e.matched) || u in e.store.queue || u in e.lost
    ensures var e := Drain(Start(s), env).end;
      forall u :: u in Paired(e.matched) ==> u !in e.store.queue && u !in e.lost
  {
    var e := Drain(Start(s), env).end;
    DrainAnnounces(Start(s), env, s);
    PairedKeys(e.matched);
    forall u
      ensures Users(e.matched)[u] <= 1 && multiset(e.store.queue)[u] <= 1
      ensures u in s.queue <==> u in Users(e.matched) || u in e.store.queue || u in e.lost
      ensures u in Users(e.matched) ==> u !in e.store.queue && u !in e.lost
    {
      DrainAccountsFor(s, env, u);
      assert multiset(s.queue)[u] <= 1;
      assert u in s.queue <==> multiset(s.queue)[u] > 0;
      assert u in e.store.queue <==> multiset(e.store.queue)[u] > 0;
      assert u in e.lost <==> multiset(e.lost)[u] > 0;
    }
    PairedIsInvolution(e.matched);
  }

  /** `Add` does not de-duplicate, so a queue that holds a user twice can pair the user with itself. */
  lemma DuplicateIsPairedWithItself(s: Redis, u: UserId, env: nat -> Turn)
    requires s.queue == [u, u] && u !in s.blocks
    requires env(0).Faultless() && env(1).Faultless()
    ensures var o := Drain(Start(s), env);
      o.end.matched == [Match(u, u, 0)] && u in o.end.store.sessions && o.end.store.sessions[u] == u
  {
  }

  // ---- one turn at a time ------------------------------------------------------------------

  /** One turn of the loop in which the pop succeeds. */
  function RoundUnder(s: Redis, t: Turn): Redis {
    if |s.queue| < 2 then s
    else if CheckedBlocked(s, s.queue[0], s.queue[1], t) then
      if t.requeueFails then s.PopPair() else s.PopPair().Requeue(s.queue[0], s.queue[1])
    else s.PopPair().Commit(s.queue[0], s.queue[1], t.now)
  }

  /** One turn in which both checks succeed as well. */
  function Round(s: Redis, requeueFails: bool, now: int): Redis {
    RoundUnder(s, Turn(false, false, false, requeueFails, now))
  }

  function Rounds(s: Redis, env: nat -> Turn, first: nat, n: nat): Redis
    decreases n
  {
    if n == 0 then s else Rounds(RoundUnder(s, env(first)), env, first + 1, n - 1)
  }

  /** A whole call is as many single turns as it makes pops, whichever commands fail, so what
      every turn keeps every call keeps. */
  lemma {:induction false} DrainIsRounds(c: Cycle, env: nat -> Turn)
    requires c.rejections < MAX_REJECTIONS
    ensures Drain(c, env).end.pops >= c.pops
    ensures Rounds(c.store, env, c.pops, Drain(c, env).end.pops - c.pops) == Drain(c, env).end.store
    decreases MAX_REJECTIONS - c.rejections, |c.store.queue|
  {
    hide RoundUnder, Accepted, Rejected, Lost, CheckedBlocked;
    var t := env(c.pops);
    if !t.popFails && |c.store.queue| >= 2 {
      TurnSizes(c, t.now);
      RoundIs(c, t);
      if !CheckedBlocked(c.store, c.store.queue[0], c.store.queue[1], t) {
        DrainIsRounds(Accepted(c, t.now), env);
      } else if !t.requeueFails && c.rejections + 1 < MAX_REJECTIONS {
        DrainIsRounds(Rejected(c), env);
      } else {
        assert Rounds(RoundUnder(c.store, t), env, c.pops + 1, 0) == RoundUnder(c.store, t);
      }
    }
  }

  lemma RoundIs(c: Cycle, t: Turn)
    requires |c.store.queue| >= 2
    ensures RoundUnder(c.store, t) ==
      if !CheckedBlocked(c.store, c.store.queue[0], c.store.queue[1], t) then Accepted(c, t.now).store
      else if t.requeueFails then Lost(c).store
      else Rejected(c).store
  {
    hide Waits;
  }
}
