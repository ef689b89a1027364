/** The enqueue-time hash at single-command granularity: `Add` and `Remove` are two commands
    each, and the matchmaker reads and deletes the times of a pair in two more. */
module WaitTimes {
  import opened Ids
  import opened Options
  import opened Sequences
  import opened QueueProtocol

  /** The ticket whose wait time the handler of `c` has written and not yet deleted. */
  function Written(c: Conn): Option<Ticket> {
    match c
    case Waiting(t) => Some(t)
    case Closing(t) => Some(t)
    case Dequeued(was) => was
    case _ => None
  }

  /** The ticket under which `u` waits: its time is written, and no match has used it up. */
  function WaitsUnder(s: State, u: UserId): Option<Ticket> {
    var written := Written(s.ConnOf(u));
    if written.Some? && written.value !in s.forgotten then written else None
  }

  /** The key of `u` is there exactly while `u` waits, and was written by the `Add` it waits for. */
  predicate KeyExact(s: State, u: UserId) {
    WaitsUnder(s, u) == if u in s.enqueuedAt then Some(s.enqueuedAt[u].ticket) else None
  }

  /** A reading that yields the time since its own `Add`. */
  predicate Right(r: Reading) {
    r.stamp.Some? && r.stamp.value.ticket == r.ticket
  }

  ghost predicate Exact(s: State) {
    && (forall u: UserId :: KeyExact(s, u))
    && (forall r: Reading :: r in s.readings ==> Right(r))
  }

  /** Every ticket that a handler holds or has written belongs to its user. */
  ghost predicate OwnTickets(s: State) {
    forall u: UserId, t: Ticket :: Has(s, u, t) ==> t < |s.owner| && s.owner[t] == u
  }

  predicate Has(s: State, u: UserId, t: Ticket) {
    Written(s.ConnOf(u)) == Some(t) || s.ConnOf(u) == Pushed(t)
  }

  // ---- the three steps that spoil it -----------------------------------------------------------

  /** An HSET that comes after its own match has read and deleted the wait times. */
  predicate Late(s: State, e: Event) {
    e.HSet? && s.ConnOf(e.u).Pushed? && s.ConnOf(e.u).t in s.forgotten
  }

  /** An HMGET while a side has not written its time, or has a newer connection or none. */
  predicate Misreads(s: State, e: Event) {
    && e.Observe? && e.i < |s.instances| && s.instances[e.i].Accepted?
    && !(OwnTime(s, s.instances[e.i].a) && OwnTime(s, s.instances[e.i].b))
  }

  predicate OwnTime(s: State, t: Ticket) {
    t < |s.owner| && WaitsUnder(s, s.owner[t]) == Some(t)
  }

  /** An HDEL while the owner of a matched ticket already waits again under another one. */
  predicate Overreaches(s: State, e: Event) {
    && e.Forget? && e.i < |s.instances| && s.instances[e.i].Observed?
    && var p := s.instances[e.i];
      p.a < |s.owner| && p.b < |s.owner| && (WaitsAgain(s, s.owner[p.a], p) || WaitsAgain(s, s.owner[p.b], p))
  }

  predicate WaitsAgain(s: State, u: UserId, p: Phase)
    requires p.Observed?
  {
    WaitsUnder(s, u).Some? && WaitsUnder(s, u).value !in {p.a, p.b}
  }

  predicate Spoils(s: State, e: Event) {
    Late(s, e) || Misreads(s, e) || Overreaches(s, e)
  }

  // ---- single steps --------------------------------------------------------------------------------

  lemma StepOwnTickets(s: State, e: Event)
    requires OwnTickets(s)
    ensures OwnTickets(Step(s, e))
  {
    hide OwnTickets, Held;
    forall u: UserId, t: Ticket | Has(Step(s, e), u, t) ensures t < |Step(s, e).owner| && Step(s, e).owner[t] == u {
      StepHas(s, e, u, t);
      if Has(s, u, t) { OwnTicket(s, u, t); }
    }
    assert OwnTickets(Step(s, e)) by { TicketsOwned(Step(s, e)); }
  }

  lemma TicketsOwned(s: State)
    requires forall u: UserId, t: Ticket :: Has(s, u, t) ==> t < |s.owner| && s.owner[t] == u
    ensures OwnTickets(s)
  {
  }

  lemma OwnTicket(s: State, u: UserId, t: Ticket)
    requires OwnTickets(s) && Has(s, u, t)
    ensures t < |s.owner| && s.owner[t] == u
  {
  }

  lemma StepHas(s: State, e: Event, u: UserId, t: Ticket)
    requires Has(Step(s, e), u, t)
    ensures s.owner <= Step(s, e).owner
    ensures Has(s, u, t) || (t == |s.owner| && Step(s, e).owner == s.owner + [u])
  {
    hide Flight, Keep, Held;
  }

  lemma HandlerStepKeys(s: State, e: Event, u: UserId)
    requires !ByInstance(e) && KeyExact(s, u)
    ensures KeyExact(HandlerStep(s, e), u) <==> !(Late(s, e) && e.u == u)
    ensures HandlerStep(s, e).readings == s.readings
  {
    hide Flight, Keep;
    match e
    case Register(v) =>
    case InitFails(v) =>
    case RPush(v) =>
    case HSet(v, now) =>
    case Close(v) =>
    case LRem(v) =>
    case HDel(v) =>
  }

  lemma HandlerStepExact(s: State, e: Event)
    requires !ByInstance(e) && Exact(s)
    ensures Exact(Step(s, e)) <==> !Spoils(s, e)
  {
    var s' := HandlerStep(s, e);
    forall u: UserId ensures KeyExact(s', u) <==> !(Late(s, e) && e.u == u) {
      assert KeyExact(s, u);
      HandlerStepKeys(s, e, u);
    }
    HandlerStepKeys(s, e, ANYBODY);
    hide KeyExact, HandlerStep, Right;
    if Late(s, e) { assert !KeyExact(s', e.u); }
  }

  const ANYBODY: UserId := [0]

  lemma ReadIsRight(s: State, t: Ticket)
    requires t < |s.owner| ==> KeyExact(s, s.owner[t])
    ensures Right(Read(s, t)) <==> OwnTime(s, t)
  {
  }

  lemma ObserveExact(s: State, e: Event)
    requires Exact(s) && e.Observe? && e.i < |s.instances|
    ensures Exact(Step(s, e)) <==> !Spoils(s, e)
  {
    var p, s' := s.instances[e.i], Step(s, e);
    forall u: UserId ensures KeyExact(s', u) { assert KeyExact(s, u); }
    if p.Accepted? {
      ReadIsRight(s, p.a);
      ReadIsRight(s, p.b);
      assert s'.readings == s.readings + [Read(s, p.a), Read(s, p.b)];
      assert Read(s, p.a) in s'.readings && Read(s, p.b) in s'.readings;
    }
  }

  lemma ForgetKeys(s: State, e: Event, u: UserId)
    requires KeyExact(s, u) && OwnTickets(s) && e.Forget? && e.i < |s.instances| && Step(s, e) != s
    ensures var p := s.instances[e.i];
      KeyExact(Step(s, e), u) <==> !((u == s.owner[p.a] || u == s.owner[p.b]) && WaitsAgain(s, u, p))
  {
    var under := WaitsUnder(s, u);
    if under.Some? { OwnTicket(s, u, under.value); }
  }

  lemma ForgetExact(s: State, e: Event)
    requires Exact(s) && OwnTickets(s) && e.Forget? && e.i < |s.instances|
    ensures Exact(Step(s, e)) <==> !Spoils(s, e)
  {
    var p, s' := s.instances[e.i], Step(s, e);
    if s' != s {
      var a, b := s.owner[p.a], s.owner[p.b];
      forall u: UserId ensures KeyExact(s', u) <==> !((u == a || u == b) && WaitsAgain(s, u, p)) {
        ForgetKeys(s, e, u);
      }
      assert s'.readings == s.readings;
      hide KeyExact, WaitsAgain;
      if WaitsAgain(s, a, p) { assert !KeyExact(s', a); }
      if WaitsAgain(s, b, p) { assert !KeyExact(s', b); }
    }
  }

  lemma OtherStepExact(s: State, e: Event)
    requires Exact(s) && ByInstance(e) && !e.Observe? && !e.Forget?
    ensures Exact(Step(s, e)) && !Spoils(s, e)
  {
    var s' := Step(s, e);
    forall u: UserId ensures KeyExact(s', u) { assert KeyExact(s, u); }
  }

  lemma StepExact(s: State, e: Event)
    requires Exact(s) && OwnTickets(s)
    ensures Exact(Step(s, e)) <==> !Spoils(s, e)
  {
    hide Step, Exact, OwnTickets;
    if !ByInstance(e) {
      HandlerStepExact(s, e);
    } else if !e.Observe? && !e.Forget? {
      OtherStepExact(s, e);
    } else if e.i < |s.instances| {
      if e.Observe? { ObserveExact(s, e); } else { ForgetExact(s, e); }
    } else {
      NobodySteps(s, e);
    }
  }

  lemma NobodySteps(s: State, e: Event)
    requires ByInstance(e) && e.i >= |s.instances|
    ensures Step(s, e) == s && !Spoils(s, e)
  {
  }

  // ---- whole runs ----------------------------------------------------------------------------------

  ghost predicate AlwaysExact(instances: nat, es: seq<Event>) {
    Exact(Run(instances, es)) && (es == [] || AlwaysExact(instances, es[..|es| - 1]))
  }

  ghost predicate NothingSpoils(instances: nat, es: seq<Event>) {
    es == [] || (!Spoils(Run(instances, es[..|es| - 1]), es[|es| - 1]) && NothingSpoils(instances, es[..|es| - 1]))
  }

  lemma {:induction false} RunOwnTickets(instances: nat, es: seq<Event>)
    ensures OwnTickets(Run(instances, es))
  {
    hide Step;
    if es != [] {
      RunOwnTickets(instances, es[..|es| - 1]);
      StepOwnTickets(Run(instances, es[..|es| - 1]), es[|es| - 1]);
    }
  }

  /** Every wait time in the hash and every latency taken from it is always that of the user's
      own pending `Add`, if and only if three things never happen: an HSET after its own match
      has deleted the times; a match that reads the times while one side has not yet written
      its own, or is gone or back again; and a match that deletes the time of a side that is
      already waiting again. */
  lemma {:induction false} WaitTimesExactIff(instances: nat, es: seq<Event>)
    ensures AlwaysExact(instances, es) <==> NothingSpoils(instances, es)
  {
    hide Step, Exact, Spoils;
    if es == [] {
      StartExact(instances);
    } else {
      var init := es[..|es| - 1];
      WaitTimesExactIff(instances, init);
      RunOwnTickets(instances, init);
      if AlwaysExact(instances, init) {
        assert Exact(Run(instances, init)) by { if init == [] { StartExact(instances); } }
        StepExact(Run(instances, init), es[|es| - 1]);
      }
    }
  }

  lemma StartExact(instances: nat)
    ensures Exact(Run(instances, []))
  {
  }

  // ---- each of the three happens ---------------------------------------------------------------------

  lemma MatchedWhilePushed(a: UserId, b: UserId) returns (es: seq<Event>, s: State)
    requires a != b
    ensures Run(1, es) == s && s.instances == [Accepted(0, 1)] && s.matched == [(0, 1)]
    ensures s.ConnOf(a) == Pushed(0) && s.queue == [] && s.owner == [a, b]
    ensures s.readings == [] && s.enqueuedAt == map[] && s.forgotten == {}
  {
    hide Run, Flight;
    es, s := BothPushed(a, b);
    es, s := Then(es, s, Pop(0));
    es, s := Then(es, s, CheckFirst(0, false));
    assert s.instances == [Checked(0, 1)];
    es, s := Then(es, s, CheckSecond(0, false));
  }

  /** If the pair is matched between the two commands of an `Add`, the match finds no time for
      that side, and the late HSET leaves one behind for a user who no longer waits. */
  lemma MatchedUserKeepsWaitTime(a: UserId, b: UserId) returns (es: seq<Event>)
    requires a != b
    ensures var s := Run(1, es);
      && a in s.enqueuedAt && s.ConnOf(a) == Waiting(0) && s.matched == [(0, 1)]
      && s.queue == [] && s.instances == [Idle] && s.forgotten == {0, 1}
      && s.readings == [Reading(0, None), Reading(1, None)]
  {
    hide Run, Flight;
    ghost var s: State;
    es, s := MatchedWhilePushed(a, b);
    es, s := Then(es, s, Observe(0));
    es, s := Then(es, s, Forget(0));
    assert s.instances == [Idle] && s.ConnOf(a) == Pushed(0);
    es, s := Then(es, s, HSet(a, 1));
  }

  lemma MatchedAndRead(a: UserId, b: UserId) returns (es: seq<Event>, s: State)
    requires a != b
    ensures Run(1, es) == s
    ensures s.instances == [Observed(0, 1)] && s.owner == [a, b] && s.queue == [] && s.ConnOf(a) == Waiting(0)
    ensures s.forgotten == {}
  {
    hide Run, Flight, Keep;
    es, s := BothPopped(a, b);
    es, s := Then(es, s, CheckFirst(0, false));
    es, s := Then(es, s, CheckSecond(0, false));
    es, s := Then(es, s, Observe(0));
  }

  lemma MatchedAndGone(a: UserId, b: UserId) returns (es: seq<Event>, s: State)
    requires a != b
    ensures Run(1, es) == s
    ensures s.instances == [Observed(0, 1)] && s.owner == [a, b] && s.queue == [] && s.ConnOf(a) == Offline
    ensures s.forgotten == {}
  {
    hide Run, Flight;
    es, s := MatchedAndRead(a, b);
    es, s := Then(es, s, Close(a));
    assert Keep(s.queue, Not(OwnedBy(s.owner, a))) == [];
    es, s := Then(es, s, LRem(a));
    assert s.ConnOf(a) == Dequeued(Some(0));
    es, s := Then(es, s, HDel(a));
  }

  /** If a matched user leaves and comes back before the match's HDEL, that HDEL deletes the
      time of the new `Add`: the user waits without one. */
  lemma ReturnedUserLosesWaitTime(a: UserId, b: UserId) returns (es: seq<Event>)
    requires a != b
    ensures var s := Run(1, es); s.ConnOf(a) == Waiting(2) && s.queue == [2] && s.owner == [a, b, a] && a !in s.enqueuedAt
  {
    hide Run, Flight;
    ghost var s: State;
    es, s := MatchedAndGone(a, b);
    es, s := Then(es, s, Register(a));
    es, s := Then(es, s, RPush(a));
    es, s := Then(es, s, HSet(a, 5));
    assert s.ConnOf(a) == Waiting(2) && s.queue == [2] && s.owner == [a, b, a] && s.instances == [Observed(0, 1)];
    es, s := Then(es, s, Forget(0));
  }
}
