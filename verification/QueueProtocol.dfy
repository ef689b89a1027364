/** The matchmaking protocol as a step relation: any number of backend instances and any
    number of connection handlers interleave freely, one Redis command or script a step.
    Every RPUSH of `Add` is given a fresh ticket, so that re-queued entries can be told
    from new ones; the real queue is the image of the ticket queue under `owner`. */
module QueueProtocol {
  import opened Ids
  import opened Options
  import opened Sequences

  type Ticket = nat

  /** Where one instance is inside processMatches. The outcome of a check is any boolean:
      the block sets change between commands, and a failing SISMEMBER reads as false. */
  datatype Phase =
    | Idle
    | Popped(a: Ticket, b: Ticket)     // after the pop script
    | Checked(a: Ticket, b: Ticket)    // first SISMEMBER said no
    | Rejecting(a: Ticket, b: Ticket)  // about to RPUSH both
    | Accepted(a: Ticket, b: Ticket)   // matched, HMGET of the wait times pending
    | Observed(a: Ticket, b: Ticket)   // wait times read, HDEL pending

  /** Where one user's handler is. A user has at most one live connection. */
  datatype Conn =
    | Offline
    | Registered                 // in `clients`, not yet enqueued
    | Pushed(t: Ticket)          // RPUSH done, HSET pending
    | Waiting(t: Ticket)         // reading messages
    | Unqueued                   // closed before Add, LREM pending
    | Closing(t: Ticket)         // closed after Add, LREM pending
    | Dequeued(was: Option<Ticket>)   // LREM done, HDEL pending
  {
    predicate Holds(x: Ticket) {
      (Pushed? || Waiting? || Closing?) && t == x
    }
  }

  /** A wait time in the hash. Only `at` is stored; `ticket` says which `Add` wrote it. */
  datatype Stamp = Stamp(at: int, ticket: Ticket)

  /** What HMGET returned for one side of a match: that side's latency is taken from it. */
  datatype Reading = Reading(ticket: Ticket, stamp: Option<Stamp>)

  datatype State = State(
    queue: seq<Ticket>,
    owner: seq<UserId>,                  // owner[t]: who was enqueued under ticket t
    enqueuedAt: map<UserId, Stamp>,
    instances: seq<Phase>,
    conns: map<UserId, Conn>,
    matched: seq<(Ticket, Ticket)>,
    removed: seq<Ticket>,                // taken out by LREM
    lost: seq<Ticket>,                   // popped, and the re-queue failed
    ghosts: set<Ticket>,                 // in flight when their owner's LREM ran
    readings: seq<Reading>,
    forgotten: set<Ticket>)              // matched, and the HDEL of the match has run
  {
    function ConnOf(u: UserId): Conn {
      if u in conns then conns[u] else Offline
    }

    predicate InFlight(t: Ticket) {
      t in Flight(instances)
    }
  }

  datatype Event =
    | Register(u: UserId)
    | InitFails(u: UserId)
    | RPush(u: UserId)
    | HSet(u: UserId, now: int)
    | Close(u: UserId)
    | LRem(u: UserId)
    | HDel(u: UserId)
    | Pop(i: nat)
    | CheckFirst(i: nat, blocked: bool)
    | CheckSecond(i: nat, blocked: bool)
    | Requeue(i: nat, ok: bool)
    | Observe(i: nat)
    | Forget(i: nat)

  function Init(instances: nat): State {
    State([], [], map[], seq(instances, _ => Idle), map[], [], [], [], {}, [], {})
  }

  function Held(p: Phase): multiset<Ticket> {
    match p
    case Popped(a, b) => multiset{a, b}
    case Checked(a, b) => multiset{a, b}
    case Rejecting(a, b) => multiset{a, b}
    case _ => multiset{}
  }

  function Flight(instances: seq<Phase>): multiset<Ticket> {
    if instances == [] then multiset{} else
      Flight(instances[..|instances| - 1]) + Held(instances[|instances| - 1])
  }

  function Flat(pairs: seq<(Ticket, Ticket)>): multiset<Ticket> {
    if pairs == [] then multiset{} else
      Flat(pairs[..|pairs| - 1]) + multiset{pairs[|pairs| - 1].0, pairs[|pairs| - 1].1}
  }

  function OwnedBy(owner: seq<UserId>, u: UserId): Ticket -> bool {
    (t: Ticket) => t < |owner| && owner[t] == u
  }

  /** One step of a connection handler. An event that is not enabled changes nothing. */
  function HandlerStep(s: State, e: Event): State {
    match e
    case Register(u) =>
      if s.ConnOf(u).Offline? then s.(conns := s.conns[u := Registered]) else s
    case InitFails(u) =>
      if s.ConnOf(u).Registered? then s.(conns := s.conns[u := Unqueued]) else s
    case RPush(u) =>
      if s.ConnOf(u).Registered?
      then s.(queue := s.queue + [|s.owner|], owner := s.owner + [u], conns := s.conns[u := Pushed(|s.owner|)])
      else s
    case HSet(u, now) =>
      if s.ConnOf(u).Pushed?
      then s.(enqueuedAt := s.enqueuedAt[u := Stamp(now, s.ConnOf(u).t)], conns := s.conns[u := Waiting(s.ConnOf(u).t)])
      else s
    case Close(u) =>
      if s.ConnOf(u).Waiting? then s.(conns := s.conns[u := Closing(s.ConnOf(u).t)]) else s
    case LRem(u) =>
      if s.ConnOf(u).Closing? || s.ConnOf(u).Unqueued?
      then s.(queue := Keep(s.queue, Not(OwnedBy(s.owner, u))),
              removed := s.removed + Keep(s.queue, OwnedBy(s.owner, u)),
              ghosts := s.ghosts + (set t | t in Flight(s.instances) && OwnedBy(s.owner, u)(t)),
              conns := s.conns[u := Dequeued(if s.ConnOf(u).Closing? then Some(s.ConnOf(u).t) else None)])
      else s
    case HDel(u) =>
      if s.ConnOf(u).Dequeued?
      then s.(enqueuedAt := s.enqueuedAt - {u}, conns := s.conns - {u})
      else s
    case _ => s
  }

  // One step of instance `i` in processMatches.

  function PopStep(s: State, i: nat): State
    requires i < |s.instances|
  {
    if s.instances[i].Idle? && |s.queue| >= 2
    then s.(queue := s.queue[2..], instances := s.instances[i := Popped(s.queue[0], s.queue[1])])
    else s
  }

  function CheckFirstStep(s: State, i: nat, blocked: bool): State
    requires i < |s.instances|
  {
    var p := s.instances[i];
    if !p.Popped? then s
    else s.(instances := s.instances[i := if blocked then Rejecting(p.a, p.b) else Checked(p.a, p.b)])
  }

  function CheckSecondStep(s: State, i: nat, blocked: bool): State
    requires i < |s.instances|
  {
    var p := s.instances[i];
    if !p.Checked? then s
    else if blocked then s.(instances := s.instances[i := Rejecting(p.a, p.b)])
    else s.(instances := s.instances[i := Accepted(p.a, p.b)], matched := s.matched + [(p.a, p.b)])
  }

  function RequeueStep(s: State, i: nat, ok: bool): State
    requires i < |s.instances|
  {
    var p := s.instances[i];
    if !p.Rejecting? then s
    else if ok then s.(instances := s.instances[i := Idle], queue := s.queue + [p.a, p.b])
    else s.(instances := s.instances[i := Idle], lost := s.lost + [p.a, p.b])
  }

  function Read(s: State, t: Ticket): Reading {
    Reading(t, if t < |s.owner| && s.owner[t] in s.enqueuedAt then Some(s.enqueuedAt[s.owner[t]]) else None)
  }

  function ObserveStep(s: State, i: nat): State
    requires i < |s.instances|
  {
    var p := s.instances[i];
    if p.Accepted?
    then s.(instances := s.instances[i := Observed(p.a, p.b)], readings := s.readings + [Read(s, p.a), Read(s, p.b)])
    else s
  }

  function ForgetStep(s: State, i: nat): State
    requires i < |s.instances|
  {
    var p := s.instances[i];
    if p.Observed? && p.a < |s.owner| && p.b < |s.owner|
    then s.(instances := s.instances[i := Idle], forgotten := s.forgotten + {p.a, p.b},
            enqueuedAt := s.enqueuedAt - {s.owner[p.a], s.owner[p.b]})
    else s
  }

  function InstanceStep(s: State, i: nat, e: Event): State
    requires i < |s.instances|
  {
    match e
    case Pop(_) => PopStep(s, i)
    case CheckFirst(_, blocked) => CheckFirstStep(s, i, blocked)
    case CheckSecond(_, blocked) => CheckSecondStep(s, i, blocked)
    case Requeue(_, ok) => RequeueStep(s, i, ok)
    case Observe(_) => ObserveStep(s, i)
    case Forget(_) => ForgetStep(s, i)
    case _ => s
  }

  predicate ByInstance(e: Event) {
    e.Pop? || e.CheckFirst? || e.CheckSecond? || e.Requeue? || e.Observe? || e.Forget?
  }

  function Step(s: State, e: Event): State {
    if ByInstance(e)
    then if e.i < |s.instances| then InstanceStep(s, e.i, e) else s
    else HandlerStep(s, e)
  }

  function Run(instances: nat, es: seq<Event>): State {
    if es == [] then Init(instances) else Step(Run(instances, es[..|es| - 1]), es[|es| - 1])
  }

  lemma HandlersLeaveInstances(s: State, e: Event)
    ensures HandlerStep(s, e).instances == s.instances
  {
    hide Flight, Keep;
  }

  lemma RunSnoc(instances: nat, es: seq<Event>, e: Event)
    ensures Run(instances, es + [e]) == Step(Run(instances, es), e)
  {
    assert (es + [e])[..|es|] == es;
  }

  // ---- conservation ----------------------------------------------------------------------

  /** Every place a ticket can be, with multiplicity. */
  function Everywhere(s: State): multiset<Ticket> {
    multiset(s.queue) + Flight(s.instances) + Flat(s.matched) + multiset(s.removed) + multiset(s.lost)
  }

  ghost predicate EachTicketOnce(s: State) {
    forall t: Ticket :: Everywhere(s)[t] == if t < |s.owner| then 1 else 0
  }

  lemma {:induction false} FlightUpdate(ps: seq<Phase>, i: nat, p: Phase)
    requires i < |ps|
    ensures Held(ps[i]) <= Flight(ps)
    ensures Flight(ps[i := p]) == Flight(ps) - Held(ps[i]) + Held(p)
  {
    hide Held;
    var n := |ps| - 1;
    if i == n {
      assert ps[i := p][..n] == ps[..n];
    } else {
      assert ps[i := p][..n] == ps[..n][i := p];
      assert ps[i := p][n] == ps[n];
      FlightUpdate(ps[..n], i, p);
    }
  }

  lemma FlatSnoc(ms: seq<(Ticket, Ticket)>, a: Ticket, b: Ticket)
    ensures Flat(ms + [(a, b)]) == Flat(ms) + multiset{a, b}
  {
    assert (ms + [(a, b)])[..|ms|] == ms;
  }

  /** How often `t` occurs outside the hands of the other instances. */
  function Count(s: State, i: nat, t: Ticket): nat
    requires i < |s.instances|
  {
    multiset(s.queue)[t] + Held(s.instances[i])[t] + Flat(s.matched)[t] + multiset(s.lost)[t]
  }

  /** `s'` differs from `s` only in the queue, the matches, the lost and instance `i`, and
      tickets were only handed over between those. */
  ghost predicate HandsOver(s: State, s': State, i: nat)
    requires i < |s.instances|
  {
    && s'.owner == s.owner && s'.removed == s.removed && s'.ghosts == s.ghosts && s'.conns == s.conns
    && |s'.instances| == |s.instances|
    && s'.instances == s.instances[i := s'.instances[i]]
    && forall t: Ticket :: Count(s', i, t) == Count(s, i, t)
                           && Flat(s.matched)[t] <= Flat(s'.matched)[t]
                           && multiset(s.lost)[t] <= multiset(s'.lost)[t]
  }

  lemma PopHandsOver(s: State, i: nat)
    requires i < |s.instances|
    ensures HandsOver(s, PopStep(s, i), i)
  {
    hide Flat;
    if |s.queue| >= 2 { PopTwoSplits(s.queue); }
  }

  lemma CheckFirstHandsOver(s: State, i: nat, blocked: bool)
    requires i < |s.instances|
    ensures HandsOver(s, CheckFirstStep(s, i, blocked), i)
  {
    hide Flat;
  }

  lemma CheckSecondHandsOver(s: State, i: nat, blocked: bool)
    requires i < |s.instances|
    ensures HandsOver(s, CheckSecondStep(s, i, blocked), i)
  {
    hide Flat;
    var p, s' := s.instances[i], CheckSecondStep(s, i, blocked);
    if p.Checked? && !blocked {
      FlatSnoc(s.matched, p.a, p.b);
      var pair := multiset{p.a, p.b};
      assert Held(p) == pair && Held(s'.instances[i]) == multiset{} && Flat(s'.matched) == Flat(s.matched) + pair;
      forall t ensures Count(s', i, t) == Count(s, i, t) && Flat(s.matched)[t] <= Flat(s'.matched)[t] {
        assert Flat(s'.matched)[t] == Flat(s.matched)[t] + pair[t];
      }
    }
  }

  lemma RequeueHandsOver(s: State, i: nat, ok: bool)
    requires i < |s.instances|
    ensures HandsOver(s, RequeueStep(s, i, ok), i)
  {
    hide Flat;
  }

  lemma ForgetHandsOver(s: State, i: nat)
    requires i < |s.instances|
    ensures HandsOver(s, ForgetStep(s, i), i)
  {
    hide Flat;
  }

  lemma ObserveHandsOver(s: State, i: nat)
    requires i < |s.instances|
    ensures HandsOver(s, ObserveStep(s, i), i)
  {
    hide Flat, Read;
    var s' := ObserveStep(s, i);
    assert Held(s'.instances[i]) == Held(s.instances[i]);
    hide Held, ObserveStep;
  }

  lemma InstanceStepConserves(s: State, i: nat, e: Event)
    requires i < |s.instances|
    ensures HandsOver(s, InstanceStep(s, i, e), i)
    ensures Everywhere(InstanceStep(s, i, e)) == Everywhere(s)
  {
    hide Flight, Flat, Held, PopStep, CheckFirstStep, CheckSecondStep, RequeueStep, ObserveStep, ForgetStep;
    var s' := InstanceStep(s, i, e);
    assert HandsOver(s, s', i) by {
      match e
      case Pop(_) => PopHandsOver(s, i);
      case CheckFirst(_, blocked) => CheckFirstHandsOver(s, i, blocked);
      case CheckSecond(_, blocked) => CheckSecondHandsOver(s, i, blocked);
      case Requeue(_, ok) => RequeueHandsOver(s, i, ok);
      case Observe(_) => ObserveHandsOver(s, i);
      case Forget(_) => ForgetHandsOver(s, i);
      case _ =>
    }
    FlightUpdate(s.instances, i, s'.instances[i]);
    hide InstanceStep;
    forall t ensures Everywhere(s')[t] == Everywhere(s)[t] {
      HandedOver(s, s', i, t);
    }
  }

  lemma HandedOver(s: State, s': State, i: nat, t: Ticket)
    requires i < |s.instances| && HandsOver(s, s', i)
    requires Held(s.instances[i]) <= Flight(s.instances)
    requires Flight(s'.instances) == Flight(s.instances) - Held(s.instances[i]) + Held(s'.instances[i])
    ensures Everywhere(s')[t] == Everywhere(s)[t]
  {
    hide Flight, Flat, Held;
    assert Count(s', i, t) == Count(s, i, t);
    assert Held(s.instances[i])[t] <= Flight(s.instances)[t];
  }

  lemma HandlerStepConserves(s: State, e: Event)
    ensures var s' := HandlerStep(s, e);
      Everywhere(s') == Everywhere(s) + multiset(if |s'.owner| > |s.owner| then [|s.owner|] else [])
    ensures |s.owner| <= |HandlerStep(s, e).owner| <= |s.owner| + 1
  {
    hide Flight, Flat, Keep;
    if e.LRem? {
      LRemConserves(s, e.u);
    } else {
      hide Everywhere;
      if e.RPush? { RPushConserves(s, e.u); } else { SameEverywhere(s, HandlerStep(s, e)); }
    }
  }

  lemma SameEverywhere(s: State, s': State)
    requires s'.queue == s.queue && s'.instances == s.instances && s'.matched == s.matched
    requires s'.removed == s.removed && s'.lost == s.lost
    ensures Everywhere(s') == Everywhere(s)
  {
  }

  lemma RPushConserves(s: State, u: UserId)
    ensures var s' := HandlerStep(s, RPush(u));
      Everywhere(s') == Everywhere(s) + multiset(if |s'.owner| > |s.owner| then [|s.owner|] else [])
  {
    hide Flight, Flat, Keep;
  }

  lemma LRemConserves(s: State, u: UserId)
    ensures Everywhere(HandlerStep(s, LRem(u))) == Everywhere(s)
    ensures HandlerStep(s, LRem(u)).owner == s.owner
  {
    hide Flight, Flat, Keep;
    KeepSplits(s.queue, OwnedBy(s.owner, u));
  }

  lemma StepConserves(s: State, e: Event)
    requires EachTicketOnce(s)
    ensures EachTicketOnce(Step(s, e))
  {
    hide Flight, Flat, Everywhere, HandlerStep, InstanceStep;
    if ByInstance(e) {
      if e.i < |s.instances| {
        InstanceStepConserves(s, e.i, e);
      }
    } else {
      HandlerStepConserves(s, e);
    }
  }

  lemma {:induction false} NothingInFlightAtFirst(n: nat)
    ensures Flight(Init(n).instances) == multiset{}
  {
    if n > 0 {
      NothingInFlightAtFirst(n - 1);
      assert Init(n).instances[..n - 1] == Init(n - 1).instances;
    }
  }

  /** Conservation: in every interleaving, every ticket ever issued is in exactly one place
      and there once: the queue, one instance's popped pair, the matches, the removed or
      the lost. In particular no ticket is matched twice. */
  lemma {:induction false} TicketsAreConserved(instances: nat, es: seq<Event>)
    ensures EachTicketOnce(Run(instances, es))
  {
    if es == [] {
      NothingInFlightAtFirst(instances);
    } else {
      TicketsAreConserved(instances, es[..|es| - 1]);
      StepConserves(Run(instances, es[..|es| - 1]), es[|es| - 1]);
    }
  }

  // ---- ghost entries -----------------------------------------------------------------------

  ghost predicate Entered(s: State, t: Ticket) {
    t in s.queue || s.InFlight(t)
  }

  predicate Holding(conns: map<UserId, Conn>, u: UserId, t: Ticket) {
    u in conns && conns[u].Holds(t)
  }

  /** The ticket of its owner's present connection, one that has not run its LREM. */
  ghost predicate Live(s: State, t: Ticket) {
    t < |s.owner| && Holding(s.conns, s.owner[t], t)
  }

  ghost predicate GhostsExplained(s: State) {
    && EachTicketOnce(s)
    && (forall t: Ticket :: t in s.ghosts ==> t < |s.owner|)
    && (forall u: UserId, t: Ticket :: Holding(s.conns, u, t) ==> t < |s.owner| && s.owner[t] == u && t !in s.ghosts)
    && (forall t: Ticket :: Entered(s, t) ==> t in s.ghosts || Live(s, t))
  }

  lemma EnteredIsIssued(s: State, t: Ticket)
    requires EachTicketOnce(s) && Entered(s, t)
    ensures t < |s.owner|
  {
    hide Flight, Flat;
    assert t in s.queue ==> multiset(s.queue)[t] > 0;
    assert Everywhere(s)[t] > 0;
  }

  lemma InstanceStepEnters(s: State, i: nat, e: Event, t: Ticket)
    requires i < |s.instances| && Entered(InstanceStep(s, i, e), t)
    ensures Entered(s, t)
  {
    hide Flight, Flat, Held, InstanceStep;
    var s' := InstanceStep(s, i, e);
    InstanceStepConserves(s, i, e);
    assert Count(s', i, t) == Count(s, i, t) && Everywhere(s')[t] == Everywhere(s)[t];
    assert t in s'.queue ==> multiset(s'.queue)[t] > 0;
    assert multiset(s.queue)[t] > 0 ==> t in s.queue;
  }

  lemma InstanceStepExplained(s: State, i: nat, e: Event)
    requires i < |s.instances| && GhostsExplained(s)
    ensures GhostsExplained(InstanceStep(s, i, e))
    ensures InstanceStep(s, i, e).ghosts == s.ghosts
  {
    hide Flight, Flat, Held, InstanceStep, Count, Everywhere, Entered;
    var s' := InstanceStep(s, i, e);
    InstanceStepConserves(s, i, e);
    forall t: Ticket | Entered(s', t) ensures t in s'.ghosts || Live(s', t) {
      InstanceStepEnters(s, i, e, t);
    }
  }

  lemma LRemExplained(s: State, u: UserId)
    requires GhostsExplained(s)
    ensures GhostsExplained(HandlerStep(s, LRem(u)))
  {
    hide Flight, Flat, Keep;
    var s' := HandlerStep(s, LRem(u));
    StepConserves(s, LRem(u));
    KeepMembers(s.queue, Not(OwnedBy(s.owner, u)));
    forall t: Ticket | Entered(s', t) ensures t in s'.ghosts || Live(s', t) {
      EnteredIsIssued(s', t);
      assert Entered(s, t);
    }
    forall v: UserId, t: Ticket | Holding(s'.conns, v, t)
      ensures t < |s'.owner| && s'.owner[t] == v && t !in s'.ghosts
    {
      assert Holding(s.conns, v, t);
    }
  }

  lemma HandlerStepExplained(s: State, e: Event)
    requires GhostsExplained(s) && Step(s, e) == HandlerStep(s, e)
    ensures GhostsExplained(HandlerStep(s, e))
  {
    hide Flight, Flat, Keep, Everywhere;
    StepConserves(s, e);
    if e.LRem? {
      LRemExplained(s, e.u);
    } else {
      var s' := HandlerStep(s, e);
      forall t: Ticket | Entered(s', t) ensures t in s'.ghosts || Live(s', t) {
        EnteredIsIssued(s', t);
        assert Entered(s, t) || t == |s.owner|;
      }
      forall v: UserId, t: Ticket | Holding(s'.conns, v, t)
        ensures t < |s'.owner| && s'.owner[t] == v && t !in s'.ghosts
      {
        assert Holding(s.conns, v, t) || (t == |s.owner| && e.RPush? && e.u == v);
      }
    }
  }

  lemma {:induction false} RunsAreExplained(instances: nat, es: seq<Event>)
    ensures GhostsExplained(Run(instances, es))
  {
    hide HandlerStep, InstanceStep, Flight, Flat, Everywhere;
    TicketsAreConserved(instances, es);
    if es == [] {
      NothingInFlightAtFirst(instances);
    } else {
      var s, e := Run(instances, es[..|es| - 1]), es[|es| - 1];
      RunsAreExplained(instances, es[..|es| - 1]);
      if ByInstance(e) {
        if e.i < |s.instances| { InstanceStepExplained(s, e.i, e); }
      } else {
        HandlerStepExplained(s, e);
      }
    }
  }

  /** In every interleaving, a queued or popped entry belongs to its owner's present
      connection unless it was in flight when that connection ran its LREM. */
  lemma StaleIffGhost(instances: nat, es: seq<Event>, t: Ticket)
    requires Entered(Run(instances, es), t)
    ensures t < |Run(instances, es).owner|
    ensures Live(Run(instances, es), t) <==> t !in Run(instances, es).ghosts
  {
    hide Run;
    RunsAreExplained(instances, es);
    EnteredIsIssued(Run(instances, es), t);
  }

  /** The step that makes a ghost: a disconnect's LREM while the user's entry is popped. */
  ghost predicate Disturbs(s: State, e: Event) {
    && e.LRem? && (s.ConnOf(e.u).Closing? || s.ConnOf(e.u).Unqueued?)
    && exists t: Ticket :: s.InFlight(t) && t < |s.owner| && s.owner[t] == e.u
  }

  ghost predicate Undisturbed(instances: nat, es: seq<Event>) {
    es == [] || (!Disturbs(Run(instances, es[..|es| - 1]), es[|es| - 1]) && Undisturbed(instances, es[..|es| - 1]))
  }

  ghost predicate AllLive(s: State) {
    forall t: Ticket :: Entered(s, t) ==> Live(s, t)
  }

  ghost predicate AlwaysAllLive(instances: nat, es: seq<Event>) {
    AllLive(Run(instances, es)) && (es == [] || AlwaysAllLive(instances, es[..|es| - 1]))
  }

  lemma StepGhosts(s: State, e: Event)
    ensures !Disturbs(s, e) ==> Step(s, e).ghosts == s.ghosts
    ensures Disturbs(s, e) ==> exists t: Ticket :: Step(s, e).InFlight(t) && t in Step(s, e).ghosts
  {
    hide Flight, Flat, Keep, Held;
    if Disturbs(s, e) {
      var t: Ticket :| s.InFlight(t) && t < |s.owner| && s.owner[t] == e.u;
      assert Step(s, e).InFlight(t) && t in Step(s, e).ghosts;
    }
  }

  lemma {:induction false} UndisturbedHasNoGhosts(instances: nat, es: seq<Event>)
    requires Undisturbed(instances, es)
    ensures Run(instances, es).ghosts == {}
  {
    if es != [] {
      UndisturbedHasNoGhosts(instances, es[..|es| - 1]);
      StepGhosts(Run(instances, es[..|es| - 1]), es[|es| - 1]);
    }
  }

  /** Exactly when nothing stale is ever queued or popped: no user's LREM runs while the
      user's entry is between a pop and its re-queue or commit. */
  lemma {:induction false} AllLiveIffUndisturbed(instances: nat, es: seq<Event>)
    ensures AlwaysAllLive(instances, es) <==> Undisturbed(instances, es)
  {
    hide Step;
    var s := Run(instances, es);
    RunsAreExplained(instances, es);
    if es != [] {
      var init, e := es[..|es| - 1], es[|es| - 1];
      AllLiveIffUndisturbed(instances, init);
      StepGhosts(Run(instances, init), e);
      if Disturbs(Run(instances, init), e) {
        var t: Ticket :| s.InFlight(t) && t in s.ghosts;
        assert Entered(s, t) && !Live(s, t);
      }
    }
    if Undisturbed(instances, es) {
      UndisturbedHasNoGhosts(instances, es);
    }
  }

  /** No two queued entries belong to one user. */
  ghost predicate QueueHasNoUserTwice(s: State) {
    forall i, j :: 0 <= i < j < |s.queue| ==>
      && s.queue[i] < |s.owner| && s.queue[j] < |s.owner|
      && s.owner[s.queue[i]] != s.owner[s.queue[j]]
  }

  ghost predicate NobodyMatchedWithSelf(s: State) {
    forall k :: 0 <= k < |s.matched| ==>
      && s.matched[k].0 < |s.owner| && s.matched[k].1 < |s.owner|
      && s.owner[s.matched[k].0] != s.owner[s.matched[k].1]
  }

  lemma {:induction false} HeldInFlight(ps: seq<Phase>, i: nat)
    requires i < |ps|
    ensures Held(ps[i]) <= Flight(ps)
  {
    FlightUpdate(ps, i, ps[i]);
  }

  lemma PoppedPairIsTwoUsers(s: State, i: nat)
    requires i < |s.instances| && s.instances[i].Checked?
    requires EachTicketOnce(s) && AllLive(s)
    requires forall u: UserId, t: Ticket :: Holding(s.conns, u, t) ==> t < |s.owner| && s.owner[t] == u
    ensures var p := s.instances[i]; p.a < |s.owner| && p.b < |s.owner| && s.owner[p.a] != s.owner[p.b]
  {
    hide Flight, Flat;
    var p := s.instances[i];
    HeldInFlight(s.instances, i);
    assert Held(p)[p.a] <= Flight(s.instances)[p.a] <= Everywhere(s)[p.a] <= 1;
    assert Held(p)[p.b] <= Flight(s.instances)[p.b];
    assert s.InFlight(p.a) && s.InFlight(p.b);
    assert Entered(s, p.a) && Entered(s, p.b);
  }

  lemma StepMatchesTwoUsers(s: State, e: Event)
    requires GhostsExplained(s) && AllLive(s) && NobodyMatchedWithSelf(s)
    ensures NobodyMatchedWithSelf(Step(s, e))
  {
    hide Flight, Flat, Keep, Held;
    if e.CheckSecond? && e.i < |s.instances| && s.instances[e.i].Checked? {
      PoppedPairIsTwoUsers(s, e.i);
    }
  }

  lemma QueueIsOrderly(s: State)
    requires GhostsExplained(s) && AllLive(s)
    ensures QueueHasNoUserTwice(s)
  {
    hide Flight, Flat, Everywhere, GhostsExplained, AllLive;
    if !QueueHasNoUserTwice(s) {
      var i: nat, j: nat :| i < j < |s.queue| && !(
        s.queue[i] < |s.owner| && s.queue[j] < |s.owner| && s.owner[s.queue[i]] != s.owner[s.queue[j]]);
      QueuedUsersDiffer(s, i, j);
      assert false;
    }
  }

  lemma QueuedUsersDiffer(s: State, i: nat, j: nat)
    requires GhostsExplained(s) && AllLive(s) && i < j < |s.queue|
    ensures s.queue[i] < |s.owner| && s.queue[j] < |s.owner| && s.owner[s.queue[i]] != s.owner[s.queue[j]]
  {
    hide Flight, Flat, Everywhere;
    var t, t' := s.queue[i], s.queue[j];
    QueueTicketsDiffer(s, i, j);
    assert Entered(s, t) && Entered(s, t');
    assert Live(s, t) && Live(s, t');
  }

  /** If no user's LREM runs while the user's entry is popped, the queue holds only users of
      present connections, none of them twice, and nobody is matched with themselves. */
  lemma {:induction false} UndisturbedRunsAreOrderly(instances: nat, es: seq<Event>)
    requires Undisturbed(instances, es)
    ensures var s := Run(instances, es); AllLive(s) && QueueHasNoUserTwice(s) && NobodyMatchedWithSelf(s)
  {
    hide Step, Everywhere;
    var s := Run(instances, es);
    RunsAreExplained(instances, es);
    UndisturbedHasNoGhosts(instances, es);
    QueueIsOrderly(s);
    if es != [] {
      UndisturbedRunsAreOrderly(instances, es[..|es| - 1]);
      RunsAreExplained(instances, es[..|es| - 1]);
      StepMatchesTwoUsers(Run(instances, es[..|es| - 1]), es[|es| - 1]);
      assert s == Step(Run(instances, es[..|es| - 1]), es[|es| - 1]);
    } else {
      assert s == Init(instances);
    }
  }

  lemma QueueTicketsDiffer(s: State, i: nat, j: nat)
    requires EachTicketOnce(s) && i < j < |s.queue|
    ensures s.queue[i] != s.queue[j]
  {
    hide Flight, Flat;
    forall t ensures multiset(s.queue)[t] <= 1 {
      assert multiset(s.queue)[t] <= Everywhere(s)[t];
    }
    NoDuplicatesAt(s.queue, i, j);
  }

  // ---- what interleaving can do: two runs of a single instance ------------------------------

  lemma Begin() returns (es: seq<Event>, s: State)
    ensures es == [] && Run(1, es) == s == State([], [], map[], [Idle], map[], [], [], [], {}, [], {})
  {
    es := [];
    s := Init(1);
    assert s.instances == [Idle];
  }

  lemma Then(es: seq<Event>, s: State, e: Event) returns (es': seq<Event>, s': State)
    requires Run(1, es) == s
    ensures es' == es + [e] && Run(1, es') == s' == Step(s, e)
  {
    es' := es + [e];
    s' := Step(s, e);
    RunSnoc(1, es, e);
  }

  lemma FirstPushed(a: UserId) returns (es: seq<Event>, s: State)
    ensures es == [Register(a), RPush(a)] && Run(1, es) == s
    ensures s == State([0], [a], map[], [Idle], map[a := Pushed(0)], [], [], [], {}, [], {})
  {
    hide Run, Keep, Flight;
    es, s := Begin();
    es, s := Then(es, s, Register(a));
    es, s := Then(es, s, RPush(a));
  }

  lemma BothPushed(a: UserId, b: UserId) returns (es: seq<Event>, s: State)
    requires a != b
    ensures Run(1, es) == s
    ensures s.queue == [0, 1] && s.owner == [a, b] && s.instances == [Idle] && s.matched == []
    ensures s.ConnOf(a) == Pushed(0) && s.enqueuedAt == map[]
    ensures s.readings == [] && s.forgotten == {}
    ensures es == [Register(a), RPush(a), Register(b), RPush(b)]
  {
    hide Run, Keep, Flight;
    es, s := FirstPushed(a);
    es, s := Then(es, s, Register(b));
    es, s := Then(es, s, RPush(b));
  }

  lemma BothPopped(a: UserId, b: UserId) returns (es: seq<Event>, s: State)
    requires a != b
    ensures Run(1, es) == s
    ensures s.queue == [] && s.owner == [a, b] && s.instances == [Popped(0, 1)] && s.matched == []
    ensures s.ConnOf(a) == Waiting(0) && s.forgotten == {}
    ensures es == [Register(a), RPush(a), Register(b), RPush(b), HSet(a, 1), Pop(0)]
  {
    hide Run, Keep, Flight;
    es, s := BothPushed(a, b);
    es, s := Then(es, s, HSet(a, 1));
    es, s := Then(es, s, Pop(0));
  }

  lemma LeftWhilePopped(a: UserId, b: UserId) returns (es: seq<Event>, s: State)
    requires a != b
    ensures Run(1, es) == s
    ensures s.queue == [] && s.owner == [a, b] && s.instances == [Popped(0, 1)] && s.matched == []
    ensures s.ConnOf(a) == Offline
  {
    hide Run, Flight;
    es, s := BothPopped(a, b);
    es, s := Then(es, s, Close(a));
    assert s.ConnOf(a) == Closing(0) && s.queue == [] && Keep(s.queue, Not(OwnedBy(s.owner, a))) == [];
    es, s := Then(es, s, LRem(a));
    assert s.queue == [] && s.instances == [Popped(0, 1)] && s.ConnOf(a) == Dequeued(Some(0));
    es, s := Then(es, s, HDel(a));
  }

  /** `a` leaves while popped; the pair is rejected, and `a`'s entry comes back. */
  lemma GhostComesBack(a: UserId, b: UserId) returns (es: seq<Event>, s: State)
    requires a != b
    ensures Run(1, es) == s
    ensures s.queue == [0, 1] && s.owner == [a, b] && s.instances == [Idle] && s.matched == []
    ensures s.ConnOf(a) == Offline
  {
    hide Run, Flight;
    es, s := LeftWhilePopped(a, b);
    es, s := Then(es, s, CheckFirst(0, true));
    es, s := Then(es, s, Requeue(0, true));
  }

  lemma GhostBeforeNewEntry(a: UserId, b: UserId) returns (es: seq<Event>, s: State)
    requires a != b
    ensures Run(1, es) == s
    ensures s.queue == [2, 0, 1] && s.instances == [Idle] && s.owner == [a, b, a] && s.matched == []
  {
    hide Run, Flight, Keep;
    es, s := GhostComesBack(a, b);
    es, s := Then(es, s, Register(a));
    es, s := Then(es, s, RPush(a));
    es, s := Then(es, s, Pop(0));
    es, s := Then(es, s, CheckFirst(0, true));
    es, s := Then(es, s, Requeue(0, true));
  }

  /** So a user who leaves and returns can be matched with themselves. */
  lemma ReturningUserMatchedWithSelf(a: UserId, b: UserId) returns (es: seq<Event>)
    requires a != b
    ensures var s := Run(1, es); s.matched == [(2, 0)] && s.owner == [a, b, a]
  {
    hide Run, Flight, Keep;
    ghost var s: State;
    es, s := GhostBeforeNewEntry(a, b);
    es, s := Then(es, s, Pop(0));
    es, s := Then(es, s, CheckFirst(0, false));
    es, s := Then(es, s, CheckSecond(0, false));
  }
}
