/** What becomes of a ticket, read off the commands alone: which tickets are issued, matched, lost
    and removed, and what the lookups of an instance have said about the pair in its hands. */
module QueueFates {
  import opened Ids
  import opened Sequences
  import opened QueueProtocol

  predicate Holds(p: Phase, t: Ticket) {
    (p.Popped? || p.Checked? || p.Rejecting?) && (t == p.a || t == p.b)
  }

  /** The command that settles `t`: the second lookup of its pair says no, the re-queue of its pair
      fails, or it is queued when its owner's LREM runs. */
  predicate Matches(s: State, e: Event, t: Ticket) {
    e.CheckSecond? && !e.blocked && e.i < |s.instances| && s.instances[e.i].Checked? && Holds(s.instances[e.i], t)
  }

  predicate Loses(s: State, e: Event, t: Ticket) {
    e.Requeue? && !e.ok && e.i < |s.instances| && s.instances[e.i].Rejecting? && Holds(s.instances[e.i], t)
  }

  predicate Removes(s: State, e: Event, t: Ticket) {
    e.LRem? && (s.ConnOf(e.u).Closing? || s.ConnOf(e.u).Unqueued?) && t in s.queue && t < |s.owner| && s.owner[t] == e.u
  }

  ghost predicate EverMatched(instances: nat, es: seq<Event>, t: Ticket) {
    es != [] && (Matches(Run(instances, es[..|es| - 1]), es[|es| - 1], t) || EverMatched(instances, es[..|es| - 1], t))
  }

  ghost predicate EverLost(instances: nat, es: seq<Event>, t: Ticket) {
    es != [] && (Loses(Run(instances, es[..|es| - 1]), es[|es| - 1], t) || EverLost(instances, es[..|es| - 1], t))
  }

  ghost predicate EverRemoved(instances: nat, es: seq<Event>, t: Ticket) {
    es != [] && (Removes(Run(instances, es[..|es| - 1]), es[|es| - 1], t) || EverRemoved(instances, es[..|es| - 1], t))
  }

  /** The users in the order of their RPUSHes. */
  function Pushed(instances: nat, es: seq<Event>): seq<UserId> {
    if es == [] then [] else
      var init, s, e := Pushed(instances, es[..|es| - 1]), Run(instances, es[..|es| - 1]), es[|es| - 1];
      if e.RPush? && s.ConnOf(e.u).Registered? then init + [e.u] else init
  }

  lemma StepMatched(s: State, e: Event, t: Ticket)
    ensures t in Flat(Step(s, e).matched) <==> t in Flat(s.matched) || Matches(s, e, t)
  {
    hide Flight, Keep, Flat;
    if e.CheckSecond? && e.i < |s.instances| && s.instances[e.i].Checked? && !e.blocked {
      FlatSnoc(s.matched, s.instances[e.i].a, s.instances[e.i].b);
    }
  }

  lemma StepLost(s: State, e: Event, t: Ticket)
    ensures t in Step(s, e).lost <==> t in s.lost || Loses(s, e, t)
  {
    hide Flight, Keep;
  }

  lemma StepRemoved(s: State, e: Event, t: Ticket)
    ensures t in Step(s, e).removed <==> t in s.removed || Removes(s, e, t)
  {
    hide Flight, Keep;
    if e.LRem? { KeepMembers(s.queue, OwnedBy(s.owner, e.u)); }
  }

  lemma StepOwner(s: State, e: Event)
    ensures Step(s, e).owner == if e.RPush? && s.ConnOf(e.u).Registered? then s.owner + [e.u] else s.owner
  {
    hide Flight, Keep;
  }

  /** In every interleaving: a ticket is issued by every RPUSH of a registered user and by nothing
      else; it is matched exactly if both lookups of its pair said no, lost exactly if the re-queue
      of its pair failed, and removed exactly if it was queued when its owner left. */
  lemma {:induction false} FateOfTicket(instances: nat, es: seq<Event>, t: Ticket)
    ensures var s := Run(instances, es);
      && s.owner == Pushed(instances, es)
      && (t in Flat(s.matched) <==> EverMatched(instances, es, t))
      && (t in s.lost <==> EverLost(instances, es, t))
      && (t in s.removed <==> EverRemoved(instances, es, t))
  {
    hide Step, Matches, Loses, Removes;
    if es != [] {
      var s, e := Run(instances, es[..|es| - 1]), es[|es| - 1];
      FateOfTicket(instances, es[..|es| - 1], t);
      StepMatched(s, e, t);
      StepLost(s, e, t);
      StepRemoved(s, e, t);
      StepOwner(s, e);
    }
  }

  // ---- what the lookups said ---------------------------------------------------------------------------

  predicate AsksFirst(s: State, e: Event, i: nat, blocked: bool) {
    e == CheckFirst(i, blocked) && i < |s.instances| && s.instances[i].Popped?
  }

  predicate AsksSecond(s: State, e: Event, i: nat, blocked: bool) {
    e == CheckSecond(i, blocked) && i < |s.instances| && s.instances[i].Checked?
  }

  /** A lookup of instance `i` said yes about the pair in its hands. */
  ghost predicate SaidYes(instances: nat, es: seq<Event>, i: nat) {
    es != [] &&
      var s, e := Run(instances, es[..|es| - 1]), es[|es| - 1];
      || AsksFirst(s, e, i, true) || AsksSecond(s, e, i, true)
      || (SaidYes(instances, es[..|es| - 1], i) && !(e.Requeue? && e.i == i))
  }

  /** The first lookup said no, and the second has not been made. */
  ghost predicate SaidNo(instances: nat, es: seq<Event>, i: nat) {
    es != [] &&
      var s, e := Run(instances, es[..|es| - 1]), es[|es| - 1];
      AsksFirst(s, e, i, false) || (SaidNo(instances, es[..|es| - 1], i) && !(e.CheckSecond? && e.i == i))
  }

  lemma StepPhase(s: State, e: Event, i: nat)
    requires i < |s.instances|
    ensures |Step(s, e).instances| == |s.instances|
    ensures Step(s, e).instances[i].Rejecting? <==>
      AsksFirst(s, e, i, true) || AsksSecond(s, e, i, true) || (s.instances[i].Rejecting? && !(e.Requeue? && e.i == i))
    ensures Step(s, e).instances[i].Checked? <==>
      AsksFirst(s, e, i, false) || (s.instances[i].Checked? && !(e.CheckSecond? && e.i == i))
  {
    hide Flight, Keep, HandlerStep;
    if !ByInstance(e) { HandlersLeaveInstances(s, e); }
  }

  /** A pair is re-queued exactly if one of its two lookups said yes, and can be matched only after
      the first said no: in every interleaving the phase of an instance is what its lookups said. */
  lemma {:induction false} PhaseIsWhatLookupsSaid(instances: nat, es: seq<Event>, i: nat)
    requires i < instances
    ensures var s := Run(instances, es);
      && |s.instances| == instances
      && (s.instances[i].Rejecting? <==> SaidYes(instances, es, i))
      && (s.instances[i].Checked? <==> SaidNo(instances, es, i))
  {
    hide Step, AsksFirst, AsksSecond;
    if es != [] {
      PhaseIsWhatLookupsSaid(instances, es[..|es| - 1], i);
      StepPhase(Run(instances, es[..|es| - 1]), es[|es| - 1], i);
    }
  }

  // ---- steps that do happen ------------------------------------------------------------------------------

  /** An idle instance that pops takes the two oldest entries, and a pair that is turned away goes
      back to the tail, in its order. */
  lemma PopAndRequeue(s: State, i: nat)
    requires i < |s.instances|
    ensures s.instances[i].Idle? && |s.queue| >= 2 ==>
      var t := Step(s, Pop(i));
      t.instances == s.instances[i := Popped(s.queue[0], s.queue[1])] && s.queue == s.queue[..2] + t.queue
    ensures s.instances[i].Rejecting? ==>
      var t := Step(s, Requeue(i, true));
      t.instances[i].Idle? && t.queue == s.queue + [s.instances[i].a, s.instances[i].b]
  {
    hide Flight;
  }

  lemma Extend(instances: nat, es: seq<Event>, e: Event)
    ensures Run(instances, es + [e]) == Step(Run(instances, es), e)
  {
    hide Step;
    RunSnoc(instances, es, e);
  }

  /** After any run, a user without a connection who joins is at the tail of the queue with its
      time, under a ticket of its own. */
  lemma JoiningQueues(instances: nat, es: seq<Event>, u: UserId, now: int)
    requires Run(instances, es).ConnOf(u).Offline?
    ensures var s, t := Run(instances, es), Run(instances, es + [Register(u)] + [RPush(u)] + [HSet(u, now)]);
      && t.queue == s.queue + [|s.owner|] && t.owner == s.owner + [u]
      && t.ConnOf(u) == Waiting(|s.owner|) && t.enqueuedAt == s.enqueuedAt[u := Stamp(now, |s.owner|)]
      && t.instances == s.instances
  {
    hide Run;
    Extend(instances, es, Register(u));
    Extend(instances, es + [Register(u)], RPush(u));
    Extend(instances, es + [Register(u)] + [RPush(u)], HSet(u, now));
  }

  /** And after any run, a connected user who is not in the middle of its Add or its cleanup, and
      who leaves, has no connection, no entry in the queue and no wait time; nobody else loses any. */
  lemma LeavingCleansUp(instances: nat, es: seq<Event>, u: UserId)
    requires Run(instances, es).ConnOf(u).Waiting? || Run(instances, es).ConnOf(u).Registered?
    ensures var s := Run(instances, es);
      var out := if s.ConnOf(u).Waiting? then Close(u) else InitFails(u);
      var t := Run(instances, es + [out] + [LRem(u)] + [HDel(u)]);
      && t.ConnOf(u).Offline? && t.enqueuedAt == s.enqueuedAt - {u}
      && (forall k: Ticket :: k in t.queue <==> k in s.queue && !(k < |s.owner| && s.owner[k] == u))
      && (forall v: UserId :: v != u ==> t.ConnOf(v) == s.ConnOf(v))
  {
    hide Run, Keep, Flight;
    var s := Run(instances, es);
    var out := if s.ConnOf(u).Waiting? then Close(u) else InitFails(u);
    Extend(instances, es, out);
    Extend(instances, es + [out], LRem(u));
    Extend(instances, es + [out] + [LRem(u)], HDel(u));
    KeepMembers(s.queue, Not(OwnedBy(s.owner, u)));
  }
}
