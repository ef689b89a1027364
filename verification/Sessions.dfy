/** Session keys at single-command granularity, on top of QueueProtocol.dfy: an instance that has
    deleted the wait times of a match still has two SETs to do before it pops again, and a
    connection that has deleted its wait time still has to DEL its session. */
module Sessions {
  import opened Ids
  import opened Sequences
  import Q = QueueProtocol

  type Ticket = Q.Ticket

  /** The SETs of one match that are still to come. */
  datatype Settling = Settling(a: Ticket, b: Ticket, firstSet: bool)

  datatype State = State(
    base: Q.State,
    settling: map<nat, Settling>,     // by instance
    leaving: set<UserId>,             // DEL of the session pending
    sessions: map<UserId, UserId>)

  datatype Event =
    | Base(e: Q.Event)
    | SetFirst(i: nat)
    | SetSecond(i: nat)
    | DropSession(u: UserId)

  function Init(instances: nat): State {
    State(Q.Init(instances), map[], {}, map[])
  }

  /** An instance between the SETs does nothing else, and neither does a connection before its DEL. */
  predicate Enabled(s: State, e: Q.Event) {
    && (Q.ByInstance(e) ==> e.i !in s.settling)
    && (e.Register? ==> e.u !in s.leaving)
  }

  predicate Forgets(s: State, e: Q.Event) {
    && e.Forget? && e.i < |s.base.instances| && s.base.instances[e.i].Observed?
    && s.base.instances[e.i].a < |s.base.owner| && s.base.instances[e.i].b < |s.base.owner|
  }

  function BaseStep(s: State, e: Q.Event): State {
    if !Enabled(s, e) then s
    else
      State(Q.Step(s.base, e),
            if Forgets(s, e)
            then s.settling[e.i := Settling(s.base.instances[e.i].a, s.base.instances[e.i].b, false)]
            else s.settling,
            if e.HDel? && s.base.ConnOf(e.u).Dequeued? then s.leaving + {e.u} else s.leaving,
            s.sessions)
  }

  predicate Owned(s: State, p: Settling) {
    p.a < |s.base.owner| && p.b < |s.base.owner|
  }

  function Step(s: State, e: Event): State {
    match e
    case Base(q) => BaseStep(s, q)
    case SetFirst(i) =>
      if i in s.settling && !s.settling[i].firstSet && Owned(s, s.settling[i])
      then
        var p := s.settling[i];
        s.(settling := s.settling[i := p.(firstSet := true)], sessions := s.sessions[s.base.owner[p.a] := s.base.owner[p.b]])
      else s
    case SetSecond(i) =>
      if i in s.settling && s.settling[i].firstSet && Owned(s, s.settling[i])
      then
        var p := s.settling[i];
        s.(settling := s.settling - {i}, sessions := s.sessions[s.base.owner[p.b] := s.base.owner[p.a]])
      else s
    case DropSession(u) =>
      if u in s.leaving then s.(leaving := s.leaving - {u}, sessions := s.sessions - {u}) else s
  }

  function Run(instances: nat, es: seq<Event>): State {
    if es == [] then Init(instances) else Step(Run(instances, es[..|es| - 1]), es[|es| - 1])
  }

  // ---- every run is a run of the queue protocol ----------------------------------------------------

  function BaseOf(instances: nat, es: seq<Event>): seq<Q.Event> {
    if es == [] then [] else
      var init, e := BaseOf(instances, es[..|es| - 1]), es[|es| - 1];
      if e.Base? && Enabled(Run(instances, es[..|es| - 1]), e.e) then init + [e.e] else init
  }

  lemma {:induction false} BaseRun(instances: nat, es: seq<Event>)
    ensures Run(instances, es).base == Q.Run(instances, BaseOf(instances, es))
  {
    hide Q.Step, Enabled;
    if es != [] {
      var init, e := es[..|es| - 1], es[|es| - 1];
      BaseRun(instances, init);
      if e.Base? && Enabled(Run(instances, init), e.e) { Q.RunSnoc(instances, BaseOf(instances, init), e.e); }
    }
  }

  // ---- sessions of departed users --------------------------------------------------------------------

  /** `u` has no connection, and the cleanup of its last one is over. */
  predicate Gone(s: State, u: UserId) {
    s.base.ConnOf(u).Offline? && u !in s.leaving
  }

  predicate SetsFor(s: State, e: Event, u: UserId) {
    || (e.SetFirst? && e.i in s.settling && !s.settling[e.i].firstSet && Owned(s, s.settling[e.i])
        && s.base.owner[s.settling[e.i].a] == u)
    || (e.SetSecond? && e.i in s.settling && s.settling[e.i].firstSet && Owned(s, s.settling[e.i])
        && s.base.owner[s.settling[e.i].b] == u)
  }

  /** A SET for `u` came after the last connection of `u` had cleaned up. */
  ghost predicate LeftBehind(instances: nat, es: seq<Event>, u: UserId) {
    es != [] && Gone(Run(instances, es), u)
    && (SetsFor(Run(instances, es[..|es| - 1]), es[|es| - 1], u) || LeftBehind(instances, es[..|es| - 1], u))
  }

  lemma StepGone(s: State, e: Event, u: UserId)
    requires Gone(Step(s, e), u)
    ensures Gone(s, u) || (e == DropSession(u) && u in s.leaving)
  {
    hide Q.Flight, Keep;
  }

  lemma StepSessions(s: State, e: Event, u: UserId)
    ensures u in Step(s, e).sessions <==>
      SetsFor(s, e, u) || (u in s.sessions && !(e == DropSession(u) && u in s.leaving))
  {
    hide Q.Step;
  }

  /** In every run a user who is gone has a session key exactly if a match set it after the cleanup. */
  lemma {:induction false} SessionOfGoneIffLeftBehind(instances: nat, es: seq<Event>, u: UserId)
    ensures Gone(Run(instances, es), u) && u in Run(instances, es).sessions <==> LeftBehind(instances, es, u)
  {
    hide Step, Gone, SetsFor;
    if es != [] {
      var s, e := Run(instances, es[..|es| - 1]), es[|es| - 1];
      SessionOfGoneIffLeftBehind(instances, es[..|es| - 1], u);
      StepSessions(s, e, u);
      if Gone(Run(instances, es), u) { StepGone(s, e, u); }
      GoneNow(s, e, u);
    }
  }

  lemma GoneNow(s: State, e: Event, u: UserId)
    ensures e == DropSession(u) && Gone(s, u) ==> u !in s.leaving
    ensures e == DropSession(u) ==> !SetsFor(s, e, u)
  {
  }

  /** After any run, an instance that goes on to its two SETs makes each side's session name the
      other, and a connection that goes on to its DEL has none. Nobody else's session changes. */
  lemma BothSidesAreSet(instances: nat, es: seq<Event>, i: nat)
    requires var s := Run(instances, es); i in s.settling && !s.settling[i].firstSet && Owned(s, s.settling[i])
    ensures var s, t := Run(instances, es), Run(instances, es + [SetFirst(i)] + [SetSecond(i)]);
      var a, b := s.base.owner[s.settling[i].a], s.base.owner[s.settling[i].b];
      && t.sessions == s.sessions[a := b][b := a] && t.settling == s.settling - {i}
      && t.base == s.base && t.leaving == s.leaving
    ensures forall u: UserId :: u in Run(instances, es).leaving ==>
      Run(instances, es + [DropSession(u)]).sessions == Run(instances, es).sessions - {u}
  {
    hide Run, Q.Step;
    Extend(instances, es, SetFirst(i));
    Extend(instances, es + [SetFirst(i)], SetSecond(i));
    forall u: UserId { Extend(instances, es, DropSession(u)); }
  }

  lemma Extend(instances: nat, es: seq<Event>, e: Event)
    ensures Run(instances, es + [e]) == Step(Run(instances, es), e)
  {
    hide Step;
    assert (es + [e])[..|es|] == es;
  }

  // ---- runs that leave none behind -------------------------------------------------------------------

  /** A match sets the session of a user who is gone. */
  ghost predicate SetsGone(s: State, e: Event) {
    exists u: UserId :: Gone(s, u) && SetsFor(s, e, u)
  }

  ghost predicate NoneSetsGone(instances: nat, es: seq<Event>) {
    es == [] || (!SetsGone(Run(instances, es[..|es| - 1]), es[|es| - 1]) && NoneSetsGone(instances, es[..|es| - 1]))
  }

  ghost predicate GoneHaveNone(s: State) {
    forall u: UserId :: Gone(s, u) ==> u !in s.sessions
  }

  ghost predicate AlwaysGoneHaveNone(instances: nat, es: seq<Event>) {
    GoneHaveNone(Run(instances, es)) && (es == [] || AlwaysGoneHaveNone(instances, es[..|es| - 1]))
  }

  lemma StepGoneHaveNone(s: State, e: Event)
    requires GoneHaveNone(s)
    ensures GoneHaveNone(Step(s, e)) <==> !SetsGone(s, e)
  {
    hide Step, Gone, SetsFor;
    forall u: UserId | Gone(Step(s, e), u) ensures u !in Step(s, e).sessions || (Gone(s, u) && SetsFor(s, e, u)) {
      StepSessions(s, e, u);
      StepGone(s, e, u);
      GoneNow(s, e, u);
    }
    if u: UserId :| Gone(s, u) && SetsFor(s, e, u) {
      StepSessions(s, e, u);
      SetKeepsGone(s, e, u);
    }
  }

  lemma SetKeepsGone(s: State, e: Event, u: UserId)
    requires Gone(s, u) && SetsFor(s, e, u)
    ensures Gone(Step(s, e), u)
  {
  }

  /** Users who are gone never have a session key, if and only if no match ever sets one for them. */
  lemma {:induction false} GoneHaveNoneIff(instances: nat, es: seq<Event>)
    ensures AlwaysGoneHaveNone(instances, es) <==> NoneSetsGone(instances, es)
  {
    hide Step, GoneHaveNone, SetsGone;
    if es == [] {
      assert GoneHaveNone(Run(instances, es)) by { NoSessionsAtFirst(instances); }
    } else {
      GoneHaveNoneIff(instances, es[..|es| - 1]);
      if NoneSetsGone(instances, es[..|es| - 1]) { StepGoneHaveNone(Run(instances, es[..|es| - 1]), es[|es| - 1]); }
    }
  }

  lemma NoSessionsAtFirst(instances: nat)
    ensures GoneHaveNone(Run(instances, []))
  {
  }

  // ---- what a user has to wait for --------------------------------------------------------------------

  /** `t` is one side of a match whose SET for it is still to come. */
  predicate Committing(s: State, t: Ticket) {
    || (exists i :: 0 <= i < |s.base.instances| && Accepts(s.base.instances[i], t))
    || (exists i :: i in s.settling && Awaits(s.settling[i], t))
  }

  predicate Accepts(p: Q.Phase, t: Ticket) {
    (p.Accepted? || p.Observed?) && (t == p.a || t == p.b)
  }

  predicate Awaits(p: Settling, t: Ticket) {
    t == p.b || (t == p.a && !p.firstSet)
  }

  /** The end of a cleanup while a match of the user is being committed. */
  ghost predicate DropsCommitting(s: State, e: Event) {
    && e.DropSession? && e.u in s.leaving
    && exists t: Ticket :: t < |s.base.owner| && s.base.owner[t] == e.u && Committing(s, t)
  }

  ghost predicate NoneDropsCommitting(instances: nat, es: seq<Event>) {
    es == [] || (!DropsCommitting(Run(instances, es[..|es| - 1]), es[|es| - 1]) && NoneDropsCommitting(instances, es[..|es| - 1]))
  }

  /** Whoever is being matched is not yet gone. */
  ghost predicate MatchedAreThere(s: State) {
    forall t: Ticket :: Committing(s, t) ==> t < |s.base.owner| && !Gone(s, s.base.owner[t])
  }

  /** A ticket that starts to be committed was popped before, and popped ones are live. */
  lemma CommittedWasPopped(s: State, e: Event, t: Ticket)
    requires Committing(Step(s, e), t)
    ensures Committing(s, t) || s.base.InFlight(t)
  {
    if e.Base? {
      var q := e.e;
      if i :| 0 <= i < |Step(s, e).base.instances| && Accepts(Step(s, e).base.instances[i], t) {
        AcceptedBefore(s, q, i, t);
      } else {
        var i :| i in Step(s, e).settling && Awaits(Step(s, e).settling[i], t);
        SettlingBefore(s, q, i, t);
      }
    } else {
      hide Q.Flight;
      if i :| i in Step(s, e).settling && Awaits(Step(s, e).settling[i], t) {
        assert i in s.settling && Awaits(s.settling[i], t);
      }
    }
  }

  lemma AcceptedBefore(s: State, q: Q.Event, i: nat, t: Ticket)
    requires i < |BaseStep(s, q).base.instances| && Accepts(BaseStep(s, q).base.instances[i], t)
    ensures Committing(s, t) || s.base.InFlight(t)
  {
    if Enabled(s, q) { AcceptedAfter(s.base, q, i, t); }
    hide Q.Step, Q.Flight;
    if !Accepts(s.base.instances[i], t) {
      assert s.base.instances[i].Checked? && t in Q.Held(s.base.instances[i]);
      Q.HeldInFlight(s.base.instances, i);
    }
  }

  lemma AcceptedAfter(s: Q.State, q: Q.Event, i: nat, t: Ticket)
    requires i < |Q.Step(s, q).instances| && Accepts(Q.Step(s, q).instances[i], t)
    ensures |Q.Step(s, q).instances| == |s.instances|
    ensures Accepts(s.instances[i], t) || (s.instances[i].Checked? && (t == s.instances[i].a || t == s.instances[i].b))
  {
    hide Q.Flight, Keep, Q.HandlerStep;
    if !Q.ByInstance(q) { Q.HandlersLeaveInstances(s, q); }
  }

  lemma SettlingBefore(s: State, q: Q.Event, i: nat, t: Ticket)
    requires i in BaseStep(s, q).settling && Awaits(BaseStep(s, q).settling[i], t)
    ensures Committing(s, t)
  {
    hide Q.Step;
    if !(i in s.settling && Awaits(s.settling[i], t)) {
      assert Forgets(s, q) && q.i == i && Accepts(s.base.instances[i], t);
    }
  }

  /** Only the end of a cleanup makes a user gone. */
  lemma StillThere(s: State, e: Event, u: UserId)
    requires !Gone(s, u) && Gone(Step(s, e), u)
    ensures e == DropSession(u) && u in s.leaving
  {
    StepGone(s, e, u);
  }

  lemma StepMatchedAreThere(s: State, e: Event)
    requires MatchedAreThere(s) && Q.GhostsExplained(s.base) && Q.AllLive(s.base) && !DropsCommitting(s, e)
    ensures MatchedAreThere(Step(s, e))
  {
    hide Step, Committing, Gone, Q.GhostsExplained, Q.AllLive;
    forall t: Ticket | Committing(Step(s, e), t)
      ensures t < |Step(s, e).base.owner| && !Gone(Step(s, e), Step(s, e).base.owner[t])
    {
      CommittedWasPopped(s, e, t);
      if !Committing(s, t) { PoppedAreThere(s, t); }
      OwnersStay(s, e);
      var u := s.base.owner[t];
      if Gone(Step(s, e), u) {
        StillThere(s, e, u);
        DroppedWasCommitting(s, e, t);
      }
    }
  }

  lemma DroppedWasCommitting(s: State, e: Event, t: Ticket)
    requires e.DropSession? && e.u in s.leaving && t < |s.base.owner| && s.base.owner[t] == e.u
    requires Committing(Step(s, e), t)
    ensures DropsCommitting(s, e)
  {
    assert Step(s, e).settling == s.settling && Step(s, e).base == s.base;
    hide Step;
    assert Committing(s, t);
  }

  lemma OwnersStay(s: State, e: Event)
    ensures s.base.owner <= Step(s, e).base.owner
  {
    hide Q.Flight, Keep;
  }

  lemma PoppedAreThere(s: State, t: Ticket)
    requires Q.GhostsExplained(s.base) && Q.AllLive(s.base) && s.base.InFlight(t)
    ensures t < |s.base.owner| && !Gone(s, s.base.owner[t])
  {
    hide Q.Flight, Q.EachTicketOnce;
    assert Q.Entered(s.base, t);
    assert Q.Live(s.base, t);
  }

  lemma NobodyMatchedAtFirst(instances: nat)
    ensures MatchedAreThere(Init(instances))
  {
  }

  lemma {:induction false} RunMatchedAreThere(instances: nat, es: seq<Event>)
    requires Q.Undisturbed(instances, BaseOf(instances, es)) && NoneDropsCommitting(instances, es)
    ensures MatchedAreThere(Run(instances, es))
  {
    hide Step, MatchedAreThere, DropsCommitting, Q.Disturbs, Enabled, Q.Run;
    if es == [] {
      NobodyMatchedAtFirst(instances);
    } else {
      var init, e := es[..|es| - 1], es[|es| - 1];
      var trace := BaseOf(instances, init);
      UndisturbedBefore(instances, es);
      RunMatchedAreThere(instances, init);
      BaseRun(instances, init);
      Q.RunsAreExplained(instances, trace);
      Q.UndisturbedRunsAreOrderly(instances, trace);
      StepMatchedAreThere(Run(instances, init), e);
    }
  }

  lemma UndisturbedBefore(instances: nat, es: seq<Event>)
    requires es != [] && Q.Undisturbed(instances, BaseOf(instances, es))
    ensures Q.Undisturbed(instances, BaseOf(instances, es[..|es| - 1]))
  {
    hide Run, Q.Run, Q.Disturbs, Enabled;
    var init, e := BaseOf(instances, es[..|es| - 1]), es[|es| - 1];
    if BaseOf(instances, es) != init { assert (init + [e.e])[..|init|] == init; }
  }

  lemma SetIsCommitting(s: State, e: Event)
    requires MatchedAreThere(s)
    ensures !SetsGone(s, e)
  {
    forall u: UserId | SetsFor(s, e, u) ensures !Gone(s, u) {
      var p := s.settling[e.i];
      assert Committing(s, if e.SetFirst? then p.a else p.b);
    }
  }

  /** Users who are gone never have a session key in runs in which no LREM runs while the user's
      entry is popped and no cleanup ends while a match of the user is being committed. */
  lemma {:induction false} GoneHaveNoneIfUndisturbed(instances: nat, es: seq<Event>)
    requires Q.Undisturbed(instances, BaseOf(instances, es)) && NoneDropsCommitting(instances, es)
    ensures AlwaysGoneHaveNone(instances, es)
  {
    NoneSets(instances, es);
    GoneHaveNoneIff(instances, es);
  }

  lemma {:induction false} NoneSets(instances: nat, es: seq<Event>)
    requires Q.Undisturbed(instances, BaseOf(instances, es)) && NoneDropsCommitting(instances, es)
    ensures NoneSetsGone(instances, es)
  {
    hide Run, SetsGone, DropsCommitting, MatchedAreThere, BaseOf, Q.Undisturbed;
    if es != [] {
      var init := es[..|es| - 1];
      UndisturbedBefore(instances, es);
      NoneSets(instances, init);
      RunMatchedAreThere(instances, init);
      SetIsCommitting(Run(instances, init), es[|es| - 1]);
    }
  }

  // ---- it happens ------------------------------------------------------------------------------------

  lemma Then(es: seq<Event>, s: State, e: Event) returns (es': seq<Event>, s': State)
    requires Run(1, es) == s
    ensures es' == es + [e] && Run(1, es') == s' == Step(s, e)
  {
    hide Step;
    es', s' := es + [e], Step(s, e);
    assert es'[..|es|] == es;
  }

  function Lifted(trace: seq<Q.Event>): seq<Event> {
    seq(|trace|, i requires 0 <= i < |trace| => Base(trace[i]))
  }

  /** Until something is forgotten or leaves, a run of the protocol is a run here. */
  lemma {:induction false} LiftedRun(trace: seq<Q.Event>)
    requires forall i :: 0 <= i < |trace| ==> !trace[i].Forget? && !trace[i].HDel?
    ensures Run(1, Lifted(trace)) == State(Q.Run(1, trace), map[], {}, map[])
  {
    hide Q.Step;
    if trace != [] {
      var init := trace[..|trace| - 1];
      LiftedRun(init);
      assert Lifted(trace)[..|trace| - 1] == Lifted(init);
    }
  }

  lemma MatchedAndLeaving(a: UserId, b: UserId) returns (es: seq<Event>, s: State)
    requires a != b
    ensures Run(1, es) == s && s.settling == map[] && s.leaving == {a} && s.sessions == map[]
    ensures s.base.instances == [Q.Accepted(0, 1)] && s.base.owner == [a, b] && s.base.ConnOf(a) == Q.Offline
  {
    hide Run, Q.Run, Q.Flight, Keep;
    var trace, base := Q.BothPopped(a, b);
    LiftedRun(trace);
    es, s := Lifted(trace), State(base, map[], {}, map[]);
    es, s := Then(es, s, Base(Q.CheckFirst(0, false)));
    es, s := Then(es, s, Base(Q.CheckSecond(0, false)));
    assert s.base.instances == [Q.Accepted(0, 1)] && s.base.owner == [a, b] && s.base.ConnOf(a) == Q.Waiting(0);
    es, s := Left(es, s, a);
  }

  lemma Left(es: seq<Event>, s: State, u: UserId) returns (es': seq<Event>, s': State)
    requires Run(1, es) == s && s.base.ConnOf(u).Waiting?
    ensures Run(1, es') == s' && s'.settling == s.settling && s'.leaving == s.leaving + {u} && s'.sessions == s.sessions
    ensures s'.base.instances == s.base.instances && s'.base.owner == s.base.owner && s'.base.ConnOf(u) == Q.Offline
  {
    hide Run, Q.Run, Q.Flight, Keep;
    es', s' := Then(es, s, Base(Q.Close(u)));
    es', s' := Then(es', s', Base(Q.LRem(u)));
    es', s' := Then(es', s', Base(Q.HDel(u)));
  }

  /** A user who leaves while its match is being committed has its session deleted first and set
      afterwards: the key stays although the user is gone. */
  lemma GoneKeepsSession(a: UserId, b: UserId) returns (es: seq<Event>)
    requires a != b
    ensures var s := Run(1, es); Gone(s, a) && s.sessions == map[a := b, b := a]
  {
    hide Run, Q.Run, Q.Flight, Keep;
    ghost var s: State;
    es, s := MatchedAndLeaving(a, b);
    es, s := Then(es, s, DropSession(a));
    es, s := Then(es, s, Base(Q.Observe(0)));
    es, s := Then(es, s, Base(Q.Forget(0)));
    assert s.settling == map[0 := Settling(0, 1, false)] && s.base.owner == [a, b] && Gone(s, a) && s.sessions == map[];
    es, s := Then(es, s, SetFirst(0));
    es, s := Then(es, s, SetSecond(0));
  }
}
