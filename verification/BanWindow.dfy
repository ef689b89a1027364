/** A ban closes the user's socket; the queue is left only when that connection's cleanup runs.
    What can happen in between, and exactly when it does. */
module BanWindow {
  import opened Ids
  import opened Sequences
  import opened Store
  import opened MatchCycle
  import opened Database
  import opened Backend
  import opened BackendSafety

  predicate QueuedWhileBanned(s: State, u: UserId) {
    s.db.IsBanned(u) && u in s.redis.queue
  }

  predicate Matches(s: State, e: Event) {
    e.Turn? && |s.redis.queue| >= 2 && !s.redis.PairBlocked(s.redis.queue[0], s.redis.queue[1])
  }

  /** The steps that take a queued user out: its cleanup, a match, or a failed re-queue. */
  predicate Leaves(s: State, e: Event, u: UserId) {
    || (e.Disconnect? && e.user == u)
    || (&& e.Turn? && |s.redis.queue| >= 2 && u in s.redis.queue[..2]
        && (Matches(s, e) || e.requeueFails))
  }

  /** A ban hit `u` while it was queued, and since then `u` was neither unbanned nor taken out. */
  ghost predicate CaughtInQueue(es: seq<Event>, u: UserId) {
    es != [] &&
      var s, e := Run(es[..|es| - 1]), es[|es| - 1];
      if u in NewBans(s, e) then u in s.redis.queue
      else CaughtInQueue(es[..|es| - 1], u) && u !in NewUnbans(s, e) && !Leaves(s, e, u)
  }

  lemma TurnQueue(s: State, e: Event, u: UserId)
    requires e.Turn? && NoDuplicates(s.redis.queue)
    ensures u in Step(s, e).redis.queue <==> u in s.redis.queue && !Leaves(s, e, u)
  {
    hide Waits, Keep;
    var q := s.redis.queue;
    if |q| >= 2 {
      HeadOfQueue(q, u);
      assert u in q[..2] <==> u == q[0] || u == q[1];
    }
  }

  lemma ConnectQueue(s: State, e: Event, u: UserId)
    requires e.Connect? && Faithful(s)
    ensures u in s.redis.queue ==> u in Step(s, e).redis.queue
    ensures u in Step(s, e).redis.queue ==> u in s.redis.queue || !Step(s, e).db.IsBanned(u)
  {
    ConnectedQueue(s, e);
    hide StandingOf, Keep, Step;
    assert Reflects(s, u);
    KeepMembers(s.redis.queue, Other(e.user));
  }

  lemma ConnectedQueue(s: State, e: Event)
    requires e.Connect?
    ensures var s' := Step(s, e);
      || s'.redis.queue == s.redis.queue
      || (s'.redis.queue == s.redis.queue + [e.user] && !s'.db.IsBanned(e.user))
      || (s'.redis.queue == Keep(s.redis.queue, Other(e.user)) && e.user !in s.clients)
  {
    hide Keep, Tables.BlocksOf;
    if e.attempt.Serves? && e.user !in s.clients { ServedIsNotBanned(s, e.user, e.now, e.loads); }
    hide Tables.IsBanned;
  }

  lemma ServedIsNotBanned(s: State, u: UserId, now: int, loads: bool)
    ensures var s' := ConnectEffect(s, u, now, loads, Serves);
      s'.redis.queue == s.redis.queue || !s'.db.IsBanned(u)
  {
    hide Tables.Upsert, Tables.IsBanned, Tables.BlocksOf;
  }

  /** Who is queued after a step. */
  lemma QueueAfter(s: State, e: Event, u: UserId)
    requires Faithful(s)
    ensures u in s.redis.queue && !Leaves(s, e, u) ==> u in Step(s, e).redis.queue
    ensures u in Step(s, e).redis.queue ==> (u in s.redis.queue && !Leaves(s, e, u)) || !Step(s, e).db.IsBanned(u)
  {
    hide Step, Leaves;
    if e.Turn? {
      TurnQueue(s, e, u) by { NoneQueuedTwice(s); }
    } else if e.Connect? {
      ConnectQueue(s, e, u);
    } else if e.Disconnect? {
      DisconnectQueue(s, e, u);
    } else {
      OtherQueue(s, e, u);
    }
    if e.Connect? { OnlyTurnsTakeOut(s, e, u); }
  }

  lemma NoneQueuedTwice(s: State)
    requires Faithful(s)
    ensures NoDuplicates(s.redis.queue)
  {
    hide Reflects;
  }

  lemma OnlyTurnsTakeOut(s: State, e: Event, u: UserId)
    requires !e.Turn? && !e.Disconnect?
    ensures !Leaves(s, e, u)
  {
  }

  lemma DisconnectQueue(s: State, e: Event, u: UserId)
    requires e.Disconnect? && Faithful(s)
    ensures u in Step(s, e).redis.queue <==> u in s.redis.queue && !Leaves(s, e, u)
  {
    hide StandingOf, Keep;
    assert Reflects(s, u);
    KeepMembers(s.redis.queue, Other(e.user));
  }

  lemma OtherQueue(s: State, e: Event, u: UserId)
    requires !e.Connect? && !e.Disconnect? && !e.Turn?
    ensures Step(s, e).redis.queue == s.redis.queue && !Leaves(s, e, u)
  {
    hide Mirror, LookUp;
    QuietEvent(s, e);
  }

  lemma BansTakeNobodyOut(s: State, e: Event)
    requires NewBans(s, e) != {} || NewUnbans(s, e) != {}
    ensures forall u :: !Leaves(s, e, u)
  {
    hide Mirror, LookUp, Keep, Round;
  }

  /** Over every run: a banned user is queued if and only if the ban hit it while it was
      queued and it has since been neither unbanned nor taken out. */
  lemma {:induction false} QueuedWhileBannedIffCaught(es: seq<Event>, u: UserId)
    ensures QueuedWhileBanned(Run(es), u) <==> CaughtInQueue(es, u)
  {
    hide Step, Faithful, Becomes, Leaves, NewBans, NewUnbans;
    if es == [] {
      NobodyAtFirst(u);
    } else {
      var init, e := es[..|es| - 1], es[|es| - 1];
      var s := Run(init);
      QueuedWhileBannedIffCaught(init, u);
      RunConsistent(init);
      RunFaithful(init);
      BannedAfter(s, e, u);
      QueueAfter(s, e, u);
      if u in NewBans(s, e) || u in NewUnbans(s, e) { BansTakeNobodyOut(s, e); }
    }
  }

  lemma NobodyAtFirst(u: UserId)
    ensures !QueuedWhileBanned(INIT, u)
  {
  }

  lemma BannedAfter(s: State, e: Event, u: UserId)
    requires Consistent(s.db)
    ensures Step(s, e).db.IsBanned(u) <==> u in NewBans(s, e) || (s.db.IsBanned(u) && u !in NewUnbans(s, e))
  {
    hide Consistent, Step, NewBans, NewUnbans;
    StepBecomes(s, e);
  }

  // ---- whole runs ------------------------------------------------------------------------------------

  ghost predicate NeverQueuedWhileBanned(es: seq<Event>) {
    && (forall u: UserId :: !QueuedWhileBanned(Run(es), u))
    && (es == [] || NeverQueuedWhileBanned(es[..|es| - 1]))
  }

  ghost predicate HitsQueue(s: State, e: Event, u: UserId) {
    u in NewBans(s, e) && u in s.redis.queue
  }

  ghost predicate HitsNobody(s: State, e: Event) {
    forall u: UserId :: !HitsQueue(s, e, u)
  }

  ghost predicate NoBanHitsQueue(es: seq<Event>) {
    es == [] || (HitsNobody(Run(es[..|es| - 1]), es[|es| - 1]) && NoBanHitsQueue(es[..|es| - 1]))
  }

  lemma {:induction false} NobodyCaught(es: seq<Event>, u: UserId)
    requires NoBanHitsQueue(es)
    ensures !CaughtInQueue(es, u)
  {
    if es != [] {
      NobodyCaught(es[..|es| - 1], u);
      assert !HitsQueue(Run(es[..|es| - 1]), es[|es| - 1], u);
      hide Step, Leaves, NewBans, NewUnbans;
    }
  }

  /** No banned user is ever queued, at any moment of a run, if and only if no ban of the run
      hits a user who is queued at that moment. */
  lemma {:induction false} NeverQueuedIffNoBanHitsQueue(es: seq<Event>)
    ensures NeverQueuedWhileBanned(es) <==> NoBanHitsQueue(es)
  {
    hide Step, Leaves, NewBans, NewUnbans, QueuedWhileBanned;
    if es != [] { NeverQueuedIffNoBanHitsQueue(es[..|es| - 1]); }
    if NoBanHitsQueue(es) {
      forall u: UserId ensures !QueuedWhileBanned(Run(es), u) {
        NobodyCaught(es, u);
        QueuedWhileBannedIffCaught(es, u);
      }
    } else if NoBanHitsQueue(es[..|es| - 1]) {
      var u: UserId :| HitsQueue(Run(es[..|es| - 1]), es[|es| - 1], u);
      QueuedWhileBannedIffCaught(es, u);
    }
  }

  predicate BannedMatch(e: Entry) {
    e.Matched? && (e.before.firstBanned || e.before.secondBanned)
  }

  /** The turn matches somebody whom a ban caught in the queue. */
  ghost predicate MatchesCaught(es: seq<Event>, e: Event) {
    Matches(Run(es), e) && (CaughtInQueue(es, Run(es).redis.queue[0]) || CaughtInQueue(es, Run(es).redis.queue[1]))
  }

  ghost predicate NoneCaughtMatched(es: seq<Event>) {
    es == [] || (!MatchesCaught(es[..|es| - 1], es[|es| - 1]) && NoneCaughtMatched(es[..|es| - 1]))
  }

  ghost predicate NoBannedMatch(log: seq<Entry>) {
    forall i :: 0 <= i < |log| ==> !BannedMatch(log[i])
  }

  lemma StepMatches(s: State, e: Event)
    ensures Matches(s, e) ==>
      Step(s, e).log == s.log + [Matched(s.redis.queue[0], s.redis.queue[1], e.now, s.Look(s.redis.queue[0], s.redis.queue[1]))]
    ensures !Matches(s, e) ==>
      Step(s, e).log == s.log || (|Step(s, e).log| == |s.log| + 1 && s.log <= Step(s, e).log && !Step(s, e).log[|s.log|].Matched?)
  {
    hide Mirror, LookUp, Keep, Round;
  }

  /** No match of a run has a banned side if and only if no turn matches a user whom a ban
      caught in the queue. */
  lemma {:induction false} NoBannedMatchIffNoneCaught(es: seq<Event>)
    ensures NoBannedMatch(Run(es).log) <==> NoneCaughtMatched(es)
  {
    hide Step, CaughtInQueue, Matches;
    if es != [] {
      var init, e := es[..|es| - 1], es[|es| - 1];
      var s := Run(init);
      NoBannedMatchIffNoneCaught(init);
      StepMatches(s, e);
      if Matches(s, e) { MatchedIffCaught(init, e); }
      LogOfStep(s.log, Step(s, e).log);
    }
  }

  lemma MatchedIffCaught(es: seq<Event>, e: Event)
    requires Matches(Run(es), e)
    ensures var s, a, b := Run(es), Run(es).redis.queue[0], Run(es).redis.queue[1];
      BannedMatch(Matched(a, b, e.now, s.Look(a, b))) <==> MatchesCaught(es, e)
  {
    hide Run, CaughtInQueue;
    QueuedWhileBannedIffCaught(es, Run(es).redis.queue[0]);
    QueuedWhileBannedIffCaught(es, Run(es).redis.queue[1]);
  }

  lemma LogOfStep(log: seq<Entry>, log': seq<Entry>)
    requires log <= log' && |log'| <= |log| + 1
    ensures NoBannedMatch(log') <==> NoBannedMatch(log) && (|log'| > |log| ==> !BannedMatch(log'[|log|]))
  {
    if NoBannedMatch(log') {
      forall i | 0 <= i < |log| ensures !BannedMatch(log[i]) { assert log[i] == log'[i]; }
    }
  }

  /** So a run in which no ban hits a queued user never matches a banned one. */
  lemma {:induction false} NoHitNoBannedMatch(es: seq<Event>)
    requires NoBanHitsQueue(es)
    ensures NoBannedMatch(Run(es).log)
  {
    NoneCaught(es);
    NoBannedMatchIffNoneCaught(es);
  }

  lemma {:induction false} NoneCaught(es: seq<Event>)
    requires NoBanHitsQueue(es)
    ensures NoneCaughtMatched(es)
  {
    hide Step, CaughtInQueue, HitsNobody;
    if es != [] {
      var init := es[..|es| - 1];
      NoneCaught(init);
      if MatchesCaught(init, es[|es| - 1]) {
        NobodyCaught(init, Run(init).redis.queue[0]);
        NobodyCaught(init, Run(init).redis.queue[1]);
      }
    }
  }

  /** It happens: a user banned while queued, whose socket is closed, is still queued, and the
      next turn of the match loop gives its partner a session with it. */
  lemma BannedWhileQueuedIsMatched(a: UserId, b: UserId)
    requires a != b
    ensures var s := Run([Connect(a, 1, true, Serves), Connect(b, 2, true, Serves), AdminBan(1, 3)]);
      && s.db.IsBanned(a) && s.clients == map[a := false, b := true] && s.redis.queue == [a, b]
      && TurnStep(s, 4, false).redis.sessions == map[a := b, b := a]
  {
    hide Run, ConnectStep, TurnStep;
    var s2 := TwoConnect(a, b);
    var s3 := AdminBanStep(s2, 1, 3);
    assert s3.redis == s2.redis && s3.clients == map[a := false, b := true] && s3.db.IsBanned(a);
    hide AdminBanStep;
    FirstTurn(s3, a, b, 4);
    RunOfThree(Connect(a, 1, true, Serves), Connect(b, 2, true, Serves), AdminBan(1, 3));
  }
}
