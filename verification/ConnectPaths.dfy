/** Where the connection of a user is, read off the steps alone: who is connecting, who is open,
    whose connection the server closed, and who is leaving. */
module ConnectPaths {
  import opened Ids
  import opened ConnectRaces

  // ---- what moves a connection -----------------------------------------------------------------------

  predicate Starts(s: State, e: Event, u: UserId) {
    e == Start(u) && u !in s.conns
  }

  /** The connection comes to nothing: refused as banned, or a database error, or a failed upgrade. */
  predicate Fails(s: State, e: Event, u: UserId) {
    && u in s.conns
    && ((e == CheckBan(u) && s.conns[u].Started? && u in s.banned)
        || (e == CheckFails(u) && s.conns[u].Started?)
        || (e == UpgradeFails(u) && s.conns[u].Hydrated?))
  }

  predicate Registers(s: State, e: Event, u: UserId) {
    e == Register(u) && u in s.conns && s.conns[u].Hydrated?
  }

  predicate Severs(s: State, e: Event, u: UserId) {
    e.Sever? && e.h in s.closing && s.closing[e.h] == u && IsOpen(s, u)
  }

  /** The read loop ends, whichever side closed the connection. */
  predicate Departs(s: State, e: Event, u: UserId) {
    e == Disconnect(u) && u in s.conns && (s.conns[u].Open? || s.conns[u].Severed?)
  }

  predicate IsSevered(s: State, u: UserId) {
    u in s.conns && s.conns[u].Severed?
  }

  predicate IsLeaving(s: State, u: UserId) {
    u in s.conns && s.conns[u].Leaving?
  }

  /** `u` started, and has since neither failed nor finished its cleanup. */
  ghost predicate Underway(es: seq<Event>, u: UserId) {
    es != [] &&
      var s, e := Run(es[..|es| - 1]), es[|es| - 1];
      Starts(s, e, u) || (Underway(es[..|es| - 1], u) && !Fails(s, e, u) && !(e == ClearKey(u) && IsLeaving(s, u)))
  }

  /** `u` registered, and has since been neither severed nor disconnected. */
  ghost predicate InService(es: seq<Event>, u: UserId) {
    es != [] &&
      var s, e := Run(es[..|es| - 1]), es[|es| - 1];
      Registers(s, e, u) || (InService(es[..|es| - 1], u) && !Severs(s, e, u) && e != Disconnect(u))
  }

  /** A handler that banned `u` found its connection open and closed it, and its read loop goes on. */
  ghost predicate WasSevered(es: seq<Event>, u: UserId) {
    es != [] &&
      var s, e := Run(es[..|es| - 1]), es[|es| - 1];
      Severs(s, e, u) || (WasSevered(es[..|es| - 1], u) && e != Disconnect(u))
  }

  /** The read loop of `u` has ended, and its block key is not yet deleted. */
  ghost predicate Departed(es: seq<Event>, u: UserId) {
    es != [] &&
      var s, e := Run(es[..|es| - 1]), es[|es| - 1];
      Departs(s, e, u) || (Departed(es[..|es| - 1], u) && e != ClearKey(u))
  }

  predicate SameConn(s: State, t: State, u: UserId) {
    (u in t.conns <==> u in s.conns) && (u in s.conns ==> t.conns[u] == s.conns[u])
  }

  /** The steps that a connection takes itself. */
  predicate Own(e: Event, u: UserId) {
    e in {Start(u), CheckBan(u), CheckFails(u), LoadBlocks(u), LoadFails(u), Hydrate(u), UpgradeFails(u), Register(u),
          Disconnect(u), ClearKey(u)}
  }

  lemma OthersLeaveConn(s: State, e: Event, u: UserId)
    requires !Own(e, u) && !Severs(s, e, u)
    ensures SameConn(s, Step(s, e), u)
  {
    hide BlockedBy;
  }

  lemma SeverCloses(s: State, e: Event, u: UserId)
    requires Severs(s, e, u)
    ensures IsSevered(Step(s, e), u)
  {
  }

  lemma OwnConns(s: State, e: Event, u: UserId)
    requires Own(e, u)
    ensures u in Step(s, e).conns <==>
      Starts(s, e, u) || (u in s.conns && !Fails(s, e, u) && !(e == ClearKey(u) && IsLeaving(s, u)))
  {
    hide BlockedBy;
  }

  lemma OwnStages(s: State, e: Event, u: UserId)
    requires Own(e, u)
    ensures IsOpen(Step(s, e), u) <==> Registers(s, e, u) || (IsOpen(s, u) && e != Disconnect(u))
    ensures IsSevered(Step(s, e), u) <==> IsSevered(s, u) && e != Disconnect(u)
    ensures IsLeaving(Step(s, e), u) <==> Departs(s, e, u) || (IsLeaving(s, u) && e != ClearKey(u))
  {
    hide BlockedBy;
  }

  lemma StepConn(s: State, e: Event, u: UserId)
    ensures u in Step(s, e).conns <==>
      Starts(s, e, u) || (u in s.conns && !Fails(s, e, u) && !(e == ClearKey(u) && IsLeaving(s, u)))
    ensures IsOpen(Step(s, e), u) <==> Registers(s, e, u) || (IsOpen(s, u) && !Severs(s, e, u) && e != Disconnect(u))
    ensures IsSevered(Step(s, e), u) <==> Severs(s, e, u) || (IsSevered(s, u) && e != Disconnect(u))
    ensures IsLeaving(Step(s, e), u) <==> Departs(s, e, u) || (IsLeaving(s, u) && e != ClearKey(u))
  {
    hide Step;
    if Own(e, u) {
      OwnConns(s, e, u);
      OwnStages(s, e, u);
    } else if Severs(s, e, u) {
      SeverCloses(s, e, u);
    } else {
      OthersLeaveConn(s, e, u);
    }
  }

  /** In every run: a user has a connection exactly if it started one that has since neither failed
      nor been cleaned up; the connection is open, closed by the server, or leaving, exactly if the
      last of its registration, the closing and the disconnect was that. */
  lemma {:induction false} ConnectionIsItsHistory(es: seq<Event>, u: UserId)
    ensures u in Run(es).conns <==> Underway(es, u)
    ensures IsOpen(Run(es), u) <==> InService(es, u)
    ensures IsSevered(Run(es), u) <==> WasSevered(es, u)
    ensures IsLeaving(Run(es), u) <==> Departed(es, u)
  {
    hide Step, Starts, Fails, Registers, Severs, Departs, IsOpen, IsSevered, IsLeaving;
    if es == [] {
      assert !IsOpen(INIT, u) && !IsSevered(INIT, u) && !IsLeaving(INIT, u) by { NobodyThere(u); }
    } else {
      var s, e := Run(es[..|es| - 1]), es[|es| - 1];
      ConnectionIsItsHistory(es[..|es| - 1], u);
      StepConn(s, e, u);
    }
  }

  lemma NobodyThere(u: UserId)
    ensures !IsOpen(INIT, u) && !IsSevered(INIT, u) && !IsLeaving(INIT, u)
  {
  }

  // ---- whole connections -------------------------------------------------------------------------------

  lemma Extend(es: seq<Event>, e: Event)
    ensures Run(es + [e]) == Step(Run(es), e)
  {
    hide Step;
    assert (es + [e])[..|es|] == es;
  }

  /** After any run a user without a connection or a ban, whom nobody interferes with, is let in:
      open, under a block key that is its list in the database, or none if that is empty. */
  lemma ConnectionGetsThrough(es: seq<Event>, u: UserId)
    requires u !in Run(es).conns && u !in Run(es).banned
    ensures var s := Run(es);
      var t := Run(es + [Start(u)] + [CheckBan(u)] + [LoadBlocks(u)] + [Hydrate(u)] + [Register(u)]);
      && t.conns == s.conns[u := Open]
      && t.keys == (if BlockedBy(s, u) == {} then s.keys - {u} else s.keys[u := BlockedBy(s, u)])
      && (t.banned, t.blocks, t.adding, t.closing) == (s.banned, s.blocks, s.adding, s.closing)
  {
    var s, init := Run(es), es + [Start(u)] + [CheckBan(u)];
    GetsAdmitted(es, u);
    LetIn(init, u);
    hide Run, Step, BlockedBy;
    SameBlocks(s, Run(init), u);
    assert s.conns[u := Admitted][u := Open] == s.conns[u := Open];
  }

  lemma GetsAdmitted(es: seq<Event>, u: UserId)
    requires u !in Run(es).conns && u !in Run(es).banned
    ensures Run(es + [Start(u)] + [CheckBan(u)]) == Run(es).(conns := Run(es).conns[u := Admitted])
  {
    hide Run, BlockedBy;
    Extend(es, Start(u));
    Extend(es + [Start(u)], CheckBan(u));
  }

  lemma LetIn(es: seq<Event>, u: UserId)
    requires u in Run(es).conns && Run(es).conns[u].Admitted?
    ensures var s, t := Run(es), Run(es + [LoadBlocks(u)] + [Hydrate(u)] + [Register(u)]);
      t == s.(conns := s.conns[u := Open],
              keys := if BlockedBy(s, u) == {} then s.keys - {u} else s.keys[u := BlockedBy(s, u)])
  {
    Hydrates(Run(es), u);
    hide Run, Step, BlockedBy;
    Extend(es, LoadBlocks(u));
    Extend(es + [LoadBlocks(u)], Hydrate(u));
    Extend(es + [LoadBlocks(u)] + [Hydrate(u)], Register(u));
  }

  lemma Hydrates(s: State, u: UserId)
    requires u in s.conns && s.conns[u].Admitted?
    ensures Step(Step(Step(s, LoadBlocks(u)), Hydrate(u)), Register(u)) ==
      s.(conns := s.conns[u := Open],
         keys := if BlockedBy(s, u) == {} then s.keys - {u} else s.keys[u := BlockedBy(s, u)])
  {
    hide BlockedBy;
    assert Step(s, LoadBlocks(u)) == s.(conns := s.conns[u := Loaded(BlockedBy(s, u))]);
    assert s.conns[u := Loaded(BlockedBy(s, u))][u := Hydrated][u := Open] == s.conns[u := Open];
  }

  lemma SameBlocks(s: State, t: State, u: UserId)
    requires s.blocks == t.blocks
    ensures BlockedBy(s, u) == BlockedBy(t, u)
  {
  }

  /** A block list that cannot be loaded keeps nobody out: the user is open, and whatever key was
      there before the connect is still there. */
  lemma UnloadedGetsThrough(es: seq<Event>, u: UserId)
    requires u !in Run(es).conns && u !in Run(es).banned
    ensures var s, t := Run(es), Run(es + [Start(u)] + [CheckBan(u)] + [LoadFails(u)] + [Register(u)]);
      t == s.(conns := s.conns[u := Open])
  {
    var s, init := Run(es), es + [Start(u)] + [CheckBan(u)];
    GetsAdmitted(es, u);
    LetInWithoutList(init, u);
    hide Run, Step;
    assert s.conns[u := Admitted][u := Open] == s.conns[u := Open];
  }

  lemma LetInWithoutList(es: seq<Event>, u: UserId)
    requires u in Run(es).conns && Run(es).conns[u].Admitted?
    ensures var s := Run(es);
      Run(es + [LoadFails(u)] + [Register(u)]) == s.(conns := s.conns[u := Open])
  {
    hide Run, BlockedBy;
    var s := Run(es);
    Extend(es, LoadFails(u));
    Extend(es + [LoadFails(u)], Register(u));
    assert s.conns[u := Hydrated][u := Open] == s.conns[u := Open];
  }

  /** And after any run an open or severed user who disconnects ends with no connection and no key,
      and may connect again. */
  lemma DepartureCleansUp(es: seq<Event>, u: UserId)
    requires IsOpen(Run(es), u) || IsSevered(Run(es), u)
    ensures var s, t := Run(es), Run(es + [Disconnect(u)] + [ClearKey(u)]);
      t == s.(conns := s.conns - {u}, keys := s.keys - {u})
  {
    var s := Run(es);
    Disconnects(s, u);
    hide Run, Step, IsOpen, IsSevered;
    Extend(es, Disconnect(u));
    Extend(es + [Disconnect(u)], ClearKey(u));
  }

  lemma Disconnects(s: State, u: UserId)
    requires IsOpen(s, u) || IsSevered(s, u)
    ensures Step(Step(s, Disconnect(u)), ClearKey(u)) == s.(conns := s.conns - {u}, keys := s.keys - {u})
  {
    hide BlockedBy;
    var left := s.(conns := s.conns[u := Leaving]);
    assert Step(s, Disconnect(u)) == left;
    assert left.conns - {u} == s.conns - {u};
  }
}
