/** The state of the backend read off its events alone: which users are blocked, banned and keyed,
    and what went into the history. */
module BackendHistory {
  import opened Ids
  import opened Accounts
  import opened Sequences
  import opened Store
  import opened MatchCycle
  import opened Database
  import opened Backend
  import opened BackendSafety
  import opened AutoBan

  // ---- who is blocked ------------------------------------------------------------------------------

  /** A report that was recorded, or a block, between `u` and `v`, in either direction. */
  predicate Parts(e: Event, u: UserId, v: UserId) {
    && u != v
    && ((e.FileReport? && e.uploads && ((e.reporter == u && e.reported == v) || (e.reporter == v && e.reported == u)))
        || (e.FileBlock? && ((e.blocker == u && e.blocked == v) || (e.blocker == v && e.blocked == u))))
  }

  /** Two users are blocked in the database iff one of them ever reported or blocked the other. */
  lemma {:induction false} BlockedIffParted(es: seq<Event>, u: UserId, v: UserId)
    ensures Run(es).db.SubBlocked(u, v) <==> exists i :: 0 <= i < |es| && Parts(es[i], u, v)
  {
    hide Step, Becomes, Consistent;
    if es == [] {
      assert !INIT.db.SubBlocked(u, v);
    } else {
      var init, e := es[..|es| - 1], es[|es| - 1];
      BlockedIffParted(init, u, v);
      RunConsistent(init);
      StepParts(Run(init), e, u, v);
      if i :| 0 <= i < |init| && Parts(init[i], u, v) { assert Parts(es[i], u, v); }
      if i :| 0 <= i < |es| && Parts(es[i], u, v) && i < |init| { assert Parts(init[i], u, v); }
    }
  }

  lemma StepParts(s: State, e: Event, u: UserId, v: UserId)
    requires Consistent(s.db)
    ensures Step(s, e).db.SubBlocked(u, v) <==> s.db.SubBlocked(u, v) || Parts(e, u, v)
  {
    hide Consistent, Step, NewBans, NewUnbans;
    StepBecomes(s, e);
  }

  // ---- who has a block key ---------------------------------------------------------------------------

  /** A connect of `u` that gets past the ban check. */
  predicate Admits(s: State, e: Event, u: UserId) {
    && e.Connect? && e.user == u && u !in s.clients && !s.db.IsBanned(u)
    && !e.attempt.UpsertFails? && !e.attempt.BanCheckFails?
  }

  ghost predicate HasBlocks(s: State, u: UserId) {
    exists v: UserId :: s.db.SubBlocked(u, v)
  }

  /** The steps that end with a cleanup of `u`, or let its key expire. */
  predicate Unkeys(s: State, e: Event, u: UserId) {
    || e == BlocksExpire(u)
    || (e == Disconnect(u) && u in s.clients)
    || (Admits(s, e, u) && e.attempt.InitFails?)
  }

  /** The last list that was loaded for `u` on connecting was not empty, and there was no cleanup
      and no expiry since. */
  ghost predicate Keyed(es: seq<Event>, u: UserId) {
    es != [] &&
      var s, e := Run(es[..|es| - 1]), es[|es| - 1];
      if Unkeys(s, e, u) then false
      else if Admits(s, e, u) && e.loads then HasBlocks(s, u)
      else Keyed(es[..|es| - 1], u)
  }

  lemma StepKeys(s: State, e: Event, u: UserId)
    requires Consistent(s.db)
    ensures u in Step(s, e).redis.blocks <==>
      if Unkeys(s, e, u) then false
      else if Admits(s, e, u) && e.loads then HasBlocks(s, u)
      else u in s.redis.blocks
  {
    hide Consistent, HasBlocks, Step;
    if e.Connect? {
      ConnectKeys(s, e, u);
    } else if e.FileReport? || e.FileBlock? {
      ReportKeys(s, e, u);
    } else {
      OtherKeys(s, e, u);
    }
  }

  lemma MirrorKeys(r: Redis, a: UserId, b: UserId)
    ensures Mirror(r, a, b).blocks.Keys == r.blocks.Keys
  {
  }

  lemma ReportKeys(s: State, e: Event, u: UserId)
    requires e.FileReport? || e.FileBlock?
    ensures u in Step(s, e).redis.blocks <==> u in s.redis.blocks
  {
    hide Mirror, LookUp;
    if e.FileReport? { MirrorKeys(s.redis, e.reporter, e.reported); } else { MirrorKeys(s.redis, e.blocker, e.blocked); }
  }

  lemma OtherKeys(s: State, e: Event, u: UserId)
    requires !e.Connect? && !e.FileReport? && !e.FileBlock?
    ensures u in Step(s, e).redis.blocks <==> u in s.redis.blocks && !Unkeys(s, e, u)
  {
    hide Keep, Waits;
    if e.Turn? {
      TurnKeepsBlocks(s, e.now, e.requeueFails);
      hide TurnStep;
    }
  }

  lemma RoundKeepsBlocks(r: Redis, fails: bool, now: int)
    ensures Round(r, fails, now).blocks == r.blocks
  {
    hide Waits, CheckedBlocked;
  }

  lemma TurnKeepsBlocks(s: State, now: int, fails: bool)
    ensures TurnStep(s, now, fails).redis.blocks == s.redis.blocks
  {
    hide Round;
    RoundKeepsBlocks(s.redis, fails, now);
  }

  lemma ConnectKeys(s: State, e: Event, u: UserId)
    requires Consistent(s.db) && e.Connect?
    ensures u in Step(s, e).redis.blocks <==>
      if Unkeys(s, e, u) then false
      else if Admits(s, e, u) && e.loads then HasBlocks(s, u)
      else u in s.redis.blocks
  {
    hide Consistent, HasBlocks, Tables.Upsert, Tables.BlocksOf, Tables.IsBanned;
    UpsertKeepsBlocks(s, e.user);
    ConnectWrites(s, e);
    hide Step;
  }

  /** What a connect does to the block keys. */
  lemma ConnectWrites(s: State, e: Event)
    requires e.Connect?
    requires var db := s.db.Upsert(e.user); e.user in db.bySub && db.IsBanned(e.user) == s.db.IsBanned(e.user)
    ensures var db := s.db.Upsert(e.user);
      var hydrated := if e.loads then s.redis.Hydrate(e.user, db.BlocksOf(db.bySub[e.user])).blocks else s.redis.blocks;
      Step(s, e).redis.blocks ==
        if !Admits(s, e, e.user) then s.redis.blocks
        else if e.attempt.InitFails? then hydrated - {e.user}
        else hydrated
  {
    hide Keep, Tables.Upsert, Tables.BlocksOf, Tables.IsBanned;
  }

  /** The list that is loaded after the upsert is empty iff the user is blocked with nobody. */
  lemma UpsertKeepsBlocks(s: State, u: UserId)
    requires Consistent(s.db)
    ensures var db := s.db.Upsert(u);
      && u in db.bySub && db.IsBanned(u) == s.db.IsBanned(u)
      && (db.BlocksOf(db.bySub[u]) != {} <==> HasBlocks(s, u))
  {
    var db := s.db.Upsert(u);
    UpsertBecomes(s.db, u);
    UpsertConsistent(s.db, u);
    hide Consistent;
    forall v: UserId ensures v in db.BlocksOf(db.bySub[u]) <==> s.db.SubBlocked(u, v) { BlocksOfIsSubBlocked(db, u, v); }
    if v: UserId :| s.db.SubBlocked(u, v) { assert v in db.BlocksOf(db.bySub[u]); }
    if db.BlocksOf(db.bySub[u]) != {} {
      var v :| v in db.BlocksOf(db.bySub[u]);
      assert s.db.SubBlocked(u, v);
    }
  }

  /** In every run a user has a block key exactly if the last list that was loaded for it on
      connecting was not empty, and there was no cleanup and no expiry since. */
  lemma {:induction false} KeyIffHydrated(es: seq<Event>, u: UserId)
    ensures u in Run(es).redis.blocks <==> Keyed(es, u)
  {
    hide Step, Unkeys, Admits, HasBlocks, Consistent;
    if es != [] {
      KeyIffHydrated(es[..|es| - 1], u);
      RunConsistent(es[..|es| - 1]);
      StepKeys(Run(es[..|es| - 1]), es[|es| - 1], u);
    }
  }

  // ---- a block that holds ------------------------------------------------------------------------------

  /** `a` stays connected and its key does not expire. */
  ghost predicate Stays(es: seq<Event>, a: UserId) {
    forall i :: 0 <= i < |es| ==> es[i] != Disconnect(a) && es[i] != BlocksExpire(a)
  }

  lemma StepStays(s: State, e: Event, a: UserId, b: UserId)
    requires Consistent(s.db) && a in s.clients && a in s.redis.blocks && s.db.SubBlocked(a, b)
    requires e != Disconnect(a) && e != BlocksExpire(a)
    ensures var t := Step(s, e); a in t.clients && a in t.redis.blocks && t.db.SubBlocked(a, b)
  {
    StepKeys(s, e, a);
    StepParts(s, e, a, b);
    StillClient(s, e, a);
    hide Step, Consistent;
  }

  lemma StillClient(s: State, e: Event, a: UserId)
    requires a in s.clients && e != Disconnect(a)
    ensures a in Step(s, e).clients
  {
    hide Mirror, LookUp, Keep, Round;
  }

  lemma ServedWithKey(s: State, a: UserId, b: UserId, now: int)
    requires Consistent(s.db) && a !in s.clients && !s.db.IsBanned(a) && s.db.SubBlocked(a, b)
    ensures var t := Step(s, Connect(a, now, true, Serves));
      a in t.clients && a in t.redis.blocks && t.db.SubBlocked(a, b)
  {
    var e := Connect(a, now, true, Serves);
    StepKeys(s, e, a);
    StepParts(s, e, a, b);
    UpsertKeepsBlocks(s, a);
    hide Consistent, Tables.Upsert, Tables.BlocksOf;
    assert HasBlocks(s, a);
  }

  lemma {:induction false} BlockStays(before: seq<Event>, a: UserId, b: UserId, now: int, after: seq<Event>)
    requires var s := Run(before); a !in s.clients && !s.db.IsBanned(a) && s.db.SubBlocked(a, b)
    requires Stays(after, a)
    ensures var t := Run(before + [Connect(a, now, true, Serves)] + after);
      a in t.clients && a in t.redis.blocks && t.db.SubBlocked(a, b)
  {
    hide Step, Consistent;
    var es := before + [Connect(a, now, true, Serves)] + after;
    RunConsistent(es[..|es| - 1]);
    if after == [] {
      assert es[..|es| - 1] == before;
      ServedWithKey(Run(before), a, b, now);
    } else {
      var init := after[..|after| - 1];
      assert es[..|es| - 1] == before + [Connect(a, now, true, Serves)] + init;
      BlockStays(before, a, b, now, init);
      StepStays(Run(es[..|es| - 1]), es[|es| - 1], a, b);
    }
  }

  // ---- what went into the history -----------------------------------------------------------------------

  predicate BansUser(s: State, e: Event, u: UserId) {
    || (Files(e, u) && Bans(AccountOfSub(s.db, u), e.report))
    || (e.AdminBan? && e.id in s.db.users && s.db.users[e.id].sub == u && s.db.users[e.id].bannedAt.None?)
  }

  predicate UnbansUser(s: State, e: Event, u: UserId) {
    e.AdminUnban? && e.id in s.db.users && s.db.users[e.id].sub == u && s.db.users[e.id].bannedAt.Some?
  }

  /** The entries that an event calls for. */
  function Calls(s: State, e: Event): seq<Entry> {
    match e
    case Connect(u, now, _, attempt) =>
      if Admits(s, e, u) && attempt.Serves? then [Joined(u, now)]
      else if Admits(s, e, u) && attempt.InitFails? then [Left(u)]
      else []
    case Disconnect(u) => if u in s.clients then [Left(u)] else []
    case FileReport(_, v, _, _) => if BansUser(s, e, v) then [Banned(v)] else []
    case AdminBan(id, _) => if id in s.db.users && BansUser(s, e, s.db.users[id].sub) then [Banned(s.db.users[id].sub)] else []
    case AdminUnban(id) => if id in s.db.users && UnbansUser(s, e, s.db.users[id].sub) then [Unbanned(s.db.users[id].sub)] else []
    case Turn(now, fails) =>
      var q := s.redis.queue;
      if |q| < 2 then []
      else if !s.redis.PairBlocked(q[0], q[1]) then [Matched(q[0], q[1], now, s.Look(q[0], q[1]))]
      else if fails then [Entry.Lost(q[0], q[1])]
      else []
    case _ => []
  }

  lemma ConnectLogs(s: State, e: Event)
    requires Consistent(s.db) && e.Connect?
    ensures Step(s, e).log == s.log + Calls(s, e)
  {
    UpsertKeepsBlocks(s, e.user);
    hide Consistent, Keep, HasBlocks, Tables.Upsert, Tables.BlocksOf, Tables.IsBanned;
  }

  lemma ReportAppends(s: State, e: Event)
    requires e.FileReport?
    ensures Step(s, e).log == s.log || Step(s, e).log == s.log + [Banned(e.reported)]
  {
    hide Mirror, LookUp;
  }

  lemma ReportLogs(s: State, e: Event)
    requires Consistent(s.db) && e.FileReport?
    ensures Step(s, e).log == s.log + Calls(s, e)
  {
    hide Consistent, Step, AccountOfSub, Bans;
    ReportAppends(s, e);
    NewBansAreBans(s, e, e.reported);
  }

  lemma OtherLogs(s: State, e: Event)
    requires !e.Connect? && !e.FileReport?
    ensures Step(s, e).log == s.log + Calls(s, e)
  {
    hide Mirror, LookUp, Keep, Round, Bans, AccountOfSub;
  }

  lemma StepLogs(s: State, e: Event)
    requires Consistent(s.db)
    ensures Step(s, e).log == s.log + Calls(s, e)
  {
    hide Consistent, Step, Calls;
    if e.Connect? { ConnectLogs(s, e); } else if e.FileReport? { ReportLogs(s, e); } else { OtherLogs(s, e); }
  }

  function AllCalls(es: seq<Event>): seq<Entry> {
    if es == [] then [] else AllCalls(es[..|es| - 1]) + Calls(Run(es[..|es| - 1]), es[|es| - 1])
  }

  /** The history is, in order, what the events call for: a join for every admitted connect that is
      served, a departure for every cleanup, a match for every turn whose head pair is open, and
      every ban and unban that changed something. */
  lemma {:induction false} HistoryIsCalledFor(es: seq<Event>)
    ensures Run(es).log == AllCalls(es)
  {
    hide Step, Calls, Consistent;
    if es != [] {
      HistoryIsCalledFor(es[..|es| - 1]);
      RunConsistent(es[..|es| - 1]);
      StepLogs(Run(es[..|es| - 1]), es[|es| - 1]);
    }
  }

  // ---- who is banned -----------------------------------------------------------------------------------

  /** The last report or administrator that banned `u` was not followed by an unban. */
  ghost predicate BanStands(es: seq<Event>, u: UserId) {
    es != [] &&
      var s, e := Run(es[..|es| - 1]), es[|es| - 1];
      BansUser(s, e, u) || (BanStands(es[..|es| - 1], u) && !UnbansUser(s, e, u))
  }

  lemma StepBans(s: State, e: Event, u: UserId)
    requires Consistent(s.db)
    ensures Step(s, e).db.IsBanned(u) <==> BansUser(s, e, u) || (s.db.IsBanned(u) && !UnbansUser(s, e, u))
  {
    StepBecomes(s, e);
    StepLogs(s, e);
    NewEntries(s, e, u);
    hide Step, Consistent, Calls, NewBans, NewUnbans, BansUser, UnbansUser;
  }

  lemma NewEntries(s: State, e: Event, u: UserId)
    requires Consistent(s.db) && Step(s, e).log == s.log + Calls(s, e)
    ensures u in NewBans(s, e) <==> BansUser(s, e, u)
    ensures u in NewUnbans(s, e) <==> UnbansUser(s, e, u)
  {
    hide Step, Consistent, AccountOfSub, Bans, Admits, Redis.PairBlocked;
    if Calls(s, e) != [] { assert |Calls(s, e)| == 1 && Step(s, e).log[|s.log|] == Calls(s, e)[0]; }
  }

  /** In every run a user is banned exactly if the last ban, by an administrator or by the report
      that closed six within a day, was not followed by an unban. */
  lemma {:induction false} BannedIffBanStands(es: seq<Event>, u: UserId)
    ensures Run(es).db.IsBanned(u) <==> BanStands(es, u)
  {
    hide Step, BansUser, UnbansUser, Consistent;
    if es == [] {
      assert !INIT.db.IsBanned(u);
    } else {
      BannedIffBanStands(es[..|es| - 1], u);
      RunConsistent(es[..|es| - 1]);
      StepBans(Run(es[..|es| - 1]), es[|es| - 1], u);
    }
  }

  // ---- who is connected --------------------------------------------------------------------------------

  /** A connect of `u` that gets as far as the read loop. */
  predicate LetsIn(s: State, e: Event, u: UserId) {
    Admits(s, e, u) && e.attempt.Serves?
  }

  /** `u` was served, and has not disconnected since. */
  ghost predicate Served(es: seq<Event>, u: UserId) {
    es != [] && (LetsIn(Run(es[..|es| - 1]), es[|es| - 1], u) || (Served(es[..|es| - 1], u) && es[|es| - 1] != Disconnect(u)))
  }

  /** Nor been banned since. */
  ghost predicate InService(es: seq<Event>, u: UserId) {
    es != [] &&
      var s, e := Run(es[..|es| - 1]), es[|es| - 1];
      LetsIn(s, e, u) || (InService(es[..|es| - 1], u) && e != Disconnect(u) && !BansUser(s, e, u))
  }

  lemma ConnectServes(s: State, e: Event, u: UserId)
    requires Consistent(s.db) && e.Connect?
    ensures u in Step(s, e).clients <==> LetsIn(s, e, u) || u in s.clients
    ensures Step(s, e).Open(u) <==> LetsIn(s, e, u) || s.Open(u)
  {
    UpsertKeepsBlocks(s, e.user);
    hide Consistent, Keep, HasBlocks, Tables.Upsert, Tables.BlocksOf, Tables.IsBanned;
  }

  lemma ReportSevers(s: State, e: Event)
    requires e.FileReport?
    ensures var t := Step(s, e);
      || (t.log == s.log && t.clients == s.clients)
      || (t.log == s.log + [Banned(e.reported)] && t.clients == s.Sever(e.reported).clients)
  {
    hide Mirror, LookUp;
  }

  lemma ReportCloses(s: State, e: Event, u: UserId)
    requires Consistent(s.db) && e.FileReport?
    ensures u in Step(s, e).clients <==> u in s.clients
    ensures Step(s, e).Open(u) <==> s.Open(u) && !BansUser(s, e, u)
  {
    ReportSevers(s, e);
    ReportLogs(s, e);
    hide Step, Consistent, AccountOfSub, Bans;
  }

  lemma OthersClose(s: State, e: Event, u: UserId)
    requires !e.Connect? && !e.FileReport?
    ensures u in Step(s, e).clients <==> u in s.clients && e != Disconnect(u)
    ensures Step(s, e).Open(u) <==> s.Open(u) && e != Disconnect(u) && !BansUser(s, e, u)
  {
    hide Mirror, LookUp, Keep, Round, Bans, AccountOfSub;
  }

  lemma StepServes(s: State, e: Event, u: UserId)
    requires Consistent(s.db)
    ensures u in Step(s, e).clients <==> LetsIn(s, e, u) || (u in s.clients && e != Disconnect(u))
    ensures Step(s, e).Open(u) <==> LetsIn(s, e, u) || (s.Open(u) && e != Disconnect(u) && !BansUser(s, e, u))
  {
    hide Step, Consistent, AccountOfSub, Bans;
    if e.Connect? {
      ConnectServes(s, e, u);
    } else if e.FileReport? {
      ReportCloses(s, e, u);
    } else {
      OthersClose(s, e, u);
    }
  }

  /** In every run the users in `clients` are exactly those who were served and have not disconnected
      since, and the open connections among them those of users who have not been banned since. */
  lemma {:induction false} ConnectedIffServed(es: seq<Event>, u: UserId)
    ensures u in Run(es).clients <==> Served(es, u)
    ensures Run(es).Open(u) <==> InService(es, u)
  {
    hide Step, LetsIn, BansUser, Consistent, State.Open;
    if es == [] {
      assert !INIT.Open(u) by { NobodyConnected(u); }
    } else {
      ConnectedIffServed(es[..|es| - 1], u);
      RunConsistent(es[..|es| - 1]);
      StepServes(Run(es[..|es| - 1]), es[|es| - 1], u);
    }
  }

  lemma NobodyConnected(u: UserId)
    ensures u !in INIT.clients && !INIT.Open(u)
  {
  }

  // ---- and who is not matched ----------------------------------------------------------------------------

  lemma NotMatchedWhileBlocked(s: State, e: Event, a: UserId, b: UserId, at: int, look: Snapshot)
    requires Consistent(s.db) && s.redis.PairBlocked(a, b)
    ensures Step(s, e).log != s.log + [Matched(a, b, at, look)]
  {
    StepLogs(s, e);
    hide Step, Consistent, Redis.PairBlocked, BansUser, UnbansUser, Admits;
    assert (s.log + Calls(s, e))[|s.log|..] == Calls(s, e);
    assert (s.log + [Matched(a, b, at, look)])[|s.log|..] == [Matched(a, b, at, look)];
  }

  lemma ClientsAreKnown(s: State, a: UserId, b: UserId)
    requires s.db.SubBlocked(a, b)
    ensures a in s.db.bySub
  {
  }

  /** Whoever connects with a loaded block list is not matched with anybody blocked by then, as
      long as it stays connected and its key does not expire, whatever else happens. */
  lemma BlockedPairIsNotMatched(before: seq<Event>, a: UserId, b: UserId, now: int, after: seq<Event>, e: Event)
    requires var s := Run(before); a !in s.clients && !s.db.IsBanned(a) && s.db.SubBlocked(a, b)
    requires Stays(after, a)
    ensures var t := Run(before + [Connect(a, now, true, Serves)] + after);
      && t.redis.PairBlocked(a, b) && t.redis.PairBlocked(b, a)
      && forall at: int, look: Snapshot ::
           Step(t, e).log != t.log + [Matched(a, b, at, look)] && Step(t, e).log != t.log + [Matched(b, a, at, look)]
  {
    hide Run, Step, Consistent, Stays;
    var es := before + [Connect(a, now, true, Serves)] + after;
    BlockStays(before, a, b, now, after);
    CheckIsDatabaseWhereKeyed(es, a, b);
    CheckIsDatabaseWhereKeyed(es, b, a);
    RunConsistent(es);
    ClientsAreKnown(Run(es), a, b);
    BlocksOfIsSubBlocked(Run(es).db, a, b);
    forall at: int, look: Snapshot
      ensures Step(Run(es), e).log != Run(es).log + [Matched(a, b, at, look)]
      ensures Step(Run(es), e).log != Run(es).log + [Matched(b, a, at, look)]
    {
      NotMatchedWhileBlocked(Run(es), e, a, b, at, look);
      NotMatchedWhileBlocked(Run(es), e, b, a, at, look);
    }
  }
}
