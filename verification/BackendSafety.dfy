/** What every run of the backend's handlers and matchmaker keeps: blocks, bans, sessions,
    wait times and moderation counts. A run is any sequence of events whatever. */
module BackendSafety {
  import opened Ids
  import opened Sequences
  import opened Options
  import opened Accounts
  import opened Store
  import opened MatchCycle
  import opened Database
  import opened Backend

  // ---- what each handler does to the database, seen by sub -------------------------------------

  /** `t'` is a consistent successor of `t` in which exactly `pair`, both ways, is newly
      blocked, exactly `banned` newly banned and exactly `unbanned` newly not. */
  ghost predicate Becomes(t: Tables, t': Tables, pair: set<(UserId, UserId)>, banned: set<UserId>, unbanned: set<UserId>) {
    && Consistent(t')
    && (forall u :: u in t.bySub ==> u in t'.bySub)
    && (forall u, v :: t'.SubBlocked(u, v) <==> t.SubBlocked(u, v) || (u, v) in pair || (v, u) in pair)
    && (forall u :: t'.IsBanned(u) <==> u in banned || (t.IsBanned(u) && u !in unbanned))
  }

  lemma UpsertBecomes(t: Tables, u: UserId)
    requires Consistent(t)
    ensures Becomes(t, t.Upsert(u), {}, {}, {})
  {
    UpsertConsistent(t, u);
    var t' := t.Upsert(u);
    forall v, w ensures t'.SubBlocked(v, w) <==> t.SubBlocked(v, w) {
      if t'.SubBlocked(v, w) {
        var p := (t'.bySub[v], t'.bySub[w]);
        assert p in t.blocks && p.0 in t.users && p.1 in t.users;
      }
    }
  }

  lemma BecomesThenBecomes(t: Tables, t': Tables, t'': Tables, pair: set<(UserId, UserId)>, banned: set<UserId>)
    requires Becomes(t, t', {}, {}, {}) && Becomes(t', t'', pair, banned, {})
    ensures Becomes(t, t'', pair, banned, {})
  {
    hide Consistent;
  }

  lemma LookUpBecomes(t: Tables, u: UserId, v: UserId)
    requires Consistent(t)
    ensures Becomes(t, LookUp(t.Upsert(u), v), {}, {}, {})
  {
    hide Consistent, Becomes;
    UpsertBecomes(t, u);
    assert Consistent(t.Upsert(u)) by { UpsertConsistent(t, u); }
    if v !in t.Upsert(u).bySub {
      UpsertBecomes(t.Upsert(u), v);
      BecomesThenBecomes(t, t.Upsert(u), t.Upsert(u).Upsert(v), {}, {});
    }
  }

  lemma WithBlockBecomes(t: Tables, u: UserId, v: UserId)
    requires Consistent(t) && u in t.bySub && v in t.bySub && u != v
    ensures Becomes(t, t.WithBlock(t.bySub[u], t.bySub[v]), {(u, v)}, {}, {})
  {
  }

  lemma RecordReportBecomes(t: Tables, u: UserId, v: UserId, r: Report)
    requires Consistent(t) && u in t.bySub && v in t.bySub && u != v
    ensures t.Blockable(t.bySub[u], t.bySub[v])
    ensures var (t', banned) := t.RecordReport(t.bySub[u], t.bySub[v], r);
      && Becomes(t, t', {(u, v)}, if banned then {v} else {}, {})
      && banned == Bans(t.AccountOf(t.bySub[v]), r)
      && (banned ==> !t.IsBanned(v))
  {
    hide CountRows, TimesAgainst, Bans, Becomes;
    var a, b := t.bySub[u], t.bySub[v];
    RecordReportOrRefuse(t, a, b, r);
    WithBlockBecomes(t, u, v);
    Recorded(t, a, b, r);
    assert t.users[b].sub == v;
    hide Consistent;
    RecordedBecomes(t, t.WithBlock(a, b), t.RecordReport(a, b, r).0, b, (u, v), t.RecordReport(a, b, r).1);
  }

  /** What a filed report changes besides the block. */
  lemma Recorded(t: Tables, a: Id, b: Id, r: Report)
    requires t.Blockable(a, b)
    ensures var (t', banned) := t.RecordReport(a, b, r);
      && t'.bySub == t.bySub && t'.blocks == t.WithBlock(a, b).blocks && t'.users.Keys == t.users.Keys
      && (forall id :: id in t.users ==> t'.users[id].sub == t.users[id].sub)
      && (forall id :: id in t.users ==>
            t'.users[id].bannedAt.Some? == (t.users[id].bannedAt.Some? || (banned && id == b)))
      && (banned ==> t.users[b].bannedAt.None?)
  {
    hide CountRows;
  }

  lemma RecordedBecomes(t: Tables, blocked: Tables, t': Tables, b: Id, pair: (UserId, UserId), banned: bool)
    requires Becomes(t, blocked, {pair}, {}, {}) && Consistent(t) && Consistent(t')
    requires blocked.bySub == t.bySub && blocked.users == t.users
    requires t'.bySub == t.bySub && t'.blocks == blocked.blocks && t'.users.Keys == t.users.Keys
    requires forall id :: id in t.users ==>
      t'.users[id].bannedAt.Some? == (t.users[id].bannedAt.Some? || (banned && id == b))
    requires b in t.users && b == t.bySub[t.users[b].sub] && t.users[b].sub == pair.1 && t.users[b].sub in t.bySub
    requires banned ==> t.users[b].bannedAt.None?
    ensures Becomes(t, t', {pair}, if banned then {pair.1} else {}, {})
    ensures banned ==> !t.IsBanned(pair.1)
  {
    assert forall x: UserId, y: UserId :: t'.SubBlocked(x, y) == blocked.SubBlocked(x, y);
    forall x: UserId ensures t'.IsBanned(x) <==> (banned && x == pair.1) || t.IsBanned(x) {
      IdsAreUnique(t, x, pair.1);
    }
    hide Consistent;
  }

  lemma IdsAreUnique(t: Tables, x: UserId, y: UserId)
    requires Consistent(t)
    ensures x in t.bySub ==> t.bySub[x] in t.users
    ensures x in t.bySub && y in t.bySub && t.bySub[x] == t.bySub[y] ==> x == y
  {
    hide TimesAgainst;
  }

  lemma BanUserBecomes(t: Tables, id: Id, now: int)
    requires Consistent(t) && id in t.users
    ensures Becomes(t, t.BanUser(id, now), {}, {t.users[id].sub}, {})
    ensures t.IsBanned(t.users[id].sub) <==> t.users[id].bannedAt.Some?
  {
    hide TimesAgainst;
  }

  lemma UnbanUserBecomes(t: Tables, id: Id)
    requires Consistent(t) && id in t.users
    ensures Becomes(t, t.UnbanUser(id), {}, {}, {t.users[id].sub})
    ensures t.IsBanned(t.users[id].sub) <==> t.users[id].bannedAt.Some?
  {
    hide TimesAgainst;
  }

  /** The blocks, bans and unbans that an event brings about. */
  function NewPair(s: State, e: Event): set<(UserId, UserId)> {
    match e
    case FileReport(a, b, _, uploads) => if a != b && uploads then {(a, b)} else {}
    case FileBlock(a, b) => if a != b then {(a, b)} else {}
    case _ => {}
  }

  function NewBans(s: State, e: Event): set<UserId> {
    var log := Step(s, e).log;
    if |log| > |s.log| && log[|log| - 1].Banned? then {log[|log| - 1].user} else {}
  }

  function NewUnbans(s: State, e: Event): set<UserId> {
    var log := Step(s, e).log;
    if |log| > |s.log| && log[|log| - 1].Unbanned? then {log[|log| - 1].user} else {}
  }

  lemma Unchanged(t: Tables)
    requires Consistent(t)
    ensures Becomes(t, t, {}, {}, {})
  {
    hide Consistent;
  }

  lemma ReportBecomes(s: State, e: Event)
    requires Consistent(s.db) && e.FileReport?
    ensures Becomes(s.db, Step(s, e).db, NewPair(s, e), NewBans(s, e), NewUnbans(s, e))
    ensures forall u :: u in NewBans(s, e) ==> !s.db.IsBanned(u)
  {
    if e.reporter == e.reported {
      Unchanged(s.db);
    } else if !e.uploads {
      hide Consistent, Becomes;
      LookUpBecomes(s.db, e.reporter, e.reported);
    } else {
      hide Consistent, Becomes;
      var a, b := e.reporter, e.reported;
      var db := LookUp(s.db.Upsert(a), b);
      LookUpBecomes(s.db, a, b);
      assert Consistent(db) && (s.db.IsBanned(b) <==> db.IsBanned(b)) by { BecomesKeeps(s.db, db); }
      RecordReportBecomes(db, a, b, e.report);
      var (db', banned) := db.RecordReport(db.bySub[a], db.bySub[b], e.report);
      BecomesThenBecomes(s.db, db, db', {(a, b)}, if banned then {b} else {});
    }
  }

  lemma BecomesKeeps(t: Tables, t': Tables)
    requires Becomes(t, t', {}, {}, {})
    ensures Consistent(t') && forall u :: t'.IsBanned(u) <==> t.IsBanned(u)
  {
    hide Consistent;
  }

  lemma LookUpFinds(t: Tables, u: UserId, v: UserId)
    ensures u in LookUp(t.Upsert(u), v).bySub && v in LookUp(t.Upsert(u), v).bySub
  {
  }

  lemma BlockableSubs(t: Tables, u: UserId, v: UserId)
    requires Consistent(t) && u in t.bySub && v in t.bySub && u != v
    ensures t.Blockable(t.bySub[u], t.bySub[v])
  {
    IdsAreUnique(t, u, v);
    IdsAreUnique(t, v, u);
  }

  lemma BlockDoes(s: State, e: Event)
    requires e.FileBlock?
    ensures NewBans(s, e) == {} && NewUnbans(s, e) == {}
    ensures e.blocker == e.blocked ==> Step(s, e).db == s.db && NewPair(s, e) == {}
    ensures e.blocker != e.blocked ==> NewPair(s, e) == {(e.blocker, e.blocked)}
    ensures e.blocker != e.blocked ==>
      var db := LookUp(s.db.Upsert(e.blocker), e.blocked);
      e.blocker in db.bySub && e.blocked in db.bySub
      && var (a, b) := (db.bySub[e.blocker], db.bySub[e.blocked]);
        Step(s, e).db == if db.Blockable(a, b) then db.WithBlock(a, b) else db
  {
    hide Mirror;
    LookUpFinds(s.db, e.blocker, e.blocked);
    hide LookUp;
  }

  lemma BlockBecomes(s: State, e: Event)
    requires Consistent(s.db) && e.FileBlock?
    ensures Becomes(s.db, Step(s, e).db, NewPair(s, e), NewBans(s, e), NewUnbans(s, e))
  {
    hide Becomes, Consistent, Step, NewBans, NewUnbans, LookUp;
    BlockDoes(s, e);
    if e.blocker == e.blocked {
      Unchanged(s.db);
    } else {
      var a, b := e.blocker, e.blocked;
      var db := LookUp(s.db.Upsert(a), b);
      LookUpBecomes(s.db, a, b);
      BecomesKeeps(s.db, db);
      LookUpFinds(s.db, a, b);
      BlockableSubs(db, a, b);
      WithBlockBecomes(db, a, b);
      BecomesThenBecomes(s.db, db, db.WithBlock(db.bySub[a], db.bySub[b]), {(a, b)}, {});
    }
  }

  /** Every step's effect on the database: only reports and blocks block, exactly the logged
      users are banned or unbanned, and only if they were not, or were, before. */
  lemma StepBecomes(s: State, e: Event)
    requires Consistent(s.db)
    ensures Becomes(s.db, Step(s, e).db, NewPair(s, e), NewBans(s, e), NewUnbans(s, e))
    ensures forall u :: u in NewBans(s, e) ==> !s.db.IsBanned(u)
    ensures forall u :: u in NewUnbans(s, e) ==> s.db.IsBanned(u)
  {
    hide Consistent, Becomes;
    Unchanged(s.db);
    if e.FileReport? {
      ReportBecomes(s, e);
    } else if e.FileBlock? {
      BlockBecomes(s, e);
    } else if e.Connect? {
      UpsertBecomes(s.db, e.user);
    } else if e.AdminBan? && e.id in s.db.users {
      BanUserBecomes(s.db, e.id, e.now);
    } else if e.AdminUnban? && e.id in s.db.users {
      UnbanUserBecomes(s.db, e.id);
    }
  }

  lemma {:induction false} RunConsistent(es: seq<Event>)
    ensures Consistent(Run(es).db)
  {
    hide Step, Becomes, Consistent;
    if es == [] {
      NoRowsConsistent();
    } else {
      var s, e := Run(es[..|es| - 1]), es[|es| - 1];
      RunConsistent(es[..|es| - 1]);
      StepBecomes(s, e);
      assert Consistent(Step(s, e).db) by { BecomesConsistent(s.db, Step(s, e).db, NewPair(s, e), NewBans(s, e), NewUnbans(s, e)); }
    }
  }

  lemma NoRowsConsistent()
    ensures Consistent(NO_ROWS)
  {
  }

  lemma BecomesConsistent(t: Tables, t': Tables, pair: set<(UserId, UserId)>, banned: set<UserId>, unbanned: set<UserId>)
    requires Becomes(t, t', pair, banned, unbanned)
    ensures Consistent(t')
  {
    hide Consistent;
  }

  // ---- blocks --------------------------------------------------------------------------------

  /** Whoever has a block key has exactly their blocks of the database in it. */
  ghost predicate KeysMirrorDb(blocks: map<UserId, set<UserId>>, t: Tables) {
    forall u :: u in blocks ==> u in t.bySub && forall v :: v in blocks[u] <==> t.SubBlocked(u, v)
  }

  lemma DroppedKeysMirror(t: Tables, t': Tables, banned: set<UserId>, unbanned: set<UserId>, r: Redis, r': Redis)
    requires Becomes(t, t', {}, banned, unbanned) && KeysMirrorDb(r.blocks, t)
    requires forall u :: u in r'.blocks ==> u in r.blocks && r'.blocks[u] == r.blocks[u]
    ensures KeysMirrorDb(r'.blocks, t')
  {
    hide Consistent;
  }

  lemma HydratedKeysMirror(t: Tables, r: Redis, u: UserId)
    requires Consistent(t) && KeysMirrorDb(r.blocks, t) && u in t.bySub
    ensures KeysMirrorDb(r.Hydrate(u, t.BlocksOf(t.bySub[u])).blocks, t)
  {
    forall v ensures v in t.BlocksOf(t.bySub[u]) <==> t.SubBlocked(u, v) { BlocksOfIsSubBlocked(t, u, v); }
    hide Consistent;
  }

  lemma AddedBlocksMirror(t: Tables, t': Tables, a: UserId, b: UserId, banned: set<UserId>, r: Redis)
    requires Becomes(t, t', {(a, b)}, banned, {}) && KeysMirrorDb(r.blocks, t) && a != b
    ensures KeysMirrorDb(Mirror(r, a, b).blocks, t')
  {
    hide Consistent;
    var blocks' := Mirror(r, a, b).blocks;
    forall u | u in blocks' ensures u in t'.bySub && forall v :: v in blocks'[u] <==> t'.SubBlocked(u, v) {
      assert u in r.blocks;
      forall v ensures v in blocks'[u] <==> t'.SubBlocked(u, v) {
        assert v in blocks'[u] <==> v in r.blocks[u] || (u, v) == (a, b) || (v, u) == (a, b);
      }
    }
  }

  lemma MirrorHappens(s: State, e: Event)
    requires Consistent(s.db)
    ensures e.FileReport? && e.reporter != e.reported && e.uploads ==>
      Step(s, e).redis == Mirror(s.redis, e.reporter, e.reported)
    ensures e.FileBlock? && e.blocker != e.blocked ==>
      Step(s, e).redis == Mirror(s.redis, e.blocker, e.blocked)
  {
    hide Mirror, Consistent;
    if e.FileReport? && e.reporter != e.reported && e.uploads {
      var db := LookUp(s.db.Upsert(e.reporter), e.reported);
      LookUpBecomes(s.db, e.reporter, e.reported);
      RecordReportBecomes(db, e.reporter, e.reported, e.report);
    }
    if e.FileBlock? && e.blocker != e.blocked {
      var db := LookUp(s.db.Upsert(e.blocker), e.blocked);
      LookUpBecomes(s.db, e.blocker, e.blocked);
      RecordReportBecomes(db, e.blocker, e.blocked, Report(0, 0));
    }
  }

  lemma ConnectMirrors(s: State, e: Event)
    requires Consistent(s.db) && KeysMirrorDb(s.redis.blocks, s.db) && e.Connect?
    ensures KeysMirrorDb(Step(s, e).redis.blocks, Step(s, e).db)
  {
    hide Consistent, Becomes, KeysMirrorDb, Step;
    var db := s.db.Upsert(e.user);
    assert e.user in db.bySub;
    ConnectBlocks(s, e);
    Unchanged(s.db);
    UpsertBecomes(s.db, e.user);
    BecomesConsistent(s.db, db, {}, {}, {});
    Unchanged(db);
    DroppedKeysMirror(s.db, s.db, {}, {}, s.redis, s.redis);
    DroppedKeysMirror(s.db, db, {}, {}, s.redis, s.redis);
    HydratedKeysMirror(db, s.redis, e.user);
    var hydrated := s.redis.Hydrate(e.user, db.BlocksOf(db.bySub[e.user]));
    DroppedKeysMirror(db, db, {}, {}, s.redis, s.redis.ClearBlocks(e.user));
    DroppedKeysMirror(db, db, {}, {}, hydrated, hydrated.ClearBlocks(e.user));
    SameBlocksMirror(s, e, hydrated);
  }

  lemma ConnectBlocks(s: State, e: Event)
    requires e.Connect? && e.user in s.db.Upsert(e.user).bySub
    ensures var db, s' := s.db.Upsert(e.user), Step(s, e);
      var hydrated := s.redis.Hydrate(e.user, db.BlocksOf(db.bySub[e.user]));
      || (s'.db == s.db && s'.redis.blocks == s.redis.blocks)
      || (s'.db == db && s'.redis.blocks in {s.redis.blocks, s.redis.ClearBlocks(e.user).blocks,
                                             hydrated.blocks, hydrated.ClearBlocks(e.user).blocks})
  {
    hide Keep;
  }

  lemma SameBlocksMirror(s: State, e: Event, hydrated: Redis)
    requires e.Connect? && KeysMirrorDb(s.redis.blocks, s.db)
    requires var db, s' := s.db.Upsert(e.user), Step(s, e);
      && KeysMirrorDb(s.redis.blocks, db) && KeysMirrorDb(s.redis.ClearBlocks(e.user).blocks, db)
      && KeysMirrorDb(hydrated.blocks, db) && KeysMirrorDb(hydrated.ClearBlocks(e.user).blocks, db)
      && ((s'.db == s.db && s'.redis.blocks == s.redis.blocks)
          || (s'.db == db && s'.redis.blocks in {s.redis.blocks, s.redis.ClearBlocks(e.user).blocks,
                                                 hydrated.blocks, hydrated.ClearBlocks(e.user).blocks}))
    ensures KeysMirrorDb(Step(s, e).redis.blocks, Step(s, e).db)
  {
    hide *;
  }

  lemma StepMirrors(s: State, e: Event)
    requires Consistent(s.db) && KeysMirrorDb(s.redis.blocks, s.db)
    ensures KeysMirrorDb(Step(s, e).redis.blocks, Step(s, e).db)
  {
    hide Consistent, Becomes, KeysMirrorDb, Mirror, Step;
    var s' := Step(s, e);
    StepBecomes(s, e);
    if e.Connect? {
      ConnectMirrors(s, e);
    } else if NewPair(s, e) != {} {
      MirrorHappens(s, e);
      var a, b := if e.FileReport? then e.reporter else e.blocker, if e.FileReport? then e.reported else e.blocked;
      NoUnbans(s, e);
      AddedBlocksMirror(s.db, s'.db, a, b, NewBans(s, e), s.redis);
    } else {
      OtherStepsDropKeys(s, e);
      DroppedKeysMirror(s.db, s'.db, NewBans(s, e), NewUnbans(s, e), s.redis, s'.redis);
    }
  }

  lemma NoUnbans(s: State, e: Event)
    requires e.FileReport? || e.FileBlock?
    ensures NewUnbans(s, e) == {}
  {
  }

  lemma OtherStepsDropKeys(s: State, e: Event)
    requires !e.Connect? && NewPair(s, e) == {}
    ensures forall u :: u in Step(s, e).redis.blocks ==> u in s.redis.blocks && Step(s, e).redis.blocks[u] == s.redis.blocks[u]
  {
    hide Waits;
  }

  lemma {:induction false} RunMirrors(es: seq<Event>)
    ensures KeysMirrorDb(Run(es).redis.blocks, Run(es).db)
  {
    hide Step, KeysMirrorDb;
    if es == [] {
      assert KeysMirrorDb(INIT.redis.blocks, INIT.db) by { InitMirrors(); }
    } else {
      RunMirrors(es[..|es| - 1]);
      RunConsistent(es[..|es| - 1]);
      StepMirrors(Run(es[..|es| - 1]), es[|es| - 1]);
    }
  }

  lemma InitMirrors()
    ensures KeysMirrorDb(INIT.redis.blocks, INIT.db)
  {
  }

  /** Cache coherence over whole runs: whenever a user's block key exists it is exactly the
      user's block list in the database, and the block relation there is symmetric and
      irreflexive. */
  lemma BlockKeysEqualDatabase(es: seq<Event>, u: UserId, v: UserId)
    ensures var s := Run(es);
      && (u in s.redis.blocks ==> u in s.db.bySub && s.redis.blocks[u] == s.db.BlocksOf(s.db.bySub[u]))
      && (s.db.SubBlocked(u, v) ==> s.db.SubBlocked(v, u) && u != v)
  {
    hide Run;
    var s := Run(es);
    RunMirrors(es);
    RunConsistent(es);
    if u in s.redis.blocks {
      forall w ensures w in s.redis.blocks[u] <==> w in s.db.BlocksOf(s.db.bySub[u]) { BlocksOfIsSubBlocked(s.db, u, w); }
    }
    if s.db.SubBlocked(u, v) { BlocksOfIsSubBlocked(s.db, u, v); }
  }

  /** The matchmaker's check, exactly: in every reachable state it rejects a pair iff the
      pair is blocked in the database and at least one of the two has a block key. */
  lemma CheckIsDatabaseWhereKeyed(es: seq<Event>, a: UserId, b: UserId)
    ensures var s := Run(es);
      s.redis.PairBlocked(a, b) <==> s.db.SubBlocked(a, b) && (a in s.redis.blocks || b in s.redis.blocks)
  {
    hide Run;
    RunMirrors(es);
    BlockKeysEqualDatabase(es, a, b);
    BlockKeysEqualDatabase(es, b, a);
  }

  /** Both sides of the condition matter: two users who connect without any blocks have no
      keys, AddBlock gives them none, and so they are matched right after one blocks the other. */
  lemma BlockIgnoredWithoutKeys(a: UserId, b: UserId)
    requires a != b
    ensures var s := Run([Connect(a, 1, true, Serves), Connect(b, 2, true, Serves), FileBlock(a, b)]);
      && s.db.SubBlocked(a, b) && s.redis.queue == [a, b] && !s.redis.PairBlocked(a, b)
      && TurnStep(s, 3, false).redis.sessions == map[a := b, b := a]
  {
    hide Run, Waits;
    var s2 := TwoConnect(a, b);
    hide ConnectStep;
    var s3 := BlockStep(s2, a, b);
    RunOfThree(Connect(a, 1, true, Serves), Connect(b, 2, true, Serves), FileBlock(a, b));
    assert s3.db.SubBlocked(a, b);
  }

  lemma TwoConnect(a: UserId, b: UserId) returns (s: State)
    requires a != b
    ensures s == ConnectStep(ConnectStep(INIT, a, 1, true, Serves), b, 2, true, Serves)
    ensures s.db == Tables(map[1 := UserRow(a, 0, None), 2 := UserRow(b, 0, None)], map[a := 1, b := 2], 3, [], {})
    ensures s.redis.blocks == map[] && s.redis.queue == [a, b] && s.redis.sessions == map[]
    ensures s.clients == map[a := true, b := true]
  {
    var s1 := ConnectStep(INIT, a, 1, true, Serves);
    assert s1.db == Tables(map[1 := UserRow(a, 0, None)], map[a := 1], 2, [], {});
    assert s1.redis.blocks == map[] && s1.redis.queue == [a] && s1.redis.sessions == map[] && s1.clients == map[a := true];
    s := ConnectStep(s1, b, 2, true, Serves);
  }

  lemma RunOfThree(e1: Event, e2: Event, e3: Event)
    ensures Run([e1, e2, e3]) == Step(Step(Step(INIT, e1), e2), e3)
  {
    hide Step;
    RunSnoc([], e1);
    RunSnoc([e1], e2);
    RunSnoc([e1, e2], e3);
    assert [] + [e1] == [e1] && [e1] + [e2] == [e1, e2] && [e1, e2] + [e3] == [e1, e2, e3];
  }

  lemma RunSnoc(es: seq<Event>, e: Event)
    ensures Run(es + [e]) == Step(Run(es), e)
  {
    hide Step;
    assert (es + [e])[..|es|] == es;
  }

  // ---- where each user stands, read off the history ---------------------------------------------

  /** What the history says of a user. */
  datatype Standing = Away | Waiting(since: int) | Stranded(since: int) | PairedWith(peer: UserId)

  function After(st: Standing, e: Entry, u: UserId): Standing {
    match e
    case Joined(v, at) => if v == u then Waiting(at) else st
    case Left(v) => if v == u then Away else st
    case Matched(a, b, _, _) => if u == b then PairedWith(a) else if u == a then PairedWith(b) else st
    case Lost(a, b) => if (u == a || u == b) && st.Waiting? then Stranded(st.since) else st
    case _ => st
  }

  function StandingOf(log: seq<Entry>, u: UserId): Standing {
    if log == [] then Away else After(StandingOf(log[..|log| - 1], u), log[|log| - 1], u)
  }

  lemma StandingSnoc(log: seq<Entry>, e: Entry, u: UserId)
    ensures StandingOf(log + [e], u) == After(StandingOf(log, u), e, u)
  {
    assert (log + [e])[..|log|] == log;
  }

  /** Queue membership, wait time, session and presence of `u` are as the history says. */
  ghost predicate Reflects(s: State, u: UserId) {
    var st := StandingOf(s.log, u);
    && (u in s.clients <==> !st.Away?)
    && (u in s.redis.queue <==> st.Waiting?)
    && (u in s.redis.enqueuedAt <==> st.Waiting? || st.Stranded?)
    && (u in s.redis.enqueuedAt ==> s.redis.enqueuedAt[u] == st.since)
    && (u in s.redis.sessions <==> st.PairedWith?)
    && (u in s.redis.sessions ==> s.redis.sessions[u] == st.peer)
  }

  ghost predicate Faithful(s: State) {
    NoDuplicates(s.redis.queue) && forall u :: Reflects(s, u)
  }

  /** The latencies that the history calls for: match time minus the time of the last Add. */
  function WaitOf(st: Standing, at: int): seq<int> {
    if (st.Waiting? || st.Stranded?) && at - st.since >= 0 then [at - st.since] else []
  }

  function WaitsOf(log: seq<Entry>): seq<int> {
    if log == [] then [] else
      var init, e := log[..|log| - 1], log[|log| - 1];
      match e
      case Matched(a, b, at, _) => WaitsOf(init) + WaitOf(StandingOf(init, a), at) + WaitOf(StandingOf(init, b), at)
      case _ => WaitsOf(init)
  }

  /** Nothing changes but block sets and, possibly, one ban or unban in the history. */
  ghost predicate Quiet(s: State, s': State) {
    && s'.clients.Keys == s.clients.Keys
    && s'.redis.(blocks := s.redis.blocks) == s.redis
    && (s'.log == s.log
        || exists e: Entry :: (e.Banned? || e.Unbanned?) && s'.log == s.log + [e])
  }

  lemma QuietStepFaithful(s: State, s': State)
    requires Faithful(s) && Quiet(s, s')
    ensures Faithful(s')
  {
    hide StandingOf;
    forall u ensures Reflects(s', u) {
      assert Reflects(s, u);
      if s'.log != s.log {
        var e: Entry :| (e.Banned? || e.Unbanned?) && s'.log == s.log + [e];
        StandingSnoc(s.log, e, u);
      }
    }
  }

  lemma JoinFaithful(s: State, s': State, v: UserId, now: int)
    requires Faithful(s) && v !in s.clients
    requires s'.log == s.log + [Joined(v, now)] && s'.clients.Keys == s.clients.Keys + {v}
    requires s'.redis.queue == s.redis.queue + [v] && s'.redis.enqueuedAt == s.redis.enqueuedAt[v := now]
    requires s'.redis.sessions == s.redis.sessions
    ensures Faithful(s')
  {
    hide StandingOf;
    assert Reflects(s, v);
    forall u ensures Reflects(s', u) {
      assert Reflects(s, u);
      StandingSnoc(s.log, Joined(v, now), u);
    }
    forall u ensures multiset(s'.redis.queue)[u] <= 1 {
      assert multiset(s.redis.queue)[u] <= 1;
      assert multiset(s.redis.queue)[v] == 0;
    }
  }

  lemma LeaveFaithful(s: State, s': State, v: UserId)
    requires Faithful(s)
    requires s'.log == s.log + [Left(v)] && s'.clients.Keys == s.clients.Keys - {v}
    requires s'.redis.queue == Keep(s.redis.queue, Other(v)) && s'.redis.enqueuedAt == s.redis.enqueuedAt - {v}
    requires s'.redis.sessions == s.redis.sessions - {v}
    ensures Faithful(s')
  {
    hide StandingOf, Keep;
    KeepMembers(s.redis.queue, Other(v));
    KeepNoDuplicates(s.redis.queue, Other(v));
    forall u ensures Reflects(s', u) {
      assert Reflects(s, u);
      StandingSnoc(s.log, Left(v), u);
    }
  }

  lemma HeadOfQueue(q: seq<UserId>, u: UserId)
    requires |q| >= 2 && NoDuplicates(q)
    ensures q[0] != q[1] && NoDuplicates(q[2..]) && NoDuplicates(q[2..] + [q[0], q[1]])
    ensures u in q[2..] <==> u in q && u != q[0] && u != q[1]
    ensures u in q[2..] + [q[0], q[1]] <==> u in q
  {
    PopTwoSplits(q);
    NoDuplicatesAt(q, 0, 1);
    assert multiset(q[2..] + [q[0], q[1]]) == multiset(q);
    assert multiset(q)[u] == multiset{q[0], q[1]}[u] + multiset(q[2..])[u];
    assert multiset(q)[u] <= 1;
    forall x ensures multiset(q[2..])[x] <= 1 { assert multiset(q)[x] <= 1; }
  }

  lemma MatchFaithful(s: State, s': State, a: UserId, b: UserId, now: int, look: Snapshot)
    requires Faithful(s) && |s.redis.queue| >= 2 && a == s.redis.queue[0] && b == s.redis.queue[1]
    requires s'.log == s.log + [Matched(a, b, now, look)] && s'.clients == s.clients
    requires s'.redis.queue == s.redis.queue[2..] && s'.redis.enqueuedAt == s.redis.enqueuedAt - {a, b}
    requires s'.redis.sessions == s.redis.sessions[a := b][b := a]
    ensures Faithful(s')
  {
    hide StandingOf;
    HeadOfQueue(s.redis.queue, a);
    assert Reflects(s, a) && Reflects(s, b);
    forall u ensures Reflects(s', u) {
      assert Reflects(s, u);
      HeadOfQueue(s.redis.queue, u);
      StandingSnoc(s.log, Matched(a, b, now, look), u);
    }
  }

  lemma LossFaithful(s: State, s': State, a: UserId, b: UserId)
    requires Faithful(s) && |s.redis.queue| >= 2 && a == s.redis.queue[0] && b == s.redis.queue[1]
    requires s'.log == s.log + [Lost(a, b)] && s'.clients == s.clients
    requires s'.redis == s.redis.(queue := s.redis.queue[2..])
    ensures Faithful(s')
  {
    hide StandingOf;
    HeadOfQueue(s.redis.queue, a);
    assert Reflects(s, a) && Reflects(s, b);
    forall u ensures Reflects(s', u) {
      assert Reflects(s, u);
      HeadOfQueue(s.redis.queue, u);
      StandingSnoc(s.log, Lost(a, b), u);
    }
  }

  lemma RejectionFaithful(s: State, s': State)
    requires Faithful(s) && |s.redis.queue| >= 2
    requires s'.log == s.log && s'.clients == s.clients
    requires s'.redis == s.redis.PopPair().Requeue(s.redis.queue[0], s.redis.queue[1])
    ensures Faithful(s')
  {
    hide StandingOf;
    HeadOfQueue(s.redis.queue, s.redis.queue[0]);
    forall u ensures Reflects(s', u) {
      assert Reflects(s, u);
      HeadOfQueue(s.redis.queue, u);
    }
  }

  lemma TurnFaithful(s: State, now: int, fails: bool)
    requires Faithful(s)
    ensures Faithful(TurnStep(s, now, fails))
  {
    hide Faithful, Waits;
    var s', q := TurnStep(s, now, fails), s.redis.queue;
    if |q| >= 2 {
      if !s.redis.PairBlocked(q[0], q[1]) {
        MatchFaithful(s, s', q[0], q[1], now, s.Look(q[0], q[1]));
      } else if fails {
        LossFaithful(s, s', q[0], q[1]);
      } else {
        RejectionFaithful(s, s');
      }
    }
  }

  lemma StepFaithful(s: State, e: Event)
    requires Faithful(s)
    ensures Faithful(Step(s, e))
  {
    hide Faithful, Keep;
    match e
    case Connect(u, now, loads, attempt) =>
      if u !in s.clients { ConnectFaithful(s, u, now, loads, attempt); }
    case Disconnect(u) =>
      if u in s.clients { LeaveFaithful(s, DisconnectStep(s, u), u); }
    case Turn(now, fails) =>
      TurnFaithful(s, now, fails);
    case _ =>
      QuietEvent(s, e);
      QuietStepFaithful(s, Step(s, e));
  }

  lemma ConnectFaithful(s: State, u: UserId, now: int, loads: bool, attempt: Attempt)
    requires Faithful(s) && u !in s.clients
    ensures Faithful(ConnectEffect(s, u, now, loads, attempt))
  {
    hide Faithful, Keep;
    var s' := ConnectEffect(s, u, now, loads, attempt);
    if attempt in {UpsertFails, BanCheckFails, UpgradeFails} || s.db.Upsert(u).IsBanned(u) {
      QuietStepFaithful(s, s');
    } else if attempt.Serves? {
      JoinFaithful(s, s', u, now);
    } else {
      LeaveFaithful(s, s', u);
    }
  }

  lemma MirrorFrame(r: Redis, a: UserId, b: UserId)
    ensures Mirror(r, a, b).(blocks := r.blocks) == r
  {
  }

  lemma ReportIsQuiet(s: State, a: UserId, b: UserId, r: Report, uploads: bool)
    ensures Quiet(s, ReportStep(s, a, b, r, uploads))
  {
    hide Mirror, LookUp;
    MirrorFrame(s.redis, a, b);
  }

  lemma QuietEvent(s: State, e: Event)
    requires !e.Connect? && !e.Disconnect? && !e.Turn?
    ensures Quiet(s, Step(s, e))
  {
    hide Mirror, LookUp, ReportStep;
    if e.FileReport? { ReportIsQuiet(s, e.reporter, e.reported, e.report, e.uploads); }
    if e.FileBlock? { MirrorFrame(s.redis, e.blocker, e.blocked); }
  }

  lemma {:induction false} RunFaithful(es: seq<Event>)
    ensures Faithful(Run(es))
  {
    hide Step, Faithful;
    if es == [] {
      InitFaithful();
    } else {
      RunFaithful(es[..|es| - 1]);
      StepFaithful(Run(es[..|es| - 1]), es[|es| - 1]);
    }
  }

  lemma InitFaithful()
    ensures Faithful(INIT)
  {
  }

  /** Over every run, with one connection per user, the shared state is a function of the
      history: the queue is duplicate-free and holds exactly those who joined and have since
      neither matched, left nor been lost; a wait time is kept for exactly those and the lost,
      and it is the time of their last Add, however often they were rejected; a session is kept
      for exactly those whose last event is a match, and it names the partner of that match. */
  lemma StateReflectsHistory(es: seq<Event>, u: UserId)
    ensures Reflects(Run(es), u) && NoDuplicates(Run(es).redis.queue)
  {
    hide Run, Reflects;
    RunFaithful(es);
  }

  /** One connection per user is needed for that: `Add` does not de-duplicate, so a second
      connection queues the user twice and the next turn pairs the user with itself. */
  lemma SecondConnectionMatchesItself(u: UserId, now: int)
    ensures var once := ConnectEffect(INIT, u, 1, true, Serves);
      var twice := ConnectEffect(once, u, 2, true, Serves);
      && u in once.clients && twice.redis.queue == [u, u]
      && TurnStep(twice, now, false).redis.sessions == map[u := u]
  {
    hide ConnectEffect, TurnStep;
    var once := ConnectEffect(INIT, u, 1, true, Serves);
    FirstConnection(u);
    SecondConnection(once, u);
    FirstTurn(ConnectEffect(once, u, 2, true, Serves), u, u, now);
  }

  lemma FirstConnection(u: UserId)
    ensures var once := ConnectEffect(INIT, u, 1, true, Serves);
      && once.db == Tables(map[1 := UserRow(u, 0, None)], map[u := 1], 2, [], {})
      && once.redis.blocks == map[] && once.redis.queue == [u] && once.redis.sessions == map[]
      && once.clients == map[u := true]
  {
  }

  lemma SecondConnection(once: State, u: UserId)
    requires once.db == Tables(map[1 := UserRow(u, 0, None)], map[u := 1], 2, [], {})
    requires once.redis.blocks == map[] && once.redis.queue == [u] && once.redis.sessions == map[]
    ensures var twice := ConnectEffect(once, u, 2, true, Serves);
      twice.redis.blocks == map[] && twice.redis.queue == [u, u] && twice.redis.sessions == map[]
  {
  }

  /** The first turn after two users, or one twice, have connected without any block keys. */
  lemma FirstTurn(s: State, a: UserId, b: UserId, now: int)
    requires s.redis.blocks == map[] && s.redis.queue == [a, b] && s.redis.sessions == map[]
    ensures TurnStep(s, now, false).redis.sessions == map[a := b][b := a]
  {
    hide Waits;
  }

  // ---- recorded waits -------------------------------------------------------------------------

  lemma WaitsOfSnoc(log: seq<Entry>, e: Entry)
    ensures WaitsOf(log + [e]) == WaitsOf(log) +
      (if e.Matched? then WaitOf(StandingOf(log, e.first), e.at) + WaitOf(StandingOf(log, e.second), e.at) else [])
  {
    assert (log + [e])[..|log|] == log;
  }

  lemma CommittedWaits(r: Redis, a: UserId, b: UserId, now: int)
    ensures r.Commit(a, b, now).latencies == r.latencies
      + (if a in r.enqueuedAt && now - r.enqueuedAt[a] >= 0 then [now - r.enqueuedAt[a]] else [])
      + (if b in r.enqueuedAt && now - r.enqueuedAt[b] >= 0 then [now - r.enqueuedAt[b]] else [])
  {
    assert [a, b][..1] == [a] && [a][..0] == [];
    var init := if a in r.enqueuedAt && now - r.enqueuedAt[a] >= 0 then [now - r.enqueuedAt[a]] else [];
    assert Waits(r.enqueuedAt, [a], now) == init;
  }

  lemma TurnWaits(s: State, now: int, fails: bool)
    requires Faithful(s) && s.redis.latencies == WaitsOf(s.log)
    ensures TurnStep(s, now, fails).redis.latencies == WaitsOf(TurnStep(s, now, fails).log)
  {
    hide StandingOf, WaitsOf, Waits, TurnStep, Faithful;
    TurnEffect(s, now, fails);
    var s', q := TurnStep(s, now, fails), s.redis.queue;
    if s'.log != s.log {
      WaitsOfSnoc(s.log, s'.log[|s.log|]);
      if s'.log[|s.log|].Matched? {
        WaitsAsReflected(s, q[0], now);
        WaitsAsReflected(s, q[1], now);
        CommittedWaits(s.redis.PopPair(), q[0], q[1], now);
      }
    }
  }

  lemma TurnEffect(s: State, now: int, fails: bool)
    ensures var s', q := TurnStep(s, now, fails), s.redis.queue;
      || (s'.log == s.log && s'.redis.latencies == s.redis.latencies)
      || (|q| >= 2 && s'.log == s.log + [Entry.Lost(q[0], q[1])] && s'.redis.latencies == s.redis.latencies)
      || (|q| >= 2 && s'.log == s.log + [Matched(q[0], q[1], now, s.Look(q[0], q[1]))]
          && s'.redis == s.redis.PopPair().Commit(q[0], q[1], now))
  {
    hide Waits;
  }

  lemma WaitsAsReflected(s: State, u: UserId, now: int)
    requires Faithful(s)
    ensures WaitOf(StandingOf(s.log, u), now)
         == if u in s.redis.enqueuedAt && now - s.redis.enqueuedAt[u] >= 0 then [now - s.redis.enqueuedAt[u]] else []
  {
    hide StandingOf;
    assert Reflects(s, u);
  }

  lemma QuietWaits(s: State, s': State)
    requires Quiet(s, s') && s.redis.latencies == WaitsOf(s.log)
    ensures s'.redis.latencies == WaitsOf(s'.log)
  {
    hide WaitsOf;
    if s'.log != s.log {
      var e: Entry :| (e.Banned? || e.Unbanned?) && s'.log == s.log + [e];
      WaitsOfSnoc(s.log, e);
    }
  }

  lemma StepWaits(s: State, e: Event)
    requires Faithful(s) && s.redis.latencies == WaitsOf(s.log)
    ensures Step(s, e).redis.latencies == WaitsOf(Step(s, e).log)
  {
    hide Faithful, WaitsOf, Keep, Quiet;
    match e
    case Connect(u, now, _, _) => WaitsOfSnoc(s.log, Joined(u, now)); WaitsOfSnoc(s.log, Left(u));
    case Disconnect(u) => WaitsOfSnoc(s.log, Left(u));
    case Turn(now, fails) => TurnWaits(s, now, fails);
    case _ =>
      QuietEvent(s, e);
      QuietWaits(s, Step(s, e));
  }

  /** The histogram holds, for every match of the history and in its order, match time minus
      the time of each side's own Add: rejections and re-queues leave no trace in it. */
  lemma {:induction false} LatenciesReflectHistory(es: seq<Event>)
    ensures Run(es).redis.latencies == WaitsOf(Run(es).log)
  {
    hide Step, Faithful;
    if es != [] {
      LatenciesReflectHistory(es[..|es| - 1]);
      RunFaithful(es[..|es| - 1]);
      StepWaits(Run(es[..|es| - 1]), es[|es| - 1]);
    }
  }

  // ---- bans -------------------------------------------------------------------------------------

  /** No banned user has an open connection. */
  ghost predicate BannedAreShut(s: State) {
    forall u :: s.Open(u) ==> !s.db.IsBanned(u)
  }

  lemma StepShuts(s: State, e: Event)
    requires Consistent(s.db) && BannedAreShut(s)
    ensures BannedAreShut(Step(s, e))
  {
    hide Consistent, Step, NewBans;
    StepBecomes(s, e);
    forall u | Step(s, e).Open(u) ensures !Step(s, e).db.IsBanned(u) {
      OpenAfter(s, e, u);
    }
  }

  /** A connection is open after a step if the user may connect, or was and is not just banned. */
  lemma OpenAfter(s: State, e: Event, u: UserId)
    requires Step(s, e).Open(u)
    ensures (s.Open(u) && u !in NewBans(s, e)) || !Step(s, e).db.IsBanned(u)
  {
    hide LookUp, Mirror, Round, Keep;
    if e.Connect? {
      ConnectOpens(s, e, u);
      hide *;
    }
  }

  lemma ConnectOpens(s: State, e: Event, u: UserId)
    requires e.Connect? && Step(s, e).Open(u)
    ensures s.Open(u) || !Step(s, e).db.IsBanned(u)
    ensures NewBans(s, e) == {}
  {
    hide Keep;
  }

  lemma {:induction false} RunShuts(es: seq<Event>)
    ensures BannedAreShut(Run(es))
  {
    hide Step, BannedAreShut;
    if es == [] {
      assert BannedAreShut(INIT) by { InitShuts(); }
    } else {
      RunShuts(es[..|es| - 1]);
      RunConsistent(es[..|es| - 1]);
      StepShuts(Run(es[..|es| - 1]), es[|es| - 1]);
    }
  }

  lemma InitShuts()
    ensures BannedAreShut(INIT)
  {
  }

  /** On one pod, with atomic handlers: a banned user has no open connection in any reachable
      state, and is in `clients` or in the queue only while the cleanup of a severed
      connection is pending. */
  lemma BannedUsersAreOut(es: seq<Event>, u: UserId)
    requires Run(es).db.IsBanned(u)
    ensures var s := Run(es);
      && !s.Open(u)
      && (u in s.clients ==> !s.clients[u])
      && (u in s.redis.queue ==> u in s.clients && !s.clients[u])
  {
    hide Run, StandingOf;
    RunShuts(es);
    StateReflectsHistory(es, u);
  }

  /** Hence a ban that changes nothing has nobody to disconnect: closing the connection only
      when the ban changed state, as the handlers do, leaves no banned user connected. */
  lemma UnchangedBanHasNobodyToDisconnect(es: seq<Event>, id: Id)
    requires id in Run(es).db.users && Run(es).db.users[id].bannedAt.Some?
    ensures !Run(es).Open(Run(es).db.users[id].sub)
  {
    hide Run;
    RunConsistent(es);
    RunShuts(es);
  }

  /** Every match of a run: two different users; not blocked in the database unless neither
      had a block key; and nobody banned unless their connection was already severed. */
  predicate Sound(e: Entry) {
    e.Matched? ==>
      && e.first != e.second
      && (e.before.dbBlocked ==> !e.before.firstHasKey && !e.before.secondHasKey)
      && (e.before.firstBanned ==> !e.before.firstOpen)
      && (e.before.secondBanned ==> !e.before.secondOpen)
  }

  lemma StepSound(s: State, e: Event, i: nat)
    requires Faithful(s) && BannedAreShut(s) && KeysMirrorDb(s.redis.blocks, s.db) && Consistent(s.db)
    requires |s.log| <= i < |Step(s, e).log|
    ensures i == |s.log| && Sound(Step(s, e).log[i])
  {
    if e.Turn? {
      hide Consistent, StandingOf, Round;
      var a, b := s.redis.queue[0], s.redis.queue[1];
      NoDuplicatesAt(s.redis.queue, 0, 1);
      if s.db.SubBlocked(a, b) {
        BlocksOfIsSubBlocked(s.db, a, b);
      }
    } else {
      hide Consistent, Faithful, BannedAreShut, KeysMirrorDb, Mirror, LookUp, Keep;
    }
  }

  lemma LogGrows(s: State, e: Event)
    ensures s.log <= Step(s, e).log
  {
    hide Mirror, LookUp, Keep, Round;
  }

  lemma {:induction false} MatchesAreSound(es: seq<Event>, i: nat)
    requires i < |Run(es).log|
    ensures Sound(Run(es).log[i])
  {
    hide Step, Sound;
    if es != [] {
      var init, e := es[..|es| - 1], es[|es| - 1];
      var s := Run(init);
      LogGrows(s, e);
      if i < |s.log| {
        MatchesAreSound(init, i);
      } else {
        RunFaithful(init);
        RunShuts(init);
        RunMirrors(init);
        RunConsistent(init);
        StepSound(s, e, i);
      }
    }
  }

  // ---- moderation counts --------------------------------------------------------------------------

  /** Calls that answered "banned" minus calls that answered "unbanned". */
  function Balance(log: seq<Entry>, u: UserId): int {
    if log == [] then 0 else
      var e := log[|log| - 1];
      Balance(log[..|log| - 1], u) + (if e == Banned(u) then 1 else if e == Unbanned(u) then -1 else 0)
  }

  lemma StepBalance(s: State, e: Event, u: UserId)
    requires Consistent(s.db)
    requires Balance(s.log, u) == if s.db.IsBanned(u) then 1 else 0
    ensures Balance(Step(s, e).log, u) == if Step(s, e).db.IsBanned(u) then 1 else 0
  {
    hide Consistent, Step, Balance;
    var s' := Step(s, e);
    StepBecomes(s, e);
    OneEntryAtMost(s, e);
    if s'.log != s.log {
      BalanceSnoc(s.log, s'.log[|s.log|], u);
    }
  }

  lemma OneEntryAtMost(s: State, e: Event)
    ensures Step(s, e).log == s.log || (|Step(s, e).log| == |s.log| + 1 && Step(s, e).log == s.log + [Step(s, e).log[|s.log|]])
  {
    hide Mirror, LookUp, Keep, Round;
  }

  lemma BalanceSnoc(log: seq<Entry>, e: Entry, u: UserId)
    ensures Balance(log + [e], u) == Balance(log, u) + (if e == Banned(u) then 1 else if e == Unbanned(u) then -1 else 0)
  {
    assert (log + [e])[..|log|] == log;
  }

  /** Over every run of reports, bans and unbans: ban transitions minus unban transitions is
      one for a banned user and zero otherwise, and the report counter is the number of
      report rows against the user. */
  lemma {:induction false} ModerationBooksBalance(es: seq<Event>, u: UserId)
    ensures Balance(Run(es).log, u) == if Run(es).db.IsBanned(u) then 1 else 0
    ensures forall id :: id in Run(es).db.users ==>
      Run(es).db.users[id].received == |TimesAgainst(Run(es).db.reports, id)|
  {
    hide Step, TimesAgainst;
    RunConsistent(es);
    if es != [] {
      ModerationBooksBalance(es[..|es| - 1], u);
      RunConsistent(es[..|es| - 1]);
      StepBalance(Run(es[..|es| - 1]), es[|es| - 1], u);
    }
  }
}
