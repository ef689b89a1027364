/** handleConnections against the report, block and admin handlers, one database statement or
    Redis command a step. A connecting user reads the ban and the block list first and acts on
    them later; a handler bans in the database first and closes the user's connection later, and
    blocks in the database first and then looks for the block key before it adds to it. One
    connection per user; a block is never deleted. */
module ConnectRaces {
  import opened Ids

  type HandlerId = nat

  /** Where the connection of a user is. */
  datatype Conn =
    | Started                       // row upserted, ban not yet read
    | Admitted                      // isUserBanned said no
    | Loaded(subs: set<UserId>)     // loadUserBlocks done, HydrateBlocks pending
    | Hydrated                      // not yet in `clients`
    | Open                          // in `clients`
    | Severed                       // in `clients`, but the server closed the connection
    | Leaving                       // out of `clients`, DEL of the block key pending

  /** One AddBlock(blocker, blocked) of a report or block handler: the block is in the database,
      the EXISTS is pending, or it found the key and the SADD is pending. */
  datatype Adding = Adding(blocker: UserId, blocked: UserId, found: bool)

  datatype State = State(
    banned: set<UserId>,
    blocks: set<(UserId, UserId)>,
    keys: map<UserId, set<UserId>>,         // matchmaker:blocks:<user>
    conns: map<UserId, Conn>,
    adding: map<HandlerId, Adding>,
    closing: map<HandlerId, UserId>)        // handlers that banned a user and have yet to close its connection

  const INIT := State({}, {}, map[], map[], map[], map[])

  datatype Event =
    | Start(u: UserId)
    | CheckBan(u: UserId)
    | CheckFails(u: UserId)
    | LoadBlocks(u: UserId)
    | LoadFails(u: UserId)                  // logged only: nothing is hydrated
    | Hydrate(u: UserId)
    | UpgradeFails(u: UserId)               // the key stays
    | Register(u: UserId)
    | Disconnect(u: UserId)                 // the cleanup takes the user out of `clients`
    | ClearKey(u: UserId)                   // and DELs the block key
    | Expire(u: UserId)
    | Block(a: UserId, b: UserId, h: HandlerId, k: HandlerId)   // insertBlock; two AddBlocks to come
    | LookForKey(h: HandlerId)              // EXISTS
    | AddToKey(h: HandlerId)                // SADD
    | Ban(u: UserId, h: HandlerId)          // in the database; to be followed up only if it changed something
    | Sever(h: HandlerId)                   // closes the connection of the user that `h` banned
    | Unban(u: UserId)

  function BlockedBy(s: State, u: UserId): set<UserId> {
    set p | p in s.blocks && p.0 == u :: p.1
  }

  predicate IsOpen(s: State, u: UserId) {
    u in s.conns && s.conns[u].Open?
  }

  function Step(s: State, e: Event): State {
    match e
    case Start(u) =>
      if u in s.conns then s else s.(conns := s.conns[u := Started])
    case CheckBan(u) =>
      if u !in s.conns || !s.conns[u].Started? then s
      else if u in s.banned then s.(conns := s.conns - {u})
      else s.(conns := s.conns[u := Admitted])
    case CheckFails(u) =>
      if u in s.conns && s.conns[u].Started? then s.(conns := s.conns - {u}) else s
    case LoadBlocks(u) =>
      if u in s.conns && s.conns[u].Admitted? then s.(conns := s.conns[u := Loaded(BlockedBy(s, u))]) else s
    case LoadFails(u) =>
      if u in s.conns && s.conns[u].Admitted? then s.(conns := s.conns[u := Hydrated]) else s
    case UpgradeFails(u) =>
      if u in s.conns && s.conns[u].Hydrated? then s.(conns := s.conns - {u}) else s
    case Hydrate(u) =>
      if u !in s.conns || !s.conns[u].Loaded? then s
      else s.(conns := s.conns[u := Hydrated],
              keys := if s.conns[u].subs == {} then s.keys - {u} else s.keys[u := s.conns[u].subs])
    case Register(u) =>
      if u in s.conns && s.conns[u].Hydrated? then s.(conns := s.conns[u := Open]) else s
    case Disconnect(u) =>
      if u in s.conns && (s.conns[u].Open? || s.conns[u].Severed?) then s.(conns := s.conns[u := Leaving]) else s
    case ClearKey(u) =>
      if u in s.conns && s.conns[u].Leaving? then s.(conns := s.conns - {u}, keys := s.keys - {u}) else s
    case Expire(u) => s.(keys := s.keys - {u})
    case Block(a, b, h, k) =>
      if a == b || h == k || h in s.adding || k in s.adding then s
      else s.(blocks := s.blocks + {(a, b), (b, a)}, adding := s.adding[h := Adding(a, b, false)][k := Adding(b, a, false)])
    case LookForKey(h) =>
      if h !in s.adding || s.adding[h].found then s
      else if s.adding[h].blocker in s.keys then s.(adding := s.adding[h := s.adding[h].(found := true)])
      else s.(adding := s.adding - {h})
    case AddToKey(h) =>
      if h !in s.adding || !s.adding[h].found then s
      else
        var (u, v) := (s.adding[h].blocker, s.adding[h].blocked);
        s.(adding := s.adding - {h}, keys := s.keys[u := if u in s.keys then s.keys[u] + {v} else {v}])
    case Ban(u, h) =>
      if u in s.banned || h in s.closing then s
      else s.(banned := s.banned + {u}, closing := s.closing[h := u])
    case Sever(h) =>
      if h !in s.closing then s
      else
        var u := s.closing[h];
        s.(closing := s.closing - {h}, conns := if IsOpen(s, u) then s.conns[u := Severed] else s.conns)
    case Unban(u) => s.(banned := s.banned - {u})
  }

  function Run(es: seq<Event>): State {
    if es == [] then INIT else Step(Run(es[..|es| - 1]), es[|es| - 1])
  }

  // ---- bans ---------------------------------------------------------------------------------------

  ghost predicate NoBannedOpen(s: State) {
    forall u: UserId :: IsOpen(s, u) ==> u !in s.banned
  }

  /** `u` has passed the ban check and is not yet in `clients`. */
  predicate Between(s: State, u: UserId) {
    u in s.conns && (s.conns[u].Admitted? || s.conns[u].Loaded? || s.conns[u].Hydrated?)
  }

  /** The registration of a user who was banned after its ban check. */
  predicate RegistersBanned(s: State, e: Event) {
    e.Register? && e.u in s.conns && s.conns[e.u].Hydrated? && e.u in s.banned
  }

  /** The ban of a user whose connection is open: it stays open until the handler closes it. */
  predicate BansOpen(s: State, e: Event) {
    e.Ban? && e.u !in s.banned && e.h !in s.closing && IsOpen(s, e.u)
  }

  ghost predicate AlwaysNoBannedOpen(es: seq<Event>) {
    NoBannedOpen(Run(es)) && (es == [] || AlwaysNoBannedOpen(es[..|es| - 1]))
  }

  ghost predicate NoneMeetsBan(es: seq<Event>) {
    es == [] ||
      (!RegistersBanned(Run(es[..|es| - 1]), es[|es| - 1]) && !BansOpen(Run(es[..|es| - 1]), es[|es| - 1])
       && NoneMeetsBan(es[..|es| - 1]))
  }

  lemma StepBannedOpen(s: State, e: Event)
    requires NoBannedOpen(s)
    ensures NoBannedOpen(Step(s, e)) <==> !RegistersBanned(s, e) && !BansOpen(s, e)
  {
    hide BlockedBy;
    if RegistersBanned(s, e) || BansOpen(s, e) { assert IsOpen(Step(s, e), e.u); }
  }

  /** No banned user is ever in `clients` with an open connection, not even for a moment, if and
      only if no ban hits a user whose connection is open and no banned user is registered. */
  lemma {:induction false} NoBannedOpenIff(es: seq<Event>)
    ensures AlwaysNoBannedOpen(es) <==> NoneMeetsBan(es)
  {
    hide Step, NoBannedOpen, RegistersBanned, BansOpen;
    if es == [] {
      assert NoBannedOpen(INIT) by { NobodyAtFirst(); }
    } else {
      var init := es[..|es| - 1];
      NoBannedOpenIff(init);
      if NoneMeetsBan(init) { StepBannedOpen(Run(init), es[|es| - 1]); }
    }
  }

  lemma NobodyAtFirst()
    ensures NoBannedOpen(INIT)
  {
  }

  // ---- bans that nobody follows up ----------------------------------------------------------------

  ghost predicate CloseOwed(s: State, u: UserId) {
    exists h :: h in s.closing && s.closing[h] == u
  }

  /** Banned, open, and no handler is about to change that. */
  ghost predicate Overlooked(s: State, u: UserId) {
    IsOpen(s, u) && u in s.banned && !CloseOwed(s, u)
  }

  /** The registration of a user whose ban has already been followed up, in vain. */
  ghost predicate Overlooks(s: State, e: Event, u: UserId) {
    RegistersBanned(s, e) && e.u == u && !CloseOwed(s, u)
  }

  /** `u` was registered like that, and has been neither unbanned nor disconnected since. */
  ghost predicate LetIn(es: seq<Event>, u: UserId) {
    es != [] &&
      var s, e := Run(es[..|es| - 1]), es[|es| - 1];
      Overlooks(s, e, u) || (LetIn(es[..|es| - 1], u) && e != Unban(u) && e != Disconnect(u))
  }

  lemma CloseOwedAfter(s: State, e: Event, u: UserId)
    ensures CloseOwed(s, u) && !e.Sever? ==> CloseOwed(Step(s, e), u)
    ensures CloseOwed(Step(s, e), u) ==> CloseOwed(s, u) || (e.Ban? && e.u == u && u !in s.banned)
    ensures e.Ban? && e.u == u && u !in s.banned && e.h !in s.closing ==> CloseOwed(Step(s, e), u)
    ensures e.Sever? && CloseOwed(s, u) ==> CloseOwed(Step(s, e), u) || !IsOpen(Step(s, e), u)
  {
    var s' := Step(s, e);
    ClosingAfter(s, e, u);
    hide Step;
    if CloseOwed(s, u) {
      var h :| h in s.closing && s.closing[h] == u;
      if !e.Sever? || e.h != h { assert h in s'.closing && s'.closing[h] == u; }
    }
    if e.Ban? && e.u == u && u !in s.banned && e.h !in s.closing { assert s'.closing[e.h] == u; }
  }

  lemma ClosingAfter(s: State, e: Event, u: UserId)
    ensures Step(s, e).closing ==
      if e.Ban? && e.u !in s.banned && e.h !in s.closing then s.closing[e.h := e.u]
      else if e.Sever? then s.closing - {e.h}
      else s.closing
    ensures e.Sever? && e.h in s.closing && s.closing[e.h] == u ==> !IsOpen(Step(s, e), u)
  {
    hide BlockedBy;
  }

  predicate Bans(s: State, e: Event, u: UserId) {
    e.Ban? && e.u == u && u !in s.banned && e.h !in s.closing
  }

  lemma BannedAfter(s: State, e: Event, u: UserId)
    ensures u in Step(s, e).banned <==> Bans(s, e, u) || (u in s.banned && e != Unban(u))
  {
    hide BlockedBy;
  }

  lemma StepOverlooked(s: State, e: Event, u: UserId)
    ensures Overlooked(Step(s, e), u) <==>
      Overlooks(s, e, u) || (Overlooked(s, u) && e != Unban(u) && e != Disconnect(u))
  {
    CloseOwedAfter(s, e, u);
    OpenAfter(s, e, u);
    BannedAfter(s, e, u);
    hide Step, CloseOwed;
  }

  lemma OpenAfter(s: State, e: Event, u: UserId)
    ensures var s' := Step(s, e);
      && (IsOpen(s', u) ==> (IsOpen(s, u) && e != Disconnect(u)) || (e == Register(u) && u in s.conns && s.conns[u].Hydrated?))
      && (e == Register(u) && u in s.conns && s.conns[u].Hydrated? ==> IsOpen(s', u))
      && (IsOpen(s, u) && e != Disconnect(u) ==> IsOpen(s', u) || (e.Sever? && CloseOwed(s, u)))
  {
    hide BlockedBy;
  }

  /** A banned user is open and nobody is about to close the connection, exactly if it was
      registered while banned, after the ban's handler had looked for it, and has been neither
      unbanned nor disconnected since. Another ban does not help: it changes nothing. */
  lemma {:induction false} OverlookedIffLetIn(es: seq<Event>, u: UserId)
    ensures Overlooked(Run(es), u) <==> LetIn(es, u)
  {
    hide Step, Overlooked, Overlooks;
    if es == [] {
      NoneOverlookedAtFirst(u);
    } else {
      OverlookedIffLetIn(es[..|es| - 1], u);
      StepOverlooked(Run(es[..|es| - 1]), es[|es| - 1], u);
    }
  }

  /** Such a user stays until unbanned or gone: another ban changes nothing, so it is not followed up. */
  lemma OverlookedUntil(s: State, e: Event, u: UserId)
    requires Overlooked(s, u)
    ensures e.Ban? && e.u == u ==> Step(s, e) == s
    ensures !Overlooked(Step(s, e), u) <==> e == Unban(u) || e == Disconnect(u)
  {
    StepOverlooked(s, e, u);
    OverlooksElsewhere(s, e, u);
    hide Overlooked, Overlooks;
    if e.Ban? && e.u == u { assert u in s.banned by { BannedAlready(s, u); } }
  }

  lemma BannedAlready(s: State, u: UserId)
    requires Overlooked(s, u)
    ensures u in s.banned
  {
  }

  lemma OverlooksElsewhere(s: State, e: Event, u: UserId)
    ensures e == Unban(u) || e == Disconnect(u) ==> !Overlooks(s, e, u)
  {
  }

  lemma NoneOverlookedAtFirst(u: UserId)
    ensures !Overlooked(INIT, u)
  {
  }

  /** A ban hit `u` between its ban check and now, and it has not been lifted since. */
  ghost predicate BannedMeanwhile(es: seq<Event>, u: UserId) {
    es != [] && Between(Run(es), u) &&
      var s, e := Run(es[..|es| - 1]), es[|es| - 1];
      Bans(s, e, u) || (e != Unban(u) && BannedMeanwhile(es[..|es| - 1], u))
  }

  /** A user is banned between its check and its registration exactly if a ban came in between:
      nobody passes the check banned. */
  lemma {:induction false} BannedBetweenIff(es: seq<Event>, u: UserId)
    ensures Between(Run(es), u) && u in Run(es).banned <==> BannedMeanwhile(es, u)
  {
    hide Step, Between, Bans;
    if es == [] {
      assert !Between(INIT, u) by { NotBetweenAtFirst(u); }
    } else {
      var init := es[..|es| - 1];
      BannedBetweenIff(init, u);
      StepBetween(Run(init), es[|es| - 1], u);
    }
  }

  lemma NotBetweenAtFirst(u: UserId)
    ensures !Between(INIT, u)
  {
  }

  lemma StepBetween(s: State, e: Event, u: UserId)
    ensures Between(Step(s, e), u) && u in Step(s, e).banned && !Bans(s, e, u) ==> Between(s, u)
    ensures u in Step(s, e).banned <==> Bans(s, e, u) || (u in s.banned && e != Unban(u))
  {
    hide Step, Between;
    BannedAfter(s, e, u);
    BetweenAfter(s, e, u);
  }

  lemma BetweenAfter(s: State, e: Event, u: UserId)
    ensures Between(Step(s, e), u) ==> Between(s, u) || (e == CheckBan(u) && u !in s.banned)
  {
    hide BlockedBy;
  }

  // ---- block keys -----------------------------------------------------------------------------------

  /** An AddBlock for (u, v) is still to come. */
  ghost predicate Owed(s: State, u: UserId, v: UserId) {
    exists h :: h in s.adding && s.adding[h].blocker == u && s.adding[h].blocked == v
  }

  /** A block key that exists holds the user's blocks, except for those that handlers still owe it. */
  ghost predicate KeyExact(s: State, u: UserId) {
    u in s.keys ==>
      && (forall v :: v in s.keys[u] ==> (u, v) in s.blocks)
      && (forall v: UserId :: (u, v) in s.blocks ==> v in s.keys[u] || Owed(s, u, v))
  }

  ghost predicate Exact(s: State) {
    forall u: UserId :: KeyExact(s, u)
  }

  /** What was loaded, and what handlers are at work on, is in the database. */
  ghost predicate Grounded(s: State) {
    && (forall u: UserId, v: UserId :: u in s.conns && s.conns[u].Loaded? && v in s.conns[u].subs ==> (u, v) in s.blocks)
    && (forall h :: h in s.adding ==> (s.adding[h].blocker, s.adding[h].blocked) in s.blocks)
  }

  lemma StepGrounded(s: State, e: Event)
    requires Grounded(s)
    ensures Grounded(Step(s, e))
  {
    if e.LoadBlocks? {
      LoadGrounded(s, e.u);
    } else {
      hide BlockedBy;
    }
  }

  lemma LoadGrounded(s: State, u: UserId)
    requires Grounded(s)
    ensures Grounded(Step(s, LoadBlocks(u)))
  {
  }

  lemma {:induction false} RunGrounded(es: seq<Event>)
    ensures Grounded(Run(es))
  {
    hide Step, Grounded;
    if es == [] {
      assert Grounded(INIT) by { GroundedAtFirst(); }
    } else {
      RunGrounded(es[..|es| - 1]);
      StepGrounded(Run(es[..|es| - 1]), es[|es| - 1]);
    }
  }

  lemma GroundedAtFirst()
    ensures Grounded(INIT)
  {
  }

  /** A block of `u` that is not in the list that `u` loaded, and whose AddBlock is over: it found
      no key, or it added to a left-over key that the hydration is about to replace. */
  ghost predicate Missed(s: State, u: UserId, v: UserId) {
    u in s.conns && s.conns[u].Loaded? && (u, v) in s.blocks && v !in s.conns[u].subs && !Owed(s, u, v)
  }

  /** HydrateBlocks writes a list that misses a block for good. */
  ghost predicate HydratesStale(s: State, e: Event) {
    e.Hydrate? && e.u in s.conns && s.conns[e.u].Loaded? && s.conns[e.u].subs != {} && exists v: UserId :: Missed(s, e.u, v)
  }

  /** A block of `u` that the SADD of `h` does not bring back and nobody else owes. */
  ghost predicate Forgotten(s: State, h: HandlerId, v: UserId) {
    h in s.adding && (s.adding[h].blocker, v) in s.blocks && v != s.adding[h].blocked
    && !Owed(s, s.adding[h].blocker, v)
  }

  /** An SADD whose key has gone since the EXISTS makes a new key of its own. */
  ghost predicate RecreatesKey(s: State, e: Event) {
    e.AddToKey? && e.h in s.adding && s.adding[e.h].found && s.adding[e.h].blocker !in s.keys
    && exists v: UserId :: Forgotten(s, e.h, v)
  }

  ghost predicate Spoils(s: State, e: Event) {
    HydratesStale(s, e) || RecreatesKey(s, e)
  }

  // ---- one step ----------------------------------------------------------------------------------------

  lemma HydrateExact(s: State, e: Event)
    requires Exact(s) && Grounded(s) && e.Hydrate?
    ensures Exact(Step(s, e)) <==> !Spoils(s, e)
  {
    var s', u := Step(s, e), e.u;
    assert s'.adding == s.adding && s'.blocks == s.blocks;
    forall x: UserId | x != u ensures KeyExact(s', x) {
      assert KeyExact(s, x);
      SameDebts(s, s', x);
    }
    if s' != s && s.conns[u].subs != {} {
      SameDebts(s, s', u);
      if v: UserId :| Missed(s, u, v) {
        assert !KeyExact(s', u);
      } else {
        forall v: UserId | (u, v) in s.blocks ensures v in s'.keys[u] || Owed(s', u, v) { assert !Missed(s, u, v); }
      }
    }
  }

  lemma SameDebts(s: State, s': State, u: UserId)
    requires s'.adding == s.adding
    ensures forall v: UserId :: Owed(s', u, v) <==> Owed(s, u, v)
  {
  }

  /** Without `h`, whatever another handler owes is still owed. */
  lemma DebtsWithout(s: State, s': State, h: HandlerId, u: UserId, v: UserId)
    requires s'.adding == s.adding - {h} && h in s.adding
    requires s.adding[h].blocker != u || s.adding[h].blocked != v
    ensures Owed(s', u, v) <==> Owed(s, u, v)
  {
    if Owed(s, u, v) {
      var g :| g in s.adding && s.adding[g].blocker == u && s.adding[g].blocked == v;
      assert g in s'.adding;
    }
  }

  lemma AddExact(s: State, e: Event)
    requires Exact(s) && Grounded(s) && e.AddToKey?
    ensures Exact(Step(s, e)) <==> !Spoils(s, e)
  {
    var s', h := Step(s, e), e.h;
    if s' != s {
      var u, b := s.adding[h].blocker, s.adding[h].blocked;
      forall x: UserId | x != u ensures KeyExact(s', x) {
        assert KeyExact(s, x);
        forall v: UserId ensures Owed(s', x, v) <==> Owed(s, x, v) { DebtsWithout(s, s', h, x, v); }
      }
      assert KeyExact(s, u);
      forall v: UserId | v != b ensures Owed(s', u, v) <==> Owed(s, u, v) { DebtsWithout(s, s', h, u, v); }
      if u in s.keys {
        assert KeyExact(s', u);
      } else {
        assert s'.keys[u] == {b};
        if v: UserId :| Forgotten(s, h, v) {
          assert !KeyExact(s', u);
        } else {
          forall v: UserId | (u, v) in s.blocks ensures v in s'.keys[u] || Owed(s', u, v) { assert !Forgotten(s, h, v); }
        }
      }
    }
  }

  lemma LookExact(s: State, e: Event)
    requires Exact(s) && e.LookForKey?
    ensures Exact(Step(s, e))
  {
    var s', h := Step(s, e), e.h;
    if s' != s {
      forall x: UserId ensures KeyExact(s', x) {
        assert KeyExact(s, x);
        forall v: UserId | x in s.keys && Owed(s, x, v) ensures Owed(s', x, v) {
          var g :| g in s.adding && s.adding[g].blocker == x && s.adding[g].blocked == v;
          assert g in s'.adding;
        }
      }
    }
  }

  lemma BlockExact(s: State, e: Event)
    requires Exact(s) && e.Block?
    ensures Exact(Step(s, e))
  {
    var s' := Step(s, e);
    if s' != s {
      assert s'.adding[e.h] == Adding(e.a, e.b, false) && s'.adding[e.k] == Adding(e.b, e.a, false);
      forall x: UserId ensures KeyExact(s', x) {
        assert KeyExact(s, x);
        forall v: UserId | Owed(s, x, v) ensures Owed(s', x, v) {
          var g :| g in s.adding && s.adding[g].blocker == x && s.adding[g].blocked == v;
          assert g in s'.adding;
        }
        assert Owed(s', e.a, e.b) && Owed(s', e.b, e.a);
      }
    }
  }

  lemma OtherExact(s: State, e: Event)
    requires Exact(s) && !e.Hydrate? && !e.AddToKey? && !e.LookForKey? && !e.Block?
    ensures Exact(Step(s, e))
  {
    hide BlockedBy;
    var s' := Step(s, e);
    forall x: UserId ensures KeyExact(s', x) {
      assert KeyExact(s, x);
      SameDebts(s, s', x);
    }
  }

  lemma StepExact(s: State, e: Event)
    requires Exact(s) && Grounded(s)
    ensures Exact(Step(s, e)) <==> !Spoils(s, e)
  {
    hide Exact, Grounded, Step;
    if e.Hydrate? {
      HydrateExact(s, e);
    } else if e.AddToKey? {
      AddExact(s, e);
    } else if e.LookForKey? {
      LookExact(s, e);
    } else if e.Block? {
      BlockExact(s, e);
    } else {
      OtherExact(s, e);
    }
  }

  // ---- whole runs --------------------------------------------------------------------------------------

  ghost predicate AlwaysExact(es: seq<Event>) {
    Exact(Run(es)) && (es == [] || AlwaysExact(es[..|es| - 1]))
  }

  ghost predicate NothingSpoils(es: seq<Event>) {
    es == [] || (!Spoils(Run(es[..|es| - 1]), es[|es| - 1]) && NothingSpoils(es[..|es| - 1]))
  }

  /** Command by command: every block key is always the user's blocks in the database up to the
      ones that handlers are still about to add, if and only if no list is hydrated that a
      handler's look for the key fell between, and no SADD recreates a key that went away after
      the handler had seen it, while the user has other blocks. */
  lemma {:induction false} BlockKeysExactIff(es: seq<Event>)
    ensures AlwaysExact(es) <==> NothingSpoils(es)
  {
    hide Step, Exact, Spoils;
    if es == [] {
      assert Exact(INIT) by { NoKeysAtFirst(); }
    } else {
      var init := es[..|es| - 1];
      BlockKeysExactIff(init);
      RunGrounded(init);
      if NothingSpoils(init) { StepExact(Run(init), es[|es| - 1]); }
    }
  }

  lemma NoKeysAtFirst()
    ensures Exact(INIT)
  {
  }

  /** When nobody is owed anything, an exact key is the user's block list. */
  lemma QuietKeysAreLists(s: State, u: UserId)
    requires Exact(s) && s.adding == map[] && u in s.keys
    ensures s.keys[u] == BlockedBy(s, u)
  {
    assert KeyExact(s, u);
    forall v: UserId ensures v in BlockedBy(s, u) <==> (u, v) in s.blocks { ListIsComplete(s, u, v); }
  }

  // ---- where the two come from ------------------------------------------------------------------------

  predicate LoadedWithout(s: State, u: UserId, v: UserId) {
    u in s.conns && s.conns[u].Loaded? && (u, v) in s.blocks && v !in s.conns[u].subs
  }

  /** The step that blocks (u, v), in either direction, for the first time. */
  predicate Blocks(s: State, e: Event, u: UserId, v: UserId) {
    (u, v) !in s.blocks && (u, v) in Step(s, e).blocks
  }

  /** (u, v) was blocked after `u` loaded its list, which is not yet hydrated. */
  ghost predicate BlockedSinceLoad(es: seq<Event>, u: UserId, v: UserId) {
    es != [] && u in Run(es).conns && Run(es).conns[u].Loaded?
    && (BlockedSinceLoad(es[..|es| - 1], u, v)
        || (Blocks(Run(es[..|es| - 1]), es[|es| - 1], u, v) && es[|es| - 1].Block?))
  }

  lemma {:induction false} LoadedWithoutIff(es: seq<Event>, u: UserId, v: UserId)
    ensures LoadedWithout(Run(es), u, v) <==> BlockedSinceLoad(es, u, v)
  {
    hide Step, Blocks;
    if es != [] {
      LoadedWithoutIff(es[..|es| - 1], u, v);
      RunGrounded(es[..|es| - 1]);
      StepLoadedWithout(Run(es[..|es| - 1]), es[|es| - 1], u, v);
    }
  }

  lemma StepLoadedWithout(s: State, e: Event, u: UserId, v: UserId)
    requires Grounded(s)
    ensures LoadedWithout(Step(s, e), u, v) <==>
      && u in Step(s, e).conns && Step(s, e).conns[u].Loaded?
      && (LoadedWithout(s, u, v) || (Blocks(s, e, u, v) && e.Block? && u in s.conns && s.conns[u].Loaded?))
    ensures u in Step(s, e).conns && Step(s, e).conns[u].Loaded? && e.Block? ==> u in s.conns && s.conns[u].Loaded?
  {
    if e.LoadBlocks? && e.u == u {
      ListIsComplete(s, u, v);
    } else {
      LoadedAfter(s, e, u);
      hide Step;
    }
  }

  lemma LoadedAfter(s: State, e: Event, u: UserId)
    requires !(e.LoadBlocks? && e.u == u)
    ensures var s' := Step(s, e);
      && (u in s'.conns && s'.conns[u].Loaded? ==> u in s.conns && s'.conns[u] == s.conns[u])
      && s.blocks <= s'.blocks && (!e.Block? ==> s'.blocks == s.blocks)
  {
    hide BlockedBy;
  }

  lemma ListIsComplete(s: State, u: UserId, v: UserId)
    ensures v in BlockedBy(s, u) <==> (u, v) in s.blocks
  {
    if (u, v) in s.blocks { assert (u, v).0 == u; }
  }

  /** A hydration is stale exactly if some block came after the loading of its list, and its
      AddBlock is over by now. */
  lemma HydratesStaleIff(es: seq<Event>, e: Event)
    requires e.Hydrate?
    ensures HydratesStale(Run(es), e) <==>
      && (exists v: UserId :: BlockedSinceLoad(es, e.u, v) && !Owed(Run(es), e.u, v))
      && Run(es).conns[e.u].subs != {}
  {
    hide Run, BlockedSinceLoad, Owed;
    var s := Run(es);
    forall v: UserId ensures BlockedSinceLoad(es, e.u, v) <==> LoadedWithout(s, e.u, v) { LoadedWithoutIff(es, e.u, v); }
    forall v: UserId ensures Missed(s, e.u, v) <==> BlockedSinceLoad(es, e.u, v) && !Owed(s, e.u, v) {}
  }

  /** The steps that take the key of `u` away, and those that make one. */
  predicate Takes(s: State, e: Event, u: UserId) {
    || e == Expire(u)
    || (e == ClearKey(u) && u in s.conns && s.conns[u].Leaving?)
    || (e == Hydrate(u) && u in s.conns && s.conns[u].Loaded? && s.conns[u].subs == {})
  }

  predicate Makes(s: State, e: Event, u: UserId) {
    || (e == Hydrate(u) && u in s.conns && s.conns[u].Loaded? && s.conns[u].subs != {})
    || (e.AddToKey? && e.h in s.adding && s.adding[e.h].found && s.adding[e.h].blocker == u)
  }

  predicate KeyGone(s: State, h: HandlerId) {
    h in s.adding && s.adding[h].found && s.adding[h].blocker !in s.keys
  }

  /** Since the EXISTS of `h` found the key it was taken away, and none was made since. */
  ghost predicate TakenSinceLook(es: seq<Event>, h: HandlerId) {
    es != [] && h in Run(es).adding && Run(es).adding[h].found &&
      var s, e := Run(es[..|es| - 1]), es[|es| - 1];
      var u := Run(es).adding[h].blocker;
      h in s.adding && s.adding[h].found
      && (Takes(s, e, u) || (TakenSinceLook(es[..|es| - 1], h) && !Makes(s, e, u)))
  }

  /** An SADD recreates a key exactly if the key was taken away between the EXISTS and the SADD. */
  lemma {:induction false} KeyGoneIff(es: seq<Event>, h: HandlerId)
    ensures KeyGone(Run(es), h) <==> TakenSinceLook(es, h)
  {
    hide Step, Takes, Makes;
    if es != [] {
      KeyGoneIff(es[..|es| - 1], h);
      StepKeyGone(Run(es[..|es| - 1]), es[|es| - 1], h);
    }
  }

  lemma StepKeyGone(s: State, e: Event, h: HandlerId)
    ensures var s' := Step(s, e);
      KeyGone(s', h) <==>
        && h in s'.adding && s'.adding[h].found && h in s.adding && s.adding[h].found
        && s'.adding[h] == s.adding[h]
        && (Takes(s, e, s.adding[h].blocker) || (KeyGone(s, h) && !Makes(s, e, s.adding[h].blocker)))
    ensures var s' := Step(s, e);
      h in s'.adding && s'.adding[h].found && h in s.adding && s.adding[h].found ==> s'.adding[h] == s.adding[h]
  {
    FoundAfter(s, e, h);
    if h in s.adding { KeysAfter(s, e, s.adding[h].blocker); }
    hide Step, Takes, Makes;
  }

  lemma KeysAfter(s: State, e: Event, u: UserId)
    ensures u in Step(s, e).keys <==> (u in s.keys && !Takes(s, e, u)) || Makes(s, e, u)
    ensures !(Takes(s, e, u) && Makes(s, e, u))
  {
    if !e.Hydrate? && !e.AddToKey? && !e.ClearKey? && !e.Expire? {
      KeysKept(s, e);
      hide Step;
    }
  }

  lemma KeysKept(s: State, e: Event)
    requires !e.Hydrate? && !e.AddToKey? && !e.ClearKey? && !e.Expire?
    ensures Step(s, e).keys == s.keys
  {
    hide BlockedBy;
  }

  lemma FoundAfter(s: State, e: Event, h: HandlerId)
    ensures var s' := Step(s, e);
      && (h in s'.adding && s'.adding[h].found && h in s.adding && s.adding[h].found ==> s'.adding[h] == s.adding[h])
      && (h in s'.adding && s'.adding[h].found && !(h in s.adding && s.adding[h].found) ==>
            h in s.adding && s'.adding[h].blocker == s.adding[h].blocker && s.adding[h].blocker in s'.keys)
  {
    hide BlockedBy;
  }

  // ---- both happen -----------------------------------------------------------------------------------

  lemma Begin() returns (es: seq<Event>, s: State)
    ensures es == [] && Run(es) == s == INIT
  {
    es, s := [], INIT;
  }

  lemma Then(es: seq<Event>, s: State, e: Event) returns (es': seq<Event>, s': State)
    requires Run(es) == s
    ensures es' == es + [e] && Run(es') == s' == Step(s, e)
  {
    es', s' := es + [e], Step(s, e);
    assert es'[..|es|] == es;
  }

  /** `a` has blocked `c`; while `a` connects again `b` is blocked between the reading of the list
      and its hydration, and AddBlock finds no key. Nothing is pending any more, and the key lacks `b`. */
  lemma HydrationMissesBlock(a: UserId, b: UserId, c: UserId) returns (es: seq<Event>)
    requires a != b && a != c && b != c
    ensures var s := Run(es);
      && s.keys == map[a := {c}] && s.adding == map[] && (a, b) in s.blocks && !KeyExact(s, a)
  {
    hide Run;
    ghost var s: State;
    es, s := LoadedAndBlocked(a, b, c);
    es, s := Then(es, s, LookForKey(0));
    es, s := Then(es, s, LookForKey(1));
    es, s := Then(es, s, Hydrate(a));
    assert s.adding == map[];
    assert !Owed(s, a, b);
  }

  lemma LoadedAndBlocked(a: UserId, b: UserId, c: UserId) returns (es: seq<Event>, s: State)
    requires a != b && a != c && b != c
    ensures Run(es) == s == State({}, {(a, c), (c, a), (a, b), (b, a)}, map[], map[a := Loaded({c})],
                                  map[0 := Adding(a, b, false), 1 := Adding(b, a, false)], map[])
  {
    hide Run;
    es, s := Begin();
    es, s := Then(es, s, Block(a, c, 0, 1));
    es, s := Then(es, s, LookForKey(0));
    es, s := Then(es, s, LookForKey(1));
    assert s == State({}, {(a, c), (c, a)}, map[], map[], map[], map[]);
    es, s := Then(es, s, Start(a));
    es, s := Then(es, s, CheckBan(a));
    assert BlockedBy(s, a) == {c};
    es, s := Then(es, s, LoadBlocks(a));
    assert s == State({}, {(a, c), (c, a)}, map[], map[a := Loaded({c})], map[], map[]);
    es, s := Then(es, s, Block(a, b, 0, 1));
  }

  /** A key that expires between EXISTS and SADD comes back with the new block only. */
  lemma ExpiryMakesPartialKey(a: UserId, b: UserId, c: UserId) returns (es: seq<Event>)
    requires a != b && a != c && b != c
    ensures var s := Run(es);
      && s.keys == map[a := {b}] && s.adding == map[] && (a, c) in s.blocks && !KeyExact(s, a)
  {
    hide Run;
    ghost var s: State;
    es, s := FoundKey(a, b, c);
    es, s := Then(es, s, Expire(a));
    assert s.keys == map[];
    es, s := Then(es, s, AddToKey(0));
    assert s.keys == map[a := {b}] && s.adding == map[];
    hide Step;
    assert !Owed(s, a, c);
  }

  lemma FoundKey(a: UserId, b: UserId, c: UserId) returns (es: seq<Event>, s: State)
    requires a != b && a != c && b != c
    ensures Run(es) == s && s.keys == map[a := {c}] && s.adding == map[0 := Adding(a, b, true)] && (a, c) in s.blocks
  {
    hide Run;
    es, s := LoadedAndBlocked(a, b, c);
    es, s := Then(es, s, Hydrate(a));
    es, s := Then(es, s, LookForKey(0));
    es, s := Then(es, s, LookForKey(1));
  }

  /** And a user who is banned between the check and the registration is connected; the handler
      of the ban looked for the connection too early. */
  lemma BannedWhileConnecting(u: UserId) returns (es: seq<Event>)
    ensures Overlooked(Run(es), u)
  {
    hide Run, BlockedBy;
    ghost var s: State;
    es, s := Begin();
    es, s := Connects(es, s, u);
    es, s := Then(es, s, Ban(u, 0));
    es, s := Then(es, s, Sever(0));
    assert s.closing == map[] && s.conns == map[u := Hydrated];
    es, s := Then(es, s, Register(u));
  }

  lemma Connects(es: seq<Event>, s: State, u: UserId) returns (es': seq<Event>, s': State)
    requires Run(es) == s && u !in s.conns && u !in s.banned
    ensures es' == es + [Start(u), CheckBan(u), LoadBlocks(u), Hydrate(u)]
    ensures Run(es') == s' && s'.conns == s.conns[u := Hydrated] && s'.banned == s.banned && s'.closing == s.closing
  {
    hide Run, BlockedBy;
    es', s' := Then(es, s, Start(u));
    es', s' := Then(es', s', CheckBan(u));
    es', s' := Then(es', s', LoadBlocks(u));
    es', s' := Then(es', s', Hydrate(u));
  }

  /** A user banned while connected stays connected until the handler gets to closing. */
  lemma BannedAndStillOpen(u: UserId) returns (es: seq<Event>)
    ensures NoneRegistersBanned(es) && IsOpen(Run(es), u) && u in Run(es).banned
  {
    hide Run, BlockedBy;
    ghost var s: State;
    es, s := Begin();
    es, s := Connects(es, s, u);
    NobodyBannedYet(es);
    ghost var es1, s1 := Then(es, s, Register(u));
    assert es1[..|es|] == es;
    es, s := Then(es1, s1, Ban(u, 0));
    assert es[..|es1|] == es1;
  }

  ghost predicate NoneRegistersBanned(es: seq<Event>) {
    es == [] || (!RegistersBanned(Run(es[..|es| - 1]), es[|es| - 1]) && NoneRegistersBanned(es[..|es| - 1]))
  }

  lemma {:induction false} NobodyBannedYet(es: seq<Event>)
    requires forall i :: 0 <= i < |es| ==> !es[i].Ban?
    ensures Run(es).banned == {} && NoneRegistersBanned(es)
  {
    hide Step;
    if es != [] {
      NobodyBannedYet(es[..|es| - 1]);
      BannedByBans(Run(es[..|es| - 1]), es[|es| - 1]);
    }
  }

  lemma BannedByBans(s: State, e: Event)
    requires !e.Ban?
    ensures Step(s, e).banned <= s.banned
  {
    hide BlockedBy;
  }

  /** A close that comes late hits whoever is there: a user who was unbanned and has connected
      again since is severed. */
  lemma LateCloseSeversUnbanned(u: UserId) returns (es: seq<Event>)
    ensures var s := Run(es); u in s.conns && s.conns[u].Severed? && u !in s.banned
  {
    hide Run, BlockedBy;
    ghost var s: State;
    es, s := Begin();
    es, s := Then(es, s, Ban(u, 0));
    es, s := Then(es, s, Unban(u));
    assert s.banned == {} && s.closing == map[0 := u] && s.conns == map[];
    es, s := Connects(es, s, u);
    es, s := Then(es, s, Register(u));
    es, s := Then(es, s, Sever(0));
  }
}
