/** Concurrent recordReport transactions, admin bans and unbans under Read Committed with
    row locks. A transaction's writes are private until it commits; the UPDATE of the
    counter takes the user's row lock, works on the latest committed row, and keeps the
    lock until the transaction ends; the COUNT sees committed rows and its own. */
module ReportTransactions {
  import opened Options
  import opened Accounts

  type User = int
  type TxId = nat

  datatype Phase = Begun | Inserted | Locked | Counted | Decided

  datatype Tx = Tx(
    user: User,               // reported_id
    createdAt: int,           // NOW() of the transaction
    phase: Phase,
    received: nat,            // private version of the users row, from Locked on
    bannedAt: Option<int>,
    now: int,                 // from Counted on
    recent: nat,
    banned: bool)             // from Decided on
  {
    predicate HoldsLock() { phase.Locked? || phase.Counted? || phase.Decided? }
  }

  /** What became visible, in commit order. For one user whatever changes the row is in the order
      of the row lock. */
  datatype Entry =
    | Reported(user: User, report: Report, banned: bool)
    | AdminBan(user: User, at: int, changed: bool)
    | AdminUnban(user: User, changed: bool)

  datatype State = State(
    accounts: map<User, Account>,   // committed
    txs: map<TxId, Tx>,             // open transactions
    locks: map<User, TxId>,
    log: seq<Entry>)
  {
    function Of(u: User): Account {
      if u in accounts then accounts[u] else FRESH
    }
  }

  const INIT := State(map[], map[], map[], [])

  datatype Event =
    | Begin(x: TxId, user: User, now: int)
    | Insert(x: TxId)
    | Increment(x: TxId)
    | Count(x: TxId, now: int)
    | Decide(x: TxId)
    | Commit(x: TxId)
    | Abort(x: TxId)
    | BanUser(user: User, now: int)
    | UnbanUser(user: User)

  function Unlock(locks: map<User, TxId>, u: User, x: TxId): map<User, TxId> {
    if u in locks && locks[u] == x then locks - {u} else locks
  }

  // The statements of recordReport, in program order. A statement that is not next, or
  // that waits for a lock, changes nothing.
  function TxStep(s: State, x: TxId, e: Event): State
    requires x in s.txs
  {
    var t := s.txs[x];
    match e
    case Insert(_) =>
      if t.phase.Begun? then s.(txs := s.txs[x := t.(phase := Inserted)]) else s
    case Increment(_) =>
      if t.phase.Inserted? && t.user !in s.locks
      then s.(locks := s.locks[t.user := x],
              txs := s.txs[x := t.(phase := Locked, received := s.Of(t.user).received + 1, bannedAt := s.Of(t.user).bannedAt)])
      else s
    case Count(_, now) =>
      if t.phase.Locked?
      then s.(txs := s.txs[x := t.(phase := Counted, now := now,
                                   recent := CountSince(s.Of(t.user).reports + [t.createdAt], now - AUTO_BAN_WINDOW))])
      else s
    case Decide(_) =>
      if !t.phase.Counted? then s
      else if t.recent > AUTO_BAN_THRESHOLD && t.bannedAt.None?
      then s.(txs := s.txs[x := t.(phase := Decided, bannedAt := Some(t.createdAt), banned := true)])
      else s.(txs := s.txs[x := t.(phase := Decided, banned := false)])
    case Commit(_) =>
      if t.phase.Decided?
      then s.(accounts := s.accounts[t.user := Account(s.Of(t.user).reports + [t.createdAt], t.received, t.bannedAt)],
              txs := s.txs - {x}, locks := Unlock(s.locks, t.user, x),
              log := s.log + [Reported(t.user, Report(t.createdAt, t.now), t.banned)])
      else s
    case Abort(_) =>
      s.(txs := s.txs - {x}, locks := Unlock(s.locks, t.user, x))
    case _ => s
  }

  function Step(s: State, e: Event): State {
    match e
    case Begin(x, u, now) =>
      if x in s.txs then s
      else s.(txs := s.txs[x := Tx(u, now, Begun, 0, None, 0, 0, false)])
    // an UPDATE whose WHERE matches no committed row does not wait for the lock
    case BanUser(u, now) =>
      if u in s.locks && !s.Of(u).Banned() then s
      else s.(accounts := s.accounts[u := Ban(s.Of(u), now)],
              log := s.log + [AdminBan(u, now, !s.Of(u).Banned())])
    case UnbanUser(u) =>
      if u in s.locks && s.Of(u).Banned() then s
      else s.(accounts := s.accounts[u := Unban(s.Of(u))],
              log := s.log + [AdminUnban(u, s.Of(u).Banned())])
    case _ => if e.x in s.txs then TxStep(s, e.x, e) else s
  }

  function Run(es: seq<Event>): State {
    if es == [] then INIT else Step(Run(es[..|es| - 1]), es[|es| - 1])
  }

  // ---- the serial order ------------------------------------------------------------------

  function Effect(a: Account, e: Entry): Account {
    match e
    case Reported(_, r, _) => File(a, r)
    case AdminBan(_, at, _) => Ban(a, at)
    case AdminUnban(_, _) => Unban(a)
  }

  /** The account that running the log's calls one after the other leaves. */
  function Replay(log: seq<Entry>, u: User): Account {
    if log == [] then FRESH else
      var a := Replay(log[..|log| - 1], u);
      if log[|log| - 1].user == u then Effect(a, log[|log| - 1]) else a
  }

  /** The answer the serial execution gives to a call. */
  predicate Answer(a: Account, e: Entry) {
    match e
    case Reported(_, r, banned) => banned == Bans(a, r)
    case AdminBan(_, _, changed) => changed == !a.Banned()
    case AdminUnban(_, changed) => changed == a.Banned()
  }

  ghost predicate AnswersSerially(log: seq<Entry>) {
    forall i: nat :: i < |log| ==> Answer(Replay(log[..i], log[i].user), log[i])
  }

  ghost predicate LockedTxConsistent(s: State, t: Tx) {
    var a := s.Of(t.user);
    && t.received == a.received + 1
    && (t.phase.Locked? || t.phase.Counted? ==> t.bannedAt == a.bannedAt)
    && (t.phase.Counted? || t.phase.Decided? ==> t.recent == Recent(a, Report(t.createdAt, t.now)))
    && (t.phase.Decided? ==>
          && t.banned == Bans(a, Report(t.createdAt, t.now))
          && t.bannedAt == if t.banned then Some(t.createdAt) else a.bannedAt)
  }

  ghost predicate LocksHeld(s: State) {
    && (forall x :: x in s.txs && s.txs[x].HoldsLock() ==> s.txs[x].user in s.locks && s.locks[s.txs[x].user] == x)
    && (forall u :: u in s.locks ==> s.locks[u] in s.txs && s.txs[s.locks[u]].user == u && s.txs[s.locks[u]].HoldsLock())
    && (forall x :: x in s.txs && s.txs[x].HoldsLock() ==> LockedTxConsistent(s, s.txs[x]))
  }

  ghost predicate Serial(s: State) {
    && (forall u :: s.Of(u) == Replay(s.log, u))
    && AnswersSerially(s.log)
  }

  lemma ReplaySnoc(log: seq<Entry>, e: Entry, u: User)
    ensures Replay(log + [e], u) == if e.user == u then Effect(Replay(log, u), e) else Replay(log, u)
  {
    assert (log + [e])[..|log|] == log;
  }

  lemma AnswersSnoc(log: seq<Entry>, e: Entry)
    requires AnswersSerially(log) && Answer(Replay(log, e.user), e)
    ensures AnswersSerially(log + [e])
  {
    var l := log + [e];
    forall i: nat | i < |l| ensures Answer(Replay(l[..i], l[i].user), l[i]) {
      assert l[..i] == log[..i];
      assert log[..|log|] == log;
    }
  }

  lemma OpeningLocks(s: State, x: TxId, e: Event)
    requires x in s.txs && LocksHeld(s) && (e.Insert? || e.Increment?)
    ensures LocksHeld(TxStep(s, x, e))
  {
    hide Recent, CountSince, Bans;
  }

  lemma CountingLocks(s: State, x: TxId, e: Event)
    requires x in s.txs && LocksHeld(s) && (e.Count? || e.Decide?)
    ensures LocksHeld(TxStep(s, x, e))
  {
    hide Recent, CountSince, Bans;
    if e.Count? { CountIsRecent(s, s.txs[x], e.now); }
    if e.Decide? && s.txs[x].phase.Counted? { DecideIsBans(s, s.txs[x]); }
  }

  lemma ClosingLocks(s: State, x: TxId, e: Event)
    requires x in s.txs && LocksHeld(s) && (e.Commit? || e.Abort?)
    ensures LocksHeld(TxStep(s, x, e))
  {
    hide Recent, CountSince, Bans;
  }

  lemma TxStepLocks(s: State, x: TxId, e: Event)
    requires x in s.txs && LocksHeld(s)
    ensures LocksHeld(TxStep(s, x, e))
  {
    hide LocksHeld;
    if e.Insert? || e.Increment? {
      OpeningLocks(s, x, e);
    } else if e.Count? || e.Decide? {
      CountingLocks(s, x, e);
    } else if e.Commit? || e.Abort? {
      ClosingLocks(s, x, e);
    }
  }

  lemma CountIsRecent(s: State, t: Tx, now: int)
    ensures CountSince(s.Of(t.user).reports + [t.createdAt], now - AUTO_BAN_WINDOW)
         == Recent(s.Of(t.user), Report(t.createdAt, now))
  {
  }

  lemma DecideIsBans(s: State, t: Tx)
    requires t.phase.Counted? && LockedTxConsistent(s, t)
    ensures (t.recent > AUTO_BAN_THRESHOLD && t.bannedAt.None?) <==> Bans(s.Of(t.user), Report(t.createdAt, t.now))
  {
  }

  lemma StepLocks(s: State, e: Event)
    requires LocksHeld(s)
    ensures LocksHeld(Step(s, e))
  {
    hide TxStep, Recent, CountSince, Bans;
    match e
    case Begin(x, u, now) =>
    case BanUser(u, now) =>
    case UnbanUser(u) =>
    case _ =>
      if e.x in s.txs { TxStepLocks(s, e.x, e); }
  }

  lemma CommitSerial(s: State, x: TxId)
    requires x in s.txs && LocksHeld(s) && Serial(s)
    ensures Serial(TxStep(s, x, Commit(x)))
  {
    hide Recent, CountSince, Bans, Replay;
    var t, s' := s.txs[x], TxStep(s, x, Commit(x));
    if t.phase.Decided? {
      var r := Report(t.createdAt, t.now);
      var e := Reported(t.user, r, t.banned);
      assert LockedTxConsistent(s, t);
      assert s'.Of(t.user) == File(s.Of(t.user), r);
      forall u ensures s'.Of(u) == Replay(s'.log, u) {
        ReplaySnoc(s.log, e, u);
        assert s.Of(u) == Replay(s.log, u);
        assert u != t.user ==> s'.Of(u) == s.Of(u);
      }
      assert s.Of(t.user) == Replay(s.log, t.user);
      AnswersSnoc(s.log, e);
    }
  }

  lemma AdminSerial(s: State, e: Event)
    requires (e.BanUser? || e.UnbanUser?) && Serial(s)
    ensures Serial(Step(s, e))
  {
    hide Replay;
    var s' := Step(s, e);
    if s' != s {
      var n := if e.BanUser? then AdminBan(e.user, e.now, !s.Of(e.user).Banned()) else AdminUnban(e.user, s.Of(e.user).Banned());
      assert s'.log == s.log + [n];
      forall u ensures s'.Of(u) == Replay(s'.log, u) {
        ReplaySnoc(s.log, n, u);
        assert s.Of(u) == Replay(s.log, u);
        assert u != e.user ==> s'.Of(u) == s.Of(u);
      }
      assert s.Of(e.user) == Replay(s.log, e.user);
      AnswersSnoc(s.log, n);
    }
  }

  lemma OtherSerial(s: State, e: Event)
    requires Serial(s) && !e.BanUser? && !e.UnbanUser? && !e.Commit?
    ensures Serial(Step(s, e))
  {
    hide Replay, CountSince;
    var s' := Step(s, e);
    assert s'.log == s.log && s'.accounts == s.accounts;
    forall u ensures s'.Of(u) == Replay(s'.log, u) { assert s.Of(u) == Replay(s.log, u); }
  }

  /** Every interleaving of any number of report transactions, bans and unbans is
      equivalent to running them one at a time in commit order: the committed accounts are
      those of the serial execution, and so is every answer that was returned. */
  lemma {:induction false} Serialisable(es: seq<Event>)
    ensures LocksHeld(Run(es)) && Serial(Run(es))
  {
    hide Step, LocksHeld, Serial;
    if es == [] {
      InitSerial();
    } else {
      var s, e := Run(es[..|es| - 1]), es[|es| - 1];
      Serialisable(es[..|es| - 1]);
      StepLocks(s, e);
      if e.BanUser? || e.UnbanUser? {
        AdminSerial(s, e);
      } else if e.Commit? {
        CommitStep(s, e.x);
        if e.x in s.txs { CommitSerial(s, e.x); }
      } else {
        OtherSerial(s, e);
      }
    }
  }

  lemma InitSerial()
    ensures LocksHeld(INIT) && Serial(INIT)
  {
  }

  lemma CommitStep(s: State, x: TxId)
    ensures Step(s, Commit(x)) == if x in s.txs then TxStep(s, x, Commit(x)) else s
  {
    hide TxStep;
  }

  // ---- consequences ------------------------------------------------------------------------

  /** The count a transaction works with is the number of in-window reports committed
      before it in lock order, plus its own; no other transaction can change it before the
      transaction ends, because the counter UPDATE took the lock first. */
  lemma CountSeesEarlierLockHolders(es: seq<Event>, x: TxId)
    requires x in Run(es).txs && (Run(es).txs[x].phase.Counted? || Run(es).txs[x].phase.Decided?)
    ensures var s := Run(es);
      var t := s.txs[x];
      t.recent == CountSince(Replay(s.log, t.user).reports, t.now - AUTO_BAN_WINDOW)
                  + (if t.createdAt >= t.now - AUTO_BAN_WINDOW then 1 else 0)
  {
    hide Run;
    Serialisable(es);
    var s := Run(es);
    var t := s.txs[x];
    assert LockedTxConsistent(s, t) && s.Of(t.user) == Replay(s.log, t.user);
    var rows := s.Of(t.user).reports;
    assert (rows + [t.createdAt])[..|rows|] == rows;
  }

  /** Answers that say "this call banned the user", and those that say "this call unbanned". */
  predicate MadeBan(e: Entry, u: User) {
    e.user == u && ((e.Reported? && e.banned) || (e.AdminBan? && e.changed))
  }

  predicate MadeUnban(e: Entry, u: User) {
    e.user == u && e.AdminUnban? && e.changed
  }

  function Balance(log: seq<Entry>, u: User): int {
    if log == [] then 0 else
      var e := log[|log| - 1];
      Balance(log[..|log| - 1], u) + (if MadeBan(e, u) then 1 else 0) - (if MadeUnban(e, u) then 1 else 0)
  }

  lemma {:induction false} BalanceIsBanned(log: seq<Entry>, u: User)
    requires AnswersSerially(log)
    ensures Balance(log, u) == if Replay(log, u).Banned() then 1 else 0
  {
    if log != [] {
      var init := log[..|log| - 1];
      forall i: nat | i < |init| ensures Answer(Replay(init[..i], init[i].user), init[i]) {
        assert init[..i] == log[..i] && Answer(Replay(log[..i], log[i].user), log[i]);
      }
      BalanceIsBanned(init, u);
      assert Answer(Replay(log[..|log| - 1], log[|log| - 1].user), log[|log| - 1]);
    }
  }

  /** In every run, calls that answered "banned" minus calls that answered "unbanned" is one
      for a user who is now banned and zero for one who is not. */
  lemma BanTransitionsBalance(es: seq<Event>, u: User)
    ensures Balance(Run(es).log, u) == if Run(es).Of(u).Banned() then 1 else 0
  {
    hide Run;
    Serialisable(es);
    BalanceIsBanned(Run(es).log, u);
  }

  lemma {:induction false} StaysBanned(log: seq<Entry>, u: User, i: nat, j: nat)
    requires AnswersSerially(log) && i < j <= |log| && MadeBan(log[i], u)
    requires forall k: nat :: i < k < j ==> !MadeUnban(log[k], u)
    ensures Replay(log[..j], u).Banned()
    decreases j
  {
    assert log[..j][..j - 1] == log[..j - 1];
    assert Answer(Replay(log[..j - 1], log[j - 1].user), log[j - 1]);
    if i < j - 1 { StaysBanned(log, u, i, j - 1); }
  }

  /** Between two calls that both answered "this call banned the user" some call answered
      "unbanned": however the transactions interleave, at most one report between two
      unbans is told that it banned. */
  lemma OneBanBetweenUnbans(es: seq<Event>, u: User, i: nat, j: nat)
    requires i < j < |Run(es).log| && MadeBan(Run(es).log[i], u) && MadeBan(Run(es).log[j], u)
    ensures exists k: nat :: i < k < j && MadeUnban(Run(es).log[k], u)
  {
    hide Run;
    Serialisable(es);
    var log := Run(es).log;
    assert Answer(Replay(log[..j], log[j].user), log[j]);
    if forall k: nat :: i < k < j ==> !MadeUnban(log[k], u) {
      StaysBanned(log, u, i, j);
      assert false;
    }
  }

  /** In lock order, the report that brings the committed in-window reports to six finds or
      leaves the user banned, and no report below six bans anybody. */
  lemma SixthInLockOrderBans(es: seq<Event>, i: nat)
    requires i < |Run(es).log| && Run(es).log[i].Reported?
    ensures var log := Run(es).log;
      var e := log[i];
      var inWindow := CountSince(Replay(log[..i + 1], e.user).reports, e.report.now - AUTO_BAN_WINDOW);
      && (inWindow >= 6 ==> Replay(log[..i + 1], e.user).Banned())
      && (e.banned <==> inWindow >= 6 && !Replay(log[..i], e.user).Banned())
  {
    hide Run, Replay, CountSince, File, Bans;
    Serialisable(es);
    var log := Run(es).log;
    var e := log[i];
    var a := Replay(log[..i], e.user);
    assert log[..i + 1] == log[..i] + [e];
    ReplaySnoc(log[..i], e, e.user);
    assert Answer(a, e);
    FileCounts(a, e.report);
  }

  lemma FileCounts(a: Account, r: Report)
    ensures var inWindow := CountSince(File(a, r).reports, r.now - AUTO_BAN_WINDOW);
      && (Bans(a, r) <==> inWindow >= 6 && !a.Banned())
      && (inWindow >= 6 ==> File(a, r).Banned())
  {
    hide CountSince;
  }

  /** The counter is never lost or doubled: it is the number of report rows. */
  lemma CounterCountsRows(es: seq<Event>, u: User)
    ensures Run(es).Of(u).received == |Run(es).Of(u).reports|
  {
    hide Run;
    Serialisable(es);
    ReplayCounts(Run(es).log, u);
  }

  lemma {:induction false} ReplayCounts(log: seq<Entry>, u: User)
    ensures Replay(log, u).received == |Replay(log, u).reports|
  {
    if log != [] { ReplayCounts(log[..|log| - 1], u); }
  }
}
