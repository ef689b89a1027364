/** The sliding-window ban over whole runs of the backend in which no administrator acts. */
module AutoBan {
  import opened Ids
  import opened Accounts
  import opened Sequences
  import opened MatchCycle
  import opened Database
  import opened Backend
  import opened BackendSafety

  /** What the database has on a user; nothing on a user it has never seen. */
  function AccountOfSub(t: Tables, u: UserId): Account {
    if u in t.bySub then t.AccountOf(t.bySub[u]) else FRESH
  }

  /** A report against `u` that gets as far as the transaction. */
  predicate Files(e: Event, u: UserId) {
    e.FileReport? && e.reported == u && e.reporter != u && e.uploads
  }

  function ReportsAgainst(es: seq<Event>, u: UserId): seq<Report> {
    if es == [] then [] else
      var init, e := ReportsAgainst(es[..|es| - 1], u), es[|es| - 1];
      if Files(e, u) then init + [e.report] else init
  }

  ghost predicate NoAdmin(es: seq<Event>) {
    forall i :: 0 <= i < |es| ==> !es[i].AdminBan? && !es[i].AdminUnban?
  }

  lemma UpsertAccounts(t: Tables, v: UserId, u: UserId)
    requires Consistent(t)
    ensures AccountOfSub(t.Upsert(v), u) == AccountOfSub(t, u)
  {
    NoTimesForNewId(t.reports, t.nextId);
    hide TimesAgainst;
  }

  lemma LookUpAccounts(t: Tables, v: UserId, w: UserId, u: UserId)
    requires Consistent(t)
    ensures AccountOfSub(LookUp(t.Upsert(v), w), u) == AccountOfSub(t, u)
  {
    UpsertConsistent(t, v);
    UpsertAccounts(t, v, u);
    UpsertAccounts(t.Upsert(v), w, u);
    hide Consistent, AccountOfSub;
  }

  lemma RecordAccounts(t: Tables, v: UserId, w: UserId, r: Report, u: UserId)
    requires Consistent(t) && v in t.bySub && w in t.bySub && v != w
    ensures t.Blockable(t.bySub[v], t.bySub[w])
    ensures AccountOfSub(t.RecordReport(t.bySub[v], t.bySub[w], r).0, u)
         == if u == w then File(AccountOfSub(t, u), r) else AccountOfSub(t, u)
  {
    RecordReportFiles(t, t.bySub[v], t.bySub[w], r);
    hide TimesAgainst, CountRows, File, Bans;
  }

  lemma BlockAccounts(t: Tables, a: Id, b: Id, u: UserId)
    ensures AccountOfSub(t.WithBlock(a, b), u) == AccountOfSub(t, u)
  {
    hide TimesAgainst;
  }

  lemma ReportAccounts(s: State, e: Event, u: UserId)
    requires Consistent(s.db) && e.FileReport?
    ensures AccountOfSub(Step(s, e).db, u)
         == if Files(e, u) then File(AccountOfSub(s.db, u), e.report) else AccountOfSub(s.db, u)
  {
    hide Consistent, AccountOfSub, File;
    if e.reporter != e.reported {
      var db := LookUp(s.db.Upsert(e.reporter), e.reported);
      LookUpAccounts(s.db, e.reporter, e.reported, u);
      LookUpBecomes(s.db, e.reporter, e.reported);
      BecomesConsistent(s.db, db, {}, {}, {});
      LookUpFinds(s.db, e.reporter, e.reported);
      hide LookUp;
      RecordAccounts(db, e.reporter, e.reported, e.report, u);
    }
  }

  lemma BlockStepAccounts(s: State, e: Event, u: UserId)
    requires Consistent(s.db) && e.FileBlock?
    ensures AccountOfSub(Step(s, e).db, u) == AccountOfSub(s.db, u)
  {
    hide Consistent, AccountOfSub;
    if e.blocker != e.blocked {
      var db := LookUp(s.db.Upsert(e.blocker), e.blocked);
      LookUpAccounts(s.db, e.blocker, e.blocked, u);
      LookUpFinds(s.db, e.blocker, e.blocked);
      hide LookUp;
      BlockAccounts(db, db.bySub[e.blocker], db.bySub[e.blocked], u);
    }
  }

  /** Without an administrator only a filed report changes an account, and only the reported user's. */
  lemma AccountAfter(s: State, e: Event, u: UserId)
    requires Consistent(s.db) && !e.AdminBan? && !e.AdminUnban?
    ensures AccountOfSub(Step(s, e).db, u)
         == if Files(e, u) then File(AccountOfSub(s.db, u), e.report) else AccountOfSub(s.db, u)
  {
    hide Consistent, AccountOfSub, File, Keep;
    if e.FileReport? {
      ReportAccounts(s, e, u);
    } else if e.FileBlock? {
      BlockStepAccounts(s, e, u);
    } else if e.Connect? {
      UpsertAccounts(s.db, e.user, u);
    }
  }

  lemma {:induction false} AccountIsFiled(es: seq<Event>, u: UserId)
    requires NoAdmin(es)
    ensures AccountOfSub(Run(es).db, u) == FileAll(ReportsAgainst(es, u))
  {
    hide Step, File;
    if es != [] {
      var init, e := es[..|es| - 1], es[|es| - 1];
      AccountIsFiled(init, u);
      RunConsistent(init);
      AccountAfter(Run(init), e, u);
      var rs := ReportsAgainst(init, u);
      if Files(e, u) { assert (rs + [e.report])[..|rs|] == rs; }
      hide AccountOfSub;
    }
  }

  /** Over every run of connects, disconnects, reports, blocks and matches with a monotone clock:
      a user is banned if and only if some six consecutive reports against the user that were
      recorded lie within 24 hours. */
  lemma BannedInRunIffSixWithinADay(es: seq<Event>, u: UserId)
    requires NoAdmin(es) && Chronological(ReportsAgainst(es, u))
    ensures Run(es).db.IsBanned(u) <==>
      exists i: nat :: i < |ReportsAgainst(es, u)| && Closes(ReportsAgainst(es, u), i)
  {
    AccountIsFiled(es, u);
    RunConsistent(es);
    BannedAccount(Run(es).db, u);
    BannedIffSixWithinADay(ReportsAgainst(es, u));
  }

  lemma BannedAccount(t: Tables, u: UserId)
    requires Consistent(t)
    ensures t.IsBanned(u) <==> AccountOfSub(t, u).Banned()
  {
    hide TimesAgainst;
  }

  /** And the report that closes the first such six is the one that bans: no other event of the
      run does. */
  lemma BannedOnceByFirstClosingReport(es: seq<Event>, e: Event, u: UserId)
    requires NoAdmin(es + [e]) && Chronological(ReportsAgainst(es + [e], u))
    ensures var rs := ReportsAgainst(es, u);
      u in NewBans(Run(es), e) <==>
        Files(e, u) && Closes(rs + [e.report], |rs|) && forall j: nat :: j < |rs| ==> !Closes(rs, j)
  {
    var run, rs := es + [e], ReportsAgainst(es, u);
    assert run[..|es|] == es && run[|es|] == e;
    assert !e.AdminBan? && !e.AdminUnban? by { assert !run[|es|].AdminBan? && !run[|es|].AdminUnban?; }
    assert NoAdmin(es) by { forall i | 0 <= i < |es| ensures !es[i].AdminBan? && !es[i].AdminUnban? { assert run[i] == es[i]; } }
    AccountIsFiled(es, u);
    RunConsistent(es);
    NewBansAreBans(Run(es), e, u);
    if Files(e, u) {
      var all := rs + [e.report];
      assert ReportsAgainst(run, u) == all;
      BansOnFirstClosingReport(all, |rs|);
      assert all[..|rs|] == rs;
      forall j: nat | j < |rs| ensures Closes(all, j) <==> Closes(rs, j) {}
    }
  }

  lemma NewBansAreBans(s: State, e: Event, u: UserId)
    requires Consistent(s.db) && !e.AdminBan? && !e.AdminUnban?
    ensures u in NewBans(s, e) <==> Files(e, u) && Bans(AccountOfSub(s.db, u), e.report)
  {
    hide Consistent, Bans, Keep, Round, Mirror;
    if e.FileReport? && e.reporter != e.reported {
      var db := LookUp(s.db.Upsert(e.reporter), e.reported);
      LookUpAccounts(s.db, e.reporter, e.reported, e.reported);
      LookUpBecomes(s.db, e.reporter, e.reported);
      BecomesConsistent(s.db, db, {}, {}, {});
      LookUpFinds(s.db, e.reporter, e.reported);
      hide LookUp;
      RecordReportBecomes(db, e.reporter, e.reported, e.report);
    }
  }
}
