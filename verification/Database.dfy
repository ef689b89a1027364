/** backend/db.go: the users, reports and blocks tables and the statements run on them. */
module Database {
  import opened Ids
  import opened Options
  import opened Accounts

  type Id = int

  datatype UserRow = UserRow(sub: UserId, received: nat, bannedAt: Option<int>)
  datatype ReportRow = ReportRow(reporter: Id, reported: Id, createdAt: int)

  datatype Tables = Tables(
    users: map<Id, UserRow>,
    bySub: map<UserId, Id>,       // the unique index on google_sub
    nextId: Id,                   // the sequence behind users.id
    reports: seq<ReportRow>,
    blocks: set<(Id, Id)>)        // (blocker_id, blocked_id)
  {
    // INSERT ... ON CONFLICT: the sequence advances even when the row exists
    function Upsert(sub: UserId): Tables {
      if sub in bySub then this.(nextId := nextId + 1)
      else this.(users := users[nextId := UserRow(sub, 0, None)], bySub := bySub[sub := nextId], nextId := nextId + 1)
    }

    // SELECT banned_at, where no row means not banned
    predicate IsBanned(sub: UserId) {
      sub in bySub && bySub[sub] in users && users[bySub[sub]].bannedAt.Some?
    }

    // FOREIGN KEYs of both columns, and the CHECK that a user does not block themselves
    predicate Blockable(a: Id, b: Id) {
      a in users && b in users && a != b
    }

    function WithBlock(a: Id, b: Id): Tables {
      this.(blocks := blocks + {(a, b), (b, a)})
    }

    // SELECT u.google_sub FROM blocks JOIN users
    function BlocksOf(id: Id): set<UserId> {
      set p | p in blocks && p.0 == id && p.1 in users :: users[p.1].sub
    }

    predicate SubBlocked(a: UserId, b: UserId) {
      a in bySub && b in bySub && (bySub[a], bySub[b]) in blocks
    }

    function AccountOf(id: Id): Account {
      Account(TimesAgainst(reports, id),
              if id in users then users[id].received else 0,
              if id in users then users[id].bannedAt else None)
    }

    // The UPDATE of the counter, the COUNT and the UPDATE of banned_at, on top of the INSERTs
    function RecordReport(reporter: Id, reported: Id, r: Report): (Tables, bool)
      requires Blockable(reporter, reported)
    {
      var rows := reports + [ReportRow(reporter, reported, r.createdAt)];
      var row := users[reported];
      var banned := CountRows(rows, reported, r.now - AUTO_BAN_WINDOW) > AUTO_BAN_THRESHOLD && row.bannedAt.None?;
      var row' := row.(received := row.received + 1, bannedAt := if banned then Some(r.createdAt) else row.bannedAt);
      (WithBlock(reporter, reported).(reports := rows, users := users[reported := row']), banned)
    }

    function BanUser(id: Id, now: int): Tables
      requires id in users
    {
      if users[id].bannedAt.Some? then this else this.(users := users[id := users[id].(bannedAt := Some(now))])
    }

    function UnbanUser(id: Id): Tables
      requires id in users
    {
      if users[id].bannedAt.None? then this else this.(users := users[id := users[id].(bannedAt := None)])
    }
  }

  const NO_ROWS := Tables(map[], map[], 1, [], {})

  /** created_at of the reports against `id`, in insertion order. */
  function TimesAgainst(rows: seq<ReportRow>, id: Id): seq<int> {
    if rows == [] then [] else
      var init := TimesAgainst(rows[..|rows| - 1], id);
      if rows[|rows| - 1].reported == id then init + [rows[|rows| - 1].createdAt] else init
  }

  /** SELECT COUNT(*) FROM reports WHERE reported_id = id AND created_at >= cutoff */
  function CountRows(rows: seq<ReportRow>, id: Id, cutoff: int): nat {
    if rows == [] then 0 else
      CountRows(rows[..|rows| - 1], id, cutoff)
        + (if rows[|rows| - 1].reported == id && rows[|rows| - 1].createdAt >= cutoff then 1 else 0)
  }

  lemma {:induction false} CountRowsIsCountSince(rows: seq<ReportRow>, id: Id, cutoff: int)
    ensures CountRows(rows, id, cutoff) == CountSince(TimesAgainst(rows, id), cutoff)
  {
    if rows != [] {
      var init := TimesAgainst(rows[..|rows| - 1], id);
      CountRowsIsCountSince(rows[..|rows| - 1], id, cutoff);
      assert (init + [rows[|rows| - 1].createdAt])[..|init|] == init;
    }
  }

  /** recordReport does to the reported user's account what `File` does, answers as `Bans`
      says, blocks the pair both ways, and leaves every other account alone. */
  lemma RecordReportFiles(t: Tables, reporter: Id, reported: Id, r: Report)
    requires t.Blockable(reporter, reported)
    ensures var (t', banned) := t.RecordReport(reporter, reported, r);
      && t'.AccountOf(reported) == File(t.AccountOf(reported), r)
      && banned == Bans(t.AccountOf(reported), r)
      && (forall id :: id != reported ==> t'.AccountOf(id) == t.AccountOf(id))
      && t'.blocks == t.blocks + {(reporter, reported), (reported, reporter)}
  {
    var rows := t.reports + [ReportRow(reporter, reported, r.createdAt)];
    assert rows[..|t.reports|] == t.reports;
    CountRowsIsCountSince(rows, reported, r.now - AUTO_BAN_WINDOW);
    forall id | id != reported ensures TimesAgainst(rows, id) == TimesAgainst(t.reports, id) {}
  }

  /** What the schema and the statements keep true. */
  ghost predicate Consistent(t: Tables) {
    && (forall sub :: sub in t.bySub ==> t.bySub[sub] in t.users && t.users[t.bySub[sub]].sub == sub)
    && (forall id :: id in t.users ==> t.users[id].sub in t.bySub && t.bySub[t.users[id].sub] == id && id < t.nextId)
    && (forall p :: p in t.blocks ==> p.0 in t.users && p.1 in t.users && p.0 != p.1 && (p.1, p.0) in t.blocks)
    && (forall id :: id in t.users ==> t.users[id].received == |TimesAgainst(t.reports, id)|)
    && (forall i :: 0 <= i < |t.reports| ==> t.reports[i].reported < t.nextId)
  }

  lemma {:induction false} NoTimesForNewId(rows: seq<ReportRow>, id: Id)
    requires forall i :: 0 <= i < |rows| ==> rows[i].reported < id
    ensures TimesAgainst(rows, id) == []
  {
    if rows != [] { NoTimesForNewId(rows[..|rows| - 1], id); }
  }

  lemma UpsertConsistent(t: Tables, sub: UserId)
    requires Consistent(t)
    ensures Consistent(t.Upsert(sub)) && sub in t.Upsert(sub).bySub
    ensures forall s :: s in t.bySub ==> s in t.Upsert(sub).bySub && t.Upsert(sub).bySub[s] == t.bySub[s]
    ensures forall id :: id in t.users ==> id in t.Upsert(sub).users && t.Upsert(sub).users[id] == t.users[id]
  {
    NoTimesForNewId(t.reports, t.nextId);
  }

  lemma RecordReportConsistent(t: Tables, reporter: Id, reported: Id, r: Report)
    requires Consistent(t) && t.Blockable(reporter, reported)
    ensures Consistent(t.RecordReport(reporter, reported, r).0)
  {
    hide CountRows;
    var t' := t.RecordReport(reporter, reported, r).0;
    assert t'.reports[..|t.reports|] == t.reports;
  }

  /** The block list of a user is the set of subs blocked by or blocking them. */
  lemma BlocksOfIsSubBlocked(t: Tables, a: UserId, b: UserId)
    requires Consistent(t) && a in t.bySub
    ensures b in t.BlocksOf(t.bySub[a]) <==> t.SubBlocked(a, b)
    ensures t.SubBlocked(a, b) ==> t.SubBlocked(b, a) && a != b
  {
    if b in t.BlocksOf(t.bySub[a]) {
      var p :| p in t.blocks && p.0 == t.bySub[a] && p.1 in t.users && t.users[p.1].sub == b;
      assert p == (t.bySub[a], t.bySub[b]);
    }
    if t.SubBlocked(a, b) {
      var p := (t.bySub[a], t.bySub[b]);
      assert p in t.blocks && t.users[p.1].sub == b;
    }
  }

  datatype Found<T> = ErrNoRows | Found(value: T)
  datatype Executed<T> = ConstraintViolation | Executed(value: T)

  class DB {
    var tables: Tables

    constructor (tables: Tables)
      ensures this.tables == tables
    {
      this.tables := tables;
    }

    method UpsertUser(googleSub: UserId) returns (id: Id, isNew: bool)
      requires Consistent(tables)
      modifies this
      ensures tables == old(tables).Upsert(googleSub) && Consistent(tables)
      ensures googleSub in tables.bySub && id == tables.bySub[googleSub]
      ensures isNew <==> googleSub !in old(tables).bySub
      ensures tables.users == if isNew then old(tables).users[id := UserRow(googleSub, 0, None)] else old(tables).users
      ensures tables.reports == old(tables).reports && tables.blocks == old(tables).blocks
    {
      UpsertConsistent(tables, googleSub);
      var fresh_ := tables.nextId;
      tables := tables.(nextId := fresh_ + 1);
      if googleSub in tables.bySub {
        return tables.bySub[googleSub], false;
      }
      tables := tables.(users := tables.users[fresh_ := UserRow(googleSub, 0, None)],
                        bySub := tables.bySub[googleSub := fresh_]);
      return fresh_, true;
    }

    method GetUserIDByGoogleSub(googleSub: UserId) returns (r: Found<Id>)
      requires Consistent(tables)
      ensures r.ErrNoRows? ==> forall id :: id in tables.users ==> tables.users[id].sub != googleSub
      ensures r.Found? ==> forall id :: id in tables.users ==> (tables.users[id].sub == googleSub <==> id == r.value)
      ensures r.Found? ==> r.value in tables.users
      ensures googleSub in tables.bySub <==> r.Found?
      ensures r.Found? ==> r.value == tables.bySub[googleSub]
    {
      return if googleSub in tables.bySub then Found(tables.bySub[googleSub]) else ErrNoRows;
    }

    method IsUserBanned(googleSub: UserId) returns (banned: bool)
      requires Consistent(tables)
      ensures banned <==> googleSub in tables.bySub && tables.AccountOf(tables.bySub[googleSub]).Banned()
      ensures banned == tables.IsBanned(googleSub)
    {
      if googleSub !in tables.bySub {
        return false;
      }
      return tables.users[tables.bySub[googleSub]].bannedAt.Some?;
    }

    /** The transaction: every statement works on a private copy that is installed by the
        commit, so a violated constraint leaves the tables as they were. */
    method RecordReport(reporterID: Id, reportedID: Id, r: Report) returns (res: Executed<bool>)
      requires Consistent(tables)
      modifies this
      ensures Consistent(tables)
      ensures res.ConstraintViolation? <==> !old(tables).Blockable(reporterID, reportedID)
      ensures res.ConstraintViolation? ==> tables == old(tables)
      ensures res.Executed? ==> (tables, res.value) == old(tables).RecordReport(reporterID, reportedID, r)
      ensures res.Executed? ==> res.value == Bans(old(tables).AccountOf(reportedID), r)
      ensures res.Executed? ==> tables.AccountOf(reportedID) == File(old(tables).AccountOf(reportedID), r)
      ensures res.Executed? ==>
        && tables.reports == old(tables).reports + [ReportRow(reporterID, reportedID, r.createdAt)]
        && tables.blocks == old(tables).blocks + {(reporterID, reportedID), (reportedID, reporterID)}
        && tables.users - {reportedID} == old(tables).users - {reportedID} && reportedID in tables.users
        && tables.users[reportedID].received == old(tables).users[reportedID].received + 1
        && tables.users[reportedID].bannedAt == if res.value then Some(r.createdAt) else old(tables).users[reportedID].bannedAt
    {
      hide Consistent, CountRows, TimesAgainst, Bans, File;
      var tx := tables;
      if reporterID !in tx.users || reportedID !in tx.users {
        return ConstraintViolation;   // FOREIGN KEY of reports
      }
      RecordReportOrRefuse(tables, reporterID, reportedID, r);
      tx := tx.(reports := tx.reports + [ReportRow(reporterID, reportedID, r.createdAt)]);
      if reporterID == reportedID {
        return ConstraintViolation;   // CHECK of blocks
      }
      tx := tx.(blocks := tx.blocks + {(reporterID, reportedID), (reportedID, reporterID)});
      var row := tx.users[reportedID];
      row := row.(received := row.received + 1);
      tx := tx.(users := tx.users[reportedID := row]);
      var recent := CountRows(tx.reports, reportedID, r.now - AUTO_BAN_WINDOW);
      var banned := false;
      if recent > AUTO_BAN_THRESHOLD {
        banned := row.bannedAt.None?;
        if banned {
          row := row.(bannedAt := Some(r.createdAt));
          tx := tx.(users := tx.users[reportedID := row]);
        }
      }
      assert tx.users == tables.users[reportedID := row];
      tables := tx;
      return Executed(banned);
    }

    method InsertBlock(blockerID: Id, blockedID: Id) returns (ok: bool)
      requires Consistent(tables)
      modifies this
      ensures Consistent(tables)
      ensures ok <==> old(tables).Blockable(blockerID, blockedID)
      ensures tables == if ok then old(tables).WithBlock(blockerID, blockedID) else old(tables)
      ensures ok ==> tables.blocks == old(tables).blocks + {(blockerID, blockedID), (blockedID, blockerID)}
      ensures tables.(blocks := old(tables).blocks) == old(tables)
    {
      if blockerID == blockedID {
        return false;
      }
      if blockerID !in tables.users || blockedID !in tables.users {
        return false;
      }
      tables := tables.(blocks := tables.blocks + {(blockerID, blockedID), (blockedID, blockerID)});
      return true;
    }

    method LoadUserBlocks(blockerID: Id) returns (subs: set<UserId>)
      requires Consistent(tables)
      ensures subs == tables.BlocksOf(blockerID)
      ensures blockerID in tables.users ==>
        forall b :: b in subs <==> tables.SubBlocked(tables.users[blockerID].sub, b)
    {
      if blockerID in tables.users {
        forall b ensures b in tables.BlocksOf(blockerID) <==> tables.SubBlocked(tables.users[blockerID].sub, b) {
          BlocksOfIsSubBlocked(tables, tables.users[blockerID].sub, b);
        }
      }
      return tables.BlocksOf(blockerID);
    }

    method BanUser(id: Id, now: int) returns (r: Found<(UserId, bool)>)
      requires Consistent(tables)
      modifies this
      ensures Consistent(tables)
      ensures r.ErrNoRows? <==> id !in old(tables).users
      ensures r.ErrNoRows? ==> tables == old(tables)
      ensures r.Found? && r.value.1 ==> tables.users == old(tables).users[id := old(tables).users[id].(bannedAt := Some(now))]
      ensures r.Found? && !r.value.1 ==> tables == old(tables)
      ensures r.Found? ==> tables == old(tables).BanUser(id, now) && tables.AccountOf(id) == Ban(old(tables).AccountOf(id), now)
      ensures forall other :: other != id ==> tables.AccountOf(other) == old(tables).AccountOf(other)
      ensures r.Found? ==> r.value == (tables.users[id].sub, !old(tables).AccountOf(id).Banned())
    {
      if id in tables.users && tables.users[id].bannedAt.None? {
        var row := tables.users[id];
        tables := tables.(users := tables.users[id := row.(bannedAt := Some(now))]);
        return Found((row.sub, true));
      }
      if id !in tables.users {
        return ErrNoRows;
      }
      return Found((tables.users[id].sub, false));
    }

    method UnbanUser(id: Id) returns (r: Found<(UserId, bool)>)
      requires Consistent(tables)
      modifies this
      ensures Consistent(tables)
      ensures r.ErrNoRows? <==> id !in old(tables).users
      ensures r.ErrNoRows? ==> tables == old(tables)
      ensures r.Found? && r.value.1 ==> tables.users == old(tables).users[id := old(tables).users[id].(bannedAt := None)]
      ensures r.Found? && !r.value.1 ==> tables == old(tables)
      ensures r.Found? ==> tables == old(tables).UnbanUser(id) && tables.AccountOf(id) == Unban(old(tables).AccountOf(id))
      ensures forall other :: other != id ==> tables.AccountOf(other) == old(tables).AccountOf(other)
      ensures r.Found? ==> r.value == (tables.users[id].sub, old(tables).AccountOf(id).Banned())
    {
      if id in tables.users && tables.users[id].bannedAt.Some? {
        var row := tables.users[id];
        tables := tables.(users := tables.users[id := row.(bannedAt := None)]);
        return Found((row.sub, true));
      }
      if id !in tables.users {
        return ErrNoRows;
      }
      return Found((tables.users[id].sub, false));
    }
  }

  lemma RecordReportOrRefuse(t: Tables, reporter: Id, reported: Id, r: Report)
    requires Consistent(t)
    ensures t.Blockable(reporter, reported) ==>
      var (t', banned) := t.RecordReport(reporter, reported, r);
      Consistent(t') && banned == Bans(t.AccountOf(reported), r) && t'.AccountOf(reported) == File(t.AccountOf(reported), r)
  {
    if t.Blockable(reporter, reported) {
      RecordReportConsistent(t, reporter, reported, r);
      RecordReportFiles(t, reporter, reported, r);
    }
  }
}
