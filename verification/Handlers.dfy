/** The same handlers as code over the live objects: each leaves the pod in the state that its
    step of Backend.dfy prescribes, and answers its caller as stated. */
module Handlers {
  import opened Ids
  import opened Accounts
  import opened MatchMaking
  import opened Database
  import opened Backend

  datatype Action = BanAction | UnbanAction | OtherAction

  datatype Reply =
    | Suspended                       // 403 account_suspended
    | UpgradeFailed
    | InitNotSent
    | Connected
    | SelfTarget                      // 400 self_report, self_block
    | InternalError
    | UploadFailed                    // 502 upload_failed
    | ReportCreated(banned: bool)
    | BlockCreated
    | NotFound
    | UserAction(banned: bool, changed: bool)

  class Server {
    const db: DB
    const matchMaker: MatchMaker
    var clients: map<UserId, bool>
    ghost var log: seq<Entry>

    constructor (db: DB, matchMaker: MatchMaker)
      ensures this.db == db && this.matchMaker == matchMaker && clients == map[] && log == []
    {
      this.db, this.matchMaker := db, matchMaker;
      clients, log := map[], [];
    }

    ghost function Current(): State
      reads this, db, matchMaker
    {
      State(db.tables, matchMaker.rdb, clients, log)
    }

    /** handleConnections up to the read loop, for a verified token and an admitted IP. */
    method HandleConnections(userID: UserId, now: int, loads: bool, attempt: Attempt) returns (reply: Reply)
      requires Consistent(db.tables)
      modifies this, db, matchMaker
      ensures Consistent(db.tables)
      ensures Current() == ConnectEffect(old(Current()), userID, now, loads, attempt)
      ensures reply.InternalError? <==> attempt in {UpsertFails, BanCheckFails}
      ensures reply.Suspended? <==> !reply.InternalError? && old(db.tables).IsBanned(userID)
      ensures reply.Connected? <==> attempt.Serves? && !old(db.tables).IsBanned(userID)
      ensures reply.Connected? ==> Current().Open(userID) && userID in matchMaker.rdb.queue
      ensures loads && (reply.Connected? || reply.UpgradeFailed?) ==>
        forall v :: matchMaker.rdb.IsBlockMember(userID, v) <==> db.tables.SubBlocked(userID, v)
      ensures reply.InitNotSent? ==> userID !in clients && userID !in matchMaker.rdb.queue
      ensures reply in {InternalError, Suspended, UpgradeFailed, InitNotSent, Connected}
    {
      hide Consistent;
      if attempt.UpsertFails? {
        return InternalError;
      }
      var id, isNew := db.UpsertUser(userID);
      if attempt.BanCheckFails? {
        return InternalError;
      }
      var banned := db.IsUserBanned(userID);
      assert banned == old(db.tables).IsBanned(userID) by { UpsertKeepsBan(old(db.tables), userID); }
      if banned {
        return Suspended;
      }
      if loads {
        assert id in db.tables.users && db.tables.users[id].sub == userID by { IdIsUsers(db.tables, userID); }
        var subs := db.LoadUserBlocks(id);
        matchMaker.HydrateBlocks(userID, subs);
      }
      if attempt.UpgradeFails? {
        return UpgradeFailed;
      }
      clients := clients[userID := true];
      if attempt.InitFails? {
        Cleanup(userID);
        assert clients == old(clients)[userID := true] - {userID} == old(clients) - {userID};
        return InitNotSent;
      }
      matchMaker.Add(userID, now);
      log := log + [Joined(userID, now)];
      return Connected;
    }

    /** The deferred cleanup, once the read loop has ended. */
    method Cleanup(clientID: UserId)
      modifies this, matchMaker
      ensures Current() == DisconnectEffect(old(Current()), clientID)
      ensures clientID !in clients && clientID !in matchMaker.rdb.queue
      ensures clientID !in matchMaker.rdb.sessions && clientID !in matchMaker.rdb.blocks
    {
      clients := clients - {clientID};
      matchMaker.Remove(clientID);
      assert multiset(matchMaker.rdb.queue)[clientID] == 0;
      matchMaker.DeleteSession(clientID);
      matchMaker.ClearBlocks(clientID);
      log := log + [Left(clientID)];
    }

    method UserIDOrStub(sub: UserId) returns (id: Id)
      requires Consistent(db.tables)
      modifies db
      ensures Consistent(db.tables)
      ensures db.tables == LookUp(old(db.tables), sub) && sub in db.tables.bySub && id == db.tables.bySub[sub]
    {
      hide Consistent;
      var found := db.GetUserIDByGoogleSub(sub);
      if found.ErrNoRows? {
        var isNew;
        id, isNew := db.UpsertUser(sub);
      } else {
        id := found.value;
      }
    }

    /** The tail of reportHandler: persist, mirror the block both ways, sever a banned user. */
    method ReportHandler(reporterSub: UserId, reportedSub: UserId, r: Report, uploads: bool) returns (reply: Reply)
      requires Consistent(db.tables)
      modifies this, db, matchMaker
      ensures Consistent(db.tables)
      ensures Current() == ReportStep(old(Current()), reporterSub, reportedSub, r, uploads)
      ensures reply.SelfTarget? <==> reporterSub == reportedSub
      ensures reply.UploadFailed? <==> reporterSub != reportedSub && !uploads
      ensures reply.UploadFailed? ==> matchMaker.rdb == old(matchMaker.rdb) && clients == old(clients) && log == old(log)
      ensures reply.ReportCreated? <==> reporterSub != reportedSub && uploads
      ensures !reply.InternalError?
      ensures reply.ReportCreated? ==>
        db.tables.SubBlocked(reporterSub, reportedSub) && db.tables.SubBlocked(reportedSub, reporterSub)
      ensures reply.ReportCreated? && reply.banned ==> !Current().Open(reportedSub) && db.tables.IsBanned(reportedSub)
      ensures reply.ReportCreated? ==> reply.banned == (|log| > |old(log)|)
    {
      hide Consistent;
      if reportedSub == reporterSub {
        return SelfTarget;
      }
      var reporterID, isNew := db.UpsertUser(reporterSub);
      var reportedID := UserIDOrStub(reportedSub);
      assert reporterID == db.tables.bySub[reporterSub];
      if !uploads {
        return UploadFailed;
      }
      var res := db.RecordReport(reporterID, reportedID, r);
      if res.ConstraintViolation? {
        return InternalError;
      }
      matchMaker.AddBlock(reporterSub, reportedSub);
      matchMaker.AddBlock(reportedSub, reporterSub);
      if res.value {
        DisconnectClient(reportedSub);
        log := log + [Banned(reportedSub)];
      }
      return ReportCreated(res.value);
    }

    method BlockHandler(blockerSub: UserId, blockedSub: UserId) returns (reply: Reply)
      requires Consistent(db.tables)
      modifies db, matchMaker
      ensures Consistent(db.tables)
      ensures Current() == BlockStep(old(Current()), blockerSub, blockedSub)
      ensures reply.SelfTarget? <==> blockerSub == blockedSub
      ensures reply.BlockCreated? <==> blockerSub != blockedSub
      ensures reply.BlockCreated? ==> db.tables.SubBlocked(blockerSub, blockedSub) && db.tables.SubBlocked(blockedSub, blockerSub)
    {
      hide Consistent;
      if blockedSub == blockerSub {
        return SelfTarget;
      }
      var blockerID, isNew := db.UpsertUser(blockerSub);
      var blockedID := UserIDOrStub(blockedSub);
      assert blockerID == db.tables.bySub[blockerSub];
      var ok := db.InsertBlock(blockerID, blockedID);
      if !ok {
        return InternalError;
      }
      matchMaker.AddBlock(blockerSub, blockedSub);
      matchMaker.AddBlock(blockedSub, blockerSub);
      return BlockCreated;
    }

    /** Closes the user's websocket if one is open; its cleanup runs later. */
    method DisconnectClient(googleSub: UserId)
      modifies this`clients
      ensures Current() == old(Current()).Sever(googleSub)
      ensures !Current().Open(googleSub)
      ensures clients.Keys == old(clients).Keys && clients - {googleSub} == old(clients) - {googleSub}
    {
      if googleSub in clients {
        clients := clients[googleSub := false];
      }
    }

    method AdminUserAction(id: Id, action: Action, now: int) returns (reply: Reply)
      requires Consistent(db.tables)
      modifies this, db
      ensures Consistent(db.tables)
      ensures action.BanAction? ==> Current() == AdminBanStep(old(Current()), id, now)
      ensures action.UnbanAction? ==> Current() == AdminUnbanStep(old(Current()), id)
      ensures action.OtherAction? ==> Current() == old(Current())
      ensures reply.NotFound? <==> action.OtherAction? || id !in old(db.tables).users
      ensures reply.UserAction? ==> (reply.banned <==> action.BanAction?)
      ensures reply in {NotFound} || (reply.UserAction? && reply.banned == db.tables.AccountOf(id).Banned()
                                      && (reply.changed <==> old(db.tables).AccountOf(id).Banned() != reply.banned))
    {
      match action
      case BanAction =>
        var r := db.BanUser(id, now);
        if r.ErrNoRows? {
          return NotFound;
        }
        var (sub, changed) := r.value;
        if changed {
          DisconnectClient(sub);
          log := log + [Banned(sub)];
        }
        return UserAction(true, changed);
      case UnbanAction =>
        var r := db.UnbanUser(id);
        if r.ErrNoRows? {
          return NotFound;
        }
        var (sub, changed) := r.value;
        if changed {
          log := log + [Unbanned(sub)];
        }
        return UserAction(false, changed);
      case OtherAction =>
        return NotFound;
    }
  }

  lemma IdIsUsers(t: Tables, sub: UserId)
    requires Consistent(t) && sub in t.bySub
    ensures t.bySub[sub] in t.users && t.users[t.bySub[sub]].sub == sub
  {
  }

  lemma UpsertKeepsBan(t: Tables, sub: UserId)
    requires Consistent(t)
    ensures t.Upsert(sub).IsBanned(sub) == t.IsBanned(sub)
  {
  }
}
