/** The handlers of backend/main.go, report.go, block.go and admin.go on one pod, each as one
    step over the database, the shared Redis state and the pod's `clients`. */
module Backend {
  import opened Ids
  import opened Accounts
  import opened Store
  import opened MatchCycle
  import opened Database

  /** A history of what the handlers and the matchmaker did. */
  datatype Entry =
    | Joined(user: UserId, at: int)
    | Left(user: UserId)
    | Matched(first: UserId, second: UserId, at: int, before: Snapshot)
    | Lost(first: UserId, second: UserId)   // popped, and the re-queue failed
    | Banned(user: UserId)
    | Unbanned(user: UserId)

  /** What held of a pair when it was matched. */
  datatype Snapshot = Snapshot(dbBlocked: bool, firstHasKey: bool, secondHasKey: bool, firstBanned: bool, secondBanned: bool,
                               firstOpen: bool, secondOpen: bool)

  datatype State = State(
    db: Tables,
    redis: Redis,
    clients: map<UserId, bool>,   // false: the server closed the connection, cleanup pending
    log: seq<Entry>)
  {
    predicate Open(u: UserId) { u in clients && clients[u] }

    function Sever(u: UserId): State {
      if u in clients then this.(clients := clients[u := false]) else this
    }

    function Look(a: UserId, b: UserId): Snapshot {
      Snapshot(db.SubBlocked(a, b), a in redis.blocks, b in redis.blocks, db.IsBanned(a), db.IsBanned(b), Open(a), Open(b))
    }
  }

  /** How far handleConnections gets with a verified token; a ban ends it in any case. */
  datatype Attempt = UpsertFails | BanCheckFails | UpgradeFails | InitFails | Serves

  const INIT := State(NO_ROWS, EMPTY, map[], [])

  datatype Event =
    | Connect(user: UserId, now: int, loads: bool, attempt: Attempt)
    | Disconnect(user: UserId)
    | BlocksExpire(user: UserId)
    | FileReport(reporter: UserId, reported: UserId, report: Report, uploads: bool)
    | FileBlock(blocker: UserId, blocked: UserId)
    | AdminBan(id: Id, now: int)
    | AdminUnban(id: Id)
    | Turn(now: int, requeueFails: bool)

  // handleConnections up to the read loop; `loads`: the block list could be read
  function ConnectEffect(s: State, u: UserId, now: int, loads: bool, attempt: Attempt): State {
    if attempt.UpsertFails? then s else
      var db := s.db.Upsert(u);
      if attempt.BanCheckFails? || db.IsBanned(u) then s.(db := db) else
        var s' := s.(db := db, redis := if loads then s.redis.Hydrate(u, db.BlocksOf(db.bySub[u])) else s.redis);
        match attempt
        case Serves =>
          s'.(redis := s'.redis.Enqueue(u, now), clients := s.clients[u := true], log := s.log + [Joined(u, now)])
        case InitFails => DisconnectEffect(s', u)
        case _ => s'
  }

  // the deferred cleanup of handleConnections
  function DisconnectEffect(s: State, u: UserId): State {
    s.(clients := s.clients - {u},
       redis := s.redis.Dequeue(u).DeleteSession(u).ClearBlocks(u),
       log := s.log + [Left(u)])
  }

  // In the runs considered, a user has one live connection at a time.

  function ConnectStep(s: State, u: UserId, now: int, loads: bool, attempt: Attempt): State {
    if u in s.clients then s else ConnectEffect(s, u, now, loads, attempt)
  }

  function DisconnectStep(s: State, u: UserId): State {
    if u !in s.clients then s else DisconnectEffect(s, u)
  }

  // getUserIDByGoogleSub, with a stub row for a user never seen
  function LookUp(db: Tables, sub: UserId): Tables {
    if sub in db.bySub then db else db.Upsert(sub)
  }

  function Mirror(redis: Redis, a: UserId, b: UserId): Redis {
    redis.AddBlock(a, b).AddBlock(b, a)
  }

  // the screenshot is uploaded before anything is recorded
  function ReportStep(s: State, reporter: UserId, reported: UserId, r: Report, uploads: bool): State {
    if reporter == reported then s else
      var db := LookUp(s.db.Upsert(reporter), reported);
      if uploads && db.Blockable(db.bySub[reporter], db.bySub[reported]) then
        var (db', banned) := db.RecordReport(db.bySub[reporter], db.bySub[reported], r);
        var s' := s.(db := db', redis := Mirror(s.redis, reporter, reported));
        if banned then s'.Sever(reported).(log := s.log + [Banned(reported)]) else s'
      else s.(db := db)
  }

  function BlockStep(s: State, blocker: UserId, blocked: UserId): State {
    if blocker == blocked then s else
      var db := LookUp(s.db.Upsert(blocker), blocked);
      if db.Blockable(db.bySub[blocker], db.bySub[blocked]) then
        s.(db := db.WithBlock(db.bySub[blocker], db.bySub[blocked]), redis := Mirror(s.redis, blocker, blocked))
      else s.(db := db)
  }

  function AdminBanStep(s: State, id: Id, now: int): State {
    if id !in s.db.users then s else
      var sub, changed := s.db.users[id].sub, s.db.users[id].bannedAt.None?;
      if changed then s.(db := s.db.BanUser(id, now), log := s.log + [Banned(sub)]).Sever(sub)
      else s
  }

  function AdminUnbanStep(s: State, id: Id): State {
    if id !in s.db.users then s else
      if s.db.users[id].bannedAt.Some?
      then s.(db := s.db.UnbanUser(id), log := s.log + [Unbanned(s.db.users[id].sub)])
      else s
  }

  // one turn of processMatches
  function TurnStep(s: State, now: int, requeueFails: bool): State {
    var q := s.redis.queue;
    var s' := s.(redis := Round(s.redis, requeueFails, now));
    if |q| < 2 then s'
    else if !s.redis.PairBlocked(q[0], q[1]) then s'.(log := s.log + [Matched(q[0], q[1], now, s.Look(q[0], q[1]))])
    else if requeueFails then s'.(log := s.log + [Entry.Lost(q[0], q[1])])
    else s'
  }

  function Step(s: State, e: Event): State {
    match e
    case Connect(u, now, loads, attempt) => ConnectStep(s, u, now, loads, attempt)
    case Disconnect(u) => DisconnectStep(s, u)
    case BlocksExpire(u) => s.(redis := s.redis.ClearBlocks(u))
    case FileReport(a, b, r, uploads) => ReportStep(s, a, b, r, uploads)
    case FileBlock(a, b) => BlockStep(s, a, b)
    case AdminBan(id, now) => AdminBanStep(s, id, now)
    case AdminUnban(id) => AdminUnbanStep(s, id)
    case Turn(now, fails) => TurnStep(s, now, fails)
  }

  function Run(es: seq<Event>): State {
    if es == [] then INIT else Step(Run(es[..|es| - 1]), es[|es| - 1])
  }
}
