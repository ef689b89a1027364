/** What the log of concurrent report transactions consists of, read off the events alone: every
    transaction that is committed leaves its report, and nothing else does. */
module ReportRuns {
  import opened Options
  import opened Accounts
  import opened ReportTransactions

  /** What an event makes visible. A ban or unban that would change a locked row waits. */
  function Visible(s: State, e: Event): seq<Entry> {
    match e
    case Commit(x) =>
      if x in s.txs && s.txs[x].phase.Decided?
      then [Reported(s.txs[x].user, Report(s.txs[x].createdAt, s.txs[x].now), s.txs[x].banned)]
      else []
    case BanUser(u, now) =>
      if u !in s.locks || s.Of(u).Banned() then [AdminBan(u, now, !s.Of(u).Banned())] else []
    case UnbanUser(u) =>
      if u !in s.locks || !s.Of(u).Banned() then [AdminUnban(u, s.Of(u).Banned())] else []
    case _ => []
  }

  function AllVisible(es: seq<Event>): seq<Entry> {
    if es == [] then [] else AllVisible(es[..|es| - 1]) + Visible(Run(es[..|es| - 1]), es[|es| - 1])
  }

  lemma StepLogs(s: State, e: Event)
    ensures Step(s, e).log == s.log + Visible(s, e)
  {
    hide CountSince;
  }

  /** The log is, one for one and in order, the commits that found their transaction decided and
      the bans and unbans that did not wait, with their users, times and answers. */
  lemma {:induction false} LogIsWhatCommitted(es: seq<Event>)
    ensures Run(es).log == AllVisible(es)
  {
    hide Step, Visible;
    if es != [] {
      LogIsWhatCommitted(es[..|es| - 1]);
      StepLogs(Run(es[..|es| - 1]), es[|es| - 1]);
    }
  }

  // ---- what a transaction is about ------------------------------------------------------------------

  /** The Begin of the transaction that is open under `x`: its user and its NOW(). */
  function Opening(es: seq<Event>, x: TxId): Option<(User, int)> {
    if es == [] then None else
      var before, s, e := Opening(es[..|es| - 1], x), Run(es[..|es| - 1]), es[|es| - 1];
      if e.Begin? && e.x == x && before.None? then Some((e.user, e.now))
      else if e == Abort(x) || (e == Commit(x) && x in s.txs && s.txs[x].phase.Decided?) then None
      else before
  }

  lemma StepOpens(s: State, e: Event, x: TxId)
    ensures var s' := Step(s, e);
      if e.Begin? && e.x == x && x !in s.txs then x in s'.txs && (s'.txs[x].user, s'.txs[x].createdAt) == (e.user, e.now)
      else if e == Abort(x) || (e == Commit(x) && x in s.txs && s.txs[x].phase.Decided?) then x !in s'.txs
      else
        && (x in s'.txs <==> x in s.txs)
        && (x in s.txs ==> (s'.txs[x].user, s'.txs[x].createdAt) == (s.txs[x].user, s.txs[x].createdAt))
  {
    hide CountSince;
  }

  /** A transaction is open from its Begin to its commit or abort, and keeps the user and the time
      of its Begin; so these are what its entry in the log carries. */
  lemma {:induction false} OpenSinceBegin(es: seq<Event>, x: TxId)
    ensures x in Run(es).txs <==> Opening(es, x).Some?
    ensures x in Run(es).txs ==> (Run(es).txs[x].user, Run(es).txs[x].createdAt) == Opening(es, x).value
  {
    hide Step;
    if es != [] {
      OpenSinceBegin(es[..|es| - 1], x);
      StepOpens(Run(es[..|es| - 1]), es[|es| - 1], x);
    }
  }

  // ---- a transaction that nobody disturbs --------------------------------------------------------------

  lemma Then(es: seq<Event>, s: State, e: Event) returns (es': seq<Event>, s': State)
    requires Run(es) == s
    ensures es' == es + [e] && Run(es') == s' == Step(s, e)
  {
    hide Step;
    es', s' := es + [e], Step(s, e);
    assert es'[..|es|] == es;
  }

  function Whole(x: TxId, u: User, createdAt: int, now: int): seq<Event> {
    [Begin(x, u, createdAt), Insert(x), Increment(x), Count(x, now), Decide(x), Commit(x)]
  }

  /** After any run, a transaction on a user whose row nobody has locked, run from its Begin to its
      commit, files exactly its report: one row, one more on the counter, a ban if this is the
      report that closes six, and the answer that says so. It leaves no lock behind. */
  lemma UndisturbedReportIsFiled(es: seq<Event>, x: TxId, u: User, createdAt: int, now: int)
    requires x !in Run(es).txs && u !in Run(es).locks
    ensures var s, t, r := Run(es), Run(es + Whole(x, u, createdAt, now)), Report(createdAt, now);
      && t.log == s.log + [Reported(u, r, Bans(s.Of(u), r))]
      && t.Of(u) == File(s.Of(u), r)
      && (forall v: User :: v != u ==> t.Of(v) == s.Of(v))
      && t.txs == s.txs && t.locks == s.locks
  {
    hide Run, CountSince, Bans;
    var s, a := Run(es), Run(es).Of(u);
    var s2 := s.(txs := s.txs[x := Tx(u, createdAt, Inserted, 0, None, 0, 0, false)]);
    var es1, s1 := Then(es, s, Begin(x, u, createdAt));
    var es2, s2' := Then(es1, s1, Insert(x));
    assert s2' == s2;
    var es3, s3 := Then(es2, s2, Increment(x));
    assert s3.Of(u) == a && s3.locks == s.locks[u := x] && s3.log == s.log;
    var es6, s6 := CountAndCommit(es3, s3, x, now);
    assert es6 == es + Whole(x, u, createdAt, now);
    assert s6.txs == s.txs && s6.locks == s.locks;
  }

  lemma CountAndCommit(es: seq<Event>, s: State, x: TxId, now: int) returns (es': seq<Event>, s': State)
    requires Run(es) == s && x in s.txs && s.txs[x].phase.Locked?
    requires var t := s.txs[x];
      t.user in s.locks && s.locks[t.user] == x && t.received == s.Of(t.user).received + 1 && t.bannedAt == s.Of(t.user).bannedAt
    ensures Run(es') == s' && es' == es + [Count(x, now), Decide(x), Commit(x)]
    ensures var t, a := s.txs[x], s.Of(s.txs[x].user);
      var r := Report(t.createdAt, now);
      && s'.log == s.log + [Reported(t.user, r, Bans(a, r))]
      && s'.accounts == s.accounts[t.user := File(a, r)]
      && s'.txs == s.txs - {x} && s'.locks == s.locks - {t.user}
  {
    hide Run, CountSince;
    var t := s.txs[x];
    var es1, s1 := Then(es, s, Count(x, now));
    CountIsRecent(s, t, now);
    var es2, s2 := Then(es1, s1, Decide(x));
    es', s' := Then(es2, s2, Commit(x));
  }

  /** An abort leaves nothing of its transaction, and no lock. */
  lemma AbortLeavesNothing(es: seq<Event>, x: TxId)
    ensures var s, t := Run(es), Run(es + [Abort(x)]);
      && x !in t.txs && t.accounts == s.accounts && t.log == s.log
      && (forall u: User :: u in t.locks <==> u in s.locks && s.locks[u] != x)
      && (forall y: TxId :: y != x ==> (y in t.txs <==> y in s.txs) && (y in s.txs ==> t.txs[y] == s.txs[y]))
  {
    hide Run;
    Serialisable(es);
    var es', t := Then(es, Run(es), Abort(x));
  }
}
