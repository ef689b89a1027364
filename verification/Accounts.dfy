/** What moderation knows about one user, and what recordReport, banUser and unbanUser do to it. */
module Accounts {
  import opened Options

  const AUTO_BAN_THRESHOLD: nat := 5
  const AUTO_BAN_WINDOW: int := 86_400_000_000_000   // 24 hours in nanoseconds

  datatype Account = Account(
    reports: seq<int>,        // created_at of the report rows against the user
    received: nat,            // users.reports_received_count
    bannedAt: Option<int>)    // users.banned_at
  {
    predicate Banned() { bannedAt.Some? }
  }

  const FRESH: Account := Account([], 0, None)

  /** One call of recordReport against the user: the transaction's NOW(), which stamps the
      row and the ban, and the Go clock read when the COUNT is issued. */
  datatype Report = Report(createdAt: int, now: int)

  /** SELECT COUNT(*) ... AND created_at >= cutoff */
  function CountSince(reports: seq<int>, cutoff: int): nat {
    if reports == [] then 0 else
      CountSince(reports[..|reports| - 1], cutoff) + (if reports[|reports| - 1] >= cutoff then 1 else 0)
  }

  /** Reports inside the window, the new one included. */
  function Recent(a: Account, r: Report): nat {
    CountSince(a.reports + [r.createdAt], r.now - AUTO_BAN_WINDOW)
  }

  /** Whether recordReport returns banned = true. */
  predicate Bans(a: Account, r: Report) {
    Recent(a, r) > AUTO_BAN_THRESHOLD && !a.Banned()
  }

  function File(a: Account, r: Report): Account {
    Account(a.reports + [r.createdAt], a.received + 1, if Bans(a, r) then Some(r.createdAt) else a.bannedAt)
  }

  function Ban(a: Account, now: int): Account {
    if a.Banned() then a else a.(bannedAt := Some(now))
  }

  function Unban(a: Account): Account {
    a.(bannedAt := None)
  }

  function FileAll(rs: seq<Report>): Account {
    if rs == [] then FRESH else File(FileAll(rs[..|rs| - 1]), rs[|rs| - 1])
  }

  // ---- the sliding window, exactly ----------------------------------------------------------

  ghost predicate Chronological(rs: seq<Report>) {
    forall i, j :: 0 <= i <= j < |rs| ==> rs[i].createdAt <= rs[j].createdAt
  }

  /** Report i is the last of six consecutive ones that lie within 24 hours. */
  predicate Closes(rs: seq<Report>, i: nat)
    requires i < |rs|
  {
    i >= 5 && rs[i].now - rs[i - 5].createdAt <= 24 * 60 * 60 * 1_000_000_000
  }

  lemma {:induction false} CountOfSorted(ts: seq<int>, cutoff: int, k: nat)
    requires forall i, j :: 0 <= i <= j < |ts| ==> ts[i] <= ts[j]
    ensures CountSince(ts, cutoff) >= k + 1 <==> |ts| >= k + 1 && ts[|ts| - 1 - k] >= cutoff
  {
    if ts != [] {
      var init := ts[..|ts| - 1];
      CountOfSorted(init, cutoff, k);
      if k > 0 { CountOfSorted(init, cutoff, k - 1); }
      if k < |ts| { assert ts[|ts| - 1 - k] <= ts[|ts| - 1]; }
    }
  }

  lemma {:induction false} FiledTimes(rs: seq<Report>)
    ensures var a := FileAll(rs);
      |a.reports| == |rs| == a.received && forall i :: 0 <= i < |rs| ==> a.reports[i] == rs[i].createdAt
  {
    if rs != [] { FiledTimes(rs[..|rs| - 1]); }
  }

  lemma RecentIffCloses(rs: seq<Report>)
    requires rs != [] && Chronological(rs)
    ensures Recent(FileAll(rs[..|rs| - 1]), rs[|rs| - 1]) > AUTO_BAN_THRESHOLD <==> Closes(rs, |rs| - 1)
  {
    var r := rs[|rs| - 1];
    FiledTimes(rs[..|rs| - 1]);
    var ts := FileAll(rs[..|rs| - 1]).reports + [r.createdAt];
    CountOfSorted(ts, r.now - AUTO_BAN_WINDOW, 5);
  }

  /** From a fresh account and with a monotone clock, whatever else is reported in between:
      the user is banned iff some six consecutive reports lie within 24 hours. */
  lemma {:induction false} BannedIffSixWithinADay(rs: seq<Report>)
    requires Chronological(rs)
    ensures FileAll(rs).Banned() <==> exists i: nat :: i < |rs| && Closes(rs, i)
  {
    if rs != [] {
      var init := rs[..|rs| - 1];
      BannedIffSixWithinADay(init);
      RecentIffCloses(rs);
      if i: nat :| i < |init| && Closes(init, i) {
        assert Closes(rs, i);
      }
      if i: nat :| i < |rs| && Closes(rs, i) && i < |init| {
        assert Closes(init, i);
      }
    }
  }

  /** And recordReport answers true exactly once: on the first report that closes six. */
  lemma BansOnFirstClosingReport(rs: seq<Report>, i: nat)
    requires Chronological(rs) && i < |rs|
    ensures Bans(FileAll(rs[..i]), rs[i]) <==> Closes(rs, i) && forall j: nat :: j < i ==> !Closes(rs, j)
  {
    var pre := rs[..i + 1];
    assert pre[..|pre| - 1] == rs[..i];
    RecentIffCloses(pre);
    BannedIffSixWithinADay(rs[..i]);
    forall j: nat | j < i ensures Closes(rs[..i], j) <==> Closes(rs, j) {}
  }
}
