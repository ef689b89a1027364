/** The report list of the admin dashboard: the clamps and 64-bit arithmetic of
    adminListReports, and LIMIT/OFFSET of listReports over a fixed order of rows. */
module Pagination {
  import opened Sequences

  const DEFAULT_LIMIT: int := 20
  const MAX_LIMIT: int := 100
  const MAX_INT64: int := 0x7FFF_FFFF_FFFF_FFFF
  const TWO_TO_64: int := 0x1_0000_0000_0000_0000

  /** A Go `int`: the low 64 bits, read as two's complement. */
  function Int64(n: int): int {
    var m := n % TWO_TO_64;
    if m > MAX_INT64 then m - TWO_TO_64 else m
  }

  // page, _ := strconv.Atoi(...): any int64 at all
  function Page(page: int): int { if page < 1 then 1 else page }

  function Limit(limit: int): int {
    var l := if limit < 1 then DEFAULT_LIMIT else limit;
    if l > MAX_LIMIT then MAX_LIMIT else l
  }

  function Offset(page: int, limit: int): int {
    Int64((page - 1) * limit)
  }

  function TotalPages(total: nat, limit: int): int
    requires limit >= 1
  {
    (total + limit - 1) / limit
  }

  // the clamps of listReports
  function ListLimit(limit: int): int {
    var l := if limit < 1 then 20 else limit;
    if l > 100 then 100 else l
  }

  function ListOffset(offset: int): int { if offset < 0 then 0 else offset }

  /** ... ORDER BY ... LIMIT limit OFFSET offset */
  function Slice<T>(rows: seq<T>, limit: nat, offset: nat): seq<T> {
    if offset >= |rows| then [] else rows[offset..Least(|rows|, offset + limit)]
  }

  function Least(a: nat, b: nat): nat { if a <= b then a else b }

  /** What the handler shows for the page and limit of a request; `keep` is the WHERE clause. */
  function Shown<T>(rows: seq<T>, keep: T -> bool, page: int, limit: int): seq<T> {
    var l := Limit(limit);
    Slice(Keep(rows, keep), ListLimit(l), ListOffset(Offset(Page(page), l)))
  }

  /** A request gets the number of rows it asks for from 1 to 100, twenty if it asks for less, and
      a hundred if it asks for more; the first page if it asks for one before that. */
  lemma RequestedPageAndLimit(page: int, limit: int)
    ensures 1 <= limit <= 100 ==> Limit(limit) == limit
    ensures limit < 1 ==> Limit(limit) == 20
    ensures limit > 100 ==> Limit(limit) == 100
    ensures page >= 1 ==> Page(page) == page
    ensures page < 1 ==> Page(page) == 1
  {
  }

  /** A page number before the first shows the first page, and a page of a longer list is full. */
  lemma ShownPages<T>(rows: seq<T>, keep: T -> bool, page: int, limit: int)
    ensures page < 1 ==> Shown(rows, keep, page, limit) == Shown(rows, keep, 1, limit)
    ensures 1 <= page && page * Limit(limit) <= |Keep(rows, keep)| <= MAX_INT64
      ==> |Shown(rows, keep, page, limit)| == Limit(limit)
  {
    hide Keep;
    InnerClampIsIdle(limit);
    if 1 <= page && page * Limit(limit) <= |Keep(rows, keep)| <= MAX_INT64 {
      PageBefore(page, Limit(limit));
      OffsetExactIffItFits(page, Limit(limit));
    }
  }

  /** listReports's own clamp changes nothing after the handler's. */
  lemma InnerClampIsIdle(limit: int)
    ensures 1 <= Limit(limit) <= 100 && ListLimit(Limit(limit)) == Limit(limit)
  {
  }

  /** The product (page - 1) * limit is exact iff it fits into 64 bits. */
  lemma OffsetExactIffItFits(page: int, limit: int)
    requires 1 <= page <= MAX_INT64 && 1 <= limit <= 100
    ensures (page - 1) * limit >= 0
    ensures Offset(page, limit) == (page - 1) * limit <==> (page - 1) * limit <= MAX_INT64
  {
    var n := (page - 1) * limit;
    assert n >= 0;
    if n <= MAX_INT64 {
      assert n % TWO_TO_64 == n;
    }
  }

  /** Pages 1..n of a list, one after the other. */
  function Pages<T>(rows: seq<T>, keep: T -> bool, limit: int, n: nat): seq<T> {
    if n == 0 then [] else Pages(rows, keep, limit, n - 1) + Shown(rows, keep, n, limit)
  }

  /** A page whose offset fits shows the rows between its own offset and the next page's. */
  lemma PageIsItsSlice<T>(rows: seq<T>, keep: T -> bool, page: int, limit: int, offset: nat)
    requires 1 <= page <= MAX_INT64 && offset == (page - 1) * Limit(limit) <= MAX_INT64
    ensures var all, l := Keep(rows, keep), Limit(limit);
      Shown(rows, keep, page, limit) == all[Least(|all|, offset)..Least(|all|, offset + l)]
  {
    InnerClampIsIdle(limit);
    OffsetExactIffItFits(page, Limit(limit));
  }

  lemma ConsecutiveSlices<T>(all: seq<T>, k: nat, l: nat)
    ensures all[..Least(|all|, k)] + all[Least(|all|, k)..Least(|all|, k + l)] == all[..Least(|all|, k + l)]
  {
  }

  lemma {:induction false} PagesArePrefix<T>(rows: seq<T>, keep: T -> bool, limit: int, n: nat, k: nat)
    requires k == n * Limit(limit) <= MAX_INT64
    ensures Pages(rows, keep, limit, n) == Keep(rows, keep)[..Least(|Keep(rows, keep)|, k)]
  {
    if n > 0 {
      hide Keep, Shown, Limit;
      InnerClampIsIdle(limit);
      var l := Limit(limit);
      PageBefore(n, l);
      PagesArePrefix(rows, keep, limit, n - 1, k - l);
      PageIsItsSlice(rows, keep, n, limit, k - l);
      ConsecutiveSlices(Keep(rows, keep), k - l, l);
    }
  }

  lemma PageBefore(n: nat, l: nat)
    requires n > 0 && l > 0
    ensures (n - 1) * l == n * l - l >= 0 && n <= n * l
  {
  }

  lemma TotalPagesCover(total: nat, limit: int)
    requires 1 <= limit <= 100
    ensures TotalPages(total, limit) >= 0
    ensures total <= TotalPages(total, limit) * limit < total + limit
  {
    var n := TotalPages(total, limit);
    assert total + limit - 1 == limit * n + (total + limit - 1) % limit;
  }

  /** Pages 1..total_pages, concatenated, are the filtered list exactly once, in order. */
  lemma PagesPartitionTheList<T>(rows: seq<T>, keep: T -> bool, limit: int)
    requires |Keep(rows, keep)| <= MAX_INT64 - 100
    ensures TotalPages(|Keep(rows, keep)|, Limit(limit)) >= 0
    ensures Pages(rows, keep, limit, TotalPages(|Keep(rows, keep)|, Limit(limit))) == Keep(rows, keep)
  {
    hide Keep, Pages;
    var total, l := |Keep(rows, keep)|, Limit(limit);
    TotalPagesCover(total, l);
    PagesArePrefix(rows, keep, limit, TotalPages(total, l), TotalPages(total, l) * l);
  }

  /** Exactly when a page shows nothing: unless there are no rows at all, (page - 1) * limit
      modulo 2^64 has to be below 2^63 and no less than their number. A page past total_pages
      for which it is not shows rows of an earlier page again. */
  lemma PageIsEmptyIff<T>(rows: seq<T>, keep: T -> bool, page: int, limit: int)
    requires 1 <= page <= MAX_INT64
    ensures Shown(rows, keep, page, limit) == []
       <==> |Keep(rows, keep)| == 0
            || |Keep(rows, keep)| <= ((page - 1) * Limit(limit)) % 0x1_0000_0000_0000_0000 <= 0x7FFF_FFFF_FFFF_FFFF
  {
    hide Keep;
    InnerClampIsIdle(limit);
  }

  /** So every page after the last is empty as long as its offset fits into 64 bits. */
  lemma LaterPageIsEmpty<T>(rows: seq<T>, keep: T -> bool, page: int, limit: int)
    requires TotalPages(|Keep(rows, keep)|, Limit(limit)) < page <= MAX_INT64
    requires (page - 1) * Limit(limit) <= MAX_INT64
    ensures Shown(rows, keep, page, limit) == []
  {
    hide Keep, Shown, Int64, Limit;
    InnerClampIsIdle(limit);
    var total, l := |Keep(rows, keep)|, Limit(limit);
    TotalPagesCover(total, l);
    Product(TotalPages(total, l), page - 1, l);
    OffsetFits(page, l);
    PageIsEmptyIff(rows, keep, page, limit);
  }

  lemma OffsetFits(page: int, l: int)
    requires 1 <= page && 1 <= l && (page - 1) * l <= MAX_INT64
    ensures ((page - 1) * l) % TWO_TO_64 == (page - 1) * l >= 0
  {
    assert (page - 1) * l >= 0;
  }

  lemma Product(a: nat, b: nat, l: nat)
    requires a <= b
    ensures a * l <= b * l
  {
  }

  /** A page number too long for an int64 is read as the largest one, whose offset wraps to
      -40 and is clamped to 0: the request shows the first page again. */
  lemma HugePageShowsFirstPage<T>(rows: seq<T>, keep: T -> bool)
    ensures Shown(rows, keep, MAX_INT64, 20) == Shown(rows, keep, 1, 20)
  {
    assert Offset(MAX_INT64, 20) == -40;
  }
}
