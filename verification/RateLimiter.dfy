/** backend/ratelimit.go: a token bucket per IP in a map that is garbage-collected. A token
    is worth `interval` nanoseconds of credit, so the bucket refills by one credit a
    nanosecond and all arithmetic is on integers. */
module RateLimiter {
  const MINUTE: int := 60_000_000_000
  const IDLE_TTL: int := 600_000_000_000   // ipLimiterIdleTTL, 10 minutes

  type Ip = string

  /** rate.Limiter: the credit it had at its last admitted request. */
  datatype Bucket = Bucket(credit: int, last: int)

  datatype Limits = Limits(interval: nat, burst: nat) {
    function Capacity(): nat { burst * interval }

    // what a new rate.Limiter holds
    function Full(now: int): Bucket { Bucket(Capacity(), now) }

    function Min(a: int, b: int): int { if a <= b then a else b }

    function Credit(b: Bucket, now: int): int {
      Min(Capacity(), b.credit + (if now >= b.last then now - b.last else 0))
    }

    // Limiter.Allow: a refused request leaves the limiter as it was
    function Allow(b: Bucket, now: int): (Bucket, bool) {
      var c := Credit(b, now);
      if c >= interval then (Bucket(c - interval, now), true) else (b, false)
    }
  }

  /** newIPRateLimiter(perMinute): time.Minute / perMinute, truncated, and burst perMinute. The
      limiter takes an interval of zero or less as no limit, whatever the burst. */
  function LimitsFor(perMinute: int): Limits
    requires perMinute != 0
  {
    if perMinute < 0 then Limits(0, 0) else Limits(MINUTE / perMinute, perMinute)
  }

  datatype Entry = Entry(limiter: Bucket, lastSeen: int)

  type Table = map<Ip, Entry>

  datatype Event = Request(ip: Ip, at: int) | Collect(at: int)

  function Answer(l: Limits, t: Table, ip: Ip, now: int): (Table, bool) {
    if ip == "" then (t, true)
    else
      var b := if ip in t then t[ip].limiter else l.Full(now);
      var (b', ok) := l.Allow(b, now);
      (t[ip := Entry(b', now)], ok)
  }

  function Collected(t: Table, now: int): Table {
    map ip | ip in t && t[ip].lastSeen >= now - IDLE_TTL :: t[ip]
  }

  class IpRateLimiter {
    var limiters: Table
    const limits: Limits

    constructor (perMinute: int)
      requires perMinute != 0    // the division panics
      ensures limits == LimitsFor(perMinute) && limiters == map[]
      ensures perMinute > 0 ==> limits.burst == perMinute && limits.Capacity() <= 60_000_000_000
      ensures perMinute > 0 ==> 60_000_000_000 - perMinute < perMinute * limits.interval <= 60_000_000_000
    {
      limits := LimitsFor(perMinute);
      limiters := map[];
      new;
      if perMinute > 0 { TruncatedShare(perMinute); }
    }

    /** The IP's limiter, created full if there is none, marked as seen now. */
    method Get(ip: Ip, now: int) returns (b: Bucket)
      modifies this
      ensures b == if ip in old(limiters) then old(limiters)[ip].limiter else limits.Full(now)
      ensures limiters == old(limiters)[ip := Entry(b, now)]
    {
      if ip in limiters {
        limiters := limiters[ip := limiters[ip].(lastSeen := now)];
        return limiters[ip].limiter;
      }
      b := limits.Full(now);
      limiters := limiters[ip := Entry(b, now)];
    }

    method Allow(ip: Ip, now: int) returns (ok: bool)
      modifies this
      ensures (limiters, ok) == Answer(limits, old(limiters), ip, now)
      ensures forall other :: other != ip ==> (other in limiters <==> other in old(limiters))
      ensures forall other :: other != ip && other in limiters ==> limiters[other] == old(limiters)[other]
    {
      if ip == "" {
        return true;
      }
      var b := Get(ip, now);
      var (b', allowed) := limits.Allow(b, now);
      limiters := limiters[ip := limiters[ip].(limiter := b')];
      assert limiters == old(limiters)[ip := Entry(b', now)];
      return allowed;
    }

    /** One tick of gcLoop: deletes exactly the entries not seen for ten minutes. */
    method Collect(now: int)
      modifies this
      ensures limiters == Collected(old(limiters), now)
      ensures forall ip :: ip in limiters <==>
        ip in old(limiters) && now - old(limiters)[ip].lastSeen <= 10 * 60 * 1_000_000_000
      ensures forall ip :: ip in limiters ==> limiters[ip] == old(limiters)[ip]
    {
      var cutoff := now - IDLE_TTL;
      var pending := limiters.Keys;
      while pending != {}
        invariant pending <= old(limiters).Keys
        invariant forall ip :: ip in limiters <==>
          ip in old(limiters) && (ip in pending || old(limiters)[ip].lastSeen >= cutoff)
        invariant forall ip :: ip in limiters ==> limiters[ip] == old(limiters)[ip]
        decreases pending
      {
        var ip :| ip in pending;
        pending := pending - {ip};
        if limiters[ip].lastSeen < cutoff {
          limiters := limiters - {ip};
        }
      }
    }
  }

  // ---- schedules ------------------------------------------------------------------------------

  function Step(l: Limits, t: Table, e: Event): Table {
    match e
    case Request(ip, at) => Answer(l, t, ip, at).0
    case Collect(at) => Collected(t, at)
  }

  function After(l: Limits, es: seq<Event>): Table {
    if es == [] then map[] else Step(l, After(l, es[..|es| - 1]), es[|es| - 1])
  }

  /** The times at which `ip` asked. */
  function Asked(es: seq<Event>, ip: Ip): seq<int> {
    if es == [] then [] else
      var init := Asked(es[..|es| - 1], ip);
      match es[|es| - 1]
      case Request(i, at) => if i == ip then init + [at] else init
      case Collect(_) => init
  }

  /** The answers that `ip` got. */
  function Answers(l: Limits, es: seq<Event>, ip: Ip): seq<bool> {
    if es == [] then [] else
      var init := Answers(l, es[..|es| - 1], ip);
      match es[|es| - 1]
      case Request(i, at) => if i == ip then init + [Answer(l, After(l, es[..|es| - 1]), ip, at).1] else init
      case Collect(_) => init
  }

  // The reference: one bucket on its own, never collected, asked at the given times.

  function Alone(l: Limits, times: seq<int>): Bucket
    requires times != []
  {
    if |times| == 1 then l.Allow(l.Full(times[0]), times[0]).0
    else l.Allow(Alone(l, times[..|times| - 1]), times[|times| - 1]).0
  }

  function AloneAnswers(l: Limits, times: seq<int>): seq<bool> {
    if times == [] then [] else
      var init, now := times[..|times| - 1], times[|times| - 1];
      AloneAnswers(l, init) + [l.Allow(if init == [] then l.Full(now) else Alone(l, init), now).1]
  }

  function TimeOf(e: Event): int {
    e.at
  }

  ghost predicate InOrder(es: seq<Event>) {
    forall i, j :: 0 <= i <= j < |es| ==> TimeOf(es[i]) <= TimeOf(es[j])
  }

  // ---- eviction cannot be observed ----------------------------------------------------------------

  /** The bucket fills up well within the idle time, whatever perMinute is. */
  lemma BucketFillsInAMinute(perMinute: int)
    requires perMinute != 0
    ensures 0 <= LimitsFor(perMinute).interval <= LimitsFor(perMinute).Capacity() <= MINUTE < IDLE_TTL
  {
    if perMinute > 0 { TruncatedShare(perMinute); }
  }

  lemma TruncatedShare(perMinute: int)
    requires perMinute > 0
    ensures MINUTE - perMinute < perMinute * (MINUTE / perMinute) <= MINUTE
    ensures 0 <= MINUTE / perMinute <= perMinute * (MINUTE / perMinute)
  {
    var q := MINUTE / perMinute;
    assert MINUTE == perMinute * q + MINUTE % perMinute;
    assert perMinute * q == q + (perMinute - 1) * q;
    assert (perMinute - 1) * q >= 0;
  }

  /** A lone bucket never holds negative credit and was last admitted no later than it was last asked. */
  lemma {:induction false} AloneBounds(l: Limits, times: seq<int>)
    requires times != [] && forall i, j :: 0 <= i <= j < |times| ==> times[i] <= times[j]
    ensures 0 <= Alone(l, times).credit <= l.Capacity() && Alone(l, times).last <= times[|times| - 1]
  {
    if |times| > 1 {
      AloneBounds(l, times[..|times| - 1]);
    } else {
      if l.burst >= 1 { assert l.Capacity() >= l.interval by { assert l.burst * l.interval >= l.interval; } }
    }
  }

  /** The table agrees with the reference about `ip`, or has dropped a bucket that is full by now. */
  ghost predicate Agrees(l: Limits, t: Table, times: seq<int>, ip: Ip, now: int) {
    && (ip in t ==> times != [] && t[ip] == Entry(Alone(l, times), times[|times| - 1]))
    && (ip !in t && times != [] ==> forall later :: later >= now ==> l.Credit(Alone(l, times), later) == l.Capacity())
  }

  lemma {:induction false} AskedInOrder(es: seq<Event>, ip: Ip)
    requires InOrder(es)
    ensures var ts := Asked(es, ip);
      && (forall i, j :: 0 <= i <= j < |ts| ==> ts[i] <= ts[j])
      && (ts != [] ==> es != [] && ts[|ts| - 1] <= TimeOf(es[|es| - 1]))
  {
    if es != [] {
      AskedInOrder(es[..|es| - 1], ip);
    }
  }

  /** `ip`'s own request: the table answers, and is left, as the reference is. */
  lemma RequestAgrees(l: Limits, t: Table, times: seq<int>, ip: Ip, now: int, before: int)
    requires ip != "" && l.Capacity() >= l.interval && before <= now && Agrees(l, t, times, ip, before)
    ensures |AloneAnswers(l, times + [now])| == |times| + 1
    ensures Answer(l, t, ip, now).1 == AloneAnswers(l, times + [now])[|times|]
    ensures Agrees(l, Answer(l, t, ip, now).0, times + [now], ip, now)
  {
    assert (times + [now])[..|times|] == times;
    AloneAnswersLength(l, times);
    if ip !in t && times != [] {
      assert l.Credit(Alone(l, times), now) == l.Capacity();
    }
  }

  lemma {:induction false} AloneAnswersLength(l: Limits, times: seq<int>)
    ensures |AloneAnswers(l, times)| == |times|
  {
    if times != [] { AloneAnswersLength(l, times[..|times| - 1]); }
  }

  /** A collection drops `ip` only when its bucket is full. */
  lemma CollectAgrees(l: Limits, t: Table, times: seq<int>, ip: Ip, now: int, before: int)
    requires l.Capacity() <= IDLE_TTL && before <= now && Agrees(l, t, times, ip, before)
    requires times != [] ==> 0 <= Alone(l, times).credit && Alone(l, times).last <= times[|times| - 1]
    ensures Agrees(l, Collected(t, now), times, ip, now)
  {
    hide Alone;
  }

  lemma OthersAgree(l: Limits, t: Table, times: seq<int>, ip: Ip, other: Ip, now: int, before: int)
    requires other != ip && before <= now && Agrees(l, t, times, ip, before)
    ensures Agrees(l, Answer(l, t, other, now).0, times, ip, now)
  {
    hide Alone;
  }

  lemma {:induction false} ScheduleAgrees(l: Limits, es: seq<Event>, ip: Ip)
    requires ip != "" && InOrder(es) && l.interval <= l.Capacity() <= IDLE_TTL
    ensures Agrees(l, After(l, es), Asked(es, ip), ip, if es == [] then 0 else TimeOf(es[|es| - 1]))
    ensures Answers(l, es, ip) == AloneAnswers(l, Asked(es, ip))
  {
    hide Answer, Collected, Agrees, AloneAnswers, Alone;
    if es == [] {
      EmptyAgrees(l, ip);
    } else {
      var init, e := es[..|es| - 1], es[|es| - 1];
      var times := Asked(init, ip);
      var before := if init == [] then TimeOf(e) else TimeOf(init[|init| - 1]);
      ScheduleAgrees(l, init, ip);
      AskedInOrder(init, ip);
      if init == [] { StartAgrees(l, ip, before); }
      if times != [] { AloneBounds(l, times); }
      match e
      case Request(i, now) =>
        if i == ip {
          RequestAgrees(l, After(l, init), times, ip, now, before);
          AloneAnswersSnoc(l, times, now);
        } else {
          OthersAgree(l, After(l, init), times, ip, i, now, before);
        }
      case Collect(now) =>
        CollectAgrees(l, After(l, init), times, ip, now, before);
    }
  }

  lemma EmptyAgrees(l: Limits, ip: Ip)
    ensures Agrees(l, map[], [], ip, 0) && AloneAnswers(l, []) == []
  {
  }

  lemma StartAgrees(l: Limits, ip: Ip, now: int)
    ensures Agrees(l, map[], [], ip, now)
  {
  }

  lemma AloneAnswersSnoc(l: Limits, times: seq<int>, now: int)
    ensures |AloneAnswers(l, times + [now])| == |times| + 1
    ensures AloneAnswers(l, times + [now]) == AloneAnswers(l, times) + [AloneAnswers(l, times + [now])[|times|]]
  {
    assert (times + [now])[..|times|] == times;
    AloneAnswersLength(l, times);
  }

  /** For every schedule of requests and collections and every perMinute: an IP gets
      exactly the answers of a bucket of its own that is never collected. So neither a
      collection nor another IP's requests can be observed. */
  lemma EvictionIsUnobservable(perMinute: int, es: seq<Event>, ip: Ip)
    requires perMinute != 0 && InOrder(es) && ip != ""
    ensures var l := LimitsFor(perMinute); Answers(l, es, ip) == AloneAnswers(l, Asked(es, ip))
  {
    var l := LimitsFor(perMinute);
    BucketFillsInAMinute(perMinute);
    ScheduleAgrees(l, es, ip);
  }

  /** A request without an IP is always admitted and leaves the table alone. */
  lemma {:induction false} EmptyIpAlwaysAdmitted(l: Limits, es: seq<Event>, i: nat)
    requires i < |Answers(l, es, "")|
    ensures Answers(l, es, "")[i]
  {
    if es != [] && i < |Answers(l, es[..|es| - 1], "")| {
      EmptyIpAlwaysAdmitted(l, es[..|es| - 1], i);
    }
  }

  // ---- the rate bound -----------------------------------------------------------------------------

  function Admitted(answers: seq<bool>): nat {
    if answers == [] then 0 else Admitted(answers[..|answers| - 1]) + (if answers[|answers| - 1] then 1 else 0)
  }

  /** One request moves credit from the bucket to the spending, and the refill does the rest. */
  lemma AllowCovers(l: Limits, b: Bucket, now: int, later: int, spent: nat, covered: int)
    requires later >= now
    requires spent * l.interval + l.Credit(b, now) <= covered
    requires spent * l.interval + l.Credit(b, later) <= covered + (later - now)
    ensures var (b', ok) := l.Allow(b, now);
      (if ok then spent + 1 else spent) * l.interval + l.Credit(b', later) <= covered + (later - now)
  {
    assert (spent + 1) * l.interval == spent * l.interval + l.interval;
  }

  function BucketBefore(l: Limits, times: seq<int>, j: nat): Bucket
    requires j < |times|
  {
    if j == 0 then l.Full(times[j]) else Alone(l, times[..j])
  }

  /** What the requests i..j have spent, plus what the bucket holds at a later time, is
      covered by a full bucket plus the refill since request i. */
  lemma {:induction false} SpentIsCovered(l: Limits, times: seq<int>, i: nat, j: nat, later: int)
    requires i <= j < |times| && later >= times[j]
    requires forall a, b :: 0 <= a <= b < |times| ==> times[a] <= times[b]
    ensures |AloneAnswers(l, times)| == |times|
    ensures Admitted(AloneAnswers(l, times)[i..j + 1]) * l.interval + l.Credit(Alone(l, times[..j + 1]), later)
         <= l.Capacity() + (later - times[i])
    decreases j
  {
    hide *;
    AnswerAt(l, times, j);
    var answers, b := AloneAnswers(l, times), BucketBefore(l, times, j);
    CreditIsCapped(l, b, times[j]);
    CreditIsCapped(l, b, later);
    AloneStep(l, times, j);
    AdmittedSnoc(answers, i, j);
    if i == j {
      assert 0 * l.interval == 0;
      AllowCovers(l, b, times[j], later, 0, l.Capacity());
    } else {
      SpentIsCovered(l, times, i, j - 1, times[j]);
      SpentIsCovered(l, times, i, j - 1, later);
      assert b == Alone(l, times[..j - 1 + 1]);
      AllowCovers(l, b, times[j], later, Admitted(answers[i..j]), l.Capacity() + (times[j] - times[i]));
    }
  }

  lemma CreditIsCapped(l: Limits, b: Bucket, now: int)
    ensures l.Credit(b, now) <= l.Capacity()
  {
  }

  lemma AloneStep(l: Limits, times: seq<int>, j: nat)
    requires j < |times|
    ensures Alone(l, times[..j + 1]) == l.Allow(BucketBefore(l, times, j), times[j]).0
    ensures j > 0 ==> BucketBefore(l, times, j) == Alone(l, times[..j])
  {
    assert times[..j + 1][..j] == times[..j];
  }

  lemma AdmittedSnoc(answers: seq<bool>, i: nat, j: nat)
    requires i <= j < |answers|
    ensures Admitted(answers[i..j + 1]) == Admitted(answers[i..j]) + (if answers[j] then 1 else 0)
    ensures Admitted(answers[i..i]) == 0
  {
    var window := answers[i..j + 1];
    assert window[..|window| - 1] == answers[i..j];
  }

  lemma {:induction false} AnswerAt(l: Limits, times: seq<int>, j: nat)
    requires j < |times|
    ensures |AloneAnswers(l, times)| == |times|
    ensures AloneAnswers(l, times)[j] == l.Allow(BucketBefore(l, times, j), times[j]).1
  {
    AloneAnswersLength(l, times);
    AloneAnswersLength(l, times[..|times| - 1]);
    if j < |times| - 1 {
      AnswerAt(l, times[..|times| - 1], j);
      assert times[..|times| - 1][..j] == times[..j];
    }
  }

  lemma Multiply(a: int, b: int, n: nat)
    requires a >= b
    ensures a * n >= b * n
  {
  }

  lemma QuotientBound(n: int, burst: nat, interval: nat, span: nat)
    requires interval > 0 && n * interval <= burst * interval + span
    ensures n <= burst + span / interval
  {
    var q := span / interval;
    assert span < (q + 1) * interval;
    assert (burst + q + 1) * interval == burst * interval + (q + 1) * interval;
    if n > burst + q {
      Multiply(n, burst + q + 1, interval);
      assert false;
    }
  }

  /** The rate bound, collections and other IPs included: of any consecutive requests of an
      IP that lie within `span`, at most burst + floor(span / interval) are admitted. */
  lemma RateIsBounded(perMinute: int, es: seq<Event>, ip: Ip, i: nat, j: nat, span: nat)
    requires 1 <= perMinute <= MINUTE && InOrder(es) && ip != ""
    requires i <= j < |Asked(es, ip)| && Asked(es, ip)[j] - Asked(es, ip)[i] <= span
    ensures var l, times := LimitsFor(perMinute), Asked(es, ip);
      && l.interval > 0 && |Answers(l, es, ip)| == |times|
      && Admitted(Answers(l, es, ip)[i..j + 1]) <= perMinute + span / l.interval
  {
    var l, times := LimitsFor(perMinute), Asked(es, ip);
    EvictionIsUnobservable(perMinute, es, ip);
    AskedInOrder(es, ip);
    SpentWithinBurst(l, times, i, j, span);
  }

  /** The bound above stops at one request a nanosecond: beyond it, and for a negative number, the
      interval is not positive, which the limiter takes as no limit at all. */
  lemma BeyondOneANanosecondEverythingPasses(perMinute: int, es: seq<Event>, ip: Ip, i: nat)
    requires perMinute > MINUTE || perMinute < 0
    requires InOrder(es) && i < |Answers(LimitsFor(perMinute), es, ip)|
    ensures Answers(LimitsFor(perMinute), es, ip)[i]
  {
    hide Answers, Asked, AloneAnswers, InOrder;
    var l, times := LimitsFor(perMinute), Asked(es, ip);
    if ip == "" {
      EmptyIpAlwaysAdmitted(l, es, i);
    } else {
      EvictionIsUnobservable(perMinute, es, ip);
      AskedInOrder(es, ip);
      NoIntervalNoLimit(l, times, i);
    }
  }

  lemma NoIntervalNoLimit(l: Limits, times: seq<int>, i: nat)
    requires l.interval == 0 && i < |AloneAnswers(l, times)|
    requires forall a, b :: 0 <= a <= b < |times| ==> times[a] <= times[b]
    ensures AloneAnswers(l, times)[i]
  {
    hide Alone, AloneAnswers;
    assert l.Capacity() == 0;
    AloneAnswersLength(l, times);
    AnswerAt(l, times, i);
    if i > 0 { AloneBounds(l, times[..i]); }
  }

  /** What a bucket has just before a request, from below: it is full, or it has what a full bucket
      and the refill since some earlier request leave after the requests admitted from there on. */
  lemma {:induction false} CreditIsAttained(l: Limits, times: seq<int>, j: nat, later: int) returns (i: nat)
    requires 0 < j <= |times| && later >= times[j - 1] && l.interval <= l.Capacity()
    requires forall a, b :: 0 <= a <= b < |times| ==> times[a] <= times[b]
    ensures |AloneAnswers(l, times)| == |times|
    ensures i <= j
    ensures i == j ==> l.Credit(Alone(l, times[..j]), later) == l.Capacity()
    ensures i < j ==>
      l.Credit(Alone(l, times[..j]), later)
        == l.Capacity() + (later - times[i]) - Admitted(AloneAnswers(l, times)[i..j]) * l.interval
    decreases j
  {
    hide Alone, AloneAnswers, Admitted, Limits.Allow, Limits.Credit;
    var k, answers := j - 1, AloneAnswers(l, times);
    var b, t := BucketBefore(l, times, k), times[k];
    AnswerAt(l, times, k);
    AloneStep(l, times, k);
    AllowOutcome(l, b, t);
    i := k;
    if answers[k] {
      if k > 0 { i := CreditIsAttained(l, times, k, t); }
      AdmittedSnoc(answers, k, k);
      AdmittedSnoc(answers, i, k);
      AdmittedLater(l, b, t, later, Admitted(answers[i..k]), l.Capacity() - times[i]);
      if l.Credit(Alone(l, times[..j]), later) == l.Capacity() { i := j; }
    } else {
      assert k > 0;
      i := CreditIsAttained(l, times, k, later);
      if i == k { i := j; } else { AdmittedSnoc(answers, i, k); }
    }
  }

  lemma AllowOutcome(l: Limits, b: Bucket, t: int)
    ensures l.Allow(b, t).1 <==> l.Credit(b, t) >= l.interval
    ensures !l.Allow(b, t).1 ==> l.Allow(b, t).0 == b
    ensures l.Credit(l.Full(t), t) == l.Capacity()
  {
  }

  lemma AdmittedLater(l: Limits, b: Bucket, t: int, later: int, n: int, top: int)
    requires l.Credit(b, t) == top + t - n * l.interval >= l.interval && later >= t
    ensures var c := l.Credit(l.Allow(b, t).0, later);
      c == l.Capacity() || c == top + later - (n + 1) * l.interval
  {
    assert (n + 1) * l.interval == n * l.interval + l.interval;
  }

  /** The requests admitted from `i` up to `j`, and `j` itself, would have taken more than a full
      bucket and the refill since request `i`. */
  predicate Overdraws(l: Limits, times: seq<int>, answers: seq<bool>, i: nat, j: nat)
    requires i <= j < |times| == |answers|
  {
    (Admitted(answers[i..j]) + 1) * l.interval > l.burst * l.interval + (times[j] - times[i])
  }

  lemma RefusedIffOverdrawn(l: Limits, times: seq<int>, j: nat)
    requires j < |times| && l.interval <= l.Capacity()
    requires forall a, b :: 0 <= a <= b < |times| ==> times[a] <= times[b]
    ensures |AloneAnswers(l, times)| == |times|
    ensures !AloneAnswers(l, times)[j] <==> exists i: nat :: i <= j && Overdraws(l, times, AloneAnswers(l, times), i, j)
  {
    hide Alone, AloneAnswers, Admitted;
    var answers, b := AloneAnswers(l, times), BucketBefore(l, times, j);
    AnswerAt(l, times, j);
    CreditIsCapped(l, b, times[j]);
    AdmittedSnoc(answers, j, j);
    assert forall n: int :: (n + 1) * l.interval == n * l.interval + l.interval;
    forall i: nat | i <= j
      ensures Admitted(answers[i..j]) * l.interval + l.Credit(b, times[j]) <= l.Capacity() + (times[j] - times[i])
    {
      if i < j {
        SpentIsCovered(l, times, i, j - 1, times[j]);
        AloneStep(l, times, j);
      }
    }
    if !answers[j] {
      var i: nat := j;
      if j > 0 {
        AloneStep(l, times, j);
        i := CreditIsAttained(l, times, j, times[j]);
      }
      assert Overdraws(l, times, answers, i, j);
    }
  }

  /** And no request is refused without need: over every schedule, request `j` of an IP is refused
      exactly if, counted from some request `i` on, the admitted ones and this one would exceed the
      burst plus what the time since request `i` refills. */
  lemma RefusalsAreNeeded(perMinute: int, es: seq<Event>, ip: Ip, j: nat)
    requires perMinute >= 1 && InOrder(es) && ip != "" && j < |Asked(es, ip)|
    ensures var l, times, answers := LimitsFor(perMinute), Asked(es, ip), Answers(LimitsFor(perMinute), es, ip);
      && |answers| == |times|
      && (!answers[j] <==> exists i: nat :: i <= j && Overdraws(l, times, answers, i, j))
  {
    BucketFillsInAMinute(perMinute);
    EvictionIsUnobservable(perMinute, es, ip);
    AskedInOrder(es, ip);
    hide Answers, Asked, AloneAnswers, Overdraws, InOrder;
    RefusedIffOverdrawn(LimitsFor(perMinute), Asked(es, ip), j);
  }

  /** In particular the first perMinute requests of an IP all pass, however close together. */
  lemma BurstPasses(perMinute: int, es: seq<Event>, ip: Ip, j: nat)
    requires perMinute >= 1 && InOrder(es) && ip != "" && j < |Asked(es, ip)| && j < perMinute
    ensures |Answers(LimitsFor(perMinute), es, ip)| == |Asked(es, ip)| && Answers(LimitsFor(perMinute), es, ip)[j]
  {
    var l, times, answers := LimitsFor(perMinute), Asked(es, ip), Answers(LimitsFor(perMinute), es, ip);
    RefusalsAreNeeded(perMinute, es, ip, j);
    AskedInOrder(es, ip);
    hide Answers, Asked;
    if i: nat :| i <= j && Overdraws(l, times, answers, i, j) {
      AdmittedAtMost(answers[i..j]);
      Multiply(perMinute, Admitted(answers[i..j]) + 1, l.interval);
      assert false;
    }
  }

  lemma {:induction false} AdmittedAtMost(answers: seq<bool>)
    ensures Admitted(answers) <= |answers|
  {
    if answers != [] { AdmittedAtMost(answers[..|answers| - 1]); }
  }

  lemma SpentWithinBurst(l: Limits, times: seq<int>, i: nat, j: nat, span: nat)
    requires l.interval > 0 && i <= j < |times| && times[j] - times[i] <= span
    requires forall a, b :: 0 <= a <= b < |times| ==> times[a] <= times[b]
    ensures |AloneAnswers(l, times)| == |times|
    ensures Admitted(AloneAnswers(l, times)[i..j + 1]) <= l.burst + span / l.interval
  {
    hide Alone, AloneAnswers, Admitted;
    SpentIsCovered(l, times, i, j, times[j]);
    AloneBounds(l, times[..j + 1]);
    QuotientBound(Admitted(AloneAnswers(l, times)[i..j + 1]), l.burst, l.interval, span);
  }
}
