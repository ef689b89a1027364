/** ICE candidate buffering under every interleaving of messages and suspended handlers. */
module IceBuffering {
  import opened Options
  import opened Signaling

  predicate Teardown(e: Event) {
    e.FindNext? || e.Prewarm?
  }

  ghost predicate OneAttempt(es: seq<Event>) {
    forall i :: 0 <= i < |es| ==> !Teardown(es[i])
  }

  /** addCandidate was never started on a connection without a remote description. */
  ghost predicate NoneEarly(s: Client) {
    forall i :: 0 <= i < |s.handed| ==> s.handed[i].described
  }

  /** Connections are numbered in the order of their creation. */
  ghost predicate Numbered(s: Client) {
    && (forall q :: q in s.described ==> q < s.nextPc)
    && (forall i :: 0 <= i < |s.tasks| && (s.tasks[i].DescribingOffer? || s.tasks[i].DescribingAnswer?) ==> s.tasks[i].pc < s.nextPc)
    && (s.peer.Some? ==> s.peer.value < s.nextPc)
  }

  lemma {:induction false} RunCreates(s: Client, es: seq<Event>)
    requires Numbered(s)
    ensures Numbered(Run(s, es))
  {
    hide Step, Numbered;
    if es != [] {
      RunCreates(s, es[..|es| - 1]);
      StepCreates(Run(s, es[..|es| - 1]), es[|es| - 1]);
    }
  }

  lemma StepCreates(s: Client, e: Event)
    requires Numbered(s)
    ensures Numbered(Step(s, e))
  {
    if e.Resume? && e.i < |s.tasks| { ResumeCreates(s, e.i, e.ok); }
  }

  lemma ResumeCreates(s: Client, i: nat, ok: bool)
    requires Numbered(s) && i < |s.tasks|
    ensures Numbered(ResumeTask(s, i, ok))
  {
  }

  // ---- every candidate in exactly one place ------------------------------------------------------

  function BeingFlushed(tasks: seq<Task>): multiset<Candidate> {
    if tasks == [] then multiset{} else
      BeingFlushed(tasks[..|tasks| - 1]) + Rest(tasks[|tasks| - 1])
  }

  function Rest(t: Task): multiset<Candidate> {
    if t.Flushing? then multiset(t.rest) else multiset{}
  }

  function HandedOver(handed: seq<Handed>): multiset<Candidate> {
    if handed == [] then multiset{} else
      HandedOver(handed[..|handed| - 1]) + multiset{handed[|handed| - 1].candidate}
  }

  /** Received candidates, with multiplicity, are those buffered, being flushed, handed over or
      discarded by a teardown. */
  ghost predicate Accounted(s: Client) {
    multiset(s.received) == multiset(s.pending) + BeingFlushed(s.tasks) + HandedOver(s.handed) + multiset(s.discarded)
  }

  lemma {:induction false} FlushedUpdate(tasks: seq<Task>, i: nat, t: Task)
    requires i < |tasks|
    ensures Rest(tasks[i]) <= BeingFlushed(tasks)
    ensures BeingFlushed(tasks[i := t]) == BeingFlushed(tasks) - Rest(tasks[i]) + Rest(t)
  {
    hide Rest;
    var n := |tasks| - 1;
    if i == n {
      assert tasks[i := t][..n] == tasks[..n];
    } else {
      assert tasks[i := t][..n] == tasks[..n][i := t];
      assert tasks[i := t][n] == tasks[n];
      FlushedUpdate(tasks[..n], i, t);
    }
  }

  lemma SpawnFlushes(tasks: seq<Task>, t: Task)
    requires !t.Flushing?
    ensures BeingFlushed(tasks + [t]) == BeingFlushed(tasks)
  {
    assert (tasks + [t])[..|tasks|] == tasks;
  }

  lemma HandedSnoc(handed: seq<Handed>, h: Handed)
    ensures HandedOver(handed + [h]) == HandedOver(handed) + multiset{h.candidate}
  {
    assert (handed + [h])[..|handed|] == handed;
  }

  /** Handing over the first of some candidates and keeping the rest for later balances. */
  lemma SplitFirst(cs: seq<Candidate>)
    requires cs != []
    ensures multiset(cs) == multiset{cs[0]} + multiset(cs[1..])
  {
    assert cs == [cs[0]] + cs[1..];
  }

  lemma Rebalance(all: multiset<Candidate>, a: multiset<Candidate>, b: multiset<Candidate>, h: multiset<Candidate>,
                  d: multiset<Candidate>, one: multiset<Candidate>, rest: multiset<Candidate>)
    ensures all == (one + rest) + b + h + d ==> all == multiset{} + (b - multiset{} + rest) + (h + one) + d
    ensures one + rest <= b && all == a + b + h + d ==> all == a + (b - (one + rest) + rest) + (h + one) + d
  {
  }

  lemma FlushAccounted(s: Client, i: nat, own: Pc, answering: bool)
    requires Accounted(s) && i < |s.tasks| && !s.tasks[i].Flushing?
    ensures Accounted(Flush(s, i, own, answering))
  {
    hide BeingFlushed, HandedOver;
    if s.peer.None? || s.pending == [] {
      FlushedUpdate(s.tasks, i, AfterFlush(own, answering));
    } else {
      var pc := s.peer.value;
      var h := Handed(pc, s.pending[0], pc in s.described);
      FlushedUpdate(s.tasks, i, Flushing(pc, s.pending[1..], own, answering));
      HandedSnoc(s.handed, h);
      SplitFirst(s.pending);
      Rebalance(multiset(s.received), multiset{}, BeingFlushed(s.tasks), HandedOver(s.handed), multiset(s.discarded),
                multiset{s.pending[0]}, multiset(s.pending[1..]));
    }
  }

  lemma FlushingAccounted(s: Client, i: nat, ok: bool)
    requires Accounted(s) && i < |s.tasks| && s.tasks[i].Flushing? && s.tasks[i].rest != []
    ensures Accounted(ResumeTask(s, i, ok))
  {
    hide BeingFlushed, HandedOver, Flush;
    var t := s.tasks[i];
    FlushedUpdate(s.tasks, i, Flushing(t.pc, t.rest[1..], t.own, t.answering));
    HandedSnoc(s.handed, Handed(t.pc, t.rest[0], t.pc in s.described));
    SplitFirst(t.rest);
    Rebalance(multiset(s.received), multiset(s.pending), BeingFlushed(s.tasks), HandedOver(s.handed), multiset(s.discarded),
              multiset{t.rest[0]}, multiset(t.rest[1..]));
  }

  lemma ReplaceAccounted(s: Client, s': Client, i: nat)
    requires Accounted(s) && i < |s.tasks| && i < |s'.tasks|
    requires s'.tasks == s.tasks[i := s'.tasks[i]] && Rest(s.tasks[i]) == Rest(s'.tasks[i]) == multiset{}
    requires s'.received == s.received && s'.pending == s.pending && s'.handed == s.handed && s'.discarded == s.discarded
    ensures Accounted(s')
  {
    hide BeingFlushed, HandedOver, Rest;
    FlushedUpdate(s.tasks, i, s'.tasks[i]);
  }

  lemma ResumeAccounted(s: Client, i: nat, ok: bool)
    requires Accounted(s) && i < |s.tasks|
    ensures Accounted(ResumeTask(s, i, ok))
  {
    hide BeingFlushed, HandedOver, Flush, Accounted;
    var t := s.tasks[i];
    if (t.DescribingOffer? || t.DescribingAnswer?) && ok {
      var d := s.(described := s.described + {t.pc}, remoteDescriptionSet := true);
      assert Accounted(d) by { FlagKeepsAccount(s, d); }
      FlushAccounted(d, i, t.pc, t.DescribingOffer?);
    } else if t.Flushing? && t.rest != [] {
      FlushingAccounted(s, i, ok);
    } else {
      ReplaceAccounted(s, ResumeTask(s, i, ok), i);
    }
  }

  lemma FlagKeepsAccount(s: Client, s': Client)
    requires Accounted(s)
    requires s'.received == s.received && s'.pending == s.pending && s'.handed == s.handed && s'.tasks == s.tasks
    requires s'.discarded == s.discarded
    ensures Accounted(s')
  {
    hide BeingFlushed, HandedOver;
  }

  lemma TeardownAccounted(s: Client)
    requires Accounted(s)
    ensures Accounted(Spawn(Reset(s), CreatingFresh)) && Accounted(Spawn(Reset(s).(peer := None), CreatingFresh))
  {
    hide BeingFlushed, HandedOver;
    SpawnFlushes(s.tasks, CreatingFresh);
    assert multiset(s.discarded + s.pending) == multiset(s.discarded) + multiset(s.pending);
  }

  lemma CandidateAccounted(s: Client, c: Candidate)
    requires Accounted(s)
    ensures Accounted(OnCandidate(s, c))
  {
    hide BeingFlushed, HandedOver;
    if s.peer.Some? { HandedSnoc(s.handed, Handed(s.peer.value, c, s.peer.value in s.described)); }
  }

  lemma StepAccounted(s: Client, e: Event)
    requires Accounted(s)
    ensures Accounted(Step(s, e))
  {
    hide BeingFlushed, HandedOver, ResumeTask, OnCandidate;
    match e
    case Resume(i, ok) =>
      if i < |s.tasks| { ResumeAccounted(s, i, ok); }
    case CandidateArrives(c) =>
      CandidateAccounted(s, c);
    case OfferArrives =>
      SpawnFlushes(s.tasks, if s.peer.Some? then DescribingOffer(s.peer.value) else CreatingForOffer);
    case AnswerArrives =>
      if s.peer.Some? { SpawnFlushes(s.tasks, DescribingAnswer(s.peer.value)); }
    case FindNext =>
      TeardownAccounted(s);
    case Prewarm =>
      TeardownAccounted(s);
  }

  lemma {:induction false} RunAccounted(s: Client, es: seq<Event>)
    requires Accounted(s)
    ensures Accounted(Run(s, es))
  {
    hide Step, Accounted;
    if es != [] {
      RunAccounted(s, es[..|es| - 1]);
      StepAccounted(Run(s, es[..|es| - 1]), es[|es| - 1]);
    }
  }

  // ---- an empty buffer under the flag ------------------------------------------------------------

  /** Candidates wait in the buffer only for a connection whose flag is not set. */
  predicate BufferTidy(s: Client) {
    s.pending != [] ==> s.peer.Some? && !s.remoteDescriptionSet
  }

  lemma StepTidy(s: Client, e: Event)
    requires BufferTidy(s)
    ensures BufferTidy(Step(s, e))
  {
  }

  lemma {:induction false} RunTidy(s: Client, es: seq<Event>)
    requires BufferTidy(s)
    ensures BufferTidy(Run(s, es))
  {
    hide Step, BufferTidy;
    if es != [] {
      RunTidy(s, es[..|es| - 1]);
      StepTidy(Run(s, es[..|es| - 1]), es[|es| - 1]);
    } else {
      assert Run(s, es) == s;
    }
  }

  // ---- when nothing can go wrong -----------------------------------------------------------------

  predicate Creates(t: Task) {
    t.CreatingForOffer? || t.CreatingFresh?
  }

  predicate Describes(t: Task) {
    t.DescribingOffer? || t.DescribingAnswer?
  }

  ghost predicate NoneCreates(tasks: seq<Task>) {
    forall i :: 0 <= i < |tasks| ==> !Creates(tasks[i])
  }

  /** No suspended handler is about to raise the flag for another connection than `p`. */
  ghost predicate NoneDescribesOther(tasks: seq<Task>, p: Pc) {
    forall i :: 0 <= i < |tasks| && Describes(tasks[i]) ==> tasks[i].pc == p
  }

  /** What is being flushed goes to a described connection. */
  ghost predicate FlushesDescribed(s: Client) {
    forall i :: 0 <= i < |s.tasks| && s.tasks[i].Flushing? && s.tasks[i].rest != [] ==> s.tasks[i].pc in s.described
  }

  /** There is a connection and none is being created; it is described, or the flag is down and
      only its own description can raise it. */
  ghost predicate Ready(s: Client) {
    && s.peer.Some?
    && NoneCreates(s.tasks)
    && (s.peer.value in s.described || (!s.remoteDescriptionSet && NoneDescribesOther(s.tasks, s.peer.value)))
    && FlushesDescribed(s)
  }

  lemma ResumeReady(s: Client, i: nat, ok: bool)
    requires Ready(s) && NoneEarly(s) && i < |s.tasks|
    ensures Ready(ResumeTask(s, i, ok)) && NoneEarly(ResumeTask(s, i, ok))
  {
    assert !Creates(s.tasks[i]);
  }

  lemma StepReady(s: Client, e: Event)
    requires Ready(s) && NoneEarly(s) && !Teardown(e)
    ensures Ready(Step(s, e)) && NoneEarly(Step(s, e))
  {
    if e.Resume? && e.i < |s.tasks| { ResumeReady(s, e.i, e.ok); }
  }

  lemma {:induction false} RunReady(s: Client, es: seq<Event>)
    requires Ready(s) && NoneEarly(s) && OneAttempt(es)
    ensures Ready(Run(s, es)) && NoneEarly(Run(s, es))
  {
    hide Step, Ready, NoneEarly;
    if es != [] {
      RunReady(s, es[..|es| - 1]);
      StepReady(Run(s, es[..|es| - 1]), es[|es| - 1]);
    }
  }

  // ---- and when something can ----------------------------------------------------------------------

  ghost predicate SafeAttempt(s: Client) {
    forall es :: OneAttempt(es) ==> NoneEarly(Run(s, es))
  }

  lemma Begin(s: Client) returns (es: seq<Event>)
    ensures es == [] && OneAttempt(es) && Run(s, es) == s
  {
    es := [];
  }

  lemma Then(s: Client, es: seq<Event>, x: Client, e: Event) returns (es': seq<Event>, x': Client)
    requires OneAttempt(es) && Run(s, es) == x && !Teardown(e)
    ensures es' == es + [e] && OneAttempt(es') && Run(s, es') == x' == Step(x, e)
  {
    es', x' := es + [e], Step(x, e);
    assert es'[..|es|] == es;
  }

  /** A raised flag on a connection without a description: the next candidate is too early. */
  lemma RaisedTooEarly(s: Client, es: seq<Event>, x: Client)
    requires OneAttempt(es) && Run(s, es) == x
    requires x.peer.Some? && x.remoteDescriptionSet && x.peer.value !in x.described
    ensures !NoneEarly(Run(s, es + [CandidateArrives(0)])) && OneAttempt(es + [CandidateArrives(0)])
  {
    hide Run;
    var es', x' := Then(s, es, x, CandidateArrives(0));
    assert !x'.handed[|x.handed|].described;
  }

  lemma FlushHarms(s: Client, i: nat)
    requires i < |s.tasks| && s.tasks[i].Flushing? && s.tasks[i].rest != [] && s.tasks[i].pc !in s.described
    ensures !SafeAttempt(s)
  {
    hide Run;
    var es := Begin(s);
    var es', x := Then(s, es, s, Resume(i, true));
    assert !x.handed[|s.handed|].described;
  }

  /** Once a handler has described its own connection, the flag is up. */
  lemma DescribeRaises(s: Client, i: nat)
    requires i < |s.tasks| && Describes(s.tasks[i])
    ensures var x := ResumeTask(s, i, true);
      && x.remoteDescriptionSet && x.described == s.described + {s.tasks[i].pc} && x.peer == s.peer
      && x.nextPc == s.nextPc && |x.tasks| == |s.tasks|
      && forall j :: 0 <= j < |s.tasks| && j != i ==> x.tasks[j] == s.tasks[j]
  {
  }

  lemma DescriberHarms(s: Client, i: nat)
    requires i < |s.tasks| && Describes(s.tasks[i])
    requires s.peer.Some? && s.peer.value !in s.described && s.tasks[i].pc != s.peer.value
    ensures !SafeAttempt(s)
  {
    hide Run, ResumeTask;
    var es := Begin(s);
    var es', x := Then(s, es, s, Resume(i, true));
    DescribeRaises(s, i);
    RaisedTooEarly(s, es', x);
  }

  /** A connection that is installed while the flag is up is not described. */
  lemma InstallHarms(s: Client, es: seq<Event>, x: Client, i: nat)
    requires OneAttempt(es) && Run(s, es) == x && Numbered(x)
    requires x.remoteDescriptionSet && i < |x.tasks| && Creates(x.tasks[i])
    ensures !SafeAttempt(s)
  {
    hide Run;
    var es', x' := Then(s, es, x, Resume(i, true));
    assert x'.peer == Some(x.nextPc) && x.nextPc !in x'.described && x'.remoteDescriptionSet;
    RaisedTooEarly(s, es', x');
  }

  lemma CreatorHarms(s: Client, i: nat)
    requires Numbered(s) && s.peer.Some? && i < |s.tasks| && Creates(s.tasks[i])
    ensures !SafeAttempt(s)
  {
    hide Run, ResumeTask, Numbered;
    var es := Begin(s);
    var es1, x1 := Then(s, es, s, OfferArrives);
    assert x1.tasks[|s.tasks|] == DescribingOffer(s.peer.value) && x1.tasks[i] == s.tasks[i];
    var es2, x2 := Then(s, es1, x1, Resume(|s.tasks|, true));
    DescribeRaises(x1, |s.tasks|);
    StepCreates(s, OfferArrives);
    StepCreates(x1, Resume(|s.tasks|, true));
    InstallHarms(s, es2, x2, i);
  }

  /** Without a connection the first offer creates one, and so does a second before that. */
  lemma NoConnectionHarms(s: Client)
    requires Numbered(s) && s.peer.None?
    ensures !SafeAttempt(s)
  {
    hide Run, ResumeTask, Numbered;
    var n := |s.tasks|;
    var es := Begin(s);
    var es1, x1 := Then(s, es, s, OfferArrives);
    var es2, x2 := Then(s, es1, x1, OfferArrives);
    assert x2.peer.None? && x2.tasks[n] == CreatingForOffer && x2.tasks[n + 1] == CreatingForOffer;
    var es3, x3 := Then(s, es2, x2, Resume(n, true));
    OfferInstalls(x2, n);
    var es4, x4 := Then(s, es3, x3, Resume(n, true));
    DescribeRaises(x3, n);
    StepCreates(s, OfferArrives);
    StepCreates(x1, OfferArrives);
    StepCreates(x2, Resume(n, true));
    StepCreates(x3, Resume(n, true));
    InstallHarms(s, es4, x4, n + 1);
  }

  lemma OfferInstalls(s: Client, i: nat)
    requires i < |s.tasks| && s.tasks[i].CreatingForOffer?
    ensures ResumeTask(s, i, true) ==
      s.(peer := Some(s.nextPc), nextPc := s.nextPc + 1, tasks := s.tasks[i := DescribingOffer(s.nextPc)])
  {
  }

  /** From any state, whatever handlers are suspended: no interleaving of a match attempt starts
      addCandidate before the remote description is set, if and only if none has so far and the
      client is ready. */
  lemma SafeIffReady(s: Client)
    requires Numbered(s)
    ensures SafeAttempt(s) <==> NoneEarly(s) && Ready(s)
  {
    hide Run, Step, Numbered;
    if NoneEarly(s) && Ready(s) {
      forall es | OneAttempt(es) ensures NoneEarly(Run(s, es)) { RunReady(s, es); }
    } else if !NoneEarly(s) {
      var es := Begin(s);
    } else if s.peer.None? {
      NoConnectionHarms(s);
    } else if !NoneCreates(s.tasks) {
      var i: nat :| i < |s.tasks| && Creates(s.tasks[i]);
      CreatorHarms(s, i);
    } else if !FlushesDescribed(s) {
      var i: nat :| i < |s.tasks| && s.tasks[i].Flushing? && s.tasks[i].rest != [] && s.tasks[i].pc !in s.described;
      FlushHarms(s, i);
    } else if s.remoteDescriptionSet {
      var es := Begin(s);
      RaisedTooEarly(s, es, s);
    } else {
      var i: nat :| i < |s.tasks| && Describes(s.tasks[i]) && s.tasks[i].pc != s.peer.value;
      DescriberHarms(s, i);
    }
  }

  // ---- the first attempt -----------------------------------------------------------------------------

  /** A client that has pre-warmed connection `p` and has no handler suspended. */
  ghost predicate Prewarmed(s: Client, p: Pc) {
    && s.peer == Some(p) && p < s.nextPc && p !in s.described
    && !s.remoteDescriptionSet && s.pending == []
    && s.tasks == [] && s.handed == [] && s.received == [] && s.discarded == []
  }

  /** One match attempt, every interleaving: addCandidate is never started before the remote
      description is set; every candidate received is buffered, being flushed or handed over,
      in exactly one of these and once; and whenever the event loop runs with the flag set,
      the buffer is empty. */
  lemma CandidatesAreBuffered(s: Client, p: Pc, es: seq<Event>)
    requires Prewarmed(s, p) && OneAttempt(es)
    ensures var s' := Run(s, es);
      && NoneEarly(s')
      && multiset(s'.received) == multiset(s'.pending) + BeingFlushed(s'.tasks) + HandedOver(s'.handed)
      && (s'.remoteDescriptionSet ==> s'.pending == [])
  {
    RunReady(s, es);
    RunAccounted(s, es);
    RunTidy(s, es);
    NothingDiscarded(s, es);
    hide Run, HandedOver, BeingFlushed;
  }

  lemma {:induction false} NothingDiscarded(s: Client, es: seq<Event>)
    requires OneAttempt(es)
    ensures Run(s, es).discarded == s.discarded
  {
    if es != [] {
      NothingDiscarded(s, es[..|es| - 1]);
      assert !Teardown(es[|es| - 1]);
    }
  }

  // ---- the attempt after findNextMatch ---------------------------------------------------------------

  /** Along `es`, no offer is handled while there is no connection. */
  ghost predicate OffersFindConnection(s: Client, es: seq<Event>) {
    es == [] || (OffersFindConnection(s, es[..|es| - 1]) && (es[|es| - 1].OfferArrives? ==> Run(s, es[..|es| - 1]).peer.Some?))
  }

  /** Every interleaving of an attempt in which offers find a connection. */
  ghost predicate SafeOnceConnected(s: Client) {
    forall es :: OneAttempt(es) && OffersFindConnection(s, es) ==> NoneEarly(Run(s, es))
  }

  ghost predicate NoneDescribes(tasks: seq<Task>) {
    forall i :: 0 <= i < |tasks| ==> !Describes(tasks[i])
  }

  /** findNextMatch is still waiting for its connection, in handler `n`. */
  ghost predicate Window(s: Client, n: nat) {
    && s.peer.None? && !s.remoteDescriptionSet
    && NoneDescribes(s.tasks)
    && (forall i :: 0 <= i < |s.tasks| && Creates(s.tasks[i]) ==> i == n && s.tasks[i].CreatingFresh?)
    && FlushesDescribed(s)
  }

  lemma StepWindow(s: Client, n: nat, e: Event)
    requires Window(s, n) && NoneEarly(s) && Numbered(s) && !Teardown(e) && !e.OfferArrives?
    ensures Window(Step(s, e), n) || Ready(Step(s, e))
    ensures NoneEarly(Step(s, e))
  {
    hide Numbered, ResumeTask;
    if e.Resume? && e.i < |s.tasks| { ResumeWindow(s, n, e.i, e.ok); }
  }

  lemma ResumeWindow(s: Client, n: nat, i: nat, ok: bool)
    requires Window(s, n) && NoneEarly(s) && Numbered(s) && i < |s.tasks|
    ensures Window(ResumeTask(s, i, ok), n) || Ready(ResumeTask(s, i, ok))
    ensures NoneEarly(ResumeTask(s, i, ok))
  {
    hide Numbered;
    assert !Describes(s.tasks[i]);
    if Creates(s.tasks[i]) {
      if ok {
        FreshInstalls(s, i);
        hide ResumeTask;
      }
    }
  }

  lemma FreshInstalls(s: Client, i: nat)
    requires i < |s.tasks| && s.tasks[i].CreatingFresh?
    ensures ResumeTask(s, i, true) == s.(peer := Some(s.nextPc), nextPc := s.nextPc + 1, tasks := s.tasks[i := Over])
  {
  }

  lemma {:induction false} RunWindow(s: Client, n: nat, es: seq<Event>)
    requires Window(s, n) && NoneEarly(s) && Numbered(s)
    requires OneAttempt(es) && OffersFindConnection(s, es)
    ensures Window(Run(s, es), n) || Ready(Run(s, es))
    ensures NoneEarly(Run(s, es))
  {
    hide Step, Window, Ready, NoneEarly, Numbered;
    if es != [] {
      var init, e := es[..|es| - 1], es[|es| - 1];
      RunWindow(s, n, init);
      RunCreates(s, init);
      if Ready(Run(s, init)) {
        StepReady(Run(s, init), e);
      } else {
        NoConnectionYet(Run(s, init), n);
        StepWindow(Run(s, init), n, e);
      }
    }
  }

  lemma NoConnectionYet(s: Client, n: nat)
    requires Window(s, n)
    ensures s.peer.None?
  {
  }

  lemma OldDescriberHarms(s: Client, n: nat, i: nat)
    requires Numbered(s) && s.peer.None? && i < n < |s.tasks|
    requires s.tasks[n].CreatingFresh? && Describes(s.tasks[i])
    ensures !SafeOnceConnected(s)
  {
    hide Run, ResumeTask, OffersFindConnection;
    var es := Begin(s);
    var es1, x1 := Then(s, es, s, Resume(n, true));
    FreshInstalls(s, n);
    var es2, x2 := Then(s, es1, x1, Resume(i, true));
    DescribeRaises(x1, i);
    RaisedTooEarly(s, es2, x2);
    var bad := es2 + [CandidateArrives(0)];
    NoOffers(s, bad);
  }

  lemma {:induction false} NoOffers(s: Client, es: seq<Event>)
    requires forall i :: 0 <= i < |es| ==> !es[i].OfferArrives?
    ensures OffersFindConnection(s, es)
  {
    if es != [] { NoOffers(s, es[..|es| - 1]); }
  }

  /** findNextMatch does not wait for suspended handlers. Of the attempt that follows it, every
      interleaving that handles no offer before there is a connection is safe, if and only if no
      handler was suspended at setRemoteDescription when findNextMatch was called. */
  lemma NextAttemptIsSafeIffIdle(s: Client, p: Pc, es: seq<Event>)
    requires Prewarmed(s, p) && Numbered(s) && OneAttempt(es)
    ensures var before := Run(s, es);
      SafeOnceConnected(Step(before, FindNext)) <==> NoneDescribes(before.tasks)
  {
    RunReady(s, es);
    RunCreates(s, es);
    hide Run;
    FindNextIsSafeIffIdle(Run(s, es));
  }

  /** The same at any moment at which the present attempt is safe. */
  lemma FindNextIsSafeIffIdle(s: Client)
    requires Numbered(s) && NoneEarly(s) && Ready(s)
    ensures SafeOnceConnected(Step(s, FindNext)) <==> NoneDescribes(s.tasks)
  {
    hide Run;
    var n, next := |s.tasks|, Step(s, FindNext);
    assert next.tasks == s.tasks + [CreatingFresh] && Numbered(next);
    if NoneDescribes(s.tasks) {
      assert Window(next, n);
      forall ws | OneAttempt(ws) && OffersFindConnection(next, ws) ensures NoneEarly(Run(next, ws)) { RunWindow(next, n, ws); }
    } else {
      var i: nat :| i < n && Describes(s.tasks[i]);
      OldDescriberHarms(next, n, i);
    }
  }

  /** The other condition is needed too: in any state in which a connection is still being created
      and there is none, a single offer is enough for an interleaving that hands a candidate over
      too early. The offer creates a connection of its own and raises the flag for it; then the
      other connection replaces it. */
  lemma OfferBeforeConnectionHarms(s: Client, n: nat)
    requires Numbered(s) && s.peer.None? && n < |s.tasks| && Creates(s.tasks[n])
    ensures var m := |s.tasks|;
      !NoneEarly(Run(s, [OfferArrives, Resume(m, true), Resume(m, true), Resume(n, true), CandidateArrives(0)]))
  {
    hide Run, ResumeTask, Numbered;
    var m := |s.tasks|;
    var es := Begin(s);
    var es1, x1 := Then(s, es, s, OfferArrives);
    assert x1.tasks[m] == CreatingForOffer && x1.tasks[n] == s.tasks[n];
    var es2, x2 := Then(s, es1, x1, Resume(m, true));
    OfferInstalls(x1, m);
    var es3, x3 := Then(s, es2, x2, Resume(m, true));
    DescribeRaises(x2, m);
    StepCreates(s, OfferArrives);
    StepCreates(x1, Resume(m, true));
    StepCreates(x2, Resume(m, true));
    var es4, x4 := Then(s, es3, x3, Resume(n, true));
    Replaced(x3, n);
    RaisedTooEarly(s, es4, x4);
    assert es4 + [CandidateArrives(0)] == [OfferArrives, Resume(m, true), Resume(m, true), Resume(n, true), CandidateArrives(0)];
  }

  lemma Replaced(s: Client, n: nat)
    requires Numbered(s) && n < |s.tasks| && Creates(s.tasks[n]) && s.remoteDescriptionSet
    ensures var x := ResumeTask(s, n, true); x.peer == Some(s.nextPc) && s.nextPc !in x.described && x.remoteDescriptionSet
  {
  }

  // ---- answers ------------------------------------------------------------------------------------------

  /** Every connection that answered, or is on its way to, has its remote description. */
  ghost predicate AnswersDescribed(s: Client) {
    && (forall pc :: pc in s.answersSent ==> pc in s.described)
    && (forall i :: 0 <= i < |s.tasks| ==>
          && (s.tasks[i].Answering? ==> s.tasks[i].pc in s.described)
          && (s.tasks[i].Flushing? ==> s.tasks[i].own in s.described))
  }

  lemma ResumeAnswers(s: Client, i: nat, ok: bool)
    requires AnswersDescribed(s) && i < |s.tasks|
    ensures AnswersDescribed(ResumeTask(s, i, ok))
  {
  }

  lemma StepAnswers(s: Client, e: Event)
    requires AnswersDescribed(s)
    ensures AnswersDescribed(Step(s, e))
  {
    hide ResumeTask;
    if e.Resume? && e.i < |s.tasks| { ResumeAnswers(s, e.i, e.ok); }
  }

  /** In every run, teardowns included, a connection sends an answer only after its remote
      description has been set. */
  lemma {:induction false} AnswersFollowDescription(s: Client, es: seq<Event>)
    requires AnswersDescribed(s)
    ensures AnswersDescribed(Run(s, es))
  {
    hide Step, AnswersDescribed;
    if es != [] {
      AnswersFollowDescription(s, es[..|es| - 1]);
      StepAnswers(Run(s, es[..|es| - 1]), es[|es| - 1]);
    }
  }

  /** The connection that a suspended offer handler is going to answer for. */
  function ToAnswer(t: Task): multiset<Pc> {
    if t.Answering? then multiset{t.pc}
    else if t.Flushing? && t.answering then multiset{t.own}
    else multiset{}
  }

  function AllToAnswer(tasks: seq<Task>): multiset<Pc> {
    if tasks == [] then multiset{} else AllToAnswer(tasks[..|tasks| - 1]) + ToAnswer(tasks[|tasks| - 1])
  }

  /** The step in which an offer handler learns that its description is set. */
  function OfferDescribed(s: Client, e: Event): multiset<Pc> {
    if e.Resume? && e.ok && e.i < |s.tasks| && s.tasks[e.i].DescribingOffer? then multiset{s.tasks[e.i].pc} else multiset{}
  }

  /** The step in which createAnswer or setLocalDescription throws. */
  function AnswerThrown(s: Client, e: Event): multiset<Pc> {
    if e.Resume? && !e.ok && e.i < |s.tasks| && s.tasks[e.i].Answering? then multiset{s.tasks[e.i].pc} else multiset{}
  }

  function OffersDescribed(s: Client, es: seq<Event>): multiset<Pc> {
    if es == [] then multiset{} else
      OffersDescribed(s, es[..|es| - 1]) + OfferDescribed(Run(s, es[..|es| - 1]), es[|es| - 1])
  }

  function AnswersThrown(s: Client, es: seq<Event>): multiset<Pc> {
    if es == [] then multiset{} else
      AnswersThrown(s, es[..|es| - 1]) + AnswerThrown(Run(s, es[..|es| - 1]), es[|es| - 1])
  }

  lemma {:induction false} ToAnswerUpdate(tasks: seq<Task>, i: nat, t: Task)
    requires i < |tasks|
    ensures AllToAnswer(tasks[i := t]) + ToAnswer(tasks[i]) == AllToAnswer(tasks) + ToAnswer(t)
  {
    hide ToAnswer;
    var n := |tasks| - 1;
    if i == n {
      assert tasks[i := t][..n] == tasks[..n];
    } else {
      assert tasks[i := t][..n] == tasks[..n][i := t];
      assert tasks[i := t][n] == tasks[n];
      ToAnswerUpdate(tasks[..n], i, t);
      AddLast(AllToAnswer(tasks[..n]), AllToAnswer(tasks[..n][i := t]), ToAnswer(tasks[i]), ToAnswer(t), ToAnswer(tasks[n]));
    }
  }

  lemma AddLast(all: multiset<Pc>, all': multiset<Pc>, one: multiset<Pc>, one': multiset<Pc>, last: multiset<Pc>)
    requires all' + one == all + one'
    ensures (all' + last) + one == (all + last) + one'
  {
    forall x: Pc ensures ((all' + last) + one)[x] == ((all + last) + one')[x] {
      assert (all' + one)[x] == (all + one')[x];
    }
  }

  lemma SpawnAnswersNothing(tasks: seq<Task>, t: Task)
    requires ToAnswer(t) == multiset{}
    ensures AllToAnswer(tasks + [t]) == AllToAnswer(tasks)
  {
    assert (tasks + [t])[..|tasks|] == tasks;
  }

  lemma ResumeSends(s: Client, i: nat, ok: bool)
    requires i < |s.tasks|
    ensures var x, t := ResumeTask(s, i, ok), s.tasks[i];
      && |x.tasks| == |s.tasks| && x.tasks == s.tasks[i := x.tasks[i]]
      && x.answersSent == (if t.Answering? && ok then s.answersSent + [t.pc] else s.answersSent)
      && ToAnswer(x.tasks[i]) ==
         if t.Answering? then multiset{}
         else if t.DescribingOffer? && ok then multiset{t.pc}
         else ToAnswer(t)
  {
    hide Flush;
    var t := s.tasks[i];
    if Describes(t) && ok {
      FlushSends(s.(described := s.described + {t.pc}, remoteDescriptionSet := true), i, t.pc, t.DescribingOffer?);
    } else if t.Flushing? {
      FlushingSends(s, i, ok);
      hide ResumeTask;
    } else {
      OthersSend(s, i, ok);
      hide ResumeTask;
    }
  }

  lemma OthersSend(s: Client, i: nat, ok: bool)
    requires i < |s.tasks| && !s.tasks[i].Flushing? && (Describes(s.tasks[i]) ==> !ok)
    ensures var x, t := ResumeTask(s, i, ok), s.tasks[i];
      && |x.tasks| == |s.tasks| && x.tasks == s.tasks[i := x.tasks[i]]
      && x.answersSent == (if t.Answering? && ok then s.answersSent + [t.pc] else s.answersSent)
      && ToAnswer(x.tasks[i]) == if t.Answering? then multiset{} else ToAnswer(t)
  {
    hide Flush;
  }

  lemma FlushSends(s: Client, i: nat, own: Pc, answering: bool)
    requires i < |s.tasks|
    ensures var x := Flush(s, i, own, answering);
      && |x.tasks| == |s.tasks| && x.tasks == s.tasks[i := x.tasks[i]] && x.answersSent == s.answersSent
      && ToAnswer(x.tasks[i]) == if answering then multiset{own} else multiset{}
  {
  }

  lemma FlushingSends(s: Client, i: nat, ok: bool)
    requires i < |s.tasks| && s.tasks[i].Flushing?
    ensures var x := ResumeTask(s, i, ok);
      && |x.tasks| == |s.tasks| && x.tasks == s.tasks[i := x.tasks[i]] && x.answersSent == s.answersSent
      && ToAnswer(x.tasks[i]) == ToAnswer(s.tasks[i])
  {
  }

  /** What one resumed handler does to the answers. */
  lemma ResumeOwes(s: Client, i: nat, ok: bool)
    requires i < |s.tasks|
    ensures var x, e := ResumeTask(s, i, ok), Resume(i, ok);
      && |x.tasks| == |s.tasks| && x.tasks == s.tasks[i := x.tasks[i]]
      && multiset(x.answersSent) + ToAnswer(x.tasks[i]) + AnswerThrown(s, e)
         == multiset(s.answersSent) + ToAnswer(s.tasks[i]) + OfferDescribed(s, e)
  {
    ResumeSends(s, i, ok);
    hide ResumeTask;
  }

  lemma AddUp(all: multiset<Pc>, all': multiset<Pc>, one: multiset<Pc>, one': multiset<Pc>,
              sent: multiset<Pc>, sent': multiset<Pc>, thrown: multiset<Pc>, described: multiset<Pc>)
    requires all' + one == all + one'
    requires sent' + one' + thrown == sent + one + described
    ensures sent' + all' + thrown == sent + all + described
  {
    forall x: Pc ensures (sent' + all' + thrown)[x] == (sent + all + described)[x] {
      assert (all' + one)[x] == (all + one')[x];
      assert (sent' + one' + thrown)[x] == (sent + one + described)[x];
    }
  }

  lemma ResumeOwesAll(s: Client, i: nat, ok: bool)
    requires i < |s.tasks|
    ensures var x, e := ResumeTask(s, i, ok), Resume(i, ok);
      multiset(x.answersSent) + AllToAnswer(x.tasks) + AnswerThrown(s, e)
        == multiset(s.answersSent) + AllToAnswer(s.tasks) + OfferDescribed(s, e)
  {
    hide AllToAnswer, ResumeTask, ToAnswer, AnswerThrown, OfferDescribed;
    var x := ResumeTask(s, i, ok);
    ResumeOwes(s, i, ok);
    ToAnswerUpdate(s.tasks, i, x.tasks[i]);
    AddUp(AllToAnswer(s.tasks), AllToAnswer(x.tasks), ToAnswer(s.tasks[i]), ToAnswer(x.tasks[i]),
          multiset(s.answersSent), multiset(x.answersSent), AnswerThrown(s, Resume(i, ok)), OfferDescribed(s, Resume(i, ok)));
  }

  /** Messages and teardowns only add handlers, none of which is about to answer. */
  lemma OthersOweNothing(s: Client, e: Event)
    requires !e.Resume?
    ensures Step(s, e).answersSent == s.answersSent && AllToAnswer(Step(s, e).tasks) == AllToAnswer(s.tasks)
  {
    hide AllToAnswer;
    var t := Step(s, e);
    if t.tasks != s.tasks {
      assert t.tasks == s.tasks + [t.tasks[|s.tasks|]];
      SpawnAnswersNothing(s.tasks, t.tasks[|s.tasks|]);
    }
  }

  lemma StepOwes(s: Client, e: Event)
    ensures multiset(Step(s, e).answersSent) + AllToAnswer(Step(s, e).tasks) + AnswerThrown(s, e)
         == multiset(s.answersSent) + AllToAnswer(s.tasks) + OfferDescribed(s, e)
  {
    hide AllToAnswer, ResumeTask, ToAnswer;
    if e.Resume? {
      if e.i < |s.tasks| { ResumeOwesAll(s, e.i, e.ok); }
    } else {
      OthersOweNothing(s, e);
      hide Step;
    }
  }

  /** In every run, teardowns included, the offers that got their description are, one for one, those
      answered, those whose handler is still flushing or answering, and those whose createAnswer
      or setLocalDescription threw. */
  lemma {:induction false} OffersAreAnswered(s: Client, es: seq<Event>)
    ensures var t := Run(s, es);
      multiset(t.answersSent) + AllToAnswer(t.tasks) + AnswersThrown(s, es)
        == multiset(s.answersSent) + AllToAnswer(s.tasks) + OffersDescribed(s, es)
  {
    hide Step, AllToAnswer, AnswerThrown, OfferDescribed;
    if es != [] {
      var init, e := es[..|es| - 1], es[|es| - 1];
      var r, t := Run(s, init), Run(s, es);
      OffersAreAnswered(s, init);
      StepOwes(r, e);
      Chained(multiset(s.answersSent) + AllToAnswer(s.tasks), multiset(r.answersSent) + AllToAnswer(r.tasks),
              multiset(t.answersSent) + AllToAnswer(t.tasks),
              AnswersThrown(s, init), OffersDescribed(s, init), AnswerThrown(r, e), OfferDescribed(r, e));
    }
  }

  lemma Chained(a: multiset<Pc>, b: multiset<Pc>, c: multiset<Pc>, thrown: multiset<Pc>, described: multiset<Pc>,
                thrown': multiset<Pc>, described': multiset<Pc>)
    requires b + thrown == a + described && c + thrown' == b + described'
    ensures c + (thrown + thrown') == a + (described + described')
  {
    forall x: Pc ensures (c + (thrown + thrown'))[x] == (a + (described + described'))[x] {
      assert (b + thrown)[x] == (a + described)[x] && (c + thrown')[x] == (b + described')[x];
    }
  }

  /** An offer to a pre-warmed client, all of whose awaited calls succeed, is answered. */
  lemma OfferGetsAnswer(s: Client, p: Pc)
    requires Prewarmed(s, p)
    ensures var t := Run(s, [OfferArrives, Resume(0, true), Resume(0, true)]);
      t.answersSent == s.answersSent + [p] && t.tasks == [Over] && t.remoteDescriptionSet
  {
    hide Run;
    var es := Begin(s);
    var es1, s1 := Then(s, es, s, OfferArrives);
    assert s1.tasks == [DescribingOffer(p)];
    var es2, s2 := Then(s, es1, s1, Resume(0, true));
    assert s2.tasks == [Answering(p)] && s2.answersSent == s.answersSent;
    var es3, s3 := Then(s, es2, s2, Resume(0, true));
    assert es3 == [OfferArrives, Resume(0, true), Resume(0, true)];
  }
}
