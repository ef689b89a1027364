/** The client of Signaling.dfy as an object whose fields its handlers update. Each handler is one
    step of the state machine, so it keeps what every step keeps; beyond that its contract says
    what it leaves to whom. */
module Endpoints {
  import opened Options
  import opened Signaling
  import opened IceBuffering

  class Endpoint {
    var peer: Option<Pc>
    var remoteDescriptionSet: bool
    var pending: seq<Candidate>
    var tasks: seq<Task>
    var nextPc: Pc
    ghost var described: set<Pc>
    ghost var handed: seq<Handed>
    ghost var received: seq<Candidate>
    ghost var discarded: seq<Candidate>
    ghost var answersSent: seq<Pc>

    ghost function State(): Client
      reads this
    {
      Client(peer, nextPc, remoteDescriptionSet, pending, tasks, described, handed, received, discarded, answersSent)
    }

    /** What holds between any two turns of the event loop, teardowns included. */
    ghost predicate Valid()
      reads this
    {
      Numbered(State()) && Accounted(State()) && BufferTidy(State()) && AnswersDescribed(State())
    }

    /** No interleaving of the attempt can start addCandidate too early. */
    ghost predicate Safe()
      reads this
    {
      NoneEarly(State()) && Ready(State())
    }

    constructor ()
      ensures Valid() && NoneEarly(State())
      ensures !SafeAttempt(State())    // until prewarm has created a connection
    {
      peer, remoteDescriptionSet, pending, tasks, nextPc := None, false, [], [], 0;
      described, handed, received, discarded, answersSent := {}, [], [], [], [];
      new;
      SafeIffReady(State());
    }

    method AddCandidate(pc: Pc, c: Candidate)
      modifies this`handed
      ensures handed == old(handed) + [Handed(pc, c, pc in described)]
    {
      handed := handed + [Handed(pc, c, pc in described)];
    }

    /** The offer handler up to its first await: it will describe the connection there is now, or
        one that it creates first. Nothing else changes. */
    method HandleOffer()
      requires Valid()
      modifies this`tasks
      ensures Valid() && State() == Step(old(State()), OfferArrives)
      ensures old(Safe()) ==> Safe()
      ensures |tasks| == |old(tasks)| + 1 && old(tasks) <= tasks
      ensures peer.Some? ==> Describes(tasks[|old(tasks)|]) && tasks[|old(tasks)|].pc == peer.value
      ensures peer.None? ==> !SafeAttempt(State())
    {
      hide Numbered, Accounted, BufferTidy, AnswersDescribed, NoneEarly, Ready;
      StepKeeps(State(), OfferArrives);
      tasks := tasks + [if peer.Some? then DescribingOffer(peer.value) else CreatingForOffer];
      if peer.None? { NoConnectionHarms(State()); }
    }

    /** The answer handler up to its first await: an answer without a connection is dropped. */
    method HandleAnswer()
      requires Valid()
      modifies this`tasks
      ensures Valid() && State() == Step(old(State()), AnswerArrives)
      ensures old(Safe()) ==> Safe()
      ensures peer.None? ==> State() == old(State())
      ensures peer.Some? ==> tasks == old(tasks) + [DescribingAnswer(peer.value)]
    {
      hide Numbered, Accounted, BufferTidy, AnswersDescribed, NoneEarly, Ready;
      StepKeeps(State(), AnswerArrives);
      if peer.None? {
        return;
      }
      tasks := tasks + [DescribingAnswer(peer.value)];
    }

    /** A candidate is dropped without a connection, buffered while the flag is down, and handed to
        the connection at once, with an empty buffer, when it is up. */
    method HandleIceCandidate(c: Candidate)
      requires Valid()
      modifies this`pending, this`handed, this`received
      ensures Valid() && State() == Step(old(State()), CandidateArrives(c))
      ensures old(Safe()) ==> Safe()
      ensures peer.None? ==> State() == old(State())
      ensures peer.Some? && !remoteDescriptionSet ==> pending == old(pending) + [c] && handed == old(handed)
      ensures peer.Some? && remoteDescriptionSet ==>
        pending == old(pending) == [] && handed == old(handed) + [Handed(peer.value, c, peer.value in described)]
      ensures peer.Some? ==> received == old(received) + [c]
    {
      hide Numbered, Accounted, BufferTidy, AnswersDescribed, NoneEarly, Ready;
      StepKeeps(State(), CandidateArrives(c));
      FlagMeansEmpty(State());
      if peer.None? {
        return;
      }
      received := received + [c];
      if !remoteDescriptionSet {
        pending := pending + [c];
        return;
      }
      AddCandidate(peer.value, c);
    }

    /** Empties the buffer in one go: its first candidate is handed over now, the others, in their
        order, one await each; without any the caller goes on at once. */
    method FlushPendingRemoteCandidates(i: nat, own: Pc, answering: bool)
      requires i < |tasks|
      modifies this`pending, this`handed, this`tasks
      ensures State() == Flush(old(State()), i, own, answering)
      ensures peer.Some? && old(pending) != [] ==>
        && pending == [] && |handed| == |old(handed)| + 1
        && tasks[i].Flushing? && tasks[i].pc == peer.value
        && [handed[|old(handed)|].candidate] + tasks[i].rest == old(pending)
      ensures peer.Some? ==> pending == []
      ensures peer.None? || old(pending) == [] ==> handed == old(handed) && pending == old(pending) && !tasks[i].Flushing?
      ensures |tasks| == |old(tasks)| && forall j :: 0 <= j < |tasks| && j != i ==> tasks[j] == old(tasks)[j]
    {
      if peer.None? || pending == [] {
        tasks := tasks[i := AfterFlush(own, answering)];
        return;
      }
      var copy := pending;
      pending := [];
      tasks := tasks[i := Flushing(peer.value, copy[1..], own, answering)];
      AddCandidate(peer.value, copy[0]);
    }

    /** The awaited call of handler `i` completes or throws. The handler describes only the
        connection it captured, hands candidates over in order, and answers only for a connection
        that is described; a throw ends it, except that a failing addCandidate is caught. */
    method ResumeHandler(i: nat, ok: bool)
      requires Valid() && i < |tasks|
      modifies this
      ensures Valid() && State() == Step(old(State()), Resume(i, ok))
      ensures old(Safe()) ==> Safe()
      ensures received == old(received) && discarded == old(discarded)
      ensures |tasks| == |old(tasks)| && forall j :: 0 <= j < |tasks| && j != i ==> tasks[j] == old(tasks)[j]
      ensures !ok && !old(tasks)[i].Flushing? ==> State() == old(State()).(tasks := tasks) && tasks[i].Over?
      ensures old(tasks)[i] in {CreatingForOffer, CreatingFresh} && ok ==>
        && peer == Some(old(nextPc)) && nextPc == old(nextPc) + 1 && pending == old(pending) && handed == old(handed)
        && tasks[i] == if old(tasks)[i].CreatingForOffer? then DescribingOffer(old(nextPc)) else Over
      ensures old(tasks)[i] !in {CreatingForOffer, CreatingFresh} ==> peer == old(peer) && nextPc == old(nextPc)
      ensures Describes(old(tasks)[i]) && ok && peer.Some? && old(pending) != [] ==>
        && |handed| == |old(handed)| + 1 && pending == [] && tasks[i].Flushing? && tasks[i].pc == peer.value
        && [handed[|old(handed)|].candidate] + tasks[i].rest == old(pending)
      ensures Describes(old(tasks)[i]) && ok ==> remoteDescriptionSet && described == old(described) + {old(tasks)[i].pc}
      ensures old(tasks)[i].Flushing? ==> State() == old(State()).(tasks := tasks, handed := handed)
      ensures old(tasks)[i].Flushing? && old(tasks)[i].rest != [] ==>
        && |handed| == |old(handed)| + 1 && tasks[i].Flushing?
        && [handed[|old(handed)|].candidate] + tasks[i].rest == old(tasks)[i].rest
      ensures old(tasks)[i].Answering? && ok ==> answersSent == old(answersSent) + [old(tasks)[i].pc]
      ensures old(tasks)[i].DescribingOffer? && ok ==> ToAnswer(tasks[i]) == multiset{old(tasks)[i].pc}
      ensures old(tasks)[i].DescribingAnswer? ==> ToAnswer(tasks[i]) == multiset{}
      ensures old(tasks)[i].Flushing? ==> ToAnswer(tasks[i]) == ToAnswer(old(tasks)[i])
      ensures answersSent != old(answersSent) ==>
        old(tasks)[i].Answering? && answersSent == old(answersSent) + [old(tasks)[i].pc] && old(tasks)[i].pc in described
    {
      hide Numbered, Accounted, BufferTidy, AnswersDescribed, NoneEarly, Ready;
      StepKeeps(State(), Resume(i, ok));
      ResumeLeaves(State(), i, ok);
      ResumeConnects(State(), i, ok);
      ResumeSends(State(), i, ok);
      hide ResumeTask;
      Continue(i, ok);
    }

    // From the await at which handler `i` is suspended to its next one.
    method Continue(i: nat, ok: bool)
      requires i < |tasks|
      modifies this
      ensures State() == ResumeTask(old(State()), i, ok)
    {
      match tasks[i]
      case CreatingForOffer =>
        if !ok { tasks := tasks[i := Over]; return; }
        var pc := nextPc;
        peer, nextPc := Some(pc), nextPc + 1;
        tasks := tasks[i := DescribingOffer(pc)];
      case CreatingFresh =>
        tasks := tasks[i := Over];
        if ok { peer, nextPc := Some(nextPc), nextPc + 1; }
      case DescribingOffer(pc) =>
        if !ok { tasks := tasks[i := Over]; return; }
        described := described + {pc};
        remoteDescriptionSet := true;
        FlushPendingRemoteCandidates(i, pc, true);
      case DescribingAnswer(pc) =>
        if !ok { tasks := tasks[i := Over]; return; }
        described := described + {pc};
        remoteDescriptionSet := true;
        FlushPendingRemoteCandidates(i, pc, false);
      case Flushing(pc, rest, own, answering) =>
        if rest == [] {
          tasks := tasks[i := AfterFlush(own, answering)];
          return;
        }
        tasks := tasks[i := Flushing(pc, rest[1..], own, answering)];
        AddCandidate(pc, rest[0]);
      case Answering(pc) =>
        tasks := tasks[i := Over];
        if ok { answersSent := answersSent + [pc]; }
      case Over =>
    }

    /** Drops the connection and the buffer and starts creating another connection. Suspended
        handlers stay; whether the next attempt is safe once it has its connection depends on them. */
    method FindNextMatch()
      requires Valid()
      modifies this
      ensures Valid() && State() == Step(old(State()), FindNext)
      ensures peer.None? && !remoteDescriptionSet && tasks == old(tasks) + [CreatingFresh] && handed == old(handed)
      ensures discarded == old(discarded) + old(pending) && pending == []
      ensures !SafeAttempt(State())
      ensures old(Safe()) ==> (SafeOnceConnected(State()) <==> NoneDescribes(old(tasks)))
    {
      hide Numbered, Accounted, BufferTidy, AnswersDescribed, NoneEarly, Ready;
      ghost var was := State();
      StepKeeps(was, FindNext);
      if NoneEarly(was) && Ready(was) { FindNextIsSafeIffIdle(was); }
      discarded := discarded + pending;
      peer := None;
      remoteDescriptionSet := false;
      pending := [];
      tasks := tasks + [CreatingFresh];
      NoConnectionHarms(State());
    }

    /** prewarm, once the media are open: the buffer is dropped and the flag goes down, but the old
        connection stays until the new one is there, so handlers can still reach it. */
    method PrewarmAgain()
      requires Valid()
      modifies this
      ensures Valid() && State() == Step(old(State()), Event.Prewarm)
      ensures peer == old(peer) && !remoteDescriptionSet && tasks == old(tasks) + [CreatingFresh] && handed == old(handed)
      ensures discarded == old(discarded) + old(pending) && pending == []
      ensures !SafeAttempt(State())    // until that creation is over
    {
      hide Numbered, Accounted, BufferTidy, AnswersDescribed, NoneEarly, Ready;
      StepKeeps(State(), Event.Prewarm);
      discarded := discarded + pending;
      remoteDescriptionSet := false;
      pending := [];
      tasks := tasks + [CreatingFresh];
      if peer.None? { NoConnectionHarms(State()); } else { CreatorHarms(State(), |tasks| - 1); }
    }

    /** _handleMessage and the event loop: every event is one of the handlers above. */
    method Dispatch(e: Event)
      requires Valid()
      modifies this
      ensures Valid() && State() == Step(old(State()), e)
      ensures old(Safe()) && !Teardown(e) ==> Safe()
    {
      match e
      case OfferArrives => HandleOffer();
      case AnswerArrives => HandleAnswer();
      case CandidateArrives(c) => HandleIceCandidate(c);
      case Resume(i, ok) => if i < |tasks| { ResumeHandler(i, ok); }
      case FindNext => FindNextMatch();
      case Prewarm => PrewarmAgain();
    }
  }

  lemma FlagMeansEmpty(s: Client)
    requires BufferTidy(s)
    ensures s.remoteDescriptionSet ==> s.pending == []
  {
  }

  /** What one resumed handler leaves to whom. */
  lemma ResumeLeaves(s: Client, i: nat, ok: bool)
    requires AnswersDescribed(s) && i < |s.tasks|
    ensures var x, t := ResumeTask(s, i, ok), s.tasks[i];
      && x.received == s.received && x.discarded == s.discarded
      && |x.tasks| == |s.tasks| && (forall j :: 0 <= j < |s.tasks| && j != i ==> x.tasks[j] == s.tasks[j])
      && (!ok && !t.Flushing? ==> x == s.(tasks := x.tasks) && x.tasks[i].Over?)
      && (Describes(t) && ok ==> x.remoteDescriptionSet && x.described == s.described + {t.pc})
      && (t.Flushing? ==> x == s.(tasks := x.tasks, handed := x.handed))
      && (t.Flushing? && t.rest != [] ==>
            && |x.handed| == |s.handed| + 1 && x.tasks[i].Flushing?
            && [x.handed[|s.handed|].candidate] + x.tasks[i].rest == t.rest)
      && (x.answersSent != s.answersSent ==> t.Answering? && x.answersSent == s.answersSent + [t.pc] && t.pc in x.described)
  {
  }

  /** What one resumed handler creates, and what it flushes once it has described. */
  lemma ResumeConnects(s: Client, i: nat, ok: bool)
    requires i < |s.tasks|
    ensures var x, t := ResumeTask(s, i, ok), s.tasks[i];
      && |x.tasks| == |s.tasks|
      && (t in {CreatingForOffer, CreatingFresh} && ok ==>
            && x.peer == Some(s.nextPc) && x.nextPc == s.nextPc + 1 && x.pending == s.pending && x.handed == s.handed
            && x.tasks[i] == if t.CreatingForOffer? then DescribingOffer(s.nextPc) else Over)
      && (t !in {CreatingForOffer, CreatingFresh} ==> x.peer == s.peer && x.nextPc == s.nextPc)
      && (Describes(t) && ok && s.peer.Some? && s.pending != [] ==>
            && |x.handed| == |s.handed| + 1 && x.pending == [] && x.tasks[i].Flushing? && x.tasks[i].pc == s.peer.value
            && [x.handed[|s.handed|].candidate] + x.tasks[i].rest == s.pending)
  {
  }

  /** A step keeps the books, and within an attempt it keeps the client safe. */
  lemma StepKeeps(s: Client, e: Event)
    requires Numbered(s) && Accounted(s) && BufferTidy(s) && AnswersDescribed(s)
    ensures var t := Step(s, e);
      && Numbered(t) && Accounted(t) && BufferTidy(t) && AnswersDescribed(t)
      && (NoneEarly(s) && Ready(s) && !Teardown(e) ==> NoneEarly(t) && Ready(t))
  {
    StepCreates(s, e);
    StepAccounted(s, e);
    StepTidy(s, e);
    StepAnswers(s, e);
    hide Step, Numbered, Accounted, BufferTidy, AnswersDescribed;
    if NoneEarly(s) && Ready(s) && !Teardown(e) { StepReady(s, e); }
  }
}
