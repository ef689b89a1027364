/** Who offers and who answers, in every run whatever: clients leave, come back and are matched
    again. An offer or answer goes to whoever _remoteId names when it is sent, and a handler that
    is suspended does not notice that a message has changed it. */
module HandshakeRoles {
  import opened Options
  import opened Ids
  import opened Handshake
  import opened HandshakeDelivery

  /** An offer to a higher ID, or an answer to a lower one from a client that has set its remote
      description. */
  predicate InRole(u: UserId, m: Up, described: bool) {
    match m
    case Offer(to) => to.Some? && Precedes(u, to.value)
    case Answer(to) => to.Some? && Precedes(to.value, u) && described
  }

  ghost predicate PeerInRole(u: UserId, p: Peer) {
    forall m :: m in p.outbox ==> InRole(u, m, p.described)
  }

  ghost predicate AllInRole(s: State) {
    forall u: UserId :: u in s.peers ==> PeerInRole(u, s.peers[u])
  }

  /** A handler of `u` that will send to whatever `remote` is then. */
  predicate Suits(u: UserId, remote: UserId, tasks: multiset<Task>) {
    && (MakingOffer in tasks ==> Precedes(u, remote))
    && (DescribingOffer in tasks || MakingAnswer in tasks ==> Precedes(remote, u))
  }

  /** The user whom a message makes the remote of the client that handles it. */
  function Named(m: Down): Option<UserId> {
    match m
    case Match(v) => Some(v)
    case OfferFrom(v) => Some(v)
    case _ => None
  }

  /** The client of `e` handles a match or an offer of somebody to whom a suspended handler must
      not send: while it makes an offer one that does not follow it, or while it describes or
      answers an offer one that does not precede it. */
  predicate Retargets(s: State, e: Event) {
    && e.Handle? && e.u in s.peers && s.peers[e.u].inbox != []
    && Named(s.peers[e.u].inbox[0]).Some?
    && !Suits(e.u, Named(s.peers[e.u].inbox[0]).value, s.peers[e.u].tasks)
  }

  ghost predicate NothingRetargets(es: seq<Event>) {
    es == [] || (!Retargets(Run(es[..|es| - 1]), es[|es| - 1]) && NothingRetargets(es[..|es| - 1]))
  }

  // ---- without such a step -------------------------------------------------------------------------

  ghost predicate RolesKept(u: UserId, p: Peer) {
    && Started(u, p)
    && PeerInRole(u, p)
    && (MakingOffer in p.tasks || DescribingOffer in p.tasks || MakingAnswer in p.tasks ==>
          p.remote.Some? && Suits(u, p.remote.value, p.tasks))
    && (MakingAnswer in p.tasks ==> p.described)
    && (forall m :: m in p.inbox && m.OfferFrom? ==> Precedes(m.from, u))
  }

  lemma SameRoles(u: UserId, p: Peer, q: Peer)
    requires RolesKept(u, p) && Started(u, q)
    requires q.outbox == p.outbox && q.tasks == p.tasks && q.remote == p.remote && q.described == p.described
    requires forall m :: m in q.inbox && m.OfferFrom? ==> m in p.inbox || Precedes(m.from, u)
    ensures RolesKept(u, q)
  {
    hide Started, Precedes;
  }

  lemma ForwardKeeps(u: UserId, p: Peer)
    requires RolesKept(u, p)
    ensures RolesKept(u, ForwardStep(p))
  {
    if p.channel != [] {
      AppendStarted(u, p, Match(p.channel[0]), ForwardStep(p));
      SameRoles(u, p, ForwardStep(p));
    }
    hide Started, Precedes;
  }

  lemma DeliverKeeps(u: UserId, p: Peer, m: Down)
    requires RolesKept(u, p) && !m.Init? && (m.OfferFrom? ==> Precedes(m.from, u))
    ensures RolesKept(u, p.(inbox := p.inbox + [m]))
  {
    AppendStarted(u, p, m, p.(inbox := p.inbox + [m]));
    SameRoles(u, p, p.(inbox := p.inbox + [m]));
  }

  lemma SentKeeps(u: UserId, p: Peer)
    requires RolesKept(u, p) && p.outbox != []
    ensures RolesKept(u, p.(outbox := p.outbox[1..])) && InRole(u, p.outbox[0], p.described)
  {
    TailMembers(p.outbox);
    hide Precedes;
  }

  lemma HeadKnowsSelf(u: UserId, p: Peer)
    requires Started(u, p) && p.inbox != [] && Named(p.inbox[0]).Some?
    ensures p.self == Some(u)
  {
  }

  /** The client handles a message that names `v`, and every suspended handler may send to `v`. */
  lemma NamedKeeps(u: UserId, p: Peer, v: UserId)
    requires RolesKept(u, p) && p.inbox != [] && Named(p.inbox[0]) == Some(v) && Suits(u, v, p.tasks)
    ensures RolesKept(u, HandleStep(p))
  {
    HandleStarted(u, p);
    HeadKnowsSelf(u, p);
    TailMembers(p.inbox);
    PrecedesIsAStrictChoice(u, v);
    var q := HandleStep(p);
    assert q.remote == Some(v) && q.outbox == p.outbox && q.described == p.described && q.inbox == p.inbox[1..];
    assert Suits(u, v, q.tasks);
    hide Started, Precedes;
  }

  lemma UnnamedKeeps(u: UserId, p: Peer)
    requires RolesKept(u, p) && p.inbox != [] && Named(p.inbox[0]).None?
    ensures RolesKept(u, HandleStep(p))
  {
    HandleStarted(u, p);
    TailMembers(p.inbox);
    hide Started, Precedes;
  }

  lemma ResumeFrame(p: Peer, t: Task, ok: bool)
    ensures var q := ResumeStep(p, t, ok);
      && q.inbox == p.inbox && q.self == p.self && q.met == p.met && q.crashed == p.crashed && q.remote == p.remote
      && (p.described ==> q.described)
      && (forall x: Task :: x in q.tasks ==>
            x in p.tasks || (x.MakingAnswer? && DescribingOffer in p.tasks && q.described))
  {
  }

  lemma ResumeSends(p: Peer, t: Task, ok: bool)
    ensures var q := ResumeStep(p, t, ok);
      || q.outbox == p.outbox
      || (MakingOffer in p.tasks && q.outbox == p.outbox + [Offer(p.remote)])
      || (MakingAnswer in p.tasks && q.outbox == p.outbox + [Answer(p.remote)])
  {
  }

  lemma ResumeKeeps(u: UserId, p: Peer, t: Task, ok: bool)
    requires RolesKept(u, p)
    ensures RolesKept(u, ResumeStep(p, t, ok))
  {
    hide ResumeStep, Precedes, Started;
    var q := ResumeStep(p, t, ok);
    ResumeFrame(p, t, ok);
    ResumeSends(p, t, ok);
    StillStarted(u, p, q);
    assert MakingOffer in q.tasks ==> MakingOffer in p.tasks;
    assert DescribingOffer in q.tasks ==> DescribingOffer in p.tasks;
    assert MakingAnswer in q.tasks ==> q.described && (MakingAnswer in p.tasks || DescribingOffer in p.tasks);
  }

  lemma StillStarted(u: UserId, p: Peer, q: Peer)
    requires Started(u, p) && q.inbox == p.inbox && q.self == p.self && q.met == p.met && q.crashed == p.crashed
    ensures Started(u, q)
  {
    hide Precedes;
  }

  lemma JoinedKeeps(u: UserId, since: nat)
    ensures RolesKept(u, Joined(u, since))
  {
    assert [Init(u)][1..] == [];
  }

  lemma NotifiedKeeps(u: UserId, p: Peer, more: seq<UserId>)
    requires RolesKept(u, p)
    ensures RolesKept(u, p.(channel := p.channel + more))
  {
    StillStarted(u, p, p.(channel := p.channel + more));
    hide Started;
    SameRoles(u, p, p.(channel := p.channel + more));
  }

  ghost predicate AllKept(s: State) {
    forall u: UserId :: u in s.peers ==> RolesKept(u, s.peers[u])
  }

  /** A step of client `w` alone. */
  lemma LocalKeeps(s: State, w: UserId, p: Peer)
    requires AllKept(s) && RolesKept(w, p)
    ensures AllKept(s.(peers := s.peers[w := p]))
  {
    hide RolesKept;
  }

  lemma HandleAllKept(s: State, w: UserId)
    requires AllKept(s) && w in s.peers && !Retargets(s, Handle(w))
    ensures AllKept(Step(s, Handle(w)))
  {
    hide RolesKept, HandleStep, Suits;
    var p := s.peers[w];
    if p.inbox != [] {
      if Named(p.inbox[0]).Some? { NamedKeeps(w, p, Named(p.inbox[0]).value); } else { UnnamedKeeps(w, p); }
      LocalKeeps(s, w, HandleStep(p));
    } else {
      assert HandleStep(p) == p by { NothingToHandle(p); }
      LocalKeeps(s, w, p);
    }
  }

  lemma NothingToHandle(p: Peer)
    requires p.inbox == []
    ensures HandleStep(p) == p
  {
  }

  lemma RelayAllKept(s: State, w: UserId)
    requires AllKept(s) && w in s.peers && s.peers[w].outbox != []
    ensures AllKept(Step(s, Relay(w)))
  {
    hide RolesKept, Precedes;
    var p := s.peers[w];
    var q, m := p.(outbox := p.outbox[1..]), p.outbox[0];
    var sent := s.(peers := s.peers[w := q]);
    SentKeeps(w, p);
    LocalKeeps(s, w, q);
    if m.to.Some? && m.to.value in sent.peers {
      var v, down := m.to.value, if m.Offer? then OfferFrom(w) else AnswerFrom(w);
      DeliverKeeps(v, sent.peers[v], down);
      LocalKeeps(sent, v, sent.peers[v].(inbox := sent.peers[v].inbox + [down]));
    }
  }

  lemma PublishAllKept(s: State, a: UserId, b: UserId)
    requires AllKept(s)
    ensures AllKept(Step(s, Publish(a, b)))
  {
    hide RolesKept;
    var s' := Step(s, Publish(a, b));
    forall u: UserId | u in s'.peers ensures RolesKept(u, s'.peers[u]) {
      assert u in s.peers;
      PublishedPeer(s, a, b, u);
      NotifiedKeeps(u, s.peers[u], Notices(a, b, u));
    }
  }

  lemma StepAllKept(s: State, e: Event)
    requires AllKept(s) && !Retargets(s, e)
    ensures AllKept(Step(s, e))
  {
    hide RolesKept, ForwardStep, HandleStep, ResumeStep, RelayTo, Notify, Retargets;
    match e
    case Register(w) => JoinedKeeps(w, |s.log|);
    case Leave(w) =>
    case Publish(a, b) => PublishAllKept(s, a, b);
    case Forward(w) => if w in s.peers { ForwardKeeps(w, s.peers[w]); }
    case Handle(w) => if w in s.peers { HandleAllKept(s, w); }
    case Resume(w, t, ok) => if w in s.peers { ResumeKeeps(w, s.peers[w], t, ok); }
    case Relay(w) => if w in s.peers && s.peers[w].outbox != [] { RelayAllKept(s, w); }
  }

  lemma {:induction false} RunAllKept(es: seq<Event>)
    requires NothingRetargets(es)
    ensures AllKept(Run(es))
  {
    hide Step, Retargets, RolesKept;
    if es != [] {
      RunAllKept(es[..|es| - 1]);
      StepAllKept(Run(es[..|es| - 1]), es[|es| - 1]);
    }
  }

  /** In every run in which nothing retargets a suspended handler, offers go only from a lower to
      a higher ID, and answers only from a higher to a lower one and only after the sender has set
      its remote description. */
  lemma SendersKeepTheirRoles(es: seq<Event>, u: UserId, m: Up)
    requires NothingRetargets(es) && u in Run(es).peers && m in Run(es).peers[u].outbox
    ensures InRole(u, m, Run(es).peers[u].described)
  {
    hide Run;
    RunAllKept(es);
    assert RolesKept(u, Run(es).peers[u]);
  }

  // ---- and after one -----------------------------------------------------------------------------------

  ghost predicate OnlyResumes(es: seq<Event>) {
    forall i :: 0 <= i < |es| ==> es[i].Resume?
  }

  /** However the suspended handlers go on from here, all senders keep their roles. */
  ghost predicate StaysInRole(es: seq<Event>) {
    forall more :: OnlyResumes(more) ==> AllInRole(Run(es + more))
  }

  ghost predicate AlwaysStaysInRole(es: seq<Event>) {
    StaysInRole(es) && (es == [] || AlwaysStaysInRole(es[..|es| - 1]))
  }

  lemma Extend(es: seq<Event>, more: seq<Event>, e: Event)
    ensures Run(es + (more + [e])) == Step(Run(es + more), e)
  {
    hide Step;
    assert (es + (more + [e]))[..|es + more|] == es + more;
  }

  /** What the client looks like once it has handled a message that names `v`. */
  lemma NamedHandled(u: UserId, p: Peer, v: UserId)
    requires Started(u, p) && p.inbox != [] && Named(p.inbox[0]) == Some(v)
    ensures HandleStep(p).remote == Some(v) && p.tasks <= HandleStep(p).tasks
  {
    HeadKnowsSelf(u, p);
    hide Started, Precedes;
  }

  lemma ResumedOffer(p: Peer)
    requires MakingOffer in p.tasks
    ensures Offer(p.remote) in ResumeStep(p, MakingOffer, true).outbox
  {
  }

  lemma ResumedAnswer(p: Peer)
    requires MakingAnswer in p.tasks
    ensures Answer(p.remote) in ResumeStep(p, MakingAnswer, true).outbox
  {
  }

  lemma ResumedDescription(p: Peer)
    requires DescribingOffer in p.tasks
    ensures MakingAnswer in ResumeStep(p, DescribingOffer, true).tasks && ResumeStep(p, DescribingOffer, true).remote == p.remote
  {
  }

  /** After a step that retargets a handler, two more awaits at most send a message to the wrong side. */
  lemma RetargetBreaks(es: seq<Event>, e: Event) returns (more: seq<Event>)
    requires Retargets(Run(es), e)
    ensures OnlyResumes(more) && |more| <= 2 && !AllInRole(Run(es + [e] + more))
  {
    hide Run;
    var s, u := Run(es), e.u;
    var p := s.peers[u];
    var v := Named(p.inbox[0]).value;
    RunInOrder(es, u);
    Extend(es, [], e);
    assert es + [] == es && es + ([] + [e]) == es + [e];
    NamedHandled(u, p, v);
    more := BadSender(es + [e], u, v);
  }

  lemma BadSender(es: seq<Event>, u: UserId, v: UserId) returns (more: seq<Event>)
    requires u in Run(es).peers && Run(es).peers[u].remote == Some(v)
    requires !Suits(u, v, Run(es).peers[u].tasks)
    ensures OnlyResumes(more) && |more| <= 2 && !AllInRole(Run(es + more))
  {
    hide Run, Precedes, ResumeStep;
    var p := Run(es).peers[u];
    assert es + [] == es;
    if MakingOffer in p.tasks && !Precedes(u, v) {
      more := [Resume(u, MakingOffer, true)];
      assert [] + [more[0]] == more;
      Extend(es, [], more[0]);
      ResumedOffer(p);
      OutOfRole(Run(es + more), u, Offer(Some(v)));
    } else if MakingAnswer in p.tasks {
      more := [Resume(u, MakingAnswer, true)];
      assert [] + [more[0]] == more;
      Extend(es, [], more[0]);
      ResumedAnswer(p);
      OutOfRole(Run(es + more), u, Answer(Some(v)));
    } else {
      var first := [Resume(u, DescribingOffer, true)];
      assert [] + [first[0]] == first;
      Extend(es, [], first[0]);
      ResumedDescription(p);
      var q := Run(es + first).peers[u];
      more := first + [Resume(u, MakingAnswer, true)];
      Extend(es, first, more[1]);
      ResumedAnswer(q);
      OutOfRole(Run(es + more), u, Answer(Some(v)));
    }
  }

  lemma OutOfRole(s: State, u: UserId, m: Up)
    requires u in s.peers && m in s.peers[u].outbox && !InRole(u, m, s.peers[u].described)
    ensures !AllInRole(s)
  {
    hide InRole;
    assert !PeerInRole(u, s.peers[u]);
  }

  lemma {:induction false} ResumesRetargetNothing(es: seq<Event>, more: seq<Event>)
    requires NothingRetargets(es) && OnlyResumes(more)
    ensures NothingRetargets(es + more)
  {
    hide Run;
    if more == [] {
      assert es + more == es;
    } else {
      var init := more[..|more| - 1];
      ResumesRetargetNothing(es, init);
      assert (es + more)[..|es + more| - 1] == es + init;
    }
  }

  lemma KeptIsInRole(s: State)
    requires AllKept(s)
    ensures AllInRole(s)
  {
    forall u: UserId | u in s.peers ensures PeerInRole(u, s.peers[u]) { assert RolesKept(u, s.peers[u]); }
  }

  /** At every moment of a run, in whatever way the suspended handlers then go on, all senders keep
      their roles, if and only if no step of the run retargets a suspended handler. */
  lemma {:induction false} RolesKeptIffNothingRetargets(es: seq<Event>)
    ensures AlwaysStaysInRole(es) <==> NothingRetargets(es)
  {
    hide Run, AllInRole, Retargets;
    if es != [] { RolesKeptIffNothingRetargets(es[..|es| - 1]); }
    if NothingRetargets(es) {
      forall more | OnlyResumes(more) ensures AllInRole(Run(es + more)) {
        ResumesRetargetNothing(es, more);
        RunAllKept(es + more);
        KeptIsInRole(Run(es + more));
      }
    } else if NothingRetargets(es[..|es| - 1]) {
      var init, e := es[..|es| - 1], es[|es| - 1];
      var more := RetargetBreaks(init, e);
      assert init + [e] + more == es + more;
    }
  }

  // ---- it happens ----------------------------------------------------------------------------------

  lemma Then(es: seq<Event>, s: State, e: Event) returns (es': seq<Event>, s': State)
    requires Run(es) == s
    ensures es' == es + [e] && Run(es') == s' == Step(s, e)
  {
    hide Step;
    es', s' := es + [e], Step(s, e);
    assert es'[..|es|] == es;
  }

  lemma ThenHandle(es: seq<Event>, s: State, u: UserId) returns (es': seq<Event>, s': State)
    requires Run(es) == s && u in s.peers
    ensures es' == es + [Handle(u)] && Run(es') == s' && s' == s.(peers := s.peers[u := HandleStep(s.peers[u])])
  {
    hide Run, HandleStep;
    es', s' := Then(es, s, Handle(u));
  }

  lemma ThenResume(es: seq<Event>, s: State, u: UserId, t: Task, ok: bool) returns (es': seq<Event>, s': State)
    requires Run(es) == s && u in s.peers
    ensures es' == es + [Resume(u, t, ok)] && Run(es') == s' && s' == s.(peers := s.peers[u := ResumeStep(s.peers[u], t, ok)])
  {
    hide Run, ResumeStep;
    es', s' := Then(es, s, Resume(u, t, ok));
  }

  lemma BothToldOfMatch(a: UserId, b: UserId) returns (es: seq<Event>, s: State)
    requires a != b
    ensures Run(es) == s && s.peers.Keys == {a, b} && |s.log| == 1
    ensures s.peers[a] == Joined(a, 0).(channel := [b]) && s.peers[b] == Joined(b, 0).(channel := [a])
  {
    hide Run, Precedes;
    es, s := [], START;
    assert Run(es) == s by { RunEmpty(); }
    es, s := Then(es, s, Register(a));
    es, s := Then(es, s, Register(b));
    es, s := Then(es, s, Publish(a, b));
  }

  lemma OfferUnderWay(a: UserId, b: UserId) returns (es: seq<Event>, s: State)
    requires Precedes(a, b) && a != b
    ensures Run(es) == s && s.peers.Keys == {a, b} && s.peers[a].outbox == [Offer(Some(b))] && |s.log| == 1
  {
    hide Run, Precedes;
    es, s := BothToldOfMatch(a, b);
    es, s := ThenHandle(es, s, a);
    assert s.peers[a].self == Some(a) && s.peers[a].inbox == [] && s.peers[a].channel == [b] && s.peers[a].outbox == [];
    es, s := Then(es, s, Forward(a));
    es, s := ThenHandle(es, s, a);
    assert s.peers[a].remote == Some(b) && MakingOffer in s.peers[a].tasks && s.peers[a].outbox == [];
    es, s := ThenResume(es, s, a, MakingOffer, true);
  }

  lemma RunEmpty()
    ensures Run([]) == START
  {
  }

  lemma PartnerBackWithAnother(a: UserId, b: UserId, c: UserId) returns (es: seq<Event>, s: State)
    requires Precedes(a, b) && Precedes(b, c) && a != b && b != c && a != c
    ensures Run(es) == s && a in s.peers && b in s.peers && s.peers[a].outbox == [Offer(Some(b))]
    ensures var p := s.peers[b];
      p.self == Some(b) && p.remote == Some(c) && p.tasks == multiset{MakingOffer} && p.inbox == [] && p.outbox == []
  {
    hide Run, Precedes;
    es, s := OfferUnderWay(a, b);
    es, s := Then(es, s, Leave(b));
    es, s := Then(es, s, Register(b));
    es, s := Then(es, s, Register(c));
    es, s := Then(es, s, Publish(b, c));
    assert s.peers[b] == Joined(b, 1).(channel := [c]) && s.peers[a].outbox == [Offer(Some(b))];
    es, s := ThenHandle(es, s, b);
    es, s := Then(es, s, Forward(b));
    assert s.peers[b].inbox == [Match(c)] && s.peers[b].self == Some(b) && s.peers[b].tasks == multiset{};
    es, s := ThenHandle(es, s, b);
  }

  /** `a` offers to `b`, which leaves, comes back and is matched with `c`. The pod knows recipients
      by ID only, so the old offer reaches the new client of `b` while that makes its offer to
      `c`: the offer goes to `a`, from the higher to the lower ID, and nothing goes to `c`. */
  lemma StaleOfferTurnsRolesAround(a: UserId, b: UserId, c: UserId) returns (es: seq<Event>)
    requires Precedes(a, b) && Precedes(b, c) && a != b && b != c && a != c
    ensures b in Run(es).peers && Run(es).peers[b].outbox == [Offer(Some(a))]
  {
    hide Run, Precedes;
    ghost var s: State;
    es, s := PartnerBackWithAnother(a, b, c);
    es, s := Then(es, s, Relay(a));
    assert s.peers[b].inbox == [OfferFrom(a)];
    es, s := ThenHandle(es, s, b);
    assert s.peers[b].remote == Some(a) && MakingOffer in s.peers[b].tasks && s.peers[b].outbox == [];
    es, s := ThenResume(es, s, b, MakingOffer, true);
  }

  /** An awaited call that throws ends its handler: nothing is sent, set or applied. */
  lemma FailedCallEndsHandler(es: seq<Event>, u: UserId, t: Task)
    requires u in Run(es).peers && t in Run(es).peers[u].tasks
    ensures var p, s := Run(es).peers[u], Run(es + [Resume(u, t, false)]);
      u in s.peers && s.peers[u] == p.(tasks := p.tasks - multiset{t}, failed := p.failed + 1)
    ensures Run(es + [Resume(u, t, true)]).peers[u].failed == Run(es).peers[u].failed
  {
    hide Run, ResumeStep;
    var es1, s1 := ThenResume(es, Run(es), u, t, false);
    var es2, s2 := ThenResume(es, Run(es), u, t, true);
    ResumeFails(Run(es).peers[u], t);
  }

  lemma ResumeFails(p: Peer, t: Task)
    requires t in p.tasks
    ensures ResumeStep(p, t, false) == p.(tasks := p.tasks - multiset{t}, failed := p.failed + 1)
    ensures ResumeStep(p, t, true).failed == p.failed
  {
  }

  /** After any run, the pod hands the oldest message of a client, in the sender's name, to the
      recipient that the message names, if that is connected, and otherwise to nobody. */
  lemma RelayDelivers(es: seq<Event>, u: UserId, v: UserId)
    requires u in Run(es).peers && Run(es).peers[u].outbox != [] && v in Run(es).peers
    ensures var p, m := Run(es).peers[v], Run(es).peers[u].outbox[0];
      var t := Run(es + [Relay(u)]);
      && t.peers.Keys == Run(es).peers.Keys && t.log == Run(es).log
      && t.peers[v] ==
           p.(outbox := if v == u then p.outbox[1..] else p.outbox,
              inbox := if m.to != Some(v) then p.inbox
                       else p.inbox + [if m.Offer? then OfferFrom(u) else AnswerFrom(u)])
  {
    hide Run;
    var es', s' := Then(es, Run(es), Relay(u));
  }

  lemma BothMatched(a: UserId, b: UserId) returns (es: seq<Event>, s: State)
    requires Precedes(a, b) && a != b
    ensures Run(es) == s && s.peers.Keys == {a, b}
    ensures s.peers[a] == Peer([], [], [], Some(a), Some(b), [(b, Offerer)], multiset{MakingOffer}, false, 0, 0, false, 0)
    ensures s.peers[b] == Peer([], [], [], Some(b), Some(a), [(a, Answerer)], multiset{}, false, 0, 0, false, 0)
  {
    hide Run, Precedes;
    PrecedesIsAStrictChoice(a, b);
    es, s := BothToldOfMatch(a, b);
    es, s := Told(es, s, a, b);
    es, s := Told(es, s, b, a);
  }

  /** `u` handles its init and the match with `v`. */
  lemma Told(es: seq<Event>, s: State, u: UserId, v: UserId) returns (es': seq<Event>, s': State)
    requires Run(es) == s && u in s.peers && s.peers[u] == Joined(u, 0).(channel := [v]) && u != v
    ensures Run(es') == s' && s'.peers.Keys == s.peers.Keys
    ensures forall w: UserId :: w in s.peers && w != u ==> s'.peers[w] == s.peers[w]
    ensures s'.peers[u] ==
      if Precedes(u, v)
      then Peer([], [], [], Some(u), Some(v), [(v, Offerer)], multiset{MakingOffer}, false, 0, 0, false, 0)
      else Peer([], [], [], Some(u), Some(v), [(v, Answerer)], multiset{}, false, 0, 0, false, 0)
  {
    hide Run, Precedes;
    es', s' := ThenHandle(es, s, u);
    assert s'.peers[u] == Peer([v], [], [], Some(u), None, [], multiset{}, false, 0, 0, false, 0);
    es', s' := Then(es', s', Forward(u));
    assert s'.peers[u] == Peer([], [Match(v)], [], Some(u), None, [], multiset{}, false, 0, 0, false, 0);
    es', s' := ThenHandle(es', s', u);
  }

  lemma OfferReceived(es: seq<Event>, s: State, a: UserId, b: UserId) returns (es': seq<Event>, s': State)
    requires Run(es) == s && a in s.peers && b in s.peers && a != b
    requires s.peers[a] == Peer([], [], [], Some(a), Some(b), [(b, Offerer)], multiset{MakingOffer}, false, 0, 0, false, 0)
    requires s.peers[b] == Peer([], [], [], Some(b), Some(a), [(a, Answerer)], multiset{}, false, 0, 0, false, 0)
    ensures Run(es') == s' && a in s'.peers && b in s'.peers
    ensures s'.peers[a] == Peer([], [], [], Some(a), Some(b), [(b, Offerer)], multiset{}, false, 0, 0, false, 0)
    ensures s'.peers[b] == Peer([], [], [], Some(b), Some(a), [(a, Answerer)], multiset{DescribingOffer}, false, 0, 0, false, 0)
  {
    hide Run, Precedes;
    es', s' := ThenResume(es, s, a, MakingOffer, true);
    assert s'.peers[a] == Peer([], [], [Offer(Some(b))], Some(a), Some(b), [(b, Offerer)], multiset{}, false, 0, 0, false, 0);
    es', s' := Then(es', s', Relay(a));
    assert s'.peers[b].inbox == [OfferFrom(a)];
    es', s' := ThenHandle(es', s', b);
  }

  lemma OfferAnswered(es: seq<Event>, s: State, a: UserId, b: UserId) returns (es': seq<Event>, s': State)
    requires Run(es) == s && a in s.peers && b in s.peers && a != b
    requires s.peers[a] == Peer([], [], [], Some(a), Some(b), [(b, Offerer)], multiset{MakingOffer}, false, 0, 0, false, 0)
    requires s.peers[b] == Peer([], [], [], Some(b), Some(a), [(a, Answerer)], multiset{}, false, 0, 0, false, 0)
    ensures Run(es') == s' && a in s'.peers && b in s'.peers
    ensures s'.peers[a] == Peer([], [], [], Some(a), Some(b), [(b, Offerer)], multiset{}, false, 0, 0, false, 0)
    ensures s'.peers[b] == Peer([], [], [Answer(Some(a))], Some(b), Some(a), [(a, Answerer)], multiset{}, true, 0, 0, false, 0)
  {
    hide Run, Precedes, Step;
    es', s' := OfferReceived(es, s, a, b);
    es', s' := ThenResume(es', s', b, DescribingOffer, true);
    assert s'.peers[b].tasks == multiset{MakingAnswer} && s'.peers[b].described;
    es', s' := ThenResume(es', s', b, MakingAnswer, true);
  }

  /** And the handshake itself: two users who are matched, and whose messages and awaits all get
      through, end up with the lower ID's offer answered, the answer applied, both descriptions
      set and nothing left to do. */
  lemma HandshakeGetsThrough(a: UserId, b: UserId) returns (es: seq<Event>)
    requires Precedes(a, b) && a != b
    ensures var s := Run(es);
      && a in s.peers && b in s.peers
      && s.peers[a] == Peer([], [], [], Some(a), Some(b), [(b, Offerer)], multiset{}, true, 1, 0, false, 0)
      && s.peers[b] == Peer([], [], [], Some(b), Some(a), [(a, Answerer)], multiset{}, true, 0, 0, false, 0)
  {
    hide Run, Precedes;
    ghost var s: State;
    es, s := BothMatched(a, b);
    es, s := OfferAnswered(es, s, a, b);
    es, s := Then(es, s, Relay(b));
    assert s.peers[a].inbox == [AnswerFrom(b)];
    es, s := ThenHandle(es, s, a);
    assert s.peers[a].tasks == multiset{DescribingAnswer} && s.peers[a].inbox == [];
    es, s := ThenResume(es, s, a, DescribingAnswer, true);
  }
}
