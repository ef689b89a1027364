/** What the two clients of a match can rely on in every run of the handshake in its usual course:
    roles and descriptions come in the right order, and the offer or answer of a pair is always
    in exactly one place until it is applied or a call fails. */
module HandshakeSafety {
  import opened Options
  import opened Ids
  import opened Handshake
  import opened HandshakeDelivery
  import opened HandshakeRoles

  lemma HandledMatch(partner: map<UserId, UserId>, u: UserId, p: Peer)
    requires PeerOk(partner, u, p) && p.inbox != [] && p.inbox[0].Match?
    ensures p.self == Some(u) && u in partner && p.inbox[0].peer == partner[u]
  {
    if p.self.Some? { assert DownOk(partner, u, p.inbox[0]); }
  }

  // ---- one match per user ----------------------------------------------------------------------------

  /** Each user has one partner at most in the log, and all of it since it subscribed. */
  ghost predicate PartnerInLog(s: State, u: UserId) {
    && Partners(s.log, u) == (if u in s.partner then [s.partner[u]] else [])
    && (u in s.peers ==> s.peers[u].since <= |s.log| && Partners(s.log[s.peers[u].since..], u) == Partners(s.log, u))
  }

  lemma SinceKept(s: State, e: Event, u: UserId)
    requires u in s.peers && u in Step(s, e).peers
    ensures Step(s, e).peers[u].since == s.peers[u].since
  {
    hide Precedes;
  }

  lemma PublishPartnerInLog(s: State, a: UserId, b: UserId, u: UserId)
    requires Usual(s, Publish(a, b)) && PartnerInLog(s, u)
    ensures PartnerInLog(Step(s, Publish(a, b)), u)
  {
    hide Partners, Notify;
    PublishedLog(s, a, b, 0, u);
    assert s.log[0..] == s.log && (s.log + [(a, b)])[0..] == s.log + [(a, b)];
    if u in s.peers {
      PublishedPeer(s, a, b, u);
      PublishedLog(s, a, b, s.peers[u].since, u);
    }
    NobodyNew(s, a, b);
  }

  lemma NobodyNew(s: State, a: UserId, b: UserId)
    ensures Step(s, Publish(a, b)).peers.Keys == s.peers.Keys
  {
  }

  lemma RegisterPartnerInLog(s: State, w: UserId, u: UserId)
    requires AllOk(s) && PartnerInLog(s, u)
    ensures PartnerInLog(Step(s, Register(w)), u)
  {
    hide AllOk, Partners;
    if u in s.partner { Mutual(s, u); }
    NoneSince(s.log, u);
  }

  lemma NoneSince(log: seq<(UserId, UserId)>, u: UserId)
    ensures Partners(log[|log|..], u) == []
  {
    assert log[|log|..] == [];
  }

  lemma StepPartnerInLog(s: State, e: Event, u: UserId)
    requires AllOk(s) && Usual(s, e) && PartnerInLog(s, u)
    ensures PartnerInLog(Step(s, e), u)
  {
    hide AllOk, Partners, Step;
    if e.Publish? {
      PublishPartnerInLog(s, e.a, e.b, u);
    } else if e.Register? {
      RegisterPartnerInLog(s, e.u, u);
    } else {
      LogKept(s, e, u);
      if u in Step(s, e).peers { SinceKept(s, e, u); }
    }
  }

  lemma LogKept(s: State, e: Event, u: UserId)
    requires !e.Publish? && !e.Register?
    ensures Step(s, e).log == s.log && Step(s, e).partner == s.partner
    ensures u in Step(s, e).peers ==> u in s.peers
  {
    hide ForwardStep, HandleStep, ResumeStep;
  }

  lemma {:induction false} RunPartnerInLog(es: seq<Event>, u: UserId)
    requires MatchedOnce(es)
    ensures PartnerInLog(Run(es), u)
  {
    hide Step, Usual, AllOk;
    if es != [] {
      RunPartnerInLog(es[..|es| - 1], u);
      RunOk(es[..|es| - 1]);
      StepPartnerInLog(Run(es[..|es| - 1]), es[|es| - 1], u);
    }
  }

  // ---- roles -------------------------------------------------------------------------------------------

  lemma UsualRetargetsNothing(s: State, e: Event)
    requires AllOk(s)
    ensures !Retargets(s, e)
  {
    if e.Handle? && e.u in s.peers && s.peers[e.u].inbox != [] {
      var u, p := e.u, s.peers[e.u];
      assert PeerOk(s.partner, u, p);
      if Named(p.inbox[0]).Some? {
        HeadKnowsPartner(s.partner, u, p);
        forall t | t in p.tasks ensures TaskOk(s.partner, u, p, t) { TaskIsOk(s.partner, u, p, t); }
      }
      hide PeerOk, InitFirst, Precedes;
    }
  }

  lemma HeadKnowsPartner(partner: map<UserId, UserId>, u: UserId, p: Peer)
    requires PeerOk(partner, u, p) && p.inbox != [] && Named(p.inbox[0]).Some?
    ensures u in partner && Named(p.inbox[0]) == Some(partner[u])
    ensures p.inbox[0].OfferFrom? ==> Follows(partner, u)
  {
    if p.self.Some? { assert DownOk(partner, u, p.inbox[0]); }
    hide Precedes;
  }

  /** In its usual course a run retargets nothing. */
  lemma {:induction false} MatchedOnceRetargetsNothing(es: seq<Event>)
    requires MatchedOnce(es)
    ensures NothingRetargets(es)
  {
    hide Run, Usual, AllOk, Retargets;
    if es != [] {
      MatchedOnceRetargetsNothing(es[..|es| - 1]);
      RunOk(es[..|es| - 1]);
      UsualRetargetsNothing(Run(es[..|es| - 1]), es[|es| - 1]);
    }
  }

  /** So there whatever a client sends keeps its role, and it goes to its partner. */
  lemma SendersAddressTheirPartner(es: seq<Event>, u: UserId, m: Up)
    requires MatchedOnce(es)
    requires u in Run(es).peers && m in Run(es).peers[u].outbox
    ensures var p, v := Run(es).peers[u], Partners(Run(es).log, u);
      && |v| == 1 && m.to == Some(v[0])
      && (if m.Offer? then Precedes(u, v[0]) else Precedes(v[0], u) && p.described)
  {
    hide Run, Partners, Precedes;
    MatchedOnceRetargetsNothing(es);
    SendersKeepTheirRoles(es, u, m);
    RunOk(es);
    RunPartnerInLog(es, u);
    assert UpOk(Run(es).partner, u, Run(es).peers[u], m);
  }

  // ---- one message of the pair at a time -------------------------------------------------------------

  /** Whether handling `m` makes the client act: the lower id acts on its match. */
  predicate Prompts(leads: bool, m: Down) {
    m.OfferFrom? || m.AnswerFrom? || (leads && m.Match?)
  }

  function Prompting(leads: bool, inbox: seq<Down>): nat {
    if inbox == [] then 0 else (if Prompts(leads, inbox[0]) then 1 else 0) + Prompting(leads, inbox[1..])
  }

  /** Every place where `p` can hold the pair's next move. */
  function Holds(leads: bool, p: Peer): nat {
    (if leads then |p.channel| else 0) + Prompting(leads, p.inbox) + |p.tasks| + |p.outbox| + p.finished + p.failed
  }

  function HeldBy(s: State, u: UserId): nat
    requires u in s.peers
  {
    Holds(Leads(s.partner, u), s.peers[u])
  }

  lemma {:induction false} PromptingAppend(leads: bool, inbox: seq<Down>, m: Down)
    ensures Prompting(leads, inbox + [m]) == Prompting(leads, inbox) + if Prompts(leads, m) then 1 else 0
  {
    if inbox != [] {
      assert (inbox + [m])[1..] == inbox[1..] + [m];
      PromptingAppend(leads, inbox[1..], m);
    }
  }

  lemma ForwardHolds(leads: bool, p: Peer)
    ensures Holds(leads, ForwardStep(p)) == Holds(leads, p)
  {
    if p.channel != [] { PromptingAppend(leads, p.inbox, Match(p.channel[0])); }
  }

  lemma HandleHolds(leads: bool, p: Peer)
    requires p.inbox != [] && p.inbox[0].Match? ==>
               p.self.Some? && (leads <==> Precedes(p.self.value, p.inbox[0].peer))
    ensures Holds(leads, HandleStep(p)) == Holds(leads, p)
  {
    hide Precedes;
  }

  lemma ResumeHolds(leads: bool, p: Peer, t: Task, ok: bool)
    ensures Holds(leads, ResumeStep(p, t, ok)) == Holds(leads, p)
  {
    if t in p.tasks { assert |p.tasks - multiset{t}| == |p.tasks| - 1; }
  }

  /** An unmatched user holds nothing; a matched pair holds exactly one move between them. */
  ghost predicate OneMove(s: State, u: UserId) {
    && (u in s.peers && u !in s.partner ==> Holds(true, s.peers[u]) == 0)
    && (u in s.partner && u in s.peers && s.partner[u] in s.peers ==> HeldBy(s, u) + HeldBy(s, s.partner[u]) == 1)
  }

  lemma HoldsNothing(leads: bool, p: Peer)
    requires Holds(true, p) == 0
    ensures Holds(leads, p) == 0 && p.channel == []
  {
    QuietInbox(leads, p.inbox);
  }

  lemma {:induction false} QuietInbox(leads: bool, inbox: seq<Down>)
    requires Prompting(true, inbox) == 0
    ensures Prompting(leads, inbox) == 0
  {
    if inbox != [] { QuietInbox(leads, inbox[1..]); }
  }

  lemma Mutual(s: State, u: UserId)
    requires AllOk(s) && u in s.partner
    ensures var v := s.partner[u];
      u in s.peers && v in s.peers && v != u && v in s.partner && s.partner[v] == u
  {
    hide PeerOk;
  }

  lemma PublishOneMove(s: State, a: UserId, b: UserId, u: UserId)
    requires AllOk(s) && Usual(s, Publish(a, b)) && OneMove(s, u) && OneMove(s, a) && OneMove(s, b)
    ensures OneMove(Step(s, Publish(a, b)), u)
  {
    hide AllOk, Holds, Precedes;
    var s' := Step(s, Publish(a, b));
    if u == a || u == b {
      PublishedMove(s, a, b);
    } else if u in s.partner {
      Mutual(s, u);
      assert s'.partner[u] == s.partner[u];
      assert s'.peers[u] == s.peers[u] && s'.peers[s.partner[u]] == s.peers[s.partner[u]];
    }
  }

  lemma PublishedMove(s: State, a: UserId, b: UserId)
    requires a in s.peers && b in s.peers && a != b && a !in s.partner && b !in s.partner
    requires Holds(true, s.peers[a]) == 0 && Holds(true, s.peers[b]) == 0
    ensures var t := Step(s, Publish(a, b));
      t.partner == s.partner[a := b][b := a] && t.peers.Keys == s.peers.Keys && HeldBy(t, a) + HeldBy(t, b) == 1
  {
    PrecedesIsAStrictChoice(a, b);
    hide Precedes;
    PublishHolds(Precedes(a, b), s.peers[a], b);
    PublishHolds(Precedes(b, a), s.peers[b], a);
    hide Holds;
  }

  lemma PublishHolds(leads: bool, p: Peer, v: UserId)
    requires Holds(true, p) == 0
    ensures Holds(leads, p.(channel := p.channel + [v])) == if leads then 1 else 0
  {
    HoldsNothing(leads, p);
    var q := p.(channel := p.channel + [v]);
    assert |q.channel| == 1 && q.inbox == p.inbox;
    hide Prompting;
  }

  /** A step that keeps what `w` holds keeps what every pair holds. */
  lemma LocalStepOneMove(s: State, w: UserId, p: Peer, u: UserId)
    requires AllOk(s) && OneMove(s, u) && w in s.peers
    requires w in s.partner ==> Holds(Leads(s.partner, w), p) == Holds(Leads(s.partner, w), s.peers[w])
    requires w !in s.partner ==> Holds(true, p) == Holds(true, s.peers[w])
    ensures OneMove(s.(peers := s.peers[w := p]), u)
  {
    hide PeerOk, Holds, Precedes;
  }

  lemma SentHolds(leads: bool, p: Peer)
    requires p.outbox != []
    ensures Holds(leads, p.(outbox := p.outbox[1..])) == Holds(leads, p) - 1
  {
    hide Prompting;
  }

  lemma DeliverHolds(leads: bool, p: Peer, m: Down)
    requires Prompts(leads, m)
    ensures Holds(leads, p.(inbox := p.inbox + [m])) == Holds(leads, p) + 1
  {
    PromptingAppend(leads, p.inbox, m);
  }

  /** One user of a pair passes the move to the other. */
  lemma PassOneMove(s: State, w: UserId, p: Peer, q: Peer, u: UserId)
    requires AllOk(s) && OneMove(s, u) && w in s.partner
    requires Holds(Leads(s.partner, w), p) == HeldBy(s, w) - 1
    requires Holds(Leads(s.partner, s.partner[w]), q) == HeldBy(s, s.partner[w]) + 1
    ensures OneMove(s.(peers := s.peers[w := p][s.partner[w] := q]), u)
  {
    hide PeerOk, Holds, Precedes;
  }

  lemma RelayOneMove(s: State, w: UserId, u: UserId)
    requires AllOk(s) && OneMove(s, u) && w in s.peers && s.peers[w].outbox != []
    ensures OneMove(Step(s, Relay(w)), u)
  {
    var p, v, m := RelayedTo(s, w);
    hide *;
    var down := if m.Offer? then OfferFrom(w) else AnswerFrom(w);
    RelayStep(s, w, p, v, m);
    HeldByRelay(s, w, v, p, down);
    PassOneMove(s, w, p.(outbox := p.outbox[1..]), s.peers[v].(inbox := s.peers[v].inbox + [down]), u);
  }

  lemma HeldByRelay(s: State, w: UserId, v: UserId, p: Peer, down: Down)
    requires w in s.partner && v == s.partner[w] && w in s.peers && v in s.peers
    requires p == s.peers[w] && p.outbox != [] && !down.Match? && !down.Init?
    ensures Holds(Leads(s.partner, w), p.(outbox := p.outbox[1..])) == HeldBy(s, w) - 1
    ensures Holds(Leads(s.partner, v), s.peers[v].(inbox := s.peers[v].inbox + [down])) == HeldBy(s, v) + 1
  {
    SentHolds(Leads(s.partner, w), p);
    DeliverHolds(Leads(s.partner, v), s.peers[v], down);
    hide Holds, Leads;
  }

  lemma RelayStep(s: State, w: UserId, p: Peer, v: UserId, m: Up)
    requires w in s.peers && v in s.peers && v != w && p == s.peers[w]
    requires p.outbox != [] && m == p.outbox[0] && m.to == Some(v)
    ensures Step(s, Relay(w)) ==
      (var down := if m.Offer? then OfferFrom(w) else AnswerFrom(w);
       s.(peers := s.peers[w := p.(outbox := p.outbox[1..])][v := s.peers[v].(inbox := s.peers[v].inbox + [down])]))
  {
  }

  /** The pod passes `w`'s message on to its partner. */
  lemma RelayedTo(s: State, w: UserId) returns (p: Peer, v: UserId, m: Up)
    requires AllOk(s) && w in s.peers && s.peers[w].outbox != []
    ensures p == s.peers[w] && m == p.outbox[0] && m.to == Some(v)
    ensures w in s.partner && v == s.partner[w] && v in s.peers && v != w
  {
    p := s.peers[w];
    m := p.outbox[0];
    SentOk(s.partner, w, p);
    UpOkMatched(s.partner, w, p, m);
    Mutual(s, w);
    v := s.partner[w];
    hide AllOk, PeerOk, UpOk;
    RelayedIsOk(s.partner, w, p, m);
  }

  lemma LeadsByOwnId(partner: map<UserId, UserId>, u: UserId, p: Peer)
    requires PeerOk(partner, u, p) && p.inbox != [] && p.inbox[0].Match?
    ensures u in partner && p.self.Some? && (Leads(partner, u) <==> Precedes(p.self.value, p.inbox[0].peer))
  {
    HandledMatch(partner, u, p);
  }

  lemma HandleOneMove(s: State, w: UserId, u: UserId)
    requires AllOk(s) && OneMove(s, u) && w in s.peers
    ensures OneMove(Step(s, Handle(w)), u)
  {
    hide PeerOk, Precedes, Holds, HandleStep, OneMove;
    var p := s.peers[w];
    assert PeerOk(s.partner, w, p);
    hide AllOk;
    if p.inbox != [] && p.inbox[0].Match? { LeadsByOwnId(s.partner, w, p); }
    if w in s.partner { HandleHolds(Leads(s.partner, w), p); } else { HandleHolds(true, p); }
    LocalStepOneMove(s, w, HandleStep(p), u);
  }

  lemma ForwardOneMove(s: State, w: UserId, u: UserId)
    requires AllOk(s) && OneMove(s, u) && w in s.peers
    ensures OneMove(Step(s, Forward(w)), u)
  {
    hide PeerOk, Precedes, Holds, ForwardStep;
    ForwardHolds(w in s.partner ==> Leads(s.partner, w), s.peers[w]);
    LocalStepOneMove(s, w, ForwardStep(s.peers[w]), u);
  }

  lemma ResumeOneMove(s: State, w: UserId, t: Task, ok: bool, u: UserId)
    requires AllOk(s) && OneMove(s, u) && w in s.peers
    ensures OneMove(Step(s, Resume(w, t, ok)), u)
  {
    hide PeerOk, Precedes, Holds, ResumeStep;
    ResumeHolds(w in s.partner ==> Leads(s.partner, w), s.peers[w], t, ok);
    LocalStepOneMove(s, w, ResumeStep(s.peers[w], t, ok), u);
  }

  lemma RegisterOneMove(s: State, w: UserId, u: UserId)
    requires AllOk(s) && OneMove(s, u)
    ensures OneMove(Step(s, Register(w)), u)
  {
    assert Prompting(true, [Init(w)][1..]) == 0;
    assert Holds(true, Joined(w, |s.log|)) == 0;
    hide PeerOk, Precedes, Holds, Joined;
  }

  lemma StepOneMove(s: State, e: Event, u: UserId)
    requires AllOk(s) && Usual(s, e) && (forall w: UserId :: OneMove(s, w))
    ensures OneMove(Step(s, e), u)
  {
    hide AllOk, OneMove, HandleStep, ForwardStep, ResumeStep, RelayTo;
    assert OneMove(s, u);
    match e
    case Register(w) => RegisterOneMove(s, w, u);
    case Leave(w) =>
    case Publish(a, b) => PublishOneMove(s, a, b, u);
    case Forward(w) => if w in s.peers { ForwardOneMove(s, w, u); }
    case Handle(w) => if w in s.peers { HandleOneMove(s, w, u); }
    case Resume(w, t, ok) => if w in s.peers { ResumeOneMove(s, w, t, ok, u); }
    case Relay(w) => if w in s.peers && s.peers[w].outbox != [] { RelayOneMove(s, w, u); }
  }

  lemma {:induction false} RunOneMove(es: seq<Event>)
    requires MatchedOnce(es)
    ensures forall u: UserId :: OneMove(Run(es), u)
  {
    hide Step, OneMove, AllOk, Usual;
    if es == [] {
      forall u: UserId ensures OneMove(Run(es), u) { StartOneMove(u); }
    } else {
      RunOneMove(es[..|es| - 1]);
      RunOk(es[..|es| - 1]);
      forall u: UserId ensures OneMove(Run(es), u) { StepOneMove(Run(es[..|es| - 1]), es[|es| - 1], u); }
    }
  }

  lemma StartOneMove(u: UserId)
    ensures OneMove(START, u)
  {
  }

  // ---- an answer is backed by the answerer's description --------------------------------------------

  ghost predicate Answered(p: Peer) {
    || (exists m :: m in p.inbox && m.AnswerFrom?)
    || DescribingAnswer in p.tasks
    || p.finished > 0
  }

  ghost predicate Backed(s: State, u: UserId) {
    u in s.partner && u in s.peers && s.partner[u] in s.peers && Answered(s.peers[u]) ==> s.peers[s.partner[u]].described
  }

  // Only the pod's delivery of an answer can make a client answered.

  lemma ForwardDoesNotAnswer(p: Peer)
    ensures Answered(ForwardStep(p)) ==> Answered(p)
    ensures ForwardStep(p).described == p.described
  {
    if p.channel != [] { OffersDoNotAnswer(p, Match(p.channel[0])); }
    hide Answered;
    SameAnswered(p.(inbox := ForwardStep(p).inbox), ForwardStep(p));
  }

  lemma HandleDoesNotAnswer(p: Peer)
    ensures Answered(HandleStep(p)) ==> Answered(p)
    ensures HandleStep(p).described == p.described
  {
    hide Precedes;
    if p.inbox != [] {
      TailMembers(p.inbox);
      var q := HandleStep(p);
      assert q.inbox == p.inbox[1..] && q.finished == p.finished;
      assert DescribingAnswer in q.tasks ==> DescribingAnswer in p.tasks || p.inbox[0].AnswerFrom?;
    }
  }

  lemma ResumeDoesNotAnswer(p: Peer, t: Task, ok: bool)
    ensures Answered(ResumeStep(p, t, ok)) ==> Answered(p)
    ensures p.described ==> ResumeStep(p, t, ok).described
  {
    var q := ResumeStep(p, t, ok);
    assert q.inbox == p.inbox;
    assert DescribingAnswer in q.tasks ==> DescribingAnswer in p.tasks;
    assert q.finished > p.finished ==> DescribingAnswer in p.tasks;
    hide ResumeStep;
  }

  lemma LocalStepBacked(s: State, w: UserId, p: Peer, u: UserId)
    requires Backed(s, u) && w in s.peers
    requires Answered(p) ==> Answered(s.peers[w])
    requires s.peers[w].described ==> p.described
    ensures Backed(s.(peers := s.peers[w := p]), u)
  {
    hide Answered;
  }

  lemma UnmatchedIsUnanswered(s: State, u: UserId)
    requires AllOk(s) && u in s.peers && u !in s.partner
    ensures !Answered(s.peers[u])
  {
    var p := s.peers[u];
    assert PeerOk(s.partner, u, p);
    forall m | m in p.inbox ensures !m.AnswerFrom? {
      if p.self.None? { assert m == p.inbox[0] || m in p.inbox[1..]; }
      assert m.Init? || DownOk(s.partner, u, m);
    }
  }

  lemma PublishBacked(s: State, a: UserId, b: UserId, u: UserId)
    requires AllOk(s) && Usual(s, Publish(a, b)) && Backed(s, u)
    ensures Backed(Step(s, Publish(a, b)), u)
  {
    var s' := Step(s, Publish(a, b));
    UnmatchedIsUnanswered(s, a);
    UnmatchedIsUnanswered(s, b);
    if u in s.partner { Mutual(s, u); }
    hide AllOk, Answered;
    SameAnswered(s.peers[a], s'.peers[a]);
    SameAnswered(s.peers[b], s'.peers[b]);
    if u == a || u == b {
      assert !Answered(s'.peers[u]);
    } else if u in s.partner {
      StillBacked(s, s', u);
    }
  }

  lemma StillBacked(s: State, s': State, u: UserId)
    requires Backed(s, u) && u in s.partner && u in s.peers && s.partner[u] in s.peers
    requires u in s'.partner && s'.partner[u] == s.partner[u] && u in s'.peers && s.partner[u] in s'.peers
    requires s'.peers[u] == s.peers[u] && s'.peers[s.partner[u]] == s.peers[s.partner[u]]
    ensures Backed(s', u)
  {
    hide Answered;
  }

  lemma SameAnswered(p: Peer, q: Peer)
    requires q.inbox == p.inbox && q.tasks == p.tasks && q.finished == p.finished
    ensures Answered(q) == Answered(p)
  {
  }

  lemma RelayBacked(s: State, w: UserId, u: UserId)
    requires AllOk(s) && Backed(s, u) && w in s.peers && s.peers[w].outbox != []
    ensures Backed(Step(s, Relay(w)), u)
  {
    var p, v, m := RelayedTo(s, w);
    RelayStep(s, w, p, v, m);
    var q := s.peers[v];
    var q' := q.(inbox := q.inbox + [if m.Offer? then OfferFrom(w) else AnswerFrom(w)]);
    if m.Answer? { AnswererDescribed(s, w, m); }
    if m.Offer? { OffersDoNotAnswer(q, OfferFrom(w)); }
    if u in s.partner { Mutual(s, u); }
    Mutual(s, w);
    SameAnswered(p, p.(outbox := p.outbox[1..]));
    hide *;
    RelayedBacked(s, w, v, p.(outbox := p.outbox[1..]), q', u);
  }

  lemma RelayedBacked(s: State, w: UserId, v: UserId, p: Peer, q: Peer, u: UserId)
    requires Backed(s, u) && w in s.peers && v in s.peers && w != v
    requires w in s.partner && s.partner[w] == v && v in s.partner && s.partner[v] == w
    requires u in s.partner ==> s.partner[u] in s.partner && s.partner[s.partner[u]] == u
    requires Answered(p) == Answered(s.peers[w]) && p.described == s.peers[w].described
    requires q.described == s.peers[v].described && (Answered(q) ==> Answered(s.peers[v]) || p.described)
    ensures Backed(s.(peers := s.peers[w := p][v := q]), u)
  {
    hide Answered;
  }

  lemma OffersDoNotAnswer(p: Peer, m: Down)
    requires !m.AnswerFrom?
    ensures Answered(p.(inbox := p.inbox + [m])) == Answered(p)
  {
    forall x: Down ensures x.AnswerFrom? ==> (x in p.inbox + [m] <==> x in p.inbox) {}
  }

  lemma AnswererDescribed(s: State, w: UserId, m: Up)
    requires AllOk(s) && w in s.peers && m in s.peers[w].outbox && m.Answer?
    ensures s.peers[w].described
  {
    assert PeerOk(s.partner, w, s.peers[w]);
    assert UpOk(s.partner, w, s.peers[w], m);
  }

  lemma RegisterBacked(s: State, w: UserId, u: UserId)
    requires AllOk(s) && Backed(s, u)
    ensures Backed(Step(s, Register(w)), u)
  {
    assert !Answered(Joined(w, |s.log|));
    hide Answered, Joined;
    if u in s.partner { Mutual(s, u); }
    hide AllOk;
  }

  lemma StepBacked(s: State, e: Event, u: UserId)
    requires AllOk(s) && Usual(s, e) && Backed(s, u)
    ensures Backed(Step(s, e), u)
  {
    hide AllOk, Answered, Backed, HandleStep, ForwardStep, ResumeStep, RelayTo;
    match e
    case Register(w) => RegisterBacked(s, w, u);
    case Leave(w) =>
    case Publish(a, b) => PublishBacked(s, a, b, u);
    case Forward(w) =>
      if w in s.peers {
        ForwardDoesNotAnswer(s.peers[w]);
        LocalStepBacked(s, w, ForwardStep(s.peers[w]), u);
      }
    case Handle(w) =>
      if w in s.peers {
        HandleDoesNotAnswer(s.peers[w]);
        LocalStepBacked(s, w, HandleStep(s.peers[w]), u);
      }
    case Resume(w, t, ok) =>
      if w in s.peers {
        ResumeDoesNotAnswer(s.peers[w], t, ok);
        LocalStepBacked(s, w, ResumeStep(s.peers[w], t, ok), u);
      }
    case Relay(w) => if w in s.peers && s.peers[w].outbox != [] { RelayBacked(s, w, u); }
  }

  lemma {:induction false} RunBacked(es: seq<Event>, u: UserId)
    requires MatchedOnce(es)
    ensures Backed(Run(es), u)
  {
    hide Step, AllOk, Usual;
    if es != [] {
      RunBacked(es[..|es| - 1], u);
      RunOk(es[..|es| - 1]);
      StepBacked(Run(es[..|es| - 1]), es[|es| - 1], u);
    }
  }

  // ---- the whole handshake ---------------------------------------------------------------------------

  /** Nothing of `p` is under way. */
  ghost predicate Settled(p: Peer) {
    p.channel == [] && p.inbox == [] && p.outbox == [] && p.tasks == multiset{}
  }

  lemma MatchedByLog(es: seq<Event>, u: UserId, v: UserId)
    requires MatchedOnce(es) && v in Partners(Run(es).log, u)
    ensures var s := Run(es);
      && u in s.partner && s.partner[u] == v && v in s.partner && s.partner[v] == u
      && u in s.peers && v in s.peers && u != v && Partners(s.log, v) == [u]
  {
    hide Run, Partners;
    RunPartnerInLog(es, u);
    RunPartnerInLog(es, v);
    RunOk(es);
    assert v in [Run(es).partner[u]];
    Mutual(Run(es), u);
  }

  /** A matched pair has exactly one move between its two clients, wherever it is: on a
      channel, on a websocket, in a suspended handler, applied, or lost with a failed call. */
  lemma OneMoveBetweenPartners(es: seq<Event>, u: UserId, v: UserId)
    requires MatchedOnce(es) && v in Partners(Run(es).log, u)
    ensures u in Run(es).peers && v in Run(es).peers
    ensures HeldBy(Run(es), u) + HeldBy(Run(es), v) == 1
  {
    MatchedByLog(es, u, v);
    RunOneMove(es);
    hide Run, Partners;
    assert OneMove(Run(es), u);
  }

  /** Once nothing is under way for a matched pair, both have handled their match, and the
      offerer has applied the answer if and only if no awaited call of either side failed. */
  lemma HandshakeCompletesUnlessACallFails(es: seq<Event>, u: UserId, v: UserId)
    requires MatchedOnce(es) && v in Partners(Run(es).log, u) && Precedes(u, v)
    requires u in Run(es).peers && v in Run(es).peers
    requires Settled(Run(es).peers[u]) && Settled(Run(es).peers[v])
    ensures var p, q := Run(es).peers[u], Run(es).peers[v];
      && p.met == [(v, Offerer)] && q.met == [(u, Answerer)]
      && p.finished + p.failed + q.failed == 1 && q.finished == 0
      && (p.finished == 1 <==> p.failed == 0 && q.failed == 0)
      && (p.finished == 1 ==> p.described && q.described)
  {
    hide Run, Partners, Holds, Leads, Settled;
    MatchedByLog(es, u, v);
    OneMoveBetweenPartners(es, u, v);
    SettledHolds(es, u, v);
    SettledHolds(es, v, u);
    PrecedesIsAStrictChoice(u, v);
    hide Precedes;
    if Run(es).peers[u].finished > 0 { AnswerBacked(es, u, v); }
  }

  /** Applying an answer takes the partner's having set its remote description. */
  lemma AnswerBacked(es: seq<Event>, u: UserId, v: UserId)
    requires MatchedOnce(es) && v in Partners(Run(es).log, u)
    requires u in Run(es).peers && v in Run(es).peers && Run(es).peers[u].finished > 0
    ensures Run(es).peers[v].described
  {
    MatchedByLog(es, u, v);
    RunBacked(es, u);
    hide Run, Partners;
    assert Answered(Run(es).peers[u]);
  }

  lemma SettledHolds(es: seq<Event>, u: UserId, v: UserId)
    requires MatchedOnce(es) && v in Partners(Run(es).log, u)
    requires u in Run(es).peers && Settled(Run(es).peers[u])
    ensures var p := Run(es).peers[u];
      && HeldBy(Run(es), u) == p.finished + p.failed
      && (p.finished > 0 ==> p.described && Precedes(u, v))
      && p.met == [(v, if Precedes(u, v) then Offerer else Answerer)]
  {
    hide Run, Partners, Precedes, Deliveries, Settled;
    MatchedByLog(es, u, v);
    RunOk(es);
    RunInOrder(es, u);
    RunPartnerInLog(es, u);
    hide AllOk, PeerOk, Started;
    SettledMet(Run(es).partner, u, v, Run(es).peers[u]) by { AllPeersOk(Run(es), u); }
  }

  lemma AllPeersOk(s: State, u: UserId)
    requires AllOk(s) && u in s.peers
    ensures PeerOk(s.partner, u, s.peers[u])
  {
  }

  lemma SettledMet(partner: map<UserId, UserId>, u: UserId, v: UserId, p: Peer)
    requires PeerOk(partner, u, p) && u in partner && partner[u] == v && Settled(p) && Deliveries(p) == [v]
    ensures Holds(Leads(partner, u), p) == p.finished + p.failed
    ensures p.finished > 0 ==> p.described && Precedes(u, v)
    ensures p.met == [(v, if Precedes(u, v) then Offerer else Answerer)]
  {
    hide Precedes, InitFirst, DownOk, UpOk, TaskOk;
    assert Deliveries(p) == Met(p.met);
    assert |Met(p.met)| == |p.met|;
    var x := p.met[0];
    assert Met(p.met)[0] == x.0 && x in p.met;
  }
}
