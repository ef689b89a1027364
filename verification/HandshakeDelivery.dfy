/** What every client of the handshake can rely on in every run whatever, also when clients leave,
    come back and are matched again: what it is told, and in what order. */
module HandshakeDelivery {
  import opened Options
  import opened Ids
  import opened Handshake

  /** The partners of `u` in a match log; a match of `u` with itself counts twice, as it is
      published twice. */
  function Partners(log: seq<(UserId, UserId)>, u: UserId): seq<UserId> {
    if log == [] then [] else
      var m := log[|log| - 1];
      Partners(log[..|log| - 1], u) + (if m.0 == u then [m.1] else []) + (if m.1 == u then [m.0] else [])
  }

  function Met(met: seq<(UserId, Role)>): seq<UserId> {
    seq(|met|, i requires 0 <= i < |met| => met[i].0)
  }

  function MatchesIn(inbox: seq<Down>): seq<UserId> {
    if inbox == [] then [] else
      (if inbox[0].Match? then [inbox[0].peer] else []) + MatchesIn(inbox[1..])
  }

  /** Matches received, then those on the websocket, then those on the channel. */
  function Deliveries(p: Peer): seq<UserId> {
    Met(p.met) + MatchesIn(p.inbox) + p.channel
  }

  lemma {:induction false} MatchesInAppend(inbox: seq<Down>, m: Down)
    ensures MatchesIn(inbox + [m]) == MatchesIn(inbox) + (if m.Match? then [m.peer] else [])
  {
    if inbox != [] {
      assert (inbox + [m])[1..] == inbox[1..] + [m];
      MatchesInAppend(inbox[1..], m);
    }
  }

  lemma ForwardDelivers(p: Peer)
    ensures Deliveries(ForwardStep(p)) == Deliveries(p)
  {
    if p.channel != [] {
      var v := p.channel[0];
      MatchesInAppend(p.inbox, Match(v));
      assert p.channel == [v] + p.channel[1..];
    }
  }

  lemma HandleDelivers(p: Peer)
    requires p.inbox != [] && p.inbox[0].Match? ==> p.self.Some?
    ensures Deliveries(HandleStep(p)) == Deliveries(p)
  {
    hide Precedes, Met, MatchesIn;
    if p.inbox != [] {
      var q := HandleStep(p);
      NextInbox(p.inbox);
      if p.inbox[0].Match? {
        MetSnoc(p.met, q.met[|p.met|]);
        Reassociate(Met(p.met), [p.inbox[0].peer], MatchesIn(p.inbox[1..]), p.channel);
      }
    }
  }

  lemma NextInbox(inbox: seq<Down>)
    requires inbox != []
    ensures MatchesIn(inbox) == (if inbox[0].Match? then [inbox[0].peer] else []) + MatchesIn(inbox[1..])
  {
  }

  lemma MetSnoc(met: seq<(UserId, Role)>, x: (UserId, Role))
    ensures Met(met + [x]) == Met(met) + [x.0]
  {
  }

  lemma Reassociate<T>(a: seq<T>, b: seq<T>, c: seq<T>, d: seq<T>)
    ensures (a + b) + c + d == a + (b + c) + d
  {
  }

  lemma PartnersSnoc(log: seq<(UserId, UserId)>, a: UserId, b: UserId, u: UserId)
    ensures Partners(log + [(a, b)], u) == Partners(log, u) + (if a == u then [b] else []) + (if b == u then [a] else [])
  {
    assert (log + [(a, b)])[..|log|] == log;
  }

  lemma DeliverDelivers(p: Peer, m: Down)
    requires !m.Match?
    ensures Deliveries(p.(inbox := p.inbox + [m])) == Deliveries(p)
  {
    MatchesInAppend(p.inbox, m);
  }

  lemma SentDelivers(p: Peer)
    requires p.outbox != []
    ensures Deliveries(p.(outbox := p.outbox[1..])) == Deliveries(p)
  {
  }

  lemma ResumeDelivers(p: Peer, t: Task, ok: bool)
    ensures Deliveries(ResumeStep(p, t, ok)) == Deliveries(p)
  {
    hide Met, MatchesIn;
  }

  lemma JoinedDelivers(u: UserId, since: nat)
    ensures Deliveries(Joined(u, since)) == []
  {
    assert MatchesIn([Init(u)][1..]) == [];
  }

  // ---- init first ------------------------------------------------------------------------------------

  /** `init` is the first message, it is handled before any match, and roles follow the IDs. */
  ghost predicate Started(u: UserId, p: Peer) {
    && !p.crashed
    && (p.self.None? ==> p.inbox != [] && p.inbox[0] == Init(u) && p.met == [])
    && (p.self.Some? ==> p.self.value == u)
    && (forall m :: m in (if p.self.None? then p.inbox[1..] else p.inbox) ==> !m.Init?)
    && (forall x :: x in p.met ==> (x.1.Offerer? <==> Precedes(u, x.0)))
  }

  lemma AppendStarted(u: UserId, p: Peer, m: Down, q: Peer)
    requires Started(u, p) && !m.Init?
    requires q.inbox == p.inbox + [m] && q.self == p.self && q.met == p.met && q.crashed == p.crashed
    ensures Started(u, q)
  {
    hide Precedes;
    if p.self.None? { assert q.inbox[1..] == p.inbox[1..] + [m]; }
  }

  lemma HandleStarted(u: UserId, p: Peer)
    requires Started(u, p)
    ensures Started(u, HandleStep(p))
  {
    if p.inbox != [] {
      TailMembers(p.inbox);
      var m, q := p.inbox[0], HandleStep(p);
      if p.self.Some? && m.Match? {
        assert q.met == p.met + [(m.peer, if Precedes(u, m.peer) then Offerer else Answerer)];
      }
      hide Precedes;
    }
  }

  // ---- one step --------------------------------------------------------------------------------------

  /** What has been published for `u` since it subscribed has been handled or is on its way. */
  ghost predicate InOrder(s: State, u: UserId) {
    u in s.peers ==>
      var p := s.peers[u];
      Started(u, p) && p.since <= |s.log| && Deliveries(p) == Partners(s.log[p.since..], u)
  }

  /** A step of client `w` alone. */
  lemma LocalInOrder(s: State, w: UserId, p: Peer, u: UserId)
    requires InOrder(s, u) && w in s.peers
    requires u == w ==> Started(w, p) && Deliveries(p) == Deliveries(s.peers[w]) && p.since == s.peers[w].since
    ensures InOrder(s.(peers := s.peers[w := p]), u)
  {
    hide Started, Deliveries, Partners;
  }

  lemma ForwardInOrder(s: State, w: UserId, u: UserId)
    requires InOrder(s, u) && w in s.peers
    ensures InOrder(Step(s, Forward(w)), u)
  {
    var p := s.peers[w];
    if u == w {
      ForwardDelivers(p);
      if p.channel != [] { AppendStarted(w, p, Match(p.channel[0]), ForwardStep(p)); }
    }
    hide Started, Deliveries, Partners;
    LocalInOrder(s, w, ForwardStep(p), u);
  }

  lemma HandleInOrder(s: State, w: UserId, u: UserId)
    requires InOrder(s, u) && w in s.peers
    ensures InOrder(Step(s, Handle(w)), u)
  {
    hide Deliveries, Partners, Precedes;
    var p := s.peers[w];
    if u == w {
      HandleStarted(w, p);
      HandleDelivers(p);
      assert HandleStep(p).since == p.since;
    }
    hide Started, HandleStep;
    LocalInOrder(s, w, HandleStep(p), u);
  }

  lemma ResumeInOrder(s: State, w: UserId, t: Task, ok: bool, u: UserId)
    requires InOrder(s, u) && w in s.peers
    ensures InOrder(Step(s, Resume(w, t, ok)), u)
  {
    hide Deliveries, Partners, Precedes;
    var p := s.peers[w];
    ResumeDelivers(p, t, ok);
    var q := ResumeStep(p, t, ok);
    assert q.inbox == p.inbox && q.self == p.self && q.met == p.met && q.crashed == p.crashed && q.since == p.since;
    hide ResumeStep;
    LocalInOrder(s, w, q, u);
  }

  lemma RelayInOrder(s: State, w: UserId, u: UserId)
    requires InOrder(s, u) && w in s.peers && s.peers[w].outbox != []
    ensures InOrder(Step(s, Relay(w)), u)
  {
    hide Deliveries, Partners, Precedes;
    var p := s.peers[w];
    var q, m := p.(outbox := p.outbox[1..]), p.outbox[0];
    var sent := s.(peers := s.peers[w := q]);
    SentDelivers(p);
    LocalInOrder(s, w, q, u);
    if m.to.Some? && m.to.value in sent.peers {
      var v, down := m.to.value, if m.Offer? then OfferFrom(w) else AnswerFrom(w);
      var r := sent.peers[v].(inbox := sent.peers[v].inbox + [down]);
      DeliverDelivers(sent.peers[v], down);
      if u == v { AppendStarted(v, sent.peers[v], down, r); }
      hide Started;
      LocalInOrder(sent, v, r, u);
    }
  }

  /** The notices that a match of `a` and `b` puts on the channel of `u`. */
  function Notices(a: UserId, b: UserId, u: UserId): seq<UserId> {
    (if a == u then [b] else []) + (if b == u then [a] else [])
  }

  lemma PublishedPeer(s: State, a: UserId, b: UserId, u: UserId)
    requires u in s.peers
    ensures var s' := Step(s, Publish(a, b));
      u in s'.peers && s'.peers[u] == s.peers[u].(channel := s.peers[u].channel + Notices(a, b, u))
  {
    var p := s.peers[u];
    assert p.channel + [] == p.channel && p.channel + [b] + [a] == p.channel + [b, a];
  }

  lemma NoticesDelivered(p: Peer, more: seq<UserId>)
    ensures Deliveries(p.(channel := p.channel + more)) == Deliveries(p) + more
  {
    hide Met, MatchesIn;
  }

  lemma PublishInOrder(s: State, a: UserId, b: UserId, u: UserId)
    requires InOrder(s, u)
    ensures InOrder(Step(s, Publish(a, b)), u)
  {
    if u in s.peers {
      var p := s.peers[u];
      PublishedPeer(s, a, b, u);
      PublishedLog(s, a, b, p.since, u);
      NoticesDelivered(p, Notices(a, b, u));
      assert Started(u, p.(channel := p.channel + Notices(a, b, u)));
      hide Started, Deliveries, Partners, Notices, Notify;
    } else {
      hide Started, Deliveries, Partners;
    }
  }

  lemma PublishedLog(s: State, a: UserId, b: UserId, since: nat, u: UserId)
    requires since <= |s.log|
    ensures Step(s, Publish(a, b)).log == s.log + [(a, b)]
    ensures Partners((s.log + [(a, b)])[since..], u) == Partners(s.log[since..], u) + Notices(a, b, u)
  {
    assert (s.log + [(a, b)])[since..] == s.log[since..] + [(a, b)];
    PartnersSnoc(s.log[since..], a, b, u);
    hide Partners;
  }

  lemma StepInOrder(s: State, e: Event, u: UserId)
    requires InOrder(s, u)
    ensures InOrder(Step(s, e), u)
  {
    hide Started, Deliveries, Partners, ForwardStep, HandleStep, ResumeStep, RelayTo, Notify;
    match e
    case Register(w) => RegisterInOrder(s, w, u);
    case Leave(w) =>
    case Publish(a, b) => PublishInOrder(s, a, b, u);
    case Forward(w) => if w in s.peers { ForwardInOrder(s, w, u); }
    case Handle(w) => if w in s.peers { HandleInOrder(s, w, u); }
    case Resume(w, t, ok) => if w in s.peers { ResumeInOrder(s, w, t, ok, u); }
    case Relay(w) => if w in s.peers && s.peers[w].outbox != [] { RelayInOrder(s, w, u); }
  }

  lemma RegisterInOrder(s: State, w: UserId, u: UserId)
    requires InOrder(s, u)
    ensures InOrder(Step(s, Register(w)), u)
  {
    JoinedDelivers(w, |s.log|);
    assert s.log[|s.log|..] == [];
    assert [Init(w)][1..] == [];
    hide Deliveries;
  }

  lemma {:induction false} RunInOrder(es: seq<Event>, u: UserId)
    ensures InOrder(Run(es), u)
  {
    hide Step;
    if es != [] {
      RunInOrder(es[..|es| - 1], u);
      StepInOrder(Run(es[..|es| - 1]), es[|es| - 1], u);
    }
  }

  // ---- every run ---------------------------------------------------------------------------------------

  /** In every run, with any number of matches per client: a connected client handles `init`
      before any match, the matches it has received are a prefix of its partners in the match
      log since it subscribed, and it offers exactly to those it precedes. */
  lemma ClientsFollowTheLog(es: seq<Event>, u: UserId)
    requires u in Run(es).peers
    ensures var p := Run(es).peers[u];
      && !p.crashed
      && (p.met != [] ==> p.self == Some(u))
      && p.since <= |Run(es).log|
      && Met(p.met) <= Partners(Run(es).log[p.since..], u)
      && (forall x :: x in p.met ==> (x.1.Offerer? <==> Precedes(u, x.0)))
  {
    hide Run, Partners, MatchesIn;
    RunInOrder(es, u);
    var p := Run(es).peers[u];
    assert Deliveries(p) == Met(p.met) + (MatchesIn(p.inbox) + p.channel);
  }

  /** And once nothing is left on its way, it has received all of them. */
  lemma SettledClientsKnowTheLog(es: seq<Event>, u: UserId)
    requires u in Run(es).peers && Run(es).peers[u].channel == [] && Run(es).peers[u].inbox == []
    ensures var p := Run(es).peers[u]; p.since <= |Run(es).log| && Met(p.met) == Partners(Run(es).log[p.since..], u)
  {
    hide Run, Partners;
    RunInOrder(es, u);
    assert Deliveries(Run(es).peers[u]) == Met(Run(es).peers[u].met);
  }

  /** Of two clients that have received a match with each other exactly one is the offerer; a
      client matched with itself offers nothing. */
  lemma ExactlyOneOfferer(es: seq<Event>, a: UserId, b: UserId, ra: Role, rb: Role)
    requires a in Run(es).peers && b in Run(es).peers
    requires (b, ra) in Run(es).peers[a].met && (a, rb) in Run(es).peers[b].met
    ensures a != b ==> (ra.Offerer? <==> rb.Answerer?)
    ensures a == b ==> ra.Answerer? && rb.Answerer?
  {
    hide Run, Partners;
    ClientsFollowTheLog(es, a);
    ClientsFollowTheLog(es, b);
    PrecedesIsAStrictChoice(a, b);
  }
}
