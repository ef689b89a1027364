/** Offer and answer between matched clients through one pod: per-client notify channels and
    websockets are FIFO, subscriptions are effective before the user is enqueued, and every
    client has pre-warmed its connection. Messages, relays and awaits interleave freely, clients
    leave and come back, and the matchmaker may publish any match at any time. */
module Handshake {
  import opened Options
  import opened Ids

  /** Server to client. */
  datatype Down = Init(id: UserId) | Match(peer: UserId) | OfferFrom(from: UserId) | AnswerFrom(from: UserId)

  /** Client to server; `to` is the client's _remoteId at the time of sending. */
  datatype Up = Offer(to: Option<UserId>) | Answer(to: Option<UserId>)

  /** A suspended handler of the client. */
  datatype Task = MakingOffer | DescribingOffer | MakingAnswer | DescribingAnswer

  datatype Role = Offerer | Answerer

  datatype Peer = Peer(
    channel: seq<UserId>,        // published for the user, not yet forwarded to the websocket
    inbox: seq<Down>,            // on the websocket, not yet handled
    outbox: seq<Up>,             // sent, not yet read by the pod
    self: Option<UserId>,        // _selfId
    remote: Option<UserId>,      // _remoteId
    met: seq<(UserId, Role)>,    // matches received and the roles taken
    tasks: multiset<Task>,
    described: bool,             // setRemoteDescription succeeded
    finished: nat,               // answers applied
    failed: nat,                 // awaited calls that threw
    crashed: bool,               // handled a match before `init`
    since: nat)                  // matches published before the client subscribed

  datatype State = State(
    peers: map<UserId, Peer>,         // the connected clients
    log: seq<(UserId, UserId)>,       // matches in the order they were published
    partner: map<UserId, UserId>)     // the latest of them, by user

  const START := State(map[], [], map[])

  datatype Event =
    | Register(u: UserId)             // in `clients`, init written, subscription effective
    | Leave(u: UserId)                // websocket and subscription closed
    | Publish(a: UserId, b: UserId)   // the matchmaker notifies both
    | Forward(u: UserId)              // the notify goroutine writes one match
    | Handle(u: UserId)               // the client handles one message
    | Resume(u: UserId, t: Task, ok: bool)
    | Relay(u: UserId)                // the pod reads one message of u and relays it

  function Joined(u: UserId, since: nat): Peer {
    Peer([], [Init(u)], [], None, None, [], multiset{}, false, 0, 0, false, since)
  }

  // PUBLISH on the channel of `u`: nobody receives it unless `u` is subscribed
  function Notify(peers: map<UserId, Peer>, u: UserId, v: UserId): map<UserId, Peer> {
    if u in peers then peers[u := peers[u].(channel := peers[u].channel + [v])] else peers
  }

  function ForwardStep(p: Peer): Peer {
    if p.channel == [] then p else p.(channel := p.channel[1..], inbox := p.inbox + [Match(p.channel[0])])
  }

  function HandleMessage(p: Peer, m: Down): Peer {
    match m
    case Init(id) => p.(self := Some(id))
    case Match(v) =>
      if p.self.None? then p.(crashed := true)
      else if Precedes(p.self.value, v)
      then p.(remote := Some(v), met := p.met + [(v, Offerer)], tasks := p.tasks + multiset{MakingOffer})
      else p.(remote := Some(v), met := p.met + [(v, Answerer)])
    case OfferFrom(v) => p.(remote := Some(v), tasks := p.tasks + multiset{DescribingOffer})
    case AnswerFrom(_) => p.(tasks := p.tasks + multiset{DescribingAnswer})
  }

  function HandleStep(p: Peer): Peer {
    if p.inbox == [] then p else HandleMessage(p.(inbox := p.inbox[1..]), p.inbox[0])
  }

  function ResumeStep(p: Peer, t: Task, ok: bool): Peer {
    if t !in p.tasks then p
    else
      var q := p.(tasks := p.tasks - multiset{t});
      if !ok then q.(failed := p.failed + 1)
      else match t
        case MakingOffer => q.(outbox := p.outbox + [Offer(p.remote)])
        case DescribingOffer => q.(described := true, tasks := q.tasks + multiset{MakingAnswer})
        case MakingAnswer => q.(outbox := p.outbox + [Answer(p.remote)])
        case DescribingAnswer => q.(described := true, finished := p.finished + 1)
  }

  // handleMessage: dropped without a recipient, or if the recipient is not on this pod
  function RelayTo(peers: map<UserId, Peer>, from: UserId, m: Up): map<UserId, Peer> {
    if m.to.None? || m.to.value !in peers then peers
    else
      var to := m.to.value;
      var down := if m.Offer? then OfferFrom(from) else AnswerFrom(from);
      peers[to := peers[to].(inbox := peers[to].inbox + [down])]
  }

  function Step(s: State, e: Event): State {
    match e
    case Register(u) =>
      if u in s.peers then s else s.(peers := s.peers[u := Joined(u, |s.log|)])
    case Leave(u) => s.(peers := s.peers - {u})
    case Publish(a, b) =>
      State(Notify(Notify(s.peers, a, b), b, a), s.log + [(a, b)], s.partner[a := b][b := a])
    case Forward(u) =>
      if u in s.peers then s.(peers := s.peers[u := ForwardStep(s.peers[u])]) else s
    case Handle(u) =>
      if u in s.peers then s.(peers := s.peers[u := HandleStep(s.peers[u])]) else s
    case Resume(u, t, ok) =>
      if u in s.peers then s.(peers := s.peers[u := ResumeStep(s.peers[u], t, ok)]) else s
    case Relay(u) =>
      if u in s.peers && s.peers[u].outbox != []
      then s.(peers := RelayTo(s.peers[u := s.peers[u].(outbox := s.peers[u].outbox[1..])], u, s.peers[u].outbox[0]))
      else s
  }

  function Run(es: seq<Event>): State {
    if es == [] then START else Step(Run(es[..|es| - 1]), es[|es| - 1])
  }

  /** The usual course of a match: both sides are connected and stay, and neither has been matched before.
      A connection is enqueued once and no ticket is matched twice, so this can only fail for a
      user who leaves, or for one whose earlier connection left an entry behind. */
  predicate Usual(s: State, e: Event) {
    && !e.Leave?
    && (e.Publish? ==> e.a in s.peers && e.b in s.peers && e.a != e.b && e.a !in s.partner && e.b !in s.partner)
  }

  ghost predicate MatchedOnce(es: seq<Event>) {
    es == [] || (Usual(Run(es[..|es| - 1]), es[|es| - 1]) && MatchedOnce(es[..|es| - 1]))
  }

  // ---- each client on its own ----------------------------------------------------------------------

  /** Whether `u` was matched with a user it precedes, or follows. */
  predicate Leads(partner: map<UserId, UserId>, u: UserId) {
    u in partner && Precedes(u, partner[u])
  }

  predicate Follows(partner: map<UserId, UserId>, u: UserId) {
    u in partner && Precedes(partner[u], u)
  }

  predicate DownOk(partner: map<UserId, UserId>, u: UserId, m: Down) {
    match m
    case Init(id) => false
    case Match(v) => u in partner && partner[u] == v
    case OfferFrom(v) => Follows(partner, u) && partner[u] == v
    case AnswerFrom(v) => Leads(partner, u) && partner[u] == v
  }

  predicate UpOk(partner: map<UserId, UserId>, u: UserId, p: Peer, m: Up) {
    match m
    case Offer(to) => Leads(partner, u) && to == Some(partner[u])
    case Answer(to) => Follows(partner, u) && to == Some(partner[u]) && p.described
  }

  predicate TaskOk(partner: map<UserId, UserId>, u: UserId, p: Peer, t: Task) {
    match t
    case MakingOffer => Leads(partner, u) && p.remote == Some(partner[u])
    case DescribingOffer => Follows(partner, u) && p.remote == Some(partner[u])
    case MakingAnswer => Follows(partner, u) && p.remote == Some(partner[u]) && p.described
    case DescribingAnswer => Leads(partner, u)
  }

  /** Either `init` is still the first message and nothing was handled, or it was handled. */
  ghost predicate InitFirst(partner: map<UserId, UserId>, u: UserId, p: Peer) {
    var rest := if p.self.None? && p.inbox != [] then p.inbox[1..] else p.inbox;
    && (p.self.None? ==> p.inbox != [] && p.inbox[0] == Init(u) && p.met == [])
    && (p.self.Some? ==> p.self.value == u)
    && (forall m :: m in rest ==> DownOk(partner, u, m))
  }

  ghost predicate PeerOk(partner: map<UserId, UserId>, u: UserId, p: Peer) {
    && InitFirst(partner, u, p)
    && !p.crashed
    && (forall v :: v in p.channel ==> u in partner && partner[u] == v)
    && (forall m :: m in p.outbox ==> UpOk(partner, u, p, m))
    && (forall t :: t in p.tasks ==> TaskOk(partner, u, p, t))
    && (forall x :: x in p.met ==> u in partner && partner[u] == x.0 && (x.1.Offerer? <==> Leads(partner, u)))
    && (p.remote.Some? ==> u in partner && p.remote.value == partner[u])
    && (p.finished > 0 ==> p.described && Leads(partner, u))
  }

  ghost predicate AllOk(s: State) {
    && (forall u :: u in s.peers ==> PeerOk(s.partner, u, s.peers[u]))
    && (forall u :: u in s.partner ==>
          u in s.peers && s.partner[u] in s.partner && s.partner[s.partner[u]] == u && s.partner[u] != u)
  }

  lemma TailMembers<T>(q: seq<T>)
    requires q != []
    ensures q[0] in q && forall x :: x in q[1..] ==> x in q
  {
  }

  lemma ForwardOk(partner: map<UserId, UserId>, u: UserId, p: Peer)
    requires PeerOk(partner, u, p)
    ensures PeerOk(partner, u, ForwardStep(p))
  {
    if p.channel != [] {
      TailMembers(p.channel);
      var p' := ForwardStep(p);
      if p.self.None? { assert p'.inbox[1..] == p.inbox[1..] + [Match(p.channel[0])]; }
    }
  }

  lemma MatchMessageOk(partner: map<UserId, UserId>, u: UserId, p: Peer, v: UserId)
    requires PeerOk(partner, u, p) && p.self.Some? && u in partner && partner[u] == v
    ensures PeerOk(partner, u, HandleMessage(p, Match(v)))
  {
    assert p.self.value == u;
    hide InitFirst, Precedes;
    var p' := HandleMessage(p, Match(v));
    SameInit(partner, u, p, p');
    MetOk(partner, u, p, v, p'.met[|p.met|].1);
    hide PeerOk;
    if Precedes(u, v) { SpawnOk(partner, u, p.(remote := Some(v), met := p'.met), MakingOffer); }
  }

  lemma MetOk(partner: map<UserId, UserId>, u: UserId, p: Peer, v: UserId, role: Role)
    requires PeerOk(partner, u, p) && p.self.Some? && u in partner && partner[u] == v
    requires role.Offerer? <==> Leads(partner, u)
    ensures PeerOk(partner, u, p.(remote := Some(v), met := p.met + [(v, role)]))
  {
    SameInit(partner, u, p, p.(remote := Some(v), met := p.met + [(v, role)]));
    hide InitFirst, Precedes;
  }

  lemma SameInit(partner: map<UserId, UserId>, u: UserId, p: Peer, p': Peer)
    requires InitFirst(partner, u, p) && p'.self == p.self && p'.inbox == p.inbox && (p.self.Some? || p'.met == p.met)
    ensures InitFirst(partner, u, p')
  {
  }

  lemma HandleMessageOk(partner: map<UserId, UserId>, u: UserId, p: Peer, m: Down)
    requires PeerOk(partner, u, p) && p.self.Some? && DownOk(partner, u, m)
    ensures PeerOk(partner, u, HandleMessage(p, m))
  {
    if m.Match? {
      MatchMessageOk(partner, u, p, m.peer);
    } else {
      SameInit(partner, u, p, HandleMessage(p, m));
      hide InitFirst;
    }
  }

  lemma HandleOk(partner: map<UserId, UserId>, u: UserId, p: Peer)
    requires PeerOk(partner, u, p)
    ensures PeerOk(partner, u, HandleStep(p))
  {
    if p.inbox != [] {
      TailMembers(p.inbox);
      if p.self.Some? {
        HandleMessageOk(partner, u, p.(inbox := p.inbox[1..]), p.inbox[0]);
      }
    }
  }

  lemma ResumeOk(partner: map<UserId, UserId>, u: UserId, p: Peer, t: Task, ok: bool)
    requires PeerOk(partner, u, p)
    ensures PeerOk(partner, u, ResumeStep(p, t, ok))
  {
    hide PeerOk, Leads, Follows;
    if t in p.tasks {
      TaskIsOk(partner, u, p, t);
      var q := p.(tasks := p.tasks - multiset{t});
      SmallChangeOk(partner, u, p, q);
      if !ok {
        SmallChangeOk(partner, u, q, q.(failed := p.failed + 1));
      } else if t.MakingOffer? {
        SendOk(partner, u, q, Offer(p.remote));
      } else if t.MakingAnswer? {
        SendOk(partner, u, q, Answer(p.remote));
      } else {
        DescribedOk(partner, u, q, t);
      }
    }
  }

  lemma TaskIsOk(partner: map<UserId, UserId>, u: UserId, p: Peer, t: Task)
    requires PeerOk(partner, u, p) && t in p.tasks
    ensures TaskOk(partner, u, p, t)
  {
    hide InitFirst, TaskOk;
  }

  lemma DescribedOk(partner: map<UserId, UserId>, u: UserId, p: Peer, t: Task)
    requires PeerOk(partner, u, p) && TaskOk(partner, u, p, t)
    ensures t.DescribingOffer? ==> PeerOk(partner, u, p.(described := true, tasks := p.tasks + multiset{MakingAnswer}))
    ensures t.DescribingAnswer? ==> PeerOk(partner, u, p.(described := true, finished := p.finished + 1))
  {
    hide PeerOk, Leads, Follows;
    var d := p.(described := true);
    SmallChangeOk(partner, u, p, d);
    if t.DescribingOffer? {
      SpawnOk(partner, u, d, MakingAnswer);
    } else if t.DescribingAnswer? {
      SmallChangeOk(partner, u, d, d.(finished := p.finished + 1));
    }
  }

  /** Fewer suspended handlers, a description, a failure or an applied answer. */
  lemma SmallChangeOk(partner: map<UserId, UserId>, u: UserId, p: Peer, q: Peer)
    requires PeerOk(partner, u, p)
    requires q == p.(tasks := q.tasks, described := q.described, failed := q.failed, finished := q.finished)
    requires q.tasks <= p.tasks && (p.described ==> q.described)
    requires q.finished > p.finished ==> q.described && Leads(partner, u)
    ensures PeerOk(partner, u, q)
  {
    SameInit(partner, u, p, q);
    hide InitFirst, Precedes;
    forall t | t in q.tasks ensures TaskOk(partner, u, q, t) { assert t in p.tasks; }
  }

  lemma SendOk(partner: map<UserId, UserId>, u: UserId, p: Peer, m: Up)
    requires PeerOk(partner, u, p) && UpOk(partner, u, p, m)
    ensures PeerOk(partner, u, p.(outbox := p.outbox + [m]))
  {
    SameInit(partner, u, p, p.(outbox := p.outbox + [m]));
    hide InitFirst, Precedes;
  }

  lemma SpawnOk(partner: map<UserId, UserId>, u: UserId, p: Peer, t: Task)
    requires PeerOk(partner, u, p) && TaskOk(partner, u, p, t)
    ensures PeerOk(partner, u, p.(tasks := p.tasks + multiset{t}))
  {
    SameInit(partner, u, p, p.(tasks := p.tasks + multiset{t}));
    hide InitFirst, Precedes;
  }

  lemma DeliverOk(partner: map<UserId, UserId>, u: UserId, p: Peer, m: Down)
    requires PeerOk(partner, u, p) && DownOk(partner, u, m)
    ensures PeerOk(partner, u, p.(inbox := p.inbox + [m]))
  {
    if p.self.None? { assert (p.inbox + [m])[1..] == p.inbox[1..] + [m]; }
  }

  lemma SentOk(partner: map<UserId, UserId>, u: UserId, p: Peer)
    requires PeerOk(partner, u, p) && p.outbox != []
    ensures PeerOk(partner, u, p.(outbox := p.outbox[1..])) && UpOk(partner, u, p, p.outbox[0])
  {
    TailMembers(p.outbox);
  }

  /** A message relayed by the pod reaches exactly the sender's partner, who may receive it. */
  lemma RelayedIsOk(partner: map<UserId, UserId>, u: UserId, p: Peer, m: Up)
    requires UpOk(partner, u, p, m) && u in partner && partner[u] in partner && partner[partner[u]] == u
    ensures m.to == Some(partner[u])
    ensures DownOk(partner, partner[u], if m.Offer? then OfferFrom(u) else AnswerFrom(u))
  {
  }

  lemma RelayOk(s: State, u: UserId)
    requires AllOk(s) && u in s.peers
    ensures AllOk(Step(s, Relay(u)))
  {
    hide PeerOk, DownOk, UpOk;
    var p := s.peers[u];
    if p.outbox != [] {
      SentOk(s.partner, u, p);
      var m := p.outbox[0];
      assert u in s.partner by { UpOkMatched(s.partner, u, p, m); }
      RelayedIsOk(s.partner, u, p, m);
      var v := s.partner[u];
      DeliverOk(s.partner, v, s.peers[v], if m.Offer? then OfferFrom(u) else AnswerFrom(u));
    }
  }

  lemma UpOkMatched(partner: map<UserId, UserId>, u: UserId, p: Peer, m: Up)
    requires UpOk(partner, u, p, m)
    ensures u in partner
  {
  }

  lemma PublishedOk(partner: map<UserId, UserId>, partner': map<UserId, UserId>, u: UserId, p: Peer)
    requires PeerOk(partner, u, p)
    requires u in partner ==> u in partner' && partner'[u] == partner[u]
    ensures PeerOk(partner', u, p)
  {
    forall m | DownOk(partner, u, m) ensures DownOk(partner', u, m) {}
  }

  lemma ChannelOk(partner: map<UserId, UserId>, u: UserId, v: UserId, p: Peer)
    requires PeerOk(partner, u, p) && u in partner && partner[u] == v
    ensures PeerOk(partner, u, p.(channel := p.channel + [v]))
  {
  }

  lemma PublishOk(s: State, a: UserId, b: UserId)
    requires AllOk(s) && Usual(s, Publish(a, b))
    ensures AllOk(Step(s, Publish(a, b)))
  {
    hide PeerOk;
    var s' := Step(s, Publish(a, b));
    forall u | u in s.peers ensures PeerOk(s'.partner, u, s.peers[u]) {
      PublishedOk(s.partner, s'.partner, u, s.peers[u]);
    }
    ChannelOk(s'.partner, a, b, s.peers[a]);
    ChannelOk(s'.partner, b, a, s.peers[b]);
  }

  lemma RegisterOk(partner: map<UserId, UserId>, u: UserId, since: nat)
    ensures PeerOk(partner, u, Joined(u, since))
  {
  }

  lemma StepOk(s: State, e: Event)
    requires AllOk(s) && Usual(s, e)
    ensures AllOk(Step(s, e))
  {
    hide PeerOk, ForwardStep, HandleStep, ResumeStep;
    match e
    case Register(u) => RegisterOk(s.partner, u, |s.log|);
    case Leave(u) =>
    case Publish(a, b) => PublishOk(s, a, b);
    case Forward(u) => if u in s.peers { ForwardOk(s.partner, u, s.peers[u]); }
    case Handle(u) => if u in s.peers { HandleOk(s.partner, u, s.peers[u]); }
    case Resume(u, t, ok) => if u in s.peers { ResumeOk(s.partner, u, s.peers[u], t, ok); }
    case Relay(u) => if u in s.peers { RelayOk(s, u); }
  }

  lemma {:induction false} RunOk(es: seq<Event>)
    requires MatchedOnce(es)
    ensures AllOk(Run(es))
  {
    hide Step, Usual;
    if es != [] {
      RunOk(es[..|es| - 1]);
      StepOk(Run(es[..|es| - 1]), es[|es| - 1]);
    }
  }
}
