/** frontend/lib/signaling.dart: ICE candidate buffering around the async offer and answer
    handlers. Between two turns of the event loop every handler is suspended at an `await`;
    a turn delivers one message or resumes one handler up to its next await. */
module Signaling {
  import opened Options

  type Pc = nat          // an RTCPeerConnection
  type Candidate = int

  /** A suspended handler, by the await it is suspended at. `pc` is its captured local. */
  datatype Task =
    | CreatingForOffer                          // _handleOffer: await _createPeerConnection()
    | CreatingFresh                             // prewarm, findNextMatch: await _createPeerConnection()
    | DescribingOffer(pc: Pc)                   // _handleOffer: await pc.setRemoteDescription(...)
    | DescribingAnswer(pc: Pc)                  // _handleAnswer: await pc.setRemoteDescription(...)
    | Flushing(pc: Pc, rest: seq<Candidate>, own: Pc, answering: bool)
                                                // _flush...: await pc.addCandidate(c), `rest` still to do
    | Answering(pc: Pc)                         // _handleOffer: await pc.createAnswer() and setLocalDescription
    | Over

  /** One call of addCandidate: had the connection been given its remote description by then? */
  datatype Handed = Handed(pc: Pc, candidate: Candidate, described: bool)

  datatype Client = Client(
    peer: Option<Pc>,                // _peerConnection
    nextPc: Pc,                      // connections created so far
    remoteDescriptionSet: bool,      // _remoteDescriptionSet
    pending: seq<Candidate>,         // _pendingRemoteCandidates
    tasks: seq<Task>,
    described: set<Pc>,              // connections whose setRemoteDescription succeeded
    handed: seq<Handed>,             // every addCandidate started
    received: seq<Candidate>,        // candidates that arrived while there was a connection
    discarded: seq<Candidate>,       // buffered when a teardown emptied the buffer
    answersSent: seq<Pc>)            // connections that sent an answer

  datatype Event =
    | OfferArrives
    | AnswerArrives
    | CandidateArrives(c: Candidate)
    | Resume(i: nat, ok: bool)       // the awaited future completes, or fails
    | FindNext                       // findNextMatch, up to its await
    | Prewarm                        // prewarm, from after openUserMedia up to its await

  function Spawn(s: Client, t: Task): Client {
    s.(tasks := s.tasks + [t])
  }

  // await pc.addCandidate(c)
  function Hand(s: Client, pc: Pc, c: Candidate): Client {
    s.(handed := s.handed + [Handed(pc, c, pc in s.described)])
  }

  function OnOffer(s: Client): Client {
    match s.peer
    case Some(pc) => Spawn(s, DescribingOffer(pc))
    case None => Spawn(s, CreatingForOffer)
  }

  function OnAnswer(s: Client): Client {
    match s.peer
    case Some(pc) => Spawn(s, DescribingAnswer(pc))
    case None => s
  }

  function OnCandidate(s: Client, c: Candidate): Client {
    match s.peer
    case None => s
    case Some(pc) =>
      var s' := s.(received := s.received + [c]);
      if !s.remoteDescriptionSet then s'.(pending := s.pending + [c]) else Hand(s', pc, c)
  }

  // What follows _flushPendingRemoteCandidates() in the handler that called it
  function AfterFlush(own: Pc, answering: bool): Task {
    if answering then Answering(own) else Over
  }

  // _flushPendingRemoteCandidates up to its first await
  function Flush(s: Client, i: nat, own: Pc, answering: bool): Client
    requires i < |s.tasks|
  {
    if s.peer.None? || s.pending == [] then s.(tasks := s.tasks[i := AfterFlush(own, answering)])
    else
      var pc := s.peer.value;
      Hand(s.(pending := [], tasks := s.tasks[i := Flushing(pc, s.pending[1..], own, answering)]), pc, s.pending[0])
  }

  // The rest of _handleOffer or _handleAnswer once the description is set
  function Described(s: Client, i: nat, pc: Pc, answering: bool): Client
    requires i < |s.tasks|
  {
    Flush(s.(described := s.described + {pc}, remoteDescriptionSet := true), i, pc, answering)
  }

  function ResumeTask(s: Client, i: nat, ok: bool): Client
    requires i < |s.tasks|
  {
    match s.tasks[i]
    case CreatingForOffer =>
      if !ok then s.(tasks := s.tasks[i := Over])
      else s.(peer := Some(s.nextPc), nextPc := s.nextPc + 1, tasks := s.tasks[i := DescribingOffer(s.nextPc)])
    case CreatingFresh =>
      if !ok then s.(tasks := s.tasks[i := Over])
      else s.(peer := Some(s.nextPc), nextPc := s.nextPc + 1, tasks := s.tasks[i := Over])
    case DescribingOffer(pc) =>
      if ok then Described(s, i, pc, true) else s.(tasks := s.tasks[i := Over])
    case DescribingAnswer(pc) =>
      if ok then Described(s, i, pc, false) else s.(tasks := s.tasks[i := Over])
    case Flushing(pc, rest, own, answering) =>    // a failing addCandidate is caught
      if rest == [] then s.(tasks := s.tasks[i := AfterFlush(own, answering)])
      else Hand(s.(tasks := s.tasks[i := Flushing(pc, rest[1..], own, answering)]), pc, rest[0])
    case Answering(pc) =>
      if ok then s.(tasks := s.tasks[i := Over], answersSent := s.answersSent + [pc])
      else s.(tasks := s.tasks[i := Over])
    case Over => s
  }

  // _remoteDescriptionSet = false; _pendingRemoteCandidates.clear()
  function Reset(s: Client): Client {
    s.(remoteDescriptionSet := false, pending := [], discarded := s.discarded + s.pending)
  }

  function Step(s: Client, e: Event): Client {
    match e
    case OfferArrives => OnOffer(s)
    case AnswerArrives => OnAnswer(s)
    case CandidateArrives(c) => OnCandidate(s, c)
    case Resume(i, ok) => if i < |s.tasks| then ResumeTask(s, i, ok) else s
    case FindNext => Spawn(Reset(s).(peer := None), CreatingFresh)
    case Prewarm => Spawn(Reset(s), CreatingFresh)
  }

  function Run(s: Client, es: seq<Event>): Client {
    if es == [] then s else Step(Run(s, es[..|es| - 1]), es[|es| - 1])
  }
}
