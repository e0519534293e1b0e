/**
 Two computers running one session each, joined by two first-in first-out queues: the outbox of
 each session is the queue to the other one.  A run is any sequence of actions of the two users,
 the timers, the network and the surroundings.
 */
module TwoParty {
  import opened Wrappers
  import opened ProtocolContracts
  import opened SessionCryptography
  import opened EnvelopeText
  import opened SessionModel
  import opened Effects

  /**
   One computer: its session, its local diagnostic records and the diagnostics requests it ever issued with
   their limits.
   */
  datatype Host = Host(session: Session, local: seq<DiagnosticRecord>, issued: map<nat, nat>)

  /** What a diagnostics request was answered from: the limit it carried and the local records at that moment. */
  datatype Answer = Answer(limit: nat, local: seq<DiagnosticRecord>)

  datatype World = World(
    initiator: Host,
    responder: Host,
    trust: Trust,                 // the responder's trust store
    now: int,
    nextId: nat,                   // every identifier handed out so far is smaller
    answers: map<nat, Answer>)

  datatype Side = AtInitiator | AtResponder

  function Other(side: Side): Side { if side == AtInitiator then AtResponder else AtInitiator }

  function HostAt(w: World, side: Side): Host {
    if side == AtInitiator then w.initiator else w.responder
  }

  function At(w: World, side: Side): Session { HostAt(w, side).session }

  function WithHost(w: World, side: Side, host: Host): World {
    if side == AtInitiator then w.(initiator := host) else w.(responder := host)
  }

  function With(w: World, side: Side, s: Session): World {
    WithHost(w, side, HostAt(w, side).(session := s))
  }

  datatype Action =
    | Deliver(side: Side)
    | Respond(side: Side, promptId: nat, accepted: bool, entered: Option<Code>)
    | Resume(side: Side)
    | AskReversal(side: Side)
    | AskDiagnostics(side: Side, limit: int)
    | ExpireRequest(side: Side, requestId: nat)
    | SendSignal(side: Side, signal: Signal)
    | Tick(side: Side)
    | HandshakeTimeout(side: Side)
    | UserDisconnect(side: Side)
    | DisposeSession(side: Side)
    | SocketGone(side: Side)
    | Elapse(milliseconds: nat)
    | ReplaceLocal(side: Side, records: seq<DiagnosticRecord>)
    | ReplaceTrust(trust: Trust)

  function SurroundingsAt(w: World, side: Side): Surroundings {
    Surroundings(w.now, w.nextId, w.trust, HostAt(w, side).local)
  }

  /**
   The trust store after a step that took a session from `before` to `after`: a call of `rememberInbound` sets
   its entry at once.
   */
  function Remembered(trust: Trust, before: Session, after: Session): Trust {
    if |after.grants| <= |before.grants| then trust
    else
      var grant := after.grants[|after.grants| - 1];
      trust[(grant.device, grant.intent) := grant.key]
  }

  /** The message a session gets out of a frame, if it gets that far. */
  function Received(s: Session, frame: Wire): Option<Message> {
    if s.phase != AwaitingClientHello && s.phase != AwaitingServerHello && frame.SecureFrame? && s.cipher.Some?
    then Opened(s.cipher.value, frame.envelope)
    else None
  }

  function Answers(w: World, side: Side, frame: Wire): map<nat, Answer> {
    match Received(At(w, side), frame)
    case Some(DiagnosticsRequest(id, limit)) =>
      if At(w, side).phase == Connected then w.answers[id := Answer(limit, HostAt(w, side).local)] else w.answers
    case _ => w.answers
  }

  /** The frame at the head of the queue reaches `side`. */
  function DeliverTo(w: World, side: Side): World {
    var from := At(w, Other(side));
    if from.outbox == [] then w
    else
      var frame := from.outbox[0];
      var s := At(w, side);
      var after := HandleWireMessage(s, frame, SurroundingsAt(w, side));
      With(With(w, Other(side), from.(outbox := from.outbox[1..])), side, after).(
        trust := Remembered(w.trust, s, after),
        nextId := w.nextId + 1,
        answers := Answers(w, side, frame))
  }

  function Exec(w: World, action: Action): World {
    match action
    case Deliver(side) => DeliverTo(w, side)
    case Respond(side, promptId, accepted, entered) =>
      var after := RespondToPrompt(At(w, side), promptId, accepted, entered, w.now).session;
      With(w, side, after).(trust := Remembered(w.trust, At(w, side), after))
    case Resume(side) => With(w, side, ResumeEstablish(At(w, side), w.now))
    case AskReversal(side) => With(w, side, RequestReversal(At(w, side), w.nextId).session).(nextId := w.nextId + 1)
    case AskDiagnostics(side, limit) =>
      var host := HostAt(w, side);
      var issued := if host.session.phase == Connected then host.issued[w.nextId := BoundedLimit(limit)] else host.issued;
      WithHost(w, side, host.(session := RequestDiagnostics(host.session, limit, w.nextId).session, issued := issued))
        .(nextId := w.nextId + 1)
    case ExpireRequest(side, id) => With(w, side, RequestTimeout(At(w, side), id))
    case SendSignal(side, signal) => With(w, side, SendMediaSignal(At(w, side), signal).session)
    case Tick(side) =>
      if !At(w, side).keepAliveTimer then w
      else With(w, side, KeepAliveTick(At(w, side), w.now, w.nextId).session).(nextId := w.nextId + 1)
    case HandshakeTimeout(side) =>
      if !At(w, side).handshakeTimer then w else With(w, side, CloseWithError(At(w, side), false))
    case UserDisconnect(side) => With(w, side, DisconnectSession(At(w, side)))
    case DisposeSession(side) => With(w, side, Dispose(At(w, side)))
    case SocketGone(side) => With(w, side, TransportGone(At(w, side)))
    case Elapse(milliseconds) => w.(now := w.now + milliseconds)
    case ReplaceLocal(side, records) => WithHost(w, side, HostAt(w, side).(local := records))
    case ReplaceTrust(trust) => w.(trust := trust)
  }

  function Run(w: World, actions: seq<Action>): World {
    if actions == [] then w else Exec(Run(w, actions[..|actions| - 1]), actions[|actions| - 1])
  }

  /** Both sessions have just been started. */
  function InitialWorld(
    ownInitiator: Credentials, ownResponder: Credentials, expected: Option<DeviceId>, intent: Intent,
    trust: Trust, now: int): World
  {
    World(Host(Start(NewSession(true, ownInitiator, expected, now), intent).session, [], map[]),
          Host(Start(NewSession(false, ownResponder, None, now), intent).session, [], map[]),
          trust, now, 0, map[])
  }

  // ---------- the hypotheses of the theorems ----------

  predicate SmallSignal(signal: Signal) {
    signal.acceptable && PlaintextBytes(MediaSignal(signal)) <= MAXIMUM_PLAINTEXT_BYTES
  }

  /** Fewer than 2^63 messages have been sent. */
  predicate Roomy(s: Session) {
    s.cipher.Some? ==> s.cipher.value.transmitted < 0x8000_0000_0000_0000
  }

  /** Actions that hand something to a session or close it. */
  predicate Disturbs(w: World, action: Action, side: Side) {
    match action
    case Deliver(at) => at == side && At(w, Other(side)).outbox != []
    case Tick(at) => at == side && w.now - At(w, side).lastSecureAt > HealthTimeout(At(w, side))
    case HandshakeTimeout(at) => at == side && At(w, side).handshakeTimer
    case UserDisconnect(at) => at == side
    case DisposeSession(at) => at == side
    case SocketGone(at) => at == side
    case _ => false
  }

  /**
   The three conditions under which the protocol is claimed to work: nothing reaches or closes a
   session while it waits for the trust store, payloads are small enough for a frame (and valid),
   and the message counters are far from their 64-bit limit.
   */
  predicate Orderly(w: World, action: Action) {
    && (forall side: Side :: At(w, side).suspended > 0 ==> !Disturbs(w, action, side))
    && (forall side: Side :: Roomy(At(w, side)))
    && (action.SendSignal? ==> SmallSignal(action.signal))
    && (action.ReplaceLocal? ==> SmallRecords(action.records))
  }

  ghost predicate OrderlyRun(w: World, actions: seq<Action>)
    decreases |actions|
  {
    actions == [] ||
    (OrderlyRun(w, actions[..|actions| - 1]) &&
     Orderly(Run(w, actions[..|actions| - 1]), actions[|actions| - 1]))
  }
}
