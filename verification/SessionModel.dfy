/**
 What one `PeerSession` does, as functions on its state.  The class in PeerSession.dfy is proved
 to do exactly this; the world of two sessions runs it.

 A function that can throw returns the state it leaves behind together with a flag.  The socket is
 `outbox`: the frames written and not yet read by the peer.
 */
module SessionModel {
  import opened Wrappers
  import opened ProtocolContracts
  import opened SessionCryptography
  import opened EnvelopeText

  datatype Wire =
    | ClientHelloFrame(clientHello: ClientHello)
    | ServerHelloFrame(serverHello: ServerHello)
    | SecureFrame(envelope: Envelope)

  datatype Peer = Peer(device: DeviceId, paired: bool)

  /** A diagnostics request whose promise is not settled yet. */
  datatype PendingRequest = PendingRequest(limit: nat, records: seq<DiagnosticRecord>)

  /** A call of `rememberInbound`. */
  datatype Grant = Grant(intent: Intent, device: DeviceId, key: PublicKey)

  /** The unexpired grants of a trust store. */
  type Trust = map<(DeviceId, Intent), PublicKey>

  predicate IsTrusted(trust: Trust, device: DeviceId, key: PublicKey, intent: Intent) {
    (device, intent) in trust && trust[(device, intent)] == key
  }

  datatype Session = Session(
    initiator: bool,
    own: Credentials,
    expectedDevice: Option<DeviceId>,
    phase: Phase,
    intent: Option<Intent>,
    clientHello: Option<ClientHello>,
    serverHello: Option<ServerHello>,
    cipher: Option<Cipher>,
    peer: Option<Peer>,
    peerKey: Option<PublicKey>,
    code: Option<Code>,
    prompt: Option<Prompt>,
    localConsent: Option<bool>,
    remoteConsent: Option<bool>,
    role: Role,
    failed: bool,
    handshakeTimer: bool,
    keepAliveTimer: bool,
    lastSecureAt: int,
    pings: set<nat>,
    outgoingReversal: Option<nat>,
    incomingReversal: Option<nat>,
    requests: map<nat, PendingRequest>,
    resolved: map<nat, seq<DiagnosticRecord>>,
    rejected: set<nat>,
    grants: seq<Grant>,
    suspended: nat,
    signals: seq<Signal>,
    transportClosed: bool,
    outbox: seq<Wire>
  )

  datatype Outcome = Outcome(session: Session, threw: bool)

  function Done(s: Session): Outcome { Outcome(s, false) }

  function Throw(s: Session): Outcome { Outcome(s, true) }

  // ---------- sending and closing ----------

  /** `JsonLineTransport.send` for a hello; its bounded fields keep it far below the frame limit. */
  function SendHello(s: Session, frame: Wire): Outcome {
    if s.transportClosed then Throw(s) else Done(s.(outbox := s.outbox + [frame]))
  }

  /** `sendSecure`: the counter has moved on before the transport refuses a frame. */
  function SendSecure(s: Session, message: Message): Outcome {
    if s.cipher.None? then Throw(s)
    else
      var cipher := s.cipher.value;
      var counted := s.(cipher := Some(cipher.(transmitted := cipher.transmitted + 1)));
      match Seal(cipher, message)
      case None => Throw(counted)
      case Some(envelope) =>
        if s.transportClosed || !FrameFits(envelope.counter, PlaintextBytes(message)) then Throw(counted)
        else Done(counted.(outbox := s.outbox + [SecureFrame(envelope)]))
  }

  /** `clearTimers`, which also rejects every pending diagnostics request. */
  function ClearTimers(s: Session): Session {
    s.(handshakeTimer := false, keepAliveTimer := false,
       requests := map[], rejected := s.rejected + s.requests.Keys)
  }

  function CloseWithError(s: Session, expected: bool): Session {
    if s.phase == Closed then s
    else ClearTimers(s).(
      prompt := None, role := NoRole, phase := Closed, failed := !expected, transportClosed := true)
  }

  /** `dispose`, which keeps the role and the prompt as they are. */
  function Dispose(s: Session): Session {
    ClearTimers(s).(transportClosed := true, phase := Closed)
  }

  /** The transport reports that the socket failed or closed. */
  function TransportGone(s: Session): Session {
    if s.transportClosed then s else CloseWithError(s.(transportClosed := true), false)
  }

  function DisconnectSession(s: Session): Session {
    if s.cipher.Some? && s.phase != Closed then CloseWithError(SendSecure(s, Disconnect).session, true)
    else CloseWithError(s, true)
  }

  // ---------- establishment ----------

  function StartKeepAlive(s: Session, now: int): Session {
    if s.keepAliveTimer then s else s.(keepAliveTimer := true, lastSecureAt := now)
  }

  function InitialRole(intent: Option<Intent>, initiator: bool): Role {
    if (intent == Some(ViewRemote)) == initiator then Viewer else Sharer
  }

  function Toggle(role: Role): Role { if role == Viewer then Sharer else Viewer }

  function Establish(s: Session, now: int): Session {
    s.(prompt := None, phase := Connected, role := InitialRole(s.intent, s.initiator),
       keepAliveTimer := true, lastSecureAt := if s.keepAliveTimer then s.lastSecureAt else now)
  }

  /** Both ends have approved and the peer is known. */
  predicate ReadyToEstablish(s: Session) {
    && s.localConsent == Some(true) && s.remoteConsent == Some(true)
    && s.peer.Some? && s.peerKey.Some? && s.intent.Some?
  }

  /** `tryEstablishConnection`: the responder of an unknown peer waits for the trust store. */
  function TryEstablish(s: Session, now: int): Session {
    if !ReadyToEstablish(s) then s
    else if !s.initiator && !s.peer.value.paired then
      s.(suspended := s.suspended + 1,
         grants := s.grants + [Grant(s.intent.value, s.peer.value.device, s.peerKey.value)])
    else Establish(s, now)
  }

  /** The trust store has answered and `tryEstablishConnection` goes on, whatever the phase is by now. */
  function ResumeEstablish(s: Session, now: int): Session {
    if s.suspended == 0 || s.peer.None? then s
    else Establish(s.(suspended := s.suspended - 1, peer := Some(s.peer.value.(paired := true))), now)
  }

  // ---------- handshake ----------

  function Start(s: Session, intent: Intent): Outcome {
    var timed := s.(handshakeTimer := true);
    if s.initiator then
      var hello := CreateClientHello(s.own, intent);
      SendHello(timed.(intent := Some(intent), clientHello := Some(hello)), ClientHelloFrame(hello))
    else Done(timed)
  }

  /** `createCipher`, once both hellos are known. */
  function WithCipher(s: Session, client: ClientHello, server: ServerHello): Session {
    var secret := SharedSecret(s.own.ephemeral,
                               if s.initiator then server.fields.ephemeral else client.fields.ephemeral);
    s.(code := Some(Code(secret, client, server)),
       cipher := Some(CreateCipher(client.fields.session, secret, client, server, s.initiator)))
  }

  function HandleClientHello(s: Session, hello: ClientHello, trust: Trust): Outcome {
    if !VerifyClientHello(hello) then Throw(s)
    else
      var fields := hello.fields;
      var paired := !s.initiator && IsTrusted(trust, fields.device, fields.identity, fields.intent);
      var answer := CreateServerHello(s.own, hello);
      var sent := SendHello(
                    s.(clientHello := Some(hello), intent := Some(fields.intent), peerKey := Some(fields.identity),
                       peer := Some(Peer(fields.device, paired)), serverHello := Some(answer)),
                    ServerHelloFrame(answer));
      if sent.threw then sent
      else Done(WithCipher(sent.session, hello, answer).(phase := AwaitingSecureReady))
  }

  function HandleServerHello(s: Session, hello: ServerHello): Outcome {
    if s.clientHello.None? || !VerifyServerHello(hello, s.clientHello.value) then Throw(s)
    else if s.expectedDevice.Some? && hello.fields.device != s.expectedDevice.value then Throw(s)
    else
      var known := s.(serverHello := Some(hello), peerKey := Some(hello.fields.identity),
                      peer := Some(Peer(hello.fields.device, false)));
      SendSecure(WithCipher(known, s.clientHello.value, hello).(phase := AwaitingSecureAcknowledgement), Ready)
  }

  // ---------- consent ----------

  function EnterConsentPhase(s: Session, now: int, promptId: nat): Outcome {
    if s.peer.None? || s.intent.None? then Throw(s.(handshakeTimer := false))
    else if s.code.None? then Throw(s.(handshakeTimer := false, phase := AwaitingConsent))
    else
      var entered := StartKeepAlive(s.(handshakeTimer := false, phase := AwaitingConsent), now);
      if s.initiator then
        SendSecure(entered.(prompt := Some(Prompt(promptId, Pairing, WaitingForPeer)), localConsent := Some(true)),
                   ConsentDecision(true))
      else if s.peer.value.paired then
        SendSecure(entered.(prompt := None, localConsent := Some(true)), ConsentDecision(true))
      else Done(entered.(prompt := Some(Prompt(promptId, Pairing, EnterVerificationCode))))
  }

  function HandleReady(s: Session, now: int, promptId: nat): Outcome {
    if s.phase != AwaitingSecureReady then Throw(s)
    else
      var sent := SendSecure(s, ReadyAcknowledged);
      if sent.threw then sent else EnterConsentPhase(sent.session, now, promptId)
  }

  function HandleReadyAcknowledged(s: Session, now: int, promptId: nat): Outcome {
    if s.phase != AwaitingSecureAcknowledgement then Throw(s) else EnterConsentPhase(s, now, promptId)
  }

  function HandleConsentDecision(s: Session, accepted: bool, now: int): Outcome {
    if s.phase != AwaitingConsent then Throw(s)
    else
      var heard := s.(remoteConsent := Some(accepted));
      Done(if accepted then TryEstablish(heard, now) else CloseWithError(heard, true))
  }

  /** `respondToPrompt` for a pairing prompt; the entered code is compared with the derived one. */
  function RespondToPairing(s: Session, mode: PromptMode, accepted: bool, entered: Option<Code>, now: int): Outcome {
    if accepted && mode == WaitingForPeer then Throw(s)
    else if accepted && mode == EnterVerificationCode && (s.code.None? || entered != s.code) then Throw(s)
    else
      var sent := SendSecure(s.(prompt := None, localConsent := Some(accepted)), ConsentDecision(accepted));
      if sent.threw then sent
      else if !accepted then Done(CloseWithError(sent.session, true))
      else Done(TryEstablish(sent.session, now))
  }

  function RespondToPrompt(s: Session, promptId: nat, accepted: bool, entered: Option<Code>, now: int): Outcome {
    if s.prompt.None? || s.prompt.value.id != promptId then Throw(s)
    else if s.prompt.value.kind == Reversal then RespondToReversal(s, accepted)
    else RespondToPairing(s, s.prompt.value.mode, accepted, entered, now)
  }

  // ---------- direction reversal ----------

  function RequestReversal(s: Session, id: nat): Outcome {
    if s.phase != Connected || s.outgoingReversal.Some? then Throw(s)
    else SendSecure(s.(outgoingReversal := Some(id)), ReversalRequest(id))
  }

  function HandleReversalRequest(s: Session, id: nat, promptId: nat): Outcome {
    if s.phase != Connected || s.prompt.Some? then SendSecure(s, ReversalDecision(id, false))
    else Done(s.(incomingReversal := Some(id), prompt := Some(Prompt(promptId, Reversal, Decision))))
  }

  function RespondToReversal(s: Session, accepted: bool): Outcome {
    if s.incomingReversal.None? then Throw(s)
    else
      var sent := SendSecure(s.(incomingReversal := None, prompt := None),
                             ReversalDecision(s.incomingReversal.value, accepted));
      if sent.threw || !accepted then sent
      else Done(sent.session.(role := Toggle(s.role)))
  }

  function HandleReversalDecision(s: Session, id: nat, accepted: bool): Outcome {
    if s.outgoingReversal != Some(id) then Throw(s)
    else Done(s.(outgoingReversal := None, role := if accepted then Toggle(s.role) else s.role))
  }

  // ---------- diagnostics and media ----------

  function BoundedLimit(limit: int): nat {
    if limit < 1 then 1 else if limit > MAXIMUM_RECORDS_PER_REQUEST then MAXIMUM_RECORDS_PER_REQUEST else limit
  }

  /** `records.slice(-limit)`. */
  function LastRecords(records: seq<DiagnosticRecord>, limit: nat): seq<DiagnosticRecord> {
    if |records| <= limit then records else records[|records| - limit..]
  }

  function RequestDiagnostics(s: Session, limit: int, id: nat): Outcome {
    if s.phase != Connected then Throw(s)
    else
      var bounded := BoundedLimit(limit);
      var sent := SendSecure(s.(requests := s.requests[id := PendingRequest(bounded, [])]),
                             DiagnosticsRequest(id, bounded));
      if sent.threw then Done(sent.session.(requests := s.requests - {id}, rejected := s.rejected + {id}))
      else sent
  }

  /** The ten seconds of a request are over. */
  function RequestTimeout(s: Session, id: nat): Session {
    if id !in s.requests then s
    else s.(requests := s.requests - {id}, rejected := s.rejected + {id})
  }

  /** The rest of the batch loop, from the record at `offset` on. */
  function SendBatches(s: Session, id: nat, records: seq<DiagnosticRecord>, offset: nat): Outcome
    requires offset <= |records|
    decreases |records| - offset
  {
    if offset == |records| then Done(s)
    else
      var end := if offset + BATCH_RECORD_COUNT < |records| then offset + BATCH_RECORD_COUNT else |records|;
      var sent := SendSecure(s, DiagnosticsBatch(id, records[offset..end], end >= |records|));
      if sent.threw then sent else SendBatches(sent.session, id, records, end)
  }

  function HandleDiagnosticsRequest(s: Session, id: nat, limit: nat, local: seq<DiagnosticRecord>): Outcome {
    if s.phase != Connected then Throw(s)
    else
      var records := LastRecords(local, limit);
      if records == [] then SendSecure(s, DiagnosticsBatch(id, [], true))
      else SendBatches(s, id, records, 0)
  }

  function HandleDiagnosticsBatch(s: Session, id: nat, records: seq<DiagnosticRecord>, complete: bool): Outcome {
    if id !in s.requests then Done(s)
    else
      var pending := s.requests[id];
      var collected := pending.records + records;
      var extended := s.(requests := s.requests[id := pending.(records := collected)]);
      if |collected| > pending.limit then Throw(extended)
      else if !complete then Done(extended)
      else Done(s.(requests := s.requests - {id}, resolved := s.resolved[id := collected]))
  }

  function SendMediaSignal(s: Session, signal: Signal): Outcome {
    if s.phase != Connected then Throw(s) else SendSecure(s, MediaSignal(signal))
  }

  function HandleMediaSignal(s: Session, signal: Signal): Outcome {
    if s.phase != Connected then Throw(s) else Done(s.(signals := s.signals + [signal]))
  }

  // ---------- health ----------

  function HandlePing(s: Session, id: nat): Outcome {
    if s.phase != Connected && s.phase != AwaitingConsent then Throw(s) else SendSecure(s, Pong(id))
  }

  function HealthTimeout(s: Session): nat {
    if s.phase == Connected then CONNECTION_TIMEOUT_MS else PAIRING_TIMEOUT_MS
  }

  function KeepAliveTick(s: Session, now: int, pingId: nat): Outcome {
    if now - s.lastSecureAt > HealthTimeout(s) then Done(CloseWithError(s, false))
    else SendSecure(s.(pings := s.pings + {pingId}), Ping(pingId))
  }

  // ---------- dispatch ----------

  /**
   What the surroundings supply while a message is handled: the time, a fresh prompt id, the trust store, the
   local records.
   */
  datatype Surroundings = Surroundings(
    now: int, promptId: nat, trust: Trust, local: seq<DiagnosticRecord>)

  function HandleSecure(s: Session, message: Message, around: Surroundings): Outcome {
    match message
    case Ready => HandleReady(s, around.now, around.promptId)
    case ReadyAcknowledged => HandleReadyAcknowledged(s, around.now, around.promptId)
    case ConsentDecision(accepted) => HandleConsentDecision(s, accepted, around.now)
    case Ping(id) => HandlePing(s, id)
    case Pong(id) => Done(s.(pings := s.pings - {id}))
    case ReversalRequest(id) => HandleReversalRequest(s, id, around.promptId)
    case ReversalDecision(id, accepted) => HandleReversalDecision(s, id, accepted)
    case Disconnect => Done(CloseWithError(s, true))
    case ProtocolError => Done(CloseWithError(s, false))
    case DiagnosticsRequest(id, limit) => HandleDiagnosticsRequest(s, id, limit, around.local)
    case DiagnosticsBatch(id, records, complete) => HandleDiagnosticsBatch(s, id, records, complete)
    case MediaSignal(signal) => HandleMediaSignal(s, signal)
  }

  function HandleEnvelope(s: Session, envelope: Envelope, around: Surroundings): Outcome {
    if s.cipher.None? then Throw(s)
    else
      var alive := s.(lastSecureAt := around.now);
      match Opened(s.cipher.value, envelope)
      case None => Throw(alive)
      case Some(message) =>
        HandleSecure(alive.(cipher := Some(s.cipher.value.(received := envelope.counter))), message, around)
  }

  /** The session after an envelope has opened, before its message is handled. */
  function OpenedBy(s: Session, envelope: Envelope, now: int): Session
    requires s.cipher.Some?
  {
    s.(lastSecureAt := now, cipher := Some(s.cipher.value.(received := envelope.counter)))
  }

  lemma EnvelopeOpens(s: Session, envelope: Envelope, around: Surroundings, message: Message)
    requires s.cipher.Some? && Opened(s.cipher.value, envelope) == Some(message)
    ensures HandleEnvelope(s, envelope, around) == HandleSecure(OpenedBy(s, envelope, around.now), message, around)
  {
  }

  /** The body of `handleWireMessage` before its `catch`. */
  function Dispatch(s: Session, frame: Wire, around: Surroundings): Outcome {
    match s.phase
    case AwaitingClientHello =>
      if frame.ClientHelloFrame? then HandleClientHello(s, frame.clientHello, around.trust) else Throw(s)
    case AwaitingServerHello =>
      if frame.ServerHelloFrame? then HandleServerHello(s, frame.serverHello) else Throw(s)
    case _ =>
      if frame.SecureFrame? then HandleEnvelope(s, frame.envelope, around) else Throw(s)
  }

  /** `handleWireMessage`: whatever is thrown closes the session. */
  function HandleWireMessage(s: Session, frame: Wire, around: Surroundings): Session {
    var outcome := Dispatch(s, frame, around);
    if outcome.threw then CloseWithError(outcome.session, false) else outcome.session
  }

  /** A session as its constructor leaves it. */
  function NewSession(initiator: bool, own: Credentials, expectedDevice: Option<DeviceId>, now: int): Session {
    Session(
      initiator, own, expectedDevice, if initiator then AwaitingServerHello else AwaitingClientHello,
      None, None, None, None, None, None, None, None, None, None, NoRole, false, false, false, now, {},
      None, None, map[], map[], {}, [], 0, [], false, [])
  }
}
