/**
 Three runs of two honest computers that show why the theorems ask what they ask: a pairing that is
 connected after it was closed, a media signal that meets a responder waiting for its trust store,
 and the cancel that comes too late.  All three begin with the same pairing.
 */
module Hazards {
  import opened Wrappers
  import opened ProtocolContracts
  import opened SessionCryptography
  import opened EnvelopeText
  import opened SessionModel
  import opened Effects
  import opened TwoParty

  // ---------- what the two ends share ----------

  datatype Pairing = Pairing(caller: Credentials, callee: Credentials, intent: Intent)

  function Hello(p: Pairing): ClientHello { CreateClientHello(p.caller, p.intent) }

  function Reply(p: Pairing): ServerHello { CreateServerHello(p.callee, Hello(p)) }

  function Agreed(p: Pairing): set<nat> { {p.caller.ephemeral, p.callee.ephemeral} }

  function CallerCipher(p: Pairing, sent: nat, got: nat): Cipher {
    CreateCipher(p.caller.session, Agreed(p), Hello(p), Reply(p), true).(transmitted := sent, received := got)
  }

  function CalleeCipher(p: Pairing, sent: nat, got: nat): Cipher {
    CreateCipher(p.caller.session, Agreed(p), Hello(p), Reply(p), false).(transmitted := sent, received := got)
  }

  /** The frame the caller writes after its first `sent` messages. */
  function FromCaller(p: Pairing, sent: nat, message: Message): Wire {
    SecureFrame(HonestEnvelope(CallerCipher(p, 0, 0).transmitKey, p.caller.session, sent, message))
  }

  function FromCallee(p: Pairing, sent: nat, message: Message): Wire {
    SecureFrame(HonestEnvelope(CalleeCipher(p, 0, 0).transmitKey, p.caller.session, sent, message))
  }

  function Start(p: Pairing): World { InitialWorld(p.caller, p.callee, None, p.intent, map[], 0) }

  // ---------- the fields that matter ----------

  /** The caller's end of the pairing, with the counters of its cipher and its queue. */
  predicate CallerIs(s: Session, p: Pairing, phase: Phase, sent: nat, got: nat, outbox: seq<Wire>) {
    && s.initiator && s.own == p.caller && s.expectedDevice.None? && s.phase == phase
    && s.clientHello == Some(Hello(p)) && s.intent == Some(p.intent)
    && s.cipher == Some(CallerCipher(p, sent, got)) && s.code == Some(Code(Agreed(p), Hello(p), Reply(p)))
    && s.peer == Some(Peer(OwnDevice(p.callee), false)) && s.peerKey == Some(PublicKey(p.callee.identity))
    && !s.transportClosed && s.suspended == 0 && s.outbox == outbox
    && (phase != Connected ==> s.outgoingReversal.None? && s.incomingReversal.None?)
  }

  predicate CalleeIs(s: Session, p: Pairing, phase: Phase, sent: nat, got: nat, outbox: seq<Wire>) {
    && !s.initiator && s.own == p.callee && s.phase == phase
    && s.intent == Some(p.intent)
    && s.cipher == Some(CalleeCipher(p, sent, got)) && s.code == Some(Code(Agreed(p), Hello(p), Reply(p)))
    && s.peer.Some? && s.peer.value.device == OwnDevice(p.caller) && s.peerKey == Some(PublicKey(p.caller.identity))
    && !s.transportClosed && s.outbox == outbox
    && (phase != Connected ==> s.outgoingReversal.None? && s.incomingReversal.None?)
  }

  // ---------- single deliveries ----------

  lemma SendsOne(s: Session, message: Message)
    requires CanSend(s, 1) && PlaintextBytes(message) <= MAXIMUM_PLAINTEXT_BYTES
    ensures SendSecure(s, message) ==
            Done(s.(cipher := Some(s.cipher.value.(transmitted := s.cipher.value.transmitted + 1)),
                    outbox := s.outbox + [SecureFrame(HonestEnvelope(s.cipher.value.transmitKey, s.cipher.value.session,
                                                                    s.cipher.value.transmitted, message))]))
  {
    SendSecureFits(s, message);
    assert [message][1..] == [];
    assert Frames(s.cipher.value, [message]) ==
           [SecureFrame(HonestEnvelope(s.cipher.value.transmitKey, s.cipher.value.session, s.cipher.value.transmitted, message))];
  }

  /** The first steps: the two hellos. */
  lemma HelloDelivered(p: Pairing)
    ensures var w := Exec(Start(p), Deliver(AtResponder));
            && CalleeIs(w.responder.session, p, AwaitingSecureReady, 0, 0, [ServerHelloFrame(Reply(p))])
            && !w.responder.session.peer.value.paired && w.responder.session.suspended == 0
            && w.responder.session.localConsent.None? && w.responder.session.remoteConsent.None?
            && w.initiator.session == Start(p).initiator.session.(outbox := [])
            && w.nextId == 1 && w.now == 0
  {
    assert Start(p).initiator.session.outbox == [ClientHelloFrame(Hello(p))];
    assert Start(p).initiator.session.outbox[1..] == [];
    SecretsAgree(p);
  }

  lemma SecretsAgree(p: Pairing)
    ensures SharedSecret(p.caller.ephemeral, EphemeralKey(p.callee.ephemeral)) == Agreed(p)
    ensures SharedSecret(p.callee.ephemeral, EphemeralKey(p.caller.ephemeral)) == Agreed(p)
  {
  }

  lemma ReplyDelivered(p: Pairing, w: World)
    requires CalleeIs(w.responder.session, p, AwaitingSecureReady, 0, 0, [ServerHelloFrame(Reply(p))])
    requires w.initiator.session == Start(p).initiator.session.(outbox := [])
    ensures var after := Exec(w, Deliver(AtInitiator));
            && CallerIs(after.initiator.session, p, AwaitingSecureAcknowledgement, 1, 0, [FromCaller(p, 0, Ready)])
            && after.initiator.session.localConsent.None? && after.initiator.session.remoteConsent.None?
            && after.responder.session == w.responder.session.(outbox := [])
            && after.nextId == w.nextId + 1 && after.now == w.now && after.trust == w.trust
  {
    SecretsAgree(p);
    var s := w.initiator.session;
    var joined := WithCipher(
        s.(serverHello := Some(Reply(p)), peerKey := Some(Reply(p).fields.identity),
           peer := Some(Peer(Reply(p).fields.device, false))), Hello(p), Reply(p))
      .(phase := AwaitingSecureAcknowledgement);
    SendsOne(joined, Ready);
    assert HandleServerHello(s, Reply(p)) == SendSecure(joined, Ready);
    assert [ServerHelloFrame(Reply(p))][1..] == [];
  }

  /** An honest frame for the other end's next counter opens. */
  lemma CalleeOpens(p: Pairing, s: Session, message: Message, around: Surroundings, phase: Phase, sent: nat, got: nat, outbox: seq<Wire>)
    requires CalleeIs(s, p, phase, sent, got, outbox) && phase != AwaitingClientHello && phase != AwaitingServerHello
    requires got + 1 < COUNTER_LIMIT && Acceptable(message)
    ensures Dispatch(s, FromCaller(p, got, message), around) ==
            HandleSecure(s.(lastSecureAt := around.now, cipher := Some(CalleeCipher(p, sent, got + 1))), message, around)
  {
  }

  lemma CallerOpens(p: Pairing, s: Session, message: Message, around: Surroundings, phase: Phase, sent: nat, got: nat, outbox: seq<Wire>)
    requires CallerIs(s, p, phase, sent, got, outbox) && phase != AwaitingClientHello && phase != AwaitingServerHello
    requires got + 1 < COUNTER_LIMIT && Acceptable(message)
    ensures Dispatch(s, FromCallee(p, got, message), around) ==
            HandleSecure(s.(lastSecureAt := around.now, cipher := Some(CallerCipher(p, sent, got + 1))), message, around)
  {
  }

  predicate NothingAnswered(s: Session) { s.localConsent.None? && s.remoteConsent.None? }

  lemma CalleeAcknowledges(p: Pairing, ready: Session, around: Surroundings)
    requires CalleeIs(ready, p, AwaitingSecureReady, 0, 1, []) && !ready.peer.value.paired && NothingAnswered(ready)
    requires ready.suspended == 0
    ensures var outcome := HandleSecure(ready, Ready, around);
            && !outcome.threw
            && CalleeIs(outcome.session, p, AwaitingConsent, 1, 1, [FromCallee(p, 0, ReadyAcknowledged)])
            && !outcome.session.peer.value.paired && NothingAnswered(outcome.session) && outcome.session.suspended == 0
            && outcome.session.prompt == Some(Prompt(around.promptId, PromptKind.Pairing, EnterVerificationCode))
  {
    SendsOne(ready, ReadyAcknowledged);
    assert [] + [FromCallee(p, 0, ReadyAcknowledged)] == [FromCallee(p, 0, ReadyAcknowledged)];
  }

  lemma ReadyHandled(p: Pairing, s: Session, around: Surroundings)
    requires CalleeIs(s, p, AwaitingSecureReady, 0, 0, []) && !s.peer.value.paired && NothingAnswered(s) && s.suspended == 0
    ensures var after := HandleWireMessage(s, FromCaller(p, 0, Ready), around);
            && CalleeIs(after, p, AwaitingConsent, 1, 1, [FromCallee(p, 0, ReadyAcknowledged)])
            && !after.peer.value.paired && NothingAnswered(after) && after.suspended == 0
            && after.prompt == Some(Prompt(around.promptId, PromptKind.Pairing, EnterVerificationCode))
  {
    CalleeOpens(p, s, Ready, around, AwaitingSecureReady, 0, 0, []);
    var ready := s.(lastSecureAt := around.now, cipher := Some(CalleeCipher(p, 0, 1)));
    CalleeAdvances(p, s, around.now);
    CalleeAcknowledges(p, ready, around);
    var outcome := HandleSecure(ready, Ready, around);
    assert HandleWireMessage(s, FromCaller(p, 0, Ready), around) == outcome.session;
  }

  lemma CalleeAdvances(p: Pairing, s: Session, now: int)
    requires CalleeIs(s, p, AwaitingSecureReady, 0, 0, [])
    ensures CalleeIs(s.(lastSecureAt := now, cipher := Some(CalleeCipher(p, 0, 1))), p, AwaitingSecureReady, 0, 1, [])
  {
  }

  /** The caller's session on entering the consent phase, before its consent goes out. */
  function CallerEntered(s: Session, now: int, promptId: nat): Session {
    StartKeepAlive(s.(handshakeTimer := false, phase := AwaitingConsent), now)
      .(prompt := Some(Prompt(promptId, PromptKind.Pairing, WaitingForPeer)), localConsent := Some(true))
  }

  lemma CallerEnters(p: Pairing, s: Session, now: int, promptId: nat)
    requires CallerIs(s, p, AwaitingSecureAcknowledgement, 1, 1, []) && NothingAnswered(s)
    ensures EnterConsentPhase(s, now, promptId) == SendSecure(CallerEntered(s, now, promptId), ConsentDecision(true))
    ensures CallerIs(CallerEntered(s, now, promptId), p, AwaitingConsent, 1, 1, [])
    ensures CallerEntered(s, now, promptId).remoteConsent.None?
  {
  }

  lemma CallerConsents(p: Pairing, s: Session)
    requires CallerIs(s, p, AwaitingConsent, 1, 1, [])
    ensures var outcome := SendSecure(s, ConsentDecision(true));
            && !outcome.threw && CallerIs(outcome.session, p, AwaitingConsent, 2, 1, [FromCaller(p, 1, ConsentDecision(true))])
            && outcome.session.localConsent == s.localConsent && outcome.session.remoteConsent == s.remoteConsent
            && outcome.session.prompt == s.prompt
  {
    SendsOne(s, ConsentDecision(true));
    assert [] + [FromCaller(p, 1, ConsentDecision(true))] == [FromCaller(p, 1, ConsentDecision(true))];
  }

  lemma AcknowledgementHandled(p: Pairing, s: Session, around: Surroundings)
    requires CallerIs(s, p, AwaitingSecureAcknowledgement, 1, 0, []) && NothingAnswered(s)
    ensures var after := HandleWireMessage(s, FromCallee(p, 0, ReadyAcknowledged), around);
            && CallerIs(after, p, AwaitingConsent, 2, 1, [FromCaller(p, 1, ConsentDecision(true))])
            && after.localConsent == Some(true) && after.remoteConsent.None?
            && after.prompt == Some(Prompt(around.promptId, PromptKind.Pairing, WaitingForPeer))
  {
    CallerOpens(p, s, ReadyAcknowledged, around, AwaitingSecureAcknowledgement, 1, 0, []);
    var ready := s.(lastSecureAt := around.now, cipher := Some(CallerCipher(p, 1, 1)));
    CallerAdvances(p, s, around.now);
    ReadyCallerEnters(p, ready, around);
    var outcome := HandleSecure(ready, ReadyAcknowledged, around);
    assert HandleWireMessage(s, FromCallee(p, 0, ReadyAcknowledged), around) == outcome.session;
  }

  lemma CallerAdvances(p: Pairing, s: Session, now: int)
    requires CallerIs(s, p, AwaitingSecureAcknowledgement, 1, 0, []) && NothingAnswered(s)
    ensures var ready := s.(lastSecureAt := now, cipher := Some(CallerCipher(p, 1, 1)));
            CallerIs(ready, p, AwaitingSecureAcknowledgement, 1, 1, []) && NothingAnswered(ready)
  {
  }

  lemma ReadyCallerEnters(p: Pairing, ready: Session, around: Surroundings)
    requires CallerIs(ready, p, AwaitingSecureAcknowledgement, 1, 1, []) && NothingAnswered(ready)
    ensures var outcome := HandleSecure(ready, ReadyAcknowledged, around);
            && !outcome.threw
            && CallerIs(outcome.session, p, AwaitingConsent, 2, 1, [FromCaller(p, 1, ConsentDecision(true))])
            && outcome.session.localConsent == Some(true) && outcome.session.remoteConsent.None?
            && outcome.session.prompt == Some(Prompt(around.promptId, PromptKind.Pairing, WaitingForPeer))
  {
    CallerEnters(p, ready, around.now, around.promptId);
    CallerConsents(p, CallerEntered(ready, around.now, around.promptId));
  }

  lemma CallerConsentHandled(p: Pairing, s: Session, around: Surroundings)
    requires CalleeIs(s, p, AwaitingConsent, 1, 1, []) && !s.peer.value.paired && NothingAnswered(s) && s.suspended == 0
    ensures var after := HandleWireMessage(s, FromCaller(p, 1, ConsentDecision(true)), around);
            && CalleeIs(after, p, AwaitingConsent, 1, 2, [])
            && !after.peer.value.paired && after.localConsent.None? && after.remoteConsent == Some(true)
            && after.suspended == 0 && after.prompt == s.prompt
  {
    CalleeOpens(p, s, ConsentDecision(true), around, AwaitingConsent, 1, 1, []);
  }

  lemma CodeAccepted(p: Pairing, s: Session, id: nat, now: int)
    requires CalleeIs(s, p, AwaitingConsent, 1, 2, []) && !s.peer.value.paired
    requires s.localConsent.None? && s.remoteConsent == Some(true) && s.suspended == 0
    requires s.prompt == Some(Prompt(id, PromptKind.Pairing, EnterVerificationCode))
    ensures var outcome := RespondToPrompt(s, id, true, Some(Code(Agreed(p), Hello(p), Reply(p))), now);
            && !outcome.threw
            && CalleeIs(outcome.session, p, AwaitingConsent, 2, 2, [FromCallee(p, 1, ConsentDecision(true))])
            && outcome.session.suspended == 1
            && outcome.session.localConsent == Some(true) && outcome.session.remoteConsent == Some(true)
  {
    var answered := s.(prompt := None, localConsent := Some(true));
    SendsOne(answered, ConsentDecision(true));
    assert [] + [FromCallee(p, 1, ConsentDecision(true))] == [FromCallee(p, 1, ConsentDecision(true))];
  }

  // ---------- the shared beginning ----------

  function EnterCode(p: Pairing): Action { Respond(AtResponder, 2, true, Some(Code(Agreed(p), Hello(p), Reply(p)))) }

  /** The hellos, the two ready messages, the caller's consent, and the code entered at the callee. */
  function Paired(p: Pairing): World {
    var w := Exec(Exec(Exec(Exec(Exec(Start(p), Deliver(AtResponder)), Deliver(AtInitiator)), Deliver(AtResponder)),
                       Deliver(AtInitiator)), Deliver(AtResponder));
    Exec(w, EnterCode(p))
  }

  predicate Waiting(p: Pairing, w: World) {
    && CallerIs(w.initiator.session, p, AwaitingConsent, 2, 1, [])
    && w.initiator.session.localConsent == Some(true) && w.initiator.session.remoteConsent.None?
    && w.initiator.session.prompt == Some(Prompt(3, PromptKind.Pairing, WaitingForPeer))
    && CalleeIs(w.responder.session, p, AwaitingConsent, 2, 2, [FromCallee(p, 1, ConsentDecision(true))])
    && w.responder.session.suspended == 1
    && w.responder.session.localConsent == Some(true) && w.responder.session.remoteConsent == Some(true)
    && w.nextId == 5
  }

  lemma Delivers(w: World, side: Side, frame: Wire)
    requires At(w, Other(side)).outbox == [frame]
    ensures var after := Exec(w, Deliver(side));
            && At(after, side) == HandleWireMessage(At(w, side), frame, SurroundingsAt(w, side))
            && At(after, Other(side)) == At(w, Other(side)).(outbox := [])
            && after.nextId == w.nextId + 1 && after.now == w.now
  {
    assert [frame][1..] == [];
  }

  lemma AfterTheHellos(p: Pairing)
    ensures var w := Exec(Exec(Start(p), Deliver(AtResponder)), Deliver(AtInitiator));
            && CallerIs(w.initiator.session, p, AwaitingSecureAcknowledgement, 1, 0, [FromCaller(p, 0, Ready)])
            && NothingAnswered(w.initiator.session)
            && CalleeIs(w.responder.session, p, AwaitingSecureReady, 0, 0, [])
            && !w.responder.session.peer.value.paired && NothingAnswered(w.responder.session)
            && w.responder.session.suspended == 0 && w.nextId == 2
  {
    HelloDelivered(p);
    ReplyDelivered(p, Exec(Start(p), Deliver(AtResponder)));
  }

  lemma PairingWaits(p: Pairing)
    ensures Waiting(p, Paired(p))
  {
    AfterTheHellos(p);
    var w2 := Exec(Exec(Start(p), Deliver(AtResponder)), Deliver(AtInitiator));
    var w3 := Exec(w2, Deliver(AtResponder));
    Delivers(w2, AtResponder, FromCaller(p, 0, Ready));
    ReadyHandled(p, w2.responder.session, SurroundingsAt(w2, AtResponder));
    var w4 := Exec(w3, Deliver(AtInitiator));
    Delivers(w3, AtInitiator, FromCallee(p, 0, ReadyAcknowledged));
    AcknowledgementHandled(p, w3.initiator.session, SurroundingsAt(w3, AtInitiator));
    var w5 := Exec(w4, Deliver(AtResponder));
    Delivers(w4, AtResponder, FromCaller(p, 1, ConsentDecision(true)));
    CallerConsentHandled(p, w4.responder.session, SurroundingsAt(w4, AtResponder));
    CodeAccepted(p, w5.responder.session, 2, w5.now);
  }

  // ---------- connected after it was closed ----------

  lemma WaitingCalleeLeaves(p: Pairing, s: Session, queue: seq<Wire>)
    requires CalleeIs(s, p, AwaitingConsent, 2, 2, queue) && s.suspended == 1
    ensures var after := DisconnectSession(s);
            after.phase == Closed && after.transportClosed && after.suspended == 1 && after.peer.Some?
  {
    SendsOne(s, Disconnect);
  }

  lemma ReopenedByTheStore(s: Session, now: int)
    requires s.suspended > 0 && s.peer.Some?
    ensures var after := ResumeEstablish(s, now);
            after.phase == Connected && after.transportClosed == s.transportClosed && after.role != NoRole
  {
  }

  lemma LeavesAndConnects(p: Pairing, w: World)
    requires Waiting(p, w)
    ensures var closed := Exec(w, UserDisconnect(AtResponder));
            var reopened := Exec(closed, Resume(AtResponder));
            && closed.responder.session.phase == Closed
            && reopened.responder.session.phase == Connected && reopened.responder.session.transportClosed
            && reopened.responder.session.role != NoRole
  {
    var s := w.responder.session;
    WaitingCalleeLeaves(p, s, [FromCallee(p, 1, ConsentDecision(true))]);
    ReopenedByTheStore(DisconnectSession(s), w.now);
  }

  /**
   The callee's user enters the right code and disconnects before the trust store has answered.  When
   it answers, the closed session becomes connected, with a role, on a closed transport.
   */
  lemma ClosedSessionConnects(p: Pairing)
    ensures var closed := Exec(Paired(p), UserDisconnect(AtResponder));
            var reopened := Exec(closed, Resume(AtResponder));
            && closed.responder.session.phase == Closed
            && reopened.responder.session.phase == Connected && reopened.responder.session.transportClosed
            && reopened.responder.session.role != NoRole
  {
    PairingWaits(p);
    LeavesAndConnects(p, Paired(p));
  }

  // ---------- a media signal that finds no connection ----------

  lemma CallerConnects(p: Pairing, w: World)
    requires Waiting(p, w)
    ensures var after := Exec(w, Deliver(AtInitiator));
            && CallerIs(after.initiator.session, p, Connected, 2, 2, [])
            && CalleeIs(after.responder.session, p, AwaitingConsent, 2, 2, []) && after.responder.session.suspended == 1
  {
    Delivers(w, AtInitiator, FromCallee(p, 1, ConsentDecision(true)));
    CallerOpens(p, w.initiator.session, ConsentDecision(true), SurroundingsAt(w, AtInitiator), AwaitingConsent, 2, 1, []);
  }

  lemma SignalLeaves(p: Pairing, w: World, signal: Signal)
    requires CallerIs(w.initiator.session, p, Connected, 2, 2, []) && SmallSignal(signal)
    ensures var after := Exec(w, SendSignal(AtInitiator, signal));
            && after.initiator.session.outbox == [FromCaller(p, 2, MediaSignal(signal))]
            && after.responder == w.responder
  {
    SendsOne(w.initiator.session, MediaSignal(signal));
    assert [] + [FromCaller(p, 2, MediaSignal(signal))] == [FromCaller(p, 2, MediaSignal(signal))];
  }

  lemma SignalIsRefused(p: Pairing, w: World, signal: Signal)
    requires w.initiator.session.outbox == [FromCaller(p, 2, MediaSignal(signal))] && SmallSignal(signal)
    requires CalleeIs(w.responder.session, p, AwaitingConsent, 2, 2, [])
    ensures var after := Exec(w, Deliver(AtResponder)).responder.session; after.phase == Closed && after.failed
  {
    Delivers(w, AtResponder, FromCaller(p, 2, MediaSignal(signal)));
    CalleeOpens(p, w.responder.session, MediaSignal(signal), SurroundingsAt(w, AtResponder), AwaitingConsent, 2, 2, []);
  }

  /**
   The caller is connected as soon as it has the callee's consent, and sends a valid media signal.  It
   reaches the callee before the trust store has answered, and closes the session as an error.
   */
  lemma SignalFindsNoConnection(p: Pairing, signal: Signal)
    requires SmallSignal(signal)
    ensures var connected := Exec(Paired(p), Deliver(AtInitiator));
            var sent := Exec(connected, SendSignal(AtInitiator, signal));
            var after := Exec(sent, Deliver(AtResponder));
            && connected.initiator.session.phase == Connected
            && sent.responder.session.phase == AwaitingConsent
            && after.responder.session.phase == Closed && after.responder.session.failed
  {
    PairingWaits(p);
    CallerConnects(p, Paired(p));
    var connected := Exec(Paired(p), Deliver(AtInitiator));
    SignalLeaves(p, connected, signal);
    SignalIsRefused(p, Exec(connected, SendSignal(AtInitiator, signal)), signal);
  }

  // ---------- the cancel that comes too late ----------

  lemma CalleeConnects(p: Pairing, w: World)
    requires Waiting(p, w)
    ensures var after := Exec(w, Resume(AtResponder));
            && after.initiator == w.initiator
            && CalleeIs(after.responder.session, p, Connected, 2, 2, [FromCallee(p, 1, ConsentDecision(true))])
            && after.responder.session.suspended == 0 && after.responder.session.outgoingReversal.None?
            && after.nextId == w.nextId && after.now == w.now
  {
  }

  lemma CallerCancels(p: Pairing, w: World)
    requires CallerIs(w.initiator.session, p, AwaitingConsent, 2, 1, [])
    requires w.initiator.session.prompt == Some(Prompt(3, PromptKind.Pairing, WaitingForPeer))
    ensures var after := Exec(w, Respond(AtInitiator, 3, false, None));
            && after.initiator.session.phase == Closed && !after.initiator.session.failed
            && after.initiator.session.outbox == [FromCaller(p, 2, ConsentDecision(false))]
            && after.responder == w.responder
  {
    var answered := w.initiator.session.(prompt := None, localConsent := Some(false));
    SendsOne(answered, ConsentDecision(false));
    assert [] + [FromCaller(p, 2, ConsentDecision(false))] == [FromCaller(p, 2, ConsentDecision(false))];
  }

  lemma CancelIsRefused(p: Pairing, w: World)
    requires w.initiator.session.outbox == [FromCaller(p, 2, ConsentDecision(false))]
    requires CalleeIs(w.responder.session, p, Connected, 2, 2, [FromCallee(p, 1, ConsentDecision(true))])
    ensures var after := Exec(w, Deliver(AtResponder)).responder.session; after.phase == Closed && after.failed
  {
    Delivers(w, AtResponder, FromCaller(p, 2, ConsentDecision(false)));
    CalleeOpens(p, w.responder.session, ConsentDecision(false), SurroundingsAt(w, AtResponder), Connected, 2, 2,
                [FromCallee(p, 1, ConsentDecision(true))]);
  }

  /**
   The callee is connected already when the caller, still waiting for its consent, cancels.  The cancel
   closes the callee with a protocol error instead of a declined connection.
   */
  lemma CancelComesTooLate(p: Pairing)
    ensures var connected := Exec(Paired(p), Resume(AtResponder));
            var cancelled := Exec(connected, Respond(AtInitiator, 3, false, None));
            var after := Exec(cancelled, Deliver(AtResponder));
            && connected.responder.session.phase == Connected
            && cancelled.initiator.session.phase == Closed && !cancelled.initiator.session.failed
            && after.responder.session.phase == Closed && after.responder.session.failed
  {
    PairingWaits(p);
    CalleeConnects(p, Paired(p));
    var connected := Exec(Paired(p), Resume(AtResponder));
    CallerCancels(p, connected);
    CancelIsRefused(p, Exec(connected, Respond(AtInitiator, 3, false, None)));
  }
}
