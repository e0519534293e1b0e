/**
 How a responder comes to be connected, for any network: through a store that vouched for the hello it
 took, or through a grant it wrote.
 */
module PairingHistory {
  import opened Wrappers
  import opened ProtocolContracts
  import opened SessionCryptography
  import opened SessionModel
  import opened SessionRuns
  import opened Consent

  // ---------- what an event does to the pairing ----------

  /** The pairing stays as it is, and nobody becomes connected. */
  predicate Steady(s: Session, after: Session) {
    && after.initiator == s.initiator && after.peer == s.peer && after.suspended == s.suspended && after.grants == s.grants
    && (after.phase == Connected ==> s.phase == Connected)
  }

  /** The peer needs no grant: the caller's peer, or one the responder has paired with. */
  predicate NeedsNoGrant(s: Session) { s.initiator || (s.peer.Some? && s.peer.value.paired) }

  /** The responder writes its grant and waits for the trust store. */
  predicate WritesGrant(s: Session, after: Session) {
    && !s.initiator && s.peer.Some? && !s.peer.value.paired
    && after.suspended == s.suspended + 1 && (after.phase == Connected ==> s.phase == Connected)
    && |after.grants| == |s.grants| + 1 && after.grants[..|s.grants|] == s.grants
  }

  /** An event leaves the pairing, connects a peer that needs no grant, or writes a grant. */
  predicate PairingStep(s: Session, after: Session) {
    && after.initiator == s.initiator && after.peer == s.peer
    && (Steady(s, after) || WritesGrant(s, after) ||
        (NeedsNoGrant(s) && after.suspended == s.suspended && after.grants == s.grants))
  }

  lemma SteadyThen(s: Session, middle: Session, after: Session)
    requires Steady(s, middle) && PairingStep(middle, after)
    ensures PairingStep(s, after)
  {
  }

  lemma ThenSteady(s: Session, middle: Session, after: Session)
    requires PairingStep(s, middle) && Steady(middle, after)
    ensures PairingStep(s, after)
  {
  }

  lemma SendingIsSteady(s: Session, message: Message)
    ensures Steady(s, SendSecure(s, message).session)
  {
  }

  /** First some fields change, then a message is sent. */
  lemma SentIsSteady(s: Session, changed: Session, message: Message)
    requires Steady(s, changed)
    ensures Steady(s, SendSecure(changed, message).session)
  {
    SendingIsSteady(changed, message);
  }

  lemma ClosingIsSteady(s: Session, expected: bool)
    ensures Steady(s, CloseWithError(s, expected))
  {
  }

  lemma EstablishingPairs(s: Session, now: int)
    ensures PairingStep(s, TryEstablish(s, now))
  {
    if ReadyToEstablish(s) && !s.initiator && !s.peer.value.paired {
      var grant := Grant(s.intent.value, s.peer.value.device, s.peerKey.value);
      assert TryEstablish(s, now) == s.(suspended := s.suspended + 1, grants := s.grants + [grant]);
      assert WritesGrant(s, TryEstablish(s, now));
    }
  }

  lemma {:induction false} BatchesAreSteady(s: Session, id: nat, records: seq<DiagnosticRecord>, offset: nat)
    requires offset <= |records|
    ensures Steady(s, SendBatches(s, id, records, offset).session)
    decreases |records| - offset
  {
    if offset < |records| {
      var end := if offset + BATCH_RECORD_COUNT < |records| then offset + BATCH_RECORD_COUNT else |records|;
      var message := DiagnosticsBatch(id, records[offset..end], end >= |records|);
      SendingIsSteady(s, message);
      BatchesAreSteady(SendSecure(s, message).session, id, records, end);
    }
  }

  lemma EnteringIsSteady(s: Session, now: int, promptId: nat)
    ensures Steady(s, EnterConsentPhase(s, now, promptId).session)
  {
    var entered := StartKeepAlive(s.(handshakeTimer := false, phase := AwaitingConsent), now);
    if s.peer.None? || s.intent.None? || s.code.None? || (!s.initiator && !s.peer.value.paired) {
    } else if s.initiator {
      SentIsSteady(s, entered.(prompt := Some(Prompt(promptId, Pairing, WaitingForPeer)), localConsent := Some(true)),
                   ConsentDecision(true));
    } else {
      SentIsSteady(s, entered.(prompt := None, localConsent := Some(true)), ConsentDecision(true));
    }
  }

  lemma ReadyIsSteady(s: Session, now: int, promptId: nat)
    ensures Steady(s, HandleReady(s, now, promptId).session)
  {
    SendingIsSteady(s, ReadyAcknowledged);
    EnteringIsSteady(SendSecure(s, ReadyAcknowledged).session, now, promptId);
  }

  lemma ConsentPairs(s: Session, accepted: bool, now: int)
    ensures PairingStep(s, HandleConsentDecision(s, accepted, now).session)
  {
    var heard := s.(remoteConsent := Some(accepted));
    EstablishingPairs(heard, now);
    SteadyThen(s, heard, TryEstablish(heard, now));
    ClosingIsSteady(heard, true);
  }

  lemma RequestIsSteady(s: Session, id: nat, limit: nat, local: seq<DiagnosticRecord>)
    ensures Steady(s, HandleDiagnosticsRequest(s, id, limit, local).session)
  {
    SendingIsSteady(s, DiagnosticsBatch(id, [], true));
    BatchesAreSteady(s, id, LastRecords(local, limit), 0);
  }

  lemma BatchIsSteady(s: Session, id: nat, records: seq<DiagnosticRecord>, complete: bool)
    ensures Steady(s, HandleDiagnosticsBatch(s, id, records, complete).session)
  {
  }

  lemma ReversalIsSteady(s: Session, id: nat, promptId: nat)
    ensures Steady(s, HandleReversalRequest(s, id, promptId).session)
  {
    SendingIsSteady(s, ReversalDecision(id, false));
  }

  lemma DecisionIsSteady(s: Session, id: nat, accepted: bool)
    ensures Steady(s, HandleReversalDecision(s, id, accepted).session)
  {
  }

  lemma SteadyPairs(s: Session, after: Session)
    requires Steady(s, after)
    ensures PairingStep(s, after)
  {
  }

  lemma SteadyHandled(s: Session, message: Message, around: Surroundings)
    requires !message.ConsentDecision?
    ensures Steady(s, HandleSecure(s, message, around).session)
  {
    match message
    case Ready => ReadyIsSteady(s, around.now, around.promptId);
    case ReadyAcknowledged => EnteringIsSteady(s, around.now, around.promptId);
    case Ping(id) => SendingIsSteady(s, Pong(id));
    case ReversalRequest(id) => ReversalIsSteady(s, id, around.promptId);
    case ReversalDecision(id, accepted) => DecisionIsSteady(s, id, accepted);
    case DiagnosticsRequest(id, limit) => RequestIsSteady(s, id, limit, around.local);
    case DiagnosticsBatch(id, records, complete) => BatchIsSteady(s, id, records, complete);
    case Disconnect => ClosingIsSteady(s, true);
    case ProtocolError => ClosingIsSteady(s, false);
    case _ =>
  }

  lemma SecurePairs(s: Session, message: Message, around: Surroundings)
    ensures PairingStep(s, HandleSecure(s, message, around).session)
  {
    if message.ConsentDecision? {
      ConsentPairs(s, message.accepted, around.now);
    } else {
      SteadyHandled(s, message, around);
      SteadyPairs(s, HandleSecure(s, message, around).session);
    }
  }

  lemma OpenedPairs(s: Session, ready: Session, message: Message, around: Surroundings)
    requires Steady(s, ready)
    ensures PairingStep(s, HandleSecure(ready, message, around).session)
  {
    SecurePairs(ready, message, around);
    SteadyThen(s, ready, HandleSecure(ready, message, around).session);
  }

  lemma UnopenedPairs(s: Session, envelope: Envelope, around: Surroundings)
    requires s.cipher.None? || Opened(s.cipher.value, envelope).None?
    ensures PairingStep(s, HandleEnvelope(s, envelope, around).session)
  {
  }

  lemma EnvelopePairs(s: Session, envelope: Envelope, around: Surroundings)
    ensures PairingStep(s, HandleEnvelope(s, envelope, around).session)
  {
    if s.cipher.Some? && Opened(s.cipher.value, envelope).Some? {
      var message := Opened(s.cipher.value, envelope).value;
      EnvelopeOpens(s, envelope, around, message);
      OpenedPairs(s, OpenedBy(s, envelope, around.now), message, around);
    } else {
      UnopenedPairs(s, envelope, around);
    }
  }

  lemma FrameDispatchPairs(s: Session, frame: Wire, around: Surroundings)
    requires !Greeting(s)
    ensures PairingStep(s, Dispatch(s, frame, around).session)
  {
    if frame.SecureFrame? {
      EnvelopePairs(s, frame.envelope, around);
    }
  }

  lemma FramePairs(s: Session, frame: Wire, around: Surroundings)
    requires !Greeting(s)
    ensures PairingStep(s, HandleWireMessage(s, frame, around))
  {
    var outcome := Dispatch(s, frame, around);
    FrameDispatchPairs(s, frame, around);
    ClosingIsSteady(outcome.session, false);
    ThenSteady(s, outcome.session, CloseWithError(outcome.session, false));
  }

  lemma ReversalAnswerIsSteady(s: Session, accepted: bool)
    ensures Steady(s, RespondToReversal(s, accepted).session)
  {
    if s.incomingReversal.Some? {
      SendingIsSteady(s.(incomingReversal := None, prompt := None), ReversalDecision(s.incomingReversal.value, accepted));
    }
  }

  lemma PairingAnswerPairs(s: Session, mode: PromptMode, accepted: bool, entered: Option<Code>, now: int)
    ensures PairingStep(s, RespondToPairing(s, mode, accepted, entered, now).session)
  {
    var sent := SendSecure(s.(prompt := None, localConsent := Some(accepted)), ConsentDecision(accepted)).session;
    SendingIsSteady(s.(prompt := None, localConsent := Some(accepted)), ConsentDecision(accepted));
    EstablishingPairs(sent, now);
    SteadyThen(s, sent, TryEstablish(sent, now));
    ClosingIsSteady(sent, true);
  }

  lemma AnswerPairs(s: Session, promptId: nat, accepted: bool, entered: Option<Code>, now: int)
    ensures PairingStep(s, RespondToPrompt(s, promptId, accepted, entered, now).session)
  {
    ReversalAnswerIsSteady(s, accepted);
    if s.prompt.Some? {
      PairingAnswerPairs(s, s.prompt.value.mode, accepted, entered, now);
    }
  }

  lemma AskingIsSteady(s: Session, limit: int, id: nat)
    ensures Steady(s, RequestDiagnostics(s, limit, id).session)
    ensures Steady(s, RequestReversal(s, id).session)
  {
    SendingIsSteady(s.(requests := s.requests[id := PendingRequest(BoundedLimit(limit), [])]),
                    DiagnosticsRequest(id, BoundedLimit(limit)));
    SendingIsSteady(s.(outgoingReversal := Some(id)), ReversalRequest(id));
  }

  lemma LeavingIsSteady(s: Session)
    ensures Steady(s, DisconnectSession(s))
  {
    SendingIsSteady(s, Message.Disconnect);
    ClosingIsSteady(SendSecure(s, Message.Disconnect).session, true);
    ClosingIsSteady(s, true);
  }

  lemma TickIsSteady(s: Session, now: int, id: nat)
    ensures Steady(s, KeepAliveTick(s, now, id).session)
  {
    ClosingIsSteady(s, false);
    SendingIsSteady(s.(pings := s.pings + {id}), Ping(id));
  }

  /** Besides what arrives, what the user answers and the trust store, nothing changes the pairing. */
  lemma OthersAreSteady(s: Session, event: Event)
    requires !event.Receive? && !event.Answer? && !event.TrustStored?
    ensures Steady(s, After(s, event))
  {
    match event
    case AskReversal(id) => AskingIsSteady(s, 1, id);
    case AskDiagnostics(limit, id) => AskingIsSteady(s, limit, id);
    case SendSignal(signal) => SendingIsSteady(s, MediaSignal(signal));
    case Tick(now, id) => TickIsSteady(s, now, id);
    case Leave => LeavingIsSteady(s);
    case _ =>
  }

  /** Past the hello, every event but the trust store's answer is a pairing step. */
  lemma EventPairs(s: Session, event: Event)
    requires !event.TrustStored? && (event.Receive? ==> !Greeting(s))
    ensures PairingStep(s, After(s, event))
  {
    match event
    case Receive(frame, around) => FramePairs(s, frame, around);
    case Answer(promptId, accepted, entered, now) => AnswerPairs(s, promptId, accepted, entered, now);
    case _ => OthersAreSteady(s, event);
  }

  /** The trust store's answer to a session that waits for it. */
  lemma StoredPairs(s: Session, now: int)
    ensures var after := ResumeEstablish(s, now);
            && after.initiator == s.initiator && after.grants == s.grants
            && (if s.suspended == 0 || s.peer.None? then after == s
                else
                  && after.suspended == s.suspended - 1
                  && after.peer == Some(s.peer.value.(paired := true)) && after.phase == Connected)
  {
  }

  // ---------- the history ----------

  /**
   A responder whose store vouched for the hello it took never writes a grant; any other is unpaired and
   unconnected until it has written one.
   */
  predicate Accounted(s: Session, vouched: bool) {
    && !s.initiator
    && (s.phase == Connected ==> s.peer.Some?)
    && (vouched ==> s.peer.Some? && s.peer.value.paired && s.grants == [] && s.suspended == 0)
    && (!vouched && s.grants == [] ==>
          s.suspended == 0 && s.phase != Connected && (s.peer.Some? ==> !s.peer.value.paired))
  }

  /** At most one grant is written, and once the trust store has answered the peer is paired. */
  predicate WritesOnce(s: Session) {
    && |s.grants| <= 1 && s.suspended <= |s.grants|
    && (|s.grants| == 1 && s.suspended == 0 ==> s.peer.Some? && s.peer.value.paired)
  }

  lemma PairingStepAccounts(s: Session, after: Session, vouched: bool)
    requires Accounted(s, vouched) && PairingStep(s, after)
    requires after.phase == Connected ==> after.peer.Some?
    ensures Accounted(after, vouched)
  {
  }

  lemma PairingStepHasPeer(s: Session, after: Session)
    requires PairingStep(s, after) && (s.phase == Connected ==> s.peer.Some?) && !s.initiator
    ensures after.phase == Connected ==> after.peer.Some?
  {
  }

  /** While the store has not answered, nothing arrives and the user is not asked. */
  predicate LeftToTheStore(s: Session, event: Event) {
    s.suspended > 0 ==> !event.Receive? && (event.Answer? ==> s.prompt.None?)
  }

  lemma SteadyWritesOnce(s: Session, after: Session)
    requires WritesOnce(s) && Steady(s, after)
    ensures WritesOnce(after)
  {
  }

  lemma StepWritesOnce(s: Session, event: Event)
    requires WritesOnce(s) && LeftToTheStore(s, event) && (event.Receive? ==> !Greeting(s))
    ensures WritesOnce(After(s, event))
  {
    if event.TrustStored? {
      StoredPairs(s, event.now);
    } else if s.suspended > 0 {
      if !event.Answer? {
        OthersAreSteady(s, event);
        SteadyWritesOnce(s, After(s, event));
      }
    } else {
      EventPairs(s, event);
    }
  }

  lemma StepAccounts(s: Session, event: Event, vouched: bool)
    requires Accounted(s, vouched) && (event.Receive? ==> !Greeting(s))
    ensures Accounted(After(s, event), vouched)
  {
    if event.TrustStored? {
      StoredPairs(s, event.now);
    } else {
      EventPairs(s, event);
      PairingStepHasPeer(s, After(s, event));
      PairingStepAccounts(s, After(s, event), vouched);
    }
  }

  // ---------- the hello ----------

  /** The responder has not taken a hello yet. */
  predicate Unmet(s: Session) { Greeting(s) && s.phase == AwaitingClientHello && !s.initiator && FreshGreeting(s) && s.peer.None? }

  /** The hello this event brings a responder that waits for one, and the store that is asked about it. */
  predicate TakesVouchedHello(s: Session, event: Event) {
    s.phase == AwaitingClientHello && event.Receive? && event.frame.ClientHelloFrame? &&
    Vouched(event.frame.clientHello, event.around.trust)
  }

  lemma MeetingHello(s: Session, hello: ClientHello, trust: Trust)
    requires Unmet(s)
    ensures var after := HandleClientHello(s, hello, trust).session;
            && !after.initiator && after.suspended == 0 && after.grants == [] && after.phase != Connected
            && (after.peer.Some? <==> VerifyClientHello(hello))
            && (after.peer.Some? ==> after.peer.value.paired == Vouched(hello, trust))
            && (after.peer.Some? ==> after.clientHello == Some(hello))
  {
  }

  lemma MeetingAccounts(s: Session, frame: Wire, around: Surroundings)
    requires Unmet(s)
    ensures var after := HandleWireMessage(s, frame, around);
            && Accounted(after, TakesVouchedHello(s, Receive(frame, around))) && WritesOnce(after)
            && (!Unmet(after) ==> !Greeting(after))
  {
    var outcome := Dispatch(s, frame, around);
    if frame.ClientHelloFrame? {
      MeetingHello(s, frame.clientHello, around.trust);
    } else {
      assert outcome == Throw(s);
    }
    ClosingIsSteady(outcome.session, false);
  }

  /** Until its hello, only closing changes a responder. */
  lemma UnmetWaits(s: Session, event: Event)
    requires Unmet(s) && !event.Receive?
    ensures var after := After(s, event);
            after.grants == [] && Accounted(after, false) && WritesOnce(after) && (Unmet(after) || !Greeting(after))
  {
    EventExtends(s, event);
    GreetingIgnoresEvents(s, event);
    if event.TrustStored? {
      StoredPairs(s, event.now);
    } else {
      EventPairs(s, event);
    }
  }

  /** A responder that still waits for its hello, or that has taken one and accounts for its pairing. */
  predicate History(s: Session, vouched: bool) {
    (Unmet(s) && !vouched) || (!Greeting(s) && Accounted(s, vouched))
  }

  lemma MeetingIsHistory(s: Session, event: Event)
    requires Unmet(s)
    ensures History(After(s, event), TakesVouchedHello(s, event))
  {
    if event.Receive? {
      MeetingAccounts(s, event.frame, event.around);
    } else {
      UnmetWaits(s, event);
    }
  }

  lemma HistoryStep(s: Session, event: Event, vouched: bool)
    requires History(s, vouched)
    ensures History(After(s, event), vouched || TakesVouchedHello(s, event))
  {
    if Unmet(s) && !vouched {
      MeetingIsHistory(s, event);
    } else {
      EventExtends(s, event);
      StepAccounts(s, event, vouched);
    }
  }

  /** The store vouched for the hello that the responder of this run took. */
  predicate VouchedIn(s: Session, events: seq<Event>)
    decreases |events|
  {
    events != [] &&
    (VouchedIn(s, events[..|events| - 1]) ||
     TakesVouchedHello(AfterAll(s, events[..|events| - 1]), events[|events| - 1]))
  }

  lemma {:induction false} RunHistory(s: Session, events: seq<Event>)
    requires Unmet(s)
    ensures History(AfterAll(s, events), VouchedIn(s, events))
    decreases |events|
  {
    if events != [] {
      var front, last := events[..|events| - 1], events[|events| - 1];
      RunHistory(s, front);
      HistoryStep(AfterAll(s, front), last, VouchedIn(s, front));
    }
  }

  lemma NewIsUnmet(own: Credentials, start: int)
    ensures Unmet(NewSession(false, own, None, start))
  {
  }

  /**
   Against any network and in any order of events: a connected responder has written no grant if and
   only if its store vouched for the hello it took.
   */
  lemma ConnectedWithoutGrantIff(own: Credentials, start: int, events: seq<Event>)
    requires AfterAll(NewSession(false, own, None, start), events).phase == Connected
    ensures AfterAll(NewSession(false, own, None, start), events).grants == [] <==>
            VouchedIn(NewSession(false, own, None, start), events)
  {
    NewIsUnmet(own, start);
    RunHistory(NewSession(false, own, None, start), events);
  }

  // ---------- the grants of a run that leaves a waiting session to its store ----------

  /** What is known of the grants of a responder. */
  predicate Recorded(s: Session, vouched: bool) { History(s, vouched) && WritesOnce(s) && GrantsAreOwn(s) }

  lemma ClientHelloGrantsNothing(a: Session, hello: ClientHello, trust: Trust)
    ensures HandleClientHello(a, hello, trust).session.grants == a.grants
  {
  }

  lemma ServerHelloGrantsNothing(a: Session, hello: ServerHello)
    ensures HandleServerHello(a, hello).session.grants == a.grants
  {
    if a.clientHello.Some? {
      SendingIsSteady(Met(a, a.clientHello.value, hello), Ready);
    }
  }

  lemma GreetingGrantsNothing(a: Session, frame: Wire, around: Surroundings)
    requires Greeting(a)
    ensures HandleWireMessage(a, frame, around).grants == a.grants
  {
    var outcome := Dispatch(a, frame, around);
    if a.phase == AwaitingClientHello && frame.ClientHelloFrame? {
      ClientHelloGrantsNothing(a, frame.clientHello, around.trust);
    } else if a.phase == AwaitingServerHello && frame.ServerHelloFrame? {
      ServerHelloGrantsNothing(a, frame.serverHello);
    } else {
      assert outcome == Throw(a);
    }
    ClosingIsSteady(outcome.session, false);
  }

  lemma MeetingIsRecorded(s: Session, event: Event)
    requires Unmet(s)
    ensures WritesOnce(After(s, event)) && After(s, event).grants == []
  {
    if event.Receive? {
      MeetingAccounts(s, event.frame, event.around);
      GreetingGrantsNothing(s, event.frame, event.around);
    } else {
      UnmetWaits(s, event);
    }
  }

  lemma RecordedStep(s: Session, event: Event, vouched: bool)
    requires Recorded(s, vouched) && LeftToTheStore(s, event)
    ensures Recorded(After(s, event), vouched || TakesVouchedHello(s, event))
  {
    HistoryStep(s, event, vouched);
    if Unmet(s) && !vouched {
      MeetingIsRecorded(s, event);
    } else {
      EventExtends(s, event);
      ExtendsKeepsGrants(s, After(s, event));
      StepWritesOnce(s, event);
    }
  }

  /** The initiator never writes a grant. */
  lemma InitiatorGrantsNothing(s: Session, event: Event)
    requires s.initiator && (event.Receive? ==> !Greeting(s))
    ensures After(s, event).grants == s.grants
  {
    if event.TrustStored? {
      StoredPairs(s, event.now);
    } else {
      EventPairs(s, event);
    }
  }
}
