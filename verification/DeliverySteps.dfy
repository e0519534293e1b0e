/** Every delivery keeps the whole invariant; a session that waits for nothing refuses exactly two of them. */
module DeliverySteps {
  import opened Wrappers
  import opened ProtocolContracts
  import opened SessionCryptography
  import opened SessionModel
  import opened Effects
  import opened Lanes
  import opened ProtocolInvariant
  import opened ProtocolSteps
  import opened OwnActions
  import opened Deliveries
  import opened Reversals
  import opened Transfers
  import opened TwoParty
  import opened Steps

  /** The answers after `a` has taken the head of the queue. */
  function AnswersAfter(a: Host, frame: Wire, answers: map<nat, Answer>): map<nat, Answer> {
    match Received(a.session, frame)
    case Some(DiagnosticsRequest(id, limit)) =>
      if a.session.phase == Connected then answers[id := Answer(limit, a.local)] else answers
    case _ => answers
  }

  /** The initiator's cancel meets a responder that is connected already. */
  predicate LateCancel(a: Session, frame: Wire) {
    a.phase == Connected && frame.SecureFrame? && Carried(frame) == ConsentDecision(false)
  }

  /** The two deliveries an open session refuses in an orderly run of honest ends. */
  predicate Refuses(a: Session, b: Session, frame: Wire) {
    (a.phase == AwaitingServerHello && WrongDevice(a, b)) || LateCancel(a, frame)
  }

  ghost predicate Deliverable(a: Host, b: Host, answers: map<nat, Answer>, nextId: nat, around: Surroundings) {
    && Safe(a, b, answers, nextId) && b.session.outbox != [] && a.session.suspended == 0
    && HasRoom(a.session) && HasRoom(b.session) && around.local == a.local
  }

  // ---------- a taken message that concerns neither reversals nor transfers ----------

  lemma PlainTakes(a: Host, after: Host, b: Host, answers: map<nat, Answer>, nextId: nat, messages: seq<Message>)
    requires Safe(a, b, answers, nextId) && b.session.outbox != []
    requires Paired(after.session, Tail(b.session)) && SmallRecords(after.local)
    requires NoReversals(HeadMessages(b)) && NoTransfers(HeadMessages(b))
    requires Plain(a, after, AgreedIntent(a.session, b.session), messages)
    ensures Safe(after, TailHost(b), answers, nextId + 1)
  {
    UninvolvedTakes(a.session, after.session, b.session, messages);
    HeadGone(a, b, answers, nextId);
    UnconcernedKeeps(a, after, TailHost(b), answers, nextId, nextId + 1, messages);
  }

  // ---------- to a closed session ----------

  lemma LateIsQuiet(a: Host, b: Host, answers: map<nat, Answer>, nextId: nat, around: Surroundings)
    requires Deliverable(a, b, answers, nextId, around) && a.session.phase == Closed
    ensures var after := HandleWireMessage(a.session, b.session.outbox[0], around);
            && after.phase == Closed && SameIdentity(a.session, after) && after.outbox == a.session.outbox
            && after.incomingReversal == a.session.incomingReversal
            && (after.outgoingReversal == a.session.outgoingReversal ||
                (after.outgoingReversal == None && b.session.outbox[0].SecureFrame? &&
                 Carried(b.session.outbox[0]).ReversalDecision?))
            && after.requests == a.session.requests && after.resolved == a.session.resolved
            && after.rejected == a.session.rejected
  {
    if a.session.cipher.Some? && b.session.outbox[0].SecureFrame? {
      LateOpens(a.session, b.session, around);
      LateForgets(Opening(a.session, around.now), Carried(b.session.outbox[0]), around);
    }
  }

  lemma LateForgets(s: Session, message: Message, around: Surroundings)
    requires s.phase == Closed && s.transportClosed && s.cipher.Some?
    ensures HandleSecure(s, message, around).session.outgoingReversal == s.outgoingReversal ||
            (message.ReversalDecision? && HandleSecure(s, message, around).session.outgoingReversal == None)
  {
  }

  lemma LateKeepsSafe(a: Host, b: Host, answers: map<nat, Answer>, nextId: nat, around: Surroundings)
    requires Deliverable(a, b, answers, nextId, around) && a.session.phase == Closed
    ensures Safe(Becomes(a, HandleWireMessage(a.session, b.session.outbox[0], around)), TailHost(b), answers, nextId + 1)
  {
    var after := Becomes(a, HandleWireMessage(a.session, b.session.outbox[0], around));
    LateDeliveryKeepsPaired(a.session, b.session, around);
    LateIsQuiet(a, b, answers, nextId, around);
    LateArrival(a.session, after.session, b.session);
    HeadGone(a, b, answers, nextId);
    SameQueue(a, after);
    UnconcernedKeeps(a, after, TailHost(b), answers, nextId, nextId + 1, []);
  }

  // ---------- the hellos ----------

  lemma ClientHelloIsPlain(a: Host, b: Host, around: Surroundings, intent: Intent)
    requires Paired(a.session, b.session) && b.session.outbox != [] && a.session.phase == AwaitingClientHello
    ensures Plain(a, Becomes(a, HandleWireMessage(a.session, b.session.outbox[0], around)), intent, [])
    ensures HeadMessages(b) == []
  {
    ClientHelloKeepsPaired(a.session, b.session, around);
    var after := Becomes(a, HandleWireMessage(a.session, b.session.outbox[0], around));
    assert b.session.outbox[0] == ClientHelloFrame(Client(a.session, b.session));
    assert after.session.outbox == a.session.outbox + [ServerHelloFrame(Server(a.session, b.session))];
    MessagesAppend(a.session.outbox, [ServerHelloFrame(Server(a.session, b.session))]);
    HelloCarriesNothing(ServerHelloFrame(Server(a.session, b.session)));
  }

  lemma HelloCarriesNothing(frame: Wire)
    requires !frame.SecureFrame?
    ensures Messages([frame]) == []
  {
    assert Messages([frame][1..]) == [];
  }

  lemma ClientHelloKeepsSafe(a: Host, b: Host, answers: map<nat, Answer>, nextId: nat, around: Surroundings)
    requires Deliverable(a, b, answers, nextId, around) && a.session.phase == AwaitingClientHello
    ensures Safe(Becomes(a, HandleWireMessage(a.session, b.session.outbox[0], around)), TailHost(b), answers, nextId + 1)
    ensures !Dispatch(a.session, b.session.outbox[0], around).threw
  {
    ClientHelloKeepsPaired(a.session, b.session, around);
    ClientHelloIsPlain(a, b, around, AgreedIntent(a.session, b.session));
    PlainTakes(a, Becomes(a, HandleWireMessage(a.session, b.session.outbox[0], around)), b, answers, nextId, []);
  }

  /** Whatever a handler throws closes the session. */
  lemma ThrownCloses(s: Session, frame: Wire, around: Surroundings, left: Session)
    requires Dispatch(s, frame, around) == Throw(left)
    ensures HandleWireMessage(s, frame, around) == CloseWithError(left, false)
  {
  }

  lemma DoneIsHandled(s: Session, frame: Wire, around: Surroundings, after: Session)
    requires Dispatch(s, frame, around) == Done(after)
    ensures HandleWireMessage(s, frame, around) == after
  {
  }

  lemma JoiningIsPlain(a: Host, hello: ServerHello, intent: Intent)
    requires InShape(a.session) && a.session.phase == AwaitingServerHello && a.session.clientHello.Some?
    ensures Plain(a, Becomes(a, Posted(Joined(a.session, hello), [Ready])), intent, [Ready])
  {
    PostedMessages(Joined(a.session, hello), [Ready]);
  }

  lemma RefusedHelloIsPlain(a: Host, b: Host, around: Surroundings, intent: Intent)
    requires Paired(a.session, b.session) && b.session.outbox != [] && a.session.phase == AwaitingServerHello
    requires WrongDevice(a.session, b.session)
    ensures Plain(a, Becomes(a, HandleWireMessage(a.session, b.session.outbox[0], around)), intent, [])
  {
    ServerHelloRefused(a.session, b.session, around);
    ThrownCloses(a.session, b.session.outbox[0], around, a.session);
    ClosingIsPlain(a, false, intent);
  }

  lemma AcceptedHelloIsPlain(a: Host, b: Host, around: Surroundings, intent: Intent)
    requires Paired(a.session, b.session) && b.session.outbox != [] && a.session.phase == AwaitingServerHello
    requires !WrongDevice(a.session, b.session)
    ensures Plain(a, Becomes(a, HandleWireMessage(a.session, b.session.outbox[0], around)), intent, [Ready])
  {
    ServerHelloArrives(a.session, b.session);
    ServerHelloAccepted(a.session, b.session, around);
    DoneIsHandled(a.session, b.session.outbox[0], around, Posted(Joined(a.session, Server(a.session, b.session)), [Ready]));
    JoiningIsPlain(a, Server(a.session, b.session), intent);
  }

  lemma ServerHelloIsPlain(a: Host, b: Host, around: Surroundings, intent: Intent) returns (messages: seq<Message>)
    requires Paired(a.session, b.session) && b.session.outbox != [] && a.session.phase == AwaitingServerHello
    ensures Plain(a, Becomes(a, HandleWireMessage(a.session, b.session.outbox[0], around)), intent, messages)
    ensures HeadMessages(b) == []
  {
    ServerHelloArrives(a.session, b.session);
    if WrongDevice(a.session, b.session) {
      RefusedHelloIsPlain(a, b, around, intent);
      messages := [];
    } else {
      AcceptedHelloIsPlain(a, b, around, intent);
      messages := [Ready];
    }
  }

  lemma ServerHelloKeepsSafe(a: Host, b: Host, answers: map<nat, Answer>, nextId: nat, around: Surroundings)
    requires Deliverable(a, b, answers, nextId, around) && a.session.phase == AwaitingServerHello
    ensures Safe(Becomes(a, HandleWireMessage(a.session, b.session.outbox[0], around)), TailHost(b), answers, nextId + 1)
    ensures Dispatch(a.session, b.session.outbox[0], around).threw <==> WrongDevice(a.session, b.session)
  {
    var after := Becomes(a, HandleWireMessage(a.session, b.session.outbox[0], around));
    ServerHelloKeepsPaired(a.session, b.session, around);
    var messages := ServerHelloIsPlain(a, b, around, AgreedIntent(a.session, b.session));
    PlainTakes(a, after, b, answers, nextId, messages);
  }

  // ---------- secure messages ----------

  /** Every secure message that reaches an open session is one its state provides for, the late cancel apart. */
  lemma MessageIsExpected(a: Host, b: Host, answers: map<nat, Answer>, nextId: nat, around: Surroundings)
    requires Deliverable(a, b, answers, nextId, around) && a.session.phase != Closed && a.session.cipher.Some?
    ensures b.session.outbox[0].SecureFrame?
    ensures LateCancel(a.session, b.session.outbox[0]) ||
            Expected(Opening(a.session, around.now), Carried(b.session.outbox[0]))
  {
    OpenExpected(a.session, b.session, around.now);
    var message := Carried(b.session.outbox[0]);
    if message.ReversalDecision? {
      DecisionIsExpected(a.session, b.session);
    } else if message.DiagnosticsBatch? && message.requestId in a.session.requests {
      BatchFits(a, b, answers, nextId, message.requestId, message.records, message.complete);
    }
  }

  lemma CancelledIsSafe(a: Host, after: Session, b: Host, answers: map<nat, Answer>, nextId: nat, around: Surroundings)
    requires Safe(a, b, answers, nextId) && b.session.outbox != [] && LateCancel(a.session, b.session.outbox[0])
    requires a.session.cipher.Some? && after == CloseWithError(Opening(a.session, around.now), false)
    requires Paired(after, Tail(b.session))
    ensures Safe(Becomes(a, after), TailHost(b), answers, nextId + 1)
  {
    CancelIsPlain(a, around, AgreedIntent(a.session, b.session));
    PlainTakes(a, Becomes(a, after), b, answers, nextId, []);
  }

  lemma CancelKeepsSafe(a: Host, b: Host, answers: map<nat, Answer>, nextId: nat, around: Surroundings)
    requires Deliverable(a, b, answers, nextId, around) && LateCancel(a.session, b.session.outbox[0])
    ensures Safe(Becomes(a, HandleWireMessage(a.session, b.session.outbox[0], around)), TailHost(b), answers, nextId + 1)
    ensures Dispatch(a.session, b.session.outbox[0], around).threw
  {
    CancelKeepsPaired(a.session, b.session, around);
    ThrownCloses(a.session, b.session.outbox[0], around, Opening(a.session, around.now));
    CancelledIsSafe(a, HandleWireMessage(a.session, b.session.outbox[0], around), b, answers, nextId, around);
  }

  lemma CancelIsPlain(a: Host, around: Surroundings, intent: Intent)
    requires InShape(a.session) && a.session.phase == Connected
    ensures Plain(a, Becomes(a, CloseWithError(Opening(a.session, around.now), false)), intent, [])
  {
    SameQueue(a, Becomes(a, CloseWithError(Opening(a.session, around.now), false)));
  }

  /** What the handler of an expected message does to the fields that reversals and transfers are about. */
  lemma HandledFields(s: Session, message: Message, around: Surroundings)
    requires InShape(s) && PeerKnown(s) && s.phase != Closed && s.suspended == 0
    requires Expected(Opening(s, around.now), message) && (s.initiator ==> !s.peer.value.paired)
    ensures var after := Handled(s, message, around);
            && SameIdentity(s, after)
            && Messages(after.outbox) == Messages(s.outbox) + Replies(Opening(s, around.now), message, around.local)
            && (!message.ReversalRequest? && !message.ReversalDecision? ==>
                  && after.outgoingReversal == s.outgoingReversal && after.incomingReversal == s.incomingReversal
                  && (after.phase == Connected ==> after.role == (if s.phase == Connected then s.role else InitialRole(s.intent, s.initiator))))
            && (after.phase != Connected && after.phase != Closed ==> s.phase != Connected)
  {
    var ready := Opening(s, around.now);
    OpeningShape(s, around.now);
    AbsorbedShape(ready, message, around);
    PostedMessages(Absorbed(ready, message, around), Replies(ready, message, around.local));
    HandledReversalFields(ready, message, around);
  }

  /** Neither the pending reversals nor the role change, unless the session connects now. */
  predicate ReversalsStay(s: Session, after: Session) {
    && after.outgoingReversal == s.outgoingReversal && after.incomingReversal == s.incomingReversal
    && (after.phase == Connected ==>
          after.role == (if s.phase == Connected then s.role else InitialRole(s.intent, s.initiator)))
    && (after.phase != Connected && after.phase != Closed ==> s.phase != Connected)
  }

  lemma ClosingLeavesReversals(s: Session, expected: bool)
    requires s.phase != Closed
    ensures ReversalsStay(s, CloseWithError(s, expected))
  {
  }

  lemma EstablishingLeavesReversals(s: Session, now: int)
    requires s.phase == AwaitingConsent
    ensures ReversalsStay(s, TryEstablish(s, now))
  {
  }

  lemma BatchLeavesReversals(s: Session, id: nat, records: seq<DiagnosticRecord>, complete: bool)
    ensures ReversalsStay(s, HandleDiagnosticsBatch(s, id, records, complete).session)
  {
  }

  lemma HandledReversalFields(s: Session, message: Message, around: Surroundings)
    requires InShape(s) && PeerKnown(s) && s.phase != Closed && Expected(s, message)
    ensures var after := Absorbed(s, message, around);
            && (!message.ReversalRequest? && !message.ReversalDecision? ==> ReversalsStay(s, after))
            && (after.phase != Connected && after.phase != Closed ==> s.phase != Connected)
  {
    match message
    case ConsentDecision(accepted) =>
      var heard := s.(remoteConsent := Some(accepted));
      if accepted {
        EstablishingLeavesReversals(heard, around.now);
      } else {
        ClosingLeavesReversals(heard, true);
      }
    case Disconnect => ClosingLeavesReversals(s, true);
    case ProtocolError => ClosingLeavesReversals(s, false);
    case DiagnosticsBatch(id, records, complete) => BatchLeavesReversals(s, id, records, complete);
    case _ =>
  }

  lemma BatchIgnoresOpening(s: Session, now: int, id: nat, records: seq<DiagnosticRecord>, complete: bool)
    requires s.cipher.Some?
    ensures var opening := HandleDiagnosticsBatch(Opening(s, now), id, records, complete).session;
            var outcome := HandleDiagnosticsBatch(s, id, records, complete).session;
            && opening.requests == outcome.requests && opening.resolved == outcome.resolved
            && opening.rejected == outcome.rejected && opening.phase == outcome.phase == s.phase
            && opening.cipher.Some?
  {
    var ready := Opening(s, now);
    assert ready.requests == s.requests && ready.resolved == s.resolved && ready.rejected == s.rejected;
    if id in s.requests {
      var collected := s.requests[id].records + records;
      if |collected| > s.requests[id].limit {
      } else if complete {
      } else {
      }
    }
  }

  lemma BatchChangesRequests(s: Session, id: nat, records: seq<DiagnosticRecord>, complete: bool, around: Surroundings)
    requires s.cipher.Some?
    ensures var after := Handled(s, DiagnosticsBatch(id, records, complete), around);
            var outcome := HandleDiagnosticsBatch(s, id, records, complete).session;
            && after.requests == outcome.requests && after.resolved == outcome.resolved
            && after.rejected == outcome.rejected && after.phase == s.phase
  {
    BatchIgnoresOpening(s, around.now, id, records, complete);
  }

  /** The requests stay, or the session closes and rejects them. */
  predicate RequestsStay(s: Session, after: Session) {
    && after.resolved == s.resolved
    && ((after.requests == s.requests && after.rejected == s.rejected) ||
        (after.requests == map[] && after.rejected == s.rejected + s.requests.Keys))
  }

  lemma ClosingLeavesRequests(s: Session, expected: bool)
    ensures RequestsStay(s, CloseWithError(s, expected))
  {
  }

  lemma EstablishingLeavesRequests(s: Session, now: int)
    ensures RequestsStay(s, TryEstablish(s, now))
  {
  }

  lemma ConsentLeavesRequests(s: Session, message: Message, around: Surroundings)
    requires s.phase == AwaitingConsent || !message.ConsentDecision?
    requires message.ConsentDecision? || message.Disconnect? || message.ProtocolError?
    ensures RequestsStay(s, Absorbed(s, message, around))
  {
    match message
    case ConsentDecision(accepted) =>
      var heard := s.(remoteConsent := Some(accepted));
      if accepted {
        EstablishingLeavesRequests(heard, around.now);
      } else {
        ClosingLeavesRequests(heard, true);
      }
    case Disconnect => ClosingLeavesRequests(s, true);
    case ProtocolError => ClosingLeavesRequests(s, false);
  }

  lemma OthersLeaveRequests(s: Session, message: Message, around: Surroundings)
    requires InShape(s) && PeerKnown(s) && Expected(s, message) && !message.DiagnosticsBatch?
    requires !message.ConsentDecision? && !message.Disconnect? && !message.ProtocolError?
    ensures RequestsStay(s, Absorbed(s, message, around))
    ensures message.DiagnosticsRequest? ==> Absorbed(s, message, around) == s
  {
  }

  lemma HandledRequests(s: Session, message: Message, around: Surroundings)
    requires InShape(s) && PeerKnown(s) && s.phase != Closed && !message.DiagnosticsBatch?
    requires Expected(Opening(s, around.now), message)
    ensures RequestsStay(s, Handled(s, message, around))
    ensures message.DiagnosticsRequest? ==>
              var after := Handled(s, message, around);
              after.requests == s.requests && after.rejected == s.rejected && after.phase == s.phase
  {
    var ready := Opening(s, around.now);
    OpeningShape(s, around.now);
    if message.ConsentDecision? || message.Disconnect? || message.ProtocolError? {
      ConsentLeavesRequests(ready, message, around);
    } else {
      OthersLeaveRequests(ready, message, around);
    }
  }

  // ---------- all secure messages together ----------

  lemma OneHeadMessage(b: Host)
    requires b.session.outbox != [] && b.session.outbox[0].SecureFrame?
    ensures HeadMessages(b) == [Carried(b.session.outbox[0])]
  {
  }

  lemma RepliesConcern(s: Session, message: Message, around: Surroundings)
    requires !message.DiagnosticsRequest?
    ensures NoTransfers(Replies(s, message, around.local))
    ensures !message.ReversalRequest? ==> NoReversals(Replies(s, message, around.local))
  {
  }

  lemma BatchesConcern(id: nat, records: seq<DiagnosticRecord>)
    ensures NoReversals(Batches(id, records))
  {
    BatchesFromShape(id, records, 0);
    forall k | 0 <= k < |Batches(id, records)|
      ensures !Batches(id, records)[k].ReversalRequest? && !Batches(id, records)[k].ReversalDecision?
    {
      assert Batches(id, records)[k] in Batches(id, records);
    }
  }

  /** The circumstances of an expected message. */
  ghost predicate Expecting(a: Host, b: Host, answers: map<nat, Answer>, nextId: nat, around: Surroundings) {
    && Deliverable(a, b, answers, nextId, around) && a.session.phase != Closed && a.session.cipher.Some?
    && b.session.outbox[0].SecureFrame?
    && Expected(Opening(a.session, around.now), Carried(b.session.outbox[0]))
  }

  lemma OtherMessagesAreUninvolved(s: Session, message: Message, around: Surroundings, intent: Intent)
    requires InShape(s) && PeerKnown(s) && s.phase != Closed && s.suspended == 0 && s.intent == Some(intent)
    requires Expected(Opening(s, around.now), message) && (s.initiator ==> !s.peer.value.paired)
    requires !message.ReversalRequest? && !message.ReversalDecision?
    ensures Uninvolved(s, Handled(s, message, around), intent, Replies(Opening(s, around.now), message, around.local))
    ensures NoReversals([message])
    ensures Messages(Handled(s, message, around).outbox) ==
            Messages(s.outbox) + Replies(Opening(s, around.now), message, around.local)
  {
    HandledFields(s, message, around);
    if message.DiagnosticsRequest? {
      BatchesConcern(message.requestId, LastRecords(around.local, message.limit));
    } else {
      RepliesConcern(Opening(s, around.now), message, around);
    }
  }

  /** The reversal side of an expected message. */
  lemma ExpectedKeepsReversals(a: Host, b: Host, answers: map<nat, Answer>, nextId: nat, around: Surroundings)
    requires Expecting(a, b, answers, nextId, around)
    ensures ReversalSafe(Handled(a.session, Carried(b.session.outbox[0]), around), Tail(b.session))
  {
    var message := Carried(b.session.outbox[0]);
    if message.ReversalRequest? {
      RequestArrives(a.session, b.session, around);
    } else if message.ReversalDecision? {
      DecisionArrives(a.session, b.session, around);
    } else {
      OtherMessagesAreUninvolved(a.session, message, around, AgreedIntent(a.session, b.session));
      UninvolvedTakes(a.session, Handled(a.session, message, around), b.session,
                      Replies(Opening(a.session, around.now), message, around.local));
    }
  }

  lemma RequestKeepsTransfers(a: Host, b: Host, answers: map<nat, Answer>, nextId: nat, around: Surroundings)
    requires Expecting(a, b, answers, nextId, around) && Carried(b.session.outbox[0]).DiagnosticsRequest?
    ensures var message := Carried(b.session.outbox[0]);
            TransferSafe(Becomes(a, Handled(a.session, message, around)), TailHost(b),
                         answers[message.requestId := Answer(message.limit, a.local)], nextId)
  {
    var message := Carried(b.session.outbox[0]);
    OneHeadMessage(b);
    HandledFields(a.session, message, around);
    HandledRequests(a.session, message, around);
    AnsweringKeepsTransfers(a, Becomes(a, Handled(a.session, message, around)), b, answers, nextId,
                            message.requestId, message.limit);
  }

  lemma BatchMessageKeepsTransfers(a: Host, b: Host, answers: map<nat, Answer>, nextId: nat, around: Surroundings)
    requires Expecting(a, b, answers, nextId, around) && Carried(b.session.outbox[0]).DiagnosticsBatch?
    ensures TransferSafe(Becomes(a, Handled(a.session, Carried(b.session.outbox[0]), around)), TailHost(b), answers, nextId)
  {
    var message := Carried(b.session.outbox[0]);
    OneHeadMessage(b);
    HandledFields(a.session, message, around);
    assert Replies(Opening(a.session, around.now), message, around.local) == [];
    BatchChangesRequests(a.session, message.requestId, message.records, message.complete, around);
    BatchKeepsTransfers(a, Becomes(a, Handled(a.session, message, around)), b, answers, nextId,
                        message.requestId, message.records, message.complete);
  }

  lemma OtherMessagesAreUnconcerned(a: Host, message: Message, around: Surroundings)
    requires var s := a.session;
             && InShape(s) && PeerKnown(s) && s.phase != Closed && s.suspended == 0
             && Expected(Opening(s, around.now), message) && (s.initiator ==> !s.peer.value.paired)
    requires !message.DiagnosticsBatch? && !message.DiagnosticsRequest?
    ensures var replies := Replies(Opening(a.session, around.now), message, around.local);
            var after := Becomes(a, Handled(a.session, message, around));
            NoTransfers(replies) && KeepsRequests(a, after) && QueueGrows(a, after, replies) && NoTransfers([message])
  {
    HandledFields(a.session, message, around);
    HandledRequests(a.session, message, around);
    RepliesConcern(Opening(a.session, around.now), message, around);
  }

  lemma OtherMessageKeepsTransfers(a: Host, b: Host, answers: map<nat, Answer>, nextId: nat, around: Surroundings)
    requires Expecting(a, b, answers, nextId, around)
    requires !Carried(b.session.outbox[0]).DiagnosticsBatch? && !Carried(b.session.outbox[0]).DiagnosticsRequest?
    ensures TransferSafe(Becomes(a, Handled(a.session, Carried(b.session.outbox[0]), around)), TailHost(b), answers, nextId)
  {
    var message := Carried(b.session.outbox[0]);
    OneHeadMessage(b);
    OtherMessagesAreUnconcerned(a, message, around);
    HeadGone(a, b, answers, nextId);
    UnconcernedKeeps(a, Becomes(a, Handled(a.session, message, around)), TailHost(b), answers, nextId, nextId,
                     Replies(Opening(a.session, around.now), message, around.local));
  }

  /** What an expected message does to the record of answers. */
  lemma AnswersOf(a: Host, b: Host, answers: map<nat, Answer>, nextId: nat, around: Surroundings)
    requires Expecting(a, b, answers, nextId, around)
    ensures var message := Carried(b.session.outbox[0]);
            AnswersAfter(a, b.session.outbox[0], answers) ==
            if message.DiagnosticsRequest?
            then answers[message.requestId := Answer(message.limit, a.local)] else answers
  {
    HeadOpens(a.session, b.session);
  }

  /** The transfer side of an expected message. */
  lemma ExpectedKeepsTransfers(a: Host, b: Host, answers: map<nat, Answer>, nextId: nat, around: Surroundings)
    requires Expecting(a, b, answers, nextId, around)
    ensures TransferSafe(Becomes(a, Handled(a.session, Carried(b.session.outbox[0]), around)), TailHost(b),
                         AnswersAfter(a, b.session.outbox[0], answers), nextId)
  {
    AnswersOf(a, b, answers, nextId, around);
    if Carried(b.session.outbox[0]).DiagnosticsRequest? {
      RequestKeepsTransfers(a, b, answers, nextId, around);
    } else if Carried(b.session.outbox[0]).DiagnosticsBatch? {
      BatchMessageKeepsTransfers(a, b, answers, nextId, around);
    } else {
      OtherMessageKeepsTransfers(a, b, answers, nextId, around);
    }
  }

  lemma ExpectedKeepsSafe(a: Host, b: Host, answers: map<nat, Answer>, nextId: nat, around: Surroundings)
    requires Expecting(a, b, answers, nextId, around)
    ensures Safe(Becomes(a, HandleWireMessage(a.session, b.session.outbox[0], around)), TailHost(b),
                 AnswersAfter(a, b.session.outbox[0], answers), nextId + 1)
    ensures !Dispatch(a.session, b.session.outbox[0], around).threw
  {
    ExpectedDispatch(a.session, b.session, around);
    ExpectedKeepsPaired(a.session, b.session, around);
    ExpectedKeepsReversals(a, b, answers, nextId, around);
    ExpectedKeepsTransfers(a, b, answers, nextId, around);
    LaterId(Becomes(a, Handled(a.session, Carried(b.session.outbox[0]), around)), TailHost(b),
            AnswersAfter(a, b.session.outbox[0], answers), nextId);
  }

  /** What a delivery is meant to keep and to refuse. */
  ghost predicate DeliveredWell(a: Host, b: Host, answers: map<nat, Answer>, nextId: nat, around: Surroundings)
    requires b.session.outbox != []
  {
    && Safe(Becomes(a, HandleWireMessage(a.session, b.session.outbox[0], around)), TailHost(b),
            AnswersAfter(a, b.session.outbox[0], answers), nextId + 1)
    && (a.session.phase != Closed ==>
          (Dispatch(a.session, b.session.outbox[0], around).threw <==>
           Refuses(a.session, b.session, b.session.outbox[0])))
  }

  lemma LateDelivered(a: Host, b: Host, answers: map<nat, Answer>, nextId: nat, around: Surroundings)
    requires Deliverable(a, b, answers, nextId, around) && a.session.phase == Closed
    ensures DeliveredWell(a, b, answers, nextId, around)
  {
    LateKeepsSafe(a, b, answers, nextId, around);
    LateAnswersNothing(a, b.session.outbox[0], answers);
    LateIsDeliveredWell(a, b, answers, nextId, around);
  }

  lemma LateAnswersNothing(a: Host, frame: Wire, answers: map<nat, Answer>)
    requires a.session.phase == Closed
    ensures AnswersAfter(a, frame, answers) == answers
  {
  }

  lemma LateIsDeliveredWell(a: Host, b: Host, answers: map<nat, Answer>, nextId: nat, around: Surroundings)
    requires b.session.outbox != [] && a.session.phase == Closed && AnswersAfter(a, b.session.outbox[0], answers) == answers
    requires Safe(Becomes(a, HandleWireMessage(a.session, b.session.outbox[0], around)), TailHost(b), answers, nextId + 1)
    ensures DeliveredWell(a, b, answers, nextId, around)
  {
  }

  lemma ClientHelloDelivered(a: Host, b: Host, answers: map<nat, Answer>, nextId: nat, around: Surroundings)
    requires Deliverable(a, b, answers, nextId, around) && a.session.phase == AwaitingClientHello
    ensures DeliveredWell(a, b, answers, nextId, around)
  {
    ClientHelloKeepsSafe(a, b, answers, nextId, around);
  }

  lemma ServerHelloDelivered(a: Host, b: Host, answers: map<nat, Answer>, nextId: nat, around: Surroundings)
    requires Deliverable(a, b, answers, nextId, around) && a.session.phase == AwaitingServerHello
    ensures DeliveredWell(a, b, answers, nextId, around)
  {
    ServerHelloKeepsSafe(a, b, answers, nextId, around);
  }

  lemma CancelAnswersNothing(a: Session, b: Session, frame: Wire)
    requires Paired(a, b) && b.outbox != [] && frame == b.outbox[0] && LateCancel(a, frame) && HasRoom(b)
    ensures Received(a, frame) == Some(ConsentDecision(false))
  {
    HeadOpens(a, b);
  }

  lemma CancelDelivered(a: Host, b: Host, answers: map<nat, Answer>, nextId: nat, around: Surroundings)
    requires Deliverable(a, b, answers, nextId, around) && LateCancel(a.session, b.session.outbox[0])
    ensures DeliveredWell(a, b, answers, nextId, around)
  {
    CancelKeepsSafe(a, b, answers, nextId, around);
    CancelAnswersNothing(a.session, b.session, b.session.outbox[0]);
    SafeIsDeliveredWell(a, b, answers, nextId, around, answers);
  }

  lemma SafeIsDeliveredWell(a: Host, b: Host, answers: map<nat, Answer>, nextId: nat, around: Surroundings,
                            after: map<nat, Answer>)
    requires b.session.outbox != [] && after == AnswersAfter(a, b.session.outbox[0], answers)
    requires Safe(Becomes(a, HandleWireMessage(a.session, b.session.outbox[0], around)), TailHost(b), after, nextId + 1)
    requires Dispatch(a.session, b.session.outbox[0], around).threw && Refuses(a.session, b.session, b.session.outbox[0])
    ensures DeliveredWell(a, b, answers, nextId, around)
  {
  }

  lemma ExpectedDelivered(a: Host, b: Host, answers: map<nat, Answer>, nextId: nat, around: Surroundings)
    requires Expecting(a, b, answers, nextId, around) && a.session.phase != AwaitingServerHello
    requires !LateCancel(a.session, b.session.outbox[0])
    ensures DeliveredWell(a, b, answers, nextId, around)
  {
    ExpectedKeepsSafe(a, b, answers, nextId, around);
  }

  lemma SecureDelivered(a: Host, b: Host, answers: map<nat, Answer>, nextId: nat, around: Surroundings)
    requires Deliverable(a, b, answers, nextId, around) && a.session.phase != Closed && a.session.cipher.Some?
    requires a.session.phase != AwaitingServerHello
    ensures DeliveredWell(a, b, answers, nextId, around)
  {
    MessageIsExpected(a, b, answers, nextId, around);
    if LateCancel(a.session, b.session.outbox[0]) {
      CancelDelivered(a, b, answers, nextId, around);
    } else {
      ExpectedDelivered(a, b, answers, nextId, around);
    }
  }

  /** Every delivery keeps the invariant; an open session refuses exactly a wrong device and a late cancel. */
  lemma DeliveryKeepsSafe(a: Host, b: Host, answers: map<nat, Answer>, nextId: nat, around: Surroundings)
    requires Deliverable(a, b, answers, nextId, around)
    ensures DeliveredWell(a, b, answers, nextId, around)
  {
    if a.session.phase == Closed {
      LateDelivered(a, b, answers, nextId, around);
    } else if a.session.phase == AwaitingClientHello {
      ClientHelloDelivered(a, b, answers, nextId, around);
    } else if a.session.phase == AwaitingServerHello {
      ServerHelloDelivered(a, b, answers, nextId, around);
    } else {
      SecureDelivered(a, b, answers, nextId, around);
    }
  }
}
