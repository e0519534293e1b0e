/** The whole invariant of the two computers, and that every orderly step keeps it. */
module Steps {
  import opened Wrappers
  import opened ProtocolContracts
  import opened SessionCryptography
  import opened SessionModel
  import opened Effects
  import opened Lanes
  import opened ProtocolInvariant
  import opened ProtocolSteps
  import opened OwnActions
  import opened Reversals
  import opened Transfers
  import opened TwoParty

  ghost predicate Safe(a: Host, b: Host, answers: map<nat, Answer>, nextId: nat) {
    && Paired(a.session, b.session)
    && ReversalSafe(a.session, b.session)
    && TransferSafe(a, b, answers, nextId)
    && SmallRecords(a.local) && SmallRecords(b.local)
  }

  lemma SafeIsSymmetric(a: Host, b: Host, answers: map<nat, Answer>, nextId: nat)
    requires Safe(a, b, answers, nextId)
    ensures Safe(b, a, answers, nextId)
  {
    SameLanes(a.session, a.session, b.session, b.session);
  }

  ghost predicate Invariant(w: World) {
    Safe(w.initiator, w.responder, w.answers, w.nextId) && w.initiator.session.initiator
  }

  lemma InvariantAt(w: World, side: Side)
    requires Invariant(w)
    ensures Safe(HostAt(w, side), HostAt(w, Other(side)), w.answers, w.nextId)
    ensures At(w, side).initiator <==> side == AtInitiator
  {
    SafeIsSymmetric(w.initiator, w.responder, w.answers, w.nextId);
  }

  /** Back from the view of one side to the world. */
  lemma InvariantFrom(w: World, side: Side)
    requires Safe(HostAt(w, side), HostAt(w, Other(side)), w.answers, w.nextId)
    requires At(w, side).initiator <==> side == AtInitiator
    ensures Invariant(w)
  {
    SafeIsSymmetric(HostAt(w, side), HostAt(w, Other(side)), w.answers, w.nextId);
  }

  // ---------- steps of one session ----------

  /** A step that concerns neither reversals nor transfers. */
  predicate Plain(a: Host, after: Host, intent: Intent, messages: seq<Message>) {
    && Uninvolved(a.session, after.session, intent, messages)
    && KeepsRequests(a, after)
    && QueueGrows(a, after, messages) && NoTransfers(messages)
  }

  lemma PlainKeeps(a: Host, after: Host, b: Host, answers: map<nat, Answer>, nextId: nat, later: nat, messages: seq<Message>)
    requires Safe(a, b, answers, nextId) && nextId <= later
    requires Paired(after.session, b.session) && SmallRecords(after.local)
    requires Plain(a, after, AgreedIntent(a.session, b.session), messages)
    ensures Safe(after, b, answers, later)
  {
    UninvolvedKeeps(a.session, after.session, b.session, messages);
    UnconcernedKeeps(a, after, b, answers, nextId, later, messages);
  }

  function Becomes(a: Host, s: Session): Host { a.(session := s) }

  lemma SameQueue(a: Host, after: Host)
    requires after.session.outbox == a.session.outbox
    ensures QueueGrows(a, after, [])
  {
  }

  lemma ClosingIsPlain(a: Host, expected: bool, intent: Intent)
    requires InShape(a.session)
    ensures Plain(a, Becomes(a, CloseWithError(a.session, expected)), intent, [])
  {
    SameQueue(a, Becomes(a, CloseWithError(a.session, expected)));
  }

  lemma ClosingKeepsSafe(a: Host, b: Host, answers: map<nat, Answer>, nextId: nat, expected: bool)
    requires Safe(a, b, answers, nextId) && a.session.suspended == 0
    ensures Safe(Becomes(a, CloseWithError(a.session, expected)), b, answers, nextId)
  {
    ClosingKeepsPaired(a.session, b.session, expected);
    ClosingIsPlain(a, expected, AgreedIntent(a.session, b.session));
    PlainKeeps(a, Becomes(a, CloseWithError(a.session, expected)), b, answers, nextId, nextId, []);
  }

  lemma DisposingIsPlain(a: Host, intent: Intent)
    ensures Plain(a, Becomes(a, Dispose(a.session)), intent, [])
  {
    SameQueue(a, Becomes(a, Dispose(a.session)));
  }

  lemma DisposeKeepsSafe(a: Host, b: Host, answers: map<nat, Answer>, nextId: nat)
    requires Safe(a, b, answers, nextId) && a.session.suspended == 0
    ensures Safe(Becomes(a, Dispose(a.session)), b, answers, nextId)
  {
    DisposeKeepsPaired(a.session, b.session);
    DisposingIsPlain(a, AgreedIntent(a.session, b.session));
    PlainKeeps(a, Becomes(a, Dispose(a.session)), b, answers, nextId, nextId, []);
  }

  lemma TransportGoneIsPlain(a: Host, intent: Intent)
    requires InShape(a.session)
    ensures Plain(a, Becomes(a, TransportGone(a.session)), intent, [])
  {
    SameQueue(a, Becomes(a, TransportGone(a.session)));
  }

  lemma TransportGoneKeepsSafe(a: Host, b: Host, answers: map<nat, Answer>, nextId: nat)
    requires Safe(a, b, answers, nextId) && a.session.suspended == 0
    ensures Safe(Becomes(a, TransportGone(a.session)), b, answers, nextId)
  {
    TransportGoneKeepsPaired(a.session, b.session);
    TransportGoneIsPlain(a, AgreedIntent(a.session, b.session));
    PlainKeeps(a, Becomes(a, TransportGone(a.session)), b, answers, nextId, nextId, []);
  }

  lemma DisconnectIsPlain(a: Host, intent: Intent)
    requires InShape(a.session) && HasRoom(a.session)
    ensures exists messages :: Plain(a, Becomes(a, DisconnectSession(a.session)), intent, messages)
  {
    var after := Becomes(a, DisconnectSession(a.session));
    if a.session.cipher.Some? && a.session.phase != Closed {
      SendSecureFits(a.session, Disconnect);
      PostedMessages(a.session, [Disconnect]);
      assert Plain(a, after, intent, [Disconnect]);
    } else {
      SameQueue(a, after);
      assert Plain(a, after, intent, []);
    }
  }

  lemma DisconnectKeepsSafe(a: Host, b: Host, answers: map<nat, Answer>, nextId: nat)
    requires Safe(a, b, answers, nextId) && a.session.suspended == 0 && HasRoom(a.session)
    ensures Safe(Becomes(a, DisconnectSession(a.session)), b, answers, nextId)
  {
    DisconnectKeepsPaired(a.session, b.session);
    DisconnectIsPlain(a, AgreedIntent(a.session, b.session));
    var messages :| Plain(a, Becomes(a, DisconnectSession(a.session)), AgreedIntent(a.session, b.session), messages);
    PlainKeeps(a, Becomes(a, DisconnectSession(a.session)), b, answers, nextId, nextId, messages);
  }

  /** A posting that `MayPost` allows, without a reversal or a transfer. */
  lemma PostingIsPlain(a: Host, changed: Session, message: Message, intent: Intent)
    requires MayPost(a.session, changed, message)
    requires changed.outgoingReversal == a.session.outgoingReversal && changed.incomingReversal == a.session.incomingReversal
    requires changed.role == a.session.role && changed.requests == a.session.requests
    requires changed.resolved == a.session.resolved && changed.rejected == a.session.rejected
    requires !message.ReversalRequest? && !message.ReversalDecision? && !message.DiagnosticsRequest? && !message.DiagnosticsBatch?
    ensures Plain(a, Becomes(a, Posted(changed, [message])), intent, [message])
  {
    PostedMessages(changed, [message]);
  }

  lemma SignalKeepsSafe(a: Host, b: Host, answers: map<nat, Answer>, nextId: nat, signal: Signal)
    requires Safe(a, b, answers, nextId) && HasRoom(a.session) && SmallSignal(signal)
    ensures Safe(Becomes(a, SendMediaSignal(a.session, signal).session), b, answers, nextId)
  {
    SendMediaSignalPosts(a.session, signal);
    if a.session.phase == Connected {
      PostingStep(a.session, a.session, b.session, MediaSignal(signal));
      PostingIsPlain(a, a.session, MediaSignal(signal), AgreedIntent(a.session, b.session));
      PlainKeeps(a, Becomes(a, Posted(a.session, [MediaSignal(signal)])), b, answers, nextId, nextId, [MediaSignal(signal)]);
    }
  }

  lemma PingKeepsSafe(a: Host, b: Host, answers: map<nat, Answer>, nextId: nat)
    requires Safe(a, b, answers, nextId) && HasRoom(a.session) && a.session.keepAliveTimer
    ensures Safe(Becomes(a, SendSecure(a.session.(pings := a.session.pings + {nextId}), Ping(nextId)).session), b,
                 answers, nextId + 1)
  {
    var changed := a.session.(pings := a.session.pings + {nextId});
    PingPosts(a.session, nextId);
    PostingStep(a.session, changed, b.session, Ping(nextId));
    PostingIsPlain(a, changed, Ping(nextId), AgreedIntent(a.session, b.session));
    PlainKeeps(a, Becomes(a, Posted(changed, [Ping(nextId)])), b, answers, nextId, nextId + 1, [Ping(nextId)]);
  }

  lemma LaterId(a: Host, b: Host, answers: map<nat, Answer>, nextId: nat)
    requires Safe(a, b, answers, nextId)
    ensures Safe(a, b, answers, nextId + 1)
  {
  }

  lemma TickKeepsSafe(a: Host, b: Host, answers: map<nat, Answer>, nextId: nat, now: int)
    requires Safe(a, b, answers, nextId) && HasRoom(a.session) && a.session.keepAliveTimer
    requires now - a.session.lastSecureAt > HealthTimeout(a.session) ==> a.session.suspended == 0
    ensures Safe(Becomes(a, KeepAliveTick(a.session, now, nextId).session), b, answers, nextId + 1)
  {
    if now - a.session.lastSecureAt > HealthTimeout(a.session) {
      ClosingKeepsSafe(a, b, answers, nextId, false);
      LaterId(Becomes(a, CloseWithError(a.session, false)), b, answers, nextId);
    } else {
      PingKeepsSafe(a, b, answers, nextId);
    }
  }

  /** A resumed session gets the role it was counted with all along. */
  lemma ResumingIsPlain(a: Host, intent: Intent, now: int)
    requires InShape(a.session) && (a.session.suspended > 0 ==> a.session.intent == Some(intent))
    ensures Plain(a, Becomes(a, ResumeEstablish(a.session, now)), intent, [])
  {
    SameQueue(a, Becomes(a, ResumeEstablish(a.session, now)));
  }

  lemma ResumeKeepsSafe(a: Host, b: Host, answers: map<nat, Answer>, nextId: nat, now: int)
    requires Safe(a, b, answers, nextId)
    ensures Safe(Becomes(a, ResumeEstablish(a.session, now)), b, answers, nextId)
  {
    ResumeKeepsPaired(a.session, b.session, now);
    ResumingIsPlain(a, AgreedIntent(a.session, b.session), now);
    PlainKeeps(a, Becomes(a, ResumeEstablish(a.session, now)), b, answers, nextId, nextId, []);
  }

  lemma AskReversalKeepsTransfers(a: Host, b: Host, answers: map<nat, Answer>, nextId: nat)
    requires TransferSafe(a, b, answers, nextId) && InShape(a.session) && HasRoom(a.session)
    ensures TransferSafe(Becomes(a, RequestReversal(a.session, nextId).session), b, answers, nextId + 1)
  {
    RequestReversalPosts(a.session, nextId);
    if a.session.phase == Connected && a.session.outgoingReversal.None? {
      var changed := a.session.(outgoingReversal := Some(nextId));
      PostedMessages(changed, [ReversalRequest(nextId)]);
      UnconcernedKeeps(a, Becomes(a, Posted(changed, [ReversalRequest(nextId)])), b, answers, nextId, nextId + 1,
                       [ReversalRequest(nextId)]);
    }
  }

  lemma AskReversalKeepsSafe(a: Host, b: Host, answers: map<nat, Answer>, nextId: nat)
    requires Safe(a, b, answers, nextId) && HasRoom(a.session)
    ensures Safe(Becomes(a, RequestReversal(a.session, nextId).session), b, answers, nextId + 1)
  {
    RequestReversalKeepsPaired(a.session, b.session, nextId);
    AskingKeeps(a.session, b.session, nextId);
    AskReversalKeepsTransfers(a, b, answers, nextId);
  }

  /** Asking for diagnostics concerns no reversal. */
  lemma AskingKeepsReversals(a: Session, after: Session, b: Session, limit: int, id: nat)
    requires Paired(a, b) && ReversalSafe(a, b) && HasRoom(a) && a.phase == Connected
    requires after == RequestDiagnostics(a, limit, id).session
    ensures ReversalSafe(after, b)
  {
    var message := DiagnosticsRequest(id, BoundedLimit(limit));
    RequestDiagnosticsPosts(a, limit, id);
    PostedMessages(Asking(a, limit, id), [message]);
    UninvolvedKeeps(a, Posted(Asking(a, limit, id), [message]), b, [message]);
  }

  lemma AskedKeepsSafe(a: Host, after: Host, b: Host, answers: map<nat, Answer>, nextId: nat, limit: int)
    requires Safe(a, b, answers, nextId) && HasRoom(a.session) && a.session.phase == Connected
    requires after == a.(session := RequestDiagnostics(a.session, limit, nextId).session,
                         issued := a.issued[nextId := BoundedLimit(limit)])
    ensures Safe(after, b, answers, nextId + 1)
  {
    RequestDiagnosticsKeepsPaired(a.session, b.session, limit, nextId);
    AskingKeepsReversals(a.session, after.session, b.session, limit, nextId);
    IssuingKeeps(a, b, answers, nextId, limit);
  }

  lemma AskDiagnosticsKeepsSafe(a: Host, b: Host, answers: map<nat, Answer>, nextId: nat, limit: int)
    requires Safe(a, b, answers, nextId) && HasRoom(a.session)
    ensures Safe(a.(session := RequestDiagnostics(a.session, limit, nextId).session,
                    issued := if a.session.phase == Connected then a.issued[nextId := BoundedLimit(limit)] else a.issued),
                 b, answers, nextId + 1)
  {
    if a.session.phase == Connected {
      AskedKeepsSafe(a, a.(session := RequestDiagnostics(a.session, limit, nextId).session,
                           issued := a.issued[nextId := BoundedLimit(limit)]), b, answers, nextId, limit);
    } else {
      LaterId(a, b, answers, nextId);
      assert RequestDiagnostics(a.session, limit, nextId) == Throw(a.session);
    }
  }

  lemma ExpiringIsUninvolved(a: Host, id: nat, intent: Intent)
    ensures Uninvolved(a.session, RequestTimeout(a.session, id), intent, [])
    ensures QueueGrows(a, Becomes(a, RequestTimeout(a.session, id)), [])
  {
    SameQueue(a, Becomes(a, RequestTimeout(a.session, id)));
  }

  lemma ExpireKeepsSafe(a: Host, b: Host, answers: map<nat, Answer>, nextId: nat, id: nat)
    requires Safe(a, b, answers, nextId)
    ensures Safe(Becomes(a, RequestTimeout(a.session, id)), b, answers, nextId)
  {
    RequestTimeoutKeepsPaired(a.session, b.session, id);
    ExpiringKeeps(a, b, answers, nextId, id);
    ExpiringIsUninvolved(a, id, AgreedIntent(a.session, b.session));
    UninvolvedKeeps(a.session, RequestTimeout(a.session, id), b.session, []);
  }

  // ---------- answering prompts ----------

  lemma ReversalAnswerIsUnconcerned(a: Host, accepted: bool)
    requires InShape(a.session) && HasRoom(a.session)
    requires a.session.prompt.Some? && a.session.prompt.value.kind == Reversal
    ensures var after := Becomes(a, RespondToReversal(a.session, accepted).session);
            && KeepsRequests(a, after)
            && (a.session.phase == Connected ==>
                  a.session.incomingReversal.Some? &&
                  QueueGrows(a, after, [ReversalDecision(a.session.incomingReversal.value, accepted)]))
            && (a.session.phase != Connected ==> a.session.phase == Closed && QueueGrows(a, after, []))
  {
    var after := Becomes(a, RespondToReversal(a.session, accepted).session);
    if a.session.phase == Connected {
      RespondToReversalPosts(a.session, accepted);
      PostedMessages(Reversed(a.session, accepted), [ReversalDecision(a.session.incomingReversal.value, accepted)]);
    } else {
      SameQueue(a, after);
    }
  }

  lemma AnswerReversalKeepsStanding(a: Session, b: Session, accepted: bool)
    requires Paired(a, b) && ReversalSafe(a, b) && HasRoom(a)
    requires a.prompt.Some? && a.prompt.value.kind == Reversal
    ensures ReversalSafe(RespondToReversal(a, accepted).session, b)
  {
    if a.phase == Connected {
      AnsweringKeeps(a, b, accepted);
    } else {
      ClosedAnsweringKeeps(a, b, accepted);
    }
  }

  lemma AnswerReversalKeepsTransfers(a: Host, b: Host, answers: map<nat, Answer>, nextId: nat, accepted: bool)
    requires TransferSafe(a, b, answers, nextId) && InShape(a.session) && HasRoom(a.session)
    requires a.session.prompt.Some? && a.session.prompt.value.kind == Reversal
    ensures TransferSafe(Becomes(a, RespondToReversal(a.session, accepted).session), b, answers, nextId)
  {
    var after := Becomes(a, RespondToReversal(a.session, accepted).session);
    ReversalAnswerIsUnconcerned(a, accepted);
    if a.session.phase == Connected {
      UnconcernedKeeps(a, after, b, answers, nextId, nextId,
                       [ReversalDecision(a.session.incomingReversal.value, accepted)]);
    } else {
      UnconcernedKeeps(a, after, b, answers, nextId, nextId, []);
    }
  }

  lemma AnswerReversalKeepsSafe(a: Host, b: Host, answers: map<nat, Answer>, nextId: nat, accepted: bool)
    requires Safe(a, b, answers, nextId) && HasRoom(a.session)
    requires a.session.prompt.Some? && a.session.prompt.value.kind == Reversal
    ensures Safe(Becomes(a, RespondToReversal(a.session, accepted).session), b, answers, nextId)
  {
    RespondToReversalKeepsPaired(a.session, b.session, accepted);
    AnswerReversalKeepsStanding(a.session, b.session, accepted);
    AnswerReversalKeepsTransfers(a, b, answers, nextId, accepted);
  }

  lemma LocalKeepsSafe(a: Host, b: Host, answers: map<nat, Answer>, nextId: nat, records: seq<DiagnosticRecord>)
    requires Safe(a, b, answers, nextId) && SmallRecords(records)
    ensures Safe(a.(local := records), b, answers, nextId)
  {
    assert QueueGrows(a, a.(local := records), []);
    UnconcernedKeeps(a, a.(local := records), b, answers, nextId, nextId, []);
  }

  lemma ApprovalIsPlain(a: Host, now: int, intent: Intent)
    requires InShape(a.session) && HasRoom(a.session) && PeerKnown(a.session)
    requires a.session.phase == AwaitingConsent && !a.session.initiator && a.session.prompt.Some?
    ensures Plain(a, Becomes(a, TryEstablish(Posted(Answering(a.session, true), [ConsentDecision(true)]), now)), intent,
                  [ConsentDecision(true)])
  {
    EstablishCommutes(Answering(a.session, true), [ConsentDecision(true)], now);
    ApprovedShape(a.session, now);
    PostedMessages(TryEstablish(Answering(a.session, true), now), [ConsentDecision(true)]);
  }

  lemma DeclineIsPlain(a: Host, intent: Intent)
    requires InShape(a.session) && a.session.phase == AwaitingConsent
    ensures Plain(a, Becomes(a, CloseWithError(Posted(Answering(a.session, false), [ConsentDecision(false)]), true)), intent,
                  [ConsentDecision(false)])
  {
    PostedMessages(Answering(a.session, false), [ConsentDecision(false)]);
  }

  lemma WastedIsPlain(a: Host, accepted: bool, intent: Intent)
    requires InShape(a.session) && a.session.phase == Closed
    ensures Plain(a, Becomes(a, SendSecure(Answering(a.session, accepted), ConsentDecision(accepted)).session), intent, [])
  {
    SameQueue(a, Becomes(a, SendSecure(Answering(a.session, accepted), ConsentDecision(accepted)).session));
  }

  lemma PairingAnswerIsPlain(a: Host, accepted: bool, entered: Option<Code>, now: int, intent: Intent)
    requires InShape(a.session) && HasRoom(a.session) && a.session.prompt.Some? && a.session.prompt.value.kind == Pairing
    requires a.session.phase == AwaitingConsent ==> PeerKnown(a.session)
    ensures exists messages ::
              Plain(a, Becomes(a, RespondToPairing(a.session, a.session.prompt.value.mode, accepted, entered, now).session),
                    intent, messages)
  {
    var after := Becomes(a, RespondToPairing(a.session, a.session.prompt.value.mode, accepted, entered, now).session);
    PairingAnswerCases(a.session, accepted, entered, now);
    if after.session == a.session {
      SameQueue(a, after);
      assert Plain(a, after, intent, []);
    } else if a.session.phase == Closed {
      WastedIsPlain(a, accepted, intent);
    } else if accepted {
      ApprovalIsPlain(a, now, intent);
    } else {
      DeclineIsPlain(a, intent);
    }
  }

  lemma AnswerPairingKeepsSafe(
    a: Host, b: Host, answers: map<nat, Answer>, nextId: nat, accepted: bool, entered: Option<Code>, now: int)
    requires Safe(a, b, answers, nextId) && HasRoom(a.session)
    requires a.session.prompt.Some? && a.session.prompt.value.kind == Pairing
    ensures Safe(Becomes(a, RespondToPairing(a.session, a.session.prompt.value.mode, accepted, entered, now).session), b,
                 answers, nextId)
  {
    var after := Becomes(a, RespondToPairing(a.session, a.session.prompt.value.mode, accepted, entered, now).session);
    var intent := AgreedIntent(a.session, b.session);
    RespondToPairingKeepsPaired(a.session, b.session, accepted, entered, now);
    PairingAnswerIsPlain(a, accepted, entered, now, intent);
    var messages :| Plain(a, after, intent, messages);
    PlainKeeps(a, after, b, answers, nextId, nextId, messages);
  }

  lemma RespondKeepsSafe(a: Host, b: Host, answers: map<nat, Answer>, nextId: nat,
                         promptId: nat, accepted: bool, entered: Option<Code>, now: int)
    requires Safe(a, b, answers, nextId) && HasRoom(a.session)
    ensures Safe(Becomes(a, RespondToPrompt(a.session, promptId, accepted, entered, now).session), b, answers, nextId)
  {
    if a.session.prompt.Some? && a.session.prompt.value.id == promptId {
      if a.session.prompt.value.kind == Reversal {
        AnswerReversalKeepsSafe(a, b, answers, nextId, accepted);
      } else {
        AnswerPairingKeepsSafe(a, b, answers, nextId, accepted, entered, now);
      }
    }
  }
}
