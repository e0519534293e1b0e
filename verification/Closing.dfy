/** What a closed session can still do, for any network: where closing is final and where it is not. */
module Closing {
  import opened Wrappers
  import opened ProtocolContracts
  import opened SessionCryptography
  import opened SessionModel
  import opened SessionRuns

  /** Closed, with the transport closed too. */
  predicate Ended(s: Session) { s.phase == Closed && s.transportClosed }

  /** `tryEstablishConnection` comes back from the trust store. */
  predicate Reopens(s: Session, event: Event) { event.TrustStored? && s.suspended > 0 && s.peer.Some? }

  lemma EndedSendsNothing(s: Session, message: Message)
    requires s.transportClosed
    ensures SendSecure(s, message).threw && SendSecure(s, message).session.outbox == s.outbox
    ensures var after := SendSecure(s, message).session;
            after == s.(cipher := after.cipher)
  {
  }

  /** What an ended session keeps whatever message it handles: its end, its role unless it learns of an accepted reversal. */
  predicate StaysEnded(s: Session, after: Session) {
    && Ended(after) && after.suspended == s.suspended && after.outbox == s.outbox
    && after.grants == s.grants && after.requests.Keys <= s.requests.Keys
  }

  lemma EndedHandles(s: Session, message: Message, around: Surroundings)
    requires Ended(s)
    ensures var after := HandleSecure(s, message, around).session;
            && StaysEnded(s, after)
            && after.role == (if message.ReversalDecision? && message.accepted && s.outgoingReversal == Some(message.reversalId)
                              then Toggle(s.role) else s.role)
  {
    match message
    case ReversalRequest(id) => EndedSendsNothing(s, ReversalDecision(id, false));
    case DiagnosticsBatch(id, records, complete) => EndedBatch(s, id, records, complete);
    case _ =>
  }

  lemma EndedBatch(s: Session, id: nat, records: seq<DiagnosticRecord>, complete: bool)
    requires Ended(s)
    ensures StaysEnded(s, HandleDiagnosticsBatch(s, id, records, complete).session)
    ensures HandleDiagnosticsBatch(s, id, records, complete).session.role == s.role
  {
    var after := HandleDiagnosticsBatch(s, id, records, complete).session;
    if id in s.requests {
      assert after == s.(requests := after.requests, resolved := after.resolved);
    }
  }

  /** The accepted answer to a reversal that was pending when the session ended. */
  predicate LateAcceptance(s: Session, event: Event) {
    event.Receive? && event.frame.SecureFrame? && s.cipher.Some? &&
    match Opened(s.cipher.value, event.frame.envelope)
    case Some(ReversalDecision(id, accepted)) => accepted && s.outgoingReversal == Some(id)
    case _ => false
  }

  lemma EndedOpens(s: Session, envelope: Envelope, around: Surroundings)
    requires Ended(s)
    ensures var after := HandleEnvelope(s, envelope, around).session;
            && StaysEnded(s, after)
            && after.role == (if LateAcceptance(s, Receive(SecureFrame(envelope), around)) then Toggle(s.role) else s.role)
  {
    if s.cipher.Some? && Opened(s.cipher.value, envelope).Some? {
      EndedHandles(s.(lastSecureAt := around.now, cipher := Some(s.cipher.value.(received := envelope.counter))),
                   Opened(s.cipher.value, envelope).value, around);
    }
  }

  lemma EndedReceives(s: Session, frame: Wire, around: Surroundings)
    requires Ended(s)
    ensures var after := HandleWireMessage(s, frame, around);
            && StaysEnded(s, after)
            && after.role == (if LateAcceptance(s, Receive(frame, around)) then Toggle(s.role) else s.role)
  {
    if frame.SecureFrame? {
      EndedOpens(s, frame.envelope, around);
    }
  }

  lemma EndedAnswersReversal(s: Session, accepted: bool)
    requires Ended(s)
    ensures var after := RespondToReversal(s, accepted).session;
            StaysEnded(s, after) && after.role == s.role
  {
    if s.incomingReversal.Some? {
      EndedSendsNothing(s.(incomingReversal := None, prompt := None),
                        ReversalDecision(s.incomingReversal.value, accepted));
    }
  }

  lemma EndedAnswersPairing(s: Session, mode: PromptMode, accepted: bool, entered: Option<Code>, now: int)
    requires Ended(s)
    ensures var after := RespondToPairing(s, mode, accepted, entered, now).session;
            StaysEnded(s, after) && after.role == s.role
  {
    EndedSendsNothing(s.(prompt := None, localConsent := Some(accepted)), ConsentDecision(accepted));
  }

  lemma EndedAnswers(s: Session, promptId: nat, accepted: bool, entered: Option<Code>, now: int)
    requires Ended(s)
    ensures var after := RespondToPrompt(s, promptId, accepted, entered, now).session;
            StaysEnded(s, after) && after.role == s.role
  {
    if s.prompt.Some? && s.prompt.value.id == promptId {
      if s.prompt.value.kind == Reversal {
        EndedAnswersReversal(s, accepted);
      } else {
        EndedAnswersPairing(s, s.prompt.value.mode, accepted, entered, now);
      }
    }
  }

  lemma EndedStep(s: Session, event: Event)
    requires Ended(s) && !Reopens(s, event)
    ensures var after := After(s, event);
            StaysEnded(s, after) && after.role == (if LateAcceptance(s, event) then Toggle(s.role) else s.role)
  {
    match event
    case Receive(frame, around) => EndedReceives(s, frame, around);
    case Answer(promptId, accepted, entered, now) => EndedAnswers(s, promptId, accepted, entered, now);
    case Tick(now, id) => EndedSendsNothing(s.(pings := s.pings + {id}), Ping(id));
    case _ =>
  }

  /** One event ends the end: the trust store answering a pairing that was still waiting for it. */
  lemma ClosedIsFinalIff(s: Session, event: Event)
    requires Ended(s)
    ensures After(s, event).phase == Closed <==> !Reopens(s, event)
    ensures Reopens(s, event) ==> After(s, event).phase == Connected && After(s, event).keepAliveTimer
    ensures After(s, event).transportClosed && After(s, event).outbox == s.outbox
  {
    if !Reopens(s, event) {
      EndedStep(s, event);
    }
  }

  /** A session that ends while no pairing waits for the trust store is closed for good. */
  lemma {:induction false} ClosedForGood(s: Session, events: seq<Event>)
    requires Ended(s) && s.suspended == 0
    ensures StaysEnded(s, AfterAll(s, events))
    decreases |events|
  {
    if events != [] {
      ClosedForGood(s, events[..|events| - 1]);
      EndedStep(AfterAll(s, events[..|events| - 1]), events[|events| - 1]);
    }
  }

  /** A closed session without a role gets one back in exactly two ways. */
  lemma RoleAfterTheEndIff(s: Session, event: Event)
    requires Ended(s) && s.role == NoRole
    ensures After(s, event).role != NoRole <==> Reopens(s, event) || LateAcceptance(s, event)
  {
    if !Reopens(s, event) {
      EndedStep(s, event);
    }
  }

  /** Closing takes the role away and settles every pending request; disposing leaves the role as it is. */
  lemma WhatClosingLeaves(s: Session, expected: bool)
    requires s.phase != Closed
    ensures var closed := CloseWithError(s, expected);
            && Ended(closed) && closed.role == NoRole && closed.prompt == None
            && closed.requests == map[] && closed.rejected == s.rejected + s.requests.Keys
            && closed.outgoingReversal == s.outgoingReversal && closed.suspended == s.suspended
    ensures var disposed := Dispose(s);
            && Ended(disposed) && disposed.role == s.role && disposed.prompt == s.prompt
            && disposed.requests == map[] && disposed.rejected == s.rejected + s.requests.Keys
  {
  }
}
