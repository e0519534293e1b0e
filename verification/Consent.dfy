/** Against any network, a responder never connects without an approval. */
module Consent {
  import opened Wrappers
  import opened ProtocolContracts
  import opened SessionCryptography
  import opened SessionModel
  import opened SessionRuns

  // ---------- approval ----------

  /** The store vouches for the identity that signed this hello, in this direction. */
  predicate Vouched(hello: ClientHello, trust: Trust) {
    VerifyClientHello(hello) && IsTrusted(trust, hello.fields.device, hello.fields.identity, hello.fields.intent)
  }

  /** The user answers the pairing prompt with exactly the code this session derived. */
  predicate CodeEntered(s: Session, event: Event) {
    && event.Answer? && event.accepted && event.entered.Some? && event.entered == s.code
    && s.prompt.Some? && s.prompt.value.kind == Pairing && s.prompt.value.id == event.promptId
  }

  predicate Approves(s: Session, event: Event) {
    || (s.phase == AwaitingClientHello && event.Receive? && event.frame.ClientHelloFrame? &&
        Vouched(event.frame.clientHello, event.around.trust))
    || CodeEntered(s, event)
  }

  /** Anything that follows from an approval. */
  predicate Marked(s: Session) {
    s.localConsent == Some(true) || s.suspended > 0 || s.phase == Connected || s.grants != [] ||
    (s.peer.Some? && s.peer.value.paired)
  }

  /** A responder's pairing prompt asks for the code. */
  predicate AsksForCode(s: Session) {
    s.prompt.Some? && s.prompt.value.kind == Pairing ==> s.prompt.value.mode == EnterVerificationCode
  }

  /** No mark appears without an approval. */
  predicate Unmarked(s: Session) { !s.initiator && AsksForCode(s) && !Marked(s) }

  lemma SendKeepsUnmarked(s: Session, message: Message)
    requires Unmarked(s)
    ensures Unmarked(SendSecure(s, message).session)
  {
  }

  lemma {:induction false} BatchesKeepUnmarked(s: Session, id: nat, records: seq<DiagnosticRecord>, offset: nat)
    requires Unmarked(s) && offset <= |records|
    ensures Unmarked(SendBatches(s, id, records, offset).session)
    decreases |records| - offset
  {
    if offset < |records| {
      var end := if offset + BATCH_RECORD_COUNT < |records| then offset + BATCH_RECORD_COUNT else |records|;
      var message := DiagnosticsBatch(id, records[offset..end], end >= |records|);
      SendKeepsUnmarked(s, message);
      BatchesKeepUnmarked(SendSecure(s, message).session, id, records, end);
    }
  }

  lemma EnteringKeepsUnmarked(s: Session, now: int, promptId: nat)
    requires Unmarked(s)
    ensures Unmarked(EnterConsentPhase(s, now, promptId).session)
  {
  }

  lemma ReadyKeepsUnmarked(s: Session, now: int, promptId: nat)
    requires Unmarked(s)
    ensures Unmarked(HandleReady(s, now, promptId).session)
  {
    SendKeepsUnmarked(s, ReadyAcknowledged);
    EnteringKeepsUnmarked(SendSecure(s, ReadyAcknowledged).session, now, promptId);
  }

  lemma ConsentKeepsUnmarked(s: Session, accepted: bool, now: int)
    requires Unmarked(s)
    ensures Unmarked(HandleConsentDecision(s, accepted, now).session)
  {
  }

  lemma DiagnosticsRequestKeepsUnmarked(s: Session, id: nat, limit: nat, local: seq<DiagnosticRecord>)
    requires Unmarked(s)
    ensures Unmarked(HandleDiagnosticsRequest(s, id, limit, local).session)
  {
    SendKeepsUnmarked(s, DiagnosticsBatch(id, [], true));
    BatchesKeepUnmarked(s, id, LastRecords(local, limit), 0);
  }

  lemma BatchKeepsUnmarked(s: Session, id: nat, records: seq<DiagnosticRecord>, complete: bool)
    requires Unmarked(s)
    ensures Unmarked(HandleDiagnosticsBatch(s, id, records, complete).session)
  {
  }

  lemma ReversalKeepsUnmarked(s: Session, id: nat, promptId: nat)
    requires Unmarked(s)
    ensures Unmarked(HandleReversalRequest(s, id, promptId).session)
  {
    SendKeepsUnmarked(s, ReversalDecision(id, false));
  }

  lemma SecureKeepsUnmarked(s: Session, message: Message, around: Surroundings)
    requires Unmarked(s)
    ensures Unmarked(HandleSecure(s, message, around).session)
  {
    match message
    case Ready => ReadyKeepsUnmarked(s, around.now, around.promptId);
    case ReadyAcknowledged => EnteringKeepsUnmarked(s, around.now, around.promptId);
    case ConsentDecision(accepted) => ConsentKeepsUnmarked(s, accepted, around.now);
    case Ping(id) => SendKeepsUnmarked(s, Pong(id));
    case ReversalRequest(id) => ReversalKeepsUnmarked(s, id, around.promptId);
    case DiagnosticsRequest(id, limit) => DiagnosticsRequestKeepsUnmarked(s, id, limit, around.local);
    case DiagnosticsBatch(id, records, complete) => BatchKeepsUnmarked(s, id, records, complete);
    case _ =>
  }

  lemma EnvelopeKeepsUnmarked(s: Session, envelope: Envelope, around: Surroundings)
    requires Unmarked(s)
    ensures Unmarked(HandleEnvelope(s, envelope, around).session)
  {
    if s.cipher.Some? && Opened(s.cipher.value, envelope).Some? {
      SecureKeepsUnmarked(s.(lastSecureAt := around.now, cipher := Some(s.cipher.value.(received := envelope.counter))),
                          Opened(s.cipher.value, envelope).value, around);
    }
  }

  lemma ClosingKeepsUnmarked(s: Session, expected: bool)
    requires Unmarked(s)
    ensures Unmarked(CloseWithError(s, expected))
  {
  }

  lemma ClientHelloKeepsUnmarked(s: Session, hello: ClientHello, trust: Trust)
    requires Unmarked(s) && !Vouched(hello, trust)
    ensures Unmarked(HandleClientHello(s, hello, trust).session)
  {
  }

  lemma ServerHelloKeepsUnmarked(s: Session, hello: ServerHello)
    requires Unmarked(s)
    ensures Unmarked(HandleServerHello(s, hello).session)
  {
    if s.clientHello.Some? {
      var known := s.(serverHello := Some(hello), peerKey := Some(hello.fields.identity),
                      peer := Some(Peer(hello.fields.device, false)));
      SendKeepsUnmarked(WithCipher(known, s.clientHello.value, hello).(phase := AwaitingSecureAcknowledgement), Ready);
    }
  }

  lemma DispatchKeepsUnmarked(s: Session, frame: Wire, around: Surroundings)
    requires Unmarked(s) && !Approves(s, Receive(frame, around))
    ensures Unmarked(Dispatch(s, frame, around).session)
  {
    match frame
    case ClientHelloFrame(hello) =>
      if s.phase == AwaitingClientHello {
        ClientHelloKeepsUnmarked(s, hello, around.trust);
      }
    case ServerHelloFrame(hello) => ServerHelloKeepsUnmarked(s, hello);
    case SecureFrame(envelope) => EnvelopeKeepsUnmarked(s, envelope, around);
  }

  lemma AnswerKeepsUnmarked(s: Session, event: Event)
    requires Unmarked(s) && event.Answer? && !CodeEntered(s, event)
    ensures Unmarked(After(s, event))
  {
    if s.prompt.Some? && s.prompt.value.id == event.promptId {
      if s.prompt.value.kind == Reversal {
        if s.incomingReversal.Some? {
          SendKeepsUnmarked(s.(incomingReversal := None, prompt := None),
                            ReversalDecision(s.incomingReversal.value, event.accepted));
        }
      } else if !event.accepted {
        var answered := s.(prompt := None, localConsent := Some(false));
        SendKeepsUnmarked(answered, ConsentDecision(false));
        ClosingKeepsUnmarked(SendSecure(answered, ConsentDecision(false)).session, true);
      }
    }
  }

  lemma LocalEventKeepsUnmarked(s: Session, event: Event)
    requires Unmarked(s) && !event.Receive? && !event.Answer?
    ensures Unmarked(After(s, event))
  {
    match event
    case TrustStored(_) =>
    case AskReversal(id) => SendKeepsUnmarked(s.(outgoingReversal := Some(id)), ReversalRequest(id));
    case AskDiagnostics(limit, id) =>
      SendKeepsUnmarked(s.(requests := s.requests[id := PendingRequest(BoundedLimit(limit), [])]),
                        DiagnosticsRequest(id, BoundedLimit(limit)));
    case SendSignal(signal) => SendKeepsUnmarked(s, MediaSignal(signal));
    case Tick(now, id) =>
      ClosingKeepsUnmarked(s, false);
      SendKeepsUnmarked(s.(pings := s.pings + {id}), Ping(id));
    case Leave =>
      SendKeepsUnmarked(s, Disconnect);
      ClosingKeepsUnmarked(SendSecure(s, Disconnect).session, true);
      ClosingKeepsUnmarked(s, true);
    case _ =>
  }

  lemma StepKeepsUnmarked(s: Session, event: Event)
    requires Unmarked(s) && !Approves(s, event)
    ensures Unmarked(After(s, event))
  {
    match event
    case Receive(frame, around) =>
      DispatchKeepsUnmarked(s, frame, around);
      ClosingKeepsUnmarked(Dispatch(s, frame, around).session, false);
    case Answer(_, _, _, _) => AnswerKeepsUnmarked(s, event);
    case _ => LocalEventKeepsUnmarked(s, event);
  }

  // ---------- the approval and the session it is for ----------

  /** The event approves, and the session still has the hello that was vouched for or the code that was entered. */
  predicate ApprovedBy(s: Session, event: Event, after: Session) {
    || (s.phase == AwaitingClientHello && event.Receive? && event.frame.ClientHelloFrame? &&
        Vouched(event.frame.clientHello, event.around.trust) && after.clientHello == Some(event.frame.clientHello))
    || (CodeEntered(s, event) && after.code == event.entered)
  }

  lemma VouchedHelloIsTaken(s: Session, hello: ClientHello, around: Surroundings)
    requires s.phase == AwaitingClientHello && Vouched(hello, around.trust)
    ensures var after := HandleWireMessage(s, ClientHelloFrame(hello), around);
            !Greeting(after) && after.clientHello == Some(hello)
  {
  }

  lemma ApprovalIsKept(s: Session, event: Event)
    requires Sound(s) && Approves(s, event)
    ensures ApprovedBy(s, event, After(s, event)) && !Greeting(After(s, event))
  {
    if event.Receive? {
      VouchedHelloIsTaken(s, event.frame.clientHello, event.around);
    } else {
      EventExtends(s, event);
    }
  }

  lemma StillApproved(s: Session, event: Event, before: Session, next: Event)
    requires ApprovedBy(s, event, before) && !Greeting(before)
    ensures ApprovedBy(s, event, After(before, next)) && !Greeting(After(before, next))
  {
    EventExtends(before, next);
  }

  /** The session as event `k` of a run finds it. */
  function Found(s: Session, events: seq<Event>, k: nat): Session
    requires k <= |events|
  {
    AfterAll(s, events[..k])
  }

  /** One of the first `n` events approved, and the session after them is past its hello and still as approved. */
  predicate Approved(s: Session, events: seq<Event>, n: nat)
    requires n <= |events|
  {
    !Greeting(Found(s, events, n)) && exists k | 0 <= k < n :: ApprovedBy(Found(s, events, k), events[k], Found(s, events, n))
  }

  lemma OneEventMore(s: Session, events: seq<Event>, n: nat)
    requires n < |events|
    ensures Found(s, events, n + 1) == After(Found(s, events, n), events[n])
  {
    assert events[..n + 1][..n] == events[..n];
  }

  lemma ApprovedNow(s: Session, events: seq<Event>, n: nat)
    requires n < |events| && Sound(Found(s, events, n)) && Approves(Found(s, events, n), events[n])
    ensures Approved(s, events, n + 1)
  {
    OneEventMore(s, events, n);
    ApprovalIsKept(Found(s, events, n), events[n]);
  }

  lemma ApprovedBefore(s: Session, events: seq<Event>, n: nat)
    requires n < |events| && Approved(s, events, n)
    ensures Approved(s, events, n + 1)
  {
    OneEventMore(s, events, n);
    var k :| 0 <= k < n && ApprovedBy(Found(s, events, k), events[k], Found(s, events, n));
    StillApproved(Found(s, events, k), events[k], Found(s, events, n), events[n]);
  }

  /** After the first `n` events nothing is marked, or one of them approved. */
  predicate UnmarkedOrApproved(s: Session, events: seq<Event>, n: nat)
    requires n <= |events|
  {
    Unmarked(Found(s, events, n)) || Approved(s, events, n)
  }

  lemma UnmarkedStep(s: Session, events: seq<Event>, n: nat)
    requires n < |events| && Sound(Found(s, events, n)) && UnmarkedOrApproved(s, events, n)
    ensures UnmarkedOrApproved(s, events, n + 1)
  {
    var before := Found(s, events, n);
    if Approved(s, events, n) {
      ApprovedBefore(s, events, n);
    } else if Approves(before, events[n]) {
      ApprovedNow(s, events, n);
    } else {
      OneEventMore(s, events, n);
      StepKeepsUnmarked(before, events[n]);
    }
  }

  lemma FoundIsSound(s: Session, events: seq<Event>, n: nat)
    requires Sound(s) && n <= |events|
    ensures Sound(Found(s, events, n))
  {
    RunIsSound(s, events[..n]);
  }

  lemma UnmarkedAtFirst(s: Session, events: seq<Event>)
    requires Unmarked(s)
    ensures UnmarkedOrApproved(s, events, 0)
  {
    assert events[..0] == [];
  }

  /** Unless an event so far approved, nothing is marked. */
  lemma {:induction false} UnmarkedUntilApproval(s: Session, events: seq<Event>, n: nat)
    requires Unmarked(s) && Sound(s) && n <= |events|
    ensures UnmarkedOrApproved(s, events, n)
    decreases n
  {
    if n == 0 {
      UnmarkedAtFirst(s, events);
    } else {
      UnmarkedUntilApproval(s, events, n - 1);
      FoundIsSound(s, events, n - 1);
      UnmarkedStep(s, events, n - 1);
    }
  }

  lemma NewIsSound(own: Credentials, start: int)
    ensures Sound(NewSession(false, own, None, start)) && Unmarked(NewSession(false, own, None, start))
  {
  }

  /**
   Whatever frames arrive and whatever else happens, in any order: a responder that has approved,
   waits for its trust store, is connected or has written a grant did so after an approval.  Either its
   store vouched, when it arrived, for the very hello the session has; or the user answered the pairing
   prompt with exactly the code of the session.
   */
  lemma ConnectionNeedsApproval(own: Credentials, start: int, events: seq<Event>)
    requires Marked(AfterAll(NewSession(false, own, None, start), events))
    ensures exists k | 0 <= k < |events| ::
              ApprovedBy(AfterAll(NewSession(false, own, None, start), events[..k]), events[k],
                         AfterAll(NewSession(false, own, None, start), events))
  {
    var s := NewSession(false, own, None, start);
    NewIsSound(own, start);
    UnmarkedUntilApproval(s, events, |events|);
    assert events[..|events|] == events;
    var k :| 0 <= k < |events| && ApprovedBy(Found(s, events, k), events[k], Found(s, events, |events|));
    assert ApprovedBy(AfterAll(s, events[..k]), events[k], AfterAll(s, events));
  }
}
