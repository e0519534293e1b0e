/**
 Requests are answered, once.  In an open session only the timeout rejects a diagnostics request, so one
 that has not timed out is resolved, with exactly the last records, once nothing is on its way; what a
 request has come to it keeps for the rest of the run, and a reversal is decided at most once in a run.
 */
module Settlement {
  import opened Wrappers
  import opened ProtocolContracts
  import opened SessionCryptography
  import opened SessionModel
  import opened Effects
  import opened TwoParty
  import opened Steps
  import opened Protocol
  import opened Guarantees
  import opened OneSide
  import opened Reversals
  import Closing
  import Runs = SessionRuns

  // ---------- one session ----------

  /** Nothing is settled and no reversal decided. */
  predicate SameOutcomes(s: Session, after: Session) {
    after.rejected == s.rejected && after.resolved == s.resolved && after.outgoingReversal == s.outgoingReversal
  }

  /** A request that is not pending keeps its records. */
  predicate ResolvedStays(s: Session, after: Session) {
    forall id | id in s.resolved && id !in s.requests :: id in after.resolved && after.resolved[id] == s.resolved[id]
  }

  /** What is settled stays so; no request is rejected, unless all are because the session is closed now. */
  predicate RejectsNone(s: Session, after: Session) {
    && (after.rejected == s.rejected || after.phase == Closed) && s.rejected <= after.rejected && ResolvedStays(s, after)
    && (after.outgoingReversal == s.outgoingReversal || after.outgoingReversal == None)
  }

  lemma SameRejectsNone(s: Session, after: Session)
    requires SameOutcomes(s, after)
    ensures RejectsNone(s, after)
  {
  }

  /** First some other fields change. */
  lemma ThenRejectsNone(s: Session, changed: Session, after: Session)
    requires SameOutcomes(s, changed) && changed.requests == s.requests && RejectsNone(changed, after)
    ensures RejectsNone(s, after)
  {
  }

  lemma ClosingRejects(s: Session, changed: Session, expected: bool)
    requires SameOutcomes(s, changed)
    ensures RejectsNone(s, CloseWithError(changed, expected))
  {
  }

  lemma SendingRejectsNone(s: Session, message: Message)
    ensures SameOutcomes(s, SendSecure(s, message).session)
  {
  }

  lemma {:induction false} BatchesRejectNone(s: Session, id: nat, records: seq<DiagnosticRecord>, offset: nat)
    requires offset <= |records|
    ensures SameOutcomes(s, SendBatches(s, id, records, offset).session)
    decreases |records| - offset
  {
    if offset < |records| {
      var end := if offset + BATCH_RECORD_COUNT < |records| then offset + BATCH_RECORD_COUNT else |records|;
      var message := DiagnosticsBatch(id, records[offset..end], end >= |records|);
      SendingRejectsNone(s, message);
      BatchesRejectNone(SendSecure(s, message).session, id, records, end);
    }
  }

  lemma SentRejectsNone(s: Session, changed: Session, message: Message)
    requires SameOutcomes(s, changed)
    ensures SameOutcomes(s, SendSecure(changed, message).session)
  {
    SendingRejectsNone(changed, message);
  }

  lemma EnteringRejectsNone(s: Session, now: int, promptId: nat)
    ensures SameOutcomes(s, EnterConsentPhase(s, now, promptId).session)
  {
    var entered := StartKeepAlive(s.(handshakeTimer := false, phase := AwaitingConsent), now);
    if s.peer.None? || s.intent.None? || s.code.None? || (!s.initiator && !s.peer.value.paired) {
    } else if s.initiator {
      SentRejectsNone(s, entered.(prompt := Some(Prompt(promptId, Pairing, WaitingForPeer)), localConsent := Some(true)),
                      ConsentDecision(true));
    } else {
      SentRejectsNone(s, entered.(prompt := None, localConsent := Some(true)), ConsentDecision(true));
    }
  }

  lemma ReadyRejectsNone(s: Session, now: int, promptId: nat)
    ensures SameOutcomes(s, HandleReady(s, now, promptId).session)
  {
    SendingRejectsNone(s, ReadyAcknowledged);
    EnteringRejectsNone(SendSecure(s, ReadyAcknowledged).session, now, promptId);
  }

  lemma EstablishingRejectsNone(s: Session, now: int)
    ensures SameOutcomes(s, TryEstablish(s, now))
  {
  }

  lemma ConsentRejectsNone(s: Session, accepted: bool, now: int)
    ensures RejectsNone(s, HandleConsentDecision(s, accepted, now).session)
  {
    var heard := s.(remoteConsent := Some(accepted));
    EstablishingRejectsNone(heard, now);
    ClosingRejects(s, heard, true);
  }

  lemma RequestRejectsNone(s: Session, id: nat, limit: nat, local: seq<DiagnosticRecord>)
    ensures SameOutcomes(s, HandleDiagnosticsRequest(s, id, limit, local).session)
  {
    SendingRejectsNone(s, DiagnosticsBatch(id, [], true));
    BatchesRejectNone(s, id, LastRecords(local, limit), 0);
  }

  lemma BatchRejectsNone(s: Session, id: nat, records: seq<DiagnosticRecord>, complete: bool)
    ensures RejectsNone(s, HandleDiagnosticsBatch(s, id, records, complete).session)
  {
    if id !in s.requests {
      SameRejectsNone(s, s);
    } else if |s.requests[id].records + records| > s.requests[id].limit || !complete {
      SameRejectsNone(s, HandleDiagnosticsBatch(s, id, records, complete).session);
    }
  }

  lemma ReversalRejectsNone(s: Session, id: nat, promptId: nat)
    ensures SameOutcomes(s, HandleReversalRequest(s, id, promptId).session)
  {
    SendingRejectsNone(s, ReversalDecision(id, false));
  }

  lemma DecisionRejectsNone(s: Session, id: nat, accepted: bool)
    ensures RejectsNone(s, HandleReversalDecision(s, id, accepted).session)
  {
  }

  /** The messages that settle nothing and decide no reversal. */
  lemma PlainRejectsNone(s: Session, message: Message, around: Surroundings)
    requires !message.ConsentDecision? && !message.DiagnosticsBatch? && !message.ReversalDecision? &&
             !message.Disconnect? && !message.ProtocolError?
    ensures SameOutcomes(s, HandleSecure(s, message, around).session)
  {
    match message
    case Ready => ReadyRejectsNone(s, around.now, around.promptId);
    case ReadyAcknowledged => EnteringRejectsNone(s, around.now, around.promptId);
    case Ping(id) => SendingRejectsNone(s, Pong(id));
    case ReversalRequest(id) => ReversalRejectsNone(s, id, around.promptId);
    case DiagnosticsRequest(id, limit) => RequestRejectsNone(s, id, limit, around.local);
    case _ =>
  }

  lemma SecureRejectsNone(s: Session, message: Message, around: Surroundings)
    ensures RejectsNone(s, HandleSecure(s, message, around).session)
  {
    match message
    case ConsentDecision(accepted) => ConsentRejectsNone(s, accepted, around.now);
    case DiagnosticsBatch(id, records, complete) => BatchRejectsNone(s, id, records, complete);
    case ReversalDecision(id, accepted) => DecisionRejectsNone(s, id, accepted);
    case Disconnect => ClosingRejects(s, s, true);
    case ProtocolError => ClosingRejects(s, s, false);
    case _ =>
      PlainRejectsNone(s, message, around);
      SameRejectsNone(s, HandleSecure(s, message, around).session);
  }

  lemma UnopenedRejectsNone(s: Session, envelope: Envelope, around: Surroundings)
    requires s.cipher.None? || Opened(s.cipher.value, envelope).None?
    ensures RejectsNone(s, HandleEnvelope(s, envelope, around).session)
  {
  }

  lemma EnvelopeRejectsNone(s: Session, envelope: Envelope, around: Surroundings)
    ensures RejectsNone(s, HandleEnvelope(s, envelope, around).session)
  {
    if s.cipher.Some? && Opened(s.cipher.value, envelope).Some? {
      var ready, message := OpenedBy(s, envelope, around.now), Opened(s.cipher.value, envelope).value;
      SecureRejectsNone(ready, message, around);
      ThenRejectsNone(s, ready, HandleSecure(ready, message, around).session);
      EnvelopeOpens(s, envelope, around, message);
    } else {
      UnopenedRejectsNone(s, envelope, around);
    }
  }

  lemma ClientHelloRejectsNone(s: Session, hello: ClientHello, trust: Trust)
    ensures SameOutcomes(s, HandleClientHello(s, hello, trust).session)
  {
  }

  lemma ServerHelloRejectsNone(s: Session, hello: ServerHello)
    ensures SameOutcomes(s, HandleServerHello(s, hello).session)
  {
    if s.clientHello.Some? {
      SendingRejectsNone(Runs.Met(s, s.clientHello.value, hello), Ready);
    }
  }

  lemma DispatchRejectsNone(s: Session, frame: Wire, around: Surroundings)
    ensures RejectsNone(s, Dispatch(s, frame, around).session)
  {
    if s.phase == AwaitingClientHello && frame.ClientHelloFrame? {
      ClientHelloRejectsNone(s, frame.clientHello, around.trust);
      SameRejectsNone(s, HandleClientHello(s, frame.clientHello, around.trust).session);
    } else if s.phase == AwaitingServerHello && frame.ServerHelloFrame? {
      ServerHelloRejectsNone(s, frame.serverHello);
      SameRejectsNone(s, HandleServerHello(s, frame.serverHello).session);
    } else if s.phase != AwaitingClientHello && s.phase != AwaitingServerHello && frame.SecureFrame? {
      EnvelopeRejectsNone(s, frame.envelope, around);
    } else {
      assert Dispatch(s, frame, around) == Throw(s);
    }
  }

  lemma ThrownRejects(s: Session, left: Session)
    requires RejectsNone(s, left)
    ensures RejectsNone(s, CloseWithError(left, false))
  {
  }

  lemma ReceivingRejectsNone(s: Session, frame: Wire, around: Surroundings)
    ensures RejectsNone(s, HandleWireMessage(s, frame, around))
  {
    DispatchRejectsNone(s, frame, around);
    ThrownRejects(s, Dispatch(s, frame, around).session);
  }

  lemma ReversalAnswerRejectsNone(s: Session, accepted: bool)
    ensures SameOutcomes(s, RespondToReversal(s, accepted).session)
  {
    if s.incomingReversal.Some? {
      SentRejectsNone(s, s.(incomingReversal := None, prompt := None), ReversalDecision(s.incomingReversal.value, accepted));
    }
  }

  lemma PairingAnswerRejectsNone(s: Session, mode: PromptMode, accepted: bool, entered: Option<Code>, now: int)
    ensures RejectsNone(s, RespondToPairing(s, mode, accepted, entered, now).session)
  {
    var decided := s.(prompt := None, localConsent := Some(accepted));
    var sent := SendSecure(decided, ConsentDecision(accepted)).session;
    SentRejectsNone(s, decided, ConsentDecision(accepted));
    EstablishingRejectsNone(sent, now);
    SameRejectsNone(s, s);
    SameRejectsNone(s, sent);
    SameRejectsNone(s, TryEstablish(sent, now));
    ClosingRejects(s, sent, true);
    Runs.PairingAnswerCases(s, mode, accepted, entered, now, sent);
  }

  lemma AnsweringRejectsNone(s: Session, promptId: nat, accepted: bool, entered: Option<Code>, now: int)
    ensures RejectsNone(s, RespondToPrompt(s, promptId, accepted, entered, now).session)
  {
    if s.prompt.None? || s.prompt.value.id != promptId {
      SameRejectsNone(s, s);
    } else if s.prompt.value.kind == Reversal {
      ReversalAnswerRejectsNone(s, accepted);
      SameRejectsNone(s, RespondToReversal(s, accepted).session);
    } else {
      PairingAnswerRejectsNone(s, s.prompt.value.mode, accepted, entered, now);
    }
  }

  /** Asking an open transport with room in its counter is not refused. */
  lemma AskingRejectsNone(s: Session, limit: int, id: nat)
    requires s.phase == Connected ==> CanSend(s, 1)
    ensures SameOutcomes(s, RequestDiagnostics(s, limit, id).session)
  {
    if s.phase == Connected {
      var asking := s.(requests := s.requests[id := PendingRequest(BoundedLimit(limit), [])]);
      SendSecureFits(asking, DiagnosticsRequest(id, BoundedLimit(limit)));
    }
  }

  lemma TickRejectsNone(s: Session, now: int, id: nat)
    ensures RejectsNone(s, KeepAliveTick(s, now, id).session)
  {
    ClosingRejects(s, s, false);
    SentRejectsNone(s, s.(pings := s.pings + {id}), Ping(id));
    SameRejectsNone(s, SendSecure(s.(pings := s.pings + {id}), Ping(id)).session);
  }

  lemma LeavingRejectsNone(s: Session)
    ensures RejectsNone(s, DisconnectSession(s))
  {
    SendingRejectsNone(s, Message.Disconnect);
    ClosingRejects(s, SendSecure(s, Message.Disconnect).session, true);
    ClosingRejects(s, s, true);
  }

  lemma StoredRejectsNone(s: Session, now: int)
    ensures SameOutcomes(s, ResumeEstablish(s, now))
  {
  }

  lemma GoneRejectsNone(s: Session)
    ensures RejectsNone(s, TransportGone(s)) && RejectsNone(s, Dispose(s))
  {
    ClosingRejects(s, s.(transportClosed := true), false);
    SameRejectsNone(s, s);
  }

  lemma OthersRejectNone(s: Session, event: Runs.Event)
    requires event.TrustStored? || event.SendSignal? || event.Tick? || event.HandshakeTimeout? ||
             event.Leave? || event.Discard? || event.SocketGone?
    ensures RejectsNone(s, Runs.After(s, event))
  {
    match event
    case TrustStored(now) =>
      StoredRejectsNone(s, now);
      SameRejectsNone(s, ResumeEstablish(s, now));
    case SendSignal(signal) =>
      SendingRejectsNone(s, MediaSignal(signal));
      SameRejectsNone(s, SendMediaSignal(s, signal).session);
    case Tick(now, id) => TickRejectsNone(s, now, id);
    case HandshakeTimeout => ClosingRejects(s, s, false);
    case Leave => LeavingRejectsNone(s);
    case _ => GoneRejectsNone(s);
  }

  /** Asking for a reversal settles nothing, and makes no other reversal pending. */
  lemma AskingReversal(s: Session, id: nat)
    ensures var after := RequestReversal(s, id).session;
            SameOutcomes(s, after) || (after.outgoingReversal == Some(id) && SameOutcomes(s, after.(outgoingReversal := s.outgoingReversal)))
  {
    SendingRejectsNone(s.(outgoingReversal := Some(id)), ReversalRequest(id));
  }

  /** What an event does to what is settled. */
  predicate Settles(s: Session, after: Session, event: Runs.Event) {
    && s.rejected <= after.rejected && ResolvedStays(s, after)
    && (after.phase != Closed ==> forall id <- after.rejected :: id in s.rejected || event == Runs.Expire(id))
    && (after.outgoingReversal == s.outgoingReversal || after.outgoingReversal == None ||
        (event.AskReversal? && after.outgoingReversal == Some(event.id)))
  }

  lemma EventSettles(s: Session, event: Runs.Event)
    requires event.AskDiagnostics? && s.phase == Connected ==> CanSend(s, 1)
    ensures Settles(s, Runs.After(s, event), event)
  {
    match event
    case Receive(frame, around) => ReceivingRejectsNone(s, frame, around);
    case Answer(promptId, accepted, entered, now) => AnsweringRejectsNone(s, promptId, accepted, entered, now);
    case AskReversal(id) => AskingReversal(s, id);
    case AskDiagnostics(limit, id) => AskingRejectsNone(s, limit, id);
    case Expire(_) =>
    case _ => OthersRejectNone(s, event);
  }

  // ---------- the world ----------

  /** What the invariant says of one end alone. */
  lemma SideShape(w: World, side: Side)
    requires Invariant(w) && Roomy(At(w, side))
    ensures At(w, side).phase == Closed ==> Closing.Ended(At(w, side)) && At(w, side).suspended == 0
    ensures At(w, side).phase == Connected ==> CanSend(At(w, side), 1)
  {
    InvariantAt(w, side);
  }

  /** What a step does to the requests rejected at one end that is open after it. */
  predicate RejectsOnlyExpired(s: Session, after: Session, action: Action, side: Side) {
    after.phase != Closed ==>
      && s.phase != Closed
      && forall id <- after.rejected :: id in s.rejected || action == ExpireRequest(side, id)
  }

  /** What a step settles at one end. */
  predicate StepSettles(s: Session, after: Session, w: World, action: Action, side: Side) {
    && RejectsOnlyExpired(s, after, action, side) && s.rejected <= after.rejected && ResolvedStays(s, after)
    && (after.outgoingReversal == s.outgoingReversal || after.outgoingReversal == None ||
        (action == AskReversal(side) && after.outgoingReversal == Some(w.nextId)))
  }

  lemma EventStepSettles(w: World, action: Action, side: Side, event: Runs.Event, s: Session)
    requires EventAt(w, action, side) == Some(event) && s == At(w, side)
    requires s.phase == Closed ==> Closing.Ended(s) && s.suspended == 0
    requires s.phase == Connected ==> CanSend(s, 1)
    ensures StepSettles(s, Runs.After(s, event), w, action, side)
  {
    EventSettles(s, event);
    if s.phase == Closed {
      Closing.EndedStep(s, event);
    }
  }

  lemma WorldStepSettles(w: World, action: Action, side: Side)
    requires Invariant(w) && Orderly(w, action)
    ensures StepSettles(At(w, side), At(Exec(w, action), side), w, action, side)
  {
    SideShape(w, side);
    StepAtSide(w, action, side);
    match EventAt(w, action, side)
    case Some(event) => EventStepSettles(w, action, side, event, At(w, side));
    case None =>
  }

  /** While a session is open, every rejected request was timed out. */
  lemma {:induction false} RejectedHasExpired(start: World, actions: seq<Action>, side: Side, id: nat)
    requires IsInitial(start) && OrderlyRun(start, actions)
    requires At(Run(start, actions), side).phase != Closed && id in At(Run(start, actions), side).rejected
    ensures ExpireRequest(side, id) in actions
    decreases |actions|
  {
    if actions != [] {
      var front, last := actions[..|actions| - 1], actions[|actions| - 1];
      var w := Run(start, front);
      ReachableIsSafe(start, front);
      WorldStepSettles(w, last, side);
      if last == ExpireRequest(side, id) {
        assert actions[|actions| - 1] == last;
      } else {
        RejectedHasExpired(start, front, side, id);
      }
    }
  }

  /** A request of an open session that was not timed out is still pending or resolved. */
  lemma UnexpiredIsNotRejected(start: World, actions: seq<Action>, w: World, side: Side, id: nat)
    requires Reached(start, actions, w) && At(w, side).phase != Closed
    requires id in HostAt(w, side).issued && ExpireRequest(side, id) !in actions
    ensures id in At(w, side).requests || id in At(w, side).resolved
  {
    RequestsAreSettledOnce(start, actions, w, side);
    if id in At(w, side).rejected {
      RejectedHasExpired(start, actions, side, id);
    }
  }

  /**
   A diagnostics request that has neither timed out nor met a close is answered: once both queues are
   drained it is resolved, with exactly the last records the other computer held when it answered.
   */
  lemma UnexpiredRequestResolves(start: World, actions: seq<Action>, w: World, side: Side, id: nat)
    requires Reached(start, actions, w)
    requires At(w, AtInitiator).outbox == [] && At(w, AtResponder).outbox == []
    requires At(w, AtInitiator).phase != Closed && At(w, AtResponder).phase != Closed
    requires id in HostAt(w, side).issued && ExpireRequest(side, id) !in actions
    ensures id in At(w, side).resolved && id in w.answers
    ensures At(w, side).resolved[id] == LastRecords(w.answers[id].local, HostAt(w, side).issued[id])
  {
    UnexpiredIsNotRejected(start, actions, w, side, id);
    DrainedIsSettled(start, actions, w);
    assert SettledAt(w, side);
    DiagnosticsResolveExactly(start, actions, w, side, id);
  }

  // ---------- once for a run ----------

  lemma {:induction false} PrefixIsOrderly(start: World, actions: seq<Action>, n: nat)
    requires OrderlyRun(start, actions) && n <= |actions|
    ensures OrderlyRun(start, actions[..n])
    ensures n < |actions| ==> Orderly(Run(start, actions[..n]), actions[n])
    decreases |actions|
  {
    if n == |actions| {
      assert actions[..n] == actions;
    } else if n < |actions| - 1 {
      var front := actions[..|actions| - 1];
      PrefixIsOrderly(start, front, n);
      assert front[..n] == actions[..n] && front[n] == actions[n];
    }
  }

  /** The world before action `n` of a run. */
  function Before(start: World, actions: seq<Action>, n: nat): World
    requires n <= |actions|
  {
    Run(start, actions[..n])
  }

  lemma InvariantBefore(start: World, actions: seq<Action>, n: nat)
    requires IsInitial(start) && OrderlyRun(start, actions) && n < |actions|
    ensures Invariant(Before(start, actions, n)) && Orderly(Before(start, actions, n), actions[n])
  {
    PrefixIsOrderly(start, actions, n);
    ReachableIsSafe(start, actions[..n]);
  }

  lemma BeforeNext(start: World, actions: seq<Action>, n: nat)
    requires n < |actions|
    ensures Before(start, actions, n + 1) == Exec(Before(start, actions, n), actions[n])
  {
    var longer := actions[..n + 1];
    assert longer[..|longer| - 1] == actions[..n] && longer[|longer| - 1] == actions[n];
  }

  /** Action `n` of an orderly run. */
  lemma OneActionMore(start: World, actions: seq<Action>, n: nat)
    requires IsInitial(start) && OrderlyRun(start, actions) && n < |actions|
    ensures Invariant(Before(start, actions, n)) && Orderly(Before(start, actions, n), actions[n])
    ensures Before(start, actions, n + 1) == Exec(Before(start, actions, n), actions[n])
  {
    InvariantBefore(start, actions, n);
    BeforeNext(start, actions, n);
  }

  /** What a request has come to, it keeps. */
  predicate OutcomesStay(s: Session, after: Session) {
    && s.rejected <= after.rejected
    && forall id | id in s.resolved :: id in after.resolved && after.resolved[id] == s.resolved[id]
  }

  lemma ResolvedIsNotPending(w: World, side: Side)
    requires Invariant(w)
    ensures At(w, side).resolved.Keys !! At(w, side).requests.Keys
  {
    InvariantAt(w, side);
    SettledHost(HostAt(w, side), HostAt(w, Other(side)), w.answers, w.nextId);
  }

  lemma OutcomesStayOnce(s: Session, middle: Session, after: Session)
    requires OutcomesStay(s, middle) && middle.resolved.Keys !! middle.requests.Keys
    requires middle.rejected <= after.rejected && ResolvedStays(middle, after)
    ensures OutcomesStay(s, after)
  {
    forall id | id in s.resolved ensures id in after.resolved && after.resolved[id] == s.resolved[id] {
      assert id in middle.resolved.Keys;
      assert id !in middle.requests.Keys;
    }
  }

  lemma OutcomesStayHere(s: Session)
    ensures OutcomesStay(s, s)
  {
  }

  lemma OutcomesStayNext(start: World, actions: seq<Action>, n: nat, side: Side, s: Session)
    requires IsInitial(start) && OrderlyRun(start, actions) && n < |actions|
    requires OutcomesStay(s, At(Before(start, actions, n), side))
    ensures OutcomesStay(s, At(Before(start, actions, n + 1), side))
  {
    var w := Before(start, actions, n);
    OneActionMore(start, actions, n);
    WorldStepSettles(w, actions[n], side);
    ResolvedIsNotPending(w, side);
    OutcomesStayOnce(s, At(w, side), At(Exec(w, actions[n]), side));
  }

  /** A request that was resolved or rejected keeps its outcome, and its records, for the rest of the run. */
  lemma {:induction false} OutcomesAreFinal(start: World, actions: seq<Action>, m: nat, n: nat, side: Side)
    requires IsInitial(start) && OrderlyRun(start, actions) && m <= n <= |actions|
    ensures OutcomesStay(At(Before(start, actions, m), side), At(Before(start, actions, n), side))
    decreases n
  {
    if m == n {
      OutcomesStayHere(At(Before(start, actions, m), side));
    } else {
      OutcomesAreFinal(start, actions, m, n - 1, side);
      OutcomesStayNext(start, actions, n - 1, side, At(Before(start, actions, m), side));
    }
  }

  // ---------- one decision for a reversal ----------

  /** The action brings the session at `side` the decision on its reversal `id`. */
  predicate Decides(w: World, action: Action, side: Side, id: nat) {
    && action == Deliver(side) && At(w, Other(side)).outbox != []
    && match Received(At(w, side), At(w, Other(side)).outbox[0])
       case Some(ReversalDecision(decided, _)) => decided == id
       case _ => false
  }

  lemma DecisionIsForgotten(s: Session, frame: Wire, around: Surroundings, id: nat, accepted: bool)
    requires Received(s, frame) == Some(ReversalDecision(id, accepted))
    ensures HandleWireMessage(s, frame, around).outgoingReversal != Some(id)
  {
  }

  lemma DecidedIsForgotten(w: World, action: Action, side: Side, id: nat)
    requires Decides(w, action, side, id)
    ensures At(Exec(w, action), side).outgoingReversal != Some(id)
  {
    var frame := At(w, Other(side)).outbox[0];
    DecisionIsForgotten(At(w, side), frame, SurroundingsAt(w, side), id, Received(At(w, side), frame).value.accepted);
    StepAtSide(w, action, side);
  }

  lemma DecidedWasPending(w: World, action: Action, side: Side, id: nat)
    requires Invariant(w) && Decides(w, action, side, id)
    ensures At(w, side).outgoingReversal == Some(id)
  {
    InvariantAt(w, side);
    DecisionIsExpected(At(w, side), At(w, Other(side)));
  }

  lemma NextIdGrows(w: World, action: Action)
    ensures w.nextId <= Exec(w, action).nextId && (action.AskReversal? ==> w.nextId < Exec(w, action).nextId)
  {
  }

  /** A pending reversal has an id that was handed out. */
  predicate PendingIsOld(w: World, side: Side) {
    At(w, side).outgoingReversal.Some? ==> At(w, side).outgoingReversal.value < w.nextId
  }

  lemma PendingStaysOld(w: World, action: Action, side: Side)
    requires Invariant(w) && Orderly(w, action) && PendingIsOld(w, side)
    ensures PendingIsOld(Exec(w, action), side)
  {
    WorldStepSettles(w, action, side);
    NextIdGrows(w, action);
  }

  lemma PendingNext(start: World, actions: seq<Action>, n: nat, side: Side)
    requires IsInitial(start) && OrderlyRun(start, actions) && n < |actions| && PendingIsOld(Before(start, actions, n), side)
    ensures PendingIsOld(Before(start, actions, n + 1), side)
  {
    OneActionMore(start, actions, n);
    PendingStaysOld(Before(start, actions, n), actions[n], side);
  }

  lemma NothingPendingAtFirst(start: World, actions: seq<Action>, side: Side)
    requires IsInitial(start)
    ensures PendingIsOld(Before(start, actions, 0), side)
  {
    assert actions[..0] == [];
  }

  lemma {:induction false} PendingWasHandedOut(start: World, actions: seq<Action>, n: nat, side: Side)
    requires IsInitial(start) && OrderlyRun(start, actions) && n <= |actions|
    ensures PendingIsOld(Before(start, actions, n), side)
    decreases n
  {
    if n == 0 {
      NothingPendingAtFirst(start, actions, side);
    } else {
      PendingWasHandedOut(start, actions, n - 1, side);
      PendingNext(start, actions, n - 1, side);
    }
  }

  /** The reversal with this id is not pending, and never will be. */
  predicate IsOver(w: World, side: Side, id: nat) { At(w, side).outgoingReversal != Some(id) && id < w.nextId }

  lemma OverStays(w: World, action: Action, side: Side, id: nat)
    requires Invariant(w) && Orderly(w, action) && IsOver(w, side, id)
    ensures IsOver(Exec(w, action), side, id)
  {
    WorldStepSettles(w, action, side);
    NextIdGrows(w, action);
  }

  lemma DecidedIsOver(w: World, action: Action, side: Side, id: nat)
    requires Invariant(w) && Decides(w, action, side, id) && PendingIsOld(w, side)
    ensures IsOver(Exec(w, action), side, id)
  {
    DecidedWasPending(w, action, side, id);
    DecidedIsForgotten(w, action, side, id);
    NextIdGrows(w, action);
  }

  lemma OverNext(start: World, actions: seq<Action>, n: nat, side: Side, id: nat)
    requires IsInitial(start) && OrderlyRun(start, actions) && n < |actions| && IsOver(Before(start, actions, n), side, id)
    ensures IsOver(Before(start, actions, n + 1), side, id)
  {
    OneActionMore(start, actions, n);
    OverStays(Before(start, actions, n), actions[n], side, id);
  }

  lemma OverAtOnce(start: World, actions: seq<Action>, n: nat, side: Side, id: nat)
    requires IsInitial(start) && OrderlyRun(start, actions) && n < |actions|
    requires Decides(Before(start, actions, n), actions[n], side, id)
    ensures IsOver(Before(start, actions, n + 1), side, id)
  {
    OneActionMore(start, actions, n);
    PendingWasHandedOut(start, actions, n, side);
    DecidedIsOver(Before(start, actions, n), actions[n], side, id);
  }

  lemma {:induction false} OverAfter(start: World, actions: seq<Action>, m: nat, n: nat, side: Side, id: nat)
    requires IsInitial(start) && OrderlyRun(start, actions) && m < n <= |actions|
    requires IsOver(Before(start, actions, m + 1), side, id)
    ensures IsOver(Before(start, actions, n), side, id)
    decreases n
  {
    if m + 1 < n {
      OverAfter(start, actions, m, n - 1, side, id);
      OverNext(start, actions, n - 1, side, id);
    }
  }

  lemma OverIsNotDecided(start: World, actions: seq<Action>, n: nat, side: Side, id: nat)
    requires IsInitial(start) && OrderlyRun(start, actions) && n < |actions| && IsOver(Before(start, actions, n), side, id)
    ensures !Decides(Before(start, actions, n), actions[n], side, id)
  {
    OneActionMore(start, actions, n);
    if Decides(Before(start, actions, n), actions[n], side, id) {
      DecidedWasPending(Before(start, actions, n), actions[n], side, id);
    }
  }

  /** A reversal request gets at most one decision in a whole run. */
  lemma DecidedAtMostOnce(start: World, actions: seq<Action>, m: nat, n: nat, side: Side, id: nat)
    requires IsInitial(start) && OrderlyRun(start, actions) && m < n < |actions|
    requires Decides(Before(start, actions, m), actions[m], side, id)
    ensures !Decides(Before(start, actions, n), actions[n], side, id)
  {
    OverAtOnce(start, actions, m, side, id);
    OverAfter(start, actions, m, n, side, id);
    OverIsNotDecided(start, actions, n, side, id);
  }
}
