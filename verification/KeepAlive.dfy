/**
 The health check: a session closes for silence exactly when nothing has been heard for longer than
 the timeout, a silent peer is noticed within one more interval, and a peer that answers in time is kept.
 */
module KeepAlive {
  import opened Wrappers
  import opened ProtocolContracts
  import opened SessionCryptography
  import opened SessionModel
  import opened SessionRuns

  // ---------- when something was last heard ----------

  /** The time at which an event happens, for the events that look at the clock. */
  function TimeOf(event: Event): Option<int> {
    match event
    case Receive(_, around) => Some(around.now)
    case Answer(_, _, _, now) => Some(now)
    case TrustStored(now) => Some(now)
    case Tick(now, _) => Some(now)
    case _ => None
  }

  /** Past the hello, an envelope counts as a sign of life even if it turns out not to open. */
  predicate Heard(s: Session, event: Event) {
    event.Receive? && event.frame.SecureFrame? && s.cipher.Some? && !Greeting(s)
  }

  lemma SendingIsNotHearing(s: Session, message: Message)
    ensures SendSecure(s, message).session.lastSecureAt == s.lastSecureAt
  {
  }

  lemma {:induction false} BatchesAreNotHearing(s: Session, id: nat, records: seq<DiagnosticRecord>, offset: nat)
    requires offset <= |records|
    ensures SendBatches(s, id, records, offset).session.lastSecureAt == s.lastSecureAt
    decreases |records| - offset
  {
    if offset < |records| {
      var end := if offset + BATCH_RECORD_COUNT < |records| then offset + BATCH_RECORD_COUNT else |records|;
      var message := DiagnosticsBatch(id, records[offset..end], end >= |records|);
      SendingIsNotHearing(s, message);
      BatchesAreNotHearing(SendSecure(s, message).session, id, records, end);
    }
  }

  /** The time last heard stays, or becomes the time of the event. */
  predicate Hears(s: Session, after: Session, now: int) {
    after.lastSecureAt == s.lastSecureAt || after.lastSecureAt == now
  }

  lemma EnteringHears(s: Session, now: int, promptId: nat)
    ensures Hears(s, EnterConsentPhase(s, now, promptId).session, now)
  {
    var entered := StartKeepAlive(s.(handshakeTimer := false, phase := AwaitingConsent), now);
    SendingIsNotHearing(entered.(prompt := Some(Prompt(promptId, Pairing, WaitingForPeer)), localConsent := Some(true)),
                        ConsentDecision(true));
    SendingIsNotHearing(entered.(prompt := None, localConsent := Some(true)), ConsentDecision(true));
  }

  lemma ReadyHears(s: Session, now: int, promptId: nat)
    ensures Hears(s, HandleReady(s, now, promptId).session, now)
  {
    SendingIsNotHearing(s, ReadyAcknowledged);
    EnteringHears(SendSecure(s, ReadyAcknowledged).session, now, promptId);
  }

  lemma ConsentHears(s: Session, accepted: bool, now: int)
    ensures Hears(s, HandleConsentDecision(s, accepted, now).session, now)
  {
  }

  lemma DiagnosticsHear(s: Session, id: nat, limit: nat, local: seq<DiagnosticRecord>)
    ensures HandleDiagnosticsRequest(s, id, limit, local).session.lastSecureAt == s.lastSecureAt
  {
    SendingIsNotHearing(s, DiagnosticsBatch(id, [], true));
    BatchesAreNotHearing(s, id, LastRecords(local, limit), 0);
  }

  lemma BatchHears(s: Session, id: nat, records: seq<DiagnosticRecord>, complete: bool)
    ensures HandleDiagnosticsBatch(s, id, records, complete).session.lastSecureAt == s.lastSecureAt
  {
  }

  lemma ReversalHears(s: Session, id: nat, promptId: nat)
    ensures HandleReversalRequest(s, id, promptId).session.lastSecureAt == s.lastSecureAt
  {
    SendingIsNotHearing(s, ReversalDecision(id, false));
  }

  lemma SecureHears(s: Session, message: Message, around: Surroundings)
    ensures Hears(s, HandleSecure(s, message, around).session, around.now)
  {
    match message
    case Ready => ReadyHears(s, around.now, around.promptId);
    case ReadyAcknowledged => EnteringHears(s, around.now, around.promptId);
    case ConsentDecision(accepted) => ConsentHears(s, accepted, around.now);
    case Ping(id) => SendingIsNotHearing(s, Pong(id));
    case ReversalRequest(id) => ReversalHears(s, id, around.promptId);
    case DiagnosticsRequest(id, limit) => DiagnosticsHear(s, id, limit, around.local);
    case DiagnosticsBatch(id, records, complete) => BatchHears(s, id, records, complete);
    case _ =>
  }

  /** An envelope sets the time, whatever it holds. */
  lemma EnvelopeIsHeard(s: Session, frame: Wire, around: Surroundings)
    requires Heard(s, Receive(frame, around))
    ensures HandleWireMessage(s, frame, around).lastSecureAt == around.now
  {
    var outcome := HandleEnvelope(s, frame.envelope, around);
    EnvelopeSetsTheTime(s, frame.envelope, around);
    assert Dispatch(s, frame, around) == outcome;
    ClosingIsNotHearing(outcome.session, false);
  }

  lemma EnvelopeSetsTheTime(s: Session, envelope: Envelope, around: Surroundings)
    requires s.cipher.Some?
    ensures HandleEnvelope(s, envelope, around).session.lastSecureAt == around.now
  {
    if Opened(s.cipher.value, envelope).Some? {
      SecureHears(s.(lastSecureAt := around.now, cipher := Some(s.cipher.value.(received := envelope.counter))),
                  Opened(s.cipher.value, envelope).value, around);
    }
  }

  lemma ClientHelloIsNotHeard(s: Session, hello: ClientHello, trust: Trust)
    ensures HandleClientHello(s, hello, trust).session.lastSecureAt == s.lastSecureAt
  {
  }

  lemma ServerHelloIsNotHeard(s: Session, hello: ServerHello)
    ensures HandleServerHello(s, hello).session.lastSecureAt == s.lastSecureAt
  {
    if s.clientHello.Some? {
      SendingIsNotHearing(Met(s, s.clientHello.value, hello), Ready);
    }
  }

  lemma ClosingIsNotHearing(s: Session, expected: bool)
    ensures CloseWithError(s, expected).lastSecureAt == s.lastSecureAt
  {
  }

  lemma OthersAreNotHeard(s: Session, frame: Wire, around: Surroundings)
    requires !Heard(s, Receive(frame, around))
    ensures HandleWireMessage(s, frame, around).lastSecureAt == s.lastSecureAt
  {
    var outcome := Dispatch(s, frame, around);
    if s.phase == AwaitingClientHello && frame.ClientHelloFrame? {
      ClientHelloIsNotHeard(s, frame.clientHello, around.trust);
    } else if s.phase == AwaitingServerHello && frame.ServerHelloFrame? {
      ServerHelloIsNotHeard(s, frame.serverHello);
    } else {
      assert outcome == Throw(s);
    }
    ClosingIsNotHearing(outcome.session, false);
  }

  lemma AnswerHears(s: Session, promptId: nat, accepted: bool, entered: Option<Code>, now: int)
    ensures Hears(s, RespondToPrompt(s, promptId, accepted, entered, now).session, now)
  {
    if s.incomingReversal.Some? {
      SendingIsNotHearing(s.(incomingReversal := None, prompt := None), ReversalDecision(s.incomingReversal.value, accepted));
    }
    var decided := s.(prompt := None, localConsent := Some(accepted));
    SendingIsNotHearing(decided, ConsentDecision(accepted));
    EstablishHears(SendSecure(decided, ConsentDecision(accepted)).session, now);
  }

  lemma EstablishHears(s: Session, now: int)
    ensures Hears(s, TryEstablish(s, now), now)
  {
  }

  lemma LeavingIsNotHearing(s: Session)
    ensures DisconnectSession(s).lastSecureAt == s.lastSecureAt
  {
    SendingIsNotHearing(s, Disconnect);
    ClosingIsNotHearing(SendSecure(s, Disconnect).session, true);
    ClosingIsNotHearing(s, true);
  }

  lemma TickingIsNotHearing(s: Session, now: int, id: nat)
    ensures KeepAliveTick(s, now, id).session.lastSecureAt == s.lastSecureAt
  {
    ClosingIsNotHearing(s, false);
    SendingIsNotHearing(s.(pings := s.pings + {id}), Ping(id));
  }

  lemma AskingIsNotHearing(s: Session, limit: int, id: nat)
    ensures RequestDiagnostics(s, limit, id).session.lastSecureAt == s.lastSecureAt
    ensures RequestReversal(s, id).session.lastSecureAt == s.lastSecureAt
  {
    SendingIsNotHearing(s.(requests := s.requests[id := PendingRequest(BoundedLimit(limit), [])]),
                        DiagnosticsRequest(id, BoundedLimit(limit)));
    SendingIsNotHearing(s.(outgoingReversal := Some(id)), ReversalRequest(id));
  }

  /** Every event leaves the time or sets it to its own; a heard envelope sets it. */
  lemma StepHears(s: Session, event: Event)
    ensures var after := After(s, event);
            && (after.lastSecureAt == s.lastSecureAt || Some(after.lastSecureAt) == TimeOf(event))
            && (Heard(s, event) ==> Some(after.lastSecureAt) == TimeOf(event))
  {
    match event
    case Receive(frame, around) =>
      if Heard(s, event) {
        EnvelopeIsHeard(s, frame, around);
      } else {
        OthersAreNotHeard(s, frame, around);
      }
    case Answer(promptId, accepted, entered, now) => AnswerHears(s, promptId, accepted, entered, now);
    case AskReversal(id) => AskingIsNotHearing(s, 1, id);
    case AskDiagnostics(limit, id) => AskingIsNotHearing(s, limit, id);
    case SendSignal(signal) => SendingIsNotHearing(s, MediaSignal(signal));
    case Tick(now, id) => TickingIsNotHearing(s, now, id);
    case Leave => LeavingIsNotHearing(s);
    case _ =>
  }

  // ---------- the clock ----------

  /** The clock of a run never shows less than `start` ... */
  predicate NotBefore(start: int, events: seq<Event>) {
    forall k | 0 <= k < |events| :: TimeOf(events[k]).Some? ==> start <= TimeOf(events[k]).value
  }

  /** ... and never goes back. */
  predicate NeverBack(events: seq<Event>) {
    forall j, k | 0 <= j < k < |events| ::
      TimeOf(events[j]).Some? && TimeOf(events[k]).Some? ==> TimeOf(events[j]).value <= TimeOf(events[k]).value
  }

  predicate Clocked(start: int, events: seq<Event>) { NotBefore(start, events) && NeverBack(events) }

  lemma ClockOrder(events: seq<Event>, j: nat, k: nat)
    requires NeverBack(events) && j <= k < |events| && TimeOf(events[j]).Some? && TimeOf(events[k]).Some?
    ensures TimeOf(events[j]).value <= TimeOf(events[k]).value
  {
  }

  // ---------- the states of a run ----------

  /** The session as each event finds it, and as the last one leaves it. */
  function States(s: Session, events: seq<Event>): (states: seq<Session>)
    ensures |states| == |events| + 1
  {
    seq(|events| + 1, k requires 0 <= k <= |events| => AfterAll(s, events[..k]))
  }

  lemma OneMore(s: Session, events: seq<Event>, k: nat)
    requires k < |events|
    ensures States(s, events)[k + 1] == After(States(s, events)[k], events[k])
  {
    assert events[..k + 1][..k] == events[..k];
  }

  predicate StepTimed(s: Session, after: Session, event: Event) {
    && (after.lastSecureAt == s.lastSecureAt || Some(after.lastSecureAt) == TimeOf(event))
    && (Heard(s, event) ==> Some(after.lastSecureAt) == TimeOf(event))
  }

  /** Every event leaves the time last heard or sets it to its own; a heard envelope sets it. */
  predicate Timed(states: seq<Session>, events: seq<Event>) {
    |states| == |events| + 1 && forall k | 0 <= k < |events| :: StepTimed(states[k], states[k + 1], events[k])
  }

  lemma RunIsTimed(s: Session, events: seq<Event>)
    ensures Timed(States(s, events), events)
  {
    forall k | 0 <= k < |events| ensures StepTimed(States(s, events)[k], States(s, events)[k + 1], events[k]) {
      OneMore(s, events, k);
      StepHears(States(s, events)[k], events[k]);
    }
  }

  /** The time last heard is at least the start. */
  lemma {:induction false} HeardSinceStart(start: int, states: seq<Session>, events: seq<Event>, n: nat)
    requires Timed(states, events) && NotBefore(start, events) && start <= states[0].lastSecureAt && n <= |events|
    ensures start <= states[n].lastSecureAt
  {
    if n > 0 {
      HeardSinceStart(start, states, events, n - 1);
      assert StepTimed(states[n - 1], states[n], events[n - 1]);
    }
  }

  /** The time last heard is at least that of every envelope heard. */
  lemma {:induction false} HeardSince(states: seq<Session>, events: seq<Event>, k: nat, n: nat)
    requires Timed(states, events) && NeverBack(events) && k < n <= |events| && Heard(states[k], events[k])
    ensures TimeOf(events[k]).value <= states[n].lastSecureAt
    decreases n
  {
    assert StepTimed(states[n - 1], states[n], events[n - 1]);
    if k < n - 1 {
      HeardSince(states, events, k, n - 1);
      if TimeOf(events[n - 1]).Some? {
        ClockOrder(events, k, n - 1);
      }
    }
  }

  // ---------- closing for silence ----------

  lemma TickClosesIff(s: Session, now: int, id: nat)
    requires s.phase != Closed
    ensures KeepAliveTick(s, now, id).session.phase == (if now - s.lastSecureAt > HealthTimeout(s) then Closed else s.phase)
  {
  }

  /** A tick closes an open session exactly for silence. */
  predicate TicksRightly(s: Session, after: Session, event: Event) {
    event.Tick? && s.phase != Closed ==>
      after.phase == (if event.now - s.lastSecureAt > HealthTimeout(s) then Closed else s.phase)
  }

  lemma RunTicksRightly(s: Session, events: seq<Event>, n: nat)
    requires n < |events|
    ensures TicksRightly(States(s, events)[n], States(s, events)[n + 1], events[n])
  {
    var before := States(s, events)[n];
    OneMore(s, events, n);
    if events[n].Tick? && before.phase != Closed {
      TickClosesIff(before, events[n].now, events[n].id);
    }
  }

  /** The start and every envelope heard before event `n` lie more than the timeout back. */
  predicate SilentFor(start: int, states: seq<Session>, events: seq<Event>, n: nat, now: int)
    requires |states| == |events| + 1 && n <= |events|
  {
    && now - start > HealthTimeout(states[n])
    && forall k | 0 <= k < n && Heard(states[k], events[k]) :: now - TimeOf(events[k]).value > HealthTimeout(states[n])
  }

  lemma LongAgo(start: int, states: seq<Session>, events: seq<Event>, n: nat, now: int)
    requires Timed(states, events) && Clocked(start, events) && n <= |events|
    requires start <= states[0].lastSecureAt && now - states[n].lastSecureAt > HealthTimeout(states[n])
    ensures SilentFor(start, states, events, n, now)
  {
    HeardSinceStart(start, states, events, n);
    forall k | 0 <= k < n && Heard(states[k], events[k])
      ensures now - TimeOf(events[k]).value > HealthTimeout(states[n])
    {
      HeardSince(states, events, k, n);
    }
  }

  /**
   When the health check closes a session, every envelope it ever heard, and its start, lie more than
   the whole timeout back.
   */
  lemma HealthTimeoutMeansSilence(s: Session, events: seq<Event>, n: nat)
    requires Clocked(s.lastSecureAt, events) && n < |events| && events[n].Tick?
    requires States(s, events)[n].phase != Closed && States(s, events)[n + 1].phase == Closed
    ensures SilentFor(s.lastSecureAt, States(s, events), events, n, events[n].now)
  {
    RunIsTimed(s, events);
    RunTicksRightly(s, events, n);
    LongAgo(s.lastSecureAt, States(s, events), events, n, events[n].now);
  }

  // ---------- the interval timer ----------

  /** There was a tick `m` intervals before tick `n`. */
  predicate TickBack(events: seq<Event>, n: nat, m: nat)
    requires n < |events| && events[n].Tick?
  {
    exists i | 0 <= i < n :: events[i].Tick? && events[i].now == events[n].now - KEEP_ALIVE_INTERVAL_MS * m
  }

  /** The ticks of a run are those of an interval timer started at `start`. */
  ghost predicate IdealTicks(start: int, events: seq<Event>) {
    forall n: nat, m: nat | n < |events| && events[n].Tick? && 1 <= m ::
      start < events[n].now - KEEP_ALIVE_INTERVAL_MS * m ==> TickBack(events, n, m)
  }

  // ---------- a silent peer ----------

  /** The session has closed, or its timer runs on, it was last heard at the same time, and a connection stays one. */
  predicate WaitsOn(s: Session, after: Session) {
    after.phase == Closed ||
    (after.keepAliveTimer && after.lastSecureAt == s.lastSecureAt && (s.phase == Connected ==> after.phase == Connected))
  }

  lemma SendingWaitsOn(s: Session, changed: Session, message: Message)
    requires changed.keepAliveTimer && changed.lastSecureAt == s.lastSecureAt && changed.phase == s.phase
    ensures var after := SendSecure(changed, message).session;
            after.keepAliveTimer && after.lastSecureAt == s.lastSecureAt && after.phase == s.phase
  {
  }

  lemma ClientHelloWaitsOn(s: Session, hello: ClientHello, trust: Trust)
    requires s.keepAliveTimer && s.phase == AwaitingClientHello && !HandleClientHello(s, hello, trust).threw
    ensures WaitsOn(s, HandleClientHello(s, hello, trust).session)
  {
  }

  lemma ServerHelloWaitsOn(s: Session, hello: ServerHello)
    requires s.keepAliveTimer && s.phase == AwaitingServerHello && !HandleServerHello(s, hello).threw
    ensures WaitsOn(s, HandleServerHello(s, hello).session)
  {
    var met := Met(s, s.clientHello.value, hello);
    assert HandleServerHello(s, hello) == SendSecure(met, Ready);
    SendingWaitsOn(met, met, Ready);
  }

  lemma HelloWaitsOn(s: Session, frame: Wire, around: Surroundings)
    requires s.keepAliveTimer && Greeting(s)
    ensures WaitsOn(s, HandleWireMessage(s, frame, around))
  {
    if !Dispatch(s, frame, around).threw {
      if s.phase == AwaitingClientHello {
        ClientHelloWaitsOn(s, frame.clientHello, around.trust);
      } else {
        ServerHelloWaitsOn(s, frame.serverHello);
      }
    }
  }

  lemma UnheardWaitsOn(s: Session, frame: Wire, around: Surroundings)
    requires s.keepAliveTimer && !Heard(s, Receive(frame, around))
    ensures WaitsOn(s, HandleWireMessage(s, frame, around))
  {
    if Greeting(s) {
      HelloWaitsOn(s, frame, around);
    } else {
      assert Dispatch(s, frame, around) == Throw(s);
    }
  }

  lemma EstablishWaitsOn(s: Session, now: int)
    requires s.keepAliveTimer
    ensures WaitsOn(s, TryEstablish(s, now))
  {
  }

  lemma PairingAnswerWaitsOn(s: Session, mode: PromptMode, accepted: bool, entered: Option<Code>, now: int)
    requires s.keepAliveTimer
    ensures WaitsOn(s, RespondToPairing(s, mode, accepted, entered, now).session)
  {
    var changed := s.(prompt := None, localConsent := Some(accepted));
    var sent := SendSecure(changed, ConsentDecision(accepted)).session;
    SendingWaitsOn(s, changed, ConsentDecision(accepted));
    EstablishWaitsOn(sent, now);
  }

  lemma ReversalAnswerWaitsOn(s: Session, accepted: bool)
    requires s.keepAliveTimer
    ensures WaitsOn(s, RespondToReversal(s, accepted).session)
  {
    if s.incomingReversal.Some? {
      SendingWaitsOn(s, s.(incomingReversal := None, prompt := None), ReversalDecision(s.incomingReversal.value, accepted));
    }
  }

  lemma AnswerWaitsOn(s: Session, promptId: nat, accepted: bool, entered: Option<Code>, now: int)
    requires s.keepAliveTimer
    ensures WaitsOn(s, RespondToPrompt(s, promptId, accepted, entered, now).session)
  {
    PairingAnswerWaitsOn(s, if s.prompt.Some? then s.prompt.value.mode else Decision, accepted, entered, now);
    ReversalAnswerWaitsOn(s, accepted);
  }

  lemma AskingWaitsOn(s: Session, limit: int, id: nat)
    requires s.keepAliveTimer
    ensures WaitsOn(s, RequestDiagnostics(s, limit, id).session) && WaitsOn(s, RequestReversal(s, id).session)
  {
    SendingWaitsOn(s, s.(requests := s.requests[id := PendingRequest(BoundedLimit(limit), [])]),
                   DiagnosticsRequest(id, BoundedLimit(limit)));
    SendingWaitsOn(s, s.(outgoingReversal := Some(id)), ReversalRequest(id));
  }

  /** Until something is heard, an open session goes on waiting from the same moment. */
  lemma SilentStep(s: Session, event: Event)
    requires s.phase != Closed && s.keepAliveTimer && !Heard(s, event)
    ensures WaitsOn(s, After(s, event))
  {
    match event
    case Receive(frame, around) => UnheardWaitsOn(s, frame, around);
    case Answer(promptId, accepted, entered, now) => AnswerWaitsOn(s, promptId, accepted, entered, now);
    case AskReversal(id) => AskingWaitsOn(s, 1, id);
    case AskDiagnostics(limit, id) => AskingWaitsOn(s, limit, id);
    case SendSignal(signal) => SendingWaitsOn(s, s, MediaSignal(signal));
    case Tick(now, id) => SendingWaitsOn(s, s.(pings := s.pings + {id}), Ping(id));
    case Leave => assert After(s, event).phase == Closed;
    case _ =>
  }

  // ---------- a silent time ----------

  /** Nothing is heard before event `n`. */
  predicate Silent(states: seq<Session>, events: seq<Event>, n: nat)
    requires |states| == |events| + 1 && n <= |events|
  {
    forall k | 0 <= k < n :: !Heard(states[k], events[k])
  }

  predicate OpenUpTo(states: seq<Session>, n: nat)
    requires n < |states|
  {
    forall k | 0 <= k <= n :: states[k].phase != Closed
  }

  /** Up to state `n` every open state goes on waiting. */
  predicate WaitsUpTo(states: seq<Session>, n: nat)
    requires n < |states|
  {
    forall k | 0 <= k < n :: states[k].phase != Closed && states[k].keepAliveTimer ==> WaitsOn(states[k], states[k + 1])
  }

  lemma SilentRunWaits(s: Session, events: seq<Event>, n: nat)
    requires n <= |events| && Silent(States(s, events), events, n)
    ensures WaitsUpTo(States(s, events), n)
  {
    forall k | 0 <= k < n && States(s, events)[k].phase != Closed && States(s, events)[k].keepAliveTimer
      ensures WaitsOn(States(s, events)[k], States(s, events)[k + 1])
    {
      OneMore(s, events, k);
      SilentStep(States(s, events)[k], events[k]);
    }
  }

  /** Two moments of a silent time: the later one waits from the same moment, with no shorter timeout. */
  lemma {:induction false} StillWaiting(states: seq<Session>, i: nat, n: nat)
    requires i <= n < |states| && states[0].keepAliveTimer && WaitsUpTo(states, n) && OpenUpTo(states, n)
    ensures states[i].lastSecureAt == states[n].lastSecureAt == states[0].lastSecureAt && states[n].keepAliveTimer
    ensures HealthTimeout(states[i]) <= HealthTimeout(states[n])
    decreases n
  {
    if n > 0 {
      StillWaiting(states, if i < n then i else n - 1, n - 1);
      assert WaitsOn(states[n - 1], states[n]);
    }
  }

  /** The first event that closes the session. */
  lemma {:induction false} FirstClosing(states: seq<Session>, m: nat) returns (n: nat)
    requires 0 < m < |states| && states[0].phase != Closed && states[m].phase == Closed
    ensures n < m && OpenUpTo(states, n) && states[n + 1].phase == Closed
    decreases m
  {
    if k: nat :| k < m && states[k].phase == Closed {
      n := FirstClosing(states, k);
    } else {
      n := m - 1;
    }
  }

  /** Every tick up to event `n` does what a tick does. */
  predicate TicksUpTo(states: seq<Session>, events: seq<Event>, n: nat)
    requires |states| == |events| + 1 && n < |events|
  {
    forall k | 0 <= k <= n :: TicksRightly(states[k], states[k + 1], events[k])
  }

  lemma RunTicks(s: Session, events: seq<Event>, n: nat)
    requires n < |events|
    ensures TicksUpTo(States(s, events), events, n)
  {
    forall k | 0 <= k <= n ensures TicksRightly(States(s, events)[k], States(s, events)[k + 1], events[k]) {
      RunTicksRightly(s, events, k);
    }
  }

  /** A tick that leaves a waiting session open does not come later than its timeout. */
  lemma OpenTick(states: seq<Session>, events: seq<Event>, j: nat, n: nat)
    requires |states| == |events| + 1 && j < n < |events| && events[j].Tick? && states[0].keepAliveTimer
    requires WaitsUpTo(states, n) && OpenUpTo(states, n) && TicksUpTo(states, events, n)
    ensures events[j].now <= states[0].lastSecureAt + HealthTimeout(states[n])
  {
    StillWaiting(states, j, n);
    assert TicksRightly(states[j], states[j + 1], events[j]);
  }

  /** A tick of a silent time that finds the session open is at most one interval late. */
  lemma TickInTime(start: int, states: seq<Session>, events: seq<Event>, i: nat, n: nat)
    requires |states| == |events| + 1 && i <= n < |events| && events[i].Tick?
    requires states[0].keepAliveTimer && start <= states[0].lastSecureAt && IdealTicks(start, events)
    requires WaitsUpTo(states, n) && OpenUpTo(states, n) && TicksUpTo(states, events, n)
    ensures events[i].now <= states[0].lastSecureAt + HealthTimeout(states[n]) + KEEP_ALIVE_INTERVAL_MS
  {
    if start < events[i].now - KEEP_ALIVE_INTERVAL_MS {
      assert TickBack(events, i, 1);
      var j :| 0 <= j < i && events[j].Tick? && events[j].now == events[i].now - KEEP_ALIVE_INTERVAL_MS * 1;
      OpenTick(states, events, j, n);
    }
  }

  /**
   Event `n` is the first to close the session; if it is a tick it is later than the timeout, and no tick up to
   it is more than one interval later than that.
   */
  predicate NoticedAt(states: seq<Session>, events: seq<Event>, n: nat)
    requires |states| == |events| + 1 && n < |events|
  {
    var deadline := states[0].lastSecureAt + HealthTimeout(states[n]);
    && OpenUpTo(states, n) && states[n + 1].phase == Closed
    && (events[n].Tick? ==> events[n].now > deadline)
    && forall i | 0 <= i <= n && events[i].Tick? :: events[i].now <= deadline + KEEP_ALIVE_INTERVAL_MS
  }

  lemma ClosingInTime(start: int, states: seq<Session>, events: seq<Event>, n: nat)
    requires |states| == |events| + 1 && n < |events|
    requires states[0].keepAliveTimer && start <= states[0].lastSecureAt && IdealTicks(start, events)
    requires WaitsUpTo(states, n) && OpenUpTo(states, n) && TicksUpTo(states, events, n) && states[n + 1].phase == Closed
    ensures NoticedAt(states, events, n)
  {
    StillWaiting(states, n, n);
    assert TicksRightly(states[n], states[n + 1], events[n]);
    forall i | 0 <= i <= n && events[i].Tick?
      ensures events[i].now <= states[0].lastSecureAt + HealthTimeout(states[n]) + KEEP_ALIVE_INTERVAL_MS
    {
      TickInTime(start, states, events, i, n);
    }
  }

  lemma NoticedBy(states: seq<Session>, events: seq<Event>, late: nat) returns (n: nat)
    requires |states| == |events| + 1 && late < |events| && states[0].phase != Closed && states[0].keepAliveTimer
    requires WaitsUpTo(states, late) && TicksUpTo(states, events, late)
    requires events[late].Tick? && events[late].now > states[0].lastSecureAt + HealthTimeout(states[late])
    ensures n <= late && OpenUpTo(states, n) && states[n + 1].phase == Closed
  {
    if k: nat :| k <= late && states[k].phase == Closed {
      n := FirstClosing(states, k);
    } else {
      StillWaiting(states, late, late);
      assert TicksRightly(states[late], states[late + 1], events[late]);
      n := late;
    }
  }

  /**
   A peer that falls silent is noticed within the timeout and one interval, whatever the user does
   meanwhile.  With the timer running and nothing heard, a tick later than the timeout of its phase
   closes the session or finds it closed; the event that closed it first, if it was a tick, came later
   than the timeout, and no tick up to it came more than one interval later than that.
   */
  lemma SilenceIsNoticed(s: Session, start: int, events: seq<Event>, late: nat) returns (n: nat)
    requires s.phase != Closed && s.keepAliveTimer && start <= s.lastSecureAt && IdealTicks(start, events)
    requires late < |events| && events[late].Tick? && Silent(States(s, events), events, late)
    requires events[late].now > s.lastSecureAt + HealthTimeout(States(s, events)[late])
    ensures n <= late && NoticedAt(States(s, events), events, n)
  {
    SilentRunWaits(s, events, late);
    RunTicks(s, events, late);
    n := NoticedBy(States(s, events), events, late);
    ClosingInTime(start, States(s, events), events, n);
  }

  // ---------- a peer that answers in time ----------

  predicate HeardBetween(states: seq<Session>, events: seq<Event>, i: nat, n: nat)
    requires |states| == |events| + 1 && n <= |events|
  {
    exists j | i < j < n :: Heard(states[j], events[j])
  }

  /** After every tick an envelope is heard within `delay`: before any tick that comes that much later. */
  predicate AnsweredWithin(states: seq<Session>, events: seq<Event>, delay: nat)
    requires |states| == |events| + 1
  {
    forall i: nat, n: nat {:trigger HeardBetween(states, events, i, n)} |
      i < n < |events| && events[i].Tick? && events[n].Tick? && events[n].now >= events[i].now + delay ::
      HeardBetween(states, events, i, n)
  }

  /** How many intervals back the tick lies whose answer has certainly arrived. */
  function Lag(delay: nat): (m: nat)
    ensures m >= 1 && delay <= KEEP_ALIVE_INTERVAL_MS * m <= delay + KEEP_ALIVE_INTERVAL_MS
  {
    1 + delay / KEEP_ALIVE_INTERVAL_MS
  }

  /** The tick `m` intervals back and the envelope that answered it. */
  lemma AnswerOf(states: seq<Session>, events: seq<Event>, delay: nat, n: nat, m: nat) returns (j: nat)
    requires |states| == |events| + 1 && AnsweredWithin(states, events, delay) && NeverBack(events)
    requires n < |events| && events[n].Tick? && TickBack(events, n, m) && delay <= KEEP_ALIVE_INTERVAL_MS * m
    ensures j < n && Heard(states[j], events[j])
    ensures TimeOf(events[j]).value >= events[n].now - KEEP_ALIVE_INTERVAL_MS * m
  {
    var i :| 0 <= i < n && events[i].Tick? && events[i].now == events[n].now - KEEP_ALIVE_INTERVAL_MS * m;
    assert HeardBetween(states, events, i, n);
    j :| i < j < n && Heard(states[j], events[j]);
    ClockOrder(events, i, j);
  }

  lemma RecentlyHeard(start: int, states: seq<Session>, events: seq<Event>, delay: nat, n: nat)
    requires Timed(states, events) && states[0].lastSecureAt == start
    requires Clocked(start, events) && IdealTicks(start, events) && AnsweredWithin(states, events, delay)
    requires n < |events| && events[n].Tick?
    ensures events[n].now - states[n].lastSecureAt <= delay + KEEP_ALIVE_INTERVAL_MS
  {
    var m := Lag(delay);
    if start < events[n].now - KEEP_ALIVE_INTERVAL_MS * m {
      assert TickBack(events, n, m);
      var j := AnswerOf(states, events, delay, n, m);
      HeardSince(states, events, j, n);
    } else {
      HeardSinceStart(start, states, events, n);
    }
  }

  /**
   A peer whose answer to every ping is heard within the timeout of the phase less one interval is
   never closed for its health, neither while pairing nor when connected.
   */
  lemma AnsweringPeerIsKept(s: Session, events: seq<Event>, delay: nat, n: nat)
    requires Clocked(s.lastSecureAt, events) && IdealTicks(s.lastSecureAt, events)
    requires AnsweredWithin(States(s, events), events, delay)
    requires n < |events| && events[n].Tick? && States(s, events)[n].phase != Closed
    requires delay + KEEP_ALIVE_INTERVAL_MS <= HealthTimeout(States(s, events)[n])
    ensures States(s, events)[n + 1].phase == States(s, events)[n].phase
  {
    RunIsTimed(s, events);
    RecentlyHeard(s.lastSecureAt, States(s, events), events, delay, n);
    RunTicksRightly(s, events, n);
  }
}
