/**
 One session against any network: the frames it receives are arbitrary, and so is the order of
 everything that happens to it.  What every such run keeps: what the session is bound to, and that no
 nonce is used twice.
 */
module SessionRuns {
  import opened Wrappers
  import opened ProtocolContracts
  import opened SessionCryptography
  import opened SessionModel

  datatype Event =
    | Receive(frame: Wire, around: Surroundings)
    | Answer(promptId: nat, accepted: bool, entered: Option<Code>, now: int)
    | TrustStored(now: int)
    | AskReversal(id: nat)
    | AskDiagnostics(limit: int, id: nat)
    | Expire(id: nat)
    | SendSignal(signal: Signal)
    | Tick(now: int, id: nat)
    | HandshakeTimeout
    | Leave
    | Discard
    | SocketGone

  function After(s: Session, event: Event): Session {
    match event
    case Receive(frame, around) => HandleWireMessage(s, frame, around)
    case Answer(promptId, accepted, entered, now) => RespondToPrompt(s, promptId, accepted, entered, now).session
    case TrustStored(now) => ResumeEstablish(s, now)
    case AskReversal(id) => RequestReversal(s, id).session
    case AskDiagnostics(limit, id) => RequestDiagnostics(s, limit, id).session
    case Expire(id) => RequestTimeout(s, id)
    case SendSignal(signal) => SendMediaSignal(s, signal).session
    case Tick(now, id) => KeepAliveTick(s, now, id).session
    case HandshakeTimeout => CloseWithError(s, false)
    case Leave => DisconnectSession(s)
    case Discard => Dispose(s)
    case SocketGone => TransportGone(s)
  }

  function AfterAll(s: Session, events: seq<Event>): Session {
    if events == [] then s else After(AfterAll(s, events[..|events| - 1]), events[|events| - 1])
  }

  // ---------- what a handler may do ----------

  function Sent(s: Session): nat { if s.cipher.Some? then s.cipher.value.transmitted else 0 }

  /** The frames are sealed under the key with increasing nonces above `low`, up to `high`. */
  predicate Rising(frames: seq<Wire>, key: Key, low: nat, high: nat)
    decreases |frames|
  {
    if frames == [] then low <= high
    else
      var last := frames[|frames| - 1];
      && last.SecureFrame? && last.envelope.sealed.key == key
      && low < last.envelope.sealed.nonce <= high
      && Rising(frames[..|frames| - 1], key, low, last.envelope.sealed.nonce - 1)
  }

  lemma {:induction false} RisingJoins(first: seq<Wire>, second: seq<Wire>, key: Key, low: nat, middle: nat, high: nat)
    requires Rising(first, key, low, middle) && Rising(second, key, middle, high)
    ensures Rising(first + second, key, low, high)
    decreases |second|
  {
    if second == [] {
      assert first + second == first;
      RisingWidens(first, key, low, middle, high);
    } else {
      var front, last := second[..|second| - 1], second[|second| - 1];
      RisingBounds(first, key, low, middle);
      RisingBounds(front, key, middle, last.envelope.sealed.nonce - 1);
      RisingJoins(first, front, key, low, middle, last.envelope.sealed.nonce - 1);
      assert first + second == (first + front) + [last];
      RisingOneMore(first + front, last, key, low, high);
    }
  }

  lemma RisingOneMore(front: seq<Wire>, last: Wire, key: Key, low: nat, high: nat)
    requires last.SecureFrame? && last.envelope.sealed.key == key && low < last.envelope.sealed.nonce <= high
    requires Rising(front, key, low, last.envelope.sealed.nonce - 1)
    ensures Rising(front + [last], key, low, high)
  {
    var joined := front + [last];
    assert joined[..|joined| - 1] == front && joined[|joined| - 1] == last;
  }

  lemma RisingWidens(frames: seq<Wire>, key: Key, low: nat, high: nat, higher: nat)
    requires Rising(frames, key, low, high) && high <= higher
    ensures Rising(frames, key, low, higher)
  {
  }

  lemma {:induction false} RisingBounds(frames: seq<Wire>, key: Key, low: nat, high: nat)
    requires Rising(frames, key, low, high)
    ensures low <= high
  {
    if frames != [] {
      RisingBounds(frames[..|frames| - 1], key, low, frames[|frames| - 1].envelope.sealed.nonce - 1);
    }
  }

  /** The grant a session writes is for its own peer. */
  predicate OwnGrant(s: Session, grant: Grant) {
    && s.intent.Some? && s.peer.Some? && s.peerKey.Some?
    && grant == Grant(s.intent.value, s.peer.value.device, s.peerKey.value)
  }

  /** What the session is bound to: its role in the handshake, the hellos' intent, peer and key, and the code. */
  predicate SameBinding(s: Session, after: Session) {
    && after.initiator == s.initiator && after.own == s.own
    && after.clientHello == s.clientHello && after.intent == s.intent && after.peerKey == s.peerKey
    && after.code == s.code && (after.peer.Some? <==> s.peer.Some?)
    && (s.peer.Some? ==> after.peer.value.device == s.peer.value.device)
  }

  predicate GrantsGrow(s: Session, after: Session) {
    && |s.grants| <= |after.grants| && after.grants[..|s.grants|] == s.grants
    && forall k | |s.grants| <= k < |after.grants| :: OwnGrant(s, after.grants[k])
  }

  predicate WritesRising(s: Session, after: Session) {
    && (s.cipher.None? ==> after.cipher.None? && after.outbox == s.outbox)
    && (s.cipher.Some? ==>
          && after.cipher.Some? && after.cipher.value.transmitKey == s.cipher.value.transmitKey
          && |s.outbox| <= |after.outbox| && after.outbox[..|s.outbox|] == s.outbox
          && Rising(after.outbox[|s.outbox|..], s.cipher.value.transmitKey, Sent(s), Sent(after)))
  }

  /** The session still waits for a hello. */
  predicate Greeting(s: Session) { s.phase == AwaitingClientHello || s.phase == AwaitingServerHello }

  /** A handler outside the handshake: it writes rising nonces, and its grants are for its peer. */
  predicate Extends(s: Session, after: Session) {
    SameBinding(s, after) && GrantsGrow(s, after) && WritesRising(s, after) && (Greeting(after) ==> after.phase == s.phase)
  }

  lemma ExtendsTwice(s: Session, middle: Session, after: Session)
    requires Extends(s, middle) && Extends(middle, after)
    ensures Extends(s, after)
  {
    if s.cipher.Some? {
      var n, m := |s.outbox|, |middle.outbox|;
      RisingJoins(middle.outbox[n..], after.outbox[m..], s.cipher.value.transmitKey, Sent(s), Sent(middle), Sent(after));
      assert middle.outbox == after.outbox[..m];
      assert after.outbox[n..] == middle.outbox[n..] + after.outbox[m..];
      assert after.outbox[..n] == middle.outbox[..n];
    }
    forall k | |s.grants| <= k < |after.grants| ensures OwnGrant(s, after.grants[k]) {
      if k < |middle.grants| {
        assert after.grants[k] == middle.grants[k];
      }
    }
    assert after.grants[..|s.grants|] == middle.grants[..|s.grants|];
  }

  /** Changing nothing but other fields extends. */
  predicate Quiet(s: Session, after: Session) {
    SameBinding(s, after) && after.grants == s.grants && after.outbox == s.outbox && (Greeting(after) ==> after.phase == s.phase) &&
    (s.cipher.None? <==> after.cipher.None?) &&
    (s.cipher.Some? ==> after.cipher.value.transmitKey == s.cipher.value.transmitKey && Sent(s) <= Sent(after))
  }

  lemma QuietExtends(s: Session, after: Session)
    requires Quiet(s, after)
    ensures Extends(s, after)
  {
    assert after.outbox[|s.outbox|..] == [];
  }

  lemma SendExtends(s: Session, message: Message)
    ensures Extends(s, SendSecure(s, message).session)
  {
    var after := SendSecure(s, message).session;
    if after.outbox == s.outbox {
      QuietExtends(s, after);
    } else {
      var frame := SecureFrame(Seal(s.cipher.value, message).value);
      assert after.outbox == s.outbox + [frame];
      assert after.outbox[|s.outbox|..] == [frame];
      OneRises(frame, s.cipher.value.transmitKey, Sent(s));
    }
  }

  lemma OneRises(frame: Wire, key: Key, low: nat)
    requires frame.SecureFrame? && frame.envelope.sealed.key == key && frame.envelope.sealed.nonce == low + 1
    ensures Rising([frame], key, low, low + 1)
  {
    assert [frame][..0] == [];
  }

  /** First some fields change, then a message is sent. */
  lemma ChangeAndSend(s: Session, changed: Session, message: Message)
    requires Quiet(s, changed)
    ensures Extends(s, SendSecure(changed, message).session)
  {
    QuietExtends(s, changed);
    SendExtends(changed, message);
    ExtendsTwice(s, changed, SendSecure(changed, message).session);
  }

  lemma ThenClose(s: Session, after: Session, expected: bool)
    requires Extends(s, after)
    ensures Extends(s, CloseWithError(after, expected))
  {
    QuietExtends(after, CloseWithError(after, expected));
    ExtendsTwice(s, after, CloseWithError(after, expected));
  }

  lemma Unchanged(s: Session)
    ensures Extends(s, s)
  {
    QuietExtends(s, s);
  }

  // ---------- the handlers ----------

  lemma EstablishingIsQuiet(s: Session, now: int)
    ensures Quiet(s, Establish(s, now))
  {
  }

  lemma GrantingExtends(s: Session, after: Session, grant: Grant)
    requires OwnGrant(s, grant) && after == s.(suspended := s.suspended + 1, grants := s.grants + [grant])
    ensures Extends(s, after)
  {
    assert after.outbox[|s.outbox|..] == [];
    assert after.grants[..|s.grants|] == s.grants;
  }

  lemma EstablishExtends(s: Session, now: int)
    ensures Extends(s, TryEstablish(s, now))
  {
    if !ReadyToEstablish(s) {
      Unchanged(s);
    } else if !s.initiator && !s.peer.value.paired {
      var grant := Grant(s.intent.value, s.peer.value.device, s.peerKey.value);
      assert TryEstablish(s, now) == s.(suspended := s.suspended + 1, grants := s.grants + [grant]);
      GrantingExtends(s, TryEstablish(s, now), grant);
    } else {
      assert TryEstablish(s, now) == Establish(s, now);
      EstablishingIsQuiet(s, now);
      QuietExtends(s, Establish(s, now));
    }
  }

  lemma EnterConsentExtends(s: Session, now: int, promptId: nat)
    ensures Extends(s, EnterConsentPhase(s, now, promptId).session)
  {
    var entered := StartKeepAlive(s.(handshakeTimer := false, phase := AwaitingConsent), now);
    if s.peer.None? || s.intent.None? || s.code.None? || (!s.initiator && !s.peer.value.paired) {
      QuietExtends(s, EnterConsentPhase(s, now, promptId).session);
    } else if s.initiator {
      ChangeAndSend(s, entered.(prompt := Some(Prompt(promptId, Pairing, WaitingForPeer)), localConsent := Some(true)),
                    ConsentDecision(true));
    } else {
      ChangeAndSend(s, entered.(prompt := None, localConsent := Some(true)), ConsentDecision(true));
    }
  }

  lemma ReadyExtends(s: Session, now: int, promptId: nat)
    ensures Extends(s, HandleReady(s, now, promptId).session)
  {
    var sent := SendSecure(s, ReadyAcknowledged);
    SendExtends(s, ReadyAcknowledged);
    Unchanged(s);
    EnterConsentExtends(sent.session, now, promptId);
    ExtendsTwice(s, sent.session, EnterConsentPhase(sent.session, now, promptId).session);
  }

  lemma ConsentExtends(s: Session, accepted: bool, now: int)
    ensures Extends(s, HandleConsentDecision(s, accepted, now).session)
  {
    var heard := s.(remoteConsent := Some(accepted));
    Unchanged(s);
    QuietExtends(s, heard);
    if accepted {
      EstablishExtends(heard, now);
      ExtendsTwice(s, heard, TryEstablish(heard, now));
    } else {
      ThenClose(s, heard, true);
    }
  }

  lemma {:induction false} BatchesExtend(s: Session, id: nat, records: seq<DiagnosticRecord>, offset: nat)
    requires offset <= |records|
    ensures Extends(s, SendBatches(s, id, records, offset).session)
    decreases |records| - offset
  {
    if offset == |records| {
      Unchanged(s);
    } else {
      var end := if offset + BATCH_RECORD_COUNT < |records| then offset + BATCH_RECORD_COUNT else |records|;
      var message := DiagnosticsBatch(id, records[offset..end], end >= |records|);
      var next := SendSecure(s, message).session;
      SendExtends(s, message);
      BatchesExtend(next, id, records, end);
      ExtendsTwice(s, next, SendBatches(next, id, records, end).session);
    }
  }

  lemma DiagnosticsRequestExtends(s: Session, id: nat, limit: nat, local: seq<DiagnosticRecord>)
    ensures Extends(s, HandleDiagnosticsRequest(s, id, limit, local).session)
  {
    Unchanged(s);
    SendExtends(s, DiagnosticsBatch(id, [], true));
    BatchesExtend(s, id, LastRecords(local, limit), 0);
  }

  lemma ReversalRequestExtends(s: Session, id: nat, promptId: nat)
    ensures Extends(s, HandleReversalRequest(s, id, promptId).session)
  {
    SendExtends(s, ReversalDecision(id, false));
    QuietExtends(s, s.(incomingReversal := Some(id), prompt := Some(Prompt(promptId, Reversal, Decision))));
  }

  lemma PingExtends(s: Session, id: nat)
    ensures Extends(s, HandlePing(s, id).session)
  {
    if s.phase == Connected || s.phase == AwaitingConsent {
      SendExtends(s, Pong(id));
    } else {
      Unchanged(s);
    }
  }

  lemma AcknowledgedExtends(s: Session, now: int, promptId: nat)
    ensures Extends(s, HandleReadyAcknowledged(s, now, promptId).session)
  {
    if s.phase == AwaitingSecureAcknowledgement {
      EnterConsentExtends(s, now, promptId);
    } else {
      Unchanged(s);
    }
  }

  lemma ClosingIsQuiet(s: Session, expected: bool)
    ensures Quiet(s, CloseWithError(s, expected))
  {
  }

  lemma BatchIsQuiet(s: Session, id: nat, records: seq<DiagnosticRecord>, complete: bool)
    ensures Quiet(s, HandleDiagnosticsBatch(s, id, records, complete).session)
  {
    var after := HandleDiagnosticsBatch(s, id, records, complete).session;
    if id in s.requests {
      assert after == s.(requests := after.requests, resolved := after.resolved);
    }
  }

  lemma DecisionIsQuiet(s: Session, id: nat, accepted: bool)
    ensures Quiet(s, HandleReversalDecision(s, id, accepted).session)
  {
  }

  lemma ClosingExtends(s: Session, expected: bool)
    ensures Extends(s, CloseWithError(s, expected))
  {
    ClosingIsQuiet(s, expected);
    QuietExtends(s, CloseWithError(s, expected));
  }

  lemma BatchExtends(s: Session, id: nat, records: seq<DiagnosticRecord>, complete: bool)
    ensures Extends(s, HandleDiagnosticsBatch(s, id, records, complete).session)
  {
    BatchIsQuiet(s, id, records, complete);
    QuietExtends(s, HandleDiagnosticsBatch(s, id, records, complete).session);
  }

  lemma DecisionExtends(s: Session, id: nat, accepted: bool)
    ensures Extends(s, HandleReversalDecision(s, id, accepted).session)
  {
    DecisionIsQuiet(s, id, accepted);
    QuietExtends(s, HandleReversalDecision(s, id, accepted).session);
  }

  lemma SecureExtends(s: Session, message: Message, around: Surroundings)
    ensures Extends(s, HandleSecure(s, message, around).session)
  {
    match message
    case Ready => ReadyExtends(s, around.now, around.promptId);
    case ReadyAcknowledged => AcknowledgedExtends(s, around.now, around.promptId);
    case ConsentDecision(accepted) => ConsentExtends(s, accepted, around.now);
    case Ping(id) => PingExtends(s, id);
    case Pong(id) => QuietExtends(s, s.(pings := s.pings - {id}));
    case ReversalRequest(id) => ReversalRequestExtends(s, id, around.promptId);
    case ReversalDecision(id, accepted) => DecisionExtends(s, id, accepted);
    case Disconnect => ClosingExtends(s, true);
    case ProtocolError => ClosingExtends(s, false);
    case DiagnosticsRequest(id, limit) => DiagnosticsRequestExtends(s, id, limit, around.local);
    case DiagnosticsBatch(id, records, complete) => BatchExtends(s, id, records, complete);
    case MediaSignal(signal) =>
      Unchanged(s);
      QuietExtends(s, s.(signals := s.signals + [signal]));
  }

  lemma OpenedExtends(s: Session, ready: Session, message: Message, around: Surroundings)
    requires Quiet(s, ready)
    ensures Extends(s, HandleSecure(ready, message, around).session)
  {
    QuietExtends(s, ready);
    SecureExtends(ready, message, around);
    ExtendsTwice(s, ready, HandleSecure(ready, message, around).session);
  }

  lemma UnopenedExtends(s: Session, envelope: Envelope, around: Surroundings)
    requires s.cipher.None? || Opened(s.cipher.value, envelope).None?
    ensures Extends(s, HandleEnvelope(s, envelope, around).session)
  {
    Unchanged(s);
    QuietExtends(s, s.(lastSecureAt := around.now));
  }

  lemma EnvelopeExtends(s: Session, envelope: Envelope, around: Surroundings)
    ensures Extends(s, HandleEnvelope(s, envelope, around).session)
  {
    if s.cipher.Some? && Opened(s.cipher.value, envelope).Some? {
      var message := Opened(s.cipher.value, envelope).value;
      EnvelopeOpens(s, envelope, around, message);
      OpenedExtends(s, OpenedBy(s, envelope, around.now), message, around);
    } else {
      UnopenedExtends(s, envelope, around);
    }
  }

  lemma ReversalAnswerExtends(s: Session, accepted: bool)
    ensures Extends(s, RespondToReversal(s, accepted).session)
  {
    if s.incomingReversal.None? {
      Unchanged(s);
    } else {
      var decision := ReversalDecision(s.incomingReversal.value, accepted);
      var changed := s.(incomingReversal := None, prompt := None);
      ChangeAndSend(s, changed, decision);
      var sent := SendSecure(changed, decision).session;
      QuietExtends(sent, sent.(role := Toggle(s.role)));
      ExtendsTwice(s, sent, sent.(role := Toggle(s.role)));
    }
  }

  lemma PairingAnswerCases(s: Session, mode: PromptMode, accepted: bool, entered: Option<Code>, now: int, sent: Session)
    requires sent == SendSecure(s.(prompt := None, localConsent := Some(accepted)), ConsentDecision(accepted)).session
    ensures var after := RespondToPairing(s, mode, accepted, entered, now).session;
            after == s || after == sent || after == CloseWithError(sent, true) || after == TryEstablish(sent, now)
  {
  }

  lemma SentAndClosedExtends(s: Session, sent: Session, now: int)
    requires Extends(s, sent)
    ensures Extends(s, CloseWithError(sent, true)) && Extends(s, TryEstablish(sent, now))
  {
    ThenClose(s, sent, true);
    EstablishExtends(sent, now);
    ExtendsTwice(s, sent, TryEstablish(sent, now));
  }

  lemma PairingAnswerExtends(s: Session, mode: PromptMode, accepted: bool, entered: Option<Code>, now: int)
    ensures Extends(s, RespondToPairing(s, mode, accepted, entered, now).session)
  {
    var changed := s.(prompt := None, localConsent := Some(accepted));
    var sent := SendSecure(changed, ConsentDecision(accepted)).session;
    Unchanged(s);
    ChangeAndSend(s, changed, ConsentDecision(accepted));
    SentAndClosedExtends(s, sent, now);
    PairingAnswerCases(s, mode, accepted, entered, now, sent);
  }

  lemma AnswerExtends(s: Session, promptId: nat, accepted: bool, entered: Option<Code>, now: int)
    ensures Extends(s, RespondToPrompt(s, promptId, accepted, entered, now).session)
  {
    if s.prompt.None? || s.prompt.value.id != promptId {
      Unchanged(s);
    } else if s.prompt.value.kind == Reversal {
      ReversalAnswerExtends(s, accepted);
    } else {
      PairingAnswerExtends(s, s.prompt.value.mode, accepted, entered, now);
    }
  }

  lemma AskDiagnosticsExtends(s: Session, limit: int, id: nat)
    ensures Extends(s, RequestDiagnostics(s, limit, id).session)
  {
    if s.phase != Connected {
      Unchanged(s);
    } else {
      var asking := s.(requests := s.requests[id := PendingRequest(BoundedLimit(limit), [])]);
      var message := DiagnosticsRequest(id, BoundedLimit(limit));
      ChangeAndSend(s, asking, message);
      var sent := SendSecure(asking, message).session;
      var failed := sent.(requests := s.requests - {id}, rejected := s.rejected + {id});
      QuietExtends(sent, failed);
      ExtendsTwice(s, sent, failed);
    }
  }

  lemma AskReversalExtends(s: Session, id: nat)
    ensures Extends(s, RequestReversal(s, id).session)
  {
    if s.phase != Connected || s.outgoingReversal.Some? {
      Unchanged(s);
    } else {
      ChangeAndSend(s, s.(outgoingReversal := Some(id)), ReversalRequest(id));
    }
  }

  lemma SignalExtends(s: Session, signal: Signal)
    ensures Extends(s, SendMediaSignal(s, signal).session)
  {
    Unchanged(s);
    SendExtends(s, MediaSignal(signal));
  }

  lemma TickExtends(s: Session, now: int, id: nat)
    ensures Extends(s, KeepAliveTick(s, now, id).session)
  {
    if now - s.lastSecureAt > HealthTimeout(s) {
      Unchanged(s);
      ThenClose(s, s, false);
    } else {
      ChangeAndSend(s, s.(pings := s.pings + {id}), Ping(id));
    }
  }

  lemma LeaveExtends(s: Session)
    ensures Extends(s, DisconnectSession(s))
  {
    if s.cipher.Some? && s.phase != Closed {
      SendExtends(s, Message.Disconnect);
      ThenClose(s, SendSecure(s, Message.Disconnect).session, true);
    } else {
      Unchanged(s);
      ThenClose(s, s, true);
    }
  }

  lemma StoredIsQuiet(s: Session, now: int)
    ensures Quiet(s, ResumeEstablish(s, now))
  {
    if s.suspended > 0 && s.peer.Some? {
      EstablishingIsQuiet(s.(suspended := s.suspended - 1, peer := Some(s.peer.value.(paired := true))), now);
    }
  }

  lemma GoneIsQuiet(s: Session)
    ensures Quiet(s, TransportGone(s))
  {
    ClosingIsQuiet(s.(transportClosed := true), false);
  }

  lemma SilentEventIsQuiet(s: Session, event: Event)
    requires event.TrustStored? || event.Expire? || event.HandshakeTimeout? || event.Discard? || event.SocketGone?
    ensures Quiet(s, After(s, event))
  {
    match event
    case TrustStored(now) => StoredIsQuiet(s, now);
    case HandshakeTimeout => ClosingIsQuiet(s, false);
    case SocketGone => GoneIsQuiet(s);
    case _ =>
  }

  lemma LocalEventExtends(s: Session, event: Event)
    requires !event.Receive?
    ensures Extends(s, After(s, event))
  {
    match event
    case Answer(promptId, accepted, entered, now) => AnswerExtends(s, promptId, accepted, entered, now);
    case AskReversal(id) => AskReversalExtends(s, id);
    case AskDiagnostics(limit, id) => AskDiagnosticsExtends(s, limit, id);
    case SendSignal(signal) => SignalExtends(s, signal);
    case Tick(now, id) => TickExtends(s, now, id);
    case Leave => LeaveExtends(s);
    case _ =>
      SilentEventIsQuiet(s, event);
      QuietExtends(s, After(s, event));
  }

  /** Past the hello, a frame extends whatever it holds. */
  lemma FrameExtends(s: Session, frame: Wire, around: Surroundings)
    requires !Greeting(s)
    ensures Extends(s, HandleWireMessage(s, frame, around))
  {
    if frame.SecureFrame? {
      EnvelopeExtends(s, frame.envelope, around);
      ThenClose(s, HandleEnvelope(s, frame.envelope, around).session, false);
    } else {
      Unchanged(s);
      ThenClose(s, s, false);
    }
  }

  lemma EventExtends(s: Session, event: Event)
    requires event.Receive? ==> !Greeting(s)
    ensures Extends(s, After(s, event))
  {
    match event
    case Receive(frame, around) => FrameExtends(s, frame, around);
    case _ => LocalEventExtends(s, event);
  }

  // ---------- the invariant of a run ----------

  /** The secure frames among the frames. */
  function SecureOf(frames: seq<Wire>): seq<Wire> {
    if frames == [] then []
    else
      var last := frames[|frames| - 1];
      SecureOf(frames[..|frames| - 1]) + (if last.SecureFrame? then [last] else [])
  }

  lemma {:induction false} SecureOfJoins(first: seq<Wire>, second: seq<Wire>)
    ensures SecureOf(first + second) == SecureOf(first) + SecureOf(second)
    decreases |second|
  {
    if second == [] {
      assert first + second == first;
    } else {
      var whole := first + second;
      assert whole[..|whole| - 1] == first + second[..|second| - 1];
      SecureOfJoins(first, second[..|second| - 1]);
    }
  }

  lemma {:induction false} RisingIsSecure(frames: seq<Wire>, key: Key, low: nat, high: nat)
    requires Rising(frames, key, low, high)
    ensures SecureOf(frames) == frames
  {
    if frames != [] {
      RisingIsSecure(frames[..|frames| - 1], key, low, frames[|frames| - 1].envelope.sealed.nonce - 1);
      assert frames == frames[..|frames| - 1] + [frames[|frames| - 1]];
    }
  }

  /** A session that waits for a hello has no cipher, no prompt and no grant. */
  predicate FreshGreeting(s: Session) {
    Greeting(s) ==>
      && s.cipher.None? && s.prompt.None? && s.suspended == 0 && s.grants == []
      && s.localConsent.None? && s.requests == map[]
  }

  predicate KeyMatches(s: Session) {
    s.cipher.Some? ==>
      s.cipher.value.transmitKey.direction == (if s.initiator then InitiatorToResponder else ResponderToInitiator)
  }

  predicate NoncesRise(s: Session) {
    if s.cipher.Some? then Rising(SecureOf(s.outbox), s.cipher.value.transmitKey, 0, Sent(s))
    else SecureOf(s.outbox) == []
  }

  predicate GrantsAreOwn(s: Session) {
    forall k | 0 <= k < |s.grants| :: OwnGrant(s, s.grants[k])
  }

  /** Which hello a session can wait for. */
  predicate WaitsRightly(s: Session) {
    (s.phase == AwaitingClientHello ==> !s.initiator) && (s.phase == AwaitingServerHello ==> s.initiator)
  }

  predicate Sound(s: Session) {
    FreshGreeting(s) && WaitsRightly(s) && KeyMatches(s) && NoncesRise(s) && GrantsAreOwn(s)
  }

  lemma ExtendsKeepsNonces(s: Session, after: Session)
    requires WritesRising(s, after) && NoncesRise(s)
    ensures NoncesRise(after)
  {
    if s.cipher.Some? {
      var key, added := s.cipher.value.transmitKey, after.outbox[|s.outbox|..];
      RisingIsSecure(added, key, Sent(s), Sent(after));
      SecureOfJoins(s.outbox, added);
      assert after.outbox == s.outbox + added;
      RisingJoins(SecureOf(s.outbox), added, key, 0, Sent(s), Sent(after));
    }
  }

  lemma ExtendsKeepsGrants(s: Session, after: Session)
    requires SameBinding(s, after) && GrantsGrow(s, after) && GrantsAreOwn(s)
    ensures GrantsAreOwn(after)
  {
    forall k | 0 <= k < |after.grants| ensures OwnGrant(after, after.grants[k]) {
      if k < |s.grants| {
        assert after.grants[k] == s.grants[k];
      }
    }
  }

  lemma ExtendsKeepsSound(s: Session, after: Session)
    requires Sound(s) && Extends(s, after) && FreshGreeting(after)
    ensures Sound(after)
  {
    ExtendsKeepsNonces(s, after);
    ExtendsKeepsGrants(s, after);
  }

  lemma GreetingIgnoresEvents(s: Session, event: Event)
    requires Greeting(s) && FreshGreeting(s) && !event.Receive?
    ensures FreshGreeting(After(s, event))
  {
    match event
    case Answer(promptId, accepted, entered, now) => assert After(s, event) == s;
    case TrustStored(_) => assert After(s, event) == s;
    case Tick(now, id) => GreetingIgnoresTick(s, now, id);
    case Leave => assert After(s, event) == CloseWithError(s, true);
    case _ =>
  }

  lemma GreetingIgnoresTick(s: Session, now: int, id: nat)
    requires Greeting(s) && FreshGreeting(s)
    ensures FreshGreeting(KeepAliveTick(s, now, id).session)
  {
  }

  lemma LocalEventKeepsSound(s: Session, event: Event)
    requires Sound(s) && !event.Receive?
    ensures Sound(After(s, event))
  {
    LocalEventExtends(s, event);
    if Greeting(s) {
      GreetingIgnoresEvents(s, event);
    }
    ExtendsKeepsSound(s, After(s, event));
  }

  // ---------- the hellos ----------

  lemma HelloWritesNothingSecure(queue: seq<Wire>, frame: Wire)
    requires !frame.SecureFrame?
    ensures SecureOf(queue + [frame]) == SecureOf(queue)
  {
    assert (queue + [frame])[..|queue|] == queue;
  }

  /** A session that has just learnt of its peer: no secure frame is out, and nothing is granted. */
  predicate Introduced(s: Session, after: Session) {
    && !Greeting(after) && after.grants == [] && after.initiator == s.initiator
    && KeyMatches(after) && Sent(after) == 0 && SecureOf(after.outbox) == []
  }

  lemma IntroducedIsSound(s: Session, after: Session)
    requires Introduced(s, after)
    ensures Sound(after)
  {
  }

  /** A client hello is refused or introduces the peer. */
  lemma ClientHelloIntroduces(s: Session, hello: ClientHello, trust: Trust)
    requires Sound(s) && s.phase == AwaitingClientHello && !s.initiator && !s.transportClosed && VerifyClientHello(hello)
    ensures !HandleClientHello(s, hello, trust).threw
    ensures Introduced(s, HandleClientHello(s, hello, trust).session)
  {
    HelloWritesNothingSecure(s.outbox, ServerHelloFrame(CreateServerHello(s.own, hello)));
  }

  lemma ClosedUnmet(s: Session, after: Session)
    requires Sound(s) && Greeting(s) && after.cipher.None? && after.grants == [] && after.outbox == s.outbox
    requires Greeting(after)
    ensures Sound(CloseWithError(after, false))
  {
  }

  lemma ClientHelloKeepsSound(s: Session, hello: ClientHello, trust: Trust)
    requires Sound(s) && s.phase == AwaitingClientHello && !s.initiator
    ensures var outcome := HandleClientHello(s, hello, trust);
            Sound(if outcome.threw then CloseWithError(outcome.session, false) else outcome.session)
  {
    if VerifyClientHello(hello) && !s.transportClosed {
      ClientHelloIntroduces(s, hello, trust);
      IntroducedIsSound(s, HandleClientHello(s, hello, trust).session);
    } else {
      ClosedUnmet(s, HandleClientHello(s, hello, trust).session);
    }
  }

  /** The initiator after the server hello, before its first message. */
  function Met(s: Session, client: ClientHello, hello: ServerHello): Session {
    WithCipher(
      s.(serverHello := Some(hello), peerKey := Some(hello.fields.identity), peer := Some(Peer(hello.fields.device, false))),
      client, hello).(phase := AwaitingSecureAcknowledgement)
  }

  lemma MetIsSound(s: Session, client: ClientHello, hello: ServerHello)
    requires Sound(s) && s.phase == AwaitingServerHello && s.initiator
    ensures Sound(Met(s, client, hello))
  {
    IntroducedIsSound(s, Met(s, client, hello));
  }

  lemma SendKeepsSound(s: Session, message: Message)
    requires Sound(s) && !Greeting(s)
    ensures Sound(SendSecure(s, message).session) && Sound(CloseWithError(SendSecure(s, message).session, false))
  {
    var sent := SendSecure(s, message).session;
    SendExtends(s, message);
    ExtendsKeepsSound(s, sent);
    RefusalKeepsSound(sent);
  }

  lemma ServerHelloKeepsSound(s: Session, hello: ServerHello)
    requires Sound(s) && s.phase == AwaitingServerHello && s.initiator
    ensures var outcome := HandleServerHello(s, hello);
            Sound(if outcome.threw then CloseWithError(outcome.session, false) else outcome.session)
  {
    if s.clientHello.None? || !VerifyServerHello(hello, s.clientHello.value) ||
       (s.expectedDevice.Some? && hello.fields.device != s.expectedDevice.value) {
      RefusalKeepsSound(s);
    } else {
      MetIsSound(s, s.clientHello.value, hello);
      SendKeepsSound(Met(s, s.clientHello.value, hello), Ready);
    }
  }

  lemma EnvelopeEventKeepsSound(s: Session, envelope: Envelope, around: Surroundings)
    requires Sound(s) && !Greeting(s)
    ensures var outcome := HandleEnvelope(s, envelope, around);
            Sound(if outcome.threw then CloseWithError(outcome.session, false) else outcome.session)
  {
    var outcome := HandleEnvelope(s, envelope, around);
    EnvelopeExtends(s, envelope, around);
    if outcome.threw {
      ThenClose(s, outcome.session, false);
      ExtendsKeepsSound(s, CloseWithError(outcome.session, false));
    } else {
      ExtendsKeepsSound(s, outcome.session);
    }
  }

  lemma RefusalKeepsSound(s: Session)
    requires Sound(s)
    ensures Sound(CloseWithError(s, false))
  {
    Unchanged(s);
    ThenClose(s, s, false);
    ExtendsKeepsSound(s, CloseWithError(s, false));
  }

  lemma ReceiveKeepsSound(s: Session, frame: Wire, around: Surroundings)
    requires Sound(s) && WaitsRightly(s)
    ensures Sound(HandleWireMessage(s, frame, around))
  {
    if s.phase == AwaitingClientHello && frame.ClientHelloFrame? {
      ClientHelloKeepsSound(s, frame.clientHello, around.trust);
    } else if s.phase == AwaitingServerHello && frame.ServerHelloFrame? {
      ServerHelloKeepsSound(s, frame.serverHello);
    } else if !Greeting(s) && frame.SecureFrame? {
      EnvelopeEventKeepsSound(s, frame.envelope, around);
    } else {
      RefusalKeepsSound(s);
    }
  }

  lemma ServerHelloKeepsRole(s: Session, hello: ServerHello)
    ensures HandleServerHello(s, hello).session.initiator == s.initiator
  {
    if s.clientHello.Some? {
      SendExtends(Met(s, s.clientHello.value, hello), Ready);
    }
  }

  lemma ClientHelloKeepsRole(s: Session, hello: ClientHello, trust: Trust)
    ensures HandleClientHello(s, hello, trust).session.initiator == s.initiator
  {
  }

  lemma ReceiveKeepsRole(s: Session, frame: Wire, around: Surroundings)
    ensures HandleWireMessage(s, frame, around).initiator == s.initiator
  {
    if s.phase == AwaitingServerHello && frame.ServerHelloFrame? {
      ServerHelloKeepsRole(s, frame.serverHello);
    } else if s.phase == AwaitingClientHello && frame.ClientHelloFrame? {
      ClientHelloKeepsRole(s, frame.clientHello, around.trust);
    } else if !Greeting(s) && frame.SecureFrame? {
      EnvelopeExtends(s, frame.envelope, around);
    }
    ClosingIsQuiet(Dispatch(s, frame, around).session, false);
  }

  /** A session stays the end of the handshake that it is. */
  lemma {:induction false} RunKeepsRole(s: Session, events: seq<Event>)
    ensures AfterAll(s, events).initiator == s.initiator
    decreases |events|
  {
    if events != [] {
      var before, event := AfterAll(s, events[..|events| - 1]), events[|events| - 1];
      RunKeepsRole(s, events[..|events| - 1]);
      match event
      case Receive(frame, around) => ReceiveKeepsRole(before, frame, around);
      case _ => LocalEventExtends(before, event);
    }
  }

  lemma {:induction false} RunIsSound(s: Session, events: seq<Event>)
    requires Sound(s)
    ensures Sound(AfterAll(s, events))
    decreases |events|
  {
    if events != [] {
      var before, event := AfterAll(s, events[..|events| - 1]), events[|events| - 1];
      RunIsSound(s, events[..|events| - 1]);
      match event
      case Receive(frame, around) => ReceiveKeepsSound(before, frame, around);
      case _ => LocalEventKeepsSound(before, event);
    }
  }

  /** A session as `start` leaves it. */
  function Started(initiator: bool, own: Credentials, expected: Option<DeviceId>, intent: Intent, now: int): Session {
    Start(NewSession(initiator, own, expected, now), intent).session
  }

  lemma StartedIsSound(initiator: bool, own: Credentials, expected: Option<DeviceId>, intent: Intent, now: int)
    ensures Sound(Started(initiator, own, expected, intent, now))
  {
    HelloWritesNothingSecure([], ClientHelloFrame(CreateClientHello(own, intent)));
    assert [] + [ClientHelloFrame(CreateClientHello(own, intent))] == [ClientHelloFrame(CreateClientHello(own, intent))];
  }

  // ---------- the theorems ----------

  lemma {:induction false} RisingAt(frames: seq<Wire>, key: Key, low: nat, high: nat, i: nat, j: nat)
    requires Rising(frames, key, low, high) && i < j < |frames|
    ensures frames[i].SecureFrame? && frames[j].SecureFrame?
    ensures frames[i].envelope.sealed.key == key == frames[j].envelope.sealed.key
    ensures frames[i].envelope.sealed.nonce < frames[j].envelope.sealed.nonce
    decreases |frames|
  {
    var last := frames[|frames| - 1].envelope.sealed.nonce;
    var front := frames[..|frames| - 1];
    if j < |front| {
      RisingAt(front, key, low, last - 1, i, j);
      assert front[i] == frames[i] && front[j] == frames[j];
    } else {
      RisingMember(front, key, low, last - 1, i);
      assert front[i] == frames[i];
    }
  }

  lemma {:induction false} RisingMember(frames: seq<Wire>, key: Key, low: nat, high: nat, i: nat)
    requires Rising(frames, key, low, high) && i < |frames|
    ensures frames[i].SecureFrame? && frames[i].envelope.sealed.key == key
    ensures low < frames[i].envelope.sealed.nonce <= high
    decreases |frames|
  {
    var front := frames[..|frames| - 1];
    if i < |front| {
      RisingMember(front, key, low, frames[|frames| - 1].envelope.sealed.nonce - 1, i);
      assert front[i] == frames[i];
    } else {
      RisingBounds(front, key, low, frames[|frames| - 1].envelope.sealed.nonce - 1);
    }
  }

  /** The key and nonce a frame was sealed with. */
  function NonceOf(frame: Wire): (Key, nat)
    requires frame.SecureFrame?
  {
    (frame.envelope.sealed.key, frame.envelope.sealed.nonce)
  }

  /**
   Whatever the network sends and whatever happens to the session, no two frames it ever writes are
   sealed with the same key and nonce.
   */
  lemma NoNonceIsUsedTwice(s: Session, events: seq<Event>, i: nat, j: nat)
    requires Sound(s)
    requires i < j < |SecureOf(AfterAll(s, events).outbox)|
    ensures var frames := SecureOf(AfterAll(s, events).outbox);
            frames[i].SecureFrame? && frames[j].SecureFrame? && NonceOf(frames[i]) != NonceOf(frames[j])
  {
    RunIsSound(s, events);
    var after := AfterAll(s, events);
    RisingAt(SecureOf(after.outbox), after.cipher.value.transmitKey, 0, Sent(after), i, j);
  }

  /** Nor do the two ends of a connection ever share a pair, since their keys differ by direction. */
  lemma EndsShareNoNonce(x: Session, xEvents: seq<Event>, y: Session, yEvents: seq<Event>, i: nat, j: nat)
    requires Sound(x) && Sound(y) && x.initiator && !y.initiator
    requires i < |SecureOf(AfterAll(x, xEvents).outbox)| && j < |SecureOf(AfterAll(y, yEvents).outbox)|
    ensures var f, g := SecureOf(AfterAll(x, xEvents).outbox)[i], SecureOf(AfterAll(y, yEvents).outbox)[j];
            f.SecureFrame? && g.SecureFrame? && NonceOf(f) != NonceOf(g)
  {
    RunIsSound(x, xEvents);
    RunIsSound(y, yEvents);
    RunKeepsRole(x, xEvents);
    RunKeepsRole(y, yEvents);
    var p, q := AfterAll(x, xEvents), AfterAll(y, yEvents);
    RisingMember(SecureOf(p.outbox), p.cipher.value.transmitKey, 0, Sent(p), i);
    RisingMember(SecureOf(q.outbox), q.cipher.value.transmitKey, 0, Sent(q), j);
  }

  /** Every grant a session ever writes is for the peer and intent of its own handshake. */
  lemma GrantsNameThePeer(s: Session, events: seq<Event>, k: nat)
    requires Sound(s) && k < |AfterAll(s, events).grants|
    ensures OwnGrant(AfterAll(s, events), AfterAll(s, events).grants[k])
  {
    RunIsSound(s, events);
  }
}
