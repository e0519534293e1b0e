/**
 What a step adds to the outgoing queue.  Below the size and counter bounds an open session never
 fails to send, so a step is a change of fields followed by posting a list of messages.
 */
module Effects {
  import opened Wrappers
  import opened ProtocolContracts
  import opened SessionCryptography
  import opened EnvelopeText
  import opened SessionModel

  /** The envelope an honest sender makes for the message that follows its first `sent` ones. */
  function HonestEnvelope(key: Key, session: nat, sent: nat, message: Message): Envelope {
    Envelope(sent + 1, Sealed(key, sent + 1, session, sent + 1, message))
  }

  function Frames(cipher: Cipher, messages: seq<Message>): seq<Wire>
    decreases |messages|
  {
    if messages == [] then []
    else [SecureFrame(HonestEnvelope(cipher.transmitKey, cipher.session, cipher.transmitted, messages[0]))]
         + Frames(cipher.(transmitted := cipher.transmitted + 1), messages[1..])
  }

  /** The session after sending `messages` without a failure. */
  function Posted(s: Session, messages: seq<Message>): Session
    requires s.cipher.Some?
  {
    s.(cipher := Some(s.cipher.value.(transmitted := s.cipher.value.transmitted + |messages|)),
       outbox := s.outbox + Frames(s.cipher.value, messages))
  }

  predicate CanSend(s: Session, count: nat) {
    s.cipher.Some? && s.cipher.value.transmitted + count < COUNTER_LIMIT && !s.transportClosed
  }

  lemma PostedNothing(s: Session)
    requires s.cipher.Some?
    ensures Posted(s, []) == s
  {
  }

  lemma {:induction false} FramesAppend(cipher: Cipher, first: seq<Message>, second: seq<Message>)
    ensures Frames(cipher, first + second) ==
            Frames(cipher, first) + Frames(cipher.(transmitted := cipher.transmitted + |first|), second)
    decreases |first|
  {
    if first == [] {
      assert first + second == second;
    } else {
      assert (first + second)[1..] == first[1..] + second;
      FramesAppend(cipher.(transmitted := cipher.transmitted + 1), first[1..], second);
    }
  }

  lemma PostedTwice(s: Session, first: seq<Message>, second: seq<Message>)
    requires s.cipher.Some?
    ensures Posted(Posted(s, first), second) == Posted(s, first + second)
  {
    FramesAppend(s.cipher.value, first, second);
  }

  lemma SendSecureFits(s: Session, message: Message)
    requires CanSend(s, 1) && PlaintextBytes(message) <= MAXIMUM_PLAINTEXT_BYTES
    ensures SendSecure(s, message) == Done(Posted(s, [message]))
  {
    FitsBelowBound(s.cipher.value.transmitted + 1, PlaintextBytes(message));
    var cipher := s.cipher.value;
    assert [message][1..] == [];
    assert Frames(cipher, [message]) == [SecureFrame(HonestEnvelope(cipher.transmitKey, cipher.session, cipher.transmitted, message))];
  }

  // ---------- the batch loop ----------

  /** The batches for the records from `offset` on. */
  function BatchesFrom(id: nat, records: seq<DiagnosticRecord>, offset: nat): seq<Message>
    requires offset <= |records|
    decreases |records| - offset
  {
    if offset == |records| then []
    else
      var end := if offset + BATCH_RECORD_COUNT < |records| then offset + BATCH_RECORD_COUNT else |records|;
      [DiagnosticsBatch(id, records[offset..end], end >= |records|)] + BatchesFrom(id, records, end)
  }

  function Batches(id: nat, records: seq<DiagnosticRecord>): seq<Message> {
    if records == [] then [DiagnosticsBatch(id, [], true)] else BatchesFrom(id, records, 0)
  }

  /** Ten records of this size and the text around them still fit a frame. */
  const MAXIMUM_RECORD_BYTES := 4895

  predicate SmallRecords(records: seq<DiagnosticRecord>) {
    forall k | 0 <= k < |records| :: records[k].bytes <= MAXIMUM_RECORD_BYTES
  }

  lemma {:induction false} RecordsBytesBound(records: seq<DiagnosticRecord>)
    requires SmallRecords(records)
    ensures RecordsBytes(records) <= 4896 * |records|
  {
    if records != [] {
      RecordsBytesBound(records[1..]);
    }
  }

  lemma {:induction false} BatchCount(id: nat, records: seq<DiagnosticRecord>, offset: nat)
    requires offset <= |records|
    ensures 10 * |BatchesFrom(id, records, offset)| <= |records| - offset + 9
    decreases |records| - offset
  {
    if offset < |records| {
      var end := if offset + BATCH_RECORD_COUNT < |records| then offset + BATCH_RECORD_COUNT else |records|;
      BatchCount(id, records, end);
    }
  }

  lemma {:induction false} SendBatchesPosts(s: Session, id: nat, records: seq<DiagnosticRecord>, offset: nat)
    requires offset <= |records| && SmallRecords(records)
    requires CanSend(s, |BatchesFrom(id, records, offset)|)
    ensures SendBatches(s, id, records, offset) == Done(Posted(s, BatchesFrom(id, records, offset)))
    decreases |records| - offset
  {
    if offset == |records| {
      PostedNothing(s);
    } else {
      var end := if offset + BATCH_RECORD_COUNT < |records| then offset + BATCH_RECORD_COUNT else |records|;
      var first := DiagnosticsBatch(id, records[offset..end], end >= |records|);
      RecordsBytesBound(records[offset..end]);
      SendSecureFits(s, first);
      SendBatchesPosts(Posted(s, [first]), id, records, end);
      PostedTwice(s, [first], BatchesFrom(id, records, end));
    }
  }

  // ---------- replies ----------

  /**
   The acceptance that goes out on entering the consent phase: the initiator's, or that of a responder that
   trusts its peer.
   */
  function ConsentSent(s: Session): seq<Message> {
    if s.initiator || (s.peer.Some? && s.peer.value.paired) then [ConsentDecision(true)] else []
  }

  /** The messages an open session answers a message with. */
  function Replies(s: Session, message: Message, local: seq<DiagnosticRecord>): seq<Message> {
    match message
    case Ready =>
      [ReadyAcknowledged] + ConsentSent(s)
    case ReadyAcknowledged => ConsentSent(s)
    case Ping(id) => [Pong(id)]
    case ReversalRequest(id) => if s.prompt.Some? then [ReversalDecision(id, false)] else []
    case DiagnosticsRequest(id, limit) => Batches(id, LastRecords(local, limit))
    case _ => []
  }

  /** The message is one the session's protocol state provides for. */
  predicate Expected(s: Session, message: Message) {
    match message
    case Ready => s.phase == AwaitingSecureReady && !s.initiator
    case ReadyAcknowledged => s.phase == AwaitingSecureAcknowledgement && s.initiator
    case ConsentDecision(_) => s.phase == AwaitingConsent
    case Ping(_) => s.phase == AwaitingConsent || s.phase == Connected
    case ReversalRequest(_) => s.phase == Connected
    case ReversalDecision(id, _) => s.outgoingReversal == Some(id)
    case DiagnosticsRequest(_, limit) => s.phase == Connected && limit <= MAXIMUM_RECORDS_PER_REQUEST
    case DiagnosticsBatch(id, records, _) =>
      id in s.requests ==> |s.requests[id].records| + |records| <= s.requests[id].limit
    case MediaSignal(_) => s.phase == Connected
    case _ => true
  }

  /** A session past the handshake knows its peer. */
  predicate PeerKnown(s: Session) {
    s.cipher.Some? && s.peer.Some? && s.peerKey.Some? && s.intent.Some? && s.code.Some?
  }

  lemma LastRecordsSmall(local: seq<DiagnosticRecord>, limit: nat)
    requires SmallRecords(local)
    ensures SmallRecords(LastRecords(local, limit)) && |LastRecords(local, limit)| <= limit
  {
  }

  // ---------- handlers that send ----------

  /** The fields as `enterConsentPhase` leaves them. */
  function ConsentEntered(s: Session, now: int, promptId: nat): Session
    requires s.peer.Some?
  {
    s.(handshakeTimer := false, phase := AwaitingConsent, keepAliveTimer := true,
       lastSecureAt := if s.keepAliveTimer then s.lastSecureAt else now,
       prompt :=
         if s.initiator then Some(Prompt(promptId, Pairing, WaitingForPeer))
         else if s.peer.value.paired then None
         else Some(Prompt(promptId, Pairing, EnterVerificationCode)),
       localConsent := if s.initiator || s.peer.value.paired then Some(true) else s.localConsent)
  }

  lemma EnterConsentPosts(s: Session, now: int, promptId: nat)
    requires PeerKnown(s) && CanSend(s, 1)
    ensures EnterConsentPhase(s, now, promptId) == Done(Posted(ConsentEntered(s, now, promptId), ConsentSent(s)))
  {
    var entered := ConsentEntered(s, now, promptId);
    PostedNothing(entered);
    SendSecureFits(entered, ConsentDecision(true));
  }

  lemma EnteredCommutes(s: Session, messages: seq<Message>, now: int, promptId: nat)
    requires s.cipher.Some? && s.peer.Some?
    ensures ConsentEntered(Posted(s, messages), now, promptId) == Posted(ConsentEntered(s, now, promptId), messages)
  {
  }

  lemma ReadyPosts(s: Session, now: int, promptId: nat)
    requires PeerKnown(s) && CanSend(s, 2) && s.phase == AwaitingSecureReady
    ensures HandleReady(s, now, promptId) ==
            Done(Posted(ConsentEntered(s, now, promptId), [ReadyAcknowledged] + ConsentSent(s)))
  {
    SendSecureFits(s, ReadyAcknowledged);
    var acknowledged := Posted(s, [ReadyAcknowledged]);
    assert HandleReady(s, now, promptId) == EnterConsentPhase(acknowledged, now, promptId);
    var entered := ConsentEntered(s, now, promptId);
    calc {
      EnterConsentPhase(acknowledged, now, promptId);
      { EnterConsentPosts(acknowledged, now, promptId); }
      Done(Posted(ConsentEntered(acknowledged, now, promptId), ConsentSent(s)));
      { EnteredCommutes(s, [ReadyAcknowledged], now, promptId); }
      Done(Posted(Posted(entered, [ReadyAcknowledged]), ConsentSent(s)));
      { PostedTwice(entered, [ReadyAcknowledged], ConsentSent(s)); }
      Done(Posted(entered, [ReadyAcknowledged] + ConsentSent(s)));
    }
  }

  lemma DiagnosticsRequestPosts(s: Session, id: nat, limit: nat, local: seq<DiagnosticRecord>)
    requires s.phase == Connected && CanSend(s, 600)
    requires limit <= MAXIMUM_RECORDS_PER_REQUEST && SmallRecords(local)
    ensures HandleDiagnosticsRequest(s, id, limit, local) == Done(Posted(s, Batches(id, LastRecords(local, limit))))
  {
    var records := LastRecords(local, limit);
    LastRecordsSmall(local, limit);
    if records == [] {
      SendSecureFits(s, DiagnosticsBatch(id, [], true));
    } else {
      BatchCount(id, records, 0);
      SendBatchesPosts(s, id, records, 0);
    }
  }

  /** The fields a handler changes, without what it sends. */
  function Absorbed(s: Session, message: Message, around: Surroundings): Session {
    match message
    case Ready => if s.peer.Some? then ConsentEntered(s, around.now, around.promptId) else s
    case ReadyAcknowledged => if s.peer.Some? then ConsentEntered(s, around.now, around.promptId) else s
    case Ping(_) => s
    case ReversalRequest(id) =>
      if s.prompt.Some? then s
      else s.(incomingReversal := Some(id), prompt := Some(Prompt(around.promptId, Reversal, Decision)))
    case DiagnosticsRequest(_, _) => s
    case _ => HandleSecure(s, message, around).session
  }

  /** The messages that are answered with nothing. */
  lemma SilentIsHandled(s: Session, message: Message, around: Surroundings)
    requires PeerKnown(s) && Expected(s, message)
    requires message.ConsentDecision? || message.Pong? || message.ReversalDecision? || message.Disconnect? ||
             message.ProtocolError? || message.DiagnosticsBatch? || message.MediaSignal?
    ensures !HandleSecure(s, message, around).threw && HandleSecure(s, message, around).session.cipher == s.cipher
  {
  }

  lemma ReversalRequestPosts(s: Session, id: nat, around: Surroundings)
    requires PeerKnown(s) && CanSend(s, 600) && s.phase == Connected
    ensures HandleReversalRequest(s, id, around.promptId) ==
            Done(Posted(Absorbed(s, ReversalRequest(id), around), Replies(s, ReversalRequest(id), around.local)))
  {
    SendSecureFits(s, ReversalDecision(id, false));
    PostedNothing(Absorbed(s, ReversalRequest(id), around));
  }

  /** An expected message never makes the handler throw, and the handler posts exactly the replies. */
  lemma ExpectedIsHandled(s: Session, message: Message, around: Surroundings)
    requires PeerKnown(s) && Expected(s, message) && CanSend(s, 600)
    requires SmallRecords(around.local)
    ensures Absorbed(s, message, around).cipher == s.cipher
    ensures HandleSecure(s, message, around) ==
            Done(Posted(Absorbed(s, message, around), Replies(s, message, around.local)))
  {
    match message
    case Ready => ReadyPosts(s, around.now, around.promptId);
    case ReadyAcknowledged => EnterConsentPosts(s, around.now, around.promptId);
    case Ping(id) => SendSecureFits(s, Pong(id));
    case ReversalRequest(id) => ReversalRequestPosts(s, id, around);
    case DiagnosticsRequest(id, limit) => DiagnosticsRequestPosts(s, id, limit, around.local);
    case _ =>
      SilentIsHandled(s, message, around);
      PostedNothing(HandleSecure(s, message, around).session);
  }
}
