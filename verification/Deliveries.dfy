/** The base invariant when the head of a queue is delivered. */
module Deliveries {
  import opened Wrappers
  import opened ProtocolContracts
  import opened SessionCryptography
  import opened SessionModel
  import opened Effects
  import opened Lanes
  import opened ProtocolInvariant
  import opened ProtocolSteps
  import opened OwnActions

  // ---------- to a closed session ----------

  /**
   A closed session does nothing with a message but move counters, forget a ping or a request of its own, or
   change its role.
   */
  lemma ClosedHandles(s: Session, message: Message, around: Surroundings)
    requires InShape(s) && s.phase == Closed && s.cipher.Some?
    ensures var outcome := HandleSecure(s, message, around);
            var after := outcome.session;
            && InShape(after) && after.phase == Closed && SameHandshake(s, after) && after.cipher.Some?
            && after.outbox == s.outbox && Sent(after) >= Sent(s) && Got(after) == Got(s)
            && after.localConsent == s.localConsent && after.remoteConsent == s.remoteConsent
            && after.incomingReversal == s.incomingReversal && after.grants == s.grants
            && (after.outgoingReversal == s.outgoingReversal || after.outgoingReversal == None)
            && after.requests == s.requests && after.resolved == s.resolved && after.rejected == s.rejected
  {
  }

  lemma LateDeliveryKeepsPaired(a: Session, b: Session, around: Surroundings)
    requires Paired(a, b) && b.outbox != [] && a.phase == Closed && HasRoom(b)
    ensures Paired(HandleWireMessage(a, b.outbox[0], around), Tail(b))
    ensures HandleWireMessage(a, b.outbox[0], around).phase == Closed
  {
    if a.cipher.Some? && b.outbox[0].SecureFrame? {
      LateOpens(a, b, around);
      LateTakes(a, HandleWireMessage(a, b.outbox[0], around), b);
    } else {
      LateIgnores(a, b.outbox[0], around);
      LateTakes(a, a, b);
    }
  }

  lemma LateIgnores(a: Session, frame: Wire, around: Surroundings)
    requires a.phase == Closed && (a.cipher.None? || !frame.SecureFrame?)
    ensures HandleWireMessage(a, frame, around) == a
  {
  }

  /** A closed session that only counts the frame. */
  lemma LateTakes(a: Session, after: Session, b: Session)
    requires Paired(a, b) && b.outbox != [] && a.phase == Closed && after.phase == Closed
    requires InShape(after) && SameHandshake(a, after) && after.outbox == a.outbox && Sent(after) >= Sent(a)
    requires Got(after) == if a.cipher.Some? then Advance(Got(a), b.outbox[0]) else Got(a)
    requires after.localConsent == a.localConsent && after.remoteConsent == a.remoteConsent
    ensures Paired(after, Tail(b))
  {
    TakingStep(a, after, b, []);
  }

  lemma OpeningShape(a: Session, now: int)
    requires InShape(a) && a.cipher.Some?
    ensures InShape(Opening(a, now)) && SameHandshake(a, Opening(a, now)) && Got(Opening(a, now)) == Got(a) + 1
  {
  }

  lemma LateOpens(a: Session, b: Session, around: Surroundings)
    requires Paired(a, b) && b.outbox != [] && a.phase == Closed && HasRoom(b)
    requires a.cipher.Some? && b.outbox[0].SecureFrame?
    ensures HandleWireMessage(a, b.outbox[0], around) ==
            HandleSecure(Opening(a, around.now), Carried(b.outbox[0]), around).session
    ensures var after := HandleWireMessage(a, b.outbox[0], around);
            && InShape(after) && after.phase == Closed && SameHandshake(a, after)
            && after.outbox == a.outbox && Sent(after) >= Sent(a) && Got(after) == Got(a) + 1
            && after.localConsent == a.localConsent && after.remoteConsent == a.remoteConsent
            && after.incomingReversal == a.incomingReversal && after.grants == a.grants
            && (after.outgoingReversal == a.outgoingReversal || after.outgoingReversal == None)
            && after.requests == a.requests && after.resolved == a.resolved && after.rejected == a.rejected
  {
    HeadOpens(a, b);
    OpeningShape(a, around.now);
    ClosedHandles(Opening(a, around.now), Carried(b.outbox[0]), around);
  }

  // ---------- the two hellos ----------

  lemma SecureCountZero(toInitiator: bool, rank: Rank, frames: seq<Wire>)
    requires rank >= 1 && AllInOrder(toInitiator, rank, frames) && SecureCount(frames) == 0
    ensures frames == []
  {
  }

  /** The responder after its hello, as far as the other end and the queues can tell. */
  lemma ClientHelloAnswered(a: Session, b: Session, around: Surroundings)
    requires Paired(a, b) && b.outbox != [] && a.phase == AwaitingClientHello
    ensures b.outbox[0] == ClientHelloFrame(Client(a, b)) && b.cipher.None? && Tail(b).outbox == []
    ensures !Dispatch(a, b.outbox[0], around).threw
    ensures var after := HandleWireMessage(a, b.outbox[0], around);
            && SameIdentity(a, after) && after.phase == AwaitingSecureReady && Agrees(after, b) && Agrees(b, after)
            && after.outbox == [ServerHelloFrame(Server(a, b))] && Sent(after) == 0 && Got(after) == 0
            && after.localConsent.None? && after.remoteConsent.None?
  {
    assert b.outbox[0] == ClientHelloFrame(Client(a, b));
    assert a.outbox == [];
    SecureCountZero(false, 1, Tail(b).outbox);
  }

  lemma ClientHelloQueues(a: Session, after: Session, b: Session)
    requires Paired(a, b) && b.outbox != [] && a.phase == AwaitingClientHello && SameIdentity(a, after)
    requires b.cipher.None? && Tail(b).outbox == []
    requires after.phase == AwaitingSecureReady && Agrees(after, b) && Agrees(b, after) && InShape(after)
    requires after.outbox == [ServerHelloFrame(Server(a, b))] && Sent(after) == 0 && Got(after) == 0
    requires after.localConsent.None? && after.remoteConsent.None?
    ensures Paired(after, Tail(b))
  {
    SameLanes(a, after, b, Tail(b));
    assert after.outbox[1..] == [];
  }

  lemma ClientHelloKeepsPaired(a: Session, b: Session, around: Surroundings)
    requires Paired(a, b) && b.outbox != [] && a.phase == AwaitingClientHello
    ensures !Dispatch(a, b.outbox[0], around).threw
    ensures Paired(HandleWireMessage(a, b.outbox[0], around), Tail(b))
  {
    ClientHelloAnswered(a, b, around);
    ClientHelloShape(a, b, around);
    ClientHelloQueues(a, HandleWireMessage(a, b.outbox[0], around), b);
  }

  lemma ClientHelloShape(a: Session, b: Session, around: Surroundings)
    requires Paired(a, b) && b.outbox != [] && a.phase == AwaitingClientHello
    requires b.outbox[0] == ClientHelloFrame(Client(a, b))
    ensures InShape(HandleWireMessage(a, b.outbox[0], around))
  {
  }

  // ---------- a secure frame to an open session ----------

  lemma OpenExpected(a: Session, b: Session, now: int)
    requires Paired(a, b) && b.outbox != [] && a.phase != Closed && a.suspended == 0 && a.cipher.Some?
    ensures b.outbox[0].SecureFrame?
    ensures var message := Carried(b.outbox[0]);
            Expected(Opening(a, now), message) || message.ReversalDecision? || message.DiagnosticsBatch? ||
            (message == ConsentDecision(false) && a.phase == Connected && !a.initiator)
  {
    assert InOrder(a.initiator, ReceiverRank(a), b.outbox[0]);
    if ConnectedOnly(Carried(b.outbox[0])) {
      ConnectedOnlyFindsConnected(a, b);
    }
  }

  /** Shape and ranks after an expected message, before its replies are counted in. */
  lemma AbsorbedShape(s: Session, message: Message, around: Surroundings)
    requires InShape(s) && PeerKnown(s) && s.phase != Closed && s.suspended == 0 && Expected(s, message)
    requires s.initiator ==> !s.peer.value.paired
    ensures var after := Absorbed(s, message, around);
            && InShape(after) && SameHandshake(s, after) && after.cipher == s.cipher && after.outbox == s.outbox
            && (s.localConsent.Some? ==> after.localConsent.Some?)
            && (s.remoteConsent.Some? ==> after.remoteConsent.Some?)
            && (after.remoteConsent != s.remoteConsent ==> message.ConsentDecision?)
  {
    match message
    case ConsentDecision(accepted) => ConsentAbsorbedShape(s, accepted, around);
    case Ready => EnteredShape(s, around);
    case ReadyAcknowledged => EnteredShape(s, around);
    case Disconnect => ClosedShape(s, true);
    case ProtocolError => ClosedShape(s, false);
    case _ => PlainAbsorbedShape(s, message, around);
  }

  /** The messages that leave the phase alone. */
  lemma PlainAbsorbedShape(s: Session, message: Message, around: Surroundings)
    requires InShape(s) && PeerKnown(s) && s.phase != Closed && Expected(s, message)
    requires !message.Ready? && !message.ReadyAcknowledged? && !message.ConsentDecision?
    requires !message.Disconnect? && !message.ProtocolError?
    ensures var after := Absorbed(s, message, around);
            && InShape(after) && SameHandshake(s, after) && after.cipher == s.cipher && after.outbox == s.outbox
            && after.localConsent == s.localConsent && after.remoteConsent == s.remoteConsent
  {
    match message
    case DiagnosticsBatch(id, records, complete) => BatchAbsorbedShape(s, id, records, complete);
    case ReversalDecision(id, accepted) => DecisionAbsorbedShape(s, id, accepted);
    case _ =>
  }

  lemma BatchAbsorbedShape(s: Session, id: nat, records: seq<DiagnosticRecord>, complete: bool)
    requires InShape(s) && s.phase != Closed && Expected(s, DiagnosticsBatch(id, records, complete))
    ensures var outcome := HandleDiagnosticsBatch(s, id, records, complete);
            var after := outcome.session;
            && !outcome.threw && InShape(after) && SameHandshake(s, after)
            && after.cipher == s.cipher && after.outbox == s.outbox
            && after.localConsent == s.localConsent && after.remoteConsent == s.remoteConsent
  {
    if id in s.requests {
      assert s.phase == Connected;
    }
  }

  lemma DecisionAbsorbedShape(s: Session, id: nat, accepted: bool)
    requires InShape(s) && s.phase != Closed && s.outgoingReversal == Some(id)
    ensures var outcome := HandleReversalDecision(s, id, accepted);
            var after := outcome.session;
            && !outcome.threw && InShape(after) && SameHandshake(s, after)
            && after.cipher == s.cipher && after.outbox == s.outbox
            && after.localConsent == s.localConsent && after.remoteConsent == s.remoteConsent
  {
    assert s.phase == Connected;
  }

  lemma EnteredShape(s: Session, around: Surroundings)
    requires InShape(s) && PeerKnown(s) && s.phase == (if s.initiator then AwaitingSecureAcknowledgement else AwaitingSecureReady)
    requires s.initiator ==> !s.peer.value.paired
    ensures var after := ConsentEntered(s, around.now, around.promptId);
            InShape(after) && SameHandshake(s, after) && after.phase == AwaitingConsent
  {
  }

  lemma ConsentAbsorbedShape(s: Session, accepted: bool, around: Surroundings)
    requires InShape(s) && PeerKnown(s) && s.phase == AwaitingConsent && s.suspended == 0
    requires s.initiator ==> !s.peer.value.paired
    ensures var after := HandleSecure(s, ConsentDecision(accepted), around).session;
            && InShape(after) && SameHandshake(s, after) && after.cipher == s.cipher && after.outbox == s.outbox
            && after.localConsent == s.localConsent && after.remoteConsent == Some(accepted)
            && (after.phase == Closed <==> !accepted)
  {
    var heard := s.(remoteConsent := Some(accepted));
    if accepted {
      var after := TryEstablish(heard, around.now);
      if !ReadyToEstablish(heard) {
        assert after == heard;
      }
    } else {
      ClosedShape(heard, true);
    }
  }

  /** The replies are in order for the other end and take it where the changed session says; nothing is sent too early. */
  predicate AnswersInOrder(s: Session, after: Session, replies: seq<Message>)
    requires s.cipher.Some?
  {
    && (forall reply <- replies :: Acceptable(reply))
    && AllInOrder(!s.initiator, SenderRank(s), Frames(s.cipher.value, replies))
    && (after.phase != Closed ==> Final(SenderRank(s), Frames(s.cipher.value, replies)) == SenderRank(after))
    && (forall reply <- replies :: reply.ConsentDecision? ==> after.localConsent.Some?)
    && (forall reply <- replies :: ConnectedOnly(reply) ==> after.remoteConsent.Some?)
  }

  lemma NoRepliesInOrder(s: Session, after: Session)
    requires s.cipher.Some? && (after.phase != Closed ==> SenderRank(after) == SenderRank(s))
    ensures AnswersInOrder(s, after, [])
  {
  }

  lemma OneReplyInOrder(s: Session, after: Session, reply: Message)
    requires s.cipher.Some? && Acceptable(reply)
    requires InOrder(!s.initiator, SenderRank(s), SecureFrame(HonestEnvelope(s.cipher.value.transmitKey, s.cipher.value.session,
                                                                           s.cipher.value.transmitted, reply)))
    requires after.phase != Closed ==>
               SenderRank(after) == Next(SenderRank(s), SecureFrame(HonestEnvelope(s.cipher.value.transmitKey,
                                          s.cipher.value.session, s.cipher.value.transmitted, reply)))
    requires reply.ConsentDecision? ==> after.localConsent.Some?
    requires ConnectedOnly(reply) ==> after.remoteConsent.Some?
    ensures AnswersInOrder(s, after, [reply])
  {
    OneInOrder(s, reply);
  }

  lemma HandshakeRepliesInOrder(s: Session, message: Message, around: Surroundings)
    requires InShape(s) && PeerKnown(s) && Expected(s, message) && (message.Ready? || message.ReadyAcknowledged?)
    requires s.initiator ==> !s.peer.value.paired
    ensures AnswersInOrder(s, Absorbed(s, message, around), Replies(s, message, around.local))
  {
    if message.Ready? {
      OpeningRepliesInOrder(s, around);
    } else {
      OneReplyInOrder(s, Absorbed(s, message, around), ConsentDecision(true));
    }
  }

  lemma ConversationRepliesInOrder(s: Session, message: Message, around: Surroundings)
    requires InShape(s) && PeerKnown(s) && s.phase != Closed && Expected(s, message)
    requires message.Ping? || message.ReversalRequest? || message.DiagnosticsRequest?
    requires Acceptable(message)
    ensures AnswersInOrder(s, Absorbed(s, message, around), Replies(s, message, around.local))
  {
    match message
    case Ping(id) => OneReplyInOrder(s, s, Pong(id));
    case DiagnosticsRequest(id, limit) => BatchesInOrder(s, id, LastRecords(around.local, limit));
    case ReversalRequest(id) =>
      if s.prompt.Some? {
        OneReplyInOrder(s, s, ReversalDecision(id, false));
      } else {
        NoRepliesInOrder(s, Absorbed(s, message, around));
      }
  }

  lemma SilenceInOrder(s: Session, message: Message, around: Surroundings)
    requires InShape(s) && PeerKnown(s) && s.phase != Closed && s.suspended == 0 && Expected(s, message)
    requires s.initiator ==> !s.peer.value.paired
    requires !message.Ready? && !message.ReadyAcknowledged? && !message.Ping? && !message.ReversalRequest? &&
             !message.DiagnosticsRequest?
    ensures AnswersInOrder(s, Absorbed(s, message, around), Replies(s, message, around.local))
  {
    AbsorbedShape(s, message, around);
    if message.ConsentDecision? {
      ConsentAbsorbedShape(s, message.accepted, around);
    }
    NoRepliesInOrder(s, Absorbed(s, message, around));
  }

  /** Where the ranks go with an expected message, and that its replies are in order. */
  lemma RepliesInOrder(s: Session, message: Message, around: Surroundings)
    requires InShape(s) && PeerKnown(s) && s.phase != Closed && s.suspended == 0 && Expected(s, message)
    requires s.initiator ==> !s.peer.value.paired
    requires Acceptable(message)
    ensures AnswersInOrder(s, Absorbed(s, message, around), Replies(s, message, around.local))
  {
    if message.Ready? || message.ReadyAcknowledged? {
      HandshakeRepliesInOrder(s, message, around);
    } else if message.Ping? || message.ReversalRequest? || message.DiagnosticsRequest? {
      ConversationRepliesInOrder(s, message, around);
    } else {
      SilenceInOrder(s, message, around);
    }
  }

  lemma OpeningRepliesInOrder(s: Session, around: Surroundings)
    requires InShape(s) && PeerKnown(s) && s.phase == AwaitingSecureReady
    ensures var replies := [ReadyAcknowledged] + ConsentSent(s);
            && AllInOrder(true, 1, Frames(s.cipher.value, replies))
            && Final(1, Frames(s.cipher.value, replies)) == SenderRank(ConsentEntered(s, around.now, around.promptId))
  {
    var replies := [ReadyAcknowledged] + ConsentSent(s);
    var cipher := s.cipher.value;
    var next := cipher.(transmitted := cipher.transmitted + 1);
    FramesAppend(cipher, [ReadyAcknowledged], ConsentSent(s));
    AllInOrderAppend(true, 1, Frames(cipher, [ReadyAcknowledged]), Frames(next, ConsentSent(s)));
    OneInOrder(s, ReadyAcknowledged);
    var entered := s.(cipher := Some(next), phase := AwaitingConsent, localConsent := None);
    OneInOrder(entered, ConsentDecision(true));
  }

  lemma {:induction false} BatchFramesInOrder(toInitiator: bool, cipher: Cipher, messages: seq<Message>)
    requires forall message <- messages :: message.DiagnosticsBatch?
    ensures AllInOrder(toInitiator, 3, Frames(cipher, messages)) && Final(3, Frames(cipher, messages)) == 3
    decreases |messages|
  {
    if messages != [] {
      var rest := Frames(cipher.(transmitted := cipher.transmitted + 1), messages[1..]);
      BatchFramesInOrder(toInitiator, cipher.(transmitted := cipher.transmitted + 1), messages[1..]);
      assert Frames(cipher, messages)[1..] == rest;
      assert messages[0] in messages;
    }
  }

  lemma {:induction false} BatchesFromShape(id: nat, records: seq<DiagnosticRecord>, offset: nat)
    requires offset <= |records|
    ensures forall message <- BatchesFrom(id, records, offset) ::
              message.DiagnosticsBatch? && message.requestId == id && |message.records| <= BATCH_RECORD_COUNT
    decreases |records| - offset
  {
    if offset < |records| {
      var end := if offset + BATCH_RECORD_COUNT < |records| then offset + BATCH_RECORD_COUNT else |records|;
      BatchesFromShape(id, records, end);
    }
  }

  lemma BatchesInOrder(s: Session, id: nat, records: seq<DiagnosticRecord>)
    requires s.cipher.Some? && SenderRank(s) == 3
    ensures AllInOrder(!s.initiator, 3, Frames(s.cipher.value, Batches(id, records)))
    ensures Final(3, Frames(s.cipher.value, Batches(id, records))) == 3
    ensures forall message <- Batches(id, records) ::
              message.DiagnosticsBatch? && message.requestId == id && Acceptable(message)
  {
    BatchesFromShape(id, records, 0);
    BatchFramesInOrder(!s.initiator, s.cipher.value, Batches(id, records));
  }

  /** The receiver's rank moves as the frame says. */
  lemma RankFollows(s: Session, frame: Wire, around: Surroundings)
    requires InShape(s) && PeerKnown(s) && s.phase != Closed && s.suspended == 0
    requires frame.SecureFrame? && Expected(s, Carried(frame)) && InOrder(s.initiator, ReceiverRank(s), frame)
    requires s.initiator ==> !s.peer.value.paired
    ensures var after := Absorbed(s, Carried(frame), around);
            after.phase != Closed ==> ReceiverRank(after) == Next(ReceiverRank(s), frame)
  {
    match Carried(frame)
    case ConsentDecision(accepted) => ConsentAbsorbedShape(s, accepted, around);
    case Ready => EnteredShape(s, around);
    case ReadyAcknowledged => EnteredShape(s, around);
    case _ =>
  }

  lemma FramesIgnoreReceived(cipher: Cipher, received: nat, messages: seq<Message>)
    ensures Frames(cipher.(received := received), messages) == Frames(cipher, messages)
    decreases |messages|
  {
    if messages != [] {
      FramesIgnoreReceived(cipher.(transmitted := cipher.transmitted + 1), received, messages[1..]);
    }
  }

  /** All that a delivery step needs to know of a receiver that has opened the frame at the head of the queue. */
  predicate MayAbsorb(a: Session, ready: Session, frame: Wire, around: Surroundings)
    requires ready.cipher.Some?
  {
    var message := Carried(frame);
    var absorbed := Absorbed(ready, message, around);
    var replies := Replies(ready, message, around.local);
    && absorbed.cipher == ready.cipher && absorbed.outbox == ready.outbox
    && SameHandshake(ready, absorbed) && InShape(Posted(absorbed, replies))
    && (forall reply <- replies :: Acceptable(reply))
    && AllInOrder(!a.initiator, SenderRank(a), Frames(ready.cipher.value, replies))
    && (absorbed.phase != Closed ==>
          && Final(SenderRank(a), Frames(ready.cipher.value, replies)) == SenderRank(absorbed)
          && ReceiverRank(absorbed) == Next(ReceiverRank(a), frame))
    && (a.localConsent.Some? ==> absorbed.localConsent.Some?)
    && (a.remoteConsent.Some? ==> absorbed.remoteConsent.Some?)
    && (absorbed.remoteConsent != a.remoteConsent ==> message.ConsentDecision?)
    && (forall reply <- replies :: reply.ConsentDecision? ==> absorbed.localConsent.Some?)
    && (forall reply <- replies :: ConnectedOnly(reply) ==> absorbed.remoteConsent.Some?)
  }

  lemma ExpectedMayAbsorb(a: Session, frame: Wire, around: Surroundings)
    requires InShape(a) && PeerKnown(a) && a.phase != Closed && a.suspended == 0
    requires a.initiator ==> !a.peer.value.paired
    requires frame.SecureFrame? && Acceptable(Carried(frame))
    requires Expected(Opening(a, around.now), Carried(frame)) && InOrder(a.initiator, ReceiverRank(a), frame)
    ensures MayAbsorb(a, Opening(a, around.now), frame, around)
  {
    var ready := Opening(a, around.now);
    OpeningShape(a, around.now);
    AbsorbedShape(ready, Carried(frame), around);
    RepliesInOrder(ready, Carried(frame), around);
    RankFollows(ready, frame, around);
    PostedShape(Absorbed(ready, Carried(frame), around), Replies(ready, Carried(frame), around.local));
  }

  /** The receiver after an expected message: the changed fields, then the replies. */
  function Handled(a: Session, message: Message, around: Surroundings): Session
    requires a.cipher.Some?
  {
    var ready := Opening(a, around.now);
    var absorbed := Absorbed(ready, message, around);
    if absorbed.cipher.Some? then Posted(absorbed, Replies(ready, message, around.local)) else absorbed
  }

  /** A session that may absorb the frame posts its replies as its own frames, whatever its receive counter. */
  lemma AbsorbingPosts(a: Session, frame: Wire, around: Surroundings)
    requires a.cipher.Some? && MayAbsorb(a, Opening(a, around.now), frame, around)
    ensures var after := Handled(a, Carried(frame), around);
            var replies := Replies(Opening(a, around.now), Carried(frame), around.local);
            && Posts(a, after, replies) && SameHandshake(a, after) && InShape(after)
            && Got(after) == Got(a) + 1
            && AllInOrder(!a.initiator, SenderRank(a), Frames(a.cipher.value, replies))
            && (after.phase != Closed ==>
                  Final(SenderRank(a), Frames(a.cipher.value, replies)) == SenderRank(after) &&
                  ReceiverRank(after) == Next(ReceiverRank(a), frame))
  {
    FramesIgnoreReceived(a.cipher.value, a.cipher.value.received + 1,
                         Replies(Opening(a, around.now), Carried(frame), around.local));
  }

  lemma AbsorbingConsents(a: Session, b: Session, around: Surroundings)
    requires Consented(b, a) && Consented(a, b) && b.outbox != [] && a.cipher.Some? && b.outbox[0].SecureFrame?
    requires MayAbsorb(a, Opening(a, around.now), b.outbox[0], around)
    ensures var replies := Replies(Opening(a, around.now), Carried(b.outbox[0]), around.local);
            ConsentsGrow(a, Handled(a, Carried(b.outbox[0]), around), b, replies)
  {
    assert Carried(b.outbox[0]) in Messages(b.outbox);
  }

  lemma AbsorbingStep(a: Session, b: Session, around: Surroundings)
    requires Paired(a, b) && b.outbox != [] && a.phase != Closed && a.cipher.Some? && b.outbox[0].SecureFrame?
    requires MayAbsorb(a, Opening(a, around.now), b.outbox[0], around)
    ensures Paired(Handled(a, Carried(b.outbox[0]), around), Tail(b))
  {
    var message := Carried(b.outbox[0]);
    AbsorbingPosts(a, b.outbox[0], around);
    AbsorbingConsents(a, b, around);
    TakingStep(a, Handled(a, message, around), b, Replies(Opening(a, around.now), message, around.local));
  }

  /** The frame opens and its message is handled; nothing is thrown and the replies are posted. */
  lemma ExpectedDispatch(a: Session, b: Session, around: Surroundings)
    requires Paired(a, b) && b.outbox != [] && a.phase != Closed && a.cipher.Some?
    requires HasRoom(a) && HasRoom(b) && SmallRecords(around.local) && b.outbox[0].SecureFrame?
    requires Expected(Opening(a, around.now), Carried(b.outbox[0]))
    ensures Dispatch(a, b.outbox[0], around) == Done(Handled(a, Carried(b.outbox[0]), around))
  {
    OpensAndHandles(a, b, around);
    ExpectedOutcome(a, Carried(b.outbox[0]), around);
  }

  lemma ExpectedOutcome(a: Session, message: Message, around: Surroundings)
    requires InShape(a) && a.phase != Closed && PeerKnown(a) && HasRoom(a)
    requires SmallRecords(around.local) && Expected(Opening(a, around.now), message)
    ensures HandleSecure(Opening(a, around.now), message, around) == Done(Handled(a, message, around))
  {
    OpeningKnows(a, around.now);
    ExpectedIsHandled(Opening(a, around.now), message, around);
  }

  /** An envelope that opens is handled as its message. */
  lemma OpenedIsHandled(a: Session, frame: Wire, around: Surroundings)
    requires a.phase != AwaitingClientHello && a.phase != AwaitingServerHello
    requires a.cipher.Some? && frame.SecureFrame? && frame.envelope.counter == Got(a) + 1
    requires Opened(a.cipher.value, frame.envelope) == Some(Carried(frame))
    ensures Dispatch(a, frame, around) == HandleSecure(Opening(a, around.now), Carried(frame), around)
  {
  }

  lemma OpensAndHandles(a: Session, b: Session, around: Surroundings)
    requires Paired(a, b) && b.outbox != [] && a.phase != Closed && a.cipher.Some?
    requires HasRoom(b) && b.outbox[0].SecureFrame?
    ensures Dispatch(a, b.outbox[0], around) == HandleSecure(Opening(a, around.now), Carried(b.outbox[0]), around)
  {
    HeadOpens(a, b);
    OpenedIsHandled(a, b.outbox[0], around);
  }

  lemma OpeningKnows(a: Session, now: int)
    requires InShape(a) && a.phase != Closed && PeerKnown(a) && HasRoom(a)
    ensures PeerKnown(Opening(a, now)) && CanSend(Opening(a, now), 600)
  {
  }

  /** An expected message is handled without a throw, and the invariant holds afterwards. */
  lemma ExpectedKeepsPaired(a: Session, b: Session, around: Surroundings)
    requires Paired(a, b) && b.outbox != [] && a.phase != Closed && a.suspended == 0 && a.cipher.Some?
    requires HasRoom(a) && HasRoom(b) && SmallRecords(around.local) && b.outbox[0].SecureFrame?
    requires Expected(Opening(a, around.now), Carried(b.outbox[0]))
    ensures Paired(HandleWireMessage(a, b.outbox[0], around), Tail(b))
  {
    ExpectedDispatch(a, b, around);
    ExpectedMayAbsorb(a, b.outbox[0], around);
    AbsorbingStep(a, b, around);
  }

  /** The initiator's cancel reaches a responder that is connected already: the handler throws and the session closes. */
  lemma CancelKeepsPaired(a: Session, b: Session, around: Surroundings)
    requires Paired(a, b) && b.outbox != [] && a.phase == Connected && HasRoom(b)
    requires b.outbox[0].SecureFrame? && Carried(b.outbox[0]) == ConsentDecision(false)
    ensures Dispatch(a, b.outbox[0], around) == Throw(Opening(a, around.now))
    ensures Paired(HandleWireMessage(a, b.outbox[0], around), Tail(b))
  {
    HeadOpens(a, b);
    OpeningShape(a, around.now);
    ClosedShape(Opening(a, around.now), false);
    TakingStep(a, CloseWithError(Opening(a, around.now), false), b, []);
  }

  // ---------- the server hello ----------

  /** The initiator once it has accepted the server hello, before it sends `Ready`. */
  function Joined(a: Session, hello: ServerHello): Session
    requires a.clientHello.Some?
  {
    WithCipher(
      a.(serverHello := Some(hello), peerKey := Some(hello.fields.identity),
         peer := Some(Peer(hello.fields.device, false))), a.clientHello.value, hello)
    .(phase := AwaitingSecureAcknowledgement)
  }

  lemma ServerHelloArrives(a: Session, b: Session)
    requires Paired(a, b) && b.outbox != [] && a.phase == AwaitingServerHello
    ensures b.outbox[0] == ServerHelloFrame(Server(a, b)) && b.cipher.Some? && a.clientHello.Some?
    ensures VerifyServerHello(Server(a, b), a.clientHello.value)
    ensures Server(a, b).fields.device == OwnDevice(b.own)
    ensures SecureCount(a.outbox) == 0
    ensures b.phase != Closed ==> a.outbox == []
  {
    if b.phase != Closed {
      SecureCountZero(false, ReceiverRank(b), a.outbox);
    }
  }

  /** The identity in the hello is not the one the connection was meant for. */
  predicate WrongDevice(a: Session, b: Session) {
    a.expectedDevice.Some? && a.expectedDevice.value != OwnDevice(b.own)
  }

  lemma RefusedDispatch(a: Session, b: Session, around: Surroundings)
    requires a.initiator && a.phase == AwaitingServerHello && WrongDevice(a, b)
    ensures Dispatch(a, ServerHelloFrame(Server(a, b)), around) == Throw(a)
  {
  }

  lemma ServerHelloRefused(a: Session, b: Session, around: Surroundings)
    requires Paired(a, b) && b.outbox != [] && a.phase == AwaitingServerHello && WrongDevice(a, b)
    ensures Dispatch(a, b.outbox[0], around) == Throw(a)
    ensures Paired(HandleWireMessage(a, b.outbox[0], around), Tail(b))
  {
    ServerHelloArrives(a, b);
    RefusedDispatch(a, b, around);
    ClosedShape(a, false);
    TakingStep(a, CloseWithError(a, false), b, []);
  }

  lemma ServerHelloAccepted(a: Session, b: Session, around: Surroundings)
    requires Paired(a, b) && b.outbox != [] && a.phase == AwaitingServerHello && !WrongDevice(a, b)
    ensures Dispatch(a, b.outbox[0], around) == Done(Posted(Joined(a, Server(a, b)), [Ready]))
  {
    ServerHelloArrives(a, b);
    SendSecureFits(Joined(a, Server(a, b)), Ready);
  }

  lemma JoinedShape(a: Session, b: Session)
    requires Paired(a, b) && a.phase == AwaitingServerHello && b.cipher.Some? && a.clientHello.Some?
    ensures var after := Posted(Joined(a, Server(a, b)), [Ready]);
            InShape(after) && SameIdentity(a, after) && Sent(after) == 1 && Got(after) == 0 &&
            after.cipher.value == AgreedCipher(a, b, 1, 0) &&
            after.localConsent.None? && after.remoteConsent.None? && PeerKnown(after) &&
            after.phase == AwaitingSecureAcknowledgement && after.outbox == a.outbox + Frames(AgreedCipher(a, b, 0, 0), [Ready])
  {
  }

  lemma ReadyLane(a: Session, b: Session)
    requires Paired(a, b) && a.phase == AwaitingServerHello && SecureCount(a.outbox) == 0 && b.cipher.Some?
    requires b.phase != Closed ==> a.outbox == []
    ensures var queue := a.outbox + Frames(AgreedCipher(a, b, 0, 0), [Ready]);
            && SecureCount(queue) == 1
            && Got(b) == 0 && Numbered(LaneOf(a, b), 0, queue)
            && (b.phase != Closed ==> AllInOrder(false, ReceiverRank(b), queue) && Final(ReceiverRank(b), queue) == 2)
            && Messages(queue) == Messages(a.outbox) + [Ready]
  {
    var cipher := AgreedCipher(a, b, 0, 0);
    var posted := Frames(cipher, [Ready]);
    FramesNumbered(LaneOf(a, b), cipher, [Ready]);
    NumberedAppend(LaneOf(a, b), 0, a.outbox, posted);
    MessagesAppend(a.outbox, posted);
    MessagesOfFrames(cipher, [Ready]);
    if b.phase != Closed {
      assert a.outbox + posted == posted;
      OneInOrder(a.(cipher := Some(cipher)), Ready);
      assert b.phase == AwaitingSecureReady;
    }
  }

  lemma ServerHelloKeepsPaired(a: Session, b: Session, around: Surroundings)
    requires Paired(a, b) && b.outbox != [] && a.phase == AwaitingServerHello
    ensures Dispatch(a, b.outbox[0], around).threw <==> WrongDevice(a, b)
    ensures Paired(HandleWireMessage(a, b.outbox[0], around), Tail(b))
  {
    ServerHelloArrives(a, b);
    if WrongDevice(a, b) {
      ServerHelloRefused(a, b, around);
    } else {
      var after := Posted(Joined(a, Server(a, b)), [Ready]);
      ServerHelloAccepted(a, b, around);
      JoinedShape(a, b);
      ReadyLane(a, b);
      SameLanes(a, after, b, Tail(b));
      TailKeepsShape(b);
      JoinedHalves(a, b);
    }
  }

  lemma JoinedHalves(a: Session, b: Session)
    requires Paired(a, b) && b.outbox != [] && a.phase == AwaitingServerHello && b.cipher.Some? && a.clientHello.Some?
    requires b.outbox[0] == ServerHelloFrame(Server(a, b)) && SecureCount(a.outbox) == 0
    requires b.phase != Closed ==> a.outbox == []
    ensures Paired(Posted(Joined(a, Server(a, b)), [Ready]), Tail(b))
  {
    var after := Posted(Joined(a, Server(a, b)), [Ready]);
    JoinedShape(a, b);
    ReadyLane(a, b);
    SameLanes(a, after, b, Tail(b));
    TailKeepsShape(b);
    assert Half(after, Tail(b));
    JoinedIncoming(a, b);
  }

  lemma JoinedIncoming(a: Session, b: Session)
    requires Paired(a, b) && b.outbox != [] && a.phase == AwaitingServerHello && b.cipher.Some? && a.clientHello.Some?
    requires b.outbox[0] == ServerHelloFrame(Server(a, b))
    ensures Half(Tail(b), Posted(Joined(a, Server(a, b)), [Ready]))
  {
    var after := Posted(Joined(a, Server(a, b)), [Ready]);
    JoinedShape(a, b);
    SameLanes(a, after, b, Tail(b));
    TailKeepsShape(b);
    assert Messages(Tail(b).outbox) == Messages(b.outbox);
  }
}
