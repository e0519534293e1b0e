/** How the base invariant survives a change of one session: its outgoing lane, its incoming lane, its consents. */
module ProtocolSteps {
  import opened ProtocolContracts
  import opened SessionCryptography
  import opened SessionModel
  import opened Effects
  import opened Lanes
  import opened ProtocolInvariant

  /** What no step ever changes. */
  predicate SameIdentity(a: Session, after: Session) {
    && after.initiator == a.initiator && after.own == a.own && after.expectedDevice == a.expectedDevice
    && (a.initiator ==> after.intent == a.intent && after.clientHello == a.clientHello)
  }

  /** Nothing of the handshake changes but the counters (and that a responder may now trust its peer). */
  predicate SameHandshake(a: Session, after: Session) {
    && SameIdentity(a, after)
    && (a.cipher.Some? <==> after.cipher.Some?)
    && (a.cipher.Some? ==>
          && after.cipher.value == a.cipher.value.(transmitted := Sent(after), received := Got(after))
          && after.intent == a.intent && after.peerKey == a.peerKey && after.code == a.code
          && after.peer.Some? == a.peer.Some?
          && (a.peer.Some? ==> after.peer.value.device == a.peer.value.device)
          && (a.initiator ==> after.peer == a.peer))
  }

  /** The queue of `after` is that of `a` with `messages` posted; only a closing session may waste counters. */
  predicate Posts(a: Session, after: Session, messages: seq<Message>) {
    && (a.cipher.None? ==> messages == [] && after.outbox == a.outbox && Sent(after) == Sent(a))
    && (a.cipher.Some? ==> after.outbox == a.outbox + Frames(a.cipher.value, messages))
    && Sent(after) >= Sent(a) + |messages|
    && (after.phase != Closed ==> Sent(after) == Sent(a) + |messages|)
  }

  /** The messages are in order after everything `a` has sent, and `after` stands where they lead. */
  predicate PostsInOrder(a: Session, after: Session, messages: seq<Message>) {
    && (forall message <- messages :: Acceptable(message))
    && (after.phase != Closed ==> a.phase != Closed)
    && (a.phase == Closed ==> messages == [])
    && (a.cipher.Some? ==>
          && AllInOrder(!a.initiator, SenderRank(a), Frames(a.cipher.value, messages))
          && (after.phase != Closed ==> Final(SenderRank(a), Frames(a.cipher.value, messages)) == SenderRank(after)))
    && (a.cipher.None? && after.phase != Closed ==> SenderRank(after) == SenderRank(a))
  }

  lemma SameLanes(a: Session, after: Session, b: Session, other: Session)
    requires a.initiator != b.initiator
    requires SameIdentity(a, after) && SameIdentity(b, other)
    ensures LaneOf(after, other) == LaneOf(a, b) && LaneOf(other, after) == LaneOf(b, a)
    ensures Client(after, other) == Client(a, b) && Server(after, other) == Server(a, b)
    ensures Secret(after, other) == Secret(a, b) && AgreedIntent(after, other) == AgreedIntent(a, b)
  {
  }

  lemma PostedNumbers(lane: Lane, base: nat, queue: seq<Wire>, cipher: Cipher, messages: seq<Message>)
    requires Numbered(lane, base, queue) && (messages == [] || base + SecureCount(queue) == cipher.transmitted)
    requires cipher.transmitKey == lane.key && cipher.session == lane.session
    requires forall message <- messages :: Acceptable(message)
    ensures Numbered(lane, base, queue + Frames(cipher, messages))
    ensures SecureCount(queue + Frames(cipher, messages)) == SecureCount(queue) + |messages|
  {
    if messages == [] {
      assert queue + Frames(cipher, messages) == queue;
    } else {
      FramesNumbered(lane, cipher, messages);
      NumberedAppend(lane, base, queue, Frames(cipher, messages));
    }
  }

  lemma OutgoingNumbered(a: Session, after: Session, b: Session, other: Session, messages: seq<Message>)
    requires Agrees(a, b) && Wired(a, b)
    requires SameHandshake(a, after) && SameHandshake(b, other)
    requires Got(other) == Got(b) && other.phase == b.phase && other.remoteConsent == b.remoteConsent
    requires Posts(a, after, messages) && PostsInOrder(a, after, messages)
    ensures Deaf(other) || (Numbered(LaneOf(after, other), Got(other), after.outbox) &&
                            Got(other) + SecureCount(after.outbox) <= Sent(after))
    ensures !Deaf(other) && after.phase != Closed ==> Sent(after) == Got(other) + SecureCount(after.outbox)
  {
    SameLanes(a, after, b, other);
    if a.cipher.Some? && !Deaf(b) {
      PostedNumbers(LaneOf(a, b), Got(b), a.outbox, a.cipher.value, messages);
    }
    if messages == [] {
      assert after.outbox == a.outbox;
    }
  }

  lemma OutgoingInOrder(a: Session, after: Session, b: Session, other: Session, messages: seq<Message>)
    requires Agrees(a, b) && Wired(a, b)
    requires SameHandshake(a, after) && SameHandshake(b, other)
    requires Got(other) == Got(b) && other.phase == b.phase && other.remoteConsent == b.remoteConsent
    requires Posts(a, after, messages) && PostsInOrder(a, after, messages)
    ensures other.phase != Closed ==> AllInOrder(other.initiator, ReceiverRank(other), after.outbox)
    ensures other.phase != Closed && after.phase != Closed ==> Final(ReceiverRank(other), after.outbox) == SenderRank(after)
  {
    if a.cipher.Some? {
      AllInOrderAppend(b.initiator, ReceiverRank(b), a.outbox, Frames(a.cipher.value, messages));
    }
    if messages == [] {
      assert after.outbox == a.outbox;
    }
  }

  lemma KeepsOutgoing(a: Session, after: Session, b: Session, other: Session, messages: seq<Message>)
    requires Agrees(a, b) && Wired(a, b)
    requires SameHandshake(a, after) && SameHandshake(b, other)
    requires Got(other) == Got(b) && other.phase == b.phase && other.remoteConsent == b.remoteConsent
    requires Posts(a, after, messages) && PostsInOrder(a, after, messages)
    ensures Wired(after, other)
  {
    OutgoingNumbered(a, after, b, other, messages);
    OutgoingInOrder(a, after, b, other, messages);
  }

  /** The receiver took nothing from the queue. */
  lemma KeepsIncoming(a: Session, after: Session, b: Session)
    requires Agrees(a, b) && Wired(b, a)
    requires SameHandshake(a, after) && Got(after) == Got(a)
    requires after.phase != Closed ==> a.phase != Closed && ReceiverRank(after) == ReceiverRank(a)
    ensures Wired(b, after)
  {
    SameLanes(a, after, b, b);
  }

  /** The receiver took the head of the queue. */
  lemma TakesIncoming(a: Session, after: Session, b: Session)
    requires Agrees(a, b) && Wired(b, a) && b.outbox != []
    requires SameHandshake(a, after)
    requires !Deaf(a) ==> Got(after) == Advance(Got(a), b.outbox[0])
    requires after.phase != Closed ==> a.phase != Closed && ReceiverRank(after) == Next(ReceiverRank(a), b.outbox[0])
    requires Deaf(a) ==> Deaf(after)
    ensures Wired(Tail(b), after)
  {
    SameLanes(a, after, b, Tail(b));
  }

  lemma KeepsAgreement(a: Session, after: Session, b: Session, other: Session)
    requires Agrees(a, b) && Agrees(b, a)
    requires SameHandshake(a, after) && SameHandshake(b, other)
    ensures Agrees(after, other) && Agrees(other, after)
  {
    SameLanes(a, after, b, other);
  }

  /** How consents may change: they are only ever added, and what is posted is backed by them. */
  predicate ConsentsGrow(a: Session, after: Session, b: Session, messages: seq<Message>) {
    && (a.localConsent.Some? ==> after.localConsent.Some?)
    && (a.remoteConsent.Some? ==> after.remoteConsent.Some?)
    && (after.remoteConsent.Some? ==> b.localConsent.Some?)
    && (forall message <- messages :: message.ConsentDecision? ==> after.localConsent.Some?)
    && (forall message <- messages :: ConnectedOnly(message) ==> after.remoteConsent.Some?)
  }

  lemma KeepsConsents(a: Session, after: Session, b: Session, other: Session, messages: seq<Message>)
    requires Consented(a, b) && Consented(b, a)
    requires Messages(after.outbox) == Messages(a.outbox) + messages
    requires other == b || (b.outbox != [] && other == Tail(b))
    requires ConsentsGrow(a, after, b, messages)
    ensures Consented(after, other) && Consented(other, after)
  {
    if b.outbox != [] {
      assert forall message <- Messages(Tail(b).outbox) :: message in Messages(b.outbox);
    }
  }

  lemma PostsMessages(a: Session, after: Session, messages: seq<Message>)
    requires Posts(a, after, messages)
    ensures Messages(after.outbox) == Messages(a.outbox) + messages
  {
    if a.cipher.Some? {
      MessagesAppend(a.outbox, Frames(a.cipher.value, messages));
      MessagesOfFrames(a.cipher.value, messages);
    }
  }

  /** All that a step of one session on its own has to observe; it mentions nothing of the other end. */
  predicate LocalStep(a: Session, after: Session, messages: seq<Message>) {
    && InShape(after) && SameHandshake(a, after) && Got(after) == Got(a)
    && Posts(a, after, messages) && PostsInOrder(a, after, messages)
    && (after.phase != Closed ==> ReceiverRank(after) == ReceiverRank(a))
    && after.remoteConsent == a.remoteConsent && (a.localConsent.Some? ==> after.localConsent.Some?)
    && (forall message <- messages :: message.ConsentDecision? ==> after.localConsent.Some?)
    && (forall message <- messages :: ConnectedOnly(message) ==> after.remoteConsent.Some?)
  }

  lemma OwnStep(a: Session, after: Session, b: Session, messages: seq<Message>)
    requires Paired(a, b) && LocalStep(a, after, messages)
    ensures Paired(after, b)
  {
    KeepsAgreement(a, after, b, b);
    KeepsOutgoing(a, after, b, b, messages);
    KeepsIncoming(a, after, b);
    PostsMessages(a, after, messages);
    KeepsConsents(a, after, b, b, messages);
  }

  lemma TailKeepsShape(b: Session)
    requires InShape(b) && b.outbox != []
    ensures InShape(Tail(b)) && SameHandshake(b, Tail(b)) && Got(Tail(b)) == Got(b)
  {
  }

  /** A step of `a` that takes the head of the queue of `b`. */
  lemma TakingStep(a: Session, after: Session, b: Session, messages: seq<Message>)
    requires Paired(a, b) && InShape(after) && b.outbox != []
    requires SameHandshake(a, after)
    requires !Deaf(a) ==> Got(after) == Advance(Got(a), b.outbox[0])
    requires Deaf(a) ==> Deaf(after)
    requires Posts(a, after, messages) && PostsInOrder(a, after, messages)
    requires after.phase != Closed ==> ReceiverRank(after) == Next(ReceiverRank(a), b.outbox[0])
    requires ConsentsGrow(a, after, b, messages)
    ensures Paired(after, Tail(b))
  {
    TailKeepsShape(b);
    KeepsAgreement(a, after, b, Tail(b));
    KeepsOutgoing(a, after, b, Tail(b), messages);
    TakesIncoming(a, after, b);
    PostsMessages(a, after, messages);
    KeepsConsents(a, after, b, Tail(b), messages);
  }
}
