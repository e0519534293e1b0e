/**
 The base invariant of two sessions joined by their queues: what each session's fields look like in
 each phase, what both know of the handshake, and the order and numbering of the frames in flight.
 The actor of a step is the first argument, the other end the second; the invariant is symmetric.
 */
module ProtocolInvariant {
  import opened Wrappers
  import opened ProtocolContracts
  import opened SessionCryptography
  import opened SessionModel
  import opened Effects
  import opened Lanes

  // ---------- what the handshake fixes ----------

  function Caller(a: Session, b: Session): Session { if a.initiator then a else b }

  function Callee(a: Session, b: Session): Session { if a.initiator then b else a }

  function AgreedIntent(a: Session, b: Session): Intent {
    if Caller(a, b).intent.Some? then Caller(a, b).intent.value else ViewRemote
  }

  function Client(a: Session, b: Session): ClientHello {
    CreateClientHello(Caller(a, b).own, AgreedIntent(a, b))
  }

  function Server(a: Session, b: Session): ServerHello {
    CreateServerHello(Callee(a, b).own, Client(a, b))
  }

  function Secret(a: Session, b: Session): set<nat> {
    {Caller(a, b).own.ephemeral, Callee(a, b).own.ephemeral}
  }

  function LaneKey(a: Session, b: Session): Key {
    Key(Secret(a, b), Client(a, b), Server(a, b), if a.initiator then InitiatorToResponder else ResponderToInitiator)
  }

  function LaneOf(a: Session, b: Session): Lane {
    Lane(LaneKey(a, b), Caller(a, b).own.session, Client(a, b), Server(a, b), a.initiator)
  }

  function AgreedCipher(a: Session, b: Session, sent: nat, got: nat): Cipher {
    Cipher(Caller(a, b).own.session, LaneKey(a, b), LaneKey(b, a), sent, got)
  }

  function Sent(s: Session): nat { if s.cipher.Some? then s.cipher.value.transmitted else 0 }

  function Got(s: Session): nat { if s.cipher.Some? then s.cipher.value.received else 0 }

  /** Both ends have the same idea of the handshake. */
  predicate Agrees(a: Session, b: Session) {
    && a.initiator != b.initiator
    && (a.initiator ==> a.intent.Some? && a.clientHello == Some(Client(a, b)))
    && (a.cipher.Some? ==>
          && PeerKnown(a)
          && a.cipher.value == AgreedCipher(a, b, Sent(a), Got(a))
          && a.code.value == Code(Secret(a, b), Client(a, b), Server(a, b))
          && a.intent.value == AgreedIntent(a, b)
          && a.peerKey.value == PublicKey(b.own.identity)
          && a.peer.value.device == OwnDevice(b.own)
          && (a.initiator ==> !a.peer.value.paired && b.cipher.Some?))
  }

  // ---------- one session ----------

  /** Nothing of the consent phase has happened yet. */
  predicate Untouched(s: Session) {
    && s.localConsent.None? && s.remoteConsent.None? && s.prompt.None?
    && s.outgoingReversal.None? && s.incomingReversal.None?
    && s.requests == map[] && s.suspended == 0 && !s.keepAliveTimer
  }

  predicate IsYes(answer: Option<bool>)
    ensures IsYes(answer) <==> answer == Some(true)
  {
    answer.Some? && answer.value
  }

  predicate IsNo(answer: Option<bool>)
    ensures IsNo(answer) <==> answer == Some(false)
  {
    answer.Some? && !answer.value
  }

  predicate Consenting(s: Session) {
    && s.cipher.Some? && s.keepAliveTimer && s.peer.Some?
    && s.outgoingReversal.None? && s.incomingReversal.None? && s.requests == map[]
    && !IsNo(s.localConsent) && !IsNo(s.remoteConsent)
    && if s.initiator then
         && IsYes(s.localConsent) && s.remoteConsent.None? && s.suspended == 0
         && s.prompt.Some? && s.prompt.value.kind == Pairing && s.prompt.value.mode == WaitingForPeer
       else
         && (s.suspended > 0 <==> IsYes(s.localConsent) && IsYes(s.remoteConsent))
         && s.suspended <= 1
         && (s.peer.value.paired ==> IsYes(s.localConsent) && s.remoteConsent.None?)
         && (s.localConsent.Some? ==> s.prompt.None?)
         && (s.localConsent.None? ==>
               s.prompt.Some? && s.prompt.value.kind == Pairing && s.prompt.value.mode == EnterVerificationCode)
  }

  predicate Conversing(s: Session) {
    && s.cipher.Some? && s.keepAliveTimer && s.suspended == 0
    && IsYes(s.localConsent) && IsYes(s.remoteConsent)
    && s.role != NoRole
    && (s.prompt.Some? <==> s.incomingReversal.Some?)
    && (s.prompt.Some? ==> s.prompt.value.kind == Reversal)
  }

  predicate InShape(s: Session) {
    && (s.transportClosed <==> s.phase == Closed)
    && match s.phase
       case AwaitingClientHello => !s.initiator && s.cipher.None? && Untouched(s)
       case AwaitingServerHello => s.initiator && s.cipher.None? && Untouched(s)
       case AwaitingSecureReady => !s.initiator && s.cipher.Some? && Untouched(s)
       case AwaitingSecureAcknowledgement => s.initiator && s.cipher.Some? && Untouched(s)
       case AwaitingConsent => Consenting(s)
       case Connected => Conversing(s)
       case Closed => s.requests == map[] && s.suspended == 0 && !s.keepAliveTimer && !s.handshakeTimer
  }

  // ---------- the queue from `a` to `b` ----------

  /** `b` closed before it had a cipher: it can open nothing any more. */
  predicate Deaf(b: Session) { b.phase == Closed && b.cipher.None? }

  predicate Wired(a: Session, b: Session) {
    && (!a.initiator && a.cipher.None? ==> a.outbox == [])
    && (Deaf(b) || (Numbered(LaneOf(a, b), Got(b), a.outbox) && Got(b) + SecureCount(a.outbox) <= Sent(a)))
    && (!Deaf(b) && a.phase != Closed ==> Sent(a) == Got(b) + SecureCount(a.outbox))
    && (b.phase != Closed ==> AllInOrder(b.initiator, ReceiverRank(b), a.outbox))
    && (b.phase != Closed && a.phase != Closed ==> Final(ReceiverRank(b), a.outbox) == SenderRank(a))
  }

  /**
   A consent in flight or received was recorded by its sender first, and nothing that needs a connection was
   sent without one.
   */
  predicate Consented(a: Session, b: Session) {
    && (forall message <- Messages(a.outbox) :: message.ConsentDecision? ==> a.localConsent.Some?)
    && (forall message <- Messages(a.outbox) :: ConnectedOnly(message) ==> a.remoteConsent.Some?)
    && (a.remoteConsent.Some? ==> b.localConsent.Some?)
  }

  predicate Half(a: Session, b: Session) {
    InShape(a) && Agrees(a, b) && Wired(a, b) && Consented(a, b)
  }

  /** The base invariant. */
  predicate Paired(a: Session, b: Session) { Half(a, b) && Half(b, a) }

  // ---------- what a delivery brings ----------

  /** The message in a frame that comes out of an agreed cipher. */
  function Carried(frame: Wire): Message {
    if frame.SecureFrame? then frame.envelope.sealed.plaintext else Ready
  }

  /** The receiver after opening the frame, before handling its message. */
  function Opening(a: Session, now: int): Session
    requires a.cipher.Some?
  {
    a.(lastSecureAt := now, cipher := Some(a.cipher.value.(received := a.cipher.value.received + 1)))
  }

  function Tail(b: Session): Session
    requires b.outbox != []
  {
    b.(outbox := b.outbox[1..])
  }

  /** With an invariant pair, the head of the queue opens, unless the receiver has no cipher yet. */
  lemma HeadOpens(a: Session, b: Session)
    requires Paired(a, b) && b.outbox != [] && a.cipher.Some?
    requires Sent(b) < COUNTER_LIMIT
    requires b.outbox[0].SecureFrame?
    ensures Opened(a.cipher.value, b.outbox[0].envelope) == Some(Carried(b.outbox[0]))
    ensures b.outbox[0].envelope.counter == Got(a) + 1
  {
    assert SecureCount(b.outbox) >= 1;
  }

  /** The receiver of something that needs a connection is connected, unless it waits for its trust store. */
  lemma ConnectedOnlyFindsConnected(a: Session, b: Session)
    requires Paired(a, b) && b.outbox != [] && a.phase != Closed && a.suspended == 0
    requires b.outbox[0].SecureFrame? && ConnectedOnly(Carried(b.outbox[0]))
    ensures a.phase == Connected
  {
    assert Carried(b.outbox[0]) == Messages(b.outbox)[0];
    assert Carried(b.outbox[0]) in Messages(b.outbox);
    assert InOrder(a.initiator, ReceiverRank(a), b.outbox[0]);
    assert b.remoteConsent.Some?;
    assert a.localConsent.Some?;
    assert a.remoteConsent.Some?;
  }
}
