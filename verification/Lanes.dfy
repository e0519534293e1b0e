/**
 One direction of the connection: which frames may follow each other in the queue from a sender to
 a receiver, and how their counters run.
 */
module Lanes {
  import opened ProtocolContracts
  import opened SessionCryptography
  import opened SessionModel
  import opened Effects

  // ---------- order of frames ----------

  /**
   How far the receiver of a lane has come: 0 waits for the hello, 1 for the first secure message,
   2 for the consent of the other end, 3 has it, 4 has been told to stop.
   */
  type Rank = r: nat | r <= 4

  predicate ConnectedOnly(message: Message) {
    message.ReversalRequest? || message.ReversalDecision? || message.DiagnosticsRequest? ||
    message.DiagnosticsBatch? || message.MediaSignal?
  }

  /** The frame is in order for a receiver of this rank. */
  predicate InOrder(toInitiator: bool, rank: Rank, frame: Wire) {
    match frame
    case ClientHelloFrame(_) => rank == 0 && !toInitiator
    case ServerHelloFrame(_) => rank == 0 && toInitiator
    case SecureFrame(envelope) =>
      match envelope.sealed.plaintext
      case Ready => rank == 1 && !toInitiator
      case ReadyAcknowledged => rank == 1 && toInitiator
      case ConsentDecision(accepted) => rank == 2 || (rank == 3 && !accepted && !toInitiator)
      case Disconnect => 1 <= rank <= 3
      case Ping(_) => 2 <= rank <= 3
      case Pong(_) => 2 <= rank <= 3
      case ProtocolError => false
      case _ => rank == 3
  }

  function Next(rank: Rank, frame: Wire): Rank {
    match frame
    case ClientHelloFrame(_) => 1
    case ServerHelloFrame(_) => 1
    case SecureFrame(envelope) =>
      match envelope.sealed.plaintext
      case Ready => 2
      case ReadyAcknowledged => 2
      case ConsentDecision(accepted) => if accepted then 3 else 4
      case Disconnect => 4
      case _ => rank
  }

  predicate AllInOrder(toInitiator: bool, rank: Rank, frames: seq<Wire>)
    decreases |frames|
  {
    frames == [] ||
    (InOrder(toInitiator, rank, frames[0]) && AllInOrder(toInitiator, Next(rank, frames[0]), frames[1..]))
  }

  function Final(rank: Rank, frames: seq<Wire>): Rank
    decreases |frames|
  {
    if frames == [] then rank else Final(Next(rank, frames[0]), frames[1..])
  }

  lemma {:induction false} AllInOrderAppend(toInitiator: bool, rank: Rank, first: seq<Wire>, second: seq<Wire>)
    ensures AllInOrder(toInitiator, rank, first + second) <==>
            AllInOrder(toInitiator, rank, first) && AllInOrder(toInitiator, Final(rank, first), second)
    ensures Final(rank, first + second) == Final(Final(rank, first), second)
    decreases |first|
  {
    if first == [] {
      assert first + second == second;
    } else {
      assert (first + second)[1..] == first[1..] + second;
      AllInOrderAppend(toInitiator, Next(rank, first[0]), first[1..], second);
    }
  }

  /** How far a session has come as a receiver. */
  function ReceiverRank(s: Session): Rank {
    match s.phase
    case AwaitingClientHello => 0
    case AwaitingServerHello => 0
    case AwaitingSecureReady => 1
    case AwaitingSecureAcknowledgement => 1
    case _ => if s.remoteConsent.None? then 2 else 3
  }

  /** How far the other end will have come once it has everything an open session sent. */
  function SenderRank(s: Session): Rank {
    match s.phase
    case AwaitingClientHello => 0
    case AwaitingServerHello => 1
    case AwaitingSecureReady => 1
    case AwaitingSecureAcknowledgement => 2
    case _ => if s.localConsent.None? then 2 else 3
  }

  // ---------- counters and contents ----------

  /** What is fixed for one direction: the key and session of its envelopes and the two hellos. */
  datatype Lane = Lane(key: Key, session: nat, client: ClientHello, server: ServerHello, fromInitiator: bool)

  predicate HonestFrame(lane: Lane, base: nat, frame: Wire) {
    match frame
    case ClientHelloFrame(hello) => lane.fromInitiator && hello == lane.client
    case ServerHelloFrame(hello) => !lane.fromInitiator && hello == lane.server
    case SecureFrame(envelope) =>
      && envelope == HonestEnvelope(lane.key, lane.session, base, envelope.sealed.plaintext)
      && Acceptable(envelope.sealed.plaintext)
  }

  function Advance(base: nat, frame: Wire): nat { if frame.SecureFrame? then base + 1 else base }

  /** The secure frames carry consecutive counters from `base + 1` on, under the key of the lane. */
  predicate Numbered(lane: Lane, base: nat, frames: seq<Wire>)
    decreases |frames|
  {
    frames == [] ||
    (HonestFrame(lane, base, frames[0]) && Numbered(lane, Advance(base, frames[0]), frames[1..]))
  }

  function SecureCount(frames: seq<Wire>): nat {
    if frames == [] then 0 else (if frames[0].SecureFrame? then 1 else 0) + SecureCount(frames[1..])
  }

  lemma {:induction false} NumberedAppend(lane: Lane, base: nat, first: seq<Wire>, second: seq<Wire>)
    ensures Numbered(lane, base, first + second) <==>
            Numbered(lane, base, first) && Numbered(lane, base + SecureCount(first), second)
    ensures SecureCount(first + second) == SecureCount(first) + SecureCount(second)
    decreases |first|
  {
    if first == [] {
      assert first + second == second;
    } else {
      assert (first + second)[1..] == first[1..] + second;
      NumberedAppend(lane, Advance(base, first[0]), first[1..], second);
    }
  }

  lemma {:induction false} FramesNumbered(lane: Lane, cipher: Cipher, messages: seq<Message>)
    requires cipher.transmitKey == lane.key && cipher.session == lane.session
    requires forall message <- messages :: Acceptable(message)
    ensures Numbered(lane, cipher.transmitted, Frames(cipher, messages))
    ensures SecureCount(Frames(cipher, messages)) == |messages|
    decreases |messages|
  {
    if messages != [] {
      FramesNumbered(lane, cipher.(transmitted := cipher.transmitted + 1), messages[1..]);
      assert Frames(cipher, messages)[1..] == Frames(cipher.(transmitted := cipher.transmitted + 1), messages[1..]);
    }
  }

  // ---------- the messages in a queue ----------

  function Messages(frames: seq<Wire>): seq<Message> {
    if frames == [] then []
    else (if frames[0].SecureFrame? then [frames[0].envelope.sealed.plaintext] else []) + Messages(frames[1..])
  }

  lemma {:induction false} MessagesAppend(first: seq<Wire>, second: seq<Wire>)
    ensures Messages(first + second) == Messages(first) + Messages(second)
    decreases |first|
  {
    if first == [] {
      assert first + second == second;
    } else {
      var head := if first[0].SecureFrame? then [first[0].envelope.sealed.plaintext] else [];
      MessagesAppend(first[1..], second);
      calc {
        Messages(first + second);
        { assert (first + second)[1..] == first[1..] + second; }
        head + Messages(first[1..] + second);
        head + (Messages(first[1..]) + Messages(second));
        (head + Messages(first[1..])) + Messages(second);
        Messages(first) + Messages(second);
      }
    }
  }

  lemma {:induction false} MessagesOfFrames(cipher: Cipher, messages: seq<Message>)
    ensures Messages(Frames(cipher, messages)) == messages
    decreases |messages|
  {
    if messages != [] {
      var rest := Frames(cipher.(transmitted := cipher.transmitted + 1), messages[1..]);
      MessagesOfFrames(cipher.(transmitted := cipher.transmitted + 1), messages[1..]);
      assert Frames(cipher, messages)[1..] == rest;
      assert messages == [messages[0]] + messages[1..];
    }
  }

  /** The queue after posting: what was there, then the messages posted. */
  lemma PostedMessages(s: Session, messages: seq<Message>)
    requires s.cipher.Some?
    ensures Messages(Posted(s, messages).outbox) == Messages(s.outbox) + messages
  {
    MessagesAppend(s.outbox, Frames(s.cipher.value, messages));
    MessagesOfFrames(s.cipher.value, messages);
  }
}
