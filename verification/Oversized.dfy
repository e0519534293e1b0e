/**
 A message that is too large for a frame: the sender's counter has moved on, the queue has not, and
 from then on the two ends disagree.
 */
module Oversized {
  import opened Wrappers
  import opened ProtocolContracts
  import opened SessionCryptography
  import opened EnvelopeText
  import opened SessionModel
  import opened Effects
  import opened Lanes
  import opened ProtocolInvariant
  import opened OwnActions

  /** The counters of the two ends match the queue between them. */
  predicate InStep(a: Session, b: Session) { Sent(a) == Got(b) + SecureCount(a.outbox) }

  lemma RefusedSend(a: Session, message: Message)
    requires a.cipher.Some? && Sent(a) + 1 < COUNTER_LIMIT && !a.transportClosed
    requires !FrameFits(Sent(a) + 1, PlaintextBytes(message))
    ensures SendSecure(a, message) == Throw(a.(cipher := Some(a.cipher.value.(transmitted := Sent(a) + 1))))
  {
  }

  lemma AcceptedSend(a: Session, message: Message)
    requires a.cipher.Some? && Sent(a) + 1 < COUNTER_LIMIT && !a.transportClosed
    requires FrameFits(Sent(a) + 1, PlaintextBytes(message))
    ensures SendSecure(a, message) == Done(Posted(a, [message]))
  {
    assert [message][1..] == [];
    var cipher := a.cipher.value;
    assert Frames(cipher, [message]) == [SecureFrame(HonestEnvelope(cipher.transmitKey, cipher.session, cipher.transmitted, message))];
  }

  lemma FittingKeepsStep(a: Session, b: Session, message: Message)
    requires InStep(a, b) && a.cipher.Some? && Sent(a) + 1 < COUNTER_LIMIT && !a.transportClosed
    requires FrameFits(Sent(a) + 1, PlaintextBytes(message))
    ensures !SendSecure(a, message).threw && InStep(SendSecure(a, message).session, b)
  {
    AcceptedSend(a, message);
    CountsOneMore(a.outbox, a.cipher.value, message);
  }

  lemma RefusedLosesStep(a: Session, b: Session, message: Message)
    requires InStep(a, b) && a.cipher.Some? && Sent(a) + 1 < COUNTER_LIMIT && !a.transportClosed
    requires !FrameFits(Sent(a) + 1, PlaintextBytes(message))
    ensures SendSecure(a, message).threw && !InStep(SendSecure(a, message).session, b)
  {
    RefusedSend(a, message);
  }

  /** Sending a media signal of any size keeps the two ends in step exactly when its frame fits. */
  lemma InStepIffItFits(a: Session, b: Session, signal: Signal)
    requires Paired(a, b) && a.phase == Connected && b.phase != Closed && HasRoom(a) && b.cipher.Some?
    ensures var outcome := SendMediaSignal(a, signal);
            && (InStep(outcome.session, b) <==> FrameFits(Sent(a) + 1, PlaintextBytes(MediaSignal(signal))))
            && (outcome.threw <==> !FrameFits(Sent(a) + 1, PlaintextBytes(MediaSignal(signal))))
  {
    if FrameFits(Sent(a) + 1, PlaintextBytes(MediaSignal(signal))) {
      FittingKeepsStep(a, b, MediaSignal(signal));
    } else {
      RefusedLosesStep(a, b, MediaSignal(signal));
    }
  }

  lemma CountsOneMore(queue: seq<Wire>, cipher: Cipher, message: Message)
    ensures SecureCount(queue + Frames(cipher, [message])) == SecureCount(queue) + 1
  {
    assert [message][1..] == [];
    assert Frames(cipher.(transmitted := cipher.transmitted + 1), [message][1..]) == [];
    var frames := Frames(cipher, [message]);
    assert frames[1..] == [] && SecureCount(frames[1..]) == 0;
    SecureCountAppend(queue, frames);
  }

  lemma {:induction false} SecureCountAppend(first: seq<Wire>, second: seq<Wire>)
    ensures SecureCount(first + second) == SecureCount(first) + SecureCount(second)
    decreases |first|
  {
    if first == [] {
      assert first + second == second;
    } else {
      assert (first + second)[1..] == first[1..] + second;
      SecureCountAppend(first[1..], second);
    }
  }

  /**
   After a refused signal the connection is lost: whatever the sender sends next, the receiver that
   has taken everything before it refuses that frame and closes.
   */
  lemma NextFrameClosesTheReceiver(a: Session, b: Session, signal: Signal, message: Message, around: Surroundings)
    requires Paired(a, b) && a.phase == Connected && b.phase == Connected && HasRoom(a) && a.outbox == []
    requires !FrameFits(Sent(a) + 1, PlaintextBytes(MediaSignal(signal)))
    requires FrameFits(Sent(a) + 2, PlaintextBytes(message))
    ensures var refused := SendMediaSignal(a, signal).session;
            var sent := SendSecure(refused, message).session;
            && refused.outbox == [] && |sent.outbox| == 1
            && Dispatch(b, sent.outbox[0], around).threw
            && HandleWireMessage(b, sent.outbox[0], around).phase == Closed
            && HandleWireMessage(b, sent.outbox[0], around).failed
  {
    RefusedSend(a, MediaSignal(signal));
    var refused := SendMediaSignal(a, signal).session;
    AcceptedSend(refused, message);
    OneInOrder(refused, message);
    assert Sent(a) == Got(b);
    LateCounterIsRefused(b, Frames(refused.cipher.value, [message])[0], around);
  }

  lemma LateCounterIsRefused(b: Session, frame: Wire, around: Surroundings)
    requires b.phase == Connected && b.cipher.Some? && frame.SecureFrame? && frame.envelope.counter != Got(b) + 1
    ensures Dispatch(b, frame, around).threw
    ensures var after := HandleWireMessage(b, frame, around); after.phase == Closed && after.failed
  {
  }
}
