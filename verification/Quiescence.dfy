/**
 Reply chains end.  Every frame has a weight, and whatever state the receiver is in, what it writes
 while it handles a frame weighs less than the frame.  This needs no invariant: it holds in every
 world, orderly or not.
 */
module Quiescence {
  import opened Wrappers
  import opened ProtocolContracts
  import opened SessionCryptography
  import opened SessionModel
  import opened TwoParty

  /** The number of batches that can answer a request: one for every ten records, and one for none. */
  function BatchesWithin(limit: nat): nat { 1 + (limit + 9) / 10 }

  function MessageWeight(message: Message): nat {
    match message
    case Ready => 4
    case ReadyAcknowledged => 2
    case Ping(_) => 2
    case ReversalRequest(_) => 2
    case DiagnosticsRequest(_, limit) => 1 + BatchesWithin(limit)
    case _ => 1
  }

  function Weight(frame: Wire): nat {
    match frame
    case ClientHelloFrame(_) => 6
    case ServerHelloFrame(_) => 5
    case SecureFrame(envelope) => MessageWeight(envelope.sealed.plaintext)
  }

  function QueueWeight(frames: seq<Wire>): nat {
    if frames == [] then 0 else Weight(frames[0]) + QueueWeight(frames[1..])
  }

  lemma {:induction false} QueueWeightAppend(first: seq<Wire>, second: seq<Wire>)
    ensures QueueWeight(first + second) == QueueWeight(first) + QueueWeight(second)
    decreases |first|
  {
    if first == [] {
      assert first + second == second;
    } else {
      assert (first + second)[1..] == first[1..] + second;
      QueueWeightAppend(first[1..], second);
    }
  }

  /** `after` has at most `added` more in its queue than `s`. */
  predicate Adds(s: Session, after: Session, added: nat) {
    QueueWeight(after.outbox) <= QueueWeight(s.outbox) + added
  }

  lemma OneFrame(queue: seq<Wire>, frame: Wire)
    ensures QueueWeight(queue + [frame]) == QueueWeight(queue) + Weight(frame)
  {
    QueueWeightAppend(queue, [frame]);
    assert QueueWeight([frame][1..]) == 0;
  }

  lemma SendWrites(s: Session, message: Message)
    ensures var after := SendSecure(s, message).session;
            after.outbox == s.outbox ||
            (s.cipher.Some? && Seal(s.cipher.value, message).Some? &&
             after.outbox == s.outbox + [SecureFrame(Seal(s.cipher.value, message).value)])
  {
  }

  lemma SendAdds(s: Session, message: Message)
    ensures Adds(s, SendSecure(s, message).session, MessageWeight(message))
  {
    SendWrites(s, message);
    if s.cipher.Some? && Seal(s.cipher.value, message).Some? {
      var frame := SecureFrame(Seal(s.cipher.value, message).value);
      OneFrame(s.outbox, frame);
      assert Weight(frame) == MessageWeight(message);
    }
  }

  lemma HelloAdds(s: Session, frame: Wire)
    ensures Adds(s, SendHello(s, frame).session, Weight(frame))
  {
    OneFrame(s.outbox, frame);
  }

  // ---------- handlers ----------

  lemma EnterConsentAdds(s: Session, now: int, promptId: nat)
    ensures Adds(s, EnterConsentPhase(s, now, promptId).session, 1)
  {
    var entered := StartKeepAlive(s.(handshakeTimer := false, phase := AwaitingConsent), now);
    SendAdds(entered.(prompt := Some(Prompt(promptId, Pairing, WaitingForPeer)), localConsent := Some(true)),
             ConsentDecision(true));
    SendAdds(entered.(prompt := None, localConsent := Some(true)), ConsentDecision(true));
  }

  lemma ReadyAdds(s: Session, now: int, promptId: nat)
    ensures Adds(s, HandleReady(s, now, promptId).session, 3)
  {
    SendAdds(s, ReadyAcknowledged);
    EnterConsentAdds(SendSecure(s, ReadyAcknowledged).session, now, promptId);
  }

  lemma {:induction false} BatchesAdd(s: Session, id: nat, records: seq<DiagnosticRecord>, offset: nat)
    requires offset <= |records|
    ensures Adds(s, SendBatches(s, id, records, offset).session, (|records| - offset + 9) / 10)
    decreases |records| - offset
  {
    if offset < |records| {
      var end := if offset + BATCH_RECORD_COUNT < |records| then offset + BATCH_RECORD_COUNT else |records|;
      var message := DiagnosticsBatch(id, records[offset..end], end >= |records|);
      SendAdds(s, message);
      BatchesAdd(SendSecure(s, message).session, id, records, end);
    }
  }

  lemma DiagnosticsRequestAdds(s: Session, id: nat, limit: nat, local: seq<DiagnosticRecord>)
    ensures Adds(s, HandleDiagnosticsRequest(s, id, limit, local).session, BatchesWithin(limit))
  {
    SendAdds(s, DiagnosticsBatch(id, [], true));
    var records := LastRecords(local, limit);
    assert |records| <= limit;
    BatchesAdd(s, id, records, 0);
  }

  lemma ConsentWritesNothing(s: Session, accepted: bool, now: int)
    ensures HandleConsentDecision(s, accepted, now).session.outbox == s.outbox
  {
  }

  lemma BatchWritesNothing(s: Session, id: nat, records: seq<DiagnosticRecord>, complete: bool)
    ensures HandleDiagnosticsBatch(s, id, records, complete).session.outbox == s.outbox
  {
  }

  lemma ReversalRequestAdds(s: Session, id: nat, promptId: nat)
    ensures Adds(s, HandleReversalRequest(s, id, promptId).session, 1)
  {
    SendAdds(s, ReversalDecision(id, false));
  }

  lemma PingAdds(s: Session, id: nat)
    ensures Adds(s, HandlePing(s, id).session, 1)
  {
    SendAdds(s, Pong(id));
  }

  lemma SecureAdds(s: Session, message: Message, around: Surroundings)
    ensures Adds(s, HandleSecure(s, message, around).session, MessageWeight(message) - 1)
  {
    match message
    case Ready => ReadyAdds(s, around.now, around.promptId);
    case ReadyAcknowledged => EnterConsentAdds(s, around.now, around.promptId);
    case ConsentDecision(accepted) => ConsentWritesNothing(s, accepted, around.now);
    case Ping(id) => PingAdds(s, id);
    case ReversalRequest(id) => ReversalRequestAdds(s, id, around.promptId);
    case DiagnosticsRequest(id, limit) => DiagnosticsRequestAdds(s, id, limit, around.local);
    case DiagnosticsBatch(id, records, complete) => BatchWritesNothing(s, id, records, complete);
    case _ =>
  }

  lemma OpenedAdds(s: Session, ready: Session, message: Message, around: Surroundings)
    requires ready.outbox == s.outbox
    ensures Adds(s, HandleSecure(ready, message, around).session, MessageWeight(message) - 1)
  {
    SecureAdds(ready, message, around);
  }

  lemma UnopenedWritesNothing(s: Session, envelope: Envelope, around: Surroundings)
    requires s.cipher.None? || Opened(s.cipher.value, envelope).None?
    ensures HandleEnvelope(s, envelope, around).session.outbox == s.outbox
  {
  }

  lemma EnvelopeAdds(s: Session, envelope: Envelope, around: Surroundings)
    ensures Adds(s, HandleEnvelope(s, envelope, around).session, Weight(SecureFrame(envelope)) - 1)
  {
    if s.cipher.Some? && Opened(s.cipher.value, envelope).Some? {
      EnvelopeOpens(s, envelope, around, envelope.sealed.plaintext);
      OpenedAdds(s, OpenedBy(s, envelope, around.now), envelope.sealed.plaintext, around);
    } else {
      UnopenedWritesNothing(s, envelope, around);
    }
  }

  lemma ClientHelloAdds(s: Session, hello: ClientHello, trust: Trust)
    ensures Adds(s, HandleClientHello(s, hello, trust).session, 5)
  {
    HelloAdds(s, ServerHelloFrame(CreateServerHello(s.own, hello)));
  }

  lemma ServerHelloAdds(s: Session, hello: ServerHello)
    ensures Adds(s, HandleServerHello(s, hello).session, 4)
  {
    if s.clientHello.Some? {
      var known := s.(serverHello := Some(hello), peerKey := Some(hello.fields.identity),
                      peer := Some(Peer(hello.fields.device, false)));
      SendAdds(WithCipher(known, s.clientHello.value, hello).(phase := AwaitingSecureAcknowledgement), Ready);
    }
  }

  /** Whatever the receiver's state is, what it writes while it handles a frame weighs less than the frame. */
  lemma RepliesWeighLess(s: Session, frame: Wire, around: Surroundings)
    ensures Adds(s, HandleWireMessage(s, frame, around), Weight(frame) - 1)
  {
    match frame
    case ClientHelloFrame(hello) => ClientHelloAdds(s, hello, around.trust);
    case ServerHelloFrame(hello) => ServerHelloAdds(s, hello);
    case SecureFrame(envelope) => EnvelopeAdds(s, envelope, around);
  }

  // ---------- the world ----------

  function Measure(w: World): nat {
    QueueWeight(At(w, AtInitiator).outbox) + QueueWeight(At(w, AtResponder).outbox)
  }

  /** Every delivery of a frame lowers the measure, in every world. */
  lemma DeliveryLowersMeasure(w: World, side: Side)
    requires At(w, Other(side)).outbox != []
    ensures Measure(Exec(w, Deliver(side))) < Measure(w)
  {
    RepliesWeighLess(At(w, side), At(w, Other(side)).outbox[0], SurroundingsAt(w, side));
  }

  /** Actions other than user input and ticks: deliveries, and what never writes a frame. */
  predicate Settling(action: Action) {
    action.Deliver? || action.Resume? || action.ExpireRequest? || action.HandshakeTimeout? || action.SocketGone? ||
    action.DisposeSession? || action.Elapse? || action.ReplaceLocal? || action.ReplaceTrust?
  }

  predicate Effective(w: World, action: Action) {
    action.Deliver? && At(w, Other(action.side)).outbox != []
  }

  /** How many frames are delivered in a run. */
  function DeliveredFrames(w: World, actions: seq<Action>): nat {
    if actions == [] then 0
    else
      var before := actions[..|actions| - 1];
      DeliveredFrames(w, before) + (if Effective(Run(w, before), actions[|actions| - 1]) then 1 else 0)
  }

  lemma SettlingWritesNothing(w: World, action: Action, side: Side)
    requires Settling(action) && !action.Deliver?
    ensures At(Exec(w, action), side).outbox == At(w, side).outbox
  {
    match action
    case Resume(at) =>
    case ExpireRequest(at, id) =>
    case HandshakeTimeout(at) =>
    case SocketGone(at) =>
    case DisposeSession(at) =>
    case _ =>
  }

  lemma SettlingStep(w: World, action: Action)
    requires Settling(action)
    ensures Measure(Exec(w, action)) + (if Effective(w, action) then 1 else 0) <= Measure(w)
  {
    if Effective(w, action) {
      DeliveryLowersMeasure(w, action.side);
    } else if !action.Deliver? {
      SettlingWritesNothing(w, action, AtInitiator);
      SettlingWritesNothing(w, action, AtResponder);
    }
  }

  /** Without user input and ticks, no run from any world delivers more frames than the world's measure. */
  lemma {:induction false} RunsSettle(w: World, actions: seq<Action>)
    requires forall action <- actions :: Settling(action)
    ensures Measure(Run(w, actions)) + DeliveredFrames(w, actions) <= Measure(w)
    decreases |actions|
  {
    if actions != [] {
      var before := actions[..|actions| - 1];
      RunsSettle(w, before);
      SettlingStep(Run(w, before), actions[|actions| - 1]);
    }
  }

  /** Delivering as long as there is something to deliver ends, with both queues empty. */
  function Drained(w: World): (after: World)
    ensures At(after, AtInitiator).outbox == [] && At(after, AtResponder).outbox == []
    decreases Measure(w)
  {
    if At(w, AtInitiator).outbox != [] then
      DeliveryLowersMeasure(w, AtResponder);
      Drained(Exec(w, Deliver(AtResponder)))
    else if At(w, AtResponder).outbox != [] then
      DeliveryLowersMeasure(w, AtInitiator);
      Drained(Exec(w, Deliver(AtInitiator)))
    else w
  }
}
