/**
 Progress: from any reached world in which nobody has closed or asked to, every way of delivering what
 is in the queues and letting the trust store answer ends with nothing left to do, and nobody has closed.
 */
module Completion {
  import opened Wrappers
  import opened ProtocolContracts
  import opened SessionCryptography
  import opened SessionModel
  import opened Effects
  import opened Lanes
  import opened ProtocolInvariant
  import opened ProtocolSteps
  import opened Deliveries
  import opened TwoParty
  import opened Steps
  import opened DeliverySteps
  import opened Protocol
  import opened Guarantees
  import opened Quiescence

  // ---------- messages that close ----------

  predicate Closes(message: Message) {
    message.Disconnect? || message.ProtocolError? || message == ConsentDecision(false)
  }

  predicate NoneCloses(messages: seq<Message>) {
    forall k | 0 <= k < |messages| :: !Closes(messages[k])
  }

  /** An open session, and nothing in its queue that closes the other one. */
  predicate Calm(s: Session) { s.phase != Closed && NoneCloses(Messages(s.outbox)) }

  lemma OpenStaysOpen(s: Session, message: Message, around: Surroundings)
    requires s.phase != Closed && Expected(s, message) && !Closes(message)
    ensures Absorbed(s, message, around).phase != Closed
  {
    match message
    case ConsentDecision(accepted) => EstablishingStaysOpen(s.(remoteConsent := Some(accepted)), around.now);
    case DiagnosticsBatch(id, records, complete) => BatchStaysOpen(s, id, records, complete);
    case _ =>
  }

  lemma EstablishingStaysOpen(s: Session, now: int)
    requires s.phase != Closed
    ensures TryEstablish(s, now).phase != Closed
  {
  }

  lemma BatchStaysOpen(s: Session, id: nat, records: seq<DiagnosticRecord>, complete: bool)
    ensures HandleDiagnosticsBatch(s, id, records, complete).session.phase == s.phase
  {
  }

  lemma RepliesDoNotClose(s: Session, message: Message, around: Surroundings)
    ensures NoneCloses(Replies(s, message, around.local))
  {
    if message.DiagnosticsRequest? {
      var records := LastRecords(around.local, message.limit);
      BatchesFromShape(message.requestId, records, 0);
      forall k | 0 <= k < |Batches(message.requestId, records)|
        ensures Batches(message.requestId, records)[k].DiagnosticsBatch?
      {
        assert Batches(message.requestId, records)[k] in Batches(message.requestId, records);
      }
    }
  }

  lemma FewReplies(s: Session, message: Message, around: Surroundings)
    requires message.DiagnosticsRequest? ==> message.limit <= MAXIMUM_RECORDS_PER_REQUEST
    ensures |Replies(s, message, around.local)| <= 600
  {
    if message.DiagnosticsRequest? {
      BatchCount(message.requestId, LastRecords(around.local, message.limit), 0);
    }
  }

  lemma JoinedCalm(first: seq<Message>, second: seq<Message>)
    requires NoneCloses(first) && NoneCloses(second)
    ensures NoneCloses(first + second)
  {
  }

  /** A step that leaves a session calm: it sends at most 600 messages and forgets no approval. */
  predicate CalmStep(s: Session, after: Session) {
    Calm(after) && Sent(after) <= Sent(s) + 600 && SameIdentity(s, after) &&
    (s.localConsent.Some? ==> after.localConsent.Some?)
  }

  /** A calm session whose fields have changed posts at most 600 messages that close nothing. */
  lemma PostedCalm(s: Session, changed: Session, replies: seq<Message>)
    requires Calm(s) && changed.phase != Closed && changed.cipher.Some? && changed.outbox == s.outbox
    requires Sent(changed) == Sent(s) && SameIdentity(s, changed) && NoneCloses(replies) && |replies| <= 600
    requires s.localConsent.Some? ==> changed.localConsent.Some?
    ensures CalmStep(s, Posted(changed, replies))
  {
    PostedMessages(changed, replies);
    JoinedCalm(Messages(s.outbox), replies);
  }

  /** The receiver of an expected message stays calm and sends at most 600 messages. */
  lemma HandledCalm(a: Session, message: Message, around: Surroundings)
    requires InShape(a) && PeerKnown(a) && Calm(a) && a.suspended == 0 && !Closes(message)
    requires Expected(Opening(a, around.now), message) && (a.initiator ==> !a.peer.value.paired)
    ensures CalmStep(a, Handled(a, message, around))
  {
    var ready := Opening(a, around.now);
    OpeningShape(a, around.now);
    AbsorbedShape(ready, message, around);
    OpenStaysOpen(ready, message, around);
    RepliesDoNotClose(ready, message, around);
    FewReplies(ready, message, around);
    PostedCalm(a, Absorbed(ready, message, around), Replies(ready, message, around.local));
  }

  // ---------- one delivery ----------

  lemma TailCalm(b: Session)
    requires Calm(b) && b.outbox != []
    ensures Calm(Tail(b)) && Sent(Tail(b)) == Sent(b)
    ensures b.outbox[0].SecureFrame? ==> !Closes(Carried(b.outbox[0]))
  {
    if b.outbox[0].SecureFrame? {
      var messages := Messages(b.outbox);
      assert messages[0] == Carried(b.outbox[0]);
      assert messages[1..] == Messages(Tail(b).outbox);
      forall k | 0 <= k < |messages[1..]| ensures !Closes(messages[1..][k]) {
        assert messages[1..][k] == messages[k + 1];
      }
    } else {
      assert Messages(Tail(b).outbox) == Messages(b.outbox);
    }
  }

  lemma HelloLeavesCalm(queue: seq<Wire>, frame: Wire)
    requires !frame.SecureFrame?
    ensures Messages(queue + [frame]) == Messages(queue)
  {
    MessagesAppend(queue, [frame]);
    HelloCarriesNothing(frame);
  }

  lemma AnsweringHelloCalm(a: Session, hello: ClientHello, around: Surroundings)
    requires a.phase == AwaitingClientHello && !a.initiator && Calm(a) && !HandleClientHello(a, hello, around.trust).threw
    ensures CalmStep(a, HandleWireMessage(a, ClientHelloFrame(hello), around))
  {
    AnsweredHello(a, hello, around);
    AnsweredHelloCalm(a, HandleWireMessage(a, ClientHelloFrame(hello), around), CreateServerHello(a.own, hello));
  }

  /** What answering a hello does, as far as calm is concerned. */
  lemma AnsweredHello(a: Session, hello: ClientHello, around: Surroundings)
    requires a.phase == AwaitingClientHello && !a.initiator && !HandleClientHello(a, hello, around.trust).threw
    ensures var after := HandleWireMessage(a, ClientHelloFrame(hello), around);
            && after.phase == AwaitingSecureReady && SameIdentity(a, after) && after.localConsent == a.localConsent
            && after.outbox == a.outbox + [ServerHelloFrame(CreateServerHello(a.own, hello))] && Sent(after) == 0
  {
  }

  lemma AnsweredHelloCalm(a: Session, after: Session, answer: ServerHello)
    requires Calm(a) && after.phase == AwaitingSecureReady && SameIdentity(a, after) && after.localConsent == a.localConsent
    requires after.outbox == a.outbox + [ServerHelloFrame(answer)] && Sent(after) == 0
    ensures CalmStep(a, after)
  {
    HelloLeavesCalm(a.outbox, ServerHelloFrame(answer));
  }

  lemma ClientHelloCalm(a: Host, b: Host, answers: map<nat, Answer>, nextId: nat, around: Surroundings)
    requires Deliverable(a, b, answers, nextId, around) && a.session.phase == AwaitingClientHello && Calm(a.session)
    ensures CalmStep(a.session, HandleWireMessage(a.session, b.session.outbox[0], around))
  {
    ClientHelloKeepsPaired(a.session, b.session, around);
    assert b.session.outbox[0] == ClientHelloFrame(Client(a.session, b.session));
    AnsweringHelloCalm(a.session, Client(a.session, b.session), around);
  }

  lemma ServerHelloCalm(a: Host, b: Host, answers: map<nat, Answer>, nextId: nat, around: Surroundings)
    requires Deliverable(a, b, answers, nextId, around) && a.session.phase == AwaitingServerHello && Calm(a.session)
    requires !WrongDevice(a.session, b.session)
    ensures CalmStep(a.session, HandleWireMessage(a.session, b.session.outbox[0], around))
  {
    ServerHelloAccepted(a.session, b.session, around);
    ServerHelloArrives(a.session, b.session);
    var joined := Joined(a.session, Server(a.session, b.session));
    PostedMessages(joined, [Ready]);
    JoinedCalm(Messages(a.session.outbox), [Ready]);
  }

  lemma SecureCalm(a: Host, b: Host, answers: map<nat, Answer>, nextId: nat, around: Surroundings)
    requires Deliverable(a, b, answers, nextId, around) && Calm(a.session) && Calm(b.session) && a.session.cipher.Some?
    requires a.session.phase != AwaitingServerHello
    ensures CalmStep(a.session, HandleWireMessage(a.session, b.session.outbox[0], around))
  {
    MessageIsExpected(a, b, answers, nextId, around);
    TailCalm(b.session);
    ExpectedDispatch(a.session, b.session, around);
    HandledCalm(a.session, Carried(b.session.outbox[0]), around);
  }

  /** A delivery to a calm session from a calm session leaves both calm. */
  lemma DeliveryCalm(a: Host, b: Host, answers: map<nat, Answer>, nextId: nat, around: Surroundings)
    requires Deliverable(a, b, answers, nextId, around) && Calm(a.session) && Calm(b.session)
    requires a.session.initiator ==> !WrongDevice(a.session, b.session)
    ensures CalmStep(a.session, HandleWireMessage(a.session, b.session.outbox[0], around))
    ensures Calm(Tail(b.session)) && Sent(Tail(b.session)) == Sent(b.session)
  {
    TailCalm(b.session);
    if a.session.phase == AwaitingClientHello {
      ClientHelloCalm(a, b, answers, nextId, around);
    } else if a.session.phase == AwaitingServerHello {
      ServerHelloCalm(a, b, answers, nextId, around);
    } else {
      SecureCalm(a, b, answers, nextId, around);
    }
  }

  // ---------- the world ----------

  /** Room for everything that the frames in the queues can still cause. */
  predicate RoomToSettle(w: World) {
    Sent(At(w, AtInitiator)) + Sent(At(w, AtResponder)) + 600 * Measure(w) < 0x8000_0000_0000_0000
  }

  /** How many steps are left at most. */
  function StepsLeft(w: World): nat { 2 * Measure(w) + At(w, AtResponder).suspended }

  /** Nobody has closed or asked to, and the responder is the device that was meant. */
  ghost predicate CalmWorld(w: World) {
    && Invariant(w) && Calm(At(w, AtInitiator)) && Calm(At(w, AtResponder)) && RoomToSettle(w)
    && !WrongDevice(At(w, AtInitiator), At(w, AtResponder))
  }

  /** Nothing is on its way and nobody waits for the trust store. */
  predicate AtRest(w: World) {
    At(w, AtInitiator).outbox == [] && At(w, AtResponder).outbox == [] && At(w, AtResponder).suspended == 0
  }

  lemma OnlyTheResponderWaits(w: World)
    requires Invariant(w)
    ensures At(w, AtInitiator).suspended == 0 && At(w, AtResponder).suspended <= 1
    ensures At(w, AtResponder).suspended > 0 ==> At(w, AtResponder).peer.Some?
  {
  }

  lemma RoomForNow(w: World)
    requires RoomToSettle(w)
    ensures Roomy(At(w, AtInitiator)) && Roomy(At(w, AtResponder))
  {
  }

  lemma DeliveryIsOrderly(w: World, side: Side)
    requires CalmWorld(w) && At(w, side).suspended == 0
    ensures Orderly(w, Deliver(side))
  {
    RoomForNow(w);
    DeliveryToNobodyWaiting(w, side);
  }

  lemma DeliveredCalm(w: World, side: Side)
    requires CalmWorld(w) && At(w, Other(side)).outbox != [] && At(w, side).suspended == 0
    ensures var after := Exec(w, Deliver(side));
            && CalmStep(At(w, side), At(after, side))
            && CalmStep(At(w, Other(side)), At(after, Other(side)))
            && Sent(At(after, Other(side))) == Sent(At(w, Other(side)))
  {
    InvariantAt(w, side);
    DeliveryCalm(HostAt(w, side), HostAt(w, Other(side)), w.answers, w.nextId, SurroundingsAt(w, side));
    DeliveredHosts(w, side);
  }

  lemma DeliveryStaysCalm(w: World, side: Side)
    requires CalmWorld(w) && At(w, Other(side)).outbox != [] && At(w, side).suspended == 0
    ensures CalmWorld(Exec(w, Deliver(side))) && Measure(Exec(w, Deliver(side))) < Measure(w)
  {
    DeliveryIsOrderly(w, side);
    DeliverKeepsInvariant(w, side);
    DeliveredCalm(w, side);
    DeliveryLowersMeasure(w, side);
  }

  /** What the answer of the trust store leaves of a responder that was waiting for it. */
  predicate Answered(s: Session, after: Session) {
    && Calm(after) && after.outbox == s.outbox && Sent(after) == Sent(s)
    && after.suspended < s.suspended && after.localConsent == s.localConsent && after.own == s.own
  }

  lemma ResumedSession(s: Session, now: int)
    requires Calm(s) && s.suspended > 0 && s.peer.Some?
    ensures Answered(s, ResumeEstablish(s, now))
  {
  }

  lemma ResumedWorld(w: World)
    requires CalmWorld(w) && At(w, AtResponder).suspended > 0
    ensures var after := Exec(w, Resume(AtResponder));
            after.initiator == w.initiator && Answered(At(w, AtResponder), At(after, AtResponder))
  {
    OnlyTheResponderWaits(w);
    ResumedSession(At(w, AtResponder), w.now);
  }

  lemma ResumeIsOrderly(w: World)
    requires CalmWorld(w)
    ensures Orderly(w, Resume(AtResponder))
  {
    RoomForNow(w);
    forall at: Side ensures Roomy(At(w, at)) {
      assert at == AtInitiator || at == AtResponder;
    }
  }

  lemma CalmAgain(w: World, after: World)
    requires CalmWorld(w) && Invariant(after)
    requires after.initiator == w.initiator && Answered(At(w, AtResponder), At(after, AtResponder))
    ensures CalmWorld(after) && StepsLeft(after) < StepsLeft(w)
    ensures At(after, AtResponder).localConsent == At(w, AtResponder).localConsent
  {
  }

  // ---------- coming to rest ----------

  /** A delivery of something, or the answer of the trust store somebody waits for. */
  predicate Proceeds(w: World, action: Action) {
    (action.Deliver? && At(w, Other(action.side)).outbox != []) ||
    (action.Resume? && At(w, action.side).suspended > 0)
  }

  /** The step brings the world closer to rest, and everybody stays calm. */
  ghost predicate Settles(w: World, action: Action) {
    var after := Exec(w, action);
    && CalmWorld(after) && StepsLeft(after) < StepsLeft(w)
    && (At(w, AtResponder).localConsent.Some? ==> At(after, AtResponder).localConsent.Some?)
  }

  lemma DeliverySettles(w: World, side: Side)
    requires CalmWorld(w) && At(w, Other(side)).outbox != [] && At(w, side).suspended == 0
    ensures Settles(w, Deliver(side))
  {
    DeliveryStaysCalm(w, side);
    DeliveredCalm(w, side);
    OnlyTheResponderWaits(Exec(w, Deliver(side)));
  }

  lemma ResumeSettles(w: World)
    requires CalmWorld(w) && At(w, AtResponder).suspended > 0
    ensures Settles(w, Resume(AtResponder))
  {
    ResumedWorld(w);
    ResumeIsOrderly(w);
    StepKeepsInvariant(w, Resume(AtResponder));
    CalmAgain(w, Exec(w, Resume(AtResponder)));
  }

  lemma OrderlyMeetsNobodyWaiting(w: World, side: Side)
    requires Orderly(w, Deliver(side)) && At(w, Other(side)).outbox != []
    ensures At(w, side).suspended == 0
  {
    assert Disturbs(w, Deliver(side), side);
  }

  lemma OrderlyStepSettles(w: World, action: Action)
    requires CalmWorld(w) && Orderly(w, action) && Proceeds(w, action)
    ensures Settles(w, action)
  {
    OnlyTheResponderWaits(w);
    if action.Deliver? {
      OrderlyMeetsNobodyWaiting(w, action.side);
      DeliverySettles(w, action.side);
    } else {
      ResumeSettles(w);
    }
  }

  /** Any order of steps that proceed in an orderly way. */
  ghost predicate Schedule(w: World, actions: seq<Action>)
    decreases |actions|
  {
    actions == [] ||
    (Schedule(w, actions[..|actions| - 1]) &&
     Orderly(Run(w, actions[..|actions| - 1]), actions[|actions| - 1]) &&
     Proceeds(Run(w, actions[..|actions| - 1]), actions[|actions| - 1]))
  }

  lemma {:induction false} ScheduleSettles(w: World, actions: seq<Action>)
    requires CalmWorld(w) && Schedule(w, actions)
    ensures CalmWorld(Run(w, actions)) && |actions| + StepsLeft(Run(w, actions)) <= StepsLeft(w)
    ensures At(w, AtResponder).localConsent.Some? ==> At(Run(w, actions), AtResponder).localConsent.Some?
    decreases |actions|
  {
    if actions != [] {
      ScheduleSettles(w, actions[..|actions| - 1]);
      OrderlyStepSettles(Run(w, actions[..|actions| - 1]), actions[|actions| - 1]);
    }
  }

  /** No step proceeds in an orderly way. */
  ghost predicate NothingLeft(w: World) {
    forall action :: Orderly(w, action) ==> !Proceeds(w, action)
  }

  lemma NothingLeftMeansRest(w: World)
    requires CalmWorld(w) && NothingLeft(w)
    ensures AtRest(w)
  {
    OnlyTheResponderWaits(w);
    if At(w, AtResponder).suspended > 0 {
      ResumeIsOrderly(w);
      assert Proceeds(w, Resume(AtResponder));
    } else {
      DeliveryIsOrderly(w, AtInitiator);
      DeliveryIsOrderly(w, AtResponder);
      assert !Proceeds(w, Deliver(AtInitiator)) && !Proceeds(w, Deliver(AtResponder));
    }
  }

  /** Both ends are connected in opposite roles. */
  predicate BothConnected(w: World) {
    At(w, AtInitiator).phase == Connected && At(w, AtResponder).phase == Connected &&
    At(w, AtInitiator).role != At(w, AtResponder).role
  }

  /** Both ends wait for the responder's user to enter the code. */
  predicate BothWaitForTheCode(w: World) {
    At(w, AtInitiator).phase == AwaitingConsent && At(w, AtResponder).phase == AwaitingConsent &&
    At(w, AtResponder).localConsent.None?
  }

  lemma RestIsDecided(w: World)
    requires CalmWorld(w) && AtRest(w)
    ensures BothConnected(w) || BothWaitForTheCode(w)
    ensures SettledAt(w, AtInitiator) && SettledAt(w, AtResponder)
  {
    DrainedWorld(w);
    DrainedWaits(w);
  }

  /**
   Pairing completes.  From any reached world in which nobody has closed or asked to, let anything that
   is queued be delivered and the trust store answer, in any orderly order.  There are at most so many
   steps, nobody closes, and when no step is left both ends are connected in opposite roles, with every
   diagnostics request settled; or both still wait for the responder's user, which is impossible once
   that user has entered the code.
   */
  lemma PairingCompletes(start: World, before: seq<Action>, w: World, actions: seq<Action>)
    requires Reached(start, before, w) && RoomToSettle(w)
    requires Calm(At(w, AtInitiator)) && Calm(At(w, AtResponder)) && !WrongDevice(At(w, AtInitiator), At(w, AtResponder))
    requires Schedule(w, actions)
    ensures |actions| <= StepsLeft(w)
    ensures var after := Run(w, actions);
            && At(after, AtInitiator).phase != Closed && At(after, AtResponder).phase != Closed
            && (NothingLeft(after) ==>
                  && SettledAt(after, AtInitiator) && SettledAt(after, AtResponder)
                  && (BothConnected(after) ||
                      (BothWaitForTheCode(after) && At(w, AtResponder).localConsent.None?)))
  {
    ReachableIsSafe(start, before);
    ScheduleSettles(w, actions);
    var after := Run(w, actions);
    if NothingLeft(after) {
      NothingLeftMeansRest(after);
      RestIsDecided(after);
    }
  }
}
