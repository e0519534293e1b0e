/** What the invariant means for the users: the theorems about every orderly run of two honest computers. */
module Guarantees {
  import opened Wrappers
  import opened ProtocolContracts
  import opened SessionCryptography
  import opened SessionModel
  import opened Effects
  import opened Lanes
  import opened ProtocolInvariant
  import opened OwnActions
  import opened Deliveries
  import opened Reversals
  import opened Transfers
  import opened TwoParty
  import opened Steps
  import opened DeliverySteps
  import opened Protocol

  /** `w` is reached from two freshly started sessions by an orderly run. */
  ghost predicate Reached(start: World, actions: seq<Action>, w: World) {
    IsInitial(start) && OrderlyRun(start, actions) && w == Run(start, actions)
  }

  /** Both sides of the invariant in a reached world. */
  lemma ReachedSides(start: World, actions: seq<Action>, w: World, side: Side)
    requires Reached(start, actions, w)
    ensures Safe(HostAt(w, side), HostAt(w, Other(side)), w.answers, w.nextId)
    ensures At(w, side).initiator <==> side == AtInitiator
  {
    ReachableIsSafe(start, actions);
    InvariantAt(w, side);
  }

  // ---------- roles ----------

  /** The accepted reversal decisions in both queues. */
  function AcceptedInFlight(w: World): nat {
    AcceptedCount(Messages(w.initiator.session.outbox)) + AcceptedCount(Messages(w.responder.session.outbox))
  }

  lemma RolesOfPair(a: Session, b: Session)
    requires Paired(a, b) && ReversalSafe(a, b) && a.phase == Connected && b.phase == Connected
    ensures a.role != NoRole && b.role != NoRole
    ensures a.role == b.role <==>
            (AcceptedCount(Messages(a.outbox)) + AcceptedCount(Messages(b.outbox))) % 2 == 1
  {
    var x, y := StandingOf(a, AgreedIntent(a, b)), StandingOf(b, AgreedIntent(a, b));
    assert RolesOpposed(x, y) && x.role == a.role && y.role == b.role;
  }

  /** One of two roles is the viewer and the other the sharer. */
  predicate Opposite(x: Role, y: Role) { (x == Viewer && y == Sharer) || (x == Sharer && y == Viewer) }

  lemma RolesOfHosts(a: Host, b: Host, answers: map<nat, Answer>, nextId: nat)
    requires Safe(a, b, answers, nextId) && a.session.phase == Connected && b.session.phase == Connected
    ensures var odd := (AcceptedCount(Messages(a.session.outbox)) + AcceptedCount(Messages(b.session.outbox))) % 2 == 1;
            (a.session.role == b.session.role <==> odd) && (!Opposite(a.session.role, b.session.role) <==> odd)
  {
    RolesOfPair(a.session, b.session);
  }

  lemma RolesInWorld(w: World)
    requires Invariant(w) && w.initiator.session.phase == Connected && w.responder.session.phase == Connected
    ensures !Opposite(w.initiator.session.role, w.responder.session.role) <==> AcceptedInFlight(w) % 2 == 1
    ensures w.initiator.session.role == w.responder.session.role <==> AcceptedInFlight(w) % 2 == 1
  {
    InvariantAt(w, AtInitiator);
    RolesOfHosts(w.initiator, w.responder, w.answers, w.nextId);
  }

  /**
   Two connected ends never share a role, except while an odd number of accepted reversals is in
   flight; this holds even when both users ask for a reversal at once.
   */
  lemma RolesAreOpposite(start: World, actions: seq<Action>, w: World)
    requires Reached(start, actions, w)
    requires w.initiator.session.phase == Connected && w.responder.session.phase == Connected
    ensures !Opposite(w.initiator.session.role, w.responder.session.role) <==> AcceptedInFlight(w) % 2 == 1
    ensures w.initiator.session.role == w.responder.session.role <==> AcceptedInFlight(w) % 2 == 1
  {
    ReachableIsSafe(start, actions);
    RolesInWorld(w);
  }

  // ---------- conservation of a reversal request ----------

  /** The ids of one end's requests on their way, before the other user, and decided. */
  function OnTheWay(w: World, side: Side): seq<nat> { RequestIds(Messages(At(w, side).outbox)) }

  function Decided(w: World, side: Side): seq<nat> { DecisionIds(Messages(At(w, Other(side)).outbox)) }

  lemma ConservedPair(a: Session, b: Session)
    requires ReversalSafe(a, b)
    ensures var everywhere := RequestIds(Messages(a.outbox)) + OptionIds(b.incomingReversal) + DecisionIds(Messages(b.outbox));
            && |everywhere| <= 1
            && (everywhere != [] ==> a.outgoingReversal == Some(everywhere[0]))
            && (a.phase != Closed && b.phase != Closed && a.outgoingReversal.Some? ==> everywhere != [])
  {
    var intent := AgreedIntent(a, b);
    assert Places(StandingOf(a, intent), StandingOf(b, intent)) ==
           RequestIds(Messages(a.outbox)) + OptionIds(b.incomingReversal) + DecisionIds(Messages(b.outbox));
  }

  lemma PromptOfReversal(a: Session)
    requires InShape(a) && a.phase == Connected
    ensures a.incomingReversal.Some? <==> a.prompt.Some? && a.prompt.value.kind == Reversal
  {
  }

  lemma ConservedAt(w: World, side: Side, a: Session, b: Session)
    requires a == At(w, side) && b == At(w, Other(side)) && Paired(a, b) && ReversalSafe(a, b)
    ensures var everywhere := OnTheWay(w, side) + OptionIds(b.incomingReversal) + Decided(w, side);
            && |everywhere| <= 1
            && (everywhere != [] ==> a.outgoingReversal == Some(everywhere[0]))
            && (a.phase != Closed && b.phase != Closed ==> (a.outgoingReversal.Some? <==> |everywhere| == 1))
    ensures a.phase == Connected ==>
              (a.incomingReversal.Some? <==> a.prompt.Some? && a.prompt.value.kind == Reversal)
  {
    ConservedPair(a, b);
    if a.phase == Connected {
      PromptOfReversal(a);
    }
  }

  /**
   While both ends are open a pending reversal request is in exactly one place: on its way, before
   the other user (who then has a reversal prompt), or decided and on its way back.  Nothing else of
   that direction exists, so a request is decided at most once and the decision carries its id.
   */
  lemma ReversalIsConserved(start: World, actions: seq<Action>, w: World, side: Side)
    requires Reached(start, actions, w)
    ensures var everywhere := OnTheWay(w, side) + OptionIds(At(w, Other(side)).incomingReversal) + Decided(w, side);
            && |everywhere| <= 1
            && (everywhere != [] ==> At(w, side).outgoingReversal == Some(everywhere[0]))
            && (At(w, side).phase != Closed && At(w, Other(side)).phase != Closed ==>
                  (At(w, side).outgoingReversal.Some? <==> |everywhere| == 1))
    ensures At(w, side).phase == Connected ==>
              (At(w, side).incomingReversal.Some? <==>
               At(w, side).prompt.Some? && At(w, side).prompt.value.kind == Reversal)
  {
    ReachedSides(start, actions, w, side);
    ConservedAt(w, side, At(w, side), At(w, Other(side)));
  }

  // ---------- nothing unexpected is received ----------

  /** What only a connected session takes. */
  predicate NeedsConnection(message: Message) { message.MediaSignal? || message.DiagnosticsRequest? }

  /** A session that waits for its trust store takes whatever needs no connection, and declines a reversal. */
  lemma WaitingHandles(s: Session, message: Message, around: Surroundings)
    requires s.phase == AwaitingConsent && CanSend(s, 1) && s.requests == map[]
    requires !message.Ready? && !message.ReadyAcknowledged? && !message.ReversalDecision?
    ensures HandleSecure(s, message, around).threw <==> NeedsConnection(message)
  {
    match message
    case Ping(id) => SendSecureFits(s, Pong(id));
    case ReversalRequest(id) => SendSecureFits(s, ReversalDecision(id, false));
    case _ =>
  }

  /** What a responder can receive while it waits for its trust store. */
  lemma WaitingReceives(a: Session, b: Session)
    requires Paired(a, b) && ReversalSafe(a, b) && b.outbox != [] && a.suspended > 0
    ensures a.phase == AwaitingConsent && a.cipher.Some? && !a.initiator && !a.transportClosed && a.requests == map[]
    ensures b.outbox[0].SecureFrame?
    ensures var message := Carried(b.outbox[0]); !message.Ready? && !message.ReadyAcknowledged? && !message.ReversalDecision?
  {
    assert InOrder(a.initiator, ReceiverRank(a), b.outbox[0]);
    if Carried(b.outbox[0]).ReversalDecision? {
      DecisionIsExpected(a, b);
    }
  }

  lemma WaitingDelivery(a: Session, b: Session, around: Surroundings)
    requires Paired(a, b) && ReversalSafe(a, b) && b.outbox != [] && a.suspended > 0 && HasRoom(a) && HasRoom(b)
    ensures b.outbox[0].SecureFrame?
    ensures Dispatch(a, b.outbox[0], around).threw <==> NeedsConnection(Carried(b.outbox[0]))
    ensures !Refuses(a, b, b.outbox[0])
  {
    WaitingReceives(a, b);
    HeadOpens(a, b);
    OpenedDispatch(a, b.outbox[0], around);
    WaitingHandles(Opening(a, around.now), Carried(b.outbox[0]), around);
  }

  lemma OpenedDispatch(a: Session, frame: Wire, around: Surroundings)
    requires a.phase == AwaitingConsent && a.cipher.Some? && frame.SecureFrame?
    requires Opened(a.cipher.value, frame.envelope) == Some(Carried(frame))
    requires frame.envelope.counter == a.cipher.value.received + 1
    ensures Dispatch(a, frame, around) == HandleSecure(Opening(a, around.now), Carried(frame), around)
  {
  }

  /** A delivery to a session that waits for its trust store. */
  lemma WaitingDeliveryInWorld(w: World, side: Side)
    requires Invariant(w) && Roomy(At(w, AtInitiator)) && Roomy(At(w, AtResponder))
    requires At(w, Other(side)).outbox != [] && At(w, side).suspended > 0
    ensures var a, b := At(w, side), At(w, Other(side));
            && b.outbox[0].SecureFrame? && !Refuses(a, b, b.outbox[0])
            && (Dispatch(a, b.outbox[0], SurroundingsAt(w, side)).threw <==> NeedsConnection(Carried(b.outbox[0])))
  {
    InvariantAt(w, side);
    WaitingDelivery(At(w, side), At(w, Other(side)), SurroundingsAt(w, side));
  }

  lemma DeliveryToNobodyWaiting(w: World, side: Side)
    requires Roomy(At(w, AtInitiator)) && Roomy(At(w, AtResponder)) && At(w, side).suspended == 0
    ensures Orderly(w, Deliver(side))
  {
    forall at: Side | At(w, at).suspended > 0 ensures !Disturbs(w, Deliver(side), at) {
      assert at != side;
    }
    forall at: Side ensures Roomy(At(w, at)) {
      assert at == AtInitiator || at == AtResponder;
    }
  }

  /**
   Exactly three deliveries to an open session end in a protocol error: a server hello of another
   device than the one asked for, a cancel of the initiator that meets a responder that is connected
   already, and a media signal or diagnostics request that meets one still waiting for its trust store.
   */
  lemma DeliveryIsRefusedIff(start: World, actions: seq<Action>, w: World, side: Side)
    requires Reached(start, actions, w) && Roomy(At(w, AtInitiator)) && Roomy(At(w, AtResponder))
    requires At(w, Other(side)).outbox != [] && At(w, side).phase != Closed
    ensures var frame := At(w, Other(side)).outbox[0];
            Dispatch(At(w, side), frame, SurroundingsAt(w, side)).threw <==>
            (At(w, side).phase == AwaitingServerHello && WrongDevice(At(w, side), At(w, Other(side)))) ||
            LateCancel(At(w, side), frame) ||
            (At(w, side).suspended > 0 && NeedsConnection(Carried(frame)))
  {
    ReachableIsSafe(start, actions);
    if At(w, side).suspended > 0 {
      WaitingDeliveryInWorld(w, side);
    } else {
      DeliveryToNobodyWaiting(w, side);
      DeliverKeepsInvariant(w, side);
    }
  }

  /** Only a responder can be cancelled late or wait for a trust store. */
  lemma OnlyTheResponder(start: World, actions: seq<Action>, w: World, side: Side)
    requires Reached(start, actions, w) && At(w, Other(side)).outbox != [] && At(w, side).phase != Closed
    ensures LateCancel(At(w, side), At(w, Other(side)).outbox[0]) || At(w, side).suspended > 0 ==> side == AtResponder
  {
    ReachedSides(start, actions, w, side);
    CancelledPair(At(w, side), At(w, Other(side)));
  }

  lemma CancelledPair(a: Session, b: Session)
    requires Paired(a, b) && b.outbox != [] && a.phase != Closed
    ensures LateCancel(a, b.outbox[0]) || a.suspended > 0 ==> !a.initiator
  {
    assert InOrder(a.initiator, ReceiverRank(a), b.outbox[0]);
  }

  lemma ConnectedUnlessWaiting(a: Session, b: Session)
    requires Paired(a, b) && b.outbox != [] && a.phase != Closed
    requires b.outbox[0].SecureFrame? && NeedsConnection(Carried(b.outbox[0]))
    ensures a.phase == Connected <==> a.suspended == 0
  {
    if a.suspended == 0 {
      ConnectedOnlyFindsConnected(a, b);
    }
  }

  /**
   A media signal or a diagnostics request finds an open receiver connected if and only if that does not wait
   for its trust store.
   */
  lemma MediaFindsConnectedIff(start: World, actions: seq<Action>, w: World, side: Side)
    requires Reached(start, actions, w)
    requires At(w, Other(side)).outbox != [] && At(w, side).phase != Closed
    requires var frame := At(w, Other(side)).outbox[0]; frame.SecureFrame? && NeedsConnection(Carried(frame))
    ensures At(w, side).phase == Connected <==> At(w, side).suspended == 0
  {
    ReachedSides(start, actions, w, side);
    ConnectedUnlessWaiting(At(w, side), At(w, Other(side)));
  }

  // ---------- counters ----------

  /** The secure frames before place `k` of a queue. */
  function SecureBefore(frames: seq<Wire>, k: nat): nat
    requires k <= |frames|
  {
    SecureCount(frames[..k])
  }

  lemma {:induction false} NumberedAt(lane: Lane, base: nat, frames: seq<Wire>, k: nat)
    requires Numbered(lane, base, frames) && k < |frames| && frames[k].SecureFrame?
    ensures frames[k].envelope.counter == base + SecureBefore(frames, k) + 1
    ensures frames[k].envelope.sealed.key == lane.key
    decreases |frames|
  {
    if k == 0 {
      assert frames[..0] == [];
    } else {
      NumberedAt(lane, Advance(base, frames[0]), frames[1..], k - 1);
      assert frames[..k][1..] == frames[1..][..k - 1];
      assert frames[1..][k - 1] == frames[k];
    }
  }

  /**
   The secure envelopes from one end to the other carry the consecutive counters from the
   receiver's counter plus one up to the sender's counter, all under the key the receiver expects.
   */
  lemma CountersMatchTheQueue(start: World, actions: seq<Action>, w: World, side: Side, k: nat)
    requires Reached(start, actions, w)
    requires var a, b := At(w, side), At(w, Other(side)); a.cipher.Some? && b.cipher.Some?
    ensures var a, b := At(w, side), At(w, Other(side));
            && (a.phase != Closed ==> Sent(a) == Got(b) + SecureCount(a.outbox))
            && Got(b) + SecureCount(a.outbox) <= Sent(a)
            && (k < |a.outbox| && a.outbox[k].SecureFrame? ==>
                  && a.outbox[k].envelope.counter == Got(b) + SecureBefore(a.outbox, k) + 1
                  && a.outbox[k].envelope.sealed.key == b.cipher.value.receiveKey)
  {
    ReachedSides(start, actions, w, side);
    var a, b := At(w, side), At(w, Other(side));
    if k < |a.outbox| && a.outbox[k].SecureFrame? {
      NumberedAt(LaneOf(a, b), Got(b), a.outbox, k);
    }
  }

  // ---------- keys ----------

  /** When both ends have a cipher they hold the same session and code, and crossed keys that differ by direction. */
  lemma KeysAgree(start: World, actions: seq<Action>, w: World)
    requires Reached(start, actions, w)
    requires At(w, AtInitiator).cipher.Some? && At(w, AtResponder).cipher.Some?
    ensures var x, y := At(w, AtInitiator).cipher.value, At(w, AtResponder).cipher.value;
            && x.session == y.session
            && x.transmitKey == y.receiveKey && x.receiveKey == y.transmitKey
            && x.transmitKey != y.transmitKey
    ensures At(w, AtInitiator).code.Some? && At(w, AtInitiator).code == At(w, AtResponder).code
    ensures At(w, AtInitiator).intent == At(w, AtResponder).intent
  {
    ReachedSides(start, actions, w, AtInitiator);
    CiphersOfPair(At(w, AtInitiator), At(w, AtResponder));
  }

  lemma CiphersOfPair(a: Session, b: Session)
    requires Paired(a, b) && a.initiator && a.cipher.Some? && b.cipher.Some?
    ensures a.cipher.value == AgreedCipher(a, b, Sent(a), Got(a))
    ensures b.cipher.value == AgreedCipher(b, a, Sent(b), Got(b))
    ensures a.code == b.code && a.code.Some? && a.intent == b.intent
    ensures LaneKey(a, b) != LaneKey(b, a)
  {
  }

  // ---------- diagnostics ----------

  /**
   A diagnostics request that resolves does so with exactly the last records the other computer
   held when it answered, as many as were asked for, in order.
   */
  lemma DiagnosticsResolveExactly(start: World, actions: seq<Action>, w: World, side: Side, id: nat)
    requires Reached(start, actions, w) && id in At(w, side).resolved
    ensures id in HostAt(w, side).issued && id in w.answers && w.answers[id].limit == HostAt(w, side).issued[id]
    ensures At(w, side).resolved[id] == LastRecords(w.answers[id].local, HostAt(w, side).issued[id])
  {
    ReachedSides(start, actions, w, side);
    assert Resolved(id, HostAt(w, side), w.answers);
  }

  lemma SettledHost(a: Host, b: Host, answers: map<nat, Answer>, nextId: nat)
    requires Safe(a, b, answers, nextId)
    ensures Settled(a) && (a.session.phase == Closed ==> a.session.requests == map[])
  {
  }

  /**
   Issued requests are pending, resolved or rejected, only one of these, and none is pending once the session is
   closed.
   */
  lemma RequestsAreSettledOnce(start: World, actions: seq<Action>, w: World, side: Side)
    requires Reached(start, actions, w)
    ensures var s := At(w, side);
            && HostAt(w, side).issued.Keys == s.requests.Keys + s.resolved.Keys + s.rejected
            && s.requests.Keys !! s.resolved.Keys !! s.rejected
            && (s.phase == Closed ==> s.requests == map[])
  {
    ReachedSides(start, actions, w, side);
    SettledHost(HostAt(w, side), HostAt(w, Other(side)), w.answers, w.nextId);
  }

  // ---------- drained queues ----------

  lemma DrainedPhase(a: Session, b: Session)
    requires Paired(a, b) && a.outbox == [] && b.outbox == [] && a.phase != Closed && b.phase != Closed
    ensures a.phase == AwaitingConsent || a.phase == Connected
    ensures a.localConsent.Some? <==> b.remoteConsent.Some?
  {
    assert Final(ReceiverRank(b), a.outbox) == SenderRank(a);
    assert Final(ReceiverRank(a), b.outbox) == SenderRank(b);
  }

  /** A pending request of an open peer always has something in a queue. */
  lemma PendingNeedsAQueue(answer: Option<Answer>)
    ensures forall pending: PendingRequest :: !TrackedBy(pending, [], [], answer, true)
  {
  }

  lemma DrainedTransfer(a: Host, b: Host, answers: map<nat, Answer>, nextId: nat)
    requires TransferSafe(a, b, answers, nextId) && b.session.phase != Closed
    requires a.session.outbox == [] && b.session.outbox == []
    ensures a.session.requests == map[]
  {
    forall id: nat ensures id !in a.session.requests {
      PendingNeedsAQueue(AnswerFor(id, answers));
    }
  }

  /** What is settled at one end once both queues are drained. */
  predicate SettledAt(w: World, side: Side) {
    && (At(w, side).phase == AwaitingConsent || At(w, side).phase == Connected)
    && At(w, side).requests == map[]
    && At(w, side).outgoingReversal == At(w, Other(side)).incomingReversal
  }

  lemma DrainedSide(a: Host, b: Host, answers: map<nat, Answer>, nextId: nat)
    requires Safe(a, b, answers, nextId) && a.session.outbox == [] && b.session.outbox == []
    requires a.session.phase != Closed && b.session.phase != Closed
    ensures a.session.phase == AwaitingConsent || a.session.phase == Connected
    ensures a.session.requests == map[] && a.session.outgoingReversal == b.session.incomingReversal
    ensures a.session.localConsent.Some? <==> b.session.remoteConsent.Some?
  {
    DrainedPhase(a.session, b.session);
    DrainedTransfer(a, b, answers, nextId);
    DrainedReversals(a.session, b.session);
  }

  /** Who still waits for whom once both queues are drained. */
  predicate WaitsForTheUser(w: World) {
    var i, r := At(w, AtInitiator), At(w, AtResponder);
    && (i.phase == Connected && r.phase == Connected ==> i.role != r.role)
    && (i.phase == AwaitingConsent ==> r.localConsent.None?)
    && (i.phase == Connected ==> r.localConsent.Some?)
    && (r.phase == AwaitingConsent ==> (r.localConsent.None? && i.phase == AwaitingConsent) || r.suspended == 1)
  }

  lemma DrainedWorld(w: World)
    requires Invariant(w) && At(w, AtInitiator).outbox == [] && At(w, AtResponder).outbox == []
    requires At(w, AtInitiator).phase != Closed && At(w, AtResponder).phase != Closed
    ensures SettledAt(w, AtInitiator) && SettledAt(w, AtResponder)
  {
    InvariantAt(w, AtInitiator);
    InvariantAt(w, AtResponder);
    DrainedSide(w.initiator, w.responder, w.answers, w.nextId);
    DrainedSide(w.responder, w.initiator, w.answers, w.nextId);
  }

  lemma DrainedConsents(a: Session, b: Session)
    requires Paired(a, b) && ReversalSafe(a, b) && a.initiator && a.outbox == [] && b.outbox == []
    requires a.phase != Closed && b.phase != Closed
    ensures a.phase == Connected && b.phase == Connected ==> a.role != b.role
    ensures a.phase == AwaitingConsent ==> b.localConsent.None?
    ensures a.phase == Connected ==> b.localConsent.Some?
    ensures b.phase == AwaitingConsent ==> (b.localConsent.None? && a.phase == AwaitingConsent) || b.suspended == 1
  {
    DrainedPhase(a, b);
    DrainedPhase(b, a);
    if a.phase == Connected && b.phase == Connected {
      RolesOfPair(a, b);
    }
  }

  lemma DrainedWaits(w: World)
    requires Invariant(w) && At(w, AtInitiator).outbox == [] && At(w, AtResponder).outbox == []
    requires At(w, AtInitiator).phase != Closed && At(w, AtResponder).phase != Closed
    ensures WaitsForTheUser(w)
  {
    DrainedConsents(w.initiator.session, w.responder.session);
  }

  /**
   With both queues drained and nobody closed, the handshake is over, every diagnostics request is
   settled, a reversal is pending exactly where the other user still has the prompt, the roles are
   opposite, and an end waits for consent only because a user has not answered or the trust store has not.
   */
  lemma DrainedIsSettled(start: World, actions: seq<Action>, w: World)
    requires Reached(start, actions, w)
    requires At(w, AtInitiator).outbox == [] && At(w, AtResponder).outbox == []
    requires At(w, AtInitiator).phase != Closed && At(w, AtResponder).phase != Closed
    ensures SettledAt(w, AtInitiator) && SettledAt(w, AtResponder) && WaitsForTheUser(w)
  {
    ReachableIsSafe(start, actions);
    DrainedWorld(w);
    DrainedWaits(w);
  }

  lemma DrainedReversals(a: Session, b: Session)
    requires ReversalSafe(a, b) && a.outbox == [] && b.outbox == [] && a.phase != Closed && b.phase != Closed
    ensures a.outgoingReversal == b.incomingReversal
  {
    ConservedPair(a, b);
    assert RequestIds(Messages(a.outbox)) == [] && DecisionIds(Messages(b.outbox)) == [];
  }
}
