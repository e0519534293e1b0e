/** The theorems about orderly runs of two honest computers. */
module Protocol {
  import opened Wrappers
  import opened ProtocolContracts
  import opened SessionCryptography
  import opened SessionModel
  import opened Effects
  import opened Lanes
  import opened ProtocolInvariant
  import opened OwnActions
  import opened Transfers
  import opened TwoParty
  import opened Steps
  import opened DeliverySteps

  // ---------- the invariant holds ----------

  lemma OneHello(lane: Lane, toInitiator: bool, frame: Wire)
    requires !frame.SecureFrame? && HonestFrame(lane, 0, frame) && InOrder(toInitiator, 0, frame)
    ensures Numbered(lane, 0, [frame]) && SecureCount([frame]) == 0
    ensures AllInOrder(toInitiator, 0, [frame]) && Final(0, [frame]) == 1
    ensures Messages([frame]) == []
  {
    var rest: seq<Wire> := [frame][1..];
    assert rest == [];
    assert Numbered(lane, 0, rest) && SecureCount(rest) == 0;
    assert AllInOrder(toInitiator, 1, rest) && Final(1, rest) == 1;
    HelloCarriesNothing(frame);
  }

  lemma InitialIsSafe(
    ownInitiator: Credentials, ownResponder: Credentials, expected: Option<DeviceId>, intent: Intent,
    trust: Trust, now: int)
    ensures Invariant(InitialWorld(ownInitiator, ownResponder, expected, intent, trust, now))
  {
    var w := InitialWorld(ownInitiator, ownResponder, expected, intent, trust, now);
    var i, r := w.initiator.session, w.responder.session;
    assert i.outbox == [ClientHelloFrame(Client(i, r))];
    OneHello(LaneOf(i, r), false, ClientHelloFrame(Client(i, r)));
    assert Half(i, r) && Half(r, i);
    assert forall id: nat :: InFlightOnce(id, w.initiator, w.responder, map[]);
    assert forall id: nat :: InFlightOnce(id, w.responder, w.initiator, map[]);
  }

  /** One side of the world is replaced by a host that is as safe. */
  lemma Replaced(w: World, side: Side, host: Host, nextId: nat)
    requires At(w, side).initiator <==> side == AtInitiator
    requires Safe(host, HostAt(w, Other(side)), w.answers, nextId) && host.session.initiator == At(w, side).initiator
    ensures Invariant(WithHost(w, side, host).(nextId := nextId))
  {
    var after := WithHost(w, side, host).(nextId := nextId);
    assert HostAt(after, side) == host && HostAt(after, Other(side)) == HostAt(w, Other(side));
    InvariantFrom(after, side);
  }

  lemma DeliverKeepsInvariant(w: World, side: Side)
    requires Invariant(w) && Orderly(w, Deliver(side))
    ensures Invariant(Exec(w, Deliver(side)))
    ensures At(w, Other(side)).outbox != [] && At(w, side).phase != Closed ==>
              (Dispatch(At(w, side), At(w, Other(side)).outbox[0], SurroundingsAt(w, side)).threw <==>
               Refuses(At(w, side), At(w, Other(side)), At(w, Other(side)).outbox[0]))
  {
    if At(w, Other(side)).outbox != [] {
      DeliverableInWorld(w, side);
      DeliveryKeepsSafe(HostAt(w, side), HostAt(w, Other(side)), w.answers, w.nextId, SurroundingsAt(w, side));
      DeliveredInvariant(w, side);
    }
  }

  lemma DeliverableInWorld(w: World, side: Side)
    requires Invariant(w) && Orderly(w, Deliver(side)) && At(w, Other(side)).outbox != []
    ensures Deliverable(HostAt(w, side), HostAt(w, Other(side)), w.answers, w.nextId, SurroundingsAt(w, side))
  {
    InvariantAt(w, side);
    assert !Disturbs(w, Deliver(side), side) || At(w, side).suspended == 0;
  }

  lemma DeliveredInvariant(w: World, side: Side)
    requires Invariant(w) && At(w, Other(side)).outbox != []
    requires DeliveredWell(HostAt(w, side), HostAt(w, Other(side)), w.answers, w.nextId, SurroundingsAt(w, side))
    ensures Invariant(Exec(w, Deliver(side)))
  {
    InvariantAt(w, side);
    DeliveredHosts(w, side);
    InvariantFrom(Exec(w, Deliver(side)), side);
  }

  lemma DeliveredHosts(w: World, side: Side)
    requires At(w, Other(side)).outbox != []
    ensures var after := Exec(w, Deliver(side));
            var frame := At(w, Other(side)).outbox[0];
            && HostAt(after, side) ==
               Becomes(HostAt(w, side), HandleWireMessage(At(w, side), frame, SurroundingsAt(w, side)))
            && HostAt(after, Other(side)) == TailHost(HostAt(w, Other(side)))
            && after.answers == AnswersAfter(HostAt(w, side), frame, w.answers)
            && after.nextId == w.nextId + 1
  {
  }

  lemma CloseKeepsInvariant(w: World, side: Side)
    requires Invariant(w) && At(w, side).suspended == 0
    ensures Invariant(With(w, side, CloseWithError(At(w, side), false)))
  {
    InvariantAt(w, side);
    ClosingKeepsSafe(HostAt(w, side), HostAt(w, Other(side)), w.answers, w.nextId, false);
    Replaced(w, side, Becomes(HostAt(w, side), CloseWithError(At(w, side), false)), w.nextId);
  }

  lemma HandshakeTimeoutKeepsInvariant(w: World, side: Side)
    requires Invariant(w) && Orderly(w, HandshakeTimeout(side))
    ensures Invariant(Exec(w, HandshakeTimeout(side)))
  {
    if At(w, side).handshakeTimer {
      assert Disturbs(w, HandshakeTimeout(side), side);
      CloseKeepsInvariant(w, side);
      TimedOut(w, side);
    } else {
      assert Exec(w, HandshakeTimeout(side)) == w;
    }
  }

  lemma TimedOut(w: World, side: Side)
    requires At(w, side).handshakeTimer
    ensures Exec(w, HandshakeTimeout(side)) == With(w, side, CloseWithError(At(w, side), false))
  {
  }

  lemma UserDisconnectKeepsInvariant(w: World, side: Side)
    requires Invariant(w) && Orderly(w, UserDisconnect(side))
    ensures Invariant(With(w, side, DisconnectSession(At(w, side))))
  {
    InvariantAt(w, side);
    DisconnectKeepsSafe(HostAt(w, side), HostAt(w, Other(side)), w.answers, w.nextId);
    Replaced(w, side, Becomes(HostAt(w, side), DisconnectSession(At(w, side))), w.nextId);
  }

  lemma DisposeKeepsInvariant(w: World, side: Side)
    requires Invariant(w) && At(w, side).suspended == 0
    ensures Invariant(With(w, side, Dispose(At(w, side))))
  {
    InvariantAt(w, side);
    DisposeKeepsSafe(HostAt(w, side), HostAt(w, Other(side)), w.answers, w.nextId);
    Replaced(w, side, Becomes(HostAt(w, side), Dispose(At(w, side))), w.nextId);
  }

  lemma SocketGoneKeepsInvariant(w: World, side: Side)
    requires Invariant(w) && At(w, side).suspended == 0
    ensures Invariant(With(w, side, TransportGone(At(w, side))))
  {
    InvariantAt(w, side);
    TransportGoneKeepsSafe(HostAt(w, side), HostAt(w, Other(side)), w.answers, w.nextId);
    Replaced(w, side, Becomes(HostAt(w, side), TransportGone(At(w, side))), w.nextId);
  }

  lemma TickKeepsInvariant(w: World, side: Side)
    requires Invariant(w) && Orderly(w, Tick(side))
    ensures Invariant(Exec(w, Tick(side)))
  {
    InvariantAt(w, side);
    var a, b := HostAt(w, side), HostAt(w, Other(side));
    if a.session.keepAliveTimer {
      TickKeepsSafe(a, b, w.answers, w.nextId, w.now);
      Replaced(w, side, Becomes(a, KeepAliveTick(a.session, w.now, w.nextId).session), w.nextId + 1);
    }
  }

  lemma ResumeKeepsInvariant(w: World, side: Side)
    requires Invariant(w)
    ensures Invariant(With(w, side, ResumeEstablish(At(w, side), w.now)))
  {
    InvariantAt(w, side);
    var a, b := HostAt(w, side), HostAt(w, Other(side));
    ResumeKeepsSafe(a, b, w.answers, w.nextId, w.now);
    Replaced(w, side, Becomes(a, ResumeEstablish(a.session, w.now)), w.nextId);
  }

  lemma ExpireKeepsInvariant(w: World, side: Side, id: nat)
    requires Invariant(w)
    ensures Invariant(With(w, side, RequestTimeout(At(w, side), id)))
  {
    InvariantAt(w, side);
    var a, b := HostAt(w, side), HostAt(w, Other(side));
    ExpireKeepsSafe(a, b, w.answers, w.nextId, id);
    Replaced(w, side, Becomes(a, RequestTimeout(a.session, id)), w.nextId);
  }

  lemma SignalKeepsInvariant(w: World, side: Side, signal: Signal)
    requires Invariant(w) && HasRoom(At(w, side)) && SmallSignal(signal)
    ensures Invariant(With(w, side, SendMediaSignal(At(w, side), signal).session))
  {
    InvariantAt(w, side);
    var a, b := HostAt(w, side), HostAt(w, Other(side));
    SignalKeepsSafe(a, b, w.answers, w.nextId, signal);
    Replaced(w, side, Becomes(a, SendMediaSignal(a.session, signal).session), w.nextId);
  }

  lemma RespondKeepsInvariant(w: World, side: Side, promptId: nat, accepted: bool, entered: Option<Code>)
    requires Invariant(w) && Orderly(w, Respond(side, promptId, accepted, entered))
    ensures Invariant(Exec(w, Respond(side, promptId, accepted, entered)))
  {
    InvariantAt(w, side);
    var a, b := HostAt(w, side), HostAt(w, Other(side));
    RespondKeepsSafe(a, b, w.answers, w.nextId, promptId, accepted, entered, w.now);
    Replaced(w, side, Becomes(a, RespondToPrompt(a.session, promptId, accepted, entered, w.now).session), w.nextId);
  }

  lemma AskReversalKeepsInvariant(w: World, side: Side)
    requires Invariant(w) && HasRoom(At(w, side))
    ensures Invariant(With(w, side, RequestReversal(At(w, side), w.nextId).session).(nextId := w.nextId + 1))
  {
    InvariantAt(w, side);
    var a, b := HostAt(w, side), HostAt(w, Other(side));
    AskReversalKeepsSafe(a, b, w.answers, w.nextId);
    Replaced(w, side, Becomes(a, RequestReversal(a.session, w.nextId).session), w.nextId + 1);
  }

  lemma AskDiagnosticsKeepsInvariant(w: World, side: Side, limit: int)
    requires Invariant(w) && Orderly(w, AskDiagnostics(side, limit))
    ensures Invariant(Exec(w, AskDiagnostics(side, limit)))
  {
    InvariantAt(w, side);
    var a, b := HostAt(w, side), HostAt(w, Other(side));
    AskDiagnosticsKeepsSafe(a, b, w.answers, w.nextId, limit);
    Replaced(w, side, a.(session := RequestDiagnostics(a.session, limit, w.nextId).session,
                         issued := if a.session.phase == Connected then a.issued[w.nextId := BoundedLimit(limit)] else a.issued), w.nextId + 1);
  }

  lemma LocalKeepsInvariant(w: World, side: Side, records: seq<DiagnosticRecord>)
    requires Invariant(w) && SmallRecords(records)
    ensures Invariant(WithHost(w, side, HostAt(w, side).(local := records)))
  {
    InvariantAt(w, side);
    var a, b := HostAt(w, side), HostAt(w, Other(side));
    LocalKeepsSafe(a, b, w.answers, w.nextId, records);
    Replaced(w, side, a.(local := records), w.nextId);
  }

  lemma UserStepKeepsInvariant(w: World, action: Action)
    requires Invariant(w) && Orderly(w, action)
    requires action.Respond? || action.AskReversal? || action.AskDiagnostics? || action.SendSignal? ||
             action.UserDisconnect? || action.DisposeSession?
    ensures Invariant(Exec(w, action))
  {
    match action
    case Respond(side, promptId, accepted, entered) => RespondKeepsInvariant(w, side, promptId, accepted, entered);
    case AskReversal(side) => AskReversalKeepsInvariant(w, side);
    case AskDiagnostics(side, limit) => AskDiagnosticsKeepsInvariant(w, side, limit);
    case SendSignal(side, signal) => SignalKeepsInvariant(w, side, signal);
    case UserDisconnect(side) => UserDisconnectKeepsInvariant(w, side);
    case DisposeSession(side) => DisposeKeepsInvariant(w, side);
  }

  /** Every orderly step keeps the invariant. */
  lemma StepKeepsInvariant(w: World, action: Action)
    requires Invariant(w) && Orderly(w, action)
    ensures Invariant(Exec(w, action))
  {
    match action
    case Deliver(side) => DeliverKeepsInvariant(w, side);
    case Resume(side) => ResumeKeepsInvariant(w, side);
    case ExpireRequest(side, id) => ExpireKeepsInvariant(w, side, id);
    case Tick(side) => TickKeepsInvariant(w, side);
    case HandshakeTimeout(side) => HandshakeTimeoutKeepsInvariant(w, side);
    case SocketGone(side) => SocketGoneKeepsInvariant(w, side);
    case Elapse(_) =>
    case ReplaceLocal(side, records) => LocalKeepsInvariant(w, side, records);
    case ReplaceTrust(_) =>
    case _ => UserStepKeepsInvariant(w, action);
  }

  /** Two freshly started sessions. */
  predicate IsInitial(w: World) {
    var s := w.initiator.session;
    s.intent.Some? &&
    w == InitialWorld(s.own, w.responder.session.own, s.expectedDevice, s.intent.value, w.trust, w.now)
  }

  /** The invariant holds in every world an orderly run reaches. */
  lemma {:induction false} ReachableIsSafe(w: World, actions: seq<Action>)
    requires IsInitial(w) && OrderlyRun(w, actions)
    ensures Invariant(Run(w, actions))
    decreases |actions|
  {
    if actions == [] {
      var s := w.initiator.session;
      InitialIsSafe(s.own, w.responder.session.own, s.expectedDevice, s.intent.value, w.trust, w.now);
    } else {
      ReachableIsSafe(w, actions[..|actions| - 1]);
      StepKeepsInvariant(Run(w, actions[..|actions| - 1]), actions[|actions| - 1]);
    }
  }
}
