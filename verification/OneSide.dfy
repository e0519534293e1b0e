/**
 One end of the two-party world as a session on its own: every step of the world is an event of that session, or
 leaves it alone.
 */
module OneSide {
  import opened Wrappers
  import opened ProtocolContracts
  import opened SessionCryptography
  import opened SessionModel
  import opened TwoParty
  import Runs = SessionRuns

  /** What an action is for the session at `side`, if it is anything. */
  function EventAt(w: World, action: Action, side: Side): Option<Runs.Event> {
    if SideOf(action) != Some(side) then None
    else
      match action
      case Deliver(_) =>
        if At(w, Other(side)).outbox == [] then None
        else Some(Runs.Receive(At(w, Other(side)).outbox[0], SurroundingsAt(w, side)))
      case Respond(_, promptId, accepted, entered) => Some(Runs.Answer(promptId, accepted, entered, w.now))
      case Resume(_) => Some(Runs.TrustStored(w.now))
      case AskReversal(_) => Some(Runs.AskReversal(w.nextId))
      case AskDiagnostics(_, limit) => Some(Runs.AskDiagnostics(limit, w.nextId))
      case ExpireRequest(_, id) => Some(Runs.Expire(id))
      case SendSignal(_, signal) => Some(Runs.SendSignal(signal))
      case Tick(_) => if At(w, side).keepAliveTimer then Some(Runs.Tick(w.now, w.nextId)) else None
      case HandshakeTimeout(_) => if At(w, side).handshakeTimer then Some(Runs.HandshakeTimeout) else None
      case UserDisconnect(_) => Some(Runs.Leave)
      case DisposeSession(_) => Some(Runs.Discard)
      case SocketGone(_) => Some(Runs.SocketGone)
      case _ => None
  }

  /** The session an action is about. */
  function SideOf(action: Action): Option<Side> {
    match action
    case Elapse(_) => None
    case ReplaceLocal(_, _) => None
    case ReplaceTrust(_) => None
    case _ => Some(action.side)
  }

  /** A session that nothing happens to, except that the other end may take a frame off its queue. */
  predicate LeftAlone(s: Session, after: Session) { after == s.(outbox := after.outbox) }

  /** The step is the event of the session at `side`, or leaves it alone. */
  predicate StepsAs(w: World, action: Action, side: Side) {
    var after := At(Exec(w, action), side);
    match EventAt(w, action, side)
    case Some(event) => after == Runs.After(At(w, side), event)
    case None => LeftAlone(At(w, side), after)
  }

  lemma DeliveryAtSide(w: World, at: Side, side: Side)
    ensures StepsAs(w, Deliver(at), side)
  {
  }

  lemma RespondAtSide(w: World, at: Side, promptId: nat, accepted: bool, entered: Option<Code>, side: Side)
    ensures StepsAs(w, Respond(at, promptId, accepted, entered), side)
  {
  }

  lemma ResumeAtSide(w: World, at: Side, side: Side)
    ensures StepsAs(w, Resume(at), side)
  {
  }

  lemma AskReversalAtSide(w: World, at: Side, side: Side)
    ensures StepsAs(w, AskReversal(at), side)
  {
  }

  lemma AskDiagnosticsAtSide(w: World, at: Side, limit: int, side: Side)
    ensures StepsAs(w, AskDiagnostics(at, limit), side)
  {
  }

  lemma ExpireAtSide(w: World, at: Side, id: nat, side: Side)
    ensures StepsAs(w, ExpireRequest(at, id), side)
  {
  }

  lemma SignalAtSide(w: World, at: Side, signal: Signal, side: Side)
    ensures StepsAs(w, SendSignal(at, signal), side)
  {
  }

  /** What a tick does to the two sessions. */
  lemma Ticks(w: World, at: Side)
    ensures var after := Exec(w, Tick(at));
            && At(after, at) == (if At(w, at).keepAliveTimer then KeepAliveTick(At(w, at), w.now, w.nextId).session else At(w, at))
            && At(after, Other(at)) == At(w, Other(at))
  {
  }

  lemma TickAtSide(w: World, at: Side, side: Side)
    ensures StepsAs(w, Tick(at), side)
  {
    Ticks(w, at);
    if side == at {
      if !At(w, at).keepAliveTimer {
        assert EventAt(w, Tick(at), side) == None;
      }
    } else {
      assert side == Other(at) && EventAt(w, Tick(at), side) == None;
    }
  }

  lemma TimesOut(w: World, at: Side)
    ensures var after := Exec(w, HandshakeTimeout(at));
            && At(after, at) == (if At(w, at).handshakeTimer then CloseWithError(At(w, at), false) else At(w, at))
            && At(after, Other(at)) == At(w, Other(at))
  {
  }

  lemma TimeoutAtSide(w: World, at: Side, side: Side)
    ensures StepsAs(w, HandshakeTimeout(at), side)
  {
    TimesOut(w, at);
    if side == at {
      if !At(w, at).handshakeTimer {
        assert EventAt(w, HandshakeTimeout(at), side) == None;
      }
    } else {
      assert side == Other(at) && EventAt(w, HandshakeTimeout(at), side) == None;
    }
  }

  lemma LeavingAtSide(w: World, at: Side, side: Side)
    ensures StepsAs(w, UserDisconnect(at), side)
  {
  }

  lemma DisposalAtSide(w: World, at: Side, side: Side)
    ensures StepsAs(w, DisposeSession(at), side)
  {
  }

  lemma LossAtSide(w: World, at: Side, side: Side)
    ensures StepsAs(w, SocketGone(at), side)
  {
  }

  lemma SurroundingsAtSide(w: World, action: Action, side: Side)
    requires action.Elapse? || action.ReplaceLocal? || action.ReplaceTrust?
    ensures StepsAs(w, action, side)
  {
  }

  lemma StepAtSide(w: World, action: Action, side: Side)
    ensures StepsAs(w, action, side)
  {
    match action
    case Deliver(at) => DeliveryAtSide(w, at, side);
    case Respond(at, promptId, accepted, entered) => RespondAtSide(w, at, promptId, accepted, entered, side);
    case Resume(at) => ResumeAtSide(w, at, side);
    case AskReversal(at) => AskReversalAtSide(w, at, side);
    case AskDiagnostics(at, limit) => AskDiagnosticsAtSide(w, at, limit, side);
    case ExpireRequest(at, id) => ExpireAtSide(w, at, id, side);
    case SendSignal(at, signal) => SignalAtSide(w, at, signal, side);
    case Tick(at) => TickAtSide(w, at, side);
    case HandshakeTimeout(at) => TimeoutAtSide(w, at, side);
    case UserDisconnect(at) => LeavingAtSide(w, at, side);
    case DisposeSession(at) => DisposalAtSide(w, at, side);
    case SocketGone(at) => LossAtSide(w, at, side);
    case _ => SurroundingsAtSide(w, action, side);
  }
}
