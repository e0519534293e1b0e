/** The base invariant under everything a user, a timer or the network does to one session, deliveries apart. */
module OwnActions {
  import opened Wrappers
  import opened ProtocolContracts
  import opened SessionCryptography
  import opened EnvelopeText
  import opened SessionModel
  import opened Effects
  import opened Lanes
  import opened ProtocolInvariant
  import opened ProtocolSteps

  /** Far enough from the counter limit to send what one step sends. */
  predicate HasRoom(a: Session) { a.cipher.Some? ==> a.cipher.value.transmitted < 0x8000_0000_0000_0000 }

  lemma ClosedShape(a: Session, expected: bool)
    requires a.suspended == 0 && (a.phase == Closed ==> InShape(a))
    ensures var after := CloseWithError(a, expected);
            InShape(after) && after.phase == Closed && after.cipher == a.cipher && after.outbox == a.outbox &&
            after.localConsent == a.localConsent && after.remoteConsent == a.remoteConsent &&
            SameHandshake(a, after)
  {
  }

  /** A session changes, posts something and closes. */
  lemma ClosingIsLocal(a: Session, changed: Session, messages: seq<Message>, expected: bool)
    requires a.phase != Closed && changed.suspended == 0 && changed.phase != Closed
    requires SameHandshake(a, changed) && Got(changed) == Got(a)
    requires Posts(a, changed, messages) && (forall message <- messages :: Acceptable(message))
    requires a.cipher.Some? ==> AllInOrder(!a.initiator, SenderRank(a), Frames(a.cipher.value, messages))
    requires changed.remoteConsent == a.remoteConsent && (a.localConsent.Some? ==> changed.localConsent.Some?)
    requires forall message <- messages :: message.ConsentDecision? ==> changed.localConsent.Some?
    requires forall message <- messages :: !ConnectedOnly(message)
    ensures LocalStep(a, CloseWithError(changed, expected), messages)
  {
    ClosedShape(changed, expected);
  }

  lemma CloseIsLocal(a: Session, expected: bool)
    requires InShape(a) && a.suspended == 0
    ensures LocalStep(a, CloseWithError(a, expected), [])
  {
    if a.phase != Closed {
      ClosingIsLocal(a, a, [], expected);
    }
  }

  lemma ClosingKeepsPaired(a: Session, b: Session, expected: bool)
    requires Paired(a, b) && a.suspended == 0
    ensures Paired(CloseWithError(a, expected), b)
  {
    CloseIsLocal(a, expected);
    OwnStep(a, CloseWithError(a, expected), b, []);
  }

  lemma DisposeIsLocal(a: Session)
    requires InShape(a) && a.suspended == 0
    ensures LocalStep(a, Dispose(a), [])
  {
  }

  lemma DisposeKeepsPaired(a: Session, b: Session)
    requires Paired(a, b) && a.suspended == 0
    ensures Paired(Dispose(a), b)
  {
    DisposeIsLocal(a);
    OwnStep(a, Dispose(a), b, []);
  }

  lemma TransportGoneIsLocal(a: Session)
    requires InShape(a) && a.suspended == 0
    ensures LocalStep(a, TransportGone(a), [])
  {
    if a.phase != Closed {
      ClosingIsLocal(a, a.(transportClosed := true), [], false);
    }
  }

  lemma TransportGoneKeepsPaired(a: Session, b: Session)
    requires Paired(a, b) && a.suspended == 0
    ensures Paired(TransportGone(a), b)
  {
    TransportGoneIsLocal(a);
    OwnStep(a, TransportGone(a), b, []);
  }

  /** What one posted message does to the queue order. */
  lemma OneInOrder(a: Session, message: Message)
    requires a.cipher.Some?
    ensures var frames := Frames(a.cipher.value, [message]);
            |frames| == 1 && frames[0].SecureFrame? && Carried(frames[0]) == message &&
            (InOrder(!a.initiator, SenderRank(a), frames[0]) ==> AllInOrder(!a.initiator, SenderRank(a), frames)) &&
            Final(SenderRank(a), frames) == Next(SenderRank(a), frames[0])
  {
    assert [message][1..] == [];
    assert Frames(a.cipher.value.(transmitted := a.cipher.value.transmitted + 1), [message][1..]) == [];
    var frames := Frames(a.cipher.value, [message]);
    assert frames[1..] == [];
  }

  lemma PostedShape(s: Session, messages: seq<Message>)
    requires InShape(s) && s.cipher.Some?
    ensures InShape(Posted(s, messages))
  {
  }

  /** An open session changes some fields (the consents not among them) and can post one message now. */
  predicate MayPost(a: Session, changed: Session, message: Message) {
    && a.phase != Closed && a.cipher.Some? && InShape(changed)
    && changed.phase == a.phase && changed.cipher == a.cipher && changed.outbox == a.outbox
    && changed.localConsent == a.localConsent && changed.remoteConsent == a.remoteConsent
    && SameHandshake(a, changed)
    && Acceptable(message) && !message.ConsentDecision? && !message.Disconnect?
    && !message.Ready? && !message.ReadyAcknowledged? && !message.ProtocolError?
    && (ConnectedOnly(message) ==> a.remoteConsent.Some?)
    && (a.phase == AwaitingConsent ==> message.Ping? || message.Pong?)
    && (a.phase == AwaitingConsent || (a.phase == Connected && a.localConsent.Some?))
  }

  lemma PostingIsLocal(a: Session, changed: Session, message: Message)
    requires MayPost(a, changed, message)
    ensures LocalStep(a, Posted(changed, [message]), [message])
  {
    OneInOrder(a, message);
    PostedShape(changed, [message]);
  }

  lemma PostingStep(a: Session, changed: Session, b: Session, message: Message)
    requires Paired(a, b) && MayPost(a, changed, message)
    ensures Paired(Posted(changed, [message]), b)
  {
    PostingIsLocal(a, changed, message);
    OwnStep(a, Posted(changed, [message]), b, [message]);
  }

  /** A closed session tries to send: the counter may move, the queue does not. */
  lemma WastingIsLocal(a: Session, changed: Session, message: Message)
    requires InShape(a) && a.phase == Closed && InShape(changed) && changed.phase == Closed
    requires changed.cipher == a.cipher && changed.outbox == a.outbox && SameHandshake(a, changed)
    requires changed.remoteConsent == a.remoteConsent && (a.localConsent.Some? ==> changed.localConsent.Some?)
    ensures LocalStep(a, SendSecure(changed, message).session, [])
  {
  }

  lemma DisconnectIsLocal(a: Session)
    requires InShape(a) && a.suspended == 0 && HasRoom(a)
    ensures LocalStep(a, DisconnectSession(a), if a.cipher.Some? && a.phase != Closed then [Disconnect] else [])
  {
    if a.cipher.Some? && a.phase != Closed {
      SendSecureFits(a, Disconnect);
      OneInOrder(a, Disconnect);
      ClosingIsLocal(a, Posted(a, [Disconnect]), [Disconnect], true);
    } else {
      CloseIsLocal(a, true);
    }
  }

  lemma DisconnectKeepsPaired(a: Session, b: Session)
    requires Paired(a, b) && a.suspended == 0 && HasRoom(a)
    ensures Paired(DisconnectSession(a), b)
  {
    DisconnectIsLocal(a);
    OwnStep(a, DisconnectSession(a), b, if a.cipher.Some? && a.phase != Closed then [Disconnect] else []);
  }

  lemma RequestReversalPosts(a: Session, id: nat)
    requires InShape(a) && HasRoom(a)
    ensures var outcome := RequestReversal(a, id);
            if a.phase == Connected && a.outgoingReversal.None?
            then MayPost(a, a.(outgoingReversal := Some(id)), ReversalRequest(id)) &&
                 outcome == Done(Posted(a.(outgoingReversal := Some(id)), [ReversalRequest(id)]))
            else outcome == Throw(a)
  {
    if a.phase == Connected && a.outgoingReversal.None? {
      SendSecureFits(a.(outgoingReversal := Some(id)), ReversalRequest(id));
    }
  }

  lemma RequestReversalKeepsPaired(a: Session, b: Session, id: nat)
    requires Paired(a, b) && HasRoom(a)
    ensures Paired(RequestReversal(a, id).session, b)
  {
    RequestReversalPosts(a, id);
    if a.phase == Connected && a.outgoingReversal.None? {
      PostingStep(a, a.(outgoingReversal := Some(id)), b, ReversalRequest(id));
    }
  }

  function Asking(a: Session, limit: int, id: nat): Session {
    a.(requests := a.requests[id := PendingRequest(BoundedLimit(limit), [])])
  }

  lemma RequestDiagnosticsPosts(a: Session, limit: int, id: nat)
    requires InShape(a) && HasRoom(a)
    ensures var outcome := RequestDiagnostics(a, limit, id);
            var message := DiagnosticsRequest(id, BoundedLimit(limit));
            if a.phase == Connected
            then MayPost(a, Asking(a, limit, id), message) && outcome == Done(Posted(Asking(a, limit, id), [message]))
            else outcome == Throw(a)
  {
    if a.phase == Connected {
      SendSecureFits(Asking(a, limit, id), DiagnosticsRequest(id, BoundedLimit(limit)));
    }
  }

  lemma RequestDiagnosticsKeepsPaired(a: Session, b: Session, limit: int, id: nat)
    requires Paired(a, b) && HasRoom(a)
    ensures Paired(RequestDiagnostics(a, limit, id).session, b)
  {
    RequestDiagnosticsPosts(a, limit, id);
    if a.phase == Connected {
      PostingStep(a, Asking(a, limit, id), b, DiagnosticsRequest(id, BoundedLimit(limit)));
    }
  }

  lemma RequestTimeoutIsLocal(a: Session, id: nat)
    requires InShape(a)
    ensures LocalStep(a, RequestTimeout(a, id), [])
  {
    if id in a.requests {
      assert a.phase == Connected;
    }
  }

  lemma RequestTimeoutKeepsPaired(a: Session, b: Session, id: nat)
    requires Paired(a, b)
    ensures Paired(RequestTimeout(a, id), b)
  {
    RequestTimeoutIsLocal(a, id);
    OwnStep(a, RequestTimeout(a, id), b, []);
  }

  lemma SendMediaSignalPosts(a: Session, signal: Signal)
    requires InShape(a) && HasRoom(a)
    requires signal.acceptable && PlaintextBytes(MediaSignal(signal)) <= MAXIMUM_PLAINTEXT_BYTES
    ensures var outcome := SendMediaSignal(a, signal);
            if a.phase == Connected
            then MayPost(a, a, MediaSignal(signal)) && outcome == Done(Posted(a, [MediaSignal(signal)]))
            else outcome == Throw(a)
  {
    if a.phase == Connected {
      SendSecureFits(a, MediaSignal(signal));
    }
  }

  lemma PingPosts(a: Session, pingId: nat)
    requires InShape(a) && HasRoom(a) && a.keepAliveTimer
    ensures var changed := a.(pings := a.pings + {pingId});
            MayPost(a, changed, Ping(pingId)) &&
            SendSecure(changed, Ping(pingId)) == Done(Posted(changed, [Ping(pingId)]))
  {
    SendSecureFits(a.(pings := a.pings + {pingId}), Ping(pingId));
  }

  lemma ResumeIsLocal(a: Session, now: int)
    requires InShape(a)
    ensures LocalStep(a, ResumeEstablish(a, now), [])
  {
    if a.suspended > 0 {
      assert a.phase == AwaitingConsent && !a.initiator && a.suspended == 1;
    }
  }

  lemma ResumeKeepsPaired(a: Session, b: Session, now: int)
    requires Paired(a, b)
    ensures Paired(ResumeEstablish(a, now), b)
  {
    ResumeIsLocal(a, now);
    OwnStep(a, ResumeEstablish(a, now), b, []);
  }

  /** The fields after an answered reversal prompt. */
  function Reversed(a: Session, accepted: bool): Session {
    a.(incomingReversal := None, prompt := None, role := if accepted then Toggle(a.role) else a.role)
  }

  lemma ReversedMayPost(a: Session, accepted: bool)
    requires InShape(a) && a.phase == Connected && a.incomingReversal.Some?
    ensures MayPost(a, Reversed(a, accepted), ReversalDecision(a.incomingReversal.value, accepted))
  {
  }

  lemma TurningCommutes(s: Session, messages: seq<Message>, role: Role)
    requires s.cipher.Some?
    ensures Posted(s, messages).(role := role) == Posted(s.(role := role), messages)
  {
  }

  lemma RespondToReversalPosts(a: Session, accepted: bool)
    requires InShape(a) && HasRoom(a) && a.prompt.Some? && a.prompt.value.kind == Reversal
    requires a.phase == Connected
    ensures a.incomingReversal.Some?
    ensures var message := ReversalDecision(a.incomingReversal.value, accepted);
            MayPost(a, Reversed(a, accepted), message) &&
            RespondToReversal(a, accepted) == Done(Posted(Reversed(a, accepted), [message]))
  {
    var message := ReversalDecision(a.incomingReversal.value, accepted);
    ReversedMayPost(a, accepted);
    SendSecureFits(a.(incomingReversal := None, prompt := None), message);
    TurningCommutes(a.(incomingReversal := None, prompt := None), [message], Toggle(a.role));
  }

  lemma RespondToReversalIsLocal(a: Session, accepted: bool)
    requires InShape(a) && HasRoom(a) && a.prompt.Some? && a.prompt.value.kind == Reversal
    ensures a.phase == Connected ==> a.incomingReversal.Some?
    ensures LocalStep(a, RespondToReversal(a, accepted).session,
                      if a.phase == Connected then [ReversalDecision(a.incomingReversal.value, accepted)] else [])
  {
    if a.phase == Connected {
      RespondToReversalPosts(a, accepted);
      PostingIsLocal(a, Reversed(a, accepted), ReversalDecision(a.incomingReversal.value, accepted));
    } else if a.incomingReversal.Some? {
      WastingIsLocal(a, a.(incomingReversal := None, prompt := None), ReversalDecision(a.incomingReversal.value, accepted));
    }
  }

  lemma RespondToReversalKeepsPaired(a: Session, b: Session, accepted: bool)
    requires Paired(a, b) && HasRoom(a) && a.prompt.Some? && a.prompt.value.kind == Reversal
    ensures Paired(RespondToReversal(a, accepted).session, b)
  {
    RespondToReversalIsLocal(a, accepted);
    OwnStep(a, RespondToReversal(a, accepted).session, b,
            if a.phase == Connected then [ReversalDecision(a.incomingReversal.value, accepted)] else []);
  }

  function Answering(a: Session, accepted: bool): Session {
    a.(prompt := None, localConsent := Some(accepted))
  }

  lemma PairingAnswerPosts(a: Session, accepted: bool)
    requires InShape(a) && HasRoom(a) && a.phase == AwaitingConsent
    ensures SendSecure(Answering(a, accepted), ConsentDecision(accepted)) ==
            Done(Posted(Answering(a, accepted), [ConsentDecision(accepted)]))
  {
    SendSecureFits(Answering(a, accepted), ConsentDecision(accepted));
  }

  lemma SuspendCommutes(s: Session, messages: seq<Message>, grant: Grant)
    requires s.cipher.Some?
    ensures Posted(s, messages).(suspended := s.suspended + 1, grants := s.grants + [grant]) ==
            Posted(s.(suspended := s.suspended + 1, grants := s.grants + [grant]), messages)
  {
  }

  lemma ConnectCommutes(s: Session, messages: seq<Message>, now: int)
    requires s.cipher.Some?
    ensures Establish(Posted(s, messages), now) == Posted(Establish(s, now), messages)
  {
  }

  lemma EstablishCommutes(s: Session, messages: seq<Message>, now: int)
    requires s.cipher.Some?
    ensures TryEstablish(Posted(s, messages), now) == Posted(TryEstablish(s, now), messages)
  {
    var posted := Posted(s, messages);
    assert ReadyToEstablish(posted) == ReadyToEstablish(s);
    if ReadyToEstablish(s) {
      SuspendCommutes(s, messages, Grant(s.intent.value, s.peer.value.device, s.peerKey.value));
      ConnectCommutes(s, messages, now);
    }
  }

  /** The responder has entered the code: it waits for the other consent or for the trust store. */
  lemma ApprovedShape(a: Session, now: int)
    requires InShape(a) && PeerKnown(a) && a.phase == AwaitingConsent && !a.initiator && a.prompt.Some?
    ensures var after := TryEstablish(Answering(a, true), now);
            InShape(after) && after.phase == AwaitingConsent && after.cipher == a.cipher && after.outbox == a.outbox &&
            SameHandshake(a, after) && after.localConsent == Some(true) && after.remoteConsent == a.remoteConsent
  {
  }

  lemma ApprovalIsLocal(a: Session, now: int)
    requires InShape(a) && PeerKnown(a) && a.phase == AwaitingConsent && !a.initiator && a.prompt.Some?
    ensures LocalStep(a, TryEstablish(Posted(Answering(a, true), [ConsentDecision(true)]), now), [ConsentDecision(true)])
  {
    var message := ConsentDecision(true);
    var after := TryEstablish(Answering(a, true), now);
    EstablishCommutes(Answering(a, true), [message], now);
    ApprovedShape(a, now);
    PostedShape(after, [message]);
    OneInOrder(a, message);
  }

  lemma DeclineIsLocal(a: Session)
    requires InShape(a) && a.phase == AwaitingConsent && a.suspended == 0 && a.prompt.Some?
    ensures LocalStep(a, CloseWithError(Posted(Answering(a, false), [ConsentDecision(false)]), true), [ConsentDecision(false)])
  {
    OneInOrder(a, ConsentDecision(false));
    ClosingIsLocal(a, Posted(Answering(a, false), [ConsentDecision(false)]), [ConsentDecision(false)], true);
  }

  /** A pairing answer leaves the session as it is, approves, declines, or comes too late. */
  lemma PairingAnswerCases(s: Session, accepted: bool, entered: Option<Code>, now: int)
    requires InShape(s) && HasRoom(s) && s.prompt.Some? && s.prompt.value.kind == Pairing
    ensures var after := RespondToPairing(s, s.prompt.value.mode, accepted, entered, now).session;
            || after == s
            || (s.phase == Closed && after == SendSecure(Answering(s, accepted), ConsentDecision(accepted)).session)
            || (s.phase == AwaitingConsent && accepted && !s.initiator &&
                after == TryEstablish(Posted(Answering(s, true), [ConsentDecision(true)]), now))
            || (s.phase == AwaitingConsent && !accepted &&
                after == CloseWithError(Posted(Answering(s, false), [ConsentDecision(false)]), true))
  {
    if s.phase == AwaitingConsent {
      PairingAnswerPosts(s, accepted);
    }
  }

  lemma RespondToPairingIsLocal(a: Session, accepted: bool, entered: Option<Code>, now: int)
    requires InShape(a) && HasRoom(a) && a.prompt.Some? && a.prompt.value.kind == Pairing
    requires a.phase == AwaitingConsent ==> PeerKnown(a)
    ensures exists messages ::
              LocalStep(a, RespondToPairing(a, a.prompt.value.mode, accepted, entered, now).session, messages)
  {
    PairingAnswerCases(a, accepted, entered, now);
    var after := RespondToPairing(a, a.prompt.value.mode, accepted, entered, now).session;
    if after == a {
      StayingIsLocal(a);
    } else if a.phase == Closed {
      WastingIsLocal(a, Answering(a, accepted), ConsentDecision(accepted));
    } else if accepted {
      ApprovalIsLocal(a, now);
    } else {
      DeclineIsLocal(a);
    }
  }

  lemma StayingIsLocal(a: Session)
    requires InShape(a)
    ensures LocalStep(a, a, [])
  {
  }

  lemma RespondToPairingKeepsPaired(a: Session, b: Session, accepted: bool, entered: Option<Code>, now: int)
    requires Paired(a, b) && HasRoom(a) && a.prompt.Some? && a.prompt.value.kind == Pairing
    ensures Paired(RespondToPairing(a, a.prompt.value.mode, accepted, entered, now).session, b)
  {
    var after := RespondToPairing(a, a.prompt.value.mode, accepted, entered, now).session;
    RespondToPairingIsLocal(a, accepted, entered, now);
    var messages :| LocalStep(a, after, messages);
    OwnStep(a, after, b, messages);
  }
}
