/**
 A closed session with a role: two frames in one data event, the first of which closes the session
 while the second accepts the reversal it had asked for.  The pairing and the request are those of two
 computers that follow the protocol; then the caller deviates, with its own keys, and sends a message
 that is not due before its decision.
 */
module LateDecision {
  import opened Wrappers
  import opened ProtocolContracts
  import opened SessionCryptography
  import opened SessionModel
  import opened TwoParty
  import opened Hazards
  import Framer = JsonLineTransport

  // ---------- the callee asks for a reversal ----------

  /** The callee is connected and waits for the decision on its request. */
  predicate CalleeAsked(s: Session, p: Pairing, outbox: seq<Wire>, id: nat) {
    CalleeIs(s, p, Connected, 3, 2, outbox) && s.suspended == 0 && s.outgoingReversal == Some(id)
  }

  lemma ConsentReachesCaller(p: Pairing, w: World)
    requires CallerIs(w.initiator.session, p, AwaitingConsent, 2, 1, [])
    requires w.initiator.session.localConsent == Some(true)
    requires CalleeIs(w.responder.session, p, Connected, 2, 2, [FromCallee(p, 1, ConsentDecision(true))])
    ensures var after := Exec(w, Deliver(AtInitiator));
            && CallerIs(after.initiator.session, p, Connected, 2, 2, []) && after.initiator.session.prompt.None?
            && after.responder.session == w.responder.session.(outbox := [])
            && after.nextId == w.nextId + 1
  {
    Delivers(w, AtInitiator, FromCallee(p, 1, ConsentDecision(true)));
    CallerOpens(p, w.initiator.session, ConsentDecision(true), SurroundingsAt(w, AtInitiator), AwaitingConsent, 2, 1, []);
  }

  lemma CalleeAsks(p: Pairing, w: World)
    requires CalleeIs(w.responder.session, p, Connected, 2, 2, [])
    requires w.responder.session.suspended == 0 && w.responder.session.outgoingReversal.None?
    ensures var after := Exec(w, AskReversal(AtResponder));
            && CalleeAsked(after.responder.session, p, [FromCallee(p, 2, ReversalRequest(w.nextId))], w.nextId)
            && after.initiator == w.initiator && after.nextId == w.nextId + 1
  {
    var s := w.responder.session;
    SendsOne(s.(outgoingReversal := Some(w.nextId)), ReversalRequest(w.nextId));
    assert [] + [FromCallee(p, 2, ReversalRequest(w.nextId))] == [FromCallee(p, 2, ReversalRequest(w.nextId))];
  }

  lemma CallerIsAsked(p: Pairing, w: World, id: nat)
    requires CallerIs(w.initiator.session, p, Connected, 2, 2, []) && w.initiator.session.prompt.None?
    requires CalleeAsked(w.responder.session, p, [FromCallee(p, 2, ReversalRequest(id))], id)
    ensures var after := Exec(w, Deliver(AtInitiator));
            && CallerIs(after.initiator.session, p, Connected, 2, 3, [])
            && after.initiator.session.incomingReversal == Some(id)
            && after.initiator.session.prompt == Some(Prompt(w.nextId, PromptKind.Reversal, Decision))
            && CalleeAsked(after.responder.session, p, [], id) && after.nextId == w.nextId + 1
  {
    Delivers(w, AtInitiator, FromCallee(p, 2, ReversalRequest(id)));
    CallerOpens(p, w.initiator.session, ReversalRequest(id), SurroundingsAt(w, AtInitiator), Connected, 2, 2, []);
  }

  // ---------- the world before the data event ----------

  /** The pairing is complete, the callee has asked for a reversal (request 6), and the caller's user is asked (prompt 7). */
  function Asked(p: Pairing): World {
    Exec(Exec(Exec(Exec(Paired(p), Resume(AtResponder)), Deliver(AtInitiator)), AskReversal(AtResponder)), Deliver(AtInitiator))
  }

  /** The two frames of the data event: a second `Ready`, and the acceptance. */
  function Unexpected(p: Pairing): Wire { FromCaller(p, 2, Ready) }

  function Acceptance(p: Pairing): Wire { FromCaller(p, 3, ReversalDecision(6, true)) }

  predicate IsAsked(p: Pairing, w: World) {
    && CallerIs(w.initiator.session, p, Connected, 2, 3, []) && w.initiator.session.incomingReversal == Some(6)
    && w.initiator.session.prompt == Some(Prompt(7, PromptKind.Reversal, Decision))
    && CalleeAsked(w.responder.session, p, [], 6) && w.nextId == 8
  }

  lemma AsksAfter(p: Pairing, w: World)
    requires Waiting(p, w)
    ensures IsAsked(p, Exec(Exec(Exec(Exec(w, Resume(AtResponder)), Deliver(AtInitiator)), AskReversal(AtResponder)),
                            Deliver(AtInitiator)))
  {
    var w1 := Exec(w, Resume(AtResponder));
    CalleeConnects(p, w);
    var w2 := Exec(w1, Deliver(AtInitiator));
    ConsentReachesCaller(p, w1);
    var w3 := Exec(w2, AskReversal(AtResponder));
    CalleeAsks(p, w2);
    CallerIsAsked(p, w3, 6);
  }

  lemma AskedIsReached(p: Pairing)
    ensures IsAsked(p, Asked(p))
  {
    PairingWaits(p);
    AsksAfter(p, Paired(p));
  }

  // ---------- the two frames ----------

  /** The callee has closed, and has not forgotten its request. */
  predicate ClosedAsking(s: Session, p: Pairing) {
    && s.phase == Closed && s.transportClosed && s.failed && s.role == NoRole && s.outgoingReversal == Some(6)
    && s.cipher == Some(CalleeCipher(p, 3, 3))
  }

  lemma UnexpectedCloses(p: Pairing, s: Session, around: Surroundings)
    requires CalleeAsked(s, p, [], 6)
    ensures ClosedAsking(HandleWireMessage(s, Unexpected(p), around), p)
  {
    CalleeOpens(p, s, Ready, around, Connected, 3, 2, []);
  }

  lemma AcceptanceGivesRole(p: Pairing, s: Session, around: Surroundings)
    requires ClosedAsking(s, p)
    ensures var after := HandleWireMessage(s, Acceptance(p), around); after.phase == Closed && after.role == Viewer
  {
    assert Opened(s.cipher.value, Acceptance(p).envelope) == Some(ReversalDecision(6, true));
  }

  // ---------- one data event or two ----------

  /** The session takes the lines it is handed one after the other; `read` gives the frame in a line. */
  function HandleLines(s: Session, lines: seq<string>, read: string -> Wire, around: Surroundings): Session {
    if lines == [] then s
    else HandleWireMessage(HandleLines(s, lines[..|lines| - 1], read, around), read(lines[|lines| - 1]), around)
  }

  /** What the line framer sees of the session that listens to it: whether it has closed the transport. */
  function Listener(s: Session, read: string -> Wire, around: Surroundings): Framer.Judge {
    lines => if HandleLines(s, lines, read, around).transportClosed then Framer.DeliveredAndClosed else Framer.Delivered
  }

  lemma HandlesOne(s: Session, x: string, read: string -> Wire, around: Surroundings)
    ensures HandleLines(s, [x], read, around) == HandleWireMessage(s, read(x), around)
  {
    assert [x][..0] == [];
  }

  lemma HandlesTwo(s: Session, x: string, y: string, read: string -> Wire, around: Surroundings)
    ensures HandleLines(s, [x, y], read, around) == HandleWireMessage(HandleWireMessage(s, read(x), around), read(y), around)
  {
    HandlesOne(s, x, read, around);
    assert [x, y][..1] == [x];
  }

  lemma TakenTogetherOrApart(p: Pairing, s: Session, around: Surroundings, read: string -> Wire, x: string, y: string)
    requires CalleeAsked(s, p, [], 6)
    requires Framer.IsLine(MAXIMUM_FRAME_BYTES, x) && Framer.IsLine(MAXIMUM_FRAME_BYTES, y)
    requires read(x) == Unexpected(p) && read(y) == Acceptance(p)
    ensures var judge := Listener(s, read, around);
            var together := Framer.Feed(MAXIMUM_FRAME_BYTES, judge, Framer.FRESH, x + "\n" + (y + "\n"));
            var apart := Framer.FeedAll(MAXIMUM_FRAME_BYTES, judge, Framer.FRESH, [x + "\n"] + [y + "\n"]);
            && HandleLines(s, together.handed, read, around).phase == Closed
            && HandleLines(s, together.handed, read, around).role == Viewer
            && HandleLines(s, apart.handed, read, around).phase == Closed
            && HandleLines(s, apart.handed, read, around).role == NoRole
  {
    UnexpectedCloses(p, s, around);
    AcceptanceGivesRole(p, HandleWireMessage(s, Unexpected(p), around), around);
    HandlesOne(s, x, read, around);
    HandlesTwo(s, x, y, read, around);
    Framer.LineAfterTheEnd(MAXIMUM_FRAME_BYTES, Listener(s, read, around), x, y);
  }

  /**
   The callee of a complete pairing is connected and has asked for a reversal.  The caller sends a second
   `Ready` and then the acceptance, and both frames arrive in one data event.  The first is refused and
   closes the callee; the loop still hands on the second, and the closed callee becomes the viewer.  Had
   the frames arrived apart, it would have stayed without a role.
   */
  lemma ClosedSessionGetsRole(p: Pairing, read: string -> Wire, x: string, y: string)
    requires Framer.IsLine(MAXIMUM_FRAME_BYTES, x) && Framer.IsLine(MAXIMUM_FRAME_BYTES, y)
    requires read(x) == Unexpected(p) && read(y) == Acceptance(p)
    ensures var w := Asked(p);
            var s, around := w.responder.session, SurroundingsAt(w, AtResponder);
            var judge := Listener(s, read, around);
            var together := Framer.Feed(MAXIMUM_FRAME_BYTES, judge, Framer.FRESH, x + "\n" + (y + "\n"));
            var apart := Framer.FeedAll(MAXIMUM_FRAME_BYTES, judge, Framer.FRESH, [x + "\n"] + [y + "\n"]);
            && s.phase == Connected && s.outgoingReversal == Some(6)
            && HandleLines(s, together.handed, read, around).phase == Closed
            && HandleLines(s, together.handed, read, around).role == Viewer
            && HandleLines(s, apart.handed, read, around).phase == Closed
            && HandleLines(s, apart.handed, read, around).role == NoRole
  {
    AskedIsReached(p);
    var w := Asked(p);
    TakenTogetherOrApart(p, w.responder.session, SurroundingsAt(w, AtResponder), read, x, y);
  }
}
