/** Direction reversal: where a request is, and what it means for the two roles. */
module Reversals {
  import opened Wrappers
  import opened ProtocolContracts
  import opened SessionModel
  import opened Effects
  import opened Lanes
  import opened ProtocolInvariant
  import opened ProtocolSteps
  import opened OwnActions
  import opened Deliveries

  // ---------- counting in a queue ----------

  function RequestIds(messages: seq<Message>): seq<nat> {
    if messages == [] then []
    else (if messages[0].ReversalRequest? then [messages[0].reversalId] else []) + RequestIds(messages[1..])
  }

  function DecisionIds(messages: seq<Message>): seq<nat> {
    if messages == [] then []
    else (if messages[0].ReversalDecision? then [messages[0].reversalId] else []) + DecisionIds(messages[1..])
  }

  /** The accepted decisions among the messages. */
  function AcceptedCount(messages: seq<Message>): nat {
    if messages == [] then 0
    else (if messages[0].ReversalDecision? && messages[0].accepted then 1 else 0) + AcceptedCount(messages[1..])
  }

  lemma {:induction false} RequestIdsAppend(first: seq<Message>, second: seq<Message>)
    ensures RequestIds(first + second) == RequestIds(first) + RequestIds(second)
    decreases |first|
  {
    if first == [] {
      assert first + second == second;
    } else {
      var head := if first[0].ReversalRequest? then [first[0].reversalId] else [];
      RequestIdsAppend(first[1..], second);
      calc {
        RequestIds(first + second);
        { assert (first + second)[1..] == first[1..] + second; }
        head + RequestIds(first[1..] + second);
        head + (RequestIds(first[1..]) + RequestIds(second));
        RequestIds(first) + RequestIds(second);
      }
    }
  }

  lemma {:induction false} DecisionIdsAppend(first: seq<Message>, second: seq<Message>)
    ensures DecisionIds(first + second) == DecisionIds(first) + DecisionIds(second)
    decreases |first|
  {
    if first == [] {
      assert first + second == second;
    } else {
      var head := if first[0].ReversalDecision? then [first[0].reversalId] else [];
      DecisionIdsAppend(first[1..], second);
      calc {
        DecisionIds(first + second);
        { assert (first + second)[1..] == first[1..] + second; }
        head + DecisionIds(first[1..] + second);
        head + (DecisionIds(first[1..]) + DecisionIds(second));
        DecisionIds(first) + DecisionIds(second);
      }
    }
  }

  lemma {:induction false} AcceptedCountAppend(first: seq<Message>, second: seq<Message>)
    ensures AcceptedCount(first + second) == AcceptedCount(first) + AcceptedCount(second)
    decreases |first|
  {
    if first == [] {
      assert first + second == second;
    } else {
      assert (first + second)[1..] == first[1..] + second;
      AcceptedCountAppend(first[1..], second);
    }
  }

  lemma CountsAppend(first: seq<Message>, second: seq<Message>)
    ensures RequestIds(first + second) == RequestIds(first) + RequestIds(second)
    ensures DecisionIds(first + second) == DecisionIds(first) + DecisionIds(second)
    ensures AcceptedCount(first + second) == AcceptedCount(first) + AcceptedCount(second)
  {
    RequestIdsAppend(first, second);
    DecisionIdsAppend(first, second);
    AcceptedCountAppend(first, second);
  }

  predicate NoReversals(messages: seq<Message>) {
    forall k | 0 <= k < |messages| :: !messages[k].ReversalRequest? && !messages[k].ReversalDecision?
  }

  lemma {:induction false} NothingToCount(messages: seq<Message>)
    requires NoReversals(messages)
    ensures RequestIds(messages) == [] && DecisionIds(messages) == [] && AcceptedCount(messages) == 0
    decreases |messages|
  {
    if messages != [] {
      NothingToCount(messages[1..]);
    }
  }

  // ---------- the invariant ----------

  function OptionIds(id: Option<nat>): seq<nat> { if id.Some? then [id.value] else [] }

  /** What of a session concerns reversals: its pending ids, what its queue to the other end holds, and its role. */
  datatype Standing = Standing(
    open: bool, outgoing: Option<nat>, incoming: Option<nat>,
    requests: seq<nat>, decisions: seq<nat>, accepted: nat, role: Role)

  /** The role is the one the session has, or will start with. */
  function StandingOf(s: Session, intent: Intent): Standing {
    var messages := Messages(s.outbox);
    Standing(s.phase != Closed, s.outgoingReversal, s.incomingReversal,
             RequestIds(messages), DecisionIds(messages), AcceptedCount(messages),
             if s.phase == Connected then s.role else InitialRole(Some(intent), s.initiator))
  }

  /**
   Every place where a request of `x` to `y` can be: on its way, before the user of `y`, or decided and on its
   way back.
   */
  function Places(x: Standing, y: Standing): seq<nat> {
    x.requests + OptionIds(y.incoming) + y.decisions
  }

  /** A pending request is in exactly one place while both are open; nothing else of that direction exists. */
  predicate Conserved(x: Standing, y: Standing) {
    && |Places(x, y)| <= 1
    && (Places(x, y) != [] ==> x.outgoing == Some(Places(x, y)[0]))
    && (x.open && y.open && x.outgoing.Some? ==> Places(x, y) != [])
  }

  /** The decisions in flight that their sender has acted on and their receiver has not make the roles equal or opposite. */
  predicate RolesOpposed(x: Standing, y: Standing) {
    x.open && y.open ==> (x.role == y.role <==> (x.accepted + y.accepted) % 2 == 1)
  }

  predicate StandingsSafe(x: Standing, y: Standing) {
    Conserved(x, y) && Conserved(y, x) && RolesOpposed(x, y)
  }

  predicate ReversalSafe(a: Session, b: Session) {
    StandingsSafe(StandingOf(a, AgreedIntent(a, b)), StandingOf(b, AgreedIntent(a, b)))
  }

  // ---------- the steps on standings ----------

  /** An end closes, or nothing changes. */
  lemma StandingCloses(x: Standing, after: Standing, y: Standing)
    requires StandingsSafe(x, y) && (after.open ==> x.open && after.role == x.role)
    requires after == x.(open := after.open, role := after.role)
    ensures StandingsSafe(after, y)
  {
  }

  lemma StandingAsks(x: Standing, y: Standing, id: nat)
    requires StandingsSafe(x, y) && x.outgoing.None?
    ensures StandingsSafe(x.(outgoing := Some(id), requests := x.requests + [id]), y)
  {
    assert Places(x, y) == [];
  }

  function Turned(role: Role, accepted: bool): Role { if accepted then Toggle(role) else role }

  lemma StandingAnswers(x: Standing, y: Standing, accepted: bool)
    requires StandingsSafe(x, y) && x.incoming.Some? && (x.open && y.open ==> x.role != NoRole && y.role != NoRole)
    ensures StandingsSafe(
              x.(incoming := None, decisions := x.decisions + [x.incoming.value],
                 accepted := x.accepted + (if accepted then 1 else 0), role := Turned(x.role, accepted)), y)
  {
    var places := Places(y, x);
    assert places == y.requests + [x.incoming.value] + x.decisions;
    assert y.requests == [] && x.decisions == [];
  }

  lemma StandingForgets(x: Standing, y: Standing)
    requires StandingsSafe(x, y) && !x.open
    ensures StandingsSafe(x.(incoming := None), y)
  {
  }

  lemma StandingHears(x: Standing, y: Standing, id: nat, rest: seq<nat>)
    requires StandingsSafe(x, y) && y.requests == [id] + rest && x.incoming.None?
    ensures StandingsSafe(x.(incoming := Some(id)), y.(requests := rest))
  {
    assert rest == [] && x.decisions == [];
  }

  /** A decision arrives at the end that asked. */
  lemma StandingLearns(x: Standing, y: Standing, id: nat, rest: seq<nat>, accepted: bool, left: nat)
    requires StandingsSafe(x, y) && y.decisions == [id] + rest && y.accepted == (if accepted then 1 else 0) + left
    requires x.open && y.open ==> x.role != NoRole && y.role != NoRole
    ensures x.outgoing == Some(id)
    ensures StandingsSafe(x.(outgoing := None, role := Turned(x.role, accepted)), y.(decisions := rest, accepted := left))
  {
    assert rest == [] && x.requests == [] && y.incoming.None?;
  }

  /** The head of a queue reaches a closed end. */
  lemma StandingLosesHead(x: Standing, y: Standing, requests: seq<nat>, decisions: seq<nat>, left: nat)
    requires StandingsSafe(x, y) && !x.open
    requires (requests == y.requests || (y.requests != [] && requests == y.requests[1..]))
    requires (decisions == y.decisions || (y.decisions != [] && decisions == y.decisions[1..]))
    ensures StandingsSafe(x, y.(requests := requests, decisions := decisions, accepted := left))
    ensures decisions != y.decisions ==>
              StandingsSafe(x.(outgoing := None), y.(requests := requests, decisions := decisions, accepted := left))
  {
  }

  // ---------- steps of sessions ----------

  /** `a` becomes `after` and posts `messages`; neither its part in a reversal nor its role changes. */
  predicate Uninvolved(a: Session, after: Session, intent: Intent, messages: seq<Message>) {
    && SameIdentity(a, after)
    && after.outgoingReversal == a.outgoingReversal && after.incomingReversal == a.incomingReversal
    && NoReversals(messages)
    && (after.phase != Closed ==>
          a.phase != Closed && StandingOf(after, intent).role == StandingOf(a, intent).role)
  }

  lemma SameCounts(first: seq<Message>, messages: seq<Message>)
    requires NoReversals(messages)
    ensures RequestIds(first + messages) == RequestIds(first)
    ensures DecisionIds(first + messages) == DecisionIds(first)
    ensures AcceptedCount(first + messages) == AcceptedCount(first)
  {
    CountsAppend(first, messages);
    NothingToCount(messages);
  }

  lemma UninvolvedStanding(a: Session, after: Session, intent: Intent, messages: seq<Message>)
    requires Uninvolved(a, after, intent, messages)
    requires Messages(after.outbox) == Messages(a.outbox) + messages
    ensures var x, z := StandingOf(a, intent), StandingOf(after, intent);
            z == x.(open := z.open, role := z.role) && (z.open ==> x.open && z.role == x.role)
  {
    SameCounts(Messages(a.outbox), messages);
  }

  lemma UninvolvedKeeps(a: Session, after: Session, b: Session, messages: seq<Message>)
    requires a.initiator != b.initiator && ReversalSafe(a, b)
    requires Uninvolved(a, after, AgreedIntent(a, b), messages)
    requires Messages(after.outbox) == Messages(a.outbox) + messages
    ensures ReversalSafe(after, b)
  {
    var intent := AgreedIntent(a, b);
    SameLanes(a, after, b, b);
    UninvolvedStanding(a, after, intent, messages);
    StandingCloses(StandingOf(a, intent), StandingOf(after, intent), StandingOf(b, intent));
  }

  lemma {:induction false} HeadAndTail(b: Session)
    requires b.outbox != []
    ensures Messages(b.outbox) ==
            (if b.outbox[0].SecureFrame? then [Carried(b.outbox[0])] else []) + Messages(Tail(b).outbox)
  {
  }

  /** The head of the queue does not concern reversals: taking it changes no standing. */
  lemma TailStands(b: Session, intent: Intent)
    requires b.outbox != [] && (b.outbox[0].SecureFrame? ==> NoReversals([Carried(b.outbox[0])]))
    ensures StandingOf(Tail(b), intent) == StandingOf(b, intent)
  {
    HeadAndTail(b);
    var head := if b.outbox[0].SecureFrame? then [Carried(b.outbox[0])] else [];
    CountsAppend(head, Messages(Tail(b).outbox));
    NothingToCount(head);
  }

  /** The head of the queue of `b` is taken and does not concern reversals either. */
  lemma UninvolvedTakes(a: Session, after: Session, b: Session, messages: seq<Message>)
    requires a.initiator != b.initiator && ReversalSafe(a, b) && b.outbox != []
    requires b.outbox[0].SecureFrame? ==> NoReversals([Carried(b.outbox[0])])
    requires Uninvolved(a, after, AgreedIntent(a, b), messages)
    requires Messages(after.outbox) == Messages(a.outbox) + messages
    ensures ReversalSafe(after, Tail(b))
  {
    UninvolvedKeeps(a, after, b, messages);
    SameLanes(a, after, b, b);
    SameLanes(a, after, b, Tail(b));
    TailStands(b, AgreedIntent(a, b));
  }

  // ---------- asking, answering, hearing ----------

  lemma OneMessage(message: Message)
    ensures RequestIds([message]) == (if message.ReversalRequest? then [message.reversalId] else [])
    ensures DecisionIds([message]) == (if message.ReversalDecision? then [message.reversalId] else [])
    ensures AcceptedCount([message]) == (if message.ReversalDecision? && message.accepted then 1 else 0)
  {
    assert [message][1..] == [];
    assert RequestIds([message][1..]) == [];
    assert DecisionIds([message][1..]) == [];
  }

  /** What one posted message adds to the counts. */
  lemma PostedCounts(s: Session, message: Message, intent: Intent)
    requires s.cipher.Some?
    ensures var x := StandingOf(s, intent);
            StandingOf(Posted(s, [message]), intent) ==
            x.(requests := if message.ReversalRequest? then x.requests + [message.reversalId] else x.requests,
               decisions := if message.ReversalDecision? then x.decisions + [message.reversalId] else x.decisions,
               accepted := x.accepted + (if message.ReversalDecision? && message.accepted then 1 else 0))
  {
    PostedMessages(s, [message]);
    CountsAppend(Messages(s.outbox), [message]);
    OneMessage(message);
  }

  /** What taking the head of the queue does to the counts. */
  lemma TailCounts(b: Session, intent: Intent)
    requires b.outbox != [] && b.outbox[0].SecureFrame?
    ensures var message := Carried(b.outbox[0]);
            var y, z := StandingOf(b, intent), StandingOf(Tail(b), intent);
            && z == y.(requests := z.requests, decisions := z.decisions, accepted := z.accepted)
            && y.requests == (if message.ReversalRequest? then [message.reversalId] + z.requests else z.requests)
            && y.decisions == (if message.ReversalDecision? then [message.reversalId] + z.decisions else z.decisions)
            && y.accepted == (if message.ReversalDecision? && message.accepted then 1 else 0) + z.accepted
  {
    HeadAndTail(b);
    CountsAppend([Carried(b.outbox[0])], Messages(Tail(b).outbox));
    OneMessage(Carried(b.outbox[0]));
  }

  lemma AskingKeeps(a: Session, b: Session, id: nat)
    requires InShape(a) && HasRoom(a) && a.initiator != b.initiator && ReversalSafe(a, b)
    ensures ReversalSafe(RequestReversal(a, id).session, b)
  {
    RequestReversalPosts(a, id);
    if a.phase == Connected && a.outgoingReversal.None? {
      var intent := AgreedIntent(a, b);
      var changed := a.(outgoingReversal := Some(id));
      PostedCounts(changed, ReversalRequest(id), intent);
      SameLanes(a, Posted(changed, [ReversalRequest(id)]), b, b);
      StandingAsks(StandingOf(a, intent), StandingOf(b, intent), id);
    }
  }

  lemma HasStandingRole(a: Session, intent: Intent)
    requires InShape(a)
    ensures a.phase != Closed ==> StandingOf(a, intent).role != NoRole
  {
  }

  lemma AnsweringKeeps(a: Session, b: Session, accepted: bool)
    requires InShape(a) && InShape(b) && HasRoom(a) && a.initiator != b.initiator && ReversalSafe(a, b)
    requires a.phase == Connected && a.prompt.Some? && a.prompt.value.kind == Reversal
    ensures ReversalSafe(RespondToReversal(a, accepted).session, b)
  {
    RespondToReversalPosts(a, accepted);
    var intent := AgreedIntent(a, b);
    var message := ReversalDecision(a.incomingReversal.value, accepted);
    PostedCounts(Reversed(a, accepted), message, intent);
    SameLanes(a, Posted(Reversed(a, accepted), [message]), b, b);
    HasStandingRole(a, intent);
    HasStandingRole(b, intent);
    StandingAnswers(StandingOf(a, intent), StandingOf(b, intent), accepted);
  }

  lemma ClosedAnswer(a: Session, accepted: bool, intent: Intent)
    requires InShape(a) && a.phase == Closed
    ensures var after := RespondToReversal(a, accepted).session;
            SameIdentity(a, after) && StandingOf(after, intent) == StandingOf(a, intent).(incoming := None)
  {
  }

  lemma ClosedAnsweringKeeps(a: Session, b: Session, accepted: bool)
    requires InShape(a) && a.initiator != b.initiator && ReversalSafe(a, b) && a.phase == Closed
    ensures ReversalSafe(RespondToReversal(a, accepted).session, b)
  {
    var intent := AgreedIntent(a, b);
    ClosedAnswer(a, accepted, intent);
    SameLanes(a, RespondToReversal(a, accepted).session, b, b);
    StandingForgets(StandingOf(a, intent), StandingOf(b, intent));
  }

  /** The fields of a connected session that a request reaches. */
  lemma RequestAbsorbed(a: Session, id: nat, around: Surroundings, intent: Intent)
    requires InShape(a) && a.phase == Connected && a.incomingReversal.None?
    ensures a.prompt.None?
    ensures var after := Handled(a, ReversalRequest(id), around);
            SameIdentity(a, after) && StandingOf(after, intent) == StandingOf(a, intent).(incoming := Some(id))
  {
    PostedNothing(Absorbed(Opening(a, around.now), ReversalRequest(id), around));
  }

  /** A reversal request reaches a connected session, which has no other one before its user. */
  lemma RequestArrives(a: Session, b: Session, around: Surroundings)
    requires InShape(a) && a.initiator != b.initiator && ReversalSafe(a, b) && b.outbox != [] && a.phase == Connected
    requires b.outbox[0].SecureFrame? && Carried(b.outbox[0]).ReversalRequest?
    ensures a.prompt.None?
    ensures ReversalSafe(Handled(a, Carried(b.outbox[0]), around), Tail(b))
  {
    var intent := AgreedIntent(a, b);
    var id := Carried(b.outbox[0]).reversalId;
    TailCounts(b, intent);
    assert a.incomingReversal.None? by {
      assert Places(StandingOf(b, intent), StandingOf(a, intent))[0] == id;
    }
    RequestAbsorbed(a, id, around, intent);
    SameLanes(a, Handled(a, Carried(b.outbox[0]), around), b, Tail(b));
    StandingHears(StandingOf(a, intent), StandingOf(b, intent), id, StandingOf(Tail(b), intent).requests);
  }

  /** A decision finds the request it answers. */
  lemma DecisionIsExpected(a: Session, b: Session)
    requires ReversalSafe(a, b) && b.outbox != []
    requires b.outbox[0].SecureFrame? && Carried(b.outbox[0]).ReversalDecision?
    ensures a.outgoingReversal == Some(Carried(b.outbox[0]).reversalId)
  {
    var intent := AgreedIntent(a, b);
    TailCounts(b, intent);
    var places := Places(StandingOf(a, intent), StandingOf(b, intent));
    assert places[|places| - |StandingOf(b, intent).decisions|] == Carried(b.outbox[0]).reversalId;
  }

  lemma DecisionAbsorbed(a: Session, id: nat, accepted: bool, around: Surroundings, intent: Intent)
    requires InShape(a) && a.phase == Connected && a.outgoingReversal == Some(id)
    ensures var after := Handled(a, ReversalDecision(id, accepted), around);
            && SameIdentity(a, after)
            && StandingOf(after, intent) ==
               StandingOf(a, intent).(outgoing := None, role := Turned(a.role, accepted))
  {
    PostedNothing(Absorbed(Opening(a, around.now), ReversalDecision(id, accepted), around));
  }

  lemma DecisionArrives(a: Session, b: Session, around: Surroundings)
    requires InShape(a) && InShape(b) && a.initiator != b.initiator && ReversalSafe(a, b)
    requires b.outbox != [] && a.phase == Connected
    requires b.outbox[0].SecureFrame? && Carried(b.outbox[0]).ReversalDecision?
    ensures ReversalSafe(Handled(a, Carried(b.outbox[0]), around), Tail(b))
  {
    var intent := AgreedIntent(a, b);
    var message := Carried(b.outbox[0]);
    DecisionIsExpected(a, b);
    TailCounts(b, intent);
    DecisionAbsorbed(a, message.reversalId, message.accepted, around, intent);
    SameLanes(a, Handled(a, message, around), b, Tail(b));
    HasStandingRole(a, intent);
    HasStandingRole(b, intent);
    StandingLearns(StandingOf(a, intent), StandingOf(b, intent), message.reversalId,
                   StandingOf(Tail(b), intent).decisions, message.accepted, StandingOf(Tail(b), intent).accepted);
  }

  /** What reaches a closed session can only take a request out of its place. */
  lemma LateArrival(a: Session, after: Session, b: Session)
    requires a.initiator != b.initiator && ReversalSafe(a, b) && b.outbox != []
    requires a.phase == Closed && after.phase == Closed && SameIdentity(a, after) && after.outbox == a.outbox
    requires after.incomingReversal == a.incomingReversal
    requires after.outgoingReversal == a.outgoingReversal ||
             (after.outgoingReversal == None && b.outbox[0].SecureFrame? && Carried(b.outbox[0]).ReversalDecision?)
    ensures ReversalSafe(after, Tail(b))
  {
    var intent := AgreedIntent(a, b);
    SameLanes(a, after, b, Tail(b));
    var z := StandingOf(Tail(b), intent);
    if b.outbox[0].SecureFrame? {
      TailCounts(b, intent);
      StandingLosesHead(StandingOf(a, intent), StandingOf(b, intent), z.requests, z.decisions, z.accepted);
    } else {
      TailStands(b, intent);
    }
  }
}
