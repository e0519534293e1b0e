/** What a pairing leaves in the responder's trust store, and that both users stand behind a connection. */
module Grants {
  import opened Wrappers
  import opened ProtocolContracts
  import opened SessionCryptography
  import opened SessionModel
  import opened ProtocolInvariant
  import opened Steps
  import opened TwoParty
  import opened Protocol
  import opened Guarantees
  import opened OneSide
  import opened PairingHistory
  import Runs = SessionRuns

  // ---------- both approve ----------

  lemma ApprovedPair(a: Session, b: Session)
    requires ProtocolInvariant.Paired(a, b) && a.phase == Connected
    ensures a.localConsent == Some(true) && a.remoteConsent == Some(true) && b.localConsent.Some?
    ensures b.phase != Closed ==> b.localConsent == Some(true) && (b.phase == AwaitingConsent || b.phase == Connected)
  {
  }

  /** A connected end has its own approval and the other end's, which was recorded there first. */
  lemma ConnectedMeansBothApproved(start: World, actions: seq<Action>, w: World, side: Side)
    requires Reached(start, actions, w) && At(w, side).phase == Connected
    ensures At(w, side).localConsent == Some(true) && At(w, side).remoteConsent == Some(true)
    ensures At(w, Other(side)).localConsent.Some?
    ensures At(w, Other(side)).phase != Closed ==> At(w, Other(side)).localConsent == Some(true)
  {
    ReachedSides(start, actions, w, side);
    ApprovedPair(At(w, side), At(w, Other(side)));
  }

  // ---------- the grant ----------

  /** The grant for the other end of this connection. */
  function PeerGrant(a: Session, b: Session): Grant {
    Grant(AgreedIntent(a, b), OwnDevice(b.own), PublicKey(b.own.identity))
  }

  lemma OwnGrantIsPeerGrant(a: Session, b: Session, grant: Grant)
    requires ProtocolInvariant.Paired(a, b) && a.cipher.Some? && Runs.OwnGrant(a, grant)
    ensures grant == PeerGrant(a, b)
  {
  }

  /** Handling a frame writes no grant, or one for the peer. */
  lemma ReceivingGrants(a: Session, frame: Wire, around: Surroundings)
    requires a.phase != AwaitingClientHello && a.phase != AwaitingServerHello
    ensures Runs.GrantsGrow(a, HandleWireMessage(a, frame, around))
  {
    Runs.FrameExtends(a, frame, around);
  }

  /** A session that takes a frame writes no grant, or grants for its peer. */
  lemma TakingGrants(a: Session, b: Session, frame: Wire, around: Surroundings)
    requires ProtocolInvariant.Paired(a, b)
    ensures GrantsPeer(a, HandleWireMessage(a, frame, around), b)
  {
    var after := HandleWireMessage(a, frame, around);
    if a.phase == AwaitingClientHello || a.phase == AwaitingServerHello {
      GreetingGrantsNothing(a, frame, around);
    } else {
      ReceivingGrants(a, frame, around);
      if a.cipher.None? {
        GrantsNeedACipher(a, frame, around);
      } else if |after.grants| > |a.grants| {
        OwnGrantIsPeerGrant(a, b, after.grants[|after.grants| - 1]);
      }
    }
  }

  lemma GrantsNeedACipher(a: Session, frame: Wire, around: Surroundings)
    requires a.phase != AwaitingClientHello && a.phase != AwaitingServerHello && a.cipher.None?
    ensures HandleWireMessage(a, frame, around).grants == a.grants
  {
    assert Dispatch(a, frame, around) == Throw(a);
    ClosingIsSteady(a, false);
  }

  /** The grant a step writes, if any, is for the peer. */
  predicate GrantsPeer(a: Session, after: Session, b: Session) {
    Granted(a, after) ==> after.grants[|after.grants| - 1] == PeerGrant(a, b)
  }

  predicate Granted(before: Session, after: Session) { |after.grants| > |before.grants| }

  lemma AnsweringGrants(a: Session, b: Session, promptId: nat, accepted: bool, entered: Option<Code>, now: int)
    requires ProtocolInvariant.Paired(a, b)
    ensures GrantsPeer(a, RespondToPrompt(a, promptId, accepted, entered, now).session, b)
  {
    var after := RespondToPrompt(a, promptId, accepted, entered, now).session;
    Runs.AnswerExtends(a, promptId, accepted, entered, now);
    if a.cipher.None? {
      AnswerNeedsACipher(a, promptId, accepted, entered, now);
    } else if |after.grants| > |a.grants| {
      OwnGrantIsPeerGrant(a, b, after.grants[|after.grants| - 1]);
    }
  }

  lemma AnswerNeedsACipher(a: Session, promptId: nat, accepted: bool, entered: Option<Code>, now: int)
    requires a.cipher.None?
    ensures RespondToPrompt(a, promptId, accepted, entered, now).session.grants == a.grants
  {
    ReversalAnswerIsSteady(a, accepted);
    var decided := a.(prompt := None, localConsent := Some(accepted));
    assert SendSecure(decided, ConsentDecision(accepted)) == Throw(decided);
  }

  /** The store gets one entry if a grant was written, and stays as it is if none was. */
  predicate StoreFollows(trust: Trust, after: Trust, granted: bool, grant: Grant) {
    if granted
    then after == trust[(grant.device, grant.intent) := grant.key] && IsTrusted(after, grant.device, grant.key, grant.intent)
    else after == trust
  }

  lemma RememberedGrant(trust: Trust, before: Session, after: Session, grant: Grant)
    requires Granted(before, after) ==> after.grants[|after.grants| - 1] == grant
    ensures StoreFollows(trust, Remembered(trust, before, after), Granted(before, after), grant)
  {
  }

  lemma AnsweredWorld(w: World, side: Side, promptId: nat, accepted: bool, entered: Option<Code>)
    ensures var after := Exec(w, Respond(side, promptId, accepted, entered));
            && At(after, side) == RespondToPrompt(At(w, side), promptId, accepted, entered, w.now).session
            && after.trust == Remembered(w.trust, At(w, side), At(after, side))
  {
  }

  lemma StoreFollowsGrants(w: World, after: World, side: Side)
    requires GrantsPeer(At(w, side), At(after, side), At(w, Other(side))) && after.trust == Remembered(w.trust, At(w, side), At(after, side))
    ensures StoreFollows(w.trust, after.trust, Granted(At(w, side), At(after, side)),
                         PeerGrant(At(w, side), At(w, Other(side))))
  {
    RememberedGrant(w.trust, At(w, side), At(after, side), PeerGrant(At(w, side), At(w, Other(side))));
  }

  lemma DeliveredWorld(w: World, side: Side)
    ensures Exec(w, Deliver(side)).trust == Remembered(w.trust, At(w, side), At(Exec(w, Deliver(side)), side))
  {
  }

  lemma DeliveredSession(w: World, side: Side)
    ensures var after := At(Exec(w, Deliver(side)), side);
            if At(w, Other(side)).outbox == [] then after == At(w, side)
            else after == HandleWireMessage(At(w, side), At(w, Other(side)).outbox[0], SurroundingsAt(w, side))
  {
  }

  lemma DeliveredGrant(w: World, side: Side)
    requires ProtocolInvariant.Paired(At(w, side), At(w, Other(side)))
    ensures var after := Exec(w, Deliver(side));
            StoreFollows(w.trust, after.trust, Granted(At(w, side), At(after, side)),
                         PeerGrant(At(w, side), At(w, Other(side))))
  {
    DeliveredWorld(w, side);
    DeliveredSession(w, side);
    if At(w, Other(side)).outbox != [] {
      TakingGrants(At(w, side), At(w, Other(side)), At(w, Other(side)).outbox[0], SurroundingsAt(w, side));
    }
    StoreFollowsGrants(w, Exec(w, Deliver(side)), side);
  }

  /**
   When a pairing calls for the trust store, the store ends up with exactly one entry set: the other
   end's device, in the agreed direction, with the key of the identity that signed the hello.  No
   other handled frame or answered prompt changes the store.
   */
  lemma GrantReachesTheStore(start: World, actions: seq<Action>, w: World, side: Side, action: Action)
    requires Reached(start, actions, w)
    requires action == Deliver(side) || (action.Respond? && action.side == side)
    ensures var after := Exec(w, action);
            StoreFollows(w.trust, after.trust, Granted(At(w, side), At(after, side)),
                         PeerGrant(At(w, side), At(w, Other(side))))
  {
    ReachedSides(start, actions, w, side);
    match action
    case Deliver(_) => DeliveredGrant(w, side);
    case Respond(_, promptId, accepted, entered) =>
      AnsweringGrants(At(w, side), At(w, Other(side)), promptId, accepted, entered, w.now);
      AnsweredWorld(w, side, promptId, accepted, entered);
      StoreFollowsGrants(w, Exec(w, action), side);
  }

  // ---------- how a connected responder was paired ----------

  /** The responder's store vouched for the hello that a run brought it. */
  ghost predicate VouchedAt(start: World, actions: seq<Action>)
    decreases |actions|
  {
    actions != [] &&
    (VouchedAt(start, actions[..|actions| - 1]) ||
     BringsVouchedHello(Run(start, actions[..|actions| - 1]), actions[|actions| - 1]))
  }

  predicate BringsVouchedHello(w: World, action: Action) {
    EventAt(w, action, AtResponder).Some? &&
    TakesVouchedHello(At(w, AtResponder), EventAt(w, action, AtResponder).value)
  }

  lemma AloneStaysRecorded(s: Session, after: Session, vouched: bool)
    requires Recorded(s, vouched) && LeftAlone(s, after)
    ensures Recorded(after, vouched)
  {
  }

  lemma OrderlyLeavesToTheStore(w: World, action: Action, event: Runs.Event)
    requires Invariant(w) && Orderly(w, action) && EventAt(w, action, AtResponder) == Some(event)
    ensures LeftToTheStore(At(w, AtResponder), event)
  {
    if At(w, AtResponder).suspended > 0 {
      assert !Disturbs(w, action, AtResponder);
    }
  }

  lemma StepIsRecorded(w: World, action: Action, vouched: bool)
    requires Invariant(w) && Orderly(w, action) && Recorded(At(w, AtResponder), vouched)
    ensures Recorded(At(Exec(w, action), AtResponder), vouched || BringsVouchedHello(w, action))
  {
    StepAtSide(w, action, AtResponder);
    match EventAt(w, action, AtResponder)
    case Some(event) =>
      OrderlyLeavesToTheStore(w, action, event);
      RecordedStep(At(w, AtResponder), event, vouched);
    case None => AloneStaysRecorded(At(w, AtResponder), At(Exec(w, action), AtResponder), vouched);
  }

  lemma StartIsRecorded(start: World)
    requires IsInitial(start)
    ensures Recorded(At(start, AtResponder), false)
  {
  }

  lemma {:induction false} RunIsRecorded(start: World, actions: seq<Action>)
    requires IsInitial(start) && OrderlyRun(start, actions)
    ensures Recorded(At(Run(start, actions), AtResponder), VouchedAt(start, actions))
    decreases |actions|
  {
    if actions == [] {
      StartIsRecorded(start);
    } else {
      var front, last := actions[..|actions| - 1], actions[|actions| - 1];
      RunIsRecorded(start, front);
      ReachableIsSafe(start, front);
      StepIsRecorded(Run(start, front), last, VouchedAt(start, front));
    }
  }

  lemma RecordedGrants(a: Session, b: Session, vouched: bool)
    requires ProtocolInvariant.Paired(a, b) && Recorded(a, vouched) && a.phase == Connected
    ensures a.grants == if vouched then [] else [PeerGrant(a, b)]
  {
    if !vouched {
      OwnGrantIsPeerGrant(a, b, a.grants[0]);
    }
  }

  /**
   A connected responder whose store vouched for the hello it took has written no grant; any other,
   paired by its user's code, has written exactly one, for the other end of this connection.
   */
  lemma ConnectedResponderGrants(start: World, actions: seq<Action>, w: World)
    requires Reached(start, actions, w) && At(w, AtResponder).phase == Connected
    ensures At(w, AtResponder).grants ==
            if VouchedAt(start, actions) then [] else [PeerGrant(At(w, AtResponder), At(w, AtInitiator))]
  {
    ReachedSides(start, actions, w, AtResponder);
    RunIsRecorded(start, actions);
    RecordedGrants(At(w, AtResponder), At(w, AtInitiator), VouchedAt(start, actions));
  }

  // ---------- the entry stays in the store ----------

  lemma InitiatorKeepsGrants(w: World, action: Action)
    requires Invariant(w)
    ensures At(Exec(w, action), AtInitiator).grants == At(w, AtInitiator).grants
  {
    var s := At(w, AtInitiator);
    StepAtSide(w, action, AtInitiator);
    match EventAt(w, action, AtInitiator)
    case Some(event) =>
      if event.Receive? && Runs.Greeting(s) {
        GreetingGrantsNothing(s, event.frame, event.around);
      } else {
        InitiatorGrantsNothing(s, event);
      }
    case None =>
  }

  /** The actions in which a responder can come to write its grant. */
  predicate MayGrant(action: Action) { (action.Deliver? || action.Respond?) && action.side == AtResponder }

  lemma OthersWriteNoGrant(w: World, action: Action)
    requires !MayGrant(action)
    ensures At(Exec(w, action), AtResponder).grants == At(w, AtResponder).grants
  {
    var s := At(w, AtResponder);
    StepAtSide(w, action, AtResponder);
    match EventAt(w, action, AtResponder)
    case Some(event) =>
      if event.TrustStored? {
        StoredPairs(s, event.now);
      } else {
        OthersAreSteady(s, event);
      }
    case None =>
  }

  lemma InitiatorLeavesTrust(w: World, action: Action)
    requires (action.Deliver? || action.Respond?) && action.side == AtInitiator
    requires At(Exec(w, action), AtInitiator).grants == At(w, AtInitiator).grants
    ensures Exec(w, action).trust == w.trust
  {
    match action
    case Deliver(side) => DeliveredWorld(w, side);
    case Respond(side, promptId, accepted, entered) => AnsweredWorld(w, side, promptId, accepted, entered);
  }

  lemma PlainLeavesTrust(w: World, action: Action)
    requires !action.Deliver? && !action.Respond? && !action.ReplaceTrust?
    ensures Exec(w, action).trust == w.trust
  {
  }

  /** Where nothing is granted, the store changes only when it is replaced. */
  lemma OthersLeaveTrust(w: World, action: Action)
    requires Invariant(w) && !MayGrant(action) && !action.ReplaceTrust?
    ensures Exec(w, action).trust == w.trust
  {
    if action.Deliver? || action.Respond? {
      InitiatorKeepsGrants(w, action);
      InitiatorLeavesTrust(w, action);
    } else {
      PlainLeavesTrust(w, action);
    }
  }

  lemma GrantingRemembers(w: World, action: Action)
    requires MayGrant(action)
    ensures Exec(w, action).trust == Remembered(w.trust, At(w, AtResponder), At(Exec(w, action), AtResponder))
  {
    match action
    case Deliver(side) => DeliveredWorld(w, side);
    case Respond(side, promptId, accepted, entered) => AnsweredWorld(w, side, promptId, accepted, entered);
  }

  /** The store holds the entry that the grant sets. */
  predicate HoldsEntry(trust: Trust, grant: Grant) { IsTrusted(trust, grant.device, grant.key, grant.intent) }

  /** One step of a responder that has written at most one grant: it writes it and the store gets the entry, or both stay. */
  predicate EntryStep(before: seq<Grant>, after: seq<Grant>, trust: Trust, next: Trust, action: Action) {
    if before == [] && after != [] then MayGrant(action) && |after| == 1 && HoldsEntry(next, after[0])
    else after == before && (next == trust || action.ReplaceTrust?)
  }

  lemma RememberedEntry(trust: Trust, before: Session, after: Session)
    requires |after.grants| <= 1 && |before.grants| <= |after.grants| && after.grants[..|before.grants|] == before.grants
    ensures if before.grants == [] && after.grants != [] then HoldsEntry(Remembered(trust, before, after), after.grants[0])
            else after.grants == before.grants && Remembered(trust, before, after) == trust
  {
    assert |before.grants| == |after.grants| ==> after.grants[..|before.grants|] == after.grants;
  }

  lemma GrantsOnlyGrow(w: World, action: Action, vouched: bool)
    requires Recorded(At(w, AtResponder), vouched)
    ensures var before, after := At(w, AtResponder).grants, At(Exec(w, action), AtResponder).grants;
            |before| <= |after| && after[..|before|] == before
  {
    var s := At(w, AtResponder);
    StepAtSide(w, action, AtResponder);
    match EventAt(w, action, AtResponder)
    case Some(event) =>
      if event.Receive? && Runs.Greeting(s) {
        assert s.grants == [];
      } else {
        Runs.EventExtends(s, event);
      }
    case None =>
  }

  lemma StepKeepsEntry(w: World, action: Action, vouched: bool)
    requires Invariant(w) && Orderly(w, action) && Recorded(At(w, AtResponder), vouched)
    ensures EntryStep(At(w, AtResponder).grants, At(Exec(w, action), AtResponder).grants, w.trust, Exec(w, action).trust, action)
  {
    if MayGrant(action) {
      StepIsRecorded(w, action, vouched);
      GrantsOnlyGrow(w, action, vouched);
      GrantingRemembers(w, action);
      RememberedEntry(w.trust, At(w, AtResponder), At(Exec(w, action), AtResponder));
    } else {
      OthersWriteNoGrant(w, action);
      if !action.ReplaceTrust? {
        OthersLeaveTrust(w, action);
      }
    }
  }

  /** Action `j` of the run wrote this grant, and unless the store was replaced after it, it still holds the entry. */
  ghost predicate WrittenAt(start: World, actions: seq<Action>, j: nat, grants: seq<Grant>, trust: Trust) {
    && j < |actions| && MayGrant(actions[j]) && |grants| == 1
    && At(Run(start, actions[..j]), AtResponder).grants == []
    && ((forall k | j < k < |actions| :: !actions[k].ReplaceTrust?) ==> HoldsEntry(trust, grants[0]))
  }

  lemma WrittenJustNow(start: World, actions: seq<Action>, grants: seq<Grant>, trust: Trust)
    requires actions != [] && |grants| == 1 && MayGrant(actions[|actions| - 1]) && HoldsEntry(trust, grants[0])
    requires At(Run(start, actions[..|actions| - 1]), AtResponder).grants == []
    ensures WrittenAt(start, actions, |actions| - 1, grants, trust)
  {
  }

  lemma WrittenEarlier(start: World, actions: seq<Action>, j: nat, grants: seq<Grant>, trust: Trust, next: Trust)
    requires actions != [] && WrittenAt(start, actions[..|actions| - 1], j, grants, trust)
    requires next == trust || actions[|actions| - 1].ReplaceTrust?
    ensures WrittenAt(start, actions, j, grants, next)
  {
    var front := actions[..|actions| - 1];
    assert front[..j] == actions[..j] && front[j] == actions[j];
    assert forall k | j < k < |front| :: front[k] == actions[k];
  }

  lemma WrittenByNow(start: World, actions: seq<Action>, before: seq<Grant>, after: seq<Grant>, trust: Trust, next: Trust,
                     earlier: nat) returns (j: nat)
    requires actions != [] && after != [] && EntryStep(before, after, trust, next, actions[|actions| - 1])
    requires before == At(Run(start, actions[..|actions| - 1]), AtResponder).grants
    requires before != [] ==> WrittenAt(start, actions[..|actions| - 1], earlier, before, trust)
    ensures WrittenAt(start, actions, j, after, next)
  {
    if before == [] {
      j := |actions| - 1;
      WrittenJustNow(start, actions, after, next);
    } else {
      j := earlier;
      WrittenEarlier(start, actions, earlier, before, trust, next);
    }
  }

  lemma EntryAfter(start: World, front: seq<Action>, last: Action, w: World)
    requires IsInitial(start) && OrderlyRun(start, front) && w == Run(start, front) && Orderly(w, last)
    ensures EntryStep(At(w, AtResponder).grants, At(Exec(w, last), AtResponder).grants, w.trust, Exec(w, last).trust, last)
  {
    RunIsRecorded(start, front);
    ReachableIsSafe(start, front);
    StepKeepsEntry(w, last, VouchedAt(start, front));
  }

  /** The grant of a responder was written at some point, and the store holds its entry ever since, until it is replaced. */
  lemma {:induction false} GrantStaysRemembered(start: World, actions: seq<Action>) returns (j: nat)
    requires IsInitial(start) && OrderlyRun(start, actions)
    requires At(Run(start, actions), AtResponder).grants != []
    ensures WrittenAt(start, actions, j, At(Run(start, actions), AtResponder).grants, Run(start, actions).trust)
    decreases |actions|
  {
    if actions == [] {
      assert false;
    } else {
      var front, last := actions[..|actions| - 1], actions[|actions| - 1];
      var w := Run(start, front);
      var earlier: nat := 0;
      if At(w, AtResponder).grants != [] {
        earlier := GrantStaysRemembered(start, front);
      }
      EntryAfter(start, front, last, w);
      j := WrittenByNow(start, actions, At(w, AtResponder).grants, At(Exec(w, last), AtResponder).grants,
                        w.trust, Exec(w, last).trust, earlier);
    }
  }

  /**
   A pairing by code is remembered: a connected responder whose store did not vouch for the hello
   wrote, at one delivery or answered prompt, the grant for the other end of this connection, and unless
   the store was replaced since, the other end is trusted now in the agreed direction.
   */
  lemma PairingByCodeIsRemembered(start: World, actions: seq<Action>, w: World) returns (j: nat)
    requires Reached(start, actions, w) && At(w, AtResponder).phase == Connected && !VouchedAt(start, actions)
    ensures WrittenAt(start, actions, j, [PeerGrant(At(w, AtResponder), At(w, AtInitiator))], w.trust)
  {
    ConnectedResponderGrants(start, actions, w);
    j := GrantStaysRemembered(start, actions);
  }
}
