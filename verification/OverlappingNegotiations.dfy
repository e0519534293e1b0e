/**
 A negotiation that an end begins while another is not finished.  For each end on its own, whatever the
 other one sends: exactly when every continuation still hands over each candidate after the description
 of its generation.
 */
module OverlappingNegotiations {
  import opened Wrappers
  import opened WebRtcMediaSession

  // ---------- one end on its own ----------

  /** What happens at an end besides the start of a negotiation. */
  datatype Move = Gathers(candidate: nat) | Resumes(k: nat) | Receives | Takes(signal: Signal)

  /** The offer of a new generation, which starts a negotiation at the viewer. */
  predicate IsNewOffer(m: Media, signal: Signal) {
    m.viewer && signal.Description? && m.generation != Some(signal.generation)
  }

  function Moved(m: Media, move: Move): Media {
    match move
    case Gathers(candidate) => Gathered(m, candidate)
    case Resumes(k) => LocalStep(m, k)
    case Receives => RemoteStep(m)
    case Takes(signal) => if IsNewOffer(m, signal) then m else Take(m, signal)
  }

  function After(m: Media, moves: seq<Move>): Media {
    if moves == [] then m else Moved(After(m, moves[..|moves| - 1]), moves[|moves| - 1])
  }

  /** A sharer begins an offer; a viewer takes one. */
  function Started(m: Media, generation: nat): Media {
    if m.viewer then Take(m, Description(generation)) else Begin(m, generation)
  }

  /** Negotiations started at any moment, each with a generation that was never used. */
  datatype Step = Starts | Goes(move: Move)

  /** An end and the next unused generation. */
  datatype End = End(media: Media, next: nat)

  function Reached(viewer: bool, steps: seq<Step>): End {
    if steps == [] then End(FreshMedia(viewer), 0)
    else
      var before := Reached(viewer, steps[..|steps| - 1]);
      match steps[|steps| - 1]
      case Starts => End(Started(before.media, before.next), before.next + 1)
      case Goes(move) => End(Moved(before.media, move), before.next)
  }

  // ---------- suspended sends ----------

  lemma WithoutIsPart(sends: seq<Sending>, k: nat)
    requires k < |sends|
    ensures forall send | send in Without(sends, k) :: send in sends
  {
  }

  lemma UpdatedIsPart(sends: seq<Sending>, k: nat, changed: Sending)
    requires k < |sends|
    ensures forall send | send in sends[k := changed] :: send in sends || send == changed
  {
  }

  lemma {:induction false} SurvivingIsPart(sends: seq<Sending>)
    ensures forall send :: send in Surviving(sends) <==> send in sends && !send.stage.Preparing?
    decreases |sends|
  {
    if sends != [] {
      var front, last := sends[..|sends| - 1], sends[|sends| - 1];
      SurvivingIsPart(front);
      assert sends == front + [last];
    }
  }

  // ---------- what receiving does to sending ----------

  /** What an end sends is as it was, and so is everything that decides it. */
  predicate SameSending(m: Media, after: Media) {
    && after.viewer == m.viewer && after.generation == m.generation && after.sent == m.sent
    && after.pendingLocal == m.pendingLocal && after.announced == m.announced
    && after.localDescribed == m.localDescribed && after.sends == m.sends
  }

  lemma TakingLeavesSending(m: Media, signal: Signal)
    requires !IsNewOffer(m, signal)
    ensures SameSending(m, Take(m, signal))
  {
  }

  /** A viewer that has added the remote candidates goes on to answer; otherwise receiving leaves sending alone. */
  lemma ReceivingLeavesSending(m: Media)
    ensures var after := RemoteStep(m);
            SameSending(m, after) ||
            (m.generation.Some? && after.sends == m.sends + [Sending(m.generation.value, Preparing)] &&
             SameSending(m, after.(sends := m.sends)))
  {
  }

  // ---------- generations are older than the next one ----------

  predicate OlderSignals(signals: seq<Signal>, next: nat) {
    forall k | 0 <= k < |signals| :: signals[k].Candidate? && signals[k].generation < next
  }

  predicate OlderSend(send: Sending, viewer: bool, localDescribed: bool, next: nat) {
    && send.generation < next
    && (send.stage.Announcing? ==> viewer || localDescribed)
    && (send.stage.Flushing? ==> send.stage.rest != [] && OlderSignals(send.stage.rest, next) && (viewer || localDescribed))
  }

  predicate IsOlder(generation: Option<nat>, next: nat) { generation.Some? ==> generation.value < next }

  /** What an end has in hand is of generations below the next one. */
  predicate Older(m: Media, next: nat) {
    && IsOlder(m.generation, next) && IsOlder(Current(m.sent), next) && OlderSignals(m.pendingLocal, next)
    && forall send | send in m.sends :: OlderSend(send, m.viewer, m.localDescribed, next)
  }

  lemma OlderLater(m: Media, next: nat)
    requires Older(m, next)
    ensures Older(m, next + 1)
  {
    forall send | send in m.sends ensures OlderSend(send, m.viewer, m.localDescribed, next + 1) {
      assert OlderSend(send, m.viewer, m.localDescribed, next);
    }
  }

  lemma OlderFlush(m: Media, k: nat, signals: seq<Signal>, next: nat)
    requires Older(m, next) && k < |m.sends| && OlderSignals(signals, next) && (m.viewer || m.localDescribed)
    ensures Older(Flush(m, k, signals), next)
  {
    if signals != [] {
      OneSignalMore(m.sent, signals[0], signals[0]);
    }
    if |signals| <= 1 {
      WithoutIsPart(m.sends, k);
      if |signals| == 1 {
        assert signals == [signals[0]];
      }
    } else {
      assert m.sends[k] in m.sends;
      UpdatedIsPart(m.sends, k, m.sends[k].(stage := Flushing(signals[1..])));
    }
  }

  lemma OlderDescribed(m: Media, k: nat, next: nat)
    requires Older(m, next) && k < |m.sends| && m.sends[k].stage.Preparing?
    ensures Older(LocalStep(m, k), next)
  {
    var after := LocalStep(m, k);
    assert m.sends[k] in m.sends;
    UpdatedIsPart(m.sends, k, m.sends[k].(stage := Announcing));
    OneSignalMore(m.sent, Description(m.sends[k].generation), Description(0));
    forall send | send in after.sends ensures OlderSend(send, after.viewer, after.localDescribed, next) {
      assert send in m.sends || send == m.sends[k].(stage := Announcing);
    }
  }

  lemma OlderResumed(m: Media, k: nat, next: nat)
    requires Older(m, next)
    ensures Older(LocalStep(m, k), next)
  {
    if k < |m.sends| {
      assert OlderSend(m.sends[k], m.viewer, m.localDescribed, next) by {
        assert m.sends[k] in m.sends;
      }
      match m.sends[k].stage
      case Preparing => OlderDescribed(m, k, next);
      case Announcing => OlderFlush(m.(announced := true, pendingLocal := []), k, m.pendingLocal, next);
      case Flushing(rest) => OlderFlush(m, k, rest, next);
    }
  }

  lemma OlderGathered(m: Media, candidate: nat, next: nat)
    requires Older(m, next)
    ensures Older(Gathered(m, candidate), next)
  {
    if m.generation.Some? {
      OneSignalMore(m.sent, Candidate(m.generation.value, candidate), Description(0));
    }
  }

  lemma OlderStays(m: Media, after: Media, next: nat)
    requires Older(m, next) && SameSending(m, after)
    ensures Older(after, next)
  {
  }

  lemma OlderAnswering(m: Media, after: Media, next: nat)
    requires Older(m, next) && m.generation.Some? && SameSending(m, after.(sends := m.sends))
    requires after.sends == m.sends + [Sending(m.generation.value, Preparing)]
    ensures Older(after, next)
  {
  }

  lemma OlderMoved(m: Media, move: Move, next: nat)
    requires Older(m, next)
    ensures Older(Moved(m, move), next)
  {
    match move
    case Gathers(candidate) => OlderGathered(m, candidate, next);
    case Resumes(k) => OlderResumed(m, k, next);
    case Receives =>
      ReceivingLeavesSending(m);
      if SameSending(m, RemoteStep(m)) {
        OlderStays(m, RemoteStep(m), next);
      } else {
        OlderAnswering(m, RemoteStep(m), next);
      }
    case Takes(signal) =>
      if !IsNewOffer(m, signal) {
        TakingLeavesSending(m, signal);
        OlderStays(m, Take(m, signal), next);
      }
  }

  lemma OlderStarted(m: Media, next: nat)
    requires Older(m, next)
    ensures Older(Started(m, next), next + 1)
  {
    OlderLater(m, next);
    SurvivingIsPart(m.sends);
    var after := Started(m, next);
    forall send | send in after.sends ensures OlderSend(send, after.viewer, after.localDescribed, next + 1) {
      assert send in m.sends || send == Sending(next, Preparing);
    }
  }

  lemma {:induction false} ReachedIsOlder(viewer: bool, steps: seq<Step>)
    ensures var e := Reached(viewer, steps); Older(e.media, e.next) && e.media.viewer == viewer
    decreases |steps|
  {
    if steps != [] {
      var before := Reached(viewer, steps[..|steps| - 1]);
      ReachedIsOlder(viewer, steps[..|steps| - 1]);
      match steps[|steps| - 1]
      case Starts => OlderStarted(before.media, before.next);
      case Goes(move) =>
        OlderMoved(before.media, move, before.next);
        MovedStaysRole(before.media, move);
    }
  }

  lemma MovedStaysRole(m: Media, move: Move)
    ensures Moved(m, move).viewer == m.viewer
  {
  }

  // ---------- continuations that keep the order ----------

  predicate SendFits(send: Sending, generation: nat) {
    match send.stage
    case Preparing => send.generation == generation
    case Announcing => true
    case Flushing(rest) => OfGeneration(rest, Some(generation))
  }

  /** Before the new description is out no candidate can be: none is being flushed, and none would be sent or flushed. */
  predicate HoldsBack(m: Media) {
    && (forall send | send in m.sends :: !send.stage.Flushing?)
    && (((forall send | send in m.sends :: !send.stage.Announcing?) && !m.announced) ||
        (!m.localDescribed && m.pendingLocal == []))
  }

  /** The order is kept, and all that is still to be sent is of this generation. */
  predicate InOrder(m: Media, generation: nat) {
    && m.generation == Some(generation) && Blocks(m.sent) && OfGeneration(m.pendingLocal, Some(generation))
    && (forall send | send in m.sends :: SendFits(send, generation))
    && (Current(m.sent) == Some(generation) || HoldsBack(m))
  }

  lemma GatheredInOrder(m: Media, candidate: nat, generation: nat)
    requires InOrder(m, generation)
    ensures InOrder(Gathered(m, candidate), generation)
  {
    OneSignalMore(m.sent, Candidate(generation, candidate), Description(0));
  }

  lemma DescribedInOrder(m: Media, k: nat, generation: nat)
    requires InOrder(m, generation) && k < |m.sends| && m.sends[k].stage.Preparing?
    ensures InOrder(LocalStep(m, k), generation)
  {
    assert m.sends[k] in m.sends;
    UpdatedIsPart(m.sends, k, m.sends[k].(stage := Announcing));
    OneSignalMore(m.sent, Description(generation), Description(0));
  }

  lemma FlushInOrder(m: Media, k: nat, signals: seq<Signal>, generation: nat)
    requires InOrder(m, generation) && k < |m.sends| && Current(m.sent) == Some(generation)
    requires OfGeneration(signals, Some(generation))
    ensures InOrder(Flush(m, k, signals), generation)
  {
    if signals != [] {
      OneSignalMore(m.sent, signals[0], Description(0));
    }
    if |signals| <= 1 {
      WithoutIsPart(m.sends, k);
      if |signals| == 1 {
        assert signals == [signals[0]];
      }
    } else {
      UpdatedIsPart(m.sends, k, m.sends[k].(stage := Flushing(signals[1..])));
    }
  }

  /** A surviving send learns that its description has arrived; it has nothing to flush. */
  lemma LateAnnouncement(m: Media, k: nat, generation: nat)
    requires InOrder(m, generation) && k < |m.sends| && m.sends[k].stage.Announcing?
    requires Current(m.sent) != Some(generation)
    ensures InOrder(LocalStep(m, k), generation)
  {
    assert m.sends[k] in m.sends;
    WithoutIsPart(m.sends, k);
  }

  lemma ResumedInOrder(m: Media, k: nat, generation: nat)
    requires InOrder(m, generation)
    ensures InOrder(LocalStep(m, k), generation)
  {
    if k < |m.sends| {
      assert m.sends[k] in m.sends;
      match m.sends[k].stage
      case Preparing => DescribedInOrder(m, k, generation);
      case Announcing =>
        if Current(m.sent) == Some(generation) {
          FlushInOrder(m.(announced := true, pendingLocal := []), k, m.pendingLocal, generation);
        } else {
          LateAnnouncement(m, k, generation);
        }
      case Flushing(rest) => FlushInOrder(m, k, rest, generation);
    }
  }

  lemma StaysInOrder(m: Media, after: Media, generation: nat)
    requires InOrder(m, generation) && SameSending(m, after)
    ensures InOrder(after, generation)
  {
  }

  lemma AnsweringInOrder(m: Media, after: Media, generation: nat)
    requires InOrder(m, generation) && SameSending(m, after.(sends := m.sends))
    requires after.sends == m.sends + [Sending(generation, Preparing)]
    ensures InOrder(after, generation)
  {
  }

  lemma MovedInOrder(m: Media, move: Move, generation: nat)
    requires InOrder(m, generation)
    ensures InOrder(Moved(m, move), generation)
  {
    match move
    case Gathers(candidate) => GatheredInOrder(m, candidate, generation);
    case Resumes(k) => ResumedInOrder(m, k, generation);
    case Receives =>
      ReceivingLeavesSending(m);
      if SameSending(m, RemoteStep(m)) {
        StaysInOrder(m, RemoteStep(m), generation);
      } else {
        AnsweringInOrder(m, RemoteStep(m), generation);
      }
    case Takes(signal) =>
      if !IsNewOffer(m, signal) {
        TakingLeavesSending(m, signal);
        StaysInOrder(m, Take(m, signal), generation);
      }
  }

  lemma {:induction false} ContinuedInOrder(m: Media, moves: seq<Move>, generation: nat)
    requires InOrder(m, generation)
    ensures InOrder(After(m, moves), generation)
    decreases |moves|
  {
    if moves != [] {
      ContinuedInOrder(m, moves[..|moves| - 1], generation);
      MovedInOrder(After(m, moves[..|moves| - 1]), moves[|moves| - 1], generation);
    }
  }

  // ---------- the condition ----------

  /**
   What an end has unfinished that a new negotiation must not meet: at a sharer any suspended send; at a
   viewer, whose new connection silences the old one, only candidates still to be flushed.
   */
  predicate Owes(m: Media) {
    if m.viewer then exists send :: send in m.sends && send.stage.Flushing? else m.sends != []
  }

  lemma StartedInOrder(m: Media, next: nat)
    requires Older(m, next) && Blocks(m.sent) && !Owes(m)
    ensures InOrder(Started(m, next), next)
  {
    SurvivingIsPart(m.sends);
  }

  // ---------- continuations that break the order ----------

  lemma OneMove(m: Media, first: Move)
    ensures After(m, [first]) == Moved(m, first)
  {
    assert [first][..0] == [];
  }

  lemma TwoMoves(m: Media, first: Move, second: Move)
    ensures After(m, [first, second]) == Moved(Moved(m, first), second)
  {
    OneMove(m, first);
    assert [first, second][..1] == [first];
  }

  lemma ThreeMoves(m: Media, first: Move, second: Move, third: Move)
    ensures After(m, [first, second, third]) == Moved(Moved(Moved(m, first), second), third)
  {
    TwoMoves(m, first, second);
    assert [first, second, third][..2] == [first, second];
  }

  lemma FourMoves(m: Media, first: Move, second: Move, third: Move, fourth: Move)
    ensures After(m, [first, second, third, fourth]) == Moved(Moved(Moved(Moved(m, first), second), third), fourth)
  {
    ThreeMoves(m, first, second, third);
    assert [first, second, third, fourth][..3] == [first, second, third];
  }

  /** A candidate after the description of another generation, or after none. */
  lemma CandidateBreaks(signals: seq<Signal>, signal: Signal)
    requires signal.Candidate? && Current(signals) != Some(signal.generation)
    ensures !Blocks(signals + [signal])
  {
    OneSignalMore(signals, signal, signal);
  }

  /** An announced end with a local description sends its next candidate at once. */
  lemma GatheringBreaks(m: Media, generation: nat)
    requires m.generation == Some(generation) && m.announced && m.localDescribed && Current(m.sent) != Some(generation)
    ensures !Blocks(Moved(m, Gathers(0)).sent)
  {
    CandidateBreaks(m.sent, Candidate(generation, 0));
  }

  /** The sharer's first send still waits for its description to arrive: that announces the new generation too early. */
  lemma AnnouncingBreaks(m: Media, generation: nat)
    requires m.generation == Some(generation) && m.localDescribed && m.pendingLocal == []
    requires m.sends != [] && m.sends[0].stage.Announcing? && Current(m.sent) != Some(generation)
    ensures !Blocks(After(m, [Resumes(0), Gathers(0)]).sent)
  {
    TwoMoves(m, Resumes(0), Gathers(0));
    GatheringBreaks(Moved(m, Resumes(0)), generation);
  }

  lemma PreparingBreaks(m: Media, generation: nat)
    requires m.generation == Some(generation) && m.pendingLocal == []
    requires m.sends != [] && m.sends[0].stage.Preparing? && m.sends[0].generation != generation
    ensures !Blocks(After(m, [Resumes(0), Resumes(0), Gathers(0)]).sent)
  {
    var described := Moved(m, Resumes(0));
    OneSignalMore(m.sent, Description(m.sends[0].generation), Description(0));
    AnnouncingBreaks(described, generation);
    TwoMoves(described, Resumes(0), Gathers(0));
    ThreeMoves(m, Resumes(0), Resumes(0), Gathers(0));
  }

  /** An old candidate is flushed after the new description. */
  lemma FlushingBreaks(m: Media, k: nat, last: nat, generation: nat)
    requires k < last < |m.sends| && m.sends[k].stage.Flushing? && m.sends[last] == Sending(generation, Preparing)
    requires var rest := m.sends[k].stage.rest; rest != [] && rest[0].Candidate? && rest[0].generation != generation
    ensures !Blocks(After(m, [Resumes(last), Resumes(k)]).sent)
  {
    var rest := m.sends[k].stage.rest;
    var described := Moved(m, Resumes(last));
    TwoMoves(m, Resumes(last), Resumes(k));
    OneSignalMore(m.sent, Description(generation), Description(0));
    assert described.sends[k] == m.sends[k];
    if |rest| == 1 {
      assert rest == [rest[0]];
    }
    assert Moved(described, Resumes(k)).sent == described.sent + [rest[0]];
    CandidateBreaks(described.sent, rest[0]);
  }

  lemma SharerBreaks(m: Media, next: nat) returns (moves: seq<Move>)
    requires Older(m, next) && !m.viewer && m.sends != []
    ensures !Blocks(After(Started(m, next), moves).sent)
  {
    var started := Started(m, next);
    assert OlderSend(m.sends[0], m.viewer, m.localDescribed, next) by {
      assert m.sends[0] in m.sends;
    }
    assert started.sends[0] == m.sends[0];
    match m.sends[0].stage
    case Preparing =>
      moves := [Resumes(0), Resumes(0), Gathers(0)];
      PreparingBreaks(started, next);
    case Announcing =>
      moves := [Resumes(0), Gathers(0)];
      AnnouncingBreaks(started, next);
    case Flushing(rest) =>
      moves := [Resumes(|m.sends|), Resumes(0)];
      FlushingBreaks(started, 0, |m.sends|, next);
  }

  /** The viewer adds nothing and goes on to answer the new offer. */
  lemma ViewerGoesOn(m: Media, next: nat)
    requires m.viewer && m.generation != Some(next)
    ensures var ready := Moved(Moved(Started(m, next), Receives), Receives);
            && ready.sends == Surviving(m.sends) + [Sending(next, Preparing)] && ready.sent == m.sent
  {
  }

  lemma ViewerBreaks(m: Media, next: nat) returns (moves: seq<Move>)
    requires Older(m, next) && m.viewer && Owes(m)
    ensures !Blocks(After(Started(m, next), moves).sent)
  {
    var send :| send in m.sends && send.stage.Flushing?;
    SurvivingIsPart(m.sends);
    var kept := Surviving(m.sends);
    var k :| 0 <= k < |kept| && kept[k] == send;
    assert OlderSend(send, m.viewer, m.localDescribed, next);
    var started := Started(m, next);
    var ready := Moved(Moved(started, Receives), Receives);
    ViewerGoesOn(m, next);
    FlushingBreaks(ready, k, |kept|, next);
    TwoMoves(ready, Resumes(|kept|), Resumes(k));
    FourMoves(started, Receives, Receives, Resumes(|kept|), Resumes(k));
    moves := [Receives, Receives, Resumes(|kept|), Resumes(k)];
  }

  // ---------- the theorem ----------

  /**
   An end in whatever state it can come to, with its signals in order so far, starts a negotiation.  In
   every continuation each candidate follows the description of its generation if and only if the end
   owes nothing of an earlier one: a sharer no suspended send, a viewer no candidate still to be flushed.
   */
  lemma OrderIsKeptIff(viewer: bool, steps: seq<Step>)
    requires Blocks(Reached(viewer, steps).media.sent)
    ensures var e := Reached(viewer, steps);
            (forall moves :: Blocks(After(Started(e.media, e.next), moves).sent)) <==> !Owes(e.media)
  {
    var e := Reached(viewer, steps);
    ReachedIsOlder(viewer, steps);
    if !Owes(e.media) {
      StartedInOrder(e.media, e.next);
      forall moves ensures Blocks(After(Started(e.media, e.next), moves).sent) {
        ContinuedInOrder(Started(e.media, e.next), moves, e.next);
      }
    } else if e.media.viewer {
      var moves := ViewerBreaks(e.media, e.next);
    } else {
      var moves := SharerBreaks(e.media, e.next);
    }
  }

  /** Every negotiation of the run started at an end that owed nothing. */
  predicate Careful(viewer: bool, steps: seq<Step>)
    decreases |steps|
  {
    steps == [] ||
    (Careful(viewer, steps[..|steps| - 1]) &&
     (steps[|steps| - 1].Starts? ==> !Owes(Reached(viewer, steps[..|steps| - 1]).media)))
  }

  /** No negotiation has started yet. */
  predicate Untouched(m: Media) {
    m.generation.None? && m.sent == [] && m.sends == [] && m.remote == Quiet && !m.localDescribed
  }

  predicate SoFarInOrder(e: End) {
    if e.next == 0 then Untouched(e.media) else InOrder(e.media, e.next - 1)
  }

  lemma UntouchedStays(m: Media, move: Move)
    requires Untouched(m)
    ensures Untouched(Moved(m, move))
  {
  }

  lemma {:induction false} CarefulIsInOrder(viewer: bool, steps: seq<Step>)
    requires Careful(viewer, steps)
    ensures SoFarInOrder(Reached(viewer, steps))
    decreases |steps|
  {
    if steps != [] {
      var before := Reached(viewer, steps[..|steps| - 1]);
      CarefulIsInOrder(viewer, steps[..|steps| - 1]);
      ReachedIsOlder(viewer, steps[..|steps| - 1]);
      match steps[|steps| - 1]
      case Starts => StartedInOrder(before.media, before.next);
      case Goes(move) =>
        if before.next == 0 {
          UntouchedStays(before.media, move);
        } else {
          MovedInOrder(before.media, move, before.next - 1);
        }
    }
  }

  /** A run in which every negotiation starts at an end that owes nothing keeps the order from beginning to end. */
  lemma CarefulRunsKeepOrder(viewer: bool, steps: seq<Step>)
    requires Careful(viewer, steps)
    ensures Blocks(Reached(viewer, steps).media.sent)
  {
    CarefulIsInOrder(viewer, steps);
  }

  // ---------- a run that breaks the order ----------

  /** A sharer whose first offer is on its way but not acknowledged yet. */
  function Unacknowledged(): End { Reached(false, [Starts, Goes(Resumes(0))]) }

  lemma UnacknowledgedIs()
    ensures Unacknowledged().next == 1 && Unacknowledged().media.sends == [Sending(0, Announcing)]
    ensures Unacknowledged().media.sent == [Description(0)] && Unacknowledged().media.pendingLocal == []
    ensures !Unacknowledged().media.viewer && Unacknowledged().media.localDescribed
  {
    var steps := [Starts, Goes(Resumes(0))];
    assert steps[..1] == [Starts] && [Starts][..0] == [];
    assert Reached(false, []) == End(FreshMedia(false), 0);
    assert Reached(false, [Starts]) == End(Begin(FreshMedia(false), 0), 1);
  }

  /**
   The connection fails and the sharer restarts before the first offer is acknowledged.  The acknowledgement
   then marks the new generation as announced, and its next candidate goes out before the new offer.
   */
  lemma CandidateOvertakesOffer(candidate: nat)
    ensures var restarted := Started(Unacknowledged().media, Unacknowledged().next);
            var after := After(restarted, [Resumes(0), Gathers(candidate)]);
            && after.sent == [Description(0), Candidate(1, candidate)] && !Blocks(after.sent)
            && after.sends == [Sending(1, Preparing)]
  {
    UnacknowledgedIs();
    var restarted := Started(Unacknowledged().media, 1);
    TwoMoves(restarted, Resumes(0), Gathers(candidate));
    assert Without(restarted.sends, 0) == [Sending(1, Preparing)];
    assert Current([Description(0)]) == Some(0);
    CandidateBreaks([Description(0)], Candidate(1, candidate));
  }
}
