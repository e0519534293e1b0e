/**
 WebRTC negotiation over the control channel: the generation, the announced flag and the queues of
 the two ends.  The methods of the original suspend at every browser call and every send; each stretch
 between two suspensions is one step here, and `sends` and `remote` say where suspended methods stand.
 A send that is suspended goes on with the generation it captured, whatever has begun meanwhile.
 */
module WebRtcMediaSession {
  import opened Wrappers

  /** A session description (an offer from the sharer, an answer from the viewer) or an ICE candidate. */
  datatype Signal = Description(generation: nat) | Candidate(generation: nat, candidate: nat)

  /**
   Where a suspended `sendOffer`, or the second half of answering an offer, stands: what it waits for, or has
   still to flush.
   */
  datatype Stage = Preparing | Announcing | Flushing(rest: seq<Signal>)

  /** A suspended send and the generation it captured. */
  datatype Sending = Sending(generation: nat, stage: Stage)

  /** Where the handling of a remote description stands. */
  datatype Remote = Quiet | Setting | Adding(rest: seq<Signal>)

  /** What the peer connection is asked to do. */
  datatype Call = SetRemote(generation: nat) | AddCandidate(signal: Signal)

  datatype Media = Media(
    viewer: bool,
    generation: Option<nat>,
    announced: bool,
    described: bool,                     // `remoteDescription` is not null
    localDescribed: bool,                // `localDescription` is not null
    pendingLocal: seq<Signal>,
    pendingCandidates: seq<Signal>,
    sends: seq<Sending>,
    remote: Remote,
    sent: seq<Signal>,                   // handed to the channel
    calls: seq<Call>,
    gathered: seq<Signal>,               // every local candidate so far
    dropped: seq<Signal>)                // received for another generation

  // ---------- the steps ----------

  /**
   `startSharing` or an ICE restart, up to the first suspension of `sendOffer`; a send that is suspended already
   stays so.
   */
  function Begin(m: Media, generation: nat): Media {
    m.(generation := Some(generation), pendingCandidates := [], announced := false, pendingLocal := [],
       sends := m.sends + [Sending(generation, Preparing)])
  }

  /** `onicecandidate`. */
  function Gather(m: Media, candidate: nat): Media {
    if m.generation.None? then m
    else
      var signal := Candidate(m.generation.value, candidate);
      var known := m.(gathered := m.gathered + [signal]);
      if m.announced then known.(sent := m.sent + [signal])
      else known.(pendingLocal := m.pendingLocal + [signal])
  }

  /** A connection gathers candidates once it has a local description. */
  function Gathered(m: Media, candidate: nat): Media { if m.localDescribed then Gather(m, candidate) else m }

  /** The suspended sends without the one at `k`. */
  function Without(sends: seq<Sending>, k: nat): seq<Sending>
    requires k < |sends|
  {
    sends[..k] + sends[k + 1..]
  }

  /** The flushing loop of send `k` sends the first of these; with the last it has nothing left to do. */
  function Flush(m: Media, k: nat, signals: seq<Signal>): Media
    requires k < |m.sends|
  {
    if signals == [] then m.(sends := Without(m.sends, k))
    else if |signals| == 1 then m.(sent := m.sent + signals, sends := Without(m.sends, k))
    else m.(sent := m.sent + [signals[0]], sends := m.sends[k := m.sends[k].(stage := Flushing(signals[1..]))])
  }

  /** The next stretch of the suspended send at `k`. */
  function LocalStep(m: Media, k: nat): Media {
    if k >= |m.sends| then m
    else
      match m.sends[k].stage
      case Preparing =>
        m.(localDescribed := true, sent := m.sent + [Description(m.sends[k].generation)],
           sends := m.sends[k := m.sends[k].(stage := Announcing)])
      case Announcing => Flush(m.(announced := true, pendingLocal := []), k, m.pendingLocal)
      case Flushing(rest) => Flush(m, k, rest)
  }

  /** Closing a connection leaves the sends that wait for the channel; those that wait for the connection never go on. */
  function Surviving(sends: seq<Sending>): seq<Sending> {
    if sends == [] then []
    else
      var last := sends[|sends| - 1];
      Surviving(sends[..|sends| - 1]) + (if last.stage.Preparing? then [] else [last])
  }

  /** `consumeSignal`, up to its first suspension. */
  function Take(m: Media, signal: Signal): Media {
    if m.viewer && signal.Description? then
      var ready :=
        if m.generation == Some(signal.generation) then m
        else m.(generation := Some(signal.generation), pendingCandidates := [], described := false,
                localDescribed := false, pendingLocal := [], announced := false, sends := Surviving(m.sends));
      ready.(calls := m.calls + [SetRemote(signal.generation)], remote := Setting)
    else if m.generation != Some(signal.generation) then m.(dropped := m.dropped + [signal])
    else
      match signal
      case Description(generation) => m.(calls := m.calls + [SetRemote(generation)], remote := Setting)
      case Candidate(_, _) =>
        if m.described then m.(calls := m.calls + [AddCandidate(signal)])
        else m.(pendingCandidates := m.pendingCandidates + [signal])
  }

  /** The next stretch of the receiving method; a viewer goes on to answer. */
  function RemoteStep(m: Media): Media {
    match m.remote
    case Quiet => m
    case Setting => m.(described := true, remote := Adding(m.pendingCandidates), pendingCandidates := [])
    case Adding(rest) =>
      if rest == [] then
        m.(remote := Quiet,
           sends := if m.viewer && m.generation.Some? then m.sends + [Sending(m.generation.value, Preparing)] else m.sends)
      else m.(calls := m.calls + [AddCandidate(rest[0])], remote := Adding(rest[1..]))
  }

  /** The object with its fields, updated in place. */
  class MediaSession {
    const viewer: bool
    var generation: Option<nat>
    var announced: bool
    var described: bool
    var localDescribed: bool
    var pendingLocal: seq<Signal>
    var pendingCandidates: seq<Signal>
    var sends: seq<Sending>
    var remote: Remote
    var sent: seq<Signal>
    var calls: seq<Call>
    var gathered: seq<Signal>
    var dropped: seq<Signal>

    function State(): Media
      reads this
    {
      Media(viewer, generation, announced, described, localDescribed, pendingLocal, pendingCandidates, sends, remote,
            sent, calls, gathered, dropped)
    }

    constructor (viewer: bool)
      ensures State() == FreshMedia(viewer)
    {
      this.viewer := viewer;
      generation, announced, described, localDescribed := None, false, false, false;
      pendingLocal, pendingCandidates, sends, remote := [], [], [], Quiet;
      sent, calls, gathered, dropped := [], [], [], [];
    }

    method SendOffer(generation: nat)
      modifies this
      ensures State() == Begin(old(State()), generation)
    {
      this.generation := Some(generation);
      pendingCandidates := [];
      announced := false;
      pendingLocal := [];
      sends := sends + [Sending(generation, Preparing)];
    }

    method OnIceCandidate(candidate: nat)
      modifies this
      ensures State() == Gather(old(State()), candidate)
    {
      if generation.None? {
        return;
      }
      var signal := Candidate(generation.value, candidate);
      gathered := gathered + [signal];
      if !announced {
        pendingLocal := pendingLocal + [signal];
        return;
      }
      sent := sent + [signal];
    }

    /** The loop of `flushPendingLocalSignals`, for send `k`, up to its next suspension. */
    method FlushSignals(k: nat, signals: seq<Signal>)
      requires k < |sends|
      modifies this`sent, this`sends
      ensures State() == Flush(old(State()), k, signals)
    {
      if signals == [] {
        sends := Without(sends, k);
        return;
      }
      if |signals| == 1 {
        assert [signals[0]] == signals;
      }
      sent := sent + [signals[0]];
      if |signals| == 1 {
        sends := Without(sends, k);
      } else {
        sends := sends[k := sends[k].(stage := Flushing(signals[1..]))];
      }
    }

    method ContinueSending(k: nat)
      modifies this`sent, this`sends, this`announced, this`pendingLocal, this`localDescribed
      ensures State() == LocalStep(old(State()), k)
    {
      if k >= |sends| {
        return;
      }
      match sends[k].stage
      case Preparing =>
        localDescribed := true;
        sent := sent + [Description(sends[k].generation)];
        sends := sends[k := sends[k].(stage := Announcing)];
      case Announcing =>
        announced := true;
        var signals := pendingLocal;
        pendingLocal := [];
        FlushSignals(k, signals);
      case Flushing(rest) => FlushSignals(k, rest);
    }

    /** The new connection has no description yet, and what waited for the old one never goes on. */
    method CreatePeerConnection()
      modifies this`described, this`localDescribed, this`pendingLocal, this`announced, this`sends
      ensures State() == old(State()).(described := false, localDescribed := false, pendingLocal := [], announced := false,
                                       sends := Surviving(old(sends)))
    {
      described := false;
      localDescribed := false;
      pendingLocal := [];
      announced := false;
      sends := Surviving(sends);
    }

    method ConsumeSignal(signal: Signal)
      modifies this
      ensures State() == Take(old(State()), signal)
    {
      if viewer && signal.Description? {
        if generation != Some(signal.generation) {
          generation := Some(signal.generation);
          pendingCandidates := [];
          CreatePeerConnection();
        }
        calls := calls + [SetRemote(signal.generation)];
        remote := Setting;
        return;
      }
      if generation != Some(signal.generation) {
        dropped := dropped + [signal];
        return;
      }
      match signal
      case Description(g) =>
        calls := calls + [SetRemote(g)];
        remote := Setting;
      case Candidate(_, _) =>
        if !described {
          pendingCandidates := pendingCandidates + [signal];
          return;
        }
        calls := calls + [AddCandidate(signal)];
    }

    method ContinueReceiving()
      modifies this
      ensures State() == RemoteStep(old(State()))
    {
      match remote
      case Quiet =>
      case Setting =>
        described := true;
        remote := Adding(pendingCandidates);
        pendingCandidates := [];
      case Adding(rest) =>
        if rest == [] {
          remote := Quiet;
          if viewer && generation.Some? {
            sends := sends + [Sending(generation.value, Preparing)];
          }
        } else {
          calls := calls + [AddCandidate(rest[0])];
          remote := Adding(rest[1..]);
        }
    }
  }

  function FreshMedia(viewer: bool): Media {
    Media(viewer, None, false, false, false, [], [], [], Quiet, [], [], [], [])
  }

  // ---------- the two ends ----------

  /** The two ends, how much of each one's signals the other has taken, and the next new generation. */
  datatype World = World(sharer: Media, viewer: Media, offersTaken: nat, answersTaken: nat, nextGeneration: nat)

  datatype Action =
    | Negotiate
    | GatherOne(atViewer: bool, candidate: nat)
    | Send(atViewer: bool, k: nat)
    | Receive(atViewer: bool)
    | Deliver(toViewer: bool)

  predicate Resting(m: Media) { m.sends == [] && m.remote == Quiet }

  /** One negotiation at a time: the last one has ended at both ends before another begins. */
  predicate MayNegotiate(w: World) {
    && Resting(w.sharer) && Resting(w.viewer)
    && w.viewer.generation == w.sharer.generation && LastSet(w.sharer.calls) == w.sharer.generation
  }

  function Exec(w: World, action: Action): World {
    match action
    case Negotiate =>
      if !MayNegotiate(w) then w
      else w.(sharer := Begin(w.sharer, w.nextGeneration), nextGeneration := w.nextGeneration + 1)
    case GatherOne(atViewer, candidate) =>
      if atViewer then w.(viewer := Gathered(w.viewer, candidate)) else w.(sharer := Gathered(w.sharer, candidate))
    case Send(atViewer, k) =>
      if atViewer then w.(viewer := LocalStep(w.viewer, k)) else w.(sharer := LocalStep(w.sharer, k))
    case Receive(atViewer) =>
      if atViewer then w.(viewer := RemoteStep(w.viewer)) else w.(sharer := RemoteStep(w.sharer))
    case Deliver(toViewer) =>
      if toViewer then
        if w.offersTaken >= |w.sharer.sent| then w
        else w.(viewer := Take(w.viewer, w.sharer.sent[w.offersTaken]), offersTaken := w.offersTaken + 1)
      else if w.answersTaken >= |w.viewer.sent| then w
      else w.(sharer := Take(w.sharer, w.viewer.sent[w.answersTaken]), answersTaken := w.answersTaken + 1)
  }

  const START := World(FreshMedia(false), FreshMedia(true), 0, 0, 0)

  function Run(actions: seq<Action>): World {
    if actions == [] then START else Exec(Run(actions[..|actions| - 1]), actions[|actions| - 1])
  }

  // ---------- sequences of signals and calls ----------

  /** The generation of the last description. */
  function Current(signals: seq<Signal>): Option<nat> {
    if signals == [] then None
    else if signals[|signals| - 1].Description? then Some(signals[|signals| - 1].generation)
    else Current(signals[..|signals| - 1])
  }

  /** Every candidate follows the description of its generation, with no other description in between. */
  predicate Blocks(signals: seq<Signal>) {
    signals == [] ||
    (Blocks(signals[..|signals| - 1]) &&
     (signals[|signals| - 1].Candidate? ==> Current(signals[..|signals| - 1]) == Some(signals[|signals| - 1].generation)))
  }

  /** How often a candidate occurs. */
  function Count(signals: seq<Signal>, c: Signal): nat {
    if signals == [] then 0
    else Count(signals[..|signals| - 1], c) + (if signals[|signals| - 1] == c then 1 else 0)
  }

  function LastSet(calls: seq<Call>): Option<nat> {
    if calls == [] then None
    else if calls[|calls| - 1].SetRemote? then Some(calls[|calls| - 1].generation)
    else LastSet(calls[..|calls| - 1])
  }

  /** Every candidate is added after the remote description of its generation was set. */
  predicate SetBeforeAdded(calls: seq<Call>) {
    calls == [] ||
    (SetBeforeAdded(calls[..|calls| - 1]) &&
     (calls[|calls| - 1].AddCandidate? ==> LastSet(calls[..|calls| - 1]) == Some(calls[|calls| - 1].signal.generation)))
  }

  /** How often a candidate has been added. */
  function Added(calls: seq<Call>, c: Signal): nat {
    if calls == [] then 0
    else Added(calls[..|calls| - 1], c) + (if calls[|calls| - 1] == AddCandidate(c) then 1 else 0)
  }

  predicate OfGeneration(signals: seq<Signal>, generation: Option<nat>) {
    forall k | 0 <= k < |signals| :: signals[k].Candidate? && Some(signals[k].generation) == generation
  }

  lemma OneSignalMore(signals: seq<Signal>, signal: Signal, c: Signal)
    ensures Current(signals + [signal]) == if signal.Description? then Some(signal.generation) else Current(signals)
    ensures Blocks(signals + [signal]) <==>
            Blocks(signals) && (signal.Candidate? ==> Current(signals) == Some(signal.generation))
    ensures Count(signals + [signal], c) == Count(signals, c) + (if signal == c then 1 else 0)
  {
    assert (signals + [signal])[..|signals|] == signals;
  }

  lemma OneCallMore(calls: seq<Call>, call: Call, c: Signal)
    ensures LastSet(calls + [call]) == if call.SetRemote? then Some(call.generation) else LastSet(calls)
    ensures SetBeforeAdded(calls + [call]) <==>
            SetBeforeAdded(calls) && (call.AddCandidate? ==> LastSet(calls) == Some(call.signal.generation))
    ensures Added(calls + [call], c) == Added(calls, c) + (if call == AddCandidate(c) then 1 else 0)
  {
    assert (calls + [call])[..|calls|] == calls;
  }

  lemma {:induction false} OneSignalLess(signals: seq<Signal>, c: Signal)
    requires signals != []
    ensures Count(signals, c) == (if signals[0] == c then 1 else 0) + Count(signals[1..], c)
    decreases |signals|
  {
    if |signals| > 1 {
      var front := signals[..|signals| - 1];
      OneSignalLess(front, c);
      assert signals[1..][..|signals| - 2] == front[1..];
    }
  }

  // ---------- one end as a sender ----------

  /** What the one suspended send of an end waits for. */
  predicate IsPreparing(m: Media) { m.sends != [] && m.sends[0].stage.Preparing? }

  predicate IsAnnouncing(m: Media) { m.sends != [] && m.sends[0].stage.Announcing? }

  predicate IsFlushing(m: Media) { m.sends != [] && m.sends[0].stage.Flushing? }

  function BeingFlushed(m: Media): seq<Signal> { if IsFlushing(m) then m.sends[0].stage.rest else [] }

  /** With one negotiation at a time there is one send at most, of the current generation. */
  predicate Alone(m: Media) { |m.sends| <= 1 && (m.sends != [] ==> m.generation == Some(m.sends[0].generation)) }

  /** The queues hold candidates of the current generation. */
  predicate QueuesFit(m: Media) {
    OfGeneration(m.pendingLocal, m.generation) && OfGeneration(BeingFlushed(m), m.generation)
  }

  /** Every gathered candidate is in exactly one place: sent, waiting, or being flushed. */
  predicate Conserves(m: Media, c: Signal) {
    Count(m.gathered, c) == Count(m.sent, c) + Count(m.pendingLocal, c) + Count(BeingFlushed(m), c)
  }

  predicate SendShape(m: Media) {
    && Alone(m)
    && (m.generation.None? ==> m.sent == [] && m.sends == [] && !m.announced && m.pendingLocal == [])
    && (m.announced ==> Current(m.sent) == m.generation && m.pendingLocal == [])
    && (IsAnnouncing(m) ==> Current(m.sent) == m.generation && !m.announced)
    && (IsFlushing(m) ==> m.announced)
    && (IsPreparing(m) ==> !m.announced && m.remote == Quiet)
    && (Resting(m) ==> m.announced || m.generation.None?)
  }

  /** What holds of an end's own candidates and signals. */
  predicate SendsWell(m: Media, c: Signal) {
    c.Candidate? && Blocks(m.sent) && QueuesFit(m) && Conserves(m, c) && SendShape(m)
  }

  lemma QueueingSendsWell(m: Media, candidate: nat, c: Signal)
    requires SendsWell(m, c) && m.generation.Some? && !m.announced
    ensures SendsWell(Gather(m, candidate), c)
  {
    var signal := Candidate(m.generation.value, candidate);
    OneSignalMore(m.gathered, signal, c);
    OneSignalMore(m.pendingLocal, signal, c);
  }

  lemma SendingSendsWell(m: Media, candidate: nat, c: Signal)
    requires SendsWell(m, c) && m.generation.Some? && m.announced
    ensures SendsWell(Gather(m, candidate), c)
  {
    var signal := Candidate(m.generation.value, candidate);
    OneSignalMore(m.gathered, signal, c);
    OneSignalMore(m.sent, signal, c);
  }

  lemma GatheringSendsWell(m: Media, candidate: nat, c: Signal)
    requires SendsWell(m, c)
    ensures SendsWell(Gather(m, candidate), c)
  {
    if m.generation.Some? && m.announced {
      SendingSendsWell(m, candidate, c);
    } else if m.generation.Some? {
      QueueingSendsWell(m, candidate, c);
    }
  }

  /** The one send hands over its description. */
  lemma Describing(m: Media)
    requires |m.sends| == 1 && IsPreparing(m)
    ensures var g := m.sends[0].generation;
            LocalStep(m, 0) ==
            m.(localDescribed := true, sent := m.sent + [Description(g)], sends := [Sending(g, Announcing)])
  {
  }

  lemma DescribedSendsWell(m: Media, generation: nat, after: Media, c: Signal)
    requires SendsWell(m, c) && IsPreparing(m) && m.generation == Some(generation)
    requires after == m.(localDescribed := true, sent := m.sent + [Description(generation)],
                         sends := [Sending(generation, Announcing)])
    ensures SendsWell(after, c)
  {
    OneSignalMore(m.sent, Description(generation), c);
    assert BeingFlushed(m) == [] && BeingFlushed(after) == [];
  }

  lemma DescribingSendsWell(m: Media, c: Signal)
    requires SendsWell(m, c) && IsPreparing(m)
    ensures SendsWell(LocalStep(m, 0), c)
  {
    OneSend(m, c);
    Describing(m);
    DescribedSendsWell(m, m.generation.value, LocalStep(m, 0), c);
  }

  /** An announced end whose one send has these candidates left to flush. */
  predicate FlushesWell(m: Media, signals: seq<Signal>, c: Signal) {
    && c.Candidate? && |m.sends| == 1 && m.generation == Some(m.sends[0].generation) && m.announced
    && Blocks(m.sent) && Current(m.sent) == m.generation && m.pendingLocal == []
    && OfGeneration(signals, m.generation) && Count(m.gathered, c) == Count(m.sent, c) + Count(signals, c)
  }

  lemma LastFlush(m: Media, after: Media, c: Signal)
    requires FlushesWell(m, [], c) && after == m.(sends := [])
    ensures SendsWell(after, c)
  {
  }

  lemma OneFlushed(m: Media, signals: seq<Signal>, c: Signal)
    requires FlushesWell(m, signals, c) && signals != []
    ensures FlushesWell(m.(sent := m.sent + [signals[0]]), signals[1..], c)
  {
    OneSignalMore(m.sent, signals[0], c);
    OneSignalLess(signals, c);
  }

  lemma MoreToFlush(m: Media, rest: seq<Signal>, c: Signal)
    requires FlushesWell(m, rest, c)
    ensures SendsWell(m.(sends := [m.sends[0].(stage := Flushing(rest))]), c)
  {
  }

  lemma FlushSends(m: Media, signals: seq<Signal>)
    requires |m.sends| == 1
    ensures Flush(m, 0, signals) ==
            if signals == [] then m.(sends := [])
            else if |signals| == 1 then m.(sent := m.sent + [signals[0]], sends := [])
            else m.(sent := m.sent + [signals[0]], sends := [m.sends[0].(stage := Flushing(signals[1..]))])
  {
    assert Without(m.sends, 0) == [];
    if |signals| == 1 {
      assert signals == [signals[0]];
    }
  }

  /** The loop sends the first of the candidates that are to be flushed. */
  lemma FlushSendsWell(m: Media, signals: seq<Signal>, c: Signal)
    requires FlushesWell(m, signals, c)
    ensures SendsWell(Flush(m, 0, signals), c)
  {
    FlushSends(m, signals);
    if signals == [] {
      LastFlush(m, Flush(m, 0, signals), c);
    } else {
      var next := m.(sent := m.sent + [signals[0]]);
      OneFlushed(m, signals, c);
      if |signals| == 1 {
        assert signals[1..] == [];
        LastFlush(next, Flush(m, 0, signals), c);
      } else {
        MoreToFlush(next, signals[1..], c);
      }
    }
  }

  lemma AnnouncedFlushesWell(m: Media, c: Signal)
    requires SendsWell(m, c) && IsAnnouncing(m)
    ensures FlushesWell(m.(announced := true, pendingLocal := []), m.pendingLocal, c)
  {
  }

  lemma FlushingFlushesWell(m: Media, c: Signal)
    requires SendsWell(m, c) && IsFlushing(m)
    ensures FlushesWell(m, m.sends[0].stage.rest, c)
  {
  }

  lemma OneSend(m: Media, c: Signal)
    requires SendsWell(m, c)
    ensures |m.sends| <= 1 && (m.sends != [] ==> m.generation == Some(m.sends[0].generation))
  {
  }

  lemma LocalStepSendsWell(m: Media, c: Signal)
    requires SendsWell(m, c) && m.sends != []
    ensures SendsWell(LocalStep(m, 0), c)
  {
    match m.sends[0].stage
    case Preparing => DescribingSendsWell(m, c);
    case Announcing =>
      AnnouncedFlushesWell(m, c);
      FlushSendsWell(m.(announced := true, pendingLocal := []), m.pendingLocal, c);
    case Flushing(rest) =>
      FlushingFlushesWell(m, c);
      FlushSendsWell(m, rest, c);
  }

  /** A viewer receives while nothing of its own is under way; a sharer receives beside its own sending. */
  predicate ReceivesApart(m: Media) {
    && (m.remote != Quiet && m.viewer ==> m.sends == [] && !m.announced)
    && (m.remote != Quiet && !m.viewer ==> m.sends == [] ==> m.announced)
  }

  /** What an end sends does not depend on what it receives. */
  lemma SendingStays(m: Media, after: Media, c: Signal)
    requires SendsWell(m, c)
    requires after.sent == m.sent && after.gathered == m.gathered && after.pendingLocal == m.pendingLocal
    requires after.sends == m.sends && after.generation == m.generation && after.announced == m.announced
    requires after.remote == m.remote || (after.remote != Quiet && !IsPreparing(m)) ||
             (!m.viewer && (m.sends == [] ==> m.announced))
    requires IsPreparing(m) ==> after.remote == Quiet
    ensures SendsWell(after, c)
  {
    assert BeingFlushed(after) == BeingFlushed(m);
  }

  /** A viewer that has added everything goes on to answer. */
  lemma AnsweringSendsWell(m: Media, c: Signal)
    requires SendsWell(m, c) && m.viewer && m.sends == [] && !m.announced && m.generation.Some?
    ensures SendsWell(m.(remote := Quiet, sends := m.sends + [Sending(m.generation.value, Preparing)]), c)
  {
    assert m.sends + [Sending(m.generation.value, Preparing)] == [Sending(m.generation.value, Preparing)];
  }

  lemma RemoteStepSendsWell(m: Media, c: Signal)
    requires SendsWell(m, c) && ReceivesApart(m) && m.generation.Some?
    ensures SendsWell(RemoteStep(m), c)
  {
    if m.viewer && m.remote == Adding([]) {
      AnsweringSendsWell(m, c);
    } else {
      SendingStays(m, RemoteStep(m), c);
    }
  }

  lemma BeginningSendsWell(m: Media, generation: nat, c: Signal)
    requires SendsWell(m, c) && Resting(m)
    ensures SendsWell(Begin(m, generation), c)
  {
  }

  // ---------- one end as a receiver ----------

  function BeingAdded(m: Media): seq<Signal> { if m.remote.Adding? then m.remote.rest else [] }

  /** Every candidate received is in exactly one place: added, waiting, about to be added, or dropped. */
  predicate Accounts(m: Media, received: seq<Signal>, c: Signal) {
    Count(received, c) ==
    Added(m.calls, c) + Count(m.pendingCandidates, c) + Count(BeingAdded(m), c) + Count(m.dropped, c)
  }

  predicate ReceiveShape(m: Media) {
    && (m.remote.Adding? ==> m.described)
    && (m.remote != Quiet ==> m.generation.Some? && LastSet(m.calls) == m.generation)
    && (m.remote == Quiet && m.generation.Some? && LastSet(m.calls) == m.generation ==> m.described)
    && (m.pendingCandidates != [] ==> m.remote == Setting && !m.described)
    && OfGeneration(m.pendingCandidates, LastSet(m.calls)) && OfGeneration(BeingAdded(m), LastSet(m.calls))
  }

  /** What holds of an end and the signals it has taken so far. */
  predicate ReceivesWell(m: Media, received: seq<Signal>, c: Signal) {
    SetBeforeAdded(m.calls) && ReceiveShape(m) && Accounts(m, received, c) && Current(received) == LastSet(m.calls)
  }

  lemma SettledRemoteReceivesWell(m: Media, received: seq<Signal>, c: Signal)
    requires ReceivesWell(m, received, c) && m.remote == Setting
    ensures ReceivesWell(RemoteStep(m), received, c)
  {
  }

  lemma AddingReceivesWell(m: Media, received: seq<Signal>, c: Signal)
    requires ReceivesWell(m, received, c) && m.remote.Adding?
    ensures ReceivesWell(RemoteStep(m), received, c)
  {
    var rest := m.remote.rest;
    if rest != [] {
      OneCallMore(m.calls, AddCandidate(rest[0]), c);
      OneSignalLess(rest, c);
    }
  }

  lemma RemoteStepReceivesWell(m: Media, received: seq<Signal>, c: Signal)
    requires ReceivesWell(m, received, c)
    ensures ReceivesWell(RemoteStep(m), received, c)
  {
    match m.remote
    case Quiet =>
    case Setting => SettledRemoteReceivesWell(m, received, c);
    case Adding(_) => AddingReceivesWell(m, received, c);
  }

  /** A description arrives at an end that is not busy with another one. */
  lemma DescriptionReceivedWell(m: Media, received: seq<Signal>, signal: Signal, c: Signal)
    requires ReceivesWell(m, received, c) && m.remote == Quiet && signal.Description? && c.Candidate?
    requires m.viewer || m.generation == Some(signal.generation)
    ensures ReceivesWell(Take(m, signal), received + [signal], c)
    ensures LastSet(Take(m, signal).calls) == Some(signal.generation) && Take(m, signal).dropped == m.dropped
  {
    OneSignalMore(received, signal, c);
    OneCallMore(m.calls, SetRemote(signal.generation), c);
  }

  /** A candidate of the generation this end is at is added or kept; one of another generation is dropped. */
  lemma CandidateKept(m: Media, received: seq<Signal>, signal: Signal, c: Signal)
    requires ReceivesWell(m, received, c) && signal.Candidate? && Current(received) == Some(signal.generation)
    requires m.generation == Some(signal.generation)
    ensures ReceivesWell(Take(m, signal), received + [signal], c)
    ensures LastSet(Take(m, signal).calls) == LastSet(m.calls) && Take(m, signal).dropped == m.dropped
  {
    OneSignalMore(received, signal, c);
    OneCallMore(m.calls, AddCandidate(signal), c);
    OneSignalMore(m.pendingCandidates, signal, c);
  }

  lemma CandidateDropped(m: Media, received: seq<Signal>, signal: Signal, c: Signal)
    requires ReceivesWell(m, received, c) && signal.Candidate? && m.generation != Some(signal.generation)
    ensures Take(m, signal) == m.(dropped := m.dropped + [signal])
    ensures ReceivesWell(Take(m, signal), received + [signal], c)
  {
    OneSignalMore(received, signal, c);
    OneSignalMore(m.dropped, signal, c);
  }

  // ---------- what is on its way ----------

  /** No description from place `from` on. */
  predicate NoneOnTheWay(signals: seq<Signal>, from: nat) {
    forall k | from <= k < |signals| :: signals[k].Candidate?
  }

  /** At most one description from place `from` on, and only of this generation. */
  predicate OneOnTheWay(signals: seq<Signal>, from: nat, generation: Option<nat>) {
    forall k | from <= k < |signals| && signals[k].Description? ::
      Some(signals[k].generation) == generation && NoneOnTheWay(signals, k + 1)
  }

  predicate AtMost(x: Option<nat>, y: Option<nat>) { x.Some? ==> y.Some? && x.value <= y.value }

  /** How the two ends take turns in a negotiation. */
  predicate TakesTurns(w: World) {
    var s, v := w.sharer, w.viewer;
    && (s.sends == [] ==> s.announced || s.generation.None?)
    && (v.remote != Quiet ==> v.sends == [] && !v.announced)
    && v.generation == LastSet(v.calls)
    && AtMost(LastSet(s.calls), s.generation)
    && (s.generation.Some? ==> s.generation.value < w.nextGeneration)
    && (if v.generation == s.generation then
          && !IsPreparing(s) && NoneOnTheWay(s.sent, w.offersTaken)
          && (if LastSet(s.calls) == v.generation
              then NoneOnTheWay(v.sent, w.answersTaken) && v.remote == Quiet && !IsPreparing(v)
              else
                && s.generation.Some? && s.remote == Quiet
                && OneOnTheWay(v.sent, w.answersTaken, v.generation)
                && (v.remote != Quiet || IsPreparing(v) ==> NoneOnTheWay(v.sent, w.answersTaken)))
        else
          && s.generation.Some? && Resting(v) && s.remote == Quiet && LastSet(s.calls) == v.generation
          && NoneOnTheWay(v.sent, w.answersTaken)
          && OneOnTheWay(s.sent, w.offersTaken, s.generation)
          && (IsPreparing(s) ==> NoneOnTheWay(s.sent, w.offersTaken)))
  }

  predicate SharerPart(w: World, c: Signal) {
    && !w.sharer.viewer && w.offersTaken <= |w.sharer.sent| && w.answersTaken <= |w.viewer.sent|
    && SendsWell(w.sharer, c) && ReceivesWell(w.sharer, w.viewer.sent[..w.answersTaken], c)
    && (forall k | 0 <= k < |w.sharer.dropped| ::
          w.sharer.generation.Some? && w.sharer.dropped[k].generation < w.sharer.generation.value)
  }

  predicate ViewerPart(w: World, c: Signal) {
    && w.viewer.viewer && w.offersTaken <= |w.sharer.sent| && w.answersTaken <= |w.viewer.sent|
    && SendsWell(w.viewer, c) && ReceivesWell(w.viewer, w.sharer.sent[..w.offersTaken], c)
    && w.viewer.dropped == []
  }

  predicate Invariant(w: World, c: Signal) { SharerPart(w, c) && ViewerPart(w, c) && TakesTurns(w) }

  lemma StartInvariant(c: Signal)
    requires c.Candidate?
    ensures Invariant(START, c)
  {
    assert START.sharer.sent[..0] == [];
  }

  // ---------- the steps keep the invariant ----------

  lemma CandidateSent(signals: seq<Signal>, signal: Signal, from: nat, generation: Option<nat>)
    requires signal.Candidate? && from <= |signals|
    ensures NoneOnTheWay(signals, from) ==> NoneOnTheWay(signals + [signal], from)
    ensures OneOnTheWay(signals, from, generation) ==> OneOnTheWay(signals + [signal], from, generation)
    ensures (signals + [signal])[..from] == signals[..from]
  {
    if OneOnTheWay(signals, from, generation) {
      forall k | from <= k < |signals + [signal]| && (signals + [signal])[k].Description?
        ensures Some((signals + [signal])[k].generation) == generation && NoneOnTheWay(signals + [signal], k + 1)
      {
        assert signals[k].Description?;
        assert NoneOnTheWay(signals, k + 1);
      }
    }
  }

  lemma DescriptionSent(signals: seq<Signal>, generation: nat, from: nat)
    requires NoneOnTheWay(signals, from) && from <= |signals|
    ensures OneOnTheWay(signals + [Description(generation)], from, Some(generation))
    ensures (signals + [Description(generation)])[..from] == signals[..from]
  {
  }

  lemma OneTaken(signals: seq<Signal>, from: nat, generation: Option<nat>)
    requires from < |signals|
    ensures NoneOnTheWay(signals, from) ==> NoneOnTheWay(signals, from + 1)
    ensures OneOnTheWay(signals, from, generation) ==> OneOnTheWay(signals, from + 1, generation)
    ensures OneOnTheWay(signals, from, generation) && signals[from].Description? ==> NoneOnTheWay(signals, from + 1)
    ensures signals[..from + 1] == signals[..from] + [signals[from]]
  {
  }

  lemma {:induction false} BlocksAt(signals: seq<Signal>, k: nat)
    requires Blocks(signals) && k < |signals| && signals[k].Candidate?
    ensures Current(signals[..k]) == Some(signals[k].generation)
    decreases |signals|
  {
    if k < |signals| - 1 {
      var front := signals[..|signals| - 1];
      BlocksAt(front, k);
      assert front[..k] == signals[..k] && front[k] == signals[k];
    }
  }

  lemma NegotiationKeeps(w: World, c: Signal)
    requires Invariant(w, c) && MayNegotiate(w)
    ensures Invariant(Exec(w, Negotiate), c)
  {
    BeginningSendsWell(w.sharer, w.nextGeneration, c);
  }

  lemma SharerGathers(w: World, after: Media, candidate: nat, c: Signal)
    requires Invariant(w, c) && after == Gather(w.sharer, candidate)
    ensures Invariant(w.(sharer := after), c)
  {
    GatheringSendsWell(w.sharer, candidate, c);
    if w.sharer.generation.Some? {
      CandidateSent(w.sharer.sent, Candidate(w.sharer.generation.value, candidate), w.offersTaken, w.sharer.generation);
    }
  }

  lemma ViewerGathers(w: World, after: Media, candidate: nat, c: Signal)
    requires Invariant(w, c) && after == Gather(w.viewer, candidate)
    ensures Invariant(w.(viewer := after), c)
  {
    GatheringSendsWell(w.viewer, candidate, c);
    if w.viewer.generation.Some? {
      CandidateSent(w.viewer.sent, Candidate(w.viewer.generation.value, candidate), w.answersTaken, w.viewer.generation);
    }
  }

  /** The candidates that the next stretch of a send starts to flush. */
  function ToFlush(m: Media): seq<Signal> { if IsAnnouncing(m) then m.pendingLocal else BeingFlushed(m) }

  /** A stretch of flushing sends at most one candidate. */
  lemma FlushedSignals(m: Media)
    requires |m.sends| == 1 && !IsPreparing(m)
    ensures var after := LocalStep(m, 0);
            && after.sent == (if ToFlush(m) == [] then m.sent else m.sent + [ToFlush(m)[0]])
            && !IsPreparing(after) && (after.sends == [] ==> after.announced || IsFlushing(m))
            && after == m.(sent := after.sent, sends := after.sends, announced := after.announced,
                           pendingLocal := after.pendingLocal)
  {
    if IsAnnouncing(m) {
      FlushSends(m.(announced := true, pendingLocal := []), m.pendingLocal);
    } else {
      FlushSends(m, m.sends[0].stage.rest);
    }
  }

  lemma SharerOffers(w: World, after: Media, c: Signal)
    requires Invariant(w, c) && IsPreparing(w.sharer) && after == LocalStep(w.sharer, 0)
    ensures Invariant(w.(sharer := after), c)
  {
    LocalStepSendsWell(w.sharer, c);
    Describing(w.sharer);
    DescriptionSent(w.sharer.sent, w.sharer.generation.value, w.offersTaken);
  }

  /** The turns after a sharer has sent nothing or one candidate. */
  lemma SharerFlushTurns(w: World, after: Media)
    requires TakesTurns(w) && w.offersTaken <= |w.sharer.sent| && |w.sharer.sends| == 1 && !IsPreparing(w.sharer)
    requires after == w.sharer.(sent := after.sent, sends := after.sends, announced := after.announced,
                                pendingLocal := after.pendingLocal)
    requires !IsPreparing(after) && (after.sends == [] ==> after.announced)
    requires after.sent == w.sharer.sent ||
             exists signal: Signal :: signal.Candidate? && after.sent == w.sharer.sent + [signal]
    ensures TakesTurns(w.(sharer := after)) && after.sent[..w.offersTaken] == w.sharer.sent[..w.offersTaken]
  {
    if after.sent != w.sharer.sent {
      var signal: Signal :| signal.Candidate? && after.sent == w.sharer.sent + [signal];
      CandidateSent(w.sharer.sent, signal, w.offersTaken, w.sharer.generation);
    }
  }

  lemma SharerFlushes(w: World, after: Media, c: Signal)
    requires Invariant(w, c) && w.sharer.sends != [] && !IsPreparing(w.sharer) && after == LocalStep(w.sharer, 0)
    ensures Invariant(w.(sharer := after), c)
  {
    LocalStepSendsWell(w.sharer, c);
    FlushedSignals(w.sharer);
    SharerFlushTurns(w, after);
    SharerSent(w, after, c);
  }

  /** The two ends after the sharer has sent something more. */
  lemma SharerSent(w: World, after: Media, c: Signal)
    requires SharerPart(w, c) && ViewerPart(w, c) && SendsWell(after, c)
    requires w.offersTaken <= |after.sent| && after.sent[..w.offersTaken] == w.sharer.sent[..w.offersTaken]
    requires after == w.sharer.(sent := after.sent, sends := after.sends, announced := after.announced,
                                pendingLocal := after.pendingLocal)
    ensures SharerPart(w.(sharer := after), c) && ViewerPart(w.(sharer := after), c)
  {
    assert ReceivesWell(after, w.viewer.sent[..w.answersTaken], c);
  }

  lemma SharerSends(w: World, k: nat, c: Signal)
    requires Invariant(w, c)
    ensures Invariant(w.(sharer := LocalStep(w.sharer, k)), c)
  {
    OneSend(w.sharer, c);
    if k >= |w.sharer.sends| {
      assert w.(sharer := LocalStep(w.sharer, k)) == w;
    } else if IsPreparing(w.sharer) {
      SharerOffers(w, LocalStep(w.sharer, k), c);
    } else {
      SharerFlushes(w, LocalStep(w.sharer, k), c);
    }
  }

  lemma ViewerAnswers(w: World, after: Media, c: Signal)
    requires Invariant(w, c) && IsPreparing(w.viewer) && after == LocalStep(w.viewer, 0)
    ensures Invariant(w.(viewer := after), c)
  {
    LocalStepSendsWell(w.viewer, c);
    Describing(w.viewer);
    DescriptionSent(w.viewer.sent, w.viewer.generation.value, w.answersTaken);
  }

  lemma ViewerFlushes(w: World, after: Media, c: Signal)
    requires Invariant(w, c) && w.viewer.sends != [] && !IsPreparing(w.viewer) && after == LocalStep(w.viewer, 0)
    ensures Invariant(w.(viewer := after), c)
  {
    LocalStepSendsWell(w.viewer, c);
    FlushedSignals(w.viewer);
    if ToFlush(w.viewer) != [] {
      CandidateSent(w.viewer.sent, ToFlush(w.viewer)[0], w.answersTaken, w.viewer.generation);
    }
  }

  lemma ViewerSends(w: World, k: nat, c: Signal)
    requires Invariant(w, c)
    ensures Invariant(w.(viewer := LocalStep(w.viewer, k)), c)
  {
    OneSend(w.viewer, c);
    if k >= |w.viewer.sends| {
      assert w.(viewer := LocalStep(w.viewer, k)) == w;
    } else if IsPreparing(w.viewer) {
      ViewerAnswers(w, LocalStep(w.viewer, k), c);
    } else {
      ViewerFlushes(w, LocalStep(w.viewer, k), c);
    }
  }

  lemma SharerReceiveTurns(w: World, c: Signal)
    requires TakesTurns(w) && !w.sharer.viewer
    requires w.sharer.remote != Quiet ==> LastSet(w.sharer.calls) == w.sharer.generation
    ensures TakesTurns(Exec(w, Receive(false)))
  {
    if w.sharer.remote.Adding? && w.sharer.remote.rest != [] {
      OneCallMore(w.sharer.calls, AddCandidate(w.sharer.remote.rest[0]), c);
    }
  }

  lemma SharerReceivePart(w: World, c: Signal)
    requires SharerPart(w, c) && (w.sharer.sends == [] ==> w.sharer.announced || w.sharer.generation.None?)
    ensures SharerPart(Exec(w, Receive(false)), c)
  {
    RemoteStepReceivesWell(w.sharer, w.viewer.sent[..w.answersTaken], c);
    if w.sharer.remote != Quiet {
      RemoteStepSendsWell(w.sharer, c);
    }
  }

  lemma SharerReceives(w: World, c: Signal)
    requires Invariant(w, c)
    ensures Invariant(Exec(w, Receive(false)), c)
  {
    SharerReceiveTurns(w, c);
    SharerReceivePart(w, c);
    assert ViewerPart(Exec(w, Receive(false)), c);
  }

  lemma ViewerReceives(w: World, c: Signal)
    requires Invariant(w, c)
    ensures Invariant(Exec(w, Receive(true)), c)
  {
    RemoteStepReceivesWell(w.viewer, w.sharer.sent[..w.offersTaken], c);
    if w.viewer.remote != Quiet {
      RemoteStepSendsWell(w.viewer, c);
    }
  }

  /** A sharer that takes anything, or a viewer that takes a candidate, keeps its sending as it is. */
  lemma OtherTakingSendsWell(m: Media, signal: Signal, c: Signal)
    requires SendsWell(m, c) && (signal.Description? ==> !m.viewer && !IsPreparing(m))
    ensures SendsWell(Take(m, signal), c)
  {
    OtherTakingLeavesSending(m, signal);
    SendingStays(m, Take(m, signal), c);
  }

  lemma OtherTakingLeavesSending(m: Media, signal: Signal)
    requires signal.Description? ==> !m.viewer
    ensures var after := Take(m, signal);
            && after == m.(calls := after.calls, pendingCandidates := after.pendingCandidates, dropped := after.dropped,
                           remote := after.remote)
            && (after.remote == m.remote || signal.Description?)
  {
  }

  lemma OfferSendsWell(m: Media, signal: Signal, c: Signal)
    requires SendsWell(m, c) && m.viewer && signal.Description? && Resting(m)
    ensures SendsWell(Take(m, signal), c)
  {
    var after := Take(m, signal);
    assert m.pendingLocal == [] && after.pendingLocal == [];
    assert after.sent == m.sent && after.gathered == m.gathered;
  }

  lemma OfferTurns(w: World, c: Signal)
    requires TakesTurns(w) && w.viewer.viewer
    requires w.offersTaken < |w.sharer.sent| && w.sharer.sent[w.offersTaken].Description?
    ensures Resting(w.viewer) && TakesTurns(Exec(w, Deliver(true)))
  {
    OneTaken(w.sharer.sent, w.offersTaken, w.sharer.generation);
    OneCallMore(w.viewer.calls, SetRemote(w.sharer.sent[w.offersTaken].generation), c);
  }

  lemma OfferPart(w: World, c: Signal)
    requires ViewerPart(w, c) && Resting(w.viewer)
    requires w.offersTaken < |w.sharer.sent| && w.sharer.sent[w.offersTaken].Description?
    ensures ViewerPart(Exec(w, Deliver(true)), c)
  {
    var signal := w.sharer.sent[w.offersTaken];
    OneTaken(w.sharer.sent, w.offersTaken, w.sharer.generation);
    OfferSendsWell(w.viewer, signal, c);
    DescriptionReceivedWell(w.viewer, w.sharer.sent[..w.offersTaken], signal, c);
  }

  /** An offer reaches the viewer. */
  lemma OfferTaken(w: World, c: Signal)
    requires Invariant(w, c) && w.offersTaken < |w.sharer.sent| && w.sharer.sent[w.offersTaken].Description?
    ensures Invariant(Exec(w, Deliver(true)), c)
  {
    OfferTurns(w, c);
    OfferPart(w, c);
    assert SharerPart(Exec(w, Deliver(true)), c);
  }

  /** A candidate reaches the viewer; it is always of the generation the viewer is at. */
  lemma ViewerCandidatePart(w: World, c: Signal)
    requires ViewerPart(w, c) && SharerPart(w, c) && w.viewer.generation == LastSet(w.viewer.calls)
    requires w.offersTaken < |w.sharer.sent| && w.sharer.sent[w.offersTaken].Candidate?
    ensures ViewerPart(Exec(w, Deliver(true)), c)
    ensures var after := Exec(w, Deliver(true)).viewer;
            LastSet(after.calls) == LastSet(w.viewer.calls) &&
            after == w.viewer.(calls := after.calls, pendingCandidates := after.pendingCandidates)
  {
    var signal := w.sharer.sent[w.offersTaken];
    OneTaken(w.sharer.sent, w.offersTaken, w.sharer.generation);
    BlocksAt(w.sharer.sent, w.offersTaken);
    OtherTakingSendsWell(w.viewer, signal, c);
    CandidateKept(w.viewer, w.sharer.sent[..w.offersTaken], signal, c);
  }

  /** Where the two ends stand does not change when a candidate is taken. */
  lemma ViewerCandidateTurns(w: World, after: Media)
    requires TakesTurns(w) && w.offersTaken < |w.sharer.sent| && LastSet(after.calls) == LastSet(w.viewer.calls)
    requires after == w.viewer.(calls := after.calls, pendingCandidates := after.pendingCandidates)
    ensures TakesTurns(w.(viewer := after, offersTaken := w.offersTaken + 1))
  {
    OneTaken(w.sharer.sent, w.offersTaken, w.sharer.generation);
  }

  lemma ViewerTakesCandidate(w: World, c: Signal)
    requires Invariant(w, c) && w.offersTaken < |w.sharer.sent| && w.sharer.sent[w.offersTaken].Candidate?
    ensures Invariant(Exec(w, Deliver(true)), c)
  {
    ViewerCandidatePart(w, c);
    ViewerCandidateTurns(w, Exec(w, Deliver(true)).viewer);
    assert SharerPart(Exec(w, Deliver(true)), c);
  }

  lemma AnswerTurns(w: World, c: Signal)
    requires TakesTurns(w) && !w.sharer.viewer
    requires w.answersTaken < |w.viewer.sent| && w.viewer.sent[w.answersTaken].Description?
    ensures w.sharer.remote == Quiet && !IsPreparing(w.sharer)
    ensures w.sharer.generation == Some(w.viewer.sent[w.answersTaken].generation)
    ensures TakesTurns(Exec(w, Deliver(false)))
  {
    OneTaken(w.viewer.sent, w.answersTaken, w.viewer.generation);
    OneCallMore(w.sharer.calls, SetRemote(w.viewer.sent[w.answersTaken].generation), c);
  }

  lemma AnswerPart(w: World, c: Signal)
    requires SharerPart(w, c) && w.sharer.remote == Quiet && !IsPreparing(w.sharer)
    requires w.answersTaken < |w.viewer.sent| && w.viewer.sent[w.answersTaken].Description?
    requires w.sharer.generation == Some(w.viewer.sent[w.answersTaken].generation)
    ensures SharerPart(Exec(w, Deliver(false)), c)
  {
    var signal := w.viewer.sent[w.answersTaken];
    OneTaken(w.viewer.sent, w.answersTaken, w.viewer.generation);
    OtherTakingSendsWell(w.sharer, signal, c);
    DescriptionReceivedWell(w.sharer, w.viewer.sent[..w.answersTaken], signal, c);
  }

  lemma AnswerTaken(w: World, c: Signal)
    requires Invariant(w, c) && w.answersTaken < |w.viewer.sent| && w.viewer.sent[w.answersTaken].Description?
    ensures Invariant(Exec(w, Deliver(false)), c)
  {
    AnswerTurns(w, c);
    AnswerPart(w, c);
    assert ViewerPart(Exec(w, Deliver(false)), c);
  }

  /** The sharer's part after it has taken one more signal. */
  lemma SharerTook(w: World, after: Media, c: Signal)
    requires SharerPart(w, c) && w.answersTaken < |w.viewer.sent| && !after.viewer
    requires after.sent == w.sharer.sent && after.generation == w.sharer.generation
    requires SendsWell(after, c) && ReceivesWell(after, w.viewer.sent[..w.answersTaken] + [w.viewer.sent[w.answersTaken]], c)
    requires forall k | 0 <= k < |after.dropped| ::
               after.generation.Some? && after.dropped[k].generation < after.generation.value
    ensures SharerPart(w.(sharer := after, answersTaken := w.answersTaken + 1), c)
  {
    OneTaken(w.viewer.sent, w.answersTaken, w.viewer.generation);
  }

  /** A candidate reaches the sharer: added or kept if it is of the current generation, dropped if not. */
  lemma SharerKeepsCandidate(w: World, after: Media, c: Signal)
    requires SharerPart(w, c) && ViewerPart(w, c)
    requires w.answersTaken < |w.viewer.sent| && w.viewer.sent[w.answersTaken].Candidate?
    requires w.sharer.generation == Some(w.viewer.sent[w.answersTaken].generation)
    requires after == Take(w.sharer, w.viewer.sent[w.answersTaken])
    ensures SharerPart(w.(sharer := after, answersTaken := w.answersTaken + 1), c)
    ensures LastSet(after.calls) == LastSet(w.sharer.calls)
  {
    var signal := w.viewer.sent[w.answersTaken];
    BlocksAt(w.viewer.sent, w.answersTaken);
    OtherTakingSendsWell(w.sharer, signal, c);
    CandidateKept(w.sharer, w.viewer.sent[..w.answersTaken], signal, c);
    CandidateLeavesSending(w.sharer, signal);
    SharerTook(w, after, c);
  }

  /** A candidate that is not of the sharer's generation is of an older one. */
  lemma CandidateIsOld(w: World, signal: Signal, c: Signal)
    requires SharerPart(w, c) && ViewerPart(w, c) && AtMost(LastSet(w.sharer.calls), w.sharer.generation)
    requires w.answersTaken < |w.viewer.sent| && signal == w.viewer.sent[w.answersTaken] && signal.Candidate?
    requires w.sharer.generation != Some(signal.generation)
    ensures w.sharer.generation.Some? && signal.generation < w.sharer.generation.value
  {
    BlocksAt(w.viewer.sent, w.answersTaken);
  }

  lemma OldOnesDropped(m: Media, after: Media, signal: Signal)
    requires m.generation.Some? && signal.generation < m.generation.value && after == m.(dropped := m.dropped + [signal])
    requires forall k | 0 <= k < |m.dropped| :: m.dropped[k].generation < m.generation.value
    ensures forall k | 0 <= k < |after.dropped| :: after.generation.Some? && after.dropped[k].generation < after.generation.value
  {
  }

  lemma SharerDropsCandidate(w: World, after: Media, c: Signal)
    requires SharerPart(w, c) && ViewerPart(w, c) && AtMost(LastSet(w.sharer.calls), w.sharer.generation)
    requires w.answersTaken < |w.viewer.sent| && w.viewer.sent[w.answersTaken].Candidate?
    requires w.sharer.generation != Some(w.viewer.sent[w.answersTaken].generation)
    requires after == Take(w.sharer, w.viewer.sent[w.answersTaken])
    ensures SharerPart(w.(sharer := after, answersTaken := w.answersTaken + 1), c)
    ensures LastSet(after.calls) == LastSet(w.sharer.calls)
  {
    var signal := w.viewer.sent[w.answersTaken];
    CandidateIsOld(w, signal, c);
    OtherTakingSendsWell(w.sharer, signal, c);
    CandidateDropped(w.sharer, w.viewer.sent[..w.answersTaken], signal, c);
    OldOnesDropped(w.sharer, after, signal);
    SharerTook(w, after, c);
  }

  lemma SharerCandidateTurns(w: World, after: Media)
    requires TakesTurns(w) && w.answersTaken < |w.viewer.sent| && LastSet(after.calls) == LastSet(w.sharer.calls)
    requires after == w.sharer.(calls := after.calls, pendingCandidates := after.pendingCandidates, dropped := after.dropped)
    ensures TakesTurns(w.(sharer := after, answersTaken := w.answersTaken + 1))
  {
    OneTaken(w.viewer.sent, w.answersTaken, w.viewer.generation);
  }

  lemma SharerTakesCandidate(w: World, c: Signal)
    requires Invariant(w, c) && w.answersTaken < |w.viewer.sent| && w.viewer.sent[w.answersTaken].Candidate?
    ensures Invariant(Exec(w, Deliver(false)), c)
  {
    var signal := w.viewer.sent[w.answersTaken];
    if w.sharer.generation == Some(signal.generation) {
      SharerKeepsCandidate(w, Take(w.sharer, signal), c);
    } else {
      SharerDropsCandidate(w, Take(w.sharer, signal), c);
    }
    CandidateLeavesSending(w.sharer, signal);
    SharerCandidateTurns(w, Take(w.sharer, signal));
    ViewerUntouched(w, Exec(w, Deliver(false)), c);
  }

  lemma CandidateLeavesSending(m: Media, signal: Signal)
    requires signal.Candidate?
    ensures var after := Take(m, signal);
            after == m.(calls := after.calls, pendingCandidates := after.pendingCandidates, dropped := after.dropped)
  {
  }

  lemma ViewerUntouched(w: World, after: World, c: Signal)
    requires ViewerPart(w, c) && after.viewer == w.viewer && after.offersTaken == w.offersTaken
    requires after.sharer.sent == w.sharer.sent && after.answersTaken <= |w.viewer.sent|
    ensures ViewerPart(after, c)
  {
  }

  lemma ViewerTakes(w: World, c: Signal)
    requires Invariant(w, c)
    ensures Invariant(Exec(w, Deliver(true)), c)
  {
    if w.offersTaken < |w.sharer.sent| {
      if w.sharer.sent[w.offersTaken].Description? { OfferTaken(w, c); } else { ViewerTakesCandidate(w, c); }
    }
  }

  lemma SharerTakes(w: World, c: Signal)
    requires Invariant(w, c)
    ensures Invariant(Exec(w, Deliver(false)), c)
  {
    if w.answersTaken < |w.viewer.sent| {
      if w.viewer.sent[w.answersTaken].Description? { AnswerTaken(w, c); } else { SharerTakesCandidate(w, c); }
    }
  }

  lemma GatheringKeeps(w: World, atViewer: bool, candidate: nat, c: Signal)
    requires Invariant(w, c)
    ensures Invariant(Exec(w, GatherOne(atViewer, candidate)), c)
  {
    if atViewer && w.viewer.localDescribed {
      ViewerGathers(w, Gather(w.viewer, candidate), candidate, c);
    } else if !atViewer && w.sharer.localDescribed {
      SharerGathers(w, Gather(w.sharer, candidate), candidate, c);
    } else {
      assert Exec(w, GatherOne(atViewer, candidate)) == w;
    }
  }

  lemma StepKeeps(w: World, action: Action, c: Signal)
    requires Invariant(w, c)
    ensures Invariant(Exec(w, action), c)
  {
    match action
    case Negotiate =>
      if MayNegotiate(w) {
        NegotiationKeeps(w, c);
      }
    case GatherOne(atViewer, candidate) =>
      GatheringKeeps(w, atViewer, candidate, c);
    case Send(atViewer, k) =>
      if atViewer { ViewerSends(w, k, c); } else { SharerSends(w, k, c); }
    case Receive(atViewer) =>
      if atViewer { ViewerReceives(w, c); } else { SharerReceives(w, c); }
    case Deliver(toViewer) =>
      if toViewer { ViewerTakes(w, c); } else { SharerTakes(w, c); }
  }

  lemma {:induction false} RunInvariant(actions: seq<Action>, c: Signal)
    requires c.Candidate?
    ensures Invariant(Run(actions), c)
    decreases |actions|
  {
    if actions == [] {
      StartInvariant(c);
    } else {
      RunInvariant(actions[..|actions| - 1], c);
      StepKeeps(Run(actions[..|actions| - 1]), actions[|actions| - 1], c);
    }
  }

  // ---------- the theorems ----------

  /** On either end each candidate goes to the channel after the description of its generation, and before the next one. */
  lemma DescriptionBeforeCandidates(actions: seq<Action>, k: nat)
    ensures var w := Run(actions);
            && (k < |w.sharer.sent| && w.sharer.sent[k].Candidate? ==>
                  Current(w.sharer.sent[..k]) == Some(w.sharer.sent[k].generation))
            && (k < |w.viewer.sent| && w.viewer.sent[k].Candidate? ==>
                  Current(w.viewer.sent[..k]) == Some(w.viewer.sent[k].generation))
  {
    RunInvariant(actions, Candidate(0, 0));
    var w := Run(actions);
    if k < |w.sharer.sent| && w.sharer.sent[k].Candidate? {
      BlocksAt(w.sharer.sent, k);
    }
    if k < |w.viewer.sent| && w.viewer.sent[k].Candidate? {
      BlocksAt(w.viewer.sent, k);
    }
  }

  /** Once an end rests, it has sent every candidate exactly as often as it gathered it. */
  lemma EveryCandidateIsSentOnce(actions: seq<Action>, c: Signal)
    requires c.Candidate?
    ensures var w := Run(actions);
            && (Resting(w.sharer) ==> Count(w.sharer.sent, c) == Count(w.sharer.gathered, c))
            && (Resting(w.viewer) ==> Count(w.viewer.sent, c) == Count(w.viewer.gathered, c))
  {
    RunInvariant(actions, c);
  }

  /**
   The viewer drops nothing: once it rests, each candidate it has taken from the channel has been added
   exactly once, after the remote description of its generation was set.
   */
  lemma ViewerAddsEverything(actions: seq<Action>, c: Signal)
    requires c.Candidate?
    ensures var w := Run(actions);
            && w.viewer.dropped == [] && SetBeforeAdded(w.viewer.calls) && w.offersTaken <= |w.sharer.sent|
            && (Resting(w.viewer) ==> Added(w.viewer.calls, c) == Count(w.sharer.sent[..w.offersTaken], c))
  {
    RunInvariant(actions, c);
  }

  /**
   The sharer drops only candidates of an older generation than the one it has restarted with; every other one
   is added once.
   */
  lemma SharerDropsOnlyTheOld(actions: seq<Action>, k: nat, c: Signal)
    requires c.Candidate?
    ensures var w := Run(actions);
            && SetBeforeAdded(w.sharer.calls) && w.answersTaken <= |w.viewer.sent|
            && (k < |w.sharer.dropped| ==>
                  w.sharer.generation.Some? && w.sharer.dropped[k].generation < w.sharer.generation.value)
            && (Resting(w.sharer) ==>
                  Added(w.sharer.calls, c) + Count(w.sharer.dropped, c) == Count(w.viewer.sent[..w.answersTaken], c))
  {
    RunInvariant(actions, c);
  }
}
