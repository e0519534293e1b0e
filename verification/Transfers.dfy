/** Diagnostics transfer: from a request to the exact records it resolves with. */
module Transfers {
  import opened Wrappers
  import opened ProtocolContracts
  import opened SessionModel
  import opened Effects
  import opened Lanes
  import opened ProtocolInvariant
  import opened OwnActions
  import opened TwoParty

  // ---------- what a queue holds for one request ----------

  datatype Batch = Batch(records: seq<DiagnosticRecord>, complete: bool)

  /** The limits of the requests with this id. */
  function RequestsFor(id: nat, messages: seq<Message>): seq<nat> {
    if messages == [] then []
    else (if messages[0].DiagnosticsRequest? && messages[0].requestId == id then [messages[0].limit] else [])
         + RequestsFor(id, messages[1..])
  }

  function BatchesFor(id: nat, messages: seq<Message>): seq<Batch> {
    if messages == [] then []
    else (if messages[0].DiagnosticsBatch? && messages[0].requestId == id
          then [Batch(messages[0].records, messages[0].complete)] else [])
         + BatchesFor(id, messages[1..])
  }

  function Collected(batches: seq<Batch>): seq<DiagnosticRecord> {
    if batches == [] then [] else batches[0].records + Collected(batches[1..])
  }

  /** Exactly the last batch is marked complete. */
  predicate WellEnded(batches: seq<Batch>) {
    batches != [] && forall k | 0 <= k < |batches| :: batches[k].complete <==> k == |batches| - 1
  }

  lemma {:induction false} RequestsForAppend(id: nat, first: seq<Message>, second: seq<Message>)
    ensures RequestsFor(id, first + second) == RequestsFor(id, first) + RequestsFor(id, second)
    decreases |first|
  {
    if first == [] {
      assert first + second == second;
    } else {
      assert (first + second)[1..] == first[1..] + second;
      RequestsForAppend(id, first[1..], second);
    }
  }

  lemma {:induction false} BatchesForAppend(id: nat, first: seq<Message>, second: seq<Message>)
    ensures BatchesFor(id, first + second) == BatchesFor(id, first) + BatchesFor(id, second)
    decreases |first|
  {
    if first == [] {
      assert first + second == second;
    } else {
      assert (first + second)[1..] == first[1..] + second;
      BatchesForAppend(id, first[1..], second);
    }
  }

  lemma OneTransferMessage(id: nat, message: Message)
    ensures RequestsFor(id, [message]) ==
            (if message.DiagnosticsRequest? && message.requestId == id then [message.limit] else [])
    ensures BatchesFor(id, [message]) ==
            (if message.DiagnosticsBatch? && message.requestId == id
             then [Batch(message.records, message.complete)] else [])
  {
    assert [message][1..] == [];
    assert RequestsFor(id, [message][1..]) == [];
    assert BatchesFor(id, [message][1..]) == [];
  }

  predicate NoTransfers(messages: seq<Message>) {
    forall k | 0 <= k < |messages| :: !messages[k].DiagnosticsRequest? && !messages[k].DiagnosticsBatch?
  }

  lemma {:induction false} NoTransfersFor(id: nat, messages: seq<Message>)
    requires NoTransfers(messages)
    ensures RequestsFor(id, messages) == [] && BatchesFor(id, messages) == []
    decreases |messages|
  {
    if messages != [] {
      NoTransfersFor(id, messages[1..]);
    }
  }

  // ---------- the batches of one answer ----------

  lemma {:induction false} OtherBatches(id: nat, other: nat, records: seq<DiagnosticRecord>, offset: nat)
    requires offset <= |records| && id != other
    ensures BatchesFor(other, BatchesFrom(id, records, offset)) == []
    decreases |records| - offset
  {
    if offset < |records| {
      var end := if offset + BATCH_RECORD_COUNT < |records| then offset + BATCH_RECORD_COUNT else |records|;
      OtherBatches(id, other, records, end);
    }
  }

  lemma {:induction false} BatchesHoldNoRequests(id: nat, other: nat, records: seq<DiagnosticRecord>, offset: nat)
    requires offset <= |records|
    ensures RequestsFor(other, BatchesFrom(id, records, offset)) == []
    decreases |records| - offset
  {
    if offset < |records| {
      var end := if offset + BATCH_RECORD_COUNT < |records| then offset + BATCH_RECORD_COUNT else |records|;
      BatchesHoldNoRequests(id, other, records, end);
    }
  }

  lemma {:induction false} OwnBatches(id: nat, records: seq<DiagnosticRecord>, offset: nat)
    requires offset < |records|
    ensures WellEnded(BatchesFor(id, BatchesFrom(id, records, offset)))
    ensures Collected(BatchesFor(id, BatchesFrom(id, records, offset))) == records[offset..]
    decreases |records| - offset
  {
    var end := if offset + BATCH_RECORD_COUNT < |records| then offset + BATCH_RECORD_COUNT else |records|;
    var first := Batch(records[offset..end], end >= |records|);
    var rest := BatchesFor(id, BatchesFrom(id, records, end));
    assert BatchesFor(id, BatchesFrom(id, records, offset)) == [first] + rest;
    if end < |records| {
      OwnBatches(id, records, end);
      assert records[offset..] == records[offset..end] + records[end..];
    } else {
      assert rest == [];
      assert Collected([first]) == first.records + Collected([]);
    }
  }

  /** An answer is cut into batches that give back its records, the last one and no other marked complete. */
  lemma AnswerBatches(id: nat, records: seq<DiagnosticRecord>)
    ensures WellEnded(BatchesFor(id, Batches(id, records)))
    ensures Collected(BatchesFor(id, Batches(id, records))) == records
    ensures forall other | other != id :: BatchesFor(other, Batches(id, records)) == []
    ensures forall other :: RequestsFor(other, Batches(id, records)) == []
  {
    if records == [] {
      OneTransferMessage(id, DiagnosticsBatch(id, [], true));
      assert Collected([Batch([], true)]) == [] + Collected([]);
      forall other ensures RequestsFor(other, Batches(id, records)) == [] &&
                           (other != id ==> BatchesFor(other, Batches(id, records)) == []) {
        OneTransferMessage(other, DiagnosticsBatch(id, [], true));
      }
    } else {
      OwnBatches(id, records, 0);
      forall other ensures RequestsFor(other, Batches(id, records)) == [] &&
                           (other != id ==> BatchesFor(other, Batches(id, records)) == []) {
        BatchesHoldNoRequests(id, other, records, 0);
        if other != id {
          OtherBatches(id, other, records, 0);
        }
      }
    }
  }

  // ---------- the invariant ----------

  function Outgoing(host: Host): seq<Message> { Messages(host.session.outbox) }

  function AnswerRecords(answer: Answer): seq<DiagnosticRecord> { LastRecords(answer.local, answer.limit) }

  /** The values a pending request is judged by. */
  predicate TrackedBy(pending: PendingRequest, requests: seq<nat>, batches: seq<Batch>, answer: Option<Answer>, serverOpen: bool) {
    && pending.limit <= MAXIMUM_RECORDS_PER_REQUEST
    && match answer
       case Some(given) =>
         && requests == [] && given.limit == pending.limit
         && WellEnded(batches) && pending.records + Collected(batches) == AnswerRecords(given)
       case None =>
         pending.records == [] && batches == [] && (serverOpen ==> requests == [pending.limit])
  }

  function AnswerFor(id: nat, answers: map<nat, Answer>): Option<Answer> {
    if id in answers then Some(answers[id]) else None
  }

  /**
   A pending request is either unanswered and still on its way, or what has arrived and what is on its way make
   up its answer.
   */
  predicate Tracked(id: nat, a: Host, b: Host, answers: map<nat, Answer>)
    requires id in a.session.requests
  {
    && id in a.issued && a.session.requests[id].limit == a.issued[id]
    && TrackedBy(a.session.requests[id], RequestsFor(id, Outgoing(a)), BatchesFor(id, Outgoing(b)),
                 AnswerFor(id, answers), b.session.phase != Closed)
  }

  /** Every request ever issued is pending, resolved or rejected, and only one of these. */
  predicate Settled(a: Host) {
    && a.issued.Keys == a.session.requests.Keys + a.session.resolved.Keys + a.session.rejected
    && a.session.requests.Keys !! a.session.resolved.Keys
    && a.session.requests.Keys !! a.session.rejected
    && a.session.resolved.Keys !! a.session.rejected
  }

  predicate InFlightOnce(id: nat, a: Host, b: Host, answers: map<nat, Answer>) {
    && (RequestsFor(id, Outgoing(a)) != [] ==> id in a.issued)
    && (BatchesFor(id, Outgoing(b)) != [] ==> id in a.issued)
    && |RequestsFor(id, Outgoing(a))| <= (if id in answers then 0 else 1)
  }

  /** A resolved request has the records of its answer, which was made with the limit it was issued with. */
  predicate Resolved(id: nat, a: Host, answers: map<nat, Answer>)
    requires id in a.session.resolved
  {
    && id in answers && id in a.issued && answers[id].limit == a.issued[id]
    && a.session.resolved[id] == AnswerRecords(answers[id])
  }

  ghost predicate HalfTransfer(a: Host, b: Host, answers: map<nat, Answer>) {
    && Settled(a)
    && (forall id: nat :: InFlightOnce(id, a, b, answers))
    && (forall id <- a.session.requests :: Tracked(id, a, b, answers))
    && (forall id <- a.session.resolved :: Resolved(id, a, answers))
  }

  ghost predicate TransferSafe(a: Host, b: Host, answers: map<nat, Answer>, nextId: nat) {
    && a.issued.Keys !! b.issued.Keys
    && (forall id <- a.issued.Keys + b.issued.Keys :: id < nextId)
    && answers.Keys <= a.issued.Keys + b.issued.Keys
    && HalfTransfer(a, b, answers) && HalfTransfer(b, a, answers)
  }

  // ---------- steps that do not concern transfers ----------

  /** The messages the queue of `after` has on top of those of `a`. */
  predicate QueueGrows(a: Host, after: Host, messages: seq<Message>) {
    Outgoing(after) == Outgoing(a) + messages
  }

  /** The session keeps its requests, or closes and rejects them all. */
  predicate KeepsRequests(a: Host, after: Host) {
    && after.issued == a.issued && after.session.resolved == a.session.resolved
    && (after.session.phase != Closed ==> a.session.phase != Closed)
    && ((after.session.requests == a.session.requests && after.session.rejected == a.session.rejected) ||
        (after.session.requests == map[] &&
         after.session.rejected == a.session.rejected + a.session.requests.Keys))
  }

  lemma SameFor(id: nat, a: Host, after: Host, messages: seq<Message>)
    requires QueueGrows(a, after, messages) && NoTransfers(messages)
    ensures RequestsFor(id, Outgoing(after)) == RequestsFor(id, Outgoing(a))
    ensures BatchesFor(id, Outgoing(after)) == BatchesFor(id, Outgoing(a))
  {
    RequestsForAppend(id, Outgoing(a), messages);
    BatchesForAppend(id, Outgoing(a), messages);
    NoTransfersFor(id, messages);
  }

  lemma UnconcernedKeeps(a: Host, after: Host, b: Host, answers: map<nat, Answer>, nextId: nat, later: nat, messages: seq<Message>)
    requires TransferSafe(a, b, answers, nextId) && nextId <= later
    requires KeepsRequests(a, after) && QueueGrows(a, after, messages) && NoTransfers(messages)
    ensures TransferSafe(after, b, answers, later)
  {
    forall id: nat ensures InFlightOnce(id, after, b, answers) && InFlightOnce(id, b, after, answers) {
      SameFor(id, a, after, messages);
      assert InFlightOnce(id, a, b, answers) && InFlightOnce(id, b, a, answers);
    }
    forall id | id in after.session.requests ensures Tracked(id, after, b, answers) {
      SameFor(id, a, after, messages);
      assert Tracked(id, a, b, answers);
    }
    forall id | id in b.session.requests ensures Tracked(id, b, after, answers) {
      SameFor(id, a, after, messages);
      assert Tracked(id, b, a, answers);
    }
  }

  function TailHost(b: Host): Host
    requires b.session.outbox != []
  {
    b.(session := Tail(b.session))
  }

  /** The message at the head of the queue, if the frame carries one. */
  function HeadMessages(b: Host): seq<Message>
    requires b.session.outbox != []
  {
    if b.session.outbox[0].SecureFrame? then [Carried(b.session.outbox[0])] else []
  }

  lemma TailTransfers(id: nat, b: Host)
    requires b.session.outbox != []
    ensures Outgoing(b) == HeadMessages(b) + Outgoing(TailHost(b))
    ensures RequestsFor(id, Outgoing(b)) == RequestsFor(id, HeadMessages(b)) + RequestsFor(id, Outgoing(TailHost(b)))
    ensures BatchesFor(id, Outgoing(b)) == BatchesFor(id, HeadMessages(b)) + BatchesFor(id, Outgoing(TailHost(b)))
  {
    RequestsForAppend(id, HeadMessages(b), Outgoing(TailHost(b)));
    BatchesForAppend(id, HeadMessages(b), Outgoing(TailHost(b)));
  }

  lemma TailUnconcerned(id: nat, b: Host)
    requires b.session.outbox != [] && NoTransfers(HeadMessages(b))
    ensures RequestsFor(id, Outgoing(TailHost(b))) == RequestsFor(id, Outgoing(b))
    ensures BatchesFor(id, Outgoing(TailHost(b))) == BatchesFor(id, Outgoing(b))
  {
    TailTransfers(id, b);
    NoTransfersFor(id, HeadMessages(b));
  }

  /** The head of the queue of `b` goes, and it does not concern transfers, or `a` is closed. */
  lemma HeadGone(a: Host, b: Host, answers: map<nat, Answer>, nextId: nat)
    requires TransferSafe(a, b, answers, nextId) && b.session.outbox != []
    requires NoTransfers(HeadMessages(b)) || (a.session.phase == Closed && a.session.requests == map[])
    ensures TransferSafe(a, TailHost(b), answers, nextId)
  {
    var rest := TailHost(b);
    forall id: nat
      ensures InFlightOnce(id, a, rest, answers) && InFlightOnce(id, rest, a, answers)
    {
      TailTransfers(id, b);
      assert InFlightOnce(id, a, b, answers) && InFlightOnce(id, b, a, answers);
    }
    forall id | id in a.session.requests ensures Tracked(id, a, rest, answers) {
      TailUnconcerned(id, b);
      assert Tracked(id, a, b, answers);
    }
    forall id | id in b.session.requests ensures Tracked(id, rest, a, answers) {
      TailTransfers(id, b);
      if NoTransfers(HeadMessages(b)) {
        TailUnconcerned(id, b);
      }
      assert Tracked(id, b, a, answers);
    }
  }

  // ---------- issuing and expiring ----------

  lemma IssuedFor(id: nat, other: nat, limit: nat, a: Host, after: Host)
    requires QueueGrows(a, after, [DiagnosticsRequest(id, limit)])
    ensures RequestsFor(other, Outgoing(after)) ==
            RequestsFor(other, Outgoing(a)) + (if other == id then [limit] else [])
    ensures BatchesFor(other, Outgoing(after)) == BatchesFor(other, Outgoing(a))
  {
    var message := DiagnosticsRequest(id, limit);
    RequestsForAppend(other, Outgoing(a), [message]);
    BatchesForAppend(other, Outgoing(a), [message]);
    OneTransferMessage(other, message);
  }

  /** The circumstances of a newly issued request. */
  ghost predicate Issues(a: Host, after: Host, b: Host, answers: map<nat, Answer>, id: nat, limit: nat) {
    && TransferSafe(a, b, answers, id) && limit <= MAXIMUM_RECORDS_PER_REQUEST
    && QueueGrows(a, after, [DiagnosticsRequest(id, limit)])
    && after.issued == a.issued[id := limit] && (after.session.phase == Closed <==> a.session.phase == Closed)
    && after.session.requests == a.session.requests[id := PendingRequest(limit, [])]
    && after.session.resolved == a.session.resolved && after.session.rejected == a.session.rejected
  }

  lemma IssuedTracks(a: Host, after: Host, b: Host, answers: map<nat, Answer>, id: nat, limit: nat, other: nat)
    requires Issues(a, after, b, answers, id, limit) && other in after.session.requests
    ensures Tracked(other, after, b, answers)
  {
    IssuedFor(id, other, limit, a, after);
    if other == id {
      assert InFlightOnce(id, a, b, answers);
    } else {
      assert Tracked(other, a, b, answers);
    }
  }

  lemma IssuedSettles(a: Host, after: Host, b: Host, answers: map<nat, Answer>, id: nat, limit: nat)
    requires Issues(a, after, b, answers, id, limit)
    ensures Settled(after) && forall other <- after.session.resolved :: Resolved(other, after, answers)
  {
    forall other | other in after.session.resolved ensures Resolved(other, after, answers) {
      assert Resolved(other, a, answers);
    }
  }

  lemma IssuedKeeps(a: Host, after: Host, b: Host, answers: map<nat, Answer>, id: nat, limit: nat)
    requires Issues(a, after, b, answers, id, limit)
    ensures TransferSafe(after, b, answers, id + 1)
  {
    IssuedSettles(a, after, b, answers, id, limit);
    forall other: nat ensures InFlightOnce(other, after, b, answers) && InFlightOnce(other, b, after, answers) {
      IssuedFor(id, other, limit, a, after);
      assert InFlightOnce(other, a, b, answers) && InFlightOnce(other, b, a, answers);
      assert InFlightOnce(id, a, b, answers);
    }
    forall other | other in after.session.requests ensures Tracked(other, after, b, answers) {
      IssuedTracks(a, after, b, answers, id, limit, other);
    }
    forall other | other in b.session.requests ensures Tracked(other, b, after, answers) {
      IssuedFor(id, other, limit, a, after);
      assert Tracked(other, b, a, answers);
    }
  }

  lemma IssuingKeeps(a: Host, b: Host, answers: map<nat, Answer>, nextId: nat, limit: int)
    requires TransferSafe(a, b, answers, nextId)
    requires InShape(a.session) && HasRoom(a.session) && a.session.phase == Connected
    ensures TransferSafe(
              a.(session := RequestDiagnostics(a.session, limit, nextId).session, issued := a.issued[nextId := BoundedLimit(limit)]),
              b, answers, nextId + 1)
  {
    RequestDiagnosticsPosts(a.session, limit, nextId);
    PostedMessages(Asking(a.session, limit, nextId), [DiagnosticsRequest(nextId, BoundedLimit(limit))]);
    IssuedKeeps(a, a.(session := RequestDiagnostics(a.session, limit, nextId).session, issued := a.issued[nextId := BoundedLimit(limit)]),
                b, answers, nextId, BoundedLimit(limit));
  }

  lemma ExpiringKeeps(a: Host, b: Host, answers: map<nat, Answer>, nextId: nat, id: nat)
    requires TransferSafe(a, b, answers, nextId)
    ensures TransferSafe(a.(session := RequestTimeout(a.session, id)), b, answers, nextId)
  {
    var after := a.(session := RequestTimeout(a.session, id));
    assert Outgoing(after) == Outgoing(a);
    forall other: nat ensures InFlightOnce(other, after, b, answers) && InFlightOnce(other, b, after, answers) {
      assert InFlightOnce(other, a, b, answers) && InFlightOnce(other, b, a, answers);
    }
    forall other | other in after.session.requests ensures Tracked(other, after, b, answers) {
      assert Tracked(other, a, b, answers);
    }
    forall other | other in b.session.requests ensures Tracked(other, b, after, answers) {
      assert Tracked(other, b, a, answers);
    }
  }

  // ---------- answering a request ----------

  /** What the queues hold for one id once `a` has taken a request off the queue of `b` and answered it. */
  lemma AnsweredFor(id: nat, limit: nat, other: nat, a: Host, after: Host, b: Host)
    requires b.session.outbox != [] && HeadMessages(b) == [DiagnosticsRequest(id, limit)]
    requires QueueGrows(a, after, Batches(id, LastRecords(a.local, limit)))
    ensures RequestsFor(other, Outgoing(after)) == RequestsFor(other, Outgoing(a))
    ensures BatchesFor(other, Outgoing(after)) ==
            if other == id
            then BatchesFor(other, Outgoing(a)) + BatchesFor(id, Batches(id, LastRecords(a.local, limit)))
            else BatchesFor(other, Outgoing(a))
    ensures RequestsFor(other, Outgoing(b)) ==
            if other == id then [limit] + RequestsFor(other, Outgoing(TailHost(b)))
            else RequestsFor(other, Outgoing(TailHost(b)))
    ensures BatchesFor(other, Outgoing(b)) == BatchesFor(other, Outgoing(TailHost(b)))
  {
    var posted := Batches(id, LastRecords(a.local, limit));
    AnswerBatches(id, LastRecords(a.local, limit));
    TailTransfers(other, b);
    OneTransferMessage(other, DiagnosticsRequest(id, limit));
    RequestsForAppend(other, Outgoing(a), posted);
    BatchesForAppend(other, Outgoing(a), posted);
  }

  /** The circumstances of an answered request. */
  ghost predicate Answered(a: Host, after: Host, b: Host, answers: map<nat, Answer>, nextId: nat, id: nat, limit: nat) {
    && TransferSafe(a, b, answers, nextId) && b.session.outbox != []
    && HeadMessages(b) == [DiagnosticsRequest(id, limit)]
    && a.session.phase == Connected && after.session.phase == Connected
    && after.issued == a.issued && after.session.requests == a.session.requests
    && after.session.resolved == a.session.resolved && after.session.rejected == a.session.rejected
    && QueueGrows(a, after, Batches(id, LastRecords(a.local, limit)))
  }

  lemma AnsweredOnce(
    a: Host, after: Host, b: Host, answers: map<nat, Answer>, nextId: nat, id: nat, limit: nat, other: nat)
    requires Answered(a, after, b, answers, nextId, id, limit)
    ensures id in b.issued && id !in answers && id !in a.issued
    ensures var answered := answers[id := Answer(limit, a.local)];
            InFlightOnce(other, after, TailHost(b), answered) && InFlightOnce(other, TailHost(b), after, answered)
  {
    AnsweredFor(id, limit, id, a, after, b);
    AnsweredFor(id, limit, other, a, after, b);
    assert InFlightOnce(id, b, a, answers);
    assert InFlightOnce(other, a, b, answers) && InFlightOnce(other, b, a, answers);
  }

  lemma AnsweredTracksOwn(
    a: Host, after: Host, b: Host, answers: map<nat, Answer>, nextId: nat, id: nat, limit: nat, other: nat)
    requires Answered(a, after, b, answers, nextId, id, limit) && other in a.session.requests
    ensures Tracked(other, after, TailHost(b), answers[id := Answer(limit, a.local)])
  {
    AnsweredOnce(a, after, b, answers, nextId, id, limit, other);
    AnsweredFor(id, limit, other, a, after, b);
    assert other != id;
    assert Tracked(other, a, b, answers);
  }

  /** A pending request that is answered now: all of its answer is in the queue. */
  lemma NowAnswered(pending: PendingRequest, limit: nat, rest: seq<nat>, before: seq<Batch>, answer: Answer, id: nat)
    requires TrackedBy(pending, [limit] + rest, before, None, true) && answer.limit == limit
    ensures TrackedBy(pending, rest, before + BatchesFor(id, Batches(id, AnswerRecords(answer))), Some(answer), true)
  {
    assert |[limit] + rest| == 1 && ([limit] + rest)[0] == limit;
    var posted := BatchesFor(id, Batches(id, AnswerRecords(answer)));
    AnswerBatches(id, AnswerRecords(answer));
    assert before + posted == posted;
    assert pending.records + Collected(posted) == Collected(posted);
  }

  lemma AnsweredTracksPeers(
    a: Host, after: Host, b: Host, answers: map<nat, Answer>, nextId: nat, id: nat, limit: nat, other: nat)
    requires Answered(a, after, b, answers, nextId, id, limit) && other in b.session.requests
    ensures Tracked(other, TailHost(b), after, answers[id := Answer(limit, a.local)])
  {
    AnsweredOnce(a, after, b, answers, nextId, id, limit, other);
    AnsweredFor(id, limit, other, a, after, b);
    assert Tracked(other, b, a, answers);
    if other == id {
      NowAnswered(b.session.requests[id], limit, RequestsFor(id, Outgoing(TailHost(b))),
                  BatchesFor(id, Outgoing(a)), Answer(limit, a.local), id);
    }
  }

  /** `a` takes a request of `b` off the queue, answers it and posts the batches. */
  lemma AnsweringKeepsTransfers(
    a: Host, after: Host, b: Host, answers: map<nat, Answer>, nextId: nat, id: nat, limit: nat)
    requires Answered(a, after, b, answers, nextId, id, limit)
    ensures TransferSafe(after, TailHost(b), answers[id := Answer(limit, a.local)], nextId)
  {
    var rest := TailHost(b);
    var answered := answers[id := Answer(limit, a.local)];
    AnsweredOnce(a, after, b, answers, nextId, id, limit, id);
    forall other: nat ensures InFlightOnce(other, after, rest, answered) && InFlightOnce(other, rest, after, answered) {
      AnsweredOnce(a, after, b, answers, nextId, id, limit, other);
    }
    forall other | other in after.session.requests ensures Tracked(other, after, rest, answered) {
      AnsweredTracksOwn(a, after, b, answers, nextId, id, limit, other);
    }
    forall other | other in rest.session.requests ensures Tracked(other, rest, after, answered) {
      AnsweredTracksPeers(a, after, b, answers, nextId, id, limit, other);
    }
  }

  // ---------- receiving a batch ----------

  /** The next batch of a tracked request: it fits, and it is complete exactly when nothing is left. */
  lemma NextBatch(pending: PendingRequest, requests: seq<nat>, first: Batch, rest: seq<Batch>, answer: Option<Answer>, serverOpen: bool)
    requires TrackedBy(pending, requests, [first] + rest, answer, serverOpen)
    ensures answer.Some?
    ensures var collected := pending.records + first.records;
            && |collected| <= pending.limit
            && (first.complete <==> rest == [])
            && (first.complete ==> collected == AnswerRecords(answer.value))
            && (!first.complete ==> TrackedBy(pending.(records := collected), requests, rest, answer, serverOpen))
  {
    var all := [first] + rest;
    assert all[0] == first && all[1..] == rest;
    assert Collected(all) == first.records + Collected(rest);
    assert (pending.records + first.records) + Collected(rest) == pending.records + (first.records + Collected(rest));
    forall k | 0 <= k < |rest| ensures rest[k].complete <==> k == |rest| - 1 {
      assert rest[k] == all[k + 1];
    }
  }

  /** What the queues hold for one id once a batch is taken off the queue of `b`. */
  lemma TakenFor(id: nat, records: seq<DiagnosticRecord>, complete: bool, other: nat, b: Host)
    requires b.session.outbox != [] && HeadMessages(b) == [DiagnosticsBatch(id, records, complete)]
    ensures RequestsFor(other, Outgoing(b)) == RequestsFor(other, Outgoing(TailHost(b)))
    ensures BatchesFor(other, Outgoing(b)) ==
            if other == id then [Batch(records, complete)] + BatchesFor(other, Outgoing(TailHost(b)))
            else BatchesFor(other, Outgoing(TailHost(b)))
  {
    TailTransfers(other, b);
    OneTransferMessage(other, DiagnosticsBatch(id, records, complete));
  }

  /** A batch for a pending request never exceeds its limit, and a complete one completes the answer. */
  lemma BatchFits(a: Host, b: Host, answers: map<nat, Answer>, nextId: nat, id: nat, records: seq<DiagnosticRecord>, complete: bool)
    requires TransferSafe(a, b, answers, nextId) && b.session.outbox != []
    requires HeadMessages(b) == [DiagnosticsBatch(id, records, complete)] && id in a.session.requests
    ensures id in answers
    ensures var collected := a.session.requests[id].records + records;
            && |collected| <= a.session.requests[id].limit
            && (complete ==> collected == AnswerRecords(answers[id]))
            && (!complete ==>
                  TrackedBy(a.session.requests[id].(records := collected), RequestsFor(id, Outgoing(a)),
                            BatchesFor(id, Outgoing(TailHost(b))), AnswerFor(id, answers),
                            b.session.phase != Closed))
  {
    TakenFor(id, records, complete, id, b);
    assert Tracked(id, a, b, answers);
    NextBatch(a.session.requests[id], RequestsFor(id, Outgoing(a)), Batch(records, complete),
              BatchesFor(id, Outgoing(TailHost(b))), AnswerFor(id, answers), b.session.phase != Closed);
  }

  /** The circumstances of a received batch. */
  ghost predicate Taken(a: Host, after: Host, b: Host, answers: map<nat, Answer>, nextId: nat,
                        id: nat, records: seq<DiagnosticRecord>, complete: bool) {
    && TransferSafe(a, b, answers, nextId) && b.session.outbox != []
    && HeadMessages(b) == [DiagnosticsBatch(id, records, complete)]
    && Outgoing(after) == Outgoing(a) && after.issued == a.issued
    && after.session.phase == a.session.phase
    && var outcome := HandleDiagnosticsBatch(a.session, id, records, complete).session;
       && after.session.requests == outcome.requests && after.session.resolved == outcome.resolved
       && after.session.rejected == outcome.rejected
  }

  /** What the handler does to the requests, in terms of the pending one. */
  lemma TakenRequests(s: Session, id: nat, records: seq<DiagnosticRecord>, complete: bool)
    requires id in s.requests && |s.requests[id].records + records| <= s.requests[id].limit
    ensures var outcome := HandleDiagnosticsBatch(s, id, records, complete).session;
            var collected := s.requests[id].records + records;
            && outcome.rejected == s.rejected
            && (complete ==> outcome.requests == s.requests - {id} && outcome.resolved == s.resolved[id := collected])
            && (!complete ==>
                  && outcome.requests == s.requests[id := s.requests[id].(records := collected)]
                  && outcome.resolved == s.resolved)
  {
  }

  /** The same for a session that a batch reached. */
  lemma TakenPending(a: Host, after: Host, b: Host, answers: map<nat, Answer>, nextId: nat,
                     id: nat, records: seq<DiagnosticRecord>, complete: bool, other: nat)
    requires Taken(a, after, b, answers, nextId, id, records, complete) && other in after.session.requests
    ensures other in a.session.requests
    ensures if other == id
            then !complete && after.session.requests[id] ==
                 a.session.requests[id].(records := a.session.requests[id].records + records)
            else after.session.requests[other] == a.session.requests[other]
  {
    if id in a.session.requests {
      BatchFits(a, b, answers, nextId, id, records, complete);
      TakenRequests(a.session, id, records, complete);
    }
  }

  lemma TakenTracksOwn(a: Host, after: Host, b: Host, answers: map<nat, Answer>, nextId: nat,
                       id: nat, records: seq<DiagnosticRecord>, complete: bool, other: nat)
    requires Taken(a, after, b, answers, nextId, id, records, complete) && other in after.session.requests
    ensures Tracked(other, after, TailHost(b), answers)
  {
    TakenPending(a, after, b, answers, nextId, id, records, complete, other);
    if other == id {
      BatchFits(a, b, answers, nextId, id, records, complete);
    } else {
      TakenFor(id, records, complete, other, b);
      assert Tracked(other, a, b, answers);
    }
  }

  lemma SettledByBatch(a: Host, after: Host, id: nat, collected: seq<DiagnosticRecord>)
    requires Settled(a) && id in a.session.requests && after.issued == a.issued
    requires after.session.rejected == a.session.rejected
    requires after.session.requests == a.session.requests - {id}
    requires after.session.resolved == a.session.resolved[id := collected]
    ensures Settled(after)
  {
  }

  lemma ExtendedByBatch(a: Host, after: Host, id: nat, pending: PendingRequest)
    requires Settled(a) && id in a.session.requests && after.issued == a.issued
    requires after.session.rejected == a.session.rejected
    requires after.session.requests == a.session.requests[id := pending]
    requires after.session.resolved == a.session.resolved
    ensures Settled(after)
  {
    assert after.session.requests.Keys == a.session.requests.Keys;
  }

  lemma TakenSettles(a: Host, after: Host, b: Host, answers: map<nat, Answer>, nextId: nat,
                     id: nat, records: seq<DiagnosticRecord>, complete: bool)
    requires Taken(a, after, b, answers, nextId, id, records, complete)
    ensures Settled(after)
    ensures forall other <- after.session.resolved :: Resolved(other, after, answers)
  {
    if id in a.session.requests {
      BatchFits(a, b, answers, nextId, id, records, complete);
      TakenRequests(a.session, id, records, complete);
      var collected := a.session.requests[id].records + records;
      if complete {
        SettledByBatch(a, after, id, collected);
      } else {
        ExtendedByBatch(a, after, id, a.session.requests[id].(records := collected));
      }
    }
  }

  lemma BatchKeepsTransfers(a: Host, after: Host, b: Host, answers: map<nat, Answer>, nextId: nat,
                            id: nat, records: seq<DiagnosticRecord>, complete: bool)
    requires Taken(a, after, b, answers, nextId, id, records, complete)
    ensures TransferSafe(after, TailHost(b), answers, nextId)
  {
    var rest := TailHost(b);
    TakenSettles(a, after, b, answers, nextId, id, records, complete);
    forall other: nat ensures InFlightOnce(other, after, rest, answers) && InFlightOnce(other, rest, after, answers) {
      TakenFor(id, records, complete, other, b);
      assert InFlightOnce(other, a, b, answers) && InFlightOnce(other, b, a, answers);
    }
    forall other | other in after.session.requests ensures Tracked(other, after, rest, answers) {
      TakenTracksOwn(a, after, b, answers, nextId, id, records, complete, other);
    }
    forall other | other in rest.session.requests ensures Tracked(other, rest, after, answers) {
      TakenFor(id, records, complete, other, b);
      assert Tracked(other, b, a, answers);
    }
  }
}
