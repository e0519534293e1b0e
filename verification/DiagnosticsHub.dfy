/**
 The ring buffer of diagnostic records, bounded by age and by number, and the selection of the local
 records that a peer may read.  The clock is a parameter of each operation.
 */
module DiagnosticsHub {
  import opened ProtocolContracts
  import opened SessionModel

  datatype Source = LocalSource | RemoteSource

  datatype Collected = Collected(receivedAt: int, source: Source, record: DiagnosticRecord)

  // ---------- pruning ----------

  function Maximum(x: int, y: int): int { if x < y then y else x }

  /** How many records at the front are older than the cutoff. */
  function OldAtFront(records: seq<Collected>, cutoff: int): (count: nat)
    ensures count <= |records|
  {
    if records == [] || records[0].receivedAt >= cutoff then 0 else 1 + OldAtFront(records[1..], cutoff)
  }

  /** All records before the count are old, and the one at the count is not. */
  lemma {:induction false} OldAtFrontMeaning(records: seq<Collected>, cutoff: int)
    ensures var count := OldAtFront(records, cutoff);
            && (forall k | 0 <= k < count :: records[k].receivedAt < cutoff)
            && (count < |records| ==> records[count].receivedAt >= cutoff)
  {
    if records != [] && records[0].receivedAt < cutoff {
      OldAtFrontMeaning(records[1..], cutoff);
    }
  }

  /** How many records `prune` takes off the front. */
  function Dropped(records: seq<Collected>, cutoff: int, limit: nat): (count: nat)
    ensures count <= |records|
  {
    Maximum(OldAtFront(records, cutoff), |records| - limit)
  }

  /** What `prune` leaves: the front loses its old records, then whatever exceeds the limit. */
  function Kept(records: seq<Collected>, cutoff: int, limit: nat): seq<Collected> {
    records[Dropped(records, cutoff, limit)..]
  }

  class Hub {
    const recordLimit: nat
    const retention: nat
    var records: seq<Collected>

    constructor (recordLimit: nat, retention: nat)
      requires recordLimit >= 1 && retention >= 1
      ensures this.recordLimit == recordLimit && this.retention == retention && records == []
    {
      this.recordLimit, this.retention, records := recordLimit, retention, [];
    }

    method Prune(now: int)
      modifies this`records
      ensures records == Kept(old(records), now - retention, recordLimit)
    {
      var oldestRetained := now - retention;
      ghost var dropped: nat := 0;
      while |records| > 0 && records[0].receivedAt < oldestRetained
        invariant dropped <= |old(records)| && records == old(records)[dropped..]
        invariant dropped + OldAtFront(records, oldestRetained) == OldAtFront(old(records), oldestRetained)
        decreases |records|
      {
        records := records[1..];
        dropped := dropped + 1;
      }
      while |records| > recordLimit
        invariant OldAtFront(old(records), oldestRetained) <= dropped <= |old(records)|
        invariant records == old(records)[dropped..]
        invariant dropped == OldAtFront(old(records), oldestRetained) || dropped <= |old(records)| - recordLimit
        decreases |records|
      {
        records := records[1..];
        dropped := dropped + 1;
      }
    }

    /** The record is kept and pruning follows at once. */
    method Publish(record: DiagnosticRecord, source: Source, now: int)
      modifies this`records
      ensures records == Kept(old(records) + [Collected(now, source, record)], now - retention, recordLimit)
    {
      records := records + [Collected(now, source, record)];
      Prune(now);
    }

    method Snapshot(now: int) returns (copy: seq<Collected>)
      modifies this`records
      ensures records == copy == Kept(old(records), now - retention, recordLimit)
    {
      Prune(now);
      copy := records;
    }

    /** `ConnectionManager.localDiagnosticRecords`: the last local records, as a peer may ask for them. */
    method LocalRecords(limit: nat, now: int) returns (local: seq<DiagnosticRecord>)
      modifies this`records
      ensures records == Kept(old(records), now - retention, recordLimit)
      ensures local == SliceFromEnd(LocalOnly(records), limit)
    {
      var snapshot := Snapshot(now);
      var filtered := [];
      for i := 0 to |snapshot|
        invariant filtered == LocalOnly(snapshot[..i])
      {
        assert snapshot[..i + 1][..i] == snapshot[..i];
        if snapshot[i].source == LocalSource {
          filtered := filtered + [snapshot[i].record];
        }
      }
      assert snapshot[..|snapshot|] == snapshot;
      local := SliceFromEnd(filtered, limit);
    }
  }

  /** `slice(-limit)`; a zero limit drops nothing. */
  function SliceFromEnd(records: seq<DiagnosticRecord>, limit: nat): seq<DiagnosticRecord> {
    if limit == 0 then records else LastRecords(records, limit)
  }

  function LocalOnly(records: seq<Collected>): seq<DiagnosticRecord> {
    if records == [] then []
    else
      var last := records[|records| - 1];
      LocalOnly(records[..|records| - 1]) + (if last.source == LocalSource then [last.record] else [])
  }

  // ---------- the history ----------

  datatype Event = Publishing(at: int, source: Source, record: DiagnosticRecord) | Reading(at: int)

  /** The records a call adds. */
  function Added(event: Event): seq<Collected> {
    match event
    case Publishing(at, source, record) => [Collected(at, source, record)]
    case Reading(_) => []
  }

  /** The buffer after the first `n` calls of a history. */
  function Buffer(limit: nat, retention: nat, events: seq<Event>, n: nat): seq<Collected>
    requires n <= |events|
  {
    if n == 0 then []
    else
      Kept(Buffer(limit, retention, events, n - 1) + Added(events[n - 1]), events[n - 1].at - retention, limit)
  }

  /** Everything published by then, in order. */
  function Published(events: seq<Event>, n: nat): seq<Collected>
    requires n <= |events|
  {
    if n == 0 then [] else Published(events, n - 1) + Added(events[n - 1])
  }

  predicate ClockNeverGoesBack(events: seq<Event>) {
    forall i, j | 0 <= i < j < |events| :: events[i].at <= events[j].at
  }

  /** The class run over a history. */
  method Replay(limit: nat, retention: nat, events: seq<Event>) returns (hub: Hub)
    requires limit >= 1 && retention >= 1
    ensures hub.records == Buffer(limit, retention, events, |events|)
  {
    hub := new Hub(limit, retention);
    for n := 0 to |events|
      invariant hub.recordLimit == limit && hub.retention == retention
      invariant hub.records == Buffer(limit, retention, events, n)
    {
      match events[n]
      case Publishing(at, source, record) => hub.Publish(record, source, at);
      case Reading(at) =>
        assert hub.records + [] == hub.records;
        var copy := hub.Snapshot(at);
    }
  }

  // ---------- the reference: a filter ----------

  /** The records inside the retention window, wherever they stand. */
  function Recent(records: seq<Collected>, cutoff: int): seq<Collected> {
    if records == [] then []
    else
      var last := records[|records| - 1];
      Recent(records[..|records| - 1], cutoff) + (if last.receivedAt >= cutoff then [last] else [])
  }

  predicate InOrder(records: seq<Collected>) {
    forall i, j | 0 <= i < j < |records| :: records[i].receivedAt <= records[j].receivedAt
  }

  lemma OrderedFront(records: seq<Collected>, k: nat)
    requires InOrder(records) && k <= |records|
    ensures InOrder(records[..k])
  {
  }

  /** The records that are not old at the front of a longer list. */
  lemma OldWithLast(front: seq<Collected>, last: Collected, cutoff: int)
    requires InOrder(front + [last])
    ensures (front + [last])[OldAtFront(front + [last], cutoff)..] ==
            front[OldAtFront(front, cutoff)..] + (if last.receivedAt >= cutoff then [last] else [])
  {
    OldOfLonger(front, last, cutoff);
    OldAtFrontMeaning(front, cutoff);
    var n := OldAtFront(front, cutoff);
    if n < |front| {
      assert (front + [last])[n] == front[n] && (front + [last])[|front|] == last;
    }
  }

  lemma {:induction false} RecentOfOrdered(records: seq<Collected>, cutoff: int)
    requires InOrder(records)
    ensures Recent(records, cutoff) == records[OldAtFront(records, cutoff)..]
  {
    if records != [] {
      var front, last := records[..|records| - 1], records[|records| - 1];
      OrderedFront(records, |records| - 1);
      RecentOfOrdered(front, cutoff);
      assert front + [last] == records;
      OldWithLast(front, last, cutoff);
    }
  }

  lemma {:induction false} OldOfLonger(records: seq<Collected>, last: Collected, cutoff: int)
    ensures OldAtFront(records + [last], cutoff) ==
            if OldAtFront(records, cutoff) < |records| || last.receivedAt >= cutoff
            then OldAtFront(records, cutoff) else |records| + 1
  {
    if records == [] {
      assert (records + [last])[1..] == [];
    } else if records[0].receivedAt < cutoff {
      assert (records + [last])[1..] == records[1..] + [last];
      OldOfLonger(records[1..], last, cutoff);
    }
  }

  lemma OldOfSuffix(records: seq<Collected>, k: nat, cutoff: int)
    requires InOrder(records) && k <= |records|
    ensures OldAtFront(records[k..], cutoff) == Maximum(0, OldAtFront(records, cutoff) - k)
  {
    var n, m := OldAtFront(records, cutoff), OldAtFront(records[k..], cutoff);
    OldAtFrontMeaning(records, cutoff);
    OldAtFrontMeaning(records[k..], cutoff);
    if m < |records| - k {
      assert records[k + m].receivedAt >= cutoff;
      assert n <= k + m;
    }
    if m > 0 {
      assert records[k..][m - 1].receivedAt < cutoff;
      assert n > k + m - 1;
    }
  }

  /** Old records pruned at an earlier cutoff would have gone at a later one. */
  lemma OldGrows(records: seq<Collected>, earlier: int, later: int)
    requires earlier <= later
    ensures OldAtFront(records, earlier) <= OldAtFront(records, later)
  {
    OldAtFrontMeaning(records, earlier);
    OldAtFrontMeaning(records, later);
  }

  lemma DroppedTwice(records: seq<Collected>, added: seq<Collected>, earlier: int, later: int, limit: nat)
    requires InOrder(records + added) && earlier <= later
    ensures var k := Dropped(records, earlier, limit);
            k + Dropped((records + added)[k..], later, limit) == Dropped(records + added, later, limit)
  {
    OldOfSuffix(records + added, Dropped(records, earlier, limit), later);
    OldGrows(records, earlier, later);
    OldOfPrefix(records, added, later);
  }

  /** Pruning before adding makes no difference to pruning after. */
  lemma KeptOnce(records: seq<Collected>, added: seq<Collected>, earlier: int, later: int, limit: nat)
    requires InOrder(records + added) && earlier <= later
    ensures Kept(Kept(records, earlier, limit) + added, later, limit) == Kept(records + added, later, limit)
  {
    DroppedTwice(records, added, earlier, later, limit);
    var k := Dropped(records, earlier, limit);
    SuffixOfSuffix(records, added, k, Dropped((records + added)[k..], later, limit));
  }

  lemma SuffixOfSuffix(records: seq<Collected>, added: seq<Collected>, k: nat, n: nat)
    requires k <= |records| && k + n <= |records| + |added|
    ensures records[k..] + added == (records + added)[k..]
    ensures (records[k..] + added)[n..] == (records + added)[k + n..]
  {
    assert records[k..] + added == (records + added)[k..];
  }

  lemma OldOfPrefix(records: seq<Collected>, added: seq<Collected>, cutoff: int)
    ensures OldAtFront(records, cutoff) <= OldAtFront(records + added, cutoff)
  {
    var n := OldAtFront(records + added, cutoff);
    OldAtFrontMeaning(records + added, cutoff);
    OldAtFrontMeaning(records, cutoff);
    if n < |records| {
      assert (records + added)[n] == records[n];
    }
  }

  lemma {:induction false} PublishedInOrder(events: seq<Event>, n: nat)
    requires ClockNeverGoesBack(events) && n <= |events|
    ensures InOrder(Published(events, n))
    ensures forall k | 0 <= k < |Published(events, n)| :: n > 0 && Published(events, n)[k].receivedAt <= events[n - 1].at
  {
    if n > 0 {
      PublishedInOrder(events, n - 1);
    }
  }

  /** One call more, for a buffer that was the pruned history before it. */
  lemma KeptStep(buffer: seq<Collected>, history: seq<Collected>, added: seq<Collected>, earlier: int, later: int, limit: nat)
    requires buffer == Kept(history, earlier, limit) && InOrder(history + added) && earlier <= later
    ensures Kept(buffer + added, later, limit) == Kept(history + added, later, limit)
  {
    KeptOnce(history, added, earlier, later, limit);
  }

  lemma {:induction false} BufferIsKept(limit: nat, retention: nat, events: seq<Event>, n: nat)
    requires ClockNeverGoesBack(events) && 0 < n <= |events|
    ensures Buffer(limit, retention, events, n) == Kept(Published(events, n), events[n - 1].at - retention, limit)
  {
    PublishedInOrder(events, n);
    if n > 1 {
      BufferIsKept(limit, retention, events, n - 1);
      KeptStep(Buffer(limit, retention, events, n - 1), Published(events, n - 1), Added(events[n - 1]),
               events[n - 2].at - retention, events[n - 1].at - retention, limit);
    } else {
      assert Buffer(limit, retention, events, 0) == [] && Published(events, 0) == [];
    }
  }

  function LastOf(records: seq<Collected>, limit: nat): seq<Collected> {
    if |records| <= limit then records else records[|records| - limit..]
  }

  lemma KeptIsLastRecent(buffer: seq<Collected>, records: seq<Collected>, cutoff: int, limit: nat)
    requires InOrder(records) && buffer == Kept(records, cutoff, limit)
    ensures buffer == LastOf(Recent(records, cutoff), limit)
  {
    RecentOfOrdered(records, cutoff);
    var n := OldAtFront(records, cutoff);
    if |records| - n > limit {
      assert records[n..][|records| - n - limit..] == records[|records| - limit..];
    }
  }

  /**
   With a clock that never goes back, the buffer is the filtered history: of everything ever
   published, the last records inside the retention window, as many as the limit allows.
   */
  lemma BufferIsFilteredHistory(limit: nat, retention: nat, events: seq<Event>, n: nat)
    requires ClockNeverGoesBack(events) && 0 < n <= |events|
    ensures Buffer(limit, retention, events, n) ==
            LastOf(Recent(Published(events, n), events[n - 1].at - retention), limit)
  {
    BufferIsKept(limit, retention, events, n);
    PublishedInOrder(events, n);
    KeptIsLastRecent(Buffer(limit, retention, events, n), Published(events, n), events[n - 1].at - retention, limit);
  }

  predicate IsSuffix(part: seq<Collected>, whole: seq<Collected>) {
    |part| <= |whole| && forall k | 0 <= k < |part| :: part[k] == whole[|whole| - |part| + k]
  }

  lemma SuffixGrows(part: seq<Collected>, whole: seq<Collected>, added: seq<Collected>, cutoff: int, limit: nat)
    requires IsSuffix(part, whole)
    ensures IsSuffix(Kept(part + added, cutoff, limit), whole + added)
  {
  }

  lemma KeptHead(records: seq<Collected>, cutoff: int, limit: nat)
    ensures var kept := Kept(records, cutoff, limit);
            |kept| <= limit && (0 < |kept| < limit ==> kept[0].receivedAt >= cutoff)
  {
    OldAtFrontMeaning(records, cutoff);
  }

  /** A suffix of the history within the limit, with a head that is not old unless the limit on the number has cut it. */
  predicate RecentSuffix(buffer: seq<Collected>, history: seq<Collected>, cutoff: int, limit: nat) {
    && |buffer| <= limit && IsSuffix(buffer, history)
    && (0 < |buffer| < limit ==> buffer[0].receivedAt >= cutoff)
  }

  lemma SuffixStep(buffer: seq<Collected>, before: seq<Collected>, history: seq<Collected>, added: seq<Collected>,
                   cutoff: int, limit: nat)
    requires IsSuffix(before, history) && buffer == Kept(before + added, cutoff, limit)
    ensures RecentSuffix(buffer, history + added, cutoff, limit)
  {
    SuffixGrows(before, history, added, cutoff, limit);
    KeptHead(before + added, cutoff, limit);
  }

  lemma {:induction false} BufferIsSuffix(limit: nat, retention: nat, events: seq<Event>, n: nat)
    requires n <= |events|
    ensures IsSuffix(Buffer(limit, retention, events, n), Published(events, n))
  {
    if n > 0 {
      BufferIsSuffix(limit, retention, events, n - 1);
      SuffixStep(Buffer(limit, retention, events, n), Buffer(limit, retention, events, n - 1), Published(events, n - 1),
                 Added(events[n - 1]), events[n - 1].at - retention, limit);
    }
  }

  /**
   With any clock the buffer is a suffix of the history within the limit, and its head is inside the
   window of the last call unless the limit on the number has cut it.
   */
  lemma BufferIsRecentSuffix(limit: nat, retention: nat, events: seq<Event>, n: nat)
    requires 0 < n <= |events|
    ensures RecentSuffix(Buffer(limit, retention, events, n), Published(events, n), events[n - 1].at - retention, limit)
  {
    BufferIsSuffix(limit, retention, events, n - 1);
    SuffixStep(Buffer(limit, retention, events, n), Buffer(limit, retention, events, n - 1), Published(events, n - 1),
               Added(events[n - 1]), events[n - 1].at - retention, limit);
  }

  lemma KeptOldHeadIff(records: seq<Collected>, cutoff: int, limit: nat)
    ensures var kept := Kept(records, cutoff, limit);
            kept != [] && kept[0].receivedAt < cutoff <==>
            0 < limit && |records| - limit > OldAtFront(records, cutoff) && records[|records| - limit].receivedAt < cutoff
  {
    OldAtFrontMeaning(records, cutoff);
  }

  /**
   With any clock the head of the buffer lies outside the window of the last call if and only if the
   limit on the number cut more than the old records at the front, and the first record it left is old.
   */
  lemma OldHeadIff(limit: nat, retention: nat, events: seq<Event>, n: nat)
    requires 0 < n <= |events|
    ensures var buffer := Buffer(limit, retention, events, n);
            var records := Buffer(limit, retention, events, n - 1) + Added(events[n - 1]);
            var cutoff := events[n - 1].at - retention;
            buffer != [] && buffer[0].receivedAt < cutoff <==>
            0 < limit && |records| - limit > OldAtFront(records, cutoff) && records[|records| - limit].receivedAt < cutoff
  {
    KeptOldHeadIff(Buffer(limit, retention, events, n - 1) + Added(events[n - 1]), events[n - 1].at - retention, limit);
  }

  /** A clock that goes back and a full buffer leave an old record at the head. */
  lemma OldRecordAtTheHead(record: DiagnosticRecord)
    ensures var events := [Publishing(100, LocalSource, record), Publishing(50, LocalSource, record),
                           Publishing(100, LocalSource, record)];
            var buffer := Buffer(2, 10, events, 3);
            |buffer| == 2 && buffer[0].receivedAt == 50 < events[2].at - 10
  {
    var events := [Publishing(100, LocalSource, record), Publishing(50, LocalSource, record),
                   Publishing(100, LocalSource, record)];
    var x, y := Collected(100, LocalSource, record), Collected(50, LocalSource, record);
    assert Buffer(2, 10, events, 0) == [];
    assert Buffer(2, 10, events, 1) == Kept([] + [x], 90, 2) == [x];
    assert Buffer(2, 10, events, 2) == Kept([x] + [y], 40, 2) == [x, y];
    assert Buffer(2, 10, events, 3) == Kept([x, y] + [x], 90, 2) == [y, x];
  }

  // ---------- the records a peer gets ----------

  /** The provider has cut the list to the limit already; cutting it again changes nothing. */
  lemma CutTwice(records: seq<DiagnosticRecord>, limit: nat)
    requires limit >= 1
    ensures LastRecords(SliceFromEnd(records, limit), limit) == LastRecords(records, limit)
  {
  }
}
