/**
 The store of computers that may connect without a code: one grant per device and direction, good
 for thirty days, kept in a file.  The clock is a parameter; the file is the list of values last
 written to it.
 */
module PairedPeerStore {
  import opened Wrappers
  import opened ProtocolContracts

  const TRUST_DURATION_MS := 30 * 24 * 60 * 60 * 1000
  const MAXIMUM_SAFE_INTEGER := 9007199254740991

  datatype Candidate = Candidate(
    intent: Intent, deviceId: string, displayName: string, publicKeyDer: string, lastAddress: string)

  datatype Record = Record(peer: Candidate, trustedAt: int, expiresAt: int)

  /** A value found in the file: anything at all, or an object with fields of the right types. */
  datatype Stored =
    | Other
    | Entry(direction: string, intent: string, deviceId: string, displayName: string, publicKeyDer: string,
            lastAddress: string, trustedAt: int, expiresAt: int)

  // ---------- keys ----------

  function IntentText(intent: Intent): string {
    match intent
    case ViewRemote => "view-remote"
    case ShareLocal => "share-local"
  }

  function KeyOf(deviceId: string, intent: Intent): string { deviceId + ":" + IntentText(intent) }

  /** Two grants share a key only if they agree in device and direction, whatever the device id contains. */
  lemma KeyIsInjective(d1: string, i1: Intent, d2: string, i2: Intent)
    requires KeyOf(d1, i1) == KeyOf(d2, i2)
    ensures d1 == d2 && i1 == i2
  {
    var k1, k2 := KeyOf(d1, i1), KeyOf(d2, i2);
    assert |IntentText(i1)| == 11 && |IntentText(i2)| == 11;
    assert k1[..|d1|] == d1 && k2[..|d2|] == d2;
    assert k1[|d1| + 1..] == IntentText(i1) && k2[|d2| + 1..] == IntentText(i2);
    assert IntentText(i1)[0] == IntentText(i2)[0];
  }

  // ---------- what the file may hold ----------

  predicate IsHex(c: char) { '0' <= c <= '9' || 'a' <= c <= 'f' || 'A' <= c <= 'F' }

  predicate IsDeviceId(text: string) { |text| == 32 && forall c <- text :: IsHex(c) }

  predicate IsBase64(c: char) {
    'A' <= c <= 'Z' || 'a' <= c <= 'z' || '0' <= c <= '9' || c == '+' || c == '/'
  }

  predicate IsBase64Body(text: string) { text != "" && forall c <- text :: IsBase64(c) }

  /** A base64 body, then at most two padding characters. */
  predicate IsKeyText(text: string) {
    || IsBase64Body(text)
    || (|text| > 1 && text[|text| - 1..] == "=" && IsBase64Body(text[..|text| - 1]))
    || (|text| > 2 && text[|text| - 2..] == "==" && IsBase64Body(text[..|text| - 2]))
  }

  /** The length of a string in 16-bit units. */
  function TextLength(text: string): nat {
    if text == "" then 0 else (if text[0] as int < 0x10000 then 1 else 2) + TextLength(text[1..])
  }

  predicate IsText(text: string, maximum: nat) { 0 < TextLength(text) <= maximum }

  predicate IsSafeInteger(n: int) { -MAXIMUM_SAFE_INTEGER <= n <= MAXIMUM_SAFE_INTEGER }

  /** The rules for the fields of a peer, which the handshake enforces too. */
  predicate WellFormed(peer: Candidate) {
    && IsDeviceId(peer.deviceId) && IsText(peer.displayName, 64)
    && IsKeyText(peer.publicKeyDer) && TextLength(peer.publicKeyDer) <= 4096
    && IsText(peer.lastAddress, 64)
  }

  function IntentOf(text: string): Option<Intent> {
    if text == "view-remote" then Some(ViewRemote) else if text == "share-local" then Some(ShareLocal) else None
  }

  function ValidateRecord(value: Stored, now: int): Option<Record> {
    if value.Other? || value.direction != "inbound" || IntentOf(value.intent).None? then None
    else
      var peer := Candidate(IntentOf(value.intent).value, value.deviceId, value.displayName, value.publicKeyDer,
                            value.lastAddress);
      if !WellFormed(peer) || !IsSafeInteger(value.trustedAt) || !IsSafeInteger(value.expiresAt) ||
         value.trustedAt > now || value.expiresAt != value.trustedAt + TRUST_DURATION_MS then None
      else Some(Record(peer, value.trustedAt, value.expiresAt))
  }

  function Written(record: Record): Stored {
    Entry("inbound", IntentText(record.peer.intent), record.peer.deviceId, record.peer.displayName,
          record.peer.publicKeyDer, record.peer.lastAddress, record.trustedAt, record.expiresAt)
  }

  /** Exactly which written records are read back: those that keep the rules and are not from the future. */
  lemma ReadBackIff(record: Record, now: int)
    ensures ValidateRecord(Written(record), now) == Some(record) <==>
            WellFormed(record.peer) && record.trustedAt <= now &&
            record.expiresAt == record.trustedAt + TRUST_DURATION_MS &&
            IsSafeInteger(record.trustedAt) && IsSafeInteger(record.expiresAt)
  {
    assert IntentText(ViewRemote) != IntentText(ShareLocal) by {
      assert IntentText(ViewRemote)[0] != IntentText(ShareLocal)[0];
    }
  }

  // ---------- the map and its order ----------

  /** The map of a store and the order in which its keys were first set. */
  datatype Book = Book(peers: map<string, Record>, order: seq<string>)

  predicate Distinct(keys: seq<string>) {
    forall i, j | 0 <= i < j < |keys| :: keys[i] != keys[j]
  }

  predicate IsBook(book: Book) {
    && Distinct(book.order)
    && (forall key <- book.order :: key in book.peers)
    && (forall key <- book.peers :: key in book.order)
  }

  const EMPTY := Book(map[], [])

  function Put(book: Book, key: string, record: Record): Book {
    Book(book.peers[key := record], if key in book.peers then book.order else book.order + [key])
  }

  lemma PutIsBook(book: Book, key: string, record: Record)
    requires IsBook(book)
    ensures IsBook(Put(book, key, record))
  {
  }

  function ValuesFrom(peers: map<string, Record>, order: seq<string>): (records: seq<Record>)
    requires forall key <- order :: key in peers
    ensures |records| == |order|
    ensures forall k | 0 <= k < |order| :: records[k] == peers[order[k]]
  {
    if order == [] then []
    else
      ValuesFrom(peers, order[..|order| - 1]) + [peers[order[|order| - 1]]]
  }

  function Values(book: Book): seq<Record>
    requires IsBook(book)
  {
    ValuesFrom(book.peers, book.order)
  }

  /** What `persist` writes. */
  function Persisted(book: Book): seq<Stored>
    requires IsBook(book)
  {
    var records := Values(book);
    seq(|records|, k requires 0 <= k < |records| => Written(records[k]))
  }

  function Readable(stored: seq<Stored>, now: int): seq<Record> {
    if stored == [] then []
    else
      var record := ValidateRecord(stored[|stored| - 1], now);
      Readable(stored[..|stored| - 1], now) +
      (if record.Some? && record.value.expiresAt > now then [record.value] else [])
  }

  function BookOf(records: seq<Record>): Book {
    if records == [] then EMPTY
    else
      var last := records[|records| - 1];
      Put(BookOf(records[..|records| - 1]), KeyOf(last.peer.deviceId, last.peer.intent), last)
  }

  lemma {:induction false} BookOfIsBook(records: seq<Record>)
    ensures IsBook(BookOf(records))
  {
    if records != [] {
      BookOfIsBook(records[..|records| - 1]);
    }
  }

  function Without(keys: seq<string>, gone: set<string>): seq<string> {
    if keys == [] then []
    else
      var last := keys[|keys| - 1];
      Without(keys[..|keys| - 1], gone) + (if last in gone then [] else [last])
  }

  function KeysOf(book: Book, deviceId: string): set<string> {
    set key | key in book.peers && book.peers[key].peer.deviceId == deviceId
  }

  function Cleared(book: Book, deviceId: string): Book {
    var gone := KeysOf(book, deviceId);
    Book(book.peers - gone, Without(book.order, gone))
  }

  lemma {:induction false} WithoutKeeps(keys: seq<string>, gone: set<string>)
    requires Distinct(keys)
    ensures Distinct(Without(keys, gone))
    ensures forall key :: key in Without(keys, gone) <==> key in keys && key !in gone
  {
    if keys != [] {
      var front, last := keys[..|keys| - 1], keys[|keys| - 1];
      WithoutKeeps(front, gone);
      assert keys == front + [last];
      assert last !in front;
    }
  }

  lemma ClearedIsBook(book: Book, deviceId: string)
    requires IsBook(book)
    ensures IsBook(Cleared(book, deviceId))
  {
    WithoutKeeps(book.order, KeysOf(book, deviceId));
  }

  // ---------- the store ----------

  class Store {
    var peers: map<string, Record>
    var order: seq<string>
    var file: seq<Stored>

    ghost predicate Valid()
      reads this
    {
      IsBook(Contents())
    }

    function Contents(): Book
      reads this
    {
      Book(peers, order)
    }

    constructor (file: seq<Stored>)
      ensures Valid() && Contents() == EMPTY && this.file == file
    {
      peers, order := map[], [];
      this.file := file;
    }

    method Persist()
      requires Valid()
      modifies this`file
      ensures file == Persisted(Contents())
    {
      file := [];
      for k := 0 to |order|
        invariant |file| == k
        invariant forall n | 0 <= n < k :: file[n] == Written(peers[order[n]])
      {
        file := file + [Written(peers[order[k]])];
      }
    }

    method Load(now: int)
      requires Valid()
      modifies this
      ensures Valid() && Contents() == BookOf(Readable(old(file), now))
      ensures file == if |Readable(old(file), now)| == |old(file)| then old(file) else Persisted(Contents())
    {
      var stored := file;
      var valid: seq<Record> := [];
      for k := 0 to |stored|
        invariant valid == Readable(stored[..k], now)
        invariant file == stored == old(file)
      {
        assert stored[..k + 1][..k] == stored[..k];
        var record := ValidateRecord(stored[k], now);
        if record.Some? && record.value.expiresAt > now {
          valid := valid + [record.value];
        }
      }
      assert stored[..|stored|] == stored;
      peers, order := map[], [];
      for k := 0 to |valid|
        invariant Contents() == BookOf(valid[..k])
        invariant file == stored == old(file)
      {
        assert valid[..k + 1][..k] == valid[..k];
        Set(KeyOf(valid[k].peer.deviceId, valid[k].peer.intent), valid[k]);
      }
      assert valid[..|valid|] == valid;
      BookOfIsBook(valid);
      if |stored| != |valid| {
        Persist();
      }
    }

    method Set(key: string, record: Record)
      modifies this`peers, this`order
      ensures Contents() == Put(old(Contents()), key, record)
    {
      if key !in peers {
        order := order + [key];
      }
      peers := peers[key := record];
    }

    method RememberInbound(peer: Candidate, now: int) returns (record: Record)
      requires Valid()
      modifies this
      ensures record == Record(peer, now, now + TRUST_DURATION_MS)
      ensures Valid() && Contents() == Put(old(Contents()), KeyOf(peer.deviceId, peer.intent), record)
      ensures file == Persisted(Contents())
    {
      record := Record(peer, now, now + TRUST_DURATION_MS);
      PutIsBook(Contents(), KeyOf(peer.deviceId, peer.intent), record);
      Set(KeyOf(peer.deviceId, peer.intent), record);
      Persist();
    }

    method Clear(deviceId: string)
      requires Valid()
      modifies this
      ensures Valid() && Contents() == Cleared(old(Contents()), deviceId)
      ensures file == if KeysOf(old(Contents()), deviceId) != {} then Persisted(Contents()) else old(file)
    {
      var keys := set key | key in peers && peers[key].peer.deviceId == deviceId;
      ClearedIsBook(Contents(), deviceId);
      peers, order := peers - keys, Without(order, keys);
      if keys != {} {
        Persist();
      }
    }

    function Get(deviceId: string, intent: Intent, now: int): Option<Record>
      reads this
    {
      Lookup(Contents(), deviceId, intent, now)
    }

    predicate IsTrusted(deviceId: string, publicKeyDer: string, intent: Intent, now: int)
      reads this
    {
      var peer := Get(deviceId, intent, now);
      peer.Some? && peer.value.peer.publicKeyDer == publicKeyDer
    }
  }

  function Lookup(book: Book, deviceId: string, intent: Intent, now: int): Option<Record> {
    var key := KeyOf(deviceId, intent);
    if key in book.peers && book.peers[key].expiresAt > now then Some(book.peers[key]) else None
  }

  predicate Trusts(book: Book, deviceId: string, publicKeyDer: string, intent: Intent, now: int) {
    var record := Lookup(book, deviceId, intent, now);
    record.Some? && record.value.peer.publicKeyDer == publicKeyDer
  }

  // ---------- the operation log ----------

  datatype Operation = Granting(at: int, peer: Candidate) | Clearing(deviceId: string)

  function Performed(book: Book, operation: Operation): Book {
    match operation
    case Granting(at, peer) => Put(book, KeyOf(peer.deviceId, peer.intent), Record(peer, at, at + TRUST_DURATION_MS))
    case Clearing(deviceId) => Cleared(book, deviceId)
  }

  function BookAfter(log: seq<Operation>): Book {
    if log == [] then EMPTY else Performed(BookAfter(log[..|log| - 1]), log[|log| - 1])
  }

  lemma {:induction false} WithoutNone(keys: seq<string>)
    ensures Without(keys, {}) == keys
  {
    if keys != [] {
      WithoutNone(keys[..|keys| - 1]);
    }
  }

  lemma ClearingNothing(book: Book, deviceId: string)
    requires KeysOf(book, deviceId) == {}
    ensures Cleared(book, deviceId) == book
  {
    WithoutNone(book.order);
  }

  /** Clearing an unknown device writes nothing, and the file still holds what the map holds. */
  lemma FileFollows(before: Book, file: seq<Stored>, after: Book, newFile: seq<Stored>, deviceId: string)
    requires IsBook(before) && file == Persisted(before) && after == Cleared(before, deviceId) && IsBook(after)
    requires newFile == if KeysOf(before, deviceId) != {} then Persisted(after) else file
    ensures newFile == Persisted(after)
  {
    if KeysOf(before, deviceId) == {} {
      ClearingNothing(before, deviceId);
    }
  }

  /** What the file holds while the store is used: the map. */
  ghost predicate UpToDate(store: Store)
    reads store
  {
    store.Valid() && store.file == Persisted(store.Contents())
  }

  lemma GrantingPerformed(book: Book, at: int, peer: Candidate, record: Record)
    requires record == Record(peer, at, at + TRUST_DURATION_MS)
    ensures Performed(book, Granting(at, peer)) == Put(book, KeyOf(peer.deviceId, peer.intent), record)
  {
  }

  method PerformGranting(store: Store, at: int, peer: Candidate)
    requires UpToDate(store)
    modifies store
    ensures UpToDate(store) && store.Contents() == Performed(old(store.Contents()), Granting(at, peer))
  {
    ghost var before := store.Contents();
    var record := store.RememberInbound(peer, at);
    GrantingPerformed(before, at, peer, record);
  }

  method PerformClearing(store: Store, deviceId: string)
    requires UpToDate(store)
    modifies store
    ensures UpToDate(store) && store.Contents() == Performed(old(store.Contents()), Clearing(deviceId))
  {
    ghost var before, file := store.Contents(), store.file;
    store.Clear(deviceId);
    FileFollows(before, file, store.Contents(), store.file, deviceId);
  }

  lemma OneOperationMore(log: seq<Operation>, n: nat)
    requires n < |log|
    ensures BookAfter(log[..n + 1]) == Performed(BookAfter(log[..n]), log[n])
  {
    assert log[..n + 1][..n] == log[..n];
  }

  /** The class run over a log, from an empty file; the file always holds what the map holds. */
  method Replay(log: seq<Operation>) returns (store: Store)
    ensures fresh(store) && UpToDate(store) && store.Contents() == BookAfter(log)
  {
    store := new Store([]);
    for n := 0 to |log|
      invariant fresh(store) && UpToDate(store) && store.Contents() == BookAfter(log[..n])
    {
      OneOperationMore(log, n);
      match log[n]
      case Granting(at, peer) => PerformGranting(store, at, peer);
      case Clearing(deviceId) => PerformClearing(store, deviceId);
    }
    assert log[..|log|] == log;
  }

  /** The latest grant for a device and direction, unless the device was cleared after it. */
  function LatestGrant(log: seq<Operation>, deviceId: string, intent: Intent): Option<Operation> {
    if log == [] then None
    else
      var before := LatestGrant(log[..|log| - 1], deviceId, intent);
      match log[|log| - 1]
      case Granting(at, peer) => if peer.deviceId == deviceId && peer.intent == intent then Some(log[|log| - 1]) else before
      case Clearing(cleared) => if cleared == deviceId then None else before
  }

  /** What a book has to hold, read off the log. */
  predicate Represents(book: Book, log: seq<Operation>, deviceId: string, intent: Intent) {
    var key := KeyOf(deviceId, intent);
    match LatestGrant(log, deviceId, intent)
    case None => key !in book.peers
    case Some(grant) =>
      && grant.Granting? && grant.peer.deviceId == deviceId && grant.peer.intent == intent
      && key in book.peers && book.peers[key] == Record(grant.peer, grant.at, grant.at + TRUST_DURATION_MS)
  }

  lemma {:induction false} BookRepresentsLog(log: seq<Operation>, deviceId: string, intent: Intent)
    ensures Represents(BookAfter(log), log, deviceId, intent)
    decreases |log|
  {
    if log != [] {
      BookRepresentsLog(log[..|log| - 1], deviceId, intent);
      match log[|log| - 1]
      case Granting(at, peer) =>
        if KeyOf(peer.deviceId, peer.intent) == KeyOf(deviceId, intent) {
          KeyIsInjective(peer.deviceId, peer.intent, deviceId, intent);
        }
      case Clearing(cleared) =>
    }
  }

  /**
   A computer is trusted exactly when the latest grant for its device and direction names its key,
   lies less than thirty days back, and no clearing of the device came after it.
   */
  lemma TrustIsTheLatestGrant(log: seq<Operation>, deviceId: string, publicKeyDer: string, intent: Intent, now: int)
    ensures Trusts(BookAfter(log), deviceId, publicKeyDer, intent, now) <==>
            var grant := LatestGrant(log, deviceId, intent);
            grant.Some? && grant.value.Granting? && grant.value.peer.publicKeyDer == publicKeyDer &&
            now - grant.value.at < TRUST_DURATION_MS
  {
    BookRepresentsLog(log, deviceId, intent);
  }

  // ---------- reloading ----------

  predicate GoodRecord(record: Record) {
    && WellFormed(record.peer) && record.expiresAt == record.trustedAt + TRUST_DURATION_MS
    && IsSafeInteger(record.trustedAt) && IsSafeInteger(record.expiresAt)
  }

  /** Every key is the key of its record, and every record keeps the rules. */
  predicate GoodBook(book: Book) {
    && IsBook(book)
    && forall key <- book.peers ::
         key == KeyOf(book.peers[key].peer.deviceId, book.peers[key].peer.intent) && GoodRecord(book.peers[key])
  }

  /** Granted by now and not expired. */
  predicate IsLive(record: Record, now: int) { record.trustedAt <= now < record.expiresAt }

  function Live(records: seq<Record>, now: int): seq<Record> {
    if records == [] then []
    else
      var last := records[|records| - 1];
      Live(records[..|records| - 1], now) + (if IsLive(last, now) then [last] else [])
  }

  lemma {:induction false} ReadableIsLive(stored: seq<Stored>, records: seq<Record>, now: int)
    requires |stored| == |records|
    requires forall k | 0 <= k < |records| :: stored[k] == Written(records[k]) && GoodRecord(records[k])
    ensures Readable(stored, now) == Live(records, now)
  {
    if records != [] {
      ReadBackIff(records[|records| - 1], now);
      FutureIsDropped(records[|records| - 1], now);
      ReadableIsLive(stored[..|stored| - 1], records[..|records| - 1], now);
    }
  }

  lemma FutureIsDropped(record: Record, now: int)
    ensures record.trustedAt > now ==> ValidateRecord(Written(record), now) == None
  {
  }

  lemma LiveOfLonger(records: seq<Record>, last: Record, now: int)
    ensures Live(records + [last], now) == Live(records, now) + (if IsLive(last, now) then [last] else [])
  {
    assert (records + [last])[..|records|] == records;
  }

  lemma BookOfLonger(records: seq<Record>, last: Record)
    ensures BookOf(records + [last]) == Put(BookOf(records), KeyOf(last.peer.deviceId, last.peer.intent), last)
  {
    assert (records + [last])[..|records|] == records;
  }

  /** The book loaded from the records of these keys. */
  function LoadedFrom(peers: map<string, Record>, order: seq<string>, now: int): Book
    requires forall key <- order :: key in peers
  {
    BookOf(Live(ValuesFrom(peers, order), now))
  }

  lemma OneKeyMore(peers: map<string, Record>, front: seq<string>, last: string, now: int)
    requires (forall key <- front :: key in peers) && last in peers
    requires last == KeyOf(peers[last].peer.deviceId, peers[last].peer.intent)
    ensures forall key <- front + [last] :: key in peers
    ensures LoadedFrom(peers, front + [last], now) ==
            if IsLive(peers[last], now) then Put(LoadedFrom(peers, front, now), last, peers[last])
            else LoadedFrom(peers, front, now)
  {
    var order := front + [last];
    assert order[..|front|] == front;
    assert ValuesFrom(peers, order) == ValuesFrom(peers, front) + [peers[last]];
    var values := ValuesFrom(peers, front);
    LiveOfLonger(values, peers[last], now);
    if IsLive(peers[last], now) {
      BookOfLonger(Live(values, now), peers[last]);
    } else {
      assert Live(values, now) + [] == Live(values, now);
    }
  }

  /** Every key of the order is the key of its record. */
  predicate Keyed(peers: map<string, Record>, order: seq<string>) {
    forall k <- order :: k in peers && k == KeyOf(peers[k].peer.deviceId, peers[k].peer.intent)
  }

  /** Under this key the loaded book has the record of the old one, if it is live. */
  predicate LoadedRightly(loaded: Book, peers: map<string, Record>, order: seq<string>, now: int, key: string)
    requires forall k <- order :: k in peers
  {
    && (key in loaded.peers <==> key in order && IsLive(peers[key], now))
    && (key in loaded.peers ==> loaded.peers[key] == peers[key])
  }

  lemma LastIsNew(order: seq<string>, front: seq<string>, last: string)
    requires order == front + [last] && Distinct(order)
    ensures last !in front && Distinct(front)
  {
    assert order[..|front|] == front && order[|front|] == last;
    forall k | 0 <= k < |front| ensures front[k] != last {
      assert front[k] == order[k];
    }
    forall i, k | 0 <= i < k < |front| ensures front[i] != front[k] {
      assert front[i] == order[i] && front[k] == order[k];
    }
  }

  lemma OneMoreLoaded(peers: map<string, Record>, front: seq<string>, last: string, now: int, key: string)
    requires Keyed(peers, front) && last in peers && last !in front
    requires last == KeyOf(peers[last].peer.deviceId, peers[last].peer.intent)
    requires LoadedRightly(LoadedFrom(peers, front, now), peers, front, now, key)
    ensures LoadedRightly(LoadedFrom(peers, front + [last], now), peers, front + [last], now, key)
  {
    OneKeyMore(peers, front, last, now);
  }

  lemma {:induction false} BookOfLive(peers: map<string, Record>, order: seq<string>, now: int, key: string)
    requires Distinct(order) && Keyed(peers, order)
    ensures LoadedRightly(LoadedFrom(peers, order, now), peers, order, now, key)
    decreases |order|
  {
    if order != [] {
      var front, last := order[..|order| - 1], order[|order| - 1];
      assert order == front + [last];
      LastIsNew(order, front, last);
      BookOfLive(peers, front, now, key);
      OneMoreLoaded(peers, front, last, now, key);
    }
  }

  /** The grants of a log keep the rules. */
  predicate GoodLog(log: seq<Operation>) {
    forall k | 0 <= k < |log| :: log[k].Granting? ==> GoodRecord(Record(log[k].peer, log[k].at, log[k].at + TRUST_DURATION_MS))
  }

  lemma {:induction false} LogGivesGoodBook(log: seq<Operation>)
    requires GoodLog(log)
    ensures GoodBook(BookAfter(log))
    decreases |log|
  {
    if log != [] {
      LogGivesGoodBook(log[..|log| - 1]);
      match log[|log| - 1]
      case Granting(at, peer) =>
        PutIsBook(BookAfter(log[..|log| - 1]), KeyOf(peer.deviceId, peer.intent), Record(peer, at, at + TRUST_DURATION_MS));
      case Clearing(deviceId) =>
        ClearedIsBook(BookAfter(log[..|log| - 1]), deviceId);
    }
  }

  lemma ReloadedLookup(book: Book, now: int, key: string)
    requires GoodBook(book)
    ensures var loaded := BookOf(Readable(Persisted(book), now));
            && (key in loaded.peers <==> key in book.peers && IsLive(book.peers[key], now))
            && (key in loaded.peers ==> loaded.peers[key] == book.peers[key])
  {
    ReadableIsLive(Persisted(book), Values(book), now);
    BookOfLive(book.peers, book.order, now, key);
  }

  lemma ReloadedTrust(book: Book, loadedAt: int, now: int, deviceId: string, publicKeyDer: string, intent: Intent)
    requires GoodBook(book) && loadedAt <= now
    ensures Trusts(BookOf(Readable(Persisted(book), loadedAt)), deviceId, publicKeyDer, intent, now) <==>
            Trusts(book, deviceId, publicKeyDer, intent, now) &&
            book.peers[KeyOf(deviceId, intent)].trustedAt <= loadedAt
  {
    ReloadedLookup(book, loadedAt, KeyOf(deviceId, intent));
  }

  /** The answer after a restart: the written file loaded at `loadedAt`, asked at `now`. */
  predicate TrustsAfterRestart(book: Book, loadedAt: int, deviceId: string, publicKeyDer: string, intent: Intent, now: int)
    requires IsBook(book)
  {
    Trusts(BookOf(Readable(Persisted(book), loadedAt)), deviceId, publicKeyDer, intent, now)
  }

  lemma LogIsBook(log: seq<Operation>)
    requires GoodLog(log)
    ensures IsBook(BookAfter(log))
  {
    LogGivesGoodBook(log);
  }

  /**
   What was written after any log of grants and clearings, loaded later, trusts at any time after the
   loading exactly whom the store trusted before, except for a grant that lies in the future of the
   clock at the loading.
   */
  lemma ReloadKeepsTrustIff(log: seq<Operation>, loadedAt: int, now: int, deviceId: string, publicKeyDer: string, intent: Intent)
    requires GoodLog(log) && loadedAt <= now
    ensures IsBook(BookAfter(log))
    ensures var grant := LatestGrant(log, deviceId, intent);
            TrustsAfterRestart(BookAfter(log), loadedAt, deviceId, publicKeyDer, intent, now) <==>
            Trusts(BookAfter(log), deviceId, publicKeyDer, intent, now) &&
            grant.Some? && grant.value.Granting? && grant.value.at <= loadedAt
  {
    LogGivesGoodBook(log);
    ReloadedTrust(BookAfter(log), loadedAt, now, deviceId, publicKeyDer, intent);
    BookRepresentsLog(log, deviceId, intent);
  }

  /** With a clock that never goes back a restart changes no answer. */
  lemma RestartKeepsTrust(log: seq<Operation>, loadedAt: int, now: int, deviceId: string, publicKeyDer: string, intent: Intent)
    requires GoodLog(log) && loadedAt <= now
    requires forall k | 0 <= k < |log| :: log[k].Granting? ==> log[k].at <= loadedAt
    ensures IsBook(BookAfter(log))
    ensures TrustsAfterRestart(BookAfter(log), loadedAt, deviceId, publicKeyDer, intent, now) <==>
            Trusts(BookAfter(log), deviceId, publicKeyDer, intent, now)
  {
    LogIsBook(log);
    ReloadKeepsTrustIff(log, loadedAt, now, deviceId, publicKeyDer, intent);
    TrustIsTheLatestGrant(log, deviceId, publicKeyDer, intent, now);
    if LatestGrant(log, deviceId, intent).Some? {
      LatestGrantIsLogged(log, deviceId, intent);
    }
  }

  /** The class run over a log, then started again from its file and asked. */
  method RestartAndAsk(
    log: seq<Operation>, loadedAt: int, now: int, deviceId: string, publicKeyDer: string, intent: Intent)
    returns (trusted: bool)
    requires GoodLog(log) && loadedAt <= now
    ensures trusted <==>
            var grant := LatestGrant(log, deviceId, intent);
            grant.Some? && grant.value.Granting? && grant.value.peer.publicKeyDer == publicKeyDer &&
            now - grant.value.at < TRUST_DURATION_MS && grant.value.at <= loadedAt
  {
    var store := Replay(log);
    store.Load(loadedAt);
    trusted := store.IsTrusted(deviceId, publicKeyDer, intent, now);
    ReloadKeepsTrustIff(log, loadedAt, now, deviceId, publicKeyDer, intent);
    TrustIsTheLatestGrant(log, deviceId, publicKeyDer, intent, now);
  }

  lemma {:induction false} LatestGrantIsLogged(log: seq<Operation>, deviceId: string, intent: Intent)
    requires LatestGrant(log, deviceId, intent).Some?
    ensures exists k | 0 <= k < |log| :: log[k].Granting? && Some(log[k]) == LatestGrant(log, deviceId, intent)
  {
    var front, last := log[..|log| - 1], log[|log| - 1];
    if !(last.Granting? && last.peer.deviceId == deviceId && last.peer.intent == intent) {
      LatestGrantIsLogged(front, deviceId, intent);
      var k :| 0 <= k < |front| && front[k].Granting? && Some(front[k]) == LatestGrant(front, deviceId, intent);
      assert log[k] == front[k];
    }
  }
}
