/**
 The line framer below a session: one JSON text per line, a byte limit per line, and a connection
 that closes once.

 The text of the stream is a string of Unicode characters (the socket decodes UTF-8 and never
 splits a character).  What becomes of a line is a function of the lines handed to the listeners so
 far and of the line: it is delivered, it is delivered and makes a listener close the connection, or it
 is not valid control data and reaches no listener.
 */
module JsonLineTransport {
  import opened Wrappers

  datatype Verdict = Delivered | DeliveredAndClosed | Malformed

  datatype CloseReason = OversizedFrame | InvalidData | SocketClosed

  type Judge = seq<string> -> Verdict

  // ---------- text ----------

  function Utf8Length(c: char): nat {
    if c < 0x80 as char then 1 else if c < 0x800 as char then 2 else if c as int < 0x10000 then 3 else 4
  }

  function ByteLength(text: string): nat {
    if text == "" then 0 else Utf8Length(text[0]) + ByteLength(text[1..])
  }

  lemma {:induction false} ByteLengthAppend(first: string, second: string)
    ensures ByteLength(first + second) == ByteLength(first) + ByteLength(second)
  {
    if first == "" {
      assert first + second == second;
    } else {
      assert (first + second)[1..] == first[1..] + second;
      ByteLengthAppend(first[1..], second);
    }
  }

  /** `indexOf('\n')`. */
  function FindNewline(text: string): (place: Option<nat>)
    ensures place.Some? ==> place.value < |text| && text[place.value] == '\n' && '\n' !in text[..place.value]
    ensures place.None? ==> '\n' !in text
  {
    if text == "" then None
    else if text[0] == '\n' then Some(0)
    else
      match FindNewline(text[1..])
      case None => None
      case Some(k) =>
        assert text[..k + 1] == [text[0]] + text[1..][..k];
        Some(k + 1)
  }

  lemma FindIn(before: string, after: string)
    requires '\n' !in before
    ensures FindNewline(before + "\n" + after) == Some(|before|)
  {
    if before == "" {
      assert before + "\n" + after == "\n" + after;
    } else {
      assert (before + "\n" + after)[1..] == before[1..] + "\n" + after;
      FindIn(before[1..], after);
    }
  }

  lemma FindStays(text: string, more: string)
    requires FindNewline(text).Some?
    ensures FindNewline(text + more) == FindNewline(text)
  {
    var k := FindNewline(text).value;
    assert text + more == text[..k] + "\n" + (text[k + 1..] + more);
    FindIn(text[..k], text[k + 1..] + more);
  }

  // ---------- one data event ----------

  /**
   What receiving changes: the unfinished line, whether the connection is closed, the frames counted, the lines
   handed to the listeners, the closing notices.
   */
  datatype Receiver = Receiver(
    buffer: string, closed: bool, frames: nat, handed: seq<string>, notices: seq<CloseReason>)

  /** `notifyClosed` and `close`: the listeners hear of it only the first time. */
  function ClosedFor(r: Receiver, reason: CloseReason): Receiver {
    r.(closed := true, notices := if r.closed then r.notices else r.notices + [reason])
  }

  function Parsed(judge: Judge, r: Receiver, line: string): Receiver {
    match judge(r.handed + [line])
    case Delivered => r.(handed := r.handed + [line])
    case DeliveredAndClosed => r.(handed := r.handed + [line], closed := true)
    case Malformed => ClosedFor(r, InvalidData)
  }

  /** One turn of the loop: it goes on, or an oversized line ends it. */
  datatype Turn = Next(after: Receiver) | Stop(after: Receiver)

  /** The line before the newline at `k` is taken off the buffer. */
  function TakeLine(limit: nat, judge: Judge, r: Receiver, k: nat): (turn: Turn)
    requires k < |r.buffer|
    ensures turn.after.buffer == r.buffer[k + 1..]
  {
    var line := r.buffer[..k];
    var rest := r.(buffer := r.buffer[k + 1..]);
    if line == "" then Next(rest)
    else if ByteLength(line) + 1 > limit then Stop(ClosedFor(rest, OversizedFrame))
    else Next(Parsed(judge, rest.(frames := rest.frames + 1), line))
  }

  /** The loop of `handleData` and the check after it; the loop goes on after a line that closes the connection. */
  function Drain(limit: nat, judge: Judge, r: Receiver): Receiver
    decreases |r.buffer|
  {
    match FindNewline(r.buffer)
    case None => if ByteLength(r.buffer) > limit then ClosedFor(r, OversizedFrame) else r
    case Some(k) =>
      var turn := TakeLine(limit, judge, r, k);
      if turn.Stop? then turn.after else Drain(limit, judge, turn.after)
  }

  function Feed(limit: nat, judge: Judge, r: Receiver, chunk: string): Receiver {
    Drain(limit, judge, r.(buffer := r.buffer + chunk))
  }

  /** A socket that is destroyed has no more data events. */
  function FeedAll(limit: nat, judge: Judge, r: Receiver, chunks: seq<string>): Receiver
    decreases |chunks|
  {
    if chunks == [] || r.closed then r
    else FeedAll(limit, judge, Feed(limit, judge, r, chunks[0]), chunks[1..])
  }

  const FRESH := Receiver("", false, 0, [], [])

  // ---------- the transport ----------

  class Transport {
    const limit: nat
    const judge: Judge
    var buffer: string
    var closed: bool
    var framesSent: nat
    var framesReceived: nat
    var bytesSent: nat
    var bytesReceived: nat
    var written: string                // what went to the socket
    var handed: seq<string>            // what went to the message listeners
    var notices: seq<CloseReason>      // what went to the closing listeners

    constructor (limit: nat, judge: Judge)
      ensures this.limit == limit && this.judge == judge
      ensures Received() == FRESH && written == ""
      ensures framesSent == 0 && bytesSent == 0 && bytesReceived == 0
    {
      this.limit, this.judge := limit, judge;
      buffer, closed, written, handed, notices := "", false, "", [], [];
      framesSent, framesReceived, bytesSent, bytesReceived := 0, 0, 0, 0;
    }

    function Received(): Receiver
      reads this
    {
      Receiver(buffer, closed, framesReceived, handed, notices)
    }

    /** `line` is the JSON text of the message. */
    method Send(line: string) returns (sent: bool)
      modifies this`framesSent, this`bytesSent, this`written
      ensures sent <==> !closed && ByteLength(line + "\n") <= limit
      ensures written == if sent then old(written) + line + "\n" else old(written)
      ensures framesSent == old(framesSent) + (if sent then 1 else 0)
      ensures bytesSent == old(bytesSent) + (if sent then ByteLength(line + "\n") else 0)
    {
      if closed {
        return false;
      }
      var frame := line + "\n";
      if ByteLength(frame) > limit {
        return false;
      }
      framesSent := framesSent + 1;
      bytesSent := bytesSent + ByteLength(frame);
      written := written + frame;
      assert old(written) + frame == old(written) + line + "\n";
      sent := true;
    }

    method Close()
      modifies this`closed
      ensures closed
    {
      closed := true;
    }

    method NotifyClosed(reason: CloseReason)
      modifies this`closed, this`notices
      ensures Received() == ClosedFor(old(Received()), reason)
    {
      if closed {
        return;
      }
      closed := true;
      notices := notices + [reason];
    }

    /** The socket reports an error or that it is closed. */
    method SocketGone()
      modifies this`closed, this`notices
      ensures Received() == ClosedFor(old(Received()), SocketClosed)
    {
      NotifyClosed(SocketClosed);
    }

    method ParseLine(line: string)
      modifies this`closed, this`notices, this`handed
      ensures Received() == Parsed(judge, old(Received()), line)
    {
      match judge(handed + [line])
      case Delivered => handed := handed + [line];
      case DeliveredAndClosed =>
        handed := handed + [line];
        Close();
      case Malformed =>
        NotifyClosed(InvalidData);
        Close();
    }

    /** One turn of the loop: the line before the newline at `k` leaves the buffer; an oversized one stops the loop. */
    method HandleLine(k: nat) returns (stop: bool)
      requires k < |buffer|
      modifies this`buffer, this`closed, this`framesReceived, this`handed, this`notices
      ensures var turn := TakeLine(limit, judge, old(Received()), k);
              Received() == turn.after && stop == turn.Stop?
    {
      var line := buffer[..k];
      buffer := buffer[k + 1..];
      if |line| > 0 {
        if ByteLength(line) + 1 > limit {
          NotifyClosed(OversizedFrame);
          Close();
          return true;
        }
        framesReceived := framesReceived + 1;
        ParseLine(line);
      }
      stop := false;
    }

    method HandleData(chunk: string)
      modifies this`buffer, this`closed, this`framesReceived, this`bytesReceived, this`handed, this`notices
      ensures Received() == Feed(limit, judge, old(Received()), chunk)
      ensures bytesReceived == old(bytesReceived) + ByteLength(chunk)
    {
      bytesReceived := bytesReceived + ByteLength(chunk);
      buffer := buffer + chunk;
      ghost var start := Received();
      var lineBreak := FindNewline(buffer);
      while lineBreak.Some?
        invariant lineBreak == FindNewline(buffer)
        invariant Drain(limit, judge, Received()) == Drain(limit, judge, start)
        invariant bytesReceived == old(bytesReceived) + ByteLength(chunk)
        decreases |buffer|
      {
        var stop := HandleLine(lineBreak.value);
        if stop {
          return;
        }
        lineBreak := FindNewline(buffer);
      }
      if ByteLength(buffer) > limit {
        NotifyClosed(OversizedFrame);
        Close();
      }
    }
  }

  // ---------- splitting a data event ----------

  lemma LaterNewline(text: string, more: string)
    requires FindNewline(text).None? && FindNewline(text + more).Some?
    ensures |text| <= FindNewline(text + more).value
  {
    assert forall k | 0 <= k < |text| :: (text + more)[k] == text[k] && text[k] != '\n';
  }

  lemma LongLine(limit: nat, judge: Judge, r: Receiver, more: string)
    requires FindNewline(r.buffer).None? && ByteLength(r.buffer) > limit
    ensures var whole := Drain(limit, judge, r.(buffer := r.buffer + more));
            whole == ClosedFor(r, OversizedFrame).(buffer := whole.buffer)
  {
    var text := r.buffer + more;
    match FindNewline(text)
    case None => ByteLengthAppend(r.buffer, more);
    case Some(k) =>
      LaterNewline(r.buffer, more);
      assert text[..k] == r.buffer + more[..k - |r.buffer|];
      ByteLengthAppend(r.buffer, more[..k - |r.buffer|]);
  }

  /** Taking a line only adds lines; a closed connection stays closed without another notice. */
  lemma TurnKeeps(limit: nat, judge: Judge, r: Receiver, k: nat)
    requires k < |r.buffer|
    ensures var after := TakeLine(limit, judge, r, k).after;
            r.handed <= after.handed && (r.closed ==> after.closed && after.notices == r.notices)
  {
  }

  lemma TurnIgnoresMore(limit: nat, judge: Judge, r: Receiver, k: nat, more: string)
    requires k < |r.buffer|
    ensures var turn := TakeLine(limit, judge, r, k);
            var longer := TakeLine(limit, judge, r.(buffer := r.buffer + more), k);
            && turn.Stop? == longer.Stop? && longer.after == turn.after.(buffer := turn.after.buffer + more)
            && (turn.Stop? ==> turn.after.closed)
  {
    assert (r.buffer + more)[..k] == r.buffer[..k];
    assert (r.buffer + more)[k + 1..] == r.buffer[k + 1..] + more;
  }

  /** What the first part of a data event says of the whole. */
  predicate CutWell(limit: nat, judge: Judge, first: Receiver, whole: Receiver, more: string) {
    && (!first.closed ==> whole == Drain(limit, judge, first.(buffer := first.buffer + more)))
    && (first.closed ==> whole.closed && whole.notices == first.notices)
    && first.handed <= whole.handed
  }

  /**
   A data event cut in two.  If the first part leaves the connection open, the second part ends
   exactly where the whole would have; if not, the whole closes it too, with the same notice, and
   hands on at least the same lines.
   */
  lemma {:induction false} DrainSplit(limit: nat, judge: Judge, r: Receiver, more: string)
    ensures CutWell(limit, judge, Drain(limit, judge, r), Drain(limit, judge, r.(buffer := r.buffer + more)), more)
    decreases |r.buffer|
  {
    match FindNewline(r.buffer)
    case None =>
      if ByteLength(r.buffer) > limit {
        LongLine(limit, judge, r, more);
      } else {
        DrainKeeps(limit, judge, r.(buffer := r.buffer + more));
      }
    case Some(k) =>
      FindStays(r.buffer, more);
      TurnIgnoresMore(limit, judge, r, k, more);
      var turn := TakeLine(limit, judge, r, k);
      if turn.Next? {
        DrainSplit(limit, judge, turn.after, more);
      }
  }

  /** Receiving only ever adds lines, and a closed connection stays closed without another notice. */
  lemma {:induction false} DrainKeeps(limit: nat, judge: Judge, r: Receiver)
    ensures r.handed <= Drain(limit, judge, r).handed
    ensures r.closed ==> Drain(limit, judge, r).closed && Drain(limit, judge, r).notices == r.notices
    decreases |r.buffer|
  {
    match FindNewline(r.buffer)
    case None =>
    case Some(k) =>
      TurnKeeps(limit, judge, r, k);
      var turn := TakeLine(limit, judge, r, k);
      if turn.Next? {
        DrainKeeps(limit, judge, turn.after);
      }
  }

  // ---------- chunking ----------

  function Concat(chunks: seq<string>): string {
    if chunks == [] then "" else chunks[0] + Concat(chunks[1..])
  }

  /** Between two data events the receiver holds an unfinished line within the limit. */
  predicate Settled(limit: nat, r: Receiver) {
    !r.closed && '\n' !in r.buffer && ByteLength(r.buffer) <= limit
  }

  lemma SettledDrains(limit: nat, judge: Judge, r: Receiver)
    requires Settled(limit, r)
    ensures Drain(limit, judge, r) == r
  {
  }

  lemma {:induction false} DrainSettles(limit: nat, judge: Judge, r: Receiver)
    requires !Drain(limit, judge, r).closed
    ensures Settled(limit, Drain(limit, judge, r))
    decreases |r.buffer|
  {
    match FindNewline(r.buffer)
    case None =>
    case Some(k) =>
      var turn := TakeLine(limit, judge, r, k);
      if turn.Next? {
        DrainSettles(limit, judge, turn.after);
      }
  }

  /** Many data events against one with the same text. */
  predicate SameStream(many: Receiver, one: Receiver) {
    && (!many.closed ==> many == one)
    && (many.closed ==> one.closed && one.notices == many.notices)
    && many.handed <= one.handed
  }

  lemma FirstChunkCloses(limit: nat, judge: Judge, r: Receiver, next: Receiver, chunks: seq<string>, one: Receiver)
    requires !r.closed && chunks != [] && next == Feed(limit, judge, r, chunks[0]) && next.closed
    requires one.closed && one.notices == next.notices && next.handed <= one.handed
    ensures SameStream(FeedAll(limit, judge, r, chunks), one)
  {
    assert FeedAll(limit, judge, r, chunks) == FeedAll(limit, judge, next, chunks[1..]) == next;
  }

  lemma FirstChunkStays(limit: nat, judge: Judge, r: Receiver, next: Receiver, chunks: seq<string>, one: Receiver)
    requires !r.closed && chunks != [] && next == Feed(limit, judge, r, chunks[0])
    requires SameStream(FeedAll(limit, judge, next, chunks[1..]), one)
    ensures SameStream(FeedAll(limit, judge, r, chunks), one)
  {
    assert FeedAll(limit, judge, r, chunks) == FeedAll(limit, judge, next, chunks[1..]);
  }

  /** Any way to cut the stream into data events against the stream as one event. */
  lemma {:induction false} ChunksAgainstWhole(limit: nat, judge: Judge, r: Receiver, chunks: seq<string>)
    requires Settled(limit, r)
    ensures SameStream(FeedAll(limit, judge, r, chunks), Feed(limit, judge, r, Concat(chunks)))
    decreases |chunks|
  {
    if chunks == [] {
      assert r.buffer + "" == r.buffer;
      SettledDrains(limit, judge, r);
    } else {
      var rest := Concat(chunks[1..]);
      var fed := r.(buffer := r.buffer + chunks[0]);
      var next := Drain(limit, judge, fed);
      var one := Feed(limit, judge, r, Concat(chunks));
      assert r.buffer + Concat(chunks) == fed.buffer + rest;
      DrainSplit(limit, judge, fed, rest);
      if next.closed {
        FirstChunkCloses(limit, judge, r, next, chunks, one);
      } else {
        DrainSettles(limit, judge, fed);
        ChunksAgainstWhole(limit, judge, next, chunks[1..]);
        FirstChunkStays(limit, judge, r, next, chunks, one);
      }
    }
  }

  // ---------- against the lines of the text ----------

  /** The text cut at its newlines, with empty lines dropped. */
  function LinesOf(text: string): seq<string>
    decreases |text|
  {
    match FindNewline(text)
    case None => []
    case Some(k) => (if k == 0 then [] else [text[..k]]) + LinesOf(text[k + 1..])
  }

  function RemainderOf(text: string): string
    decreases |text|
  {
    match FindNewline(text)
    case None => text
    case Some(k) => RemainderOf(text[k + 1..])
  }

  /** The line ends the connection, given the lines before it. */
  predicate Ends(limit: nat, judge: Judge, before: seq<string>, line: string) {
    ByteLength(line) + 1 > limit || judge(before + [line]) != Delivered
  }

  /** The lines that reach the listeners when the stream stops at the first line that ends the connection. */
  function UpToTheEnd(limit: nat, judge: Judge, before: seq<string>, lines: seq<string>): seq<string>
    decreases |lines|
  {
    if lines == [] || ByteLength(lines[0]) + 1 > limit || judge(before + [lines[0]]) == Malformed then before
    else if judge(before + [lines[0]]) == DeliveredAndClosed then before + [lines[0]]
    else UpToTheEnd(limit, judge, before + [lines[0]], lines[1..])
  }

  predicate AnyEnds(limit: nat, judge: Judge, before: seq<string>, lines: seq<string>)
    decreases |lines|
  {
    lines != [] &&
    (Ends(limit, judge, before, lines[0]) || AnyEnds(limit, judge, before + [lines[0]], lines[1..]))
  }

  /** What a turn does in terms of the line it takes. */
  lemma TurnHandsLine(limit: nat, judge: Judge, r: Receiver, k: nat)
    requires k < |r.buffer| && !r.closed
    ensures var turn := TakeLine(limit, judge, r, k);
            var line := r.buffer[..k];
            && (k == 0 ==> turn == Next(r.(buffer := r.buffer[1..])))
            && (k > 0 ==>
                  && (turn.Stop? <==> ByteLength(line) + 1 > limit)
                  && (turn.after.closed <==> Ends(limit, judge, r.handed, line))
                  && turn.after.handed == (if turn.Stop? || judge(r.handed + [line]) == Malformed then r.handed else r.handed + [line])
                  && (!turn.after.closed ==> turn.after.frames == r.frames + 1 && turn.after.notices == r.notices))
  {
  }

  /** What one data event does in terms of the lines of its text. */
  predicate HandsLines(limit: nat, judge: Judge, r: Receiver, after: Receiver, lines: seq<string>, remainder: string) {
    && UpToTheEnd(limit, judge, r.handed, lines) <= after.handed
    && (after.closed <==> AnyEnds(limit, judge, r.handed, lines) || ByteLength(remainder) > limit)
    && (!after.closed ==>
          && after.handed == r.handed + lines && after.frames == r.frames + |lines|
          && after.buffer == remainder && after.notices == r.notices)
  }

  lemma SkippedLine(limit: nat, judge: Judge, r: Receiver, next: Receiver, after: Receiver, lines: seq<string>, remainder: string)
    requires HandsLines(limit, judge, next, after, lines, remainder)
    requires next.handed == r.handed && next.frames == r.frames && next.notices == r.notices
    ensures HandsLines(limit, judge, r, after, lines, remainder)
  {
  }

  lemma OneLineMore(limit: nat, judge: Judge, r: Receiver, next: Receiver, after: Receiver, line: string,
                    lines: seq<string>, remainder: string)
    requires HandsLines(limit, judge, next, after, lines, remainder)
    requires next.handed == r.handed + [line] && next.frames == r.frames + 1 && next.notices == r.notices
    requires !Ends(limit, judge, r.handed, line)
    ensures HandsLines(limit, judge, r, after, [line] + lines, remainder)
  {
    assert ([line] + lines)[1..] == lines;
    assert r.handed + [line] + lines == r.handed + ([line] + lines);
  }

  lemma LastLine(limit: nat, judge: Judge, r: Receiver, after: Receiver, line: string, lines: seq<string>, remainder: string)
    requires Ends(limit, judge, r.handed, line) && after.closed
    requires (if ByteLength(line) + 1 > limit || judge(r.handed + [line]) == Malformed then r.handed
              else r.handed + [line]) <= after.handed
    ensures HandsLines(limit, judge, r, after, [line] + lines, remainder)
  {
  }

  /**
   One data event hands on the lines of its text; it closes the connection exactly for a line that ends it or a
   remainder that is too long.
   */
  lemma {:induction false} DrainHandsLines(limit: nat, judge: Judge, r: Receiver)
    requires !r.closed
    ensures HandsLines(limit, judge, r, Drain(limit, judge, r), LinesOf(r.buffer), RemainderOf(r.buffer))
    decreases |r.buffer|
  {
    match FindNewline(r.buffer)
    case None =>
    case Some(k) =>
      TurnHandsLine(limit, judge, r, k);
      var turn := TakeLine(limit, judge, r, k);
      var line := r.buffer[..k];
      var after := Drain(limit, judge, r);
      var lines, remainder := LinesOf(r.buffer[k + 1..]), RemainderOf(r.buffer);
      assert turn.after.buffer == r.buffer[k + 1..] && remainder == RemainderOf(r.buffer[k + 1..]);
      assert LinesOf(r.buffer) == (if k == 0 then lines else [line] + lines);
      if k == 0 {
        DrainHandsLines(limit, judge, turn.after);
        SkippedLine(limit, judge, r, turn.after, after, lines, remainder);
      } else if turn.after.closed {
        DrainKeeps(limit, judge, turn.after);
        LastLine(limit, judge, r, after, line, lines, remainder);
      } else {
        DrainHandsLines(limit, judge, turn.after);
        OneLineMore(limit, judge, r, turn.after, after, line, lines, remainder);
      }
  }

  // ---------- the finest cut ----------

  /** Every character on its own. */
  function Singles(text: string): seq<string> {
    if text == "" then [] else [[text[0]]] + Singles(text[1..])
  }

  lemma {:induction false} SinglesJoin(text: string)
    ensures Concat(Singles(text)) == text
  {
    if text != "" {
      SinglesJoin(text[1..]);
    }
  }

  lemma {:induction false} FeedAllAppend(limit: nat, judge: Judge, r: Receiver, first: seq<string>, second: seq<string>)
    ensures FeedAll(limit, judge, r, first + second) ==
            FeedAll(limit, judge, FeedAll(limit, judge, r, first), second)
    decreases |first|
  {
    if first == [] {
      assert first + second == second;
    } else if !r.closed {
      assert (first + second)[1..] == first[1..] + second;
      FeedAllAppend(limit, judge, Feed(limit, judge, r, first[0]), first[1..], second);
    }
  }

  lemma {:induction false} SinglesAppend(first: string, second: string)
    ensures Singles(first + second) == Singles(first) + Singles(second)
  {
    if first == "" {
      assert first + second == second;
    } else {
      assert (first + second)[1..] == first[1..] + second;
      SinglesAppend(first[1..], second);
    }
  }

  lemma {:induction false} FeedAllKeeps(limit: nat, judge: Judge, r: Receiver, chunks: seq<string>)
    ensures r.handed <= FeedAll(limit, judge, r, chunks).handed
    decreases |chunks|
  {
    if chunks != [] && !r.closed {
      DrainKeeps(limit, judge, r.(buffer := r.buffer + chunks[0]));
      FeedAllKeeps(limit, judge, Feed(limit, judge, r, chunks[0]), chunks[1..]);
    }
  }

  /** No way to cut the stream hands on fewer lines than the finest one. */
  lemma {:induction false} FinestHandsLeast(limit: nat, judge: Judge, r: Receiver, chunks: seq<string>)
    requires Settled(limit, r)
    ensures FeedAll(limit, judge, r, Singles(Concat(chunks))).handed <= FeedAll(limit, judge, r, chunks).handed
    decreases |chunks|
  {
    if chunks != [] {
      var rest := chunks[1..];
      SinglesAppend(chunks[0], Concat(rest));
      FeedAllAppend(limit, judge, r, Singles(chunks[0]), Singles(Concat(rest)));
      SinglesJoin(chunks[0]);
      ChunksAgainstWhole(limit, judge, r, Singles(chunks[0]));
      var fine := FeedAll(limit, judge, r, Singles(chunks[0]));
      var next := Feed(limit, judge, r, chunks[0]);
      if fine.closed {
        FeedAllKeeps(limit, judge, next, rest);
      } else {
        DrainSettles(limit, judge, r.(buffer := r.buffer + chunks[0]));
        FinestHandsLeast(limit, judge, next, rest);
      }
    }
  }

  // ---------- the finest cut stops at the end ----------

  /** A character that ends no line: the buffer grows, and may grow too long. */
  lemma OneCharacter(limit: nat, judge: Judge, r: Receiver, c: char, rest: string)
    requires Settled(limit, r) && c != '\n'
    ensures var next := Feed(limit, judge, r, [c]);
            && next == (if next.closed then ClosedFor(r.(buffer := r.buffer + [c]), OversizedFrame)
                        else r.(buffer := r.buffer + [c]))
            && (next.closed ==>
                  UpToTheEnd(limit, judge, r.handed, LinesOf(r.buffer + [c] + rest)) == r.handed)
            && (!next.closed ==> Settled(limit, next))
  {
    var text := r.buffer + [c];
    assert FindNewline(text).None? by {
      assert forall k | 0 <= k < |text| :: text[k] != '\n';
    }
    if ByteLength(text) > limit {
      match FindNewline(text + rest)
      case None =>
      case Some(k) =>
        LaterNewline(text, rest);
        var line := (text + rest)[..k];
        assert line == text + rest[..k - |text|];
        ByteLengthAppend(text, rest[..k - |text|]);
        assert LinesOf(text + rest)[0] == line;
    }
  }

  lemma EmptyBufferDrains(limit: nat, judge: Judge, r: Receiver)
    requires r.buffer == ""
    ensures Drain(limit, judge, r) == r
  {
  }

  /** A newline after a settled buffer. */
  lemma OneNewline(limit: nat, judge: Judge, r: Receiver, rest: string)
    requires Settled(limit, r)
    ensures var next := Feed(limit, judge, r, "\n");
            var lines := LinesOf(r.buffer + "\n" + rest);
            && next.buffer == ""
            && (next.closed ==> next.handed == UpToTheEnd(limit, judge, r.handed, lines))
            && (!next.closed ==>
                  && Settled(limit, next)
                  && UpToTheEnd(limit, judge, next.handed, LinesOf(rest)) == UpToTheEnd(limit, judge, r.handed, lines))
  {
    var fed := r.(buffer := r.buffer + "\n");
    FindIn(r.buffer, rest);
    FindIn(r.buffer, "");
    assert r.buffer + "\n" + "" == fed.buffer;
    assert fed.buffer[..|r.buffer|] == r.buffer;
    assert (r.buffer + "\n" + rest)[..|r.buffer|] == r.buffer;
    assert (r.buffer + "\n" + rest)[|r.buffer| + 1..] == rest;
    TurnHandsLine(limit, judge, fed, |r.buffer|);
    var turn := TakeLine(limit, judge, fed, |r.buffer|);
    assert turn.after.buffer == "";
    assert FindNewline(fed.buffer) == Some(|r.buffer|);
    EmptyBufferDrains(limit, judge, turn.after);
    assert Feed(limit, judge, r, "\n") == Drain(limit, judge, fed) == turn.after;
    var lines := LinesOf(r.buffer + "\n" + rest);
    if r.buffer == "" {
      assert lines == LinesOf(rest);
    } else {
      assert lines == [r.buffer] + LinesOf(rest);
      assert lines[1..] == LinesOf(rest);
    }
  }

  lemma FinestStep(limit: nat, judge: Judge, r: Receiver, c: char, rest: string)
    requires Settled(limit, r)
    ensures var next := Feed(limit, judge, r, [c]);
            var expected := UpToTheEnd(limit, judge, r.handed, LinesOf(r.buffer + [c] + rest));
            && (next.closed ==> next.handed == expected)
            && (!next.closed ==>
                  Settled(limit, next) && UpToTheEnd(limit, judge, next.handed, LinesOf(next.buffer + rest)) == expected)
  {
    if c == '\n' {
      assert [c] == "\n" && "" + rest == rest;
      OneNewline(limit, judge, r, rest);
    } else {
      OneCharacter(limit, judge, r, c, rest);
    }
  }

  lemma FeedsFirst(limit: nat, judge: Judge, r: Receiver, chunk: string, rest: seq<string>)
    requires !r.closed
    ensures FeedAll(limit, judge, r, [chunk] + rest) == FeedAll(limit, judge, Feed(limit, judge, r, chunk), rest)
  {
    assert ([chunk] + rest)[1..] == rest;
  }

  lemma ClosedFeedsNothing(limit: nat, judge: Judge, r: Receiver, chunks: seq<string>)
    requires r.closed
    ensures FeedAll(limit, judge, r, chunks) == r
  {
  }

  /** Fed character by character, the receiver hands on the lines up to the one that ends the connection. */
  lemma {:induction false} FinestHandsUpToTheEnd(limit: nat, judge: Judge, r: Receiver, text: string)
    requires Settled(limit, r)
    ensures FeedAll(limit, judge, r, Singles(text)).handed ==
            UpToTheEnd(limit, judge, r.handed, LinesOf(r.buffer + text))
    decreases |text|
  {
    if text == "" {
      assert r.buffer + text == r.buffer;
    } else {
      var rest := text[1..];
      var next := Feed(limit, judge, r, [text[0]]);
      FeedsFirst(limit, judge, r, [text[0]], Singles(rest));
      assert r.buffer + text == r.buffer + [text[0]] + rest;
      FinestStep(limit, judge, r, text[0], rest);
      if next.closed {
        ClosedFeedsNothing(limit, judge, next, Singles(rest));
      } else {
        FinestHandsUpToTheEnd(limit, judge, next, rest);
      }
    }
  }

  // ---------- the theorems about cutting ----------

  /**
   However the stream is cut into data events: the connection closes for every cut or for none, with
   the same notice, and exactly when a line ends it or the remainder exceeds the limit (so a line of
   exactly the limit closes nothing before its newline arrives).  While it stays open, the lines
   handed on, the frames counted and the remainder are those of the text cut at its newlines.  When it
   closes, every line up to the one that ends the connection has been handed on, and never more than
   a single data event would have handed on.
   */
  lemma ChunkingIndependence(limit: nat, judge: Judge, chunks: seq<string>)
    ensures var text := Concat(chunks);
            var lines := LinesOf(text);
            var many := FeedAll(limit, judge, FRESH, chunks);
            var one := Feed(limit, judge, FRESH, text);
            && (many.closed <==> AnyEnds(limit, judge, [], lines) || ByteLength(RemainderOf(text)) > limit)
            && many.notices == one.notices
            && UpToTheEnd(limit, judge, [], lines) <= many.handed <= one.handed
            && (!many.closed ==> many == Receiver(RemainderOf(text), false, |lines|, lines, []))
  {
    var text := Concat(chunks);
    assert FRESH.buffer + text == text;
    ChunksAgainstWhole(limit, judge, FRESH, chunks);
    DrainHandsLines(limit, judge, FRESH.(buffer := text));
    FinestHandsLeast(limit, judge, FRESH, chunks);
    FinestHandsUpToTheEnd(limit, judge, FRESH, text);
    assert [] + LinesOf(text) == LinesOf(text);
  }

  /** Of these lines, one before the first that exceeds the limit is valid: the loop hands it on. */
  predicate AnyHandedOn(limit: nat, judge: Judge, before: seq<string>, lines: seq<string>)
    decreases |lines|
  {
    lines != [] && ByteLength(lines[0]) + 1 <= limit &&
    (judge(before + [lines[0]]) != Malformed || AnyHandedOn(limit, judge, before, lines[1..]))
  }

  /**
   The line that ends the connection fits the limit, and so do the lines after it up to a valid one: the
   loop of a data event that holds them hands on that one as well.
   */
  predicate AnotherFollows(limit: nat, judge: Judge, before: seq<string>, lines: seq<string>)
    decreases |lines|
  {
    lines != [] && ByteLength(lines[0]) + 1 <= limit &&
    match judge(before + [lines[0]])
    case Delivered => AnotherFollows(limit, judge, before + [lines[0]], lines[1..])
    case DeliveredAndClosed => AnyHandedOn(limit, judge, before + [lines[0]], lines[1..])
    case Malformed => AnyHandedOn(limit, judge, before, lines[1..])
  }

  lemma HandingOn(limit: nat, judge: Judge, before: seq<string>, line: string, rest: seq<string>)
    ensures AnyHandedOn(limit, judge, before, [line] + rest) <==>
            ByteLength(line) + 1 <= limit &&
            (judge(before + [line]) != Malformed || AnyHandedOn(limit, judge, before, rest))
  {
    assert ([line] + rest)[1..] == rest;
  }

  /** What a turn does to the lines handed on, open or closed. */
  lemma TurnHands(limit: nat, judge: Judge, r: Receiver, k: nat)
    requires 0 < k < |r.buffer|
    ensures var turn := TakeLine(limit, judge, r, k);
            var line := r.buffer[..k];
            && (turn.Stop? <==> ByteLength(line) + 1 > limit)
            && turn.after.handed == (if turn.Stop? || judge(r.handed + [line]) == Malformed then r.handed else r.handed + [line])
  {
  }

  /** Draining hands on something exactly if one of the lines before an oversized one is valid. */
  lemma {:induction false} HandsOnIff(limit: nat, judge: Judge, r: Receiver)
    ensures Drain(limit, judge, r).handed != r.handed <==> AnyHandedOn(limit, judge, r.handed, LinesOf(r.buffer))
    decreases |r.buffer|
  {
    match FindNewline(r.buffer)
    case None =>
    case Some(k) =>
      var turn := TakeLine(limit, judge, r, k);
      var line, rest := r.buffer[..k], LinesOf(r.buffer[k + 1..]);
      if k == 0 {
        assert turn == Next(r.(buffer := r.buffer[1..])) && LinesOf(r.buffer) == rest;
        HandsOnIff(limit, judge, turn.after);
      } else {
        assert LinesOf(r.buffer) == [line] + rest;
        HandingOn(limit, judge, r.handed, line, rest);
        TurnHands(limit, judge, r, k);
        if turn.Next? {
          DrainKeeps(limit, judge, turn.after);
          HandsOnIff(limit, judge, turn.after);
        }
      }
  }

  lemma LineAndRest(limit: nat, judge: Judge, before: seq<string>, line: string, rest: seq<string>)
    ensures var lines := [line] + rest;
            && UpToTheEnd(limit, judge, before, lines) ==
               (if ByteLength(line) + 1 > limit || judge(before + [line]) == Malformed then before
                else if judge(before + [line]) == DeliveredAndClosed then before + [line]
                else UpToTheEnd(limit, judge, before + [line], rest))
            && AnotherFollows(limit, judge, before, lines) ==
               (ByteLength(line) + 1 <= limit &&
                match judge(before + [line])
                case Delivered => AnotherFollows(limit, judge, before + [line], rest)
                case DeliveredAndClosed => AnyHandedOn(limit, judge, before + [line], rest)
                case Malformed => AnyHandedOn(limit, judge, before, rest))
  {
    assert ([line] + rest)[1..] == rest;
  }

  /** One data event stops where the connection ends, unless another line follows. */
  lemma {:induction false} DrainStopsIff(limit: nat, judge: Judge, r: Receiver)
    requires !r.closed
    ensures var lines := LinesOf(r.buffer);
            Drain(limit, judge, r).handed == UpToTheEnd(limit, judge, r.handed, lines) <==>
            !AnotherFollows(limit, judge, r.handed, lines)
    decreases |r.buffer|
  {
    match FindNewline(r.buffer)
    case None =>
    case Some(k) =>
      var turn := TakeLine(limit, judge, r, k);
      var line, rest := r.buffer[..k], LinesOf(r.buffer[k + 1..]);
      TurnHandsLine(limit, judge, r, k);
      if k == 0 {
        assert LinesOf(r.buffer) == rest;
        DrainStopsIff(limit, judge, turn.after);
      } else {
        assert LinesOf(r.buffer) == [line] + rest;
        LineAndRest(limit, judge, r.handed, line, rest);
        if turn.Next? {
          if turn.after.closed {
            HandsOnIff(limit, judge, turn.after);
            assert turn.after.buffer == r.buffer[k + 1..];
          } else {
            DrainStopsIff(limit, judge, turn.after);
          }
        }
      }
  }

  /**
   All cuts of a text hand on the same lines if and only if no line that is handed on follows the one that ends
   the connection.
   */
  lemma SameForEveryCutIff(limit: nat, judge: Judge, text: string)
    ensures var all := Feed(limit, judge, FRESH, text).handed;
            (forall chunks :: Concat(chunks) == text ==> FeedAll(limit, judge, FRESH, chunks).handed == all) <==>
            !AnotherFollows(limit, judge, [], LinesOf(text))
  {
    var all := Feed(limit, judge, FRESH, text).handed;
    var upTo := UpToTheEnd(limit, judge, [], LinesOf(text));
    forall chunks | Concat(chunks) == text
      ensures upTo <= FeedAll(limit, judge, FRESH, chunks).handed <= all
    {
      ChunkingIndependence(limit, judge, chunks);
    }
    SinglesJoin(text);
    FinestHandsUpToTheEnd(limit, judge, FRESH, text);
    assert FRESH.buffer + text == text;
    assert Concat(Singles(text)) == text && FeedAll(limit, judge, FRESH, Singles(text)).handed == upTo;
    DrainStopsIff(limit, judge, FRESH.(buffer := text));
  }

  lemma OneTurn(limit: nat, judge: Judge, r: Receiver, line: string, rest: string)
    requires line != "" && '\n' !in line && ByteLength(line) + 1 <= limit && r.buffer == line + "\n" + rest
    ensures Drain(limit, judge, r) == Drain(limit, judge, Parsed(judge, r.(buffer := rest, frames := r.frames + 1), line))
  {
    FindIn(line, rest);
    assert r.buffer[..|line|] == line && r.buffer[|line| + 1..] == rest;
    assert TakeLine(limit, judge, r, |line|) == Next(Parsed(judge, r.(buffer := rest, frames := r.frames + 1), line));
  }

  /** A line that fits the limit. */
  predicate IsLine(limit: nat, line: string) { line != "" && '\n' !in line && ByteLength(line) + 1 <= limit }

  lemma ClosingTurn(limit: nat, judge: Judge, x: string, rest: string)
    requires IsLine(limit, x) && judge([x]) == DeliveredAndClosed
    ensures Feed(limit, judge, FRESH, x + "\n" + rest) == Drain(limit, judge, Receiver(rest, true, 1, [x], []))
  {
    var r := FRESH.(buffer := FRESH.buffer + (x + "\n" + rest));
    assert r.buffer == x + "\n" + rest;
    OneTurn(limit, judge, r, x, rest);
    assert [] + [x] == [x];
  }

  lemma LateTurn(limit: nat, judge: Judge, x: string, y: string)
    requires IsLine(limit, y) && judge([x, y]) != Malformed
    ensures Drain(limit, judge, Receiver(y + "\n", true, 1, [x], [])).handed == [x, y]
  {
    assert [x] + [y] == [x, y];
    var r := Receiver(y + "\n", true, 1, [x], []);
    assert r.buffer == y + "\n" + "";
    OneTurn(limit, judge, r, y, "");
    var next := Parsed(judge, r.(buffer := "", frames := r.frames + 1), y);
    EmptyBufferDrains(limit, judge, next);
    assert [x] + [y] == [x, y];
  }

  /**
   Any two valid lines, the first of which makes a listener close: one data event hands on both, two events only
   the first.
   */
  lemma LineAfterTheEnd(limit: nat, judge: Judge, x: string, y: string)
    requires IsLine(limit, x) && IsLine(limit, y) && judge([x]) == DeliveredAndClosed && judge([x, y]) != Malformed
    ensures Feed(limit, judge, FRESH, x + "\n" + (y + "\n")).handed == [x, y]
    ensures FeedAll(limit, judge, FRESH, [x + "\n"] + [y + "\n"]).handed == [x]
  {
    ClosingTurn(limit, judge, x, y + "\n");
    LateTurn(limit, judge, x, y);
    ClosingTurn(limit, judge, x, "");
    assert x + "\n" + "" == x + "\n";
    EmptyBufferDrains(limit, judge, Receiver("", true, 1, [x], []));
    FeedsFirst(limit, judge, FRESH, x + "\n", [y + "\n"]);
    ClosedFeedsNothing(limit, judge, Feed(limit, judge, FRESH, x + "\n"), [y + "\n"]);
  }

  // ---------- sending and receiving ----------

  /** What the socket carries once the given messages have been accepted by `Send`. */
  function Stream(lines: seq<string>): string {
    if lines == [] then "" else lines[0] + "\n" + Stream(lines[1..])
  }

  /** A JSON text written on one line is neither empty nor does it hold a newline. */
  predicate IsJsonLine(line: string) { line != "" && '\n' !in line }

  /** The frames the sender accepts are exactly those the receiver's line check accepts. */
  lemma LimitsAgree(limit: nat, line: string)
    ensures ByteLength(line + "\n") <= limit <==> !(ByteLength(line) + 1 > limit)
  {
    ByteLengthAppend(line, "\n");
    assert ByteLength("\n") == 1 by {
      assert "\n"[1..] == "";
    }
  }

  lemma {:induction false} StreamSplits(lines: seq<string>)
    requires forall k | 0 <= k < |lines| :: IsJsonLine(lines[k])
    ensures LinesOf(Stream(lines)) == lines && RemainderOf(Stream(lines)) == ""
    decreases |lines|
  {
    if lines != [] {
      var rest := Stream(lines[1..]);
      FindIn(lines[0], rest);
      assert Stream(lines)[..|lines[0]|] == lines[0];
      assert Stream(lines)[|lines[0]| + 1..] == rest;
      StreamSplits(lines[1..]);
      assert lines == [lines[0]] + lines[1..];
    }
  }

  lemma {:induction false} NothingEnds(limit: nat, judge: Judge, before: seq<string>, lines: seq<string>)
    requires forall k | 0 <= k < |lines| :: ByteLength(lines[k] + "\n") <= limit
    requires forall k | 0 < k <= |lines| :: judge(before + lines[..k]) == Delivered
    ensures !AnyEnds(limit, judge, before, lines)
    decreases |lines|
  {
    if lines != [] {
      LimitsAgree(limit, lines[0]);
      assert before + lines[..1] == before + [lines[0]];
      forall k | 0 < k <= |lines[1..]| ensures judge(before + [lines[0]] + lines[1..][..k]) == Delivered {
        assert before + [lines[0]] + lines[1..][..k] == before + lines[..k + 1];
      }
      NothingEnds(limit, judge, before + [lines[0]], lines[1..]);
    }
  }

  /**
   What the sender accepted is what the receiver hands on: the same messages in the same order for
   every cut of the stream, and the frame and byte totals of the two ends agree.
   */
  lemma StreamRoundTrip(limit: nat, judge: Judge, lines: seq<string>, chunks: seq<string>)
    requires forall k | 0 <= k < |lines| :: IsJsonLine(lines[k]) && ByteLength(lines[k] + "\n") <= limit
    requires forall k | 0 < k <= |lines| :: judge(lines[..k]) == Delivered
    requires Concat(chunks) == Stream(lines)
    ensures FeedAll(limit, judge, FRESH, chunks) == Receiver("", false, |lines|, lines, [])
  {
    StreamSplits(lines);
    forall k | 0 < k <= |lines| ensures judge([] + lines[..k]) == Delivered {
      assert [] + lines[..k] == lines[..k];
    }
    NothingEnds(limit, judge, [], lines);
    ChunkingIndependence(limit, judge, chunks);
  }

  /** A run of `Send` against a run of `HandleData` on another computer. */
  method Transmit(limit: nat, judge: Judge, messages: seq<string>, cuts: seq<string>)
    returns (sender: Transport, receiver: Transport, accepted: seq<string>)
    requires forall k | 0 <= k < |messages| :: IsJsonLine(messages[k])
    ensures forall k | 0 <= k < |accepted| :: IsJsonLine(accepted[k]) && ByteLength(accepted[k] + "\n") <= limit
    ensures sender.written == Stream(accepted)
    ensures sender.framesSent == |accepted| && sender.bytesSent == ByteLength(sender.written)
    ensures Concat(cuts) == sender.written && (forall k | 0 < k <= |accepted| :: judge(accepted[..k]) == Delivered) ==>
              && receiver.handed == accepted && !receiver.closed && receiver.buffer == ""
              && receiver.framesReceived == sender.framesSent && receiver.bytesReceived == sender.bytesSent
  {
    sender := new Transport(limit, judge);
    accepted := [];
    for i := 0 to |messages|
      invariant !sender.closed && sender.limit == limit
      invariant forall k | 0 <= k < |accepted| :: IsJsonLine(accepted[k]) && ByteLength(accepted[k] + "\n") <= limit
      invariant sender.written == Stream(accepted)
      invariant sender.framesSent == |accepted| && sender.bytesSent == ByteLength(sender.written)
    {
      ghost var before := sender.written;
      var sent := sender.Send(messages[i]);
      if sent {
        StreamGrows(accepted, messages[i]);
        ByteLengthAppend(before, messages[i] + "\n");
        assert before + messages[i] + "\n" == before + (messages[i] + "\n");
        accepted := accepted + [messages[i]];
      }
    }
    receiver := new Transport(limit, judge);
    var next := 0;
    while next < |cuts| && !receiver.closed
      invariant 0 <= next <= |cuts|
      invariant receiver.limit == limit && receiver.judge == judge && receiver != sender
      invariant sender.written == Stream(accepted)
      invariant sender.framesSent == |accepted| && sender.bytesSent == ByteLength(sender.written)
      invariant FeedAll(limit, judge, receiver.Received(), cuts[next..]) == FeedAll(limit, judge, FRESH, cuts)
      invariant receiver.bytesReceived + ByteLength(Concat(cuts[next..])) == ByteLength(Concat(cuts))
    {
      ByteLengthAppend(cuts[next], Concat(cuts[next + 1..]));
      assert cuts[next..][1..] == cuts[next + 1..];
      receiver.HandleData(cuts[next]);
      next := next + 1;
    }
    if Concat(cuts) == sender.written && (forall k | 0 < k <= |accepted| :: judge(accepted[..k]) == Delivered) {
      StreamRoundTrip(limit, judge, accepted, cuts);
    }
  }

  lemma {:induction false} StreamGrows(lines: seq<string>, line: string)
    ensures Stream(lines + [line]) == Stream(lines) + line + "\n"
    decreases |lines|
  {
    if lines == [] {
      assert ([] + [line])[1..] == [];
    } else {
      assert (lines + [line])[1..] == lines[1..] + [line];
      StreamGrows(lines[1..], line);
    }
  }
}
