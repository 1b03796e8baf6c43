/**
 * The server-sent-event framing of `EventStreamListenerAdapter.onData`: after every chunk the
 * whole buffered text is split into lines the way `BufferedReader.readLine` splits them; a
 * message is complete when the last line is blank; the remainders of its `data:` lines,
 * each stripped of leading whitespace, are joined with no separator.
 *
 * This is a simplified form of sections 9.2.5 and 9.2.6 of the WHATWG HTML Living Standard
 * (parsing and interpreting an event stream): the code joins data lines without the "\n" the
 * standard inserts, and strips all leading whitespace where the standard strips one space.
 */
module Sse {
  import opened Wrappers
  import opened Text

  predicate IsLineBreak(c: char) {
    c == '\n' || c == '\r'
  }

  predicate NoLineBreak(line: string) {
    forall k :: 0 <= k < |line| ==> !IsLineBreak(line[k])
  }

  /** Index of the first line break, or the length when there is none. */
  function LineEnd(s: string): (i: nat)
    ensures i <= |s|
    ensures NoLineBreak(s[..i])
    ensures i < |s| ==> IsLineBreak(s[i])
  {
    if s == [] || IsLineBreak(s[0]) then 0
    else
      var i := 1 + LineEnd(s[1..]);
      assert s[..i] == [s[0]] + s[1..][..i - 1];
      i
  }

  /**
   * The lines `BufferedReader.readLine` returns for `s`: a line ends at "\n", "\r" or "\r\n";
   * a last line without a terminator is returned when it is not empty.
   */
  function Lines(s: string): (lines: seq<string>)
    ensures forall j :: 0 <= j < |lines| ==> NoLineBreak(lines[j])
    decreases |s|
  {
    if s == [] then []
    else
      var i := LineEnd(s);
      if i == |s| then [s]
      else
        var next := if s[i] == '\r' && i + 1 < |s| && s[i + 1] == '\n' then i + 2 else i + 1;
        [s[..i]] + Lines(s[next..])
  }

  /** Each line followed by "\n": the text a well-behaved SSE server sends for these lines. */
  function Unlines(lines: seq<string>): string {
    if lines == [] then "" else lines[0] + "\n" + Unlines(lines[1..])
  }

  /** A message ends when at least one line was read and the last one is blank. */
  predicate EndOfMessage(lines: seq<string>) {
    |lines| > 0 && IsBlank(lines[|lines| - 1])
  }

  predicate IsDataLine(line: string) {
    StartsWith(line, "data:")
  }

  /** The `data:` remainders, each with its leading whitespace stripped, joined with no separator. */
  function Payload(lines: seq<string>): string {
    if lines == [] then ""
    else (if IsDataLine(lines[0]) then StripLeading(lines[0][5..]) else "") + Payload(lines[1..])
  }

  /** Only the `data:` lines of a message. */
  function DataLines(lines: seq<string>): (r: seq<string>)
    ensures forall j :: 0 <= j < |r| ==> IsDataLine(r[j])
  {
    if lines == [] then []
    else (if IsDataLine(lines[0]) then [lines[0]] else []) + DataLines(lines[1..])
  }

  /** What one re-scan of the buffered text finds: whether a message is complete, and the event to deliver. */
  datatype Frame = Frame(complete: bool, event: Option<string>)

  /**
   * The scan of the buffered text: complete when its last line is blank; an event is
   * delivered exactly when, in addition, some `data:` line has a remainder that is not blank.
   */
  function FrameText(text: string): (f: Frame)
    ensures f.complete <==> EndOfMessage(Lines(text))
    ensures f.event.Some? <==> f.complete && exists j :: 0 <= j < |Lines(text)| && IsDataLine(Lines(text)[j]) && !IsBlank(Lines(text)[j][5..])
  {
    var lines := Lines(text);
    PayloadNonEmptyIff(lines);
    if EndOfMessage(lines) then
      var content := Payload(lines);
      Frame(true, if |content| > 0 then Some(Trim(content)) else None)
    else Frame(false, None)
  }

  /** One `onData` call: the buffer afterwards, whether a message completed, and the event delivered. */
  datatype SseStep = SseStep(buffer: string, complete: bool, event: Option<string>)

  function OnChunk(buffer: string, chunk: string): (r: SseStep)
    ensures r.event.Some? ==> r.complete
    ensures r.complete <==> EndOfMessage(Lines(buffer + chunk))
    ensures r.complete ==> r.buffer == ""
    ensures !r.complete ==> r.buffer == buffer + chunk
  {
    var text := buffer + chunk;
    var frame := FrameText(text);
    SseStep(if frame.complete then "" else text, frame.complete, frame.event)
  }

  /** The result of a run of `onData` calls: the final buffer, the messages completed and the events delivered. */
  datatype FeedResult = FeedResult(buffer: string, messages: nat, events: seq<string>)

  function Feed(buffer: string, chunks: seq<string>): (r: FeedResult)
    ensures |r.events| <= r.messages <= |chunks|
    ensures r.messages == 0 ==> r.buffer == buffer + Concat(chunks) && r.events == []
    decreases |chunks|
  {
    if chunks == [] then FeedResult(buffer, 0, [])
    else
      var step := OnChunk(buffer, chunks[0]);
      var rest := Feed(step.buffer, chunks[1..]);
      BufferedChunk(buffer, chunks);
      FeedResult(rest.buffer,
                 rest.messages + (if step.complete then 1 else 0),
                 (if step.event.Some? then [step.event.value] else []) + rest.events)
  }

  function Concat(chunks: seq<string>): string {
    if chunks == [] then "" else chunks[0] + Concat(chunks[1..])
  }

  /** The text a buffer holds once the first chunk is appended, followed by the rest, is the buffer followed by all chunks. */
  lemma BufferedChunk(buffer: string, chunks: seq<string>)
    requires chunks != []
    ensures (buffer + chunks[0]) + Concat(chunks[1..]) == buffer + Concat(chunks)
  {
    assert Concat(chunks) == chunks[0] + Concat(chunks[1..]);
  }

  /** The events a text delivers when it arrives as a single chunk. */
  function EventsOf(text: string): seq<string> {
    var frame := FrameText(text);
    if frame.event.Some? then [frame.event.value] else []
  }

  /** A line a message may carry before its blank terminator: non-empty, no line break, not starting with whitespace. */
  predicate MessageLine(line: string) {
    |line| > 0 && NoLineBreak(line) && !IsWhitespace(line[0])
  }

  predicate MessageLines(lines: seq<string>) {
    forall j :: 0 <= j < |lines| ==> MessageLine(lines[j])
  }

  /** The text of a message: its lines, each terminated by "\n", then the blank line. */
  function MessageText(lines: seq<string>): string {
    Unlines(lines) + "\n"
  }

  // ---------------------------------------------------------------------------------------
  // Line splitting

  lemma LineEndOfTerminated(line: string, rest: string)
    requires NoLineBreak(line)
    ensures LineEnd(line + "\n" + rest) == |line|
    decreases |line|
  {
    if line != [] {
      assert (line + "\n" + rest)[1..] == line[1..] + "\n" + rest;
      LineEndOfTerminated(line[1..], rest);
    }
  }

  lemma LineEndOfUnterminated(line: string)
    requires NoLineBreak(line)
    ensures LineEnd(line) == |line|
    decreases |line|
  {
    if line != [] {
      LineEndOfUnterminated(line[1..]);
    }
  }

  /** A line without line breaks, terminated by "\n", is read back as itself, and reading continues after the "\n". */
  lemma LinesOfTerminated(line: string, rest: string)
    requires NoLineBreak(line)
    ensures Lines(line + "\n" + rest) == [line] + Lines(rest)
  {
    var s := line + "\n" + rest;
    LineEndOfTerminated(line, rest);
    assert s[|line|] == '\n';
    assert s[..|line|] == line;
    assert s[|line| + 1..] == rest;
  }

  lemma LinesOfUnterminated(line: string)
    requires |line| > 0 && NoLineBreak(line)
    ensures Lines(line) == [line]
  {
    LineEndOfUnterminated(line);
  }

  /** Splitting the text `Unlines(lines) + rest` yields `lines` first, then the lines of `rest`. */
  lemma {:induction false} LinesAfterUnlines(lines: seq<string>, rest: string)
    requires forall j :: 0 <= j < |lines| ==> NoLineBreak(lines[j])
    ensures Lines(Unlines(lines) + rest) == lines + Lines(rest)
  {
    if lines == [] {
      assert Unlines(lines) + rest == rest;
    } else {
      var tail := Unlines(lines[1..]) + rest;
      calc {
        Lines(Unlines(lines) + rest);
        { assert Unlines(lines) + rest == lines[0] + "\n" + tail; }
        Lines(lines[0] + "\n" + tail);
        { LinesOfTerminated(lines[0], tail); }
        [lines[0]] + Lines(tail);
        { LinesAfterUnlines(lines[1..], rest); }
        [lines[0]] + (lines[1..] + Lines(rest));
        { assert lines == [lines[0]] + lines[1..]; }
        lines + Lines(rest);
      }
    }
  }

  /** Round trip: lines without line breaks, each terminated by "\n", are split back into the same lines. */
  lemma LinesRoundTrip(lines: seq<string>)
    requires forall j :: 0 <= j < |lines| ==> NoLineBreak(lines[j])
    ensures Lines(Unlines(lines)) == lines
  {
    LinesAfterUnlines(lines, "");
    assert Unlines(lines) + "" == Unlines(lines);
  }

  /** A message text splits into its lines followed by one blank line, so it is complete. */
  lemma MessageTextComplete(lines: seq<string>)
    requires MessageLines(lines)
    ensures Lines(MessageText(lines)) == lines + [""]
    ensures EndOfMessage(Lines(MessageText(lines)))
  {
    LinesAfterUnlines(lines, "\n");
    assert Lines("\n") == [""] + Lines("");
  }

  lemma MessageTextCons(lines: seq<string>)
    requires lines != []
    ensures MessageText(lines) == lines[0] + "\n" + MessageText(lines[1..])
  {
    assert Unlines(lines) == lines[0] + "\n" + Unlines(lines[1..]);
  }

  /** A cut inside the first line of a message leaves one partial line, which is not blank. */
  lemma FirstLinePrefixIncomplete(line: string, rest: string, m: string, k: nat)
    requires MessageLine(line) && m == line + "\n" + rest && 0 < k <= |line|
    ensures !EndOfMessage(Lines(m[..k]))
  {
    var part := m[..k];
    assert part == line[..k];
    assert NoLineBreak(part);
    LinesOfUnterminated(part);
    assert part[0] == line[0];
  }

  /** A message line followed by lines that do not end a message does not end one either. */
  lemma ConsNotEnd(line: string, tail: seq<string>)
    requires MessageLine(line) && !EndOfMessage(tail)
    ensures !EndOfMessage([line] + tail)
  {
    if tail != [] {
      assert ([line] + tail)[|tail|] == tail[|tail| - 1];
    }
  }

  /** A cut after the first line of a message is incomplete when the same cut of the rest of the message is. */
  lemma LaterPrefixIncomplete(line: string, rest: string, m: string, k: nat)
    requires MessageLine(line) && m == line + "\n" + rest && |line| < k <= |m|
    requires !EndOfMessage(Lines(rest[..k - |line| - 1]))
    ensures !EndOfMessage(Lines(m[..k]))
  {
    var cut := rest[..k - |line| - 1];
    PrefixOfAppend(line + "\n", rest, k - |line| - 1);
    assert m[..k] == line + "\n" + cut;
    LinesOfTerminated(line, cut);
    ConsNotEnd(line, Lines(cut));
  }

  lemma PrefixOfAppend<T>(x: seq<T>, y: seq<T>, n: nat)
    requires n <= |y|
    ensures (x + y)[..|x| + n] == x + y[..n]
  {
  }

  /** One step of the induction below: a cut of `line`, "\n", `rest` is incomplete. */
  lemma ConsPrefixIncomplete(line: string, rest: string, m: string, k: nat)
    requires MessageLine(line) && m == line + "\n" + rest && 0 < k <= |m|
    requires k > |line| ==> !EndOfMessage(Lines(rest[..k - |line| - 1]))
    ensures !EndOfMessage(Lines(m[..k]))
  {
    if k <= |line| {
      FirstLinePrefixIncomplete(line, rest, m, k);
    } else {
      LaterPrefixIncomplete(line, rest, m, k);
    }
  }

  /**
   * No proper prefix of a message text is complete: a chunk boundary inside a message never
   * ends it early, because only the final blank line is blank.
   */
  lemma {:induction false} ProperPrefixIncomplete(lines: seq<string>, k: nat)
    requires MessageLines(lines)
    requires k < |MessageText(lines)|
    ensures !EndOfMessage(Lines(MessageText(lines)[..k]))
  {
    var m := MessageText(lines);
    if k == 0 {
      assert m[..k] == "";
    } else if lines != [] {
      var line := lines[0];
      var m' := MessageText(lines[1..]);
      MessageTextCons(lines);
      assert MessageLine(line);
      assert MessageLines(lines[1..]) by {
        forall j | 0 <= j < |lines[1..]|
          ensures MessageLine(lines[1..][j])
        {
          assert lines[1..][j] == lines[j + 1];
        }
      }
      if k > |line| {
        ProperPrefixIncomplete(lines[1..], k - |line| - 1);
      }
      ConsPrefixIncomplete(line, m', m, k);
    }
  }

  // ---------------------------------------------------------------------------------------
  // Payload

  lemma {:induction false} PayloadAppend(a: seq<string>, b: seq<string>)
    ensures Payload(a + b) == Payload(a) + Payload(b)
  {
    if a == [] {
      assert a + b == b;
    } else {
      var head := if IsDataLine(a[0]) then StripLeading(a[0][5..]) else "";
      assert (a + b)[0] == a[0];
      assert (a + b)[1..] == a[1..] + b;
      assert Payload(a + b) == head + Payload(a[1..] + b);
      PayloadAppend(a[1..], b);
      assert head + (Payload(a[1..]) + Payload(b)) == (head + Payload(a[1..])) + Payload(b);
    }
  }

  /** Lines other than `data:` lines contribute nothing: the payload is that of the data lines alone. */
  lemma {:induction false} PayloadIgnoresOtherLines(lines: seq<string>)
    ensures Payload(lines) == Payload(DataLines(lines))
  {
    if lines != [] {
      PayloadIgnoresOtherLines(lines[1..]);
      var head := if IsDataLine(lines[0]) then [lines[0]] else [];
      PayloadAppend(head, DataLines(lines[1..]));
      if head != [] {
        assert head[1..] == [];
      }
    }
  }

  /**
   * The joined payload is non-empty exactly when some `data:` line has a remainder that is
   * not blank, which is when the event callback fires.
   */
  lemma {:induction false} PayloadNonEmptyIff(lines: seq<string>)
    ensures |Payload(lines)| > 0 <==>
            exists j :: 0 <= j < |lines| && IsDataLine(lines[j]) && !IsBlank(lines[j][5..])
  {
    if lines != [] {
      PayloadNonEmptyIff(lines[1..]);
      if IsDataLine(lines[0]) {
        StripLeadingEmptyIffBlank(lines[0][5..]);
      }
      if exists j :: 0 <= j < |lines[1..]| && IsDataLine(lines[1..][j]) && !IsBlank(lines[1..][j][5..]) {
        var j :| 0 <= j < |lines[1..]| && IsDataLine(lines[1..][j]) && !IsBlank(lines[1..][j][5..]);
        assert lines[j + 1] == lines[1..][j];
      }
      if exists j :: 0 <= j < |lines| && IsDataLine(lines[j]) && !IsBlank(lines[j][5..]) {
        var j :| 0 <= j < |lines| && IsDataLine(lines[j]) && !IsBlank(lines[j][5..]);
        if j > 0 {
          assert lines[1..][j - 1] == lines[j];
        }
      }
    }
  }

  // ---------------------------------------------------------------------------------------
  // Chunking

  lemma ConcatPrefixCons(chunks: seq<string>, n: nat)
    requires 0 < n <= |chunks|
    ensures Concat(chunks[..n]) == chunks[0] + Concat(chunks[1..][..n - 1])
  {
    var p := chunks[..n];
    assert p[0] == chunks[0];
    assert p[1..] == chunks[1..][..n - 1];
  }

  /** Feeding `xs` and then `ys` is feeding `xs + ys`: the buffer carries over, messages add up and events concatenate. */
  lemma {:induction false} FeedSplit(buffer: string, xs: seq<string>, ys: seq<string>)
    ensures var a := Feed(buffer, xs);
            var b := Feed(a.buffer, ys);
            Feed(buffer, xs + ys) == FeedResult(b.buffer, a.messages + b.messages, a.events + b.events)
    decreases |xs|
  {
    if xs == [] {
      assert xs + ys == ys;
    } else {
      assert (xs + ys)[0] == xs[0] && (xs + ys)[1..] == xs[1..] + ys;
      var step := OnChunk(buffer, xs[0]);
      FeedSplit(step.buffer, xs[1..], ys);
      var head := if step.event.Some? then [step.event.value] else [];
      var a := Feed(step.buffer, xs[1..]);
      var b := Feed(a.buffer, ys);
      assert head + (a.events + b.events) == (head + a.events) + b.events;
    }
  }

  /** No scan of `buffer` followed by a non-empty prefix of the chunks completes a message. */
  predicate NoneComplete(buffer: string, chunks: seq<string>) {
    forall n :: 0 < n <= |chunks| ==> !FrameText(buffer + Concat(chunks[..n])).complete
  }

  lemma NoneCompleteTail(buffer: string, chunks: seq<string>)
    requires chunks != [] && NoneComplete(buffer, chunks)
    ensures !FrameText(buffer + chunks[0]).complete
    ensures NoneComplete(buffer + chunks[0], chunks[1..])
  {
    ConcatPrefixCons(chunks, 1);
    assert chunks[1..][..0] == [];
    assert buffer + Concat(chunks[..1]) == buffer + chunks[0];
    forall n | 0 < n <= |chunks[1..]|
      ensures !FrameText((buffer + chunks[0]) + Concat(chunks[1..][..n])).complete
    {
      ConcatPrefixCons(chunks, n + 1);
      assert buffer + Concat(chunks[..n + 1]) == (buffer + chunks[0]) + Concat(chunks[1..][..n]);
    }
  }

  /** While no scan completes a message, every chunk is kept: the buffer is the old text followed by all of them. */
  lemma {:induction false} FeedAccumulates(buffer: string, chunks: seq<string>)
    requires NoneComplete(buffer, chunks)
    ensures Feed(buffer, chunks) == FeedResult(buffer + Concat(chunks), 0, [])
    decreases |chunks|
  {
    if chunks != [] {
      NoneCompleteTail(buffer, chunks);
      FeedAccumulates(buffer + chunks[0], chunks[1..]);
    }
  }

  /**
   * Until a message completes nothing is lost: when no scan of `buffer` followed by the first
   * chunks completes a message, the buffer ends up holding all of that text and nothing is
   * delivered; a last chunk that completes the message then delivers exactly the events of
   * the whole accumulated text, as if it had arrived in one piece.
   */
  lemma FeedAccumulatesUntilComplete(buffer: string, chunks: seq<string>, last: string)
    requires NoneComplete(buffer, chunks)
    ensures Feed(buffer, chunks) == FeedResult(buffer + Concat(chunks), 0, [])
    ensures FrameText(buffer + Concat(chunks) + last).complete ==>
              Feed(buffer, chunks + [last]) == FeedResult("", 1, EventsOf(buffer + Concat(chunks) + last))
  {
    FeedAccumulates(buffer, chunks);
    FeedSplit(buffer, chunks, [last]);
    assert [last][1..] == [];
  }

  /** Chunks that together are empty deliver nothing and leave an empty buffer empty. */
  lemma {:induction false} FeedEmptyChunks(chunks: seq<string>)
    requires Concat(chunks) == ""
    ensures Feed("", chunks) == FeedResult("", 0, [])
  {
    if chunks != [] {
      assert chunks[0] == "" && Concat(chunks[1..]) == "";
      assert OnChunk("", "") == SseStep("", false, None) by {
        assert "" + "" == "";
      }
      FeedEmptyChunks(chunks[1..]);
    }
  }

  /**
   * However a message text is cut into chunks, once the buffer holds a proper prefix of it
   * the remaining chunks complete exactly one message and deliver exactly the events the
   * whole text delivers as one chunk, leaving the buffer empty.
   */
  lemma {:induction false} FeedRestOfMessage(lines: seq<string>, prefix: string, chunks: seq<string>)
    requires MessageLines(lines)
    requires prefix + Concat(chunks) == MessageText(lines)
    requires |prefix| < |MessageText(lines)|
    ensures Feed(prefix, chunks) == FeedResult("", 1, EventsOf(MessageText(lines)))
    decreases |chunks|
  {
    var m := MessageText(lines);
    assert chunks != [];
    var text := prefix + chunks[0];
    assert m == text + Concat(chunks[1..]);
    assert text == m[..|text|];
    var step := OnChunk(prefix, chunks[0]);
    if |text| < |m| {
      ProperPrefixIncomplete(lines, |text|);
      assert !step.complete && step.event.None? && step.buffer == text;
      FeedRestOfMessage(lines, text, chunks[1..]);
    } else {
      assert text == m;
      MessageTextComplete(lines);
      assert Concat(chunks[1..]) == "";
      FeedEmptyChunks(chunks[1..]);
    }
  }

  /** A message split across any number of chunks gives the same result as the message in one chunk. */
  lemma MessageChunkingInvariant(lines: seq<string>, chunks: seq<string>)
    requires MessageLines(lines)
    requires Concat(chunks) == MessageText(lines)
    ensures Feed("", chunks) == FeedResult("", 1, EventsOf(MessageText(lines)))
  {
    assert "" + Concat(chunks) == Concat(chunks);
    FeedRestOfMessage(lines, "", chunks);
  }

  lemma PayloadCons(line: string, rest: seq<string>)
    ensures Payload([line] + rest) == (if IsDataLine(line) then StripLeading(line[5..]) else "") + Payload(rest)
  {
    assert ([line] + rest)[0] == line;
    assert ([line] + rest)[1..] == rest;
  }

  lemma UnlinesSingle(line: string)
    ensures Unlines([line]) == line + "\n"
  {
    var single := [line];
    assert |single[1..]| == 0;
  }

  /**
   * A complete message delivers one event, the trimmed payload of its lines, exactly when that
   * payload is not empty; the blank terminator adds nothing to the payload.
   */
  lemma EventsOfMessage(lines: seq<string>)
    requires MessageLines(lines)
    ensures EventsOf(MessageText(lines)) == if |Payload(lines)| > 0 then [Trim(Payload(lines))] else []
  {
    var all := Lines(MessageText(lines));
    MessageTextComplete(lines);
    assert Payload(all) == Payload(lines) by {
      PayloadAppend(lines, [""]);
      PayloadCons("", []);
      assert [""] == [""] + [];
    }
    var frame := FrameText(MessageText(lines));
    assert frame.complete;
    assert frame.event == if |Payload(lines)| > 0 then Some(Trim(Payload(lines))) else None;
  }

  lemma TwoDataLinesText()
    ensures MessageLines(["data:ab", "data:cd"])
    ensures MessageText(["data:ab", "data:cd"]) == "data:ab\ndata:cd\n\n"
  {
    var first, second := "data:ab", "data:cd";
    var lines := [first, second];
    assert MessageLine(first) && MessageLine(second);
    UnlinesSingle(second);
    assert lines[1..] == [second];
  }

  lemma DataRemainder(line: string, value: string)
    requires line == "data:" + value
    requires value == [] || !IsWhitespace(value[0])
    ensures IsDataLine(line) && StripLeading(line[5..]) == value
  {
    assert line[..5] == "data:";
    assert line[5..] == value;
  }

  lemma PayloadPair(a: string, b: string)
    requires IsDataLine(a) && IsDataLine(b)
    ensures Payload([a, b]) == StripLeading(a[5..]) + StripLeading(b[5..])
  {
    var tail := [b];
    assert tail[1..] == [] && tail[0] == b;
    assert Payload(tail) == StripLeading(b[5..]) + Payload([]);
    var both := [a, b];
    assert both[1..] == tail && both[0] == a;
    assert Payload(both) == StripLeading(a[5..]) + Payload(tail);
  }

  /** The message "data:ab", "data:cd", blank: its two data lines join with no separator. */
  lemma TwoDataLinesPayload()
    ensures Payload(["data:ab", "data:cd"]) == "abcd"
  {
    DataRemainder("data:ab", "ab");
    DataRemainder("data:cd", "cd");
    PayloadPair("data:ab", "data:cd");
    assert "ab" + "cd" == "abcd";
  }

  /** That message, in any chunking, fires the callback once with "abcd". */
  lemma DataLinesJoinedWithoutSeparator(chunks: seq<string>)
    requires Concat(chunks) == "data:ab\ndata:cd\n\n"
    ensures Feed("", chunks) == FeedResult("", 1, ["abcd"])
  {
    var lines := ["data:ab", "data:cd"];
    TwoDataLinesText();
    TwoDataLinesPayload();
    EventsOfMessage(lines);
    assert Trim("abcd") == "abcd";
    MessageChunkingInvariant(lines, chunks);
  }

  /** A comment-only message (a keep-alive) completes a message but delivers no event. */
  lemma CommentOnlyMessageDeliversNothing()
    ensures OnChunk("", ": hi\n\n") == SseStep("", true, None)
  {
    var comment := ": hi";
    var lines := [comment];
    assert MessageLine(comment);
    assert MessageText(lines) == ": hi\n\n" by {
      UnlinesSingle(comment);
    }
    assert !IsDataLine(comment) by { assert |comment| < 5; }
    assert Payload(lines) == "" by {
      PayloadCons(comment, []);
      assert lines == [comment] + [];
    }
    EventsOfMessage(lines);
    MessageTextComplete(lines);
    assert "" + ": hi\n\n" == ": hi\n\n";
  }

  // ---------------------------------------------------------------------------------------
  // A message whose lines may start with whitespace

  lemma FeedOneChunk(buffer: string, chunk: string)
    ensures var step := OnChunk(buffer, chunk);
            Feed(buffer, [chunk])
              == FeedResult(step.buffer, if step.complete then 1 else 0, if step.event.Some? then [step.event.value] else [])
  {
    assert [chunk][1..] == [];
  }

  lemma FeedTwoChunks(buffer: string, c1: string, c2: string)
    ensures var first := OnChunk(buffer, c1);
            var second := OnChunk(first.buffer, c2);
            Feed(buffer, [c1, c2])
              == FeedResult(second.buffer,
                            (if first.complete then 1 else 0) + (if second.complete then 1 else 0),
                            (if first.event.Some? then [first.event.value] else [])
                              + (if second.event.Some? then [second.event.value] else []))
  {
    var chunks := [c1, c2];
    assert chunks[0] == c1 && chunks[1..] == [c2];
    FeedOneChunk(OnChunk(buffer, c1).buffer, c2);
  }

  /** Cut after "data:a\n ", the partial line " " is blank: the scan takes it for the end of the message. */
  lemma CutLines(first: string, partial: string)
    requires first == "data:a" && partial == " "
    ensures Lines(first + "\n" + partial) == [first, partial]
  {
    assert NoLineBreak(first);
    LinesOfTerminated(first, partial);
    LinesOfUnterminated(partial);
  }

  lemma CutPayload(first: string, partial: string)
    requires first == "data:a" && partial == " "
    ensures Payload([first, partial]) == "a"
  {
    DataLineA(first);
    assert !IsDataLine(partial);
    var tail := [partial];
    assert tail == [partial] + [] && [first, partial] == [first] + tail;
    PayloadCons(partial, []);
    PayloadCons(first, tail);
  }

  /** The scan of a text whose lines end the message with a payload that needs no trimming. */
  lemma FrameOfMessage(text: string, lines: seq<string>, payload: string)
    requires Lines(text) == lines && EndOfMessage(lines) && Payload(lines) == payload
    requires |payload| > 0 && !Trimmable(payload[0]) && !Trimmable(payload[|payload| - 1])
    ensures FrameText(text) == Frame(true, Some(payload))
  {
  }

  lemma CutAfterBlankPrefix(text: string)
    requires text == "data:a\n "
    ensures FrameText(text) == Frame(true, Some("a"))
  {
    var first, partial := "data:a", " ";
    assert text == first + "\n" + partial;
    CutLines(first, partial);
    CutPayload(first, partial);
    assert EndOfMessage([first, partial]);
    FrameOfMessage(text, [first, partial], "a");
  }

  /** A line break alone is one blank line. */
  lemma LinesOfLineBreak()
    ensures Lines("\n") == [""]
  {
    LinesOfTerminated("", "");
    assert "" + "\n" + "" == "\n";
  }

  /** Two lines and a blank one, each terminated. */
  lemma LinesOfTwoAndBlank(x: string, b: string)
    requires NoLineBreak(x) && NoLineBreak(b)
    ensures Lines(x + "\n" + b + "\n" + "\n") == [x, b, ""]
  {
    LinesOfLineBreak();
    LinesOfTerminated(b, "\n");
    assert x + "\n" + b + "\n" + "\n" == x + "\n" + (b + "\n" + "\n");
    LinesOfTerminated(x, b + "\n" + "\n");
    ConsThree(x, b, "");
  }

  lemma ConsThree<T>(x: T, b: T, c: T)
    ensures [x] + ([b] + [c]) == [x, b, c]
  {
  }

  lemma ConsFour<T>(a: T, x: T, b: T, c: T)
    ensures [a] + [x, b, c] == [a, x, b, c]
  {
  }

  /** Three lines and a blank one, each terminated. */
  lemma LinesOfThreeAndBlank(a: string, x: string, b: string)
    requires NoLineBreak(a) && NoLineBreak(x) && NoLineBreak(b)
    ensures Lines(a + "\n" + (x + "\n" + b + "\n" + "\n")) == [a, x, b, ""]
  {
    var rest := x + "\n" + b + "\n" + "\n";
    var tail: seq<string> := [x, b, ""];
    LinesOfTwoAndBlank(x, b);
    assert Lines(rest) == tail;
    LinesOfTerminated(a, rest);
    ConsFour(a, x, b, "");
  }

  /** A line that is not a data line, a data line, and a blank terminator. */
  lemma PayloadAfterOtherLine(x: string, b: string)
    requires !IsDataLine(x) && IsDataLine(b)
    ensures Payload([x, b, ""]) == StripLeading(b[5..])
  {
    var blank: string := [];
    var l2, l1 := [blank], [b, blank];
    assert l2 == [blank] + [] && l1 == [b] + l2 && [x, b, blank] == [x] + l1;
    PayloadCons(blank, []);
    PayloadCons(b, l2);
    PayloadCons(x, l1);
  }

  /** The rest of the message, "x", "data:b" and the blank line, delivers "b". */
  lemma RestAfterCut(text: string)
    requires text == "x\ndata:b\n\n"
    ensures FrameText(text) == Frame(true, Some("b"))
  {
    var x, b := "x", "data:b";
    assert NoLineBreak(x) && NoLineBreak(b);
    assert text == x + "\n" + b + "\n" + "\n";
    LinesOfTwoAndBlank(x, b);
    DataLineB(b);
    assert !IsDataLine(x);
    PayloadAfterOtherLine(x, b);
    assert EndOfMessage([x, b, ""]);
    FrameOfMessage(text, [x, b, ""], "b");
  }

  /** Two data lines around a line that is not one, and a blank terminator. */
  lemma PayloadAroundOtherLine(a: string, x: string, b: string)
    requires IsDataLine(a) && !IsDataLine(x) && IsDataLine(b)
    ensures Payload([a, x, b, ""]) == StripLeading(a[5..]) + StripLeading(b[5..])
  {
    PayloadAfterOtherLine(x, b);
    var whole := [a, x, b, ""];
    assert whole[0] == a && whole[1..] == [x, b, ""];
  }

  lemma DataLineA(a: string)
    requires a == "data:a"
    ensures IsDataLine(a) && StripLeading(a[5..]) == "a"
  {
    DataRemainder(a, "a");
  }

  lemma DataLineB(b: string)
    requires b == "data:b"
    ensures IsDataLine(b) && StripLeading(b[5..]) == "b"
  {
    DataRemainder(b, "b");
  }

  lemma IndentedLineX(x: string)
    requires x == " x"
    ensures !IsDataLine(x)
  {
    assert x[0] == ' ';
  }

  lemma WholeMessagePayload(a: string, x: string, b: string)
    requires a == "data:a" && x == " x" && b == "data:b"
    ensures Payload([a, x, b, ""]) == "ab"
  {
    DataLineA(a);
    DataLineB(b);
    IndentedLineX(x);
    PayloadAroundOtherLine(a, x, b);
  }

  /** In one chunk, the message "data:a", " x", "data:b" delivers "ab". */
  lemma WholeMessageJoins(text: string)
    requires text == "data:a\n x\ndata:b\n\n"
    ensures FrameText(text) == Frame(true, Some("ab"))
  {
    var a, x, b := "data:a", " x", "data:b";
    assert NoLineBreak(a) && NoLineBreak(x) && NoLineBreak(b);
    assert text == a + "\n" + (x + "\n" + b + "\n" + "\n");
    LinesOfThreeAndBlank(a, x, b);
    WholeMessagePayload(a, x, b);
    assert EndOfMessage([a, x, b, ""]);
    FrameOfMessage(text, [a, x, b, ""], "ab");
  }

  /** In one chunk, the message delivers one event. */
  lemma WholeMessageFeed(text: string)
    requires text == "data:a\n x\ndata:b\n\n"
    ensures Feed("", [text]) == FeedResult("", 1, ["ab"])
  {
    WholeMessageJoins(text);
    assert "" + text == text;
    FeedOneChunk("", text);
  }

  lemma FirstChunkOfCut(c1: string)
    requires c1 == "data:a\n "
    ensures OnChunk("", c1) == SseStep("", true, Some("a"))
  {
    assert "" + c1 == c1;
    CutAfterBlankPrefix(c1);
  }

  lemma SecondChunkOfCut(c2: string)
    requires c2 == "x\ndata:b\n\n"
    ensures OnChunk("", c2) == SseStep("", true, Some("b"))
  {
    assert "" + c2 == c2;
    RestAfterCut(c2);
  }

  /** Cut after "data:a\n ", the message delivers two events. */
  lemma CutMessageFeed(c1: string, c2: string)
    requires c1 == "data:a\n " && c2 == "x\ndata:b\n\n"
    ensures Feed("", [c1, c2]) == FeedResult("", 2, ["a", "b"])
  {
    FirstChunkOfCut(c1);
    SecondChunkOfCut(c2);
    FeedTwoChunks("", c1, c2);
  }

  /**
   * A message with a line that starts with whitespace is not chunking-invariant: "data:a",
   * " x", "data:b" delivers "ab" in one chunk, but "a" and then "b" when cut after "data:a\n ".
   */
  lemma LeadingWhitespaceLineSplitsMessage()
    ensures Feed("", ["data:a\n x\ndata:b\n\n"]) == FeedResult("", 1, ["ab"])
    ensures Feed("", ["data:a\n ", "x\ndata:b\n\n"]) == FeedResult("", 2, ["a", "b"])
  {
    WholeMessageFeed("data:a\n x\ndata:b\n\n");
    CutMessageFeed("data:a\n ", "x\ndata:b\n\n");
  }
}
