/**
 Server-sent events: the writer, and as its specification the decoder of the WHATWG HTML Living Standard, section
 9.2.5 "Parsing an event stream" and section 9.2.6 "Interpreting an event stream".
 */
module ServerSentEvents {
  import opened Wrappers
  import opened Collections
  import opened Text
  import opened Decimal

  // ---- the writer --------------------------------------------------------

  datatype Frame = EventFrame(name: string, data: string) | CommentFrame(text: string) | RetryFrame(ms: nat)

  function SplitLF(data: string): seq<string> {
    Lines(data) + [Rest(data)]
  }

  function FieldLine(name: string, value: string): string {
    name + ": " + value
  }

  function DataFields(parts: seq<string>): seq<string> {
    if parts == [] then [] else [FieldLine("data", parts[0])] + DataFields(parts[1..])
  }

  function FrameLines(f: Frame): seq<string> {
    match f
    case EventFrame(name, data) =>
      (if name != "" then [FieldLine("event", name)] else []) + DataFields(SplitLF(data)) + [""]
    case CommentFrame(text) => [": " + text, ""]
    case RetryFrame(ms) => [FieldLine("retry", Print(ms)), ""]
  }

  function StreamOf(frames: seq<Frame>): seq<string> {
    if frames == [] then [] else FrameLines(frames[0]) + StreamOf(frames[1..])
  }

  /** The bytes a sequence of frames puts on the wire. */
  function Encode(frames: seq<Frame>): string {
    Unlines(StreamOf(frames))
  }

  class SseWriter {
    var out: string

    constructor ()
      ensures out == ""
    {
      out := "";
    }

    method SseEvent(name: string, data: string)
      modifies this
      ensures out == old(out) + Unlines(FrameLines(EventFrame(name, data)))
    {
      ghost var head := if name != "" then [FieldLine("event", name)] else [];
      assert out == out + Unlines([]);
      if name != "" {
        var line := FieldLine("event", name);
        out := out + line + "\n";
        WriteLine(old(out), [], line);
      }
      var parts := SplitLF(data);
      ghost var written := head;
      for i := 0 to |parts|
        invariant out == old(out) + Unlines(written)
        invariant written + DataFields(parts[i..]) == head + DataFields(parts)
      {
        var line := FieldLine("data", parts[i]);
        out := out + line + "\n";
        WriteLine(old(out), written, line);
        assert DataFields(parts[i..]) == [line] + DataFields(parts[i + 1..]);
        Glue(written, [line], DataFields(parts[i + 1..]));
        written := written + [line];
      }
      assert parts[|parts|..] == [];
      assert written == head + DataFields(parts);
      WriteLine(old(out), written, "");
      out := out + "\n";
    }

    method SseComment(text: string)
      modifies this
      ensures out == old(out) + Unlines(FrameLines(CommentFrame(text)))
    {
      out := out + ": " + text + "\n\n";
      TwoLines(old(out), ": " + text);
    }

    method SseRetry(ms: nat)
      modifies this
      ensures out == old(out) + Unlines(FrameLines(RetryFrame(ms)))
    {
      out := out + FieldLine("retry", Print(ms)) + "\n\n";
      TwoLines(old(out), FieldLine("retry", Print(ms)));
    }
  }

  lemma WriteLine(before: string, written: seq<string>, line: string)
    ensures before + Unlines(written) + line + "\n" == before + Unlines(written + [line])
    ensures line == "" ==> before + Unlines(written) + "\n" == before + Unlines(written + [line])
  {
    UnlinesAppend(written, [line]);
    UnlinesOne(line);
    Glue(before, Unlines(written), Terminated(line));
    assert before + Unlines(written) + line + "\n" == before + Unlines(written) + Terminated(line);
  }

  lemma TwoLines(before: string, line: string)
    ensures before + line + "\n\n" == before + Unlines([line, ""])
  {
    WriteLine(before, [], line);
    WriteLine(before, [line], "");
    assert [] + [line] == [line] && [line] + [""] == [line, ""];
    assert before + Unlines([]) == before;
    assert before + line + "\n\n" == before + line + "\n" + "\n";
  }

  // ---- the decoder -------------------------------------------------------

  datatype Event = Event(kind: string, data: string)

  /** The data and event type buffers, and the reconnection time once one has been set. */
  datatype Decoder = Decoder(data: string, kind: string, retry: Option<nat>)

  datatype Decoded = Decoded(decoder: Decoder, events: seq<Event>)

  const START: Decoder := Decoder("", "", None)

  predicate IsLineEnd(c: char) {
    c == '\r' || c == '\n'
  }

  function LineEnd(s: string): (i: nat)
    ensures i <= |s|
    ensures forall k :: 0 <= k < i ==> !IsLineEnd(s[k])
    ensures i < |s| ==> IsLineEnd(s[i])
  {
    if s == "" then 0 else if IsLineEnd(s[0]) then 0 else 1 + LineEnd(s[1..])
  }

  /**
   Section 9.2.5: lines end in CRLF, LF or CR. An unterminated line at the end can dispatch nothing and is
   dropped.
   */
  function SseLines(s: string): seq<string>
    decreases |s|
  {
    var i := LineEnd(s);
    if i == |s| then []
    else if s[i] == '\r' && i + 1 < |s| && s[i + 1] == '\n' then [s[..i]] + SseLines(s[i + 2..])
    else [s[..i]] + SseLines(s[i + 1..])
  }

  /** A byte order mark at the start of the stream is ignored. */
  function StripBom(s: string): string {
    if |s| >= 3 && s[0] as int == 0xEF && s[1] as int == 0xBB && s[2] as int == 0xBF then s[3..] else s
  }

  /** The field name is what stands before the first colon; one space after the colon is not part of the value. */
  function FieldName(line: string): string {
    line[..IndexByte(line, ':')]
  }

  function FieldValue(line: string): string {
    var colon := IndexByte(line, ':');
    if colon == |line| then ""
    else if colon + 1 < |line| && line[colon + 1] == ' ' then line[colon + 2..]
    else line[colon + 1..]
  }

  function Dispatch(d: Decoder): Decoded {
    Decoded(Decoder("", "", d.retry),
            if d.data == "" then []
            else [Event(if d.kind == "" then "message" else d.kind, d.data[..|d.data| - 1])])
  }

  /** Section 9.2.6, one line. The id field sets only the last event ID, which is not modelled. */
  function Feed(d: Decoder, line: string): Decoded {
    if line == "" then Dispatch(d)
    else if line[0] == ':' then Decoded(d, [])
    else
      var name, value := FieldName(line), FieldValue(line);
      if name == "event" then Decoded(d.(kind := value), [])
      else if name == "data" then Decoded(d.(data := d.data + Terminated(value)), [])
      else if name == "retry" && value != "" && AllDigits(value) then Decoded(d.(retry := Some(Value(value))), [])
      else Decoded(d, [])
  }

  function FeedAll(d: Decoder, lines: seq<string>): Decoded
    decreases |lines|
  {
    if lines == [] then Decoded(d, [])
    else
      var first := Feed(d, lines[0]);
      var more := FeedAll(first.decoder, lines[1..]);
      Decoded(more.decoder, first.events + more.events)
  }

  function Decode(s: string): Decoded {
    FeedAll(START, SseLines(StripBom(s)))
  }

  // ---- the round trip ----------------------------------------------------

  predicate OneLine(s: string) {
    Lacks(s, '\r') && Lacks(s, '\n')
  }

  predicate AllOneLine(lines: seq<string>) {
    forall k :: 0 <= k < |lines| ==> OneLine(lines[k])
  }

  /** A frame whose name or text stays on its line; the data may hold newlines but no carriage return. */
  predicate Encodable(f: Frame) {
    match f
    case EventFrame(name, data) => OneLine(name) && Lacks(data, '\r')
    case CommentFrame(text) => OneLine(text)
    case RetryFrame(_) => true
  }

  function KindOf(name: string): string {
    if name == "" then "message" else name
  }

  function EventOf(f: Frame): seq<Event> {
    if f.EventFrame? then [Event(KindOf(f.name), f.data)] else []
  }

  function EventsOf(frames: seq<Frame>): seq<Event> {
    if frames == [] then [] else EventOf(frames[0]) + EventsOf(frames[1..])
  }

  function RetryOf(retry: Option<nat>, f: Frame): Option<nat> {
    if f.RetryFrame? then Some(f.ms) else retry
  }

  function RetryAfter(retry: Option<nat>, frames: seq<Frame>): Option<nat>
    decreases |frames|
  {
    if frames == [] then retry else RetryAfter(RetryOf(retry, frames[0]), frames[1..])
  }

  lemma SseLinesCons(line: string, tail: string)
    requires OneLine(line)
    ensures SseLines(Terminated(line) + tail) == [line] + SseLines(tail)
  {
    var s := Terminated(line) + tail;
    assert s[|line|] == '\n';
    assert forall k :: 0 <= k < |line| ==> s[k] == line[k];
    assert LineEnd(s) == |line|;
    assert s[..|line|] == line && s[|line| + 1..] == tail;
  }

  lemma {:induction false} SseLinesOfUnlines(lines: seq<string>)
    requires AllOneLine(lines)
    ensures SseLines(Unlines(lines)) == lines
  {
    if lines != [] {
      SseLinesOfUnlines(lines[1..]);
      SseLinesCons(lines[0], Unlines(lines[1..]));
    }
  }

  /** Each line followed by the same mark. */
  function Ended(lines: seq<string>, mark: string): string {
    if lines == [] then "" else lines[0] + mark + Ended(lines[1..], mark)
  }

  lemma EndedStart(lines: seq<string>, mark: string)
    requires AllOneLine(lines) && (mark == "\r" || mark == "\r\n")
    ensures Ended(lines, mark) != "" ==> Ended(lines, mark)[0] != '\n'
  {
    if lines != [] && lines[0] == "" {
      assert lines[0] + mark + Ended(lines[1..], mark) == mark + Ended(lines[1..], mark);
    }
  }

  lemma CutLine(line: string, mark: string, tail: string)
    requires OneLine(line) && (mark == "\r" || mark == "\r\n") && (tail != "" ==> tail[0] != '\n')
    ensures SseLines(line + mark + tail) == [line] + SseLines(tail)
  {
    var s := line + mark + tail;
    assert s[|line|] == '\r' && forall k :: 0 <= k < |line| ==> s[k] == line[k];
    assert LineEnd(s) == |line|;
    assert s[..|line|] == line;
    if mark == "\r\n" {
      assert s[|line| + 1] == '\n' && s[|line| + 2..] == tail;
    } else {
      assert s[|line| + 1..] == tail;
    }
  }

  /** A carriage return, or one before a newline, ends a line like a newline does. */
  lemma {:induction false} LineEndsAlike(lines: seq<string>, mark: string)
    requires AllOneLine(lines) && (mark == "\r" || mark == "\r\n")
    ensures SseLines(Ended(lines, mark)) == lines == SseLines(Unlines(lines))
  {
    SseLinesOfUnlines(lines);
    if lines != [] {
      LineEndsAlike(lines[1..], mark);
      EndedStart(lines[1..], mark);
      CutLine(lines[0], mark, Ended(lines[1..], mark));
    }
  }

  /** One byte order mark makes no difference. */
  lemma BomIgnored(s: string)
    requires StripBom(s) == s
    ensures Decode(['\U{ef}', '\U{bb}', '\U{bf}'] + s) == Decode(s)
  {
    assert (['\U{ef}', '\U{bb}', '\U{bf}'] + s)[3..] == s;
  }

  lemma {:induction false} FeedAppend(d: Decoder, a: seq<string>, b: seq<string>)
    ensures var first := FeedAll(d, a);
      var more := FeedAll(first.decoder, b);
      FeedAll(d, a + b) == Decoded(more.decoder, first.events + more.events)
    decreases |a|
  {
    if a == [] {
      assert a + b == b;
    } else {
      var first := Feed(d, a[0]);
      FeedAppend(first.decoder, a[1..], b);
      assert (a + b)[0] == a[0] && (a + b)[1..] == a[1..] + b;
      Glue(first.events, FeedAll(first.decoder, a[1..]).events, FeedAll(FeedAll(d, a).decoder, b).events);
    }
  }

  lemma FeedOne(d: Decoder, line: string)
    ensures FeedAll(d, [line]) == Feed(d, line)
  {
    var first := Feed(d, line);
    assert FeedAll(first.decoder, [line][1..]) == Decoded(first.decoder, []);
    assert first.events + [] == first.events;
  }

  /** Writing "name: value" is reading the field back, whatever the value. */
  lemma FieldRoundTrip(name: string, value: string)
    requires Lacks(name, ':')
    ensures FieldName(FieldLine(name, value)) == name && FieldValue(FieldLine(name, value)) == value
  {
    var line := FieldLine(name, value);
    assert line == name + [':'] + (" " + value);
    CutAt(name, ':', " " + value);
    assert line[|name| + 2..] == value;
  }

  lemma FeedDataLine(d: Decoder, value: string)
    ensures Feed(d, FieldLine("data", value)) == Decoded(d.(data := d.data + Terminated(value)), [])
  {
    FieldRoundTrip("data", value);
    assert FieldLine("data", value)[0] == 'd';
  }

  lemma FeedEventLine(d: Decoder, value: string)
    ensures Feed(d, FieldLine("event", value)) == Decoded(d.(kind := value), [])
  {
    FieldRoundTrip("event", value);
    assert FieldLine("event", value)[0] == 'e';
  }

  lemma FeedRetryLine(d: Decoder, ms: nat)
    ensures Feed(d, FieldLine("retry", Print(ms))) == Decoded(d.(retry := Some(ms)), [])
  {
    PrintRoundTrip(ms);
    FieldRoundTrip("retry", Print(ms));
    assert FieldLine("retry", Print(ms))[0] == 'r';
  }

  lemma {:induction false} FeedData(d: Decoder, parts: seq<string>)
    ensures FeedAll(d, DataFields(parts)) == Decoded(d.(data := d.data + Unlines(parts)), [])
    decreases |parts|
  {
    if parts == [] {
      assert d.data + Unlines(parts) == d.data;
    } else {
      var d1 := d.(data := d.data + Terminated(parts[0]));
      FeedDataLine(d, parts[0]);
      FeedData(d1, parts[1..]);
      Glue(d.data, Terminated(parts[0]), Unlines(parts[1..]));
    }
  }

  lemma JoinedParts(data: string)
    ensures Unlines(SplitLF(data)) == data + ['\n']
  {
    LinesDecompose(data);
    UnlinesAppend(Lines(data), [Rest(data)]);
    UnlinesOne(Rest(data));
    Glue(Unlines(Lines(data)), Rest(data), ['\n']);
  }

  predicate Idle(d: Decoder) {
    d.data == "" && d.kind == ""
  }

  lemma FeedName(d: Decoder, name: string)
    requires Idle(d)
    ensures FeedAll(d, if name != "" then [FieldLine("event", name)] else []) == Decoded(d.(kind := name), [])
  {
    if name != "" {
      FeedEventLine(d, name);
      FeedOne(d, FieldLine("event", name));
    }
  }

  lemma FeedEvent(d: Decoder, name: string, data: string)
    requires Idle(d)
    ensures FeedAll(d, FrameLines(EventFrame(name, data))) == Decoded(d, [Event(KindOf(name), data)])
  {
    var head := if name != "" then [FieldLine("event", name)] else [];
    var fields := DataFields(SplitLF(data));
    var d1 := d.(kind := name);
    var d2 := d1.(data := data + ['\n']);
    FeedName(d, name);
    FeedData(d1, SplitLF(data));
    JoinedParts(data);
    assert d1.data + (data + ['\n']) == data + ['\n'];
    FeedAppend(d, head, fields);
    FeedOne(d2, "");
    assert d2.data[..|d2.data| - 1] == data;
    FeedAppend(d, head + fields, [""]);
  }

  lemma FeedFrame(d: Decoder, f: Frame)
    requires Idle(d)
    ensures FeedAll(d, FrameLines(f)) == Decoded(d.(retry := RetryOf(d.retry, f)), EventOf(f))
  {
    match f {
      case EventFrame(name, data) => FeedEvent(d, name, data);
      case CommentFrame(text) =>
        assert (": " + text)[0] == ':';
        FeedTwo(d, ": " + text);
      case RetryFrame(ms) =>
        FeedRetryLine(d, ms);
        FeedTwo(d, FieldLine("retry", Print(ms)));
    }
  }

  lemma FeedTwo(d: Decoder, line: string)
    requires Idle(d) && line != "" && Feed(d, line).events == [] && Idle(Feed(d, line).decoder)
    ensures FeedAll(d, [line, ""]) == Feed(d, line)
  {
    FeedOne(d, line);
    FeedOne(Feed(d, line).decoder, "");
    FeedAppend(d, [line], [""]);
    assert [line] + [""] == [line, ""];
  }

  lemma {:induction false} FeedFrames(d: Decoder, frames: seq<Frame>)
    requires Idle(d)
    ensures FeedAll(d, StreamOf(frames)) == Decoded(d.(retry := RetryAfter(d.retry, frames)), EventsOf(frames))
    decreases |frames|
  {
    if frames != [] {
      var f, more := frames[0], frames[1..];
      FeedFrame(d, f);
      FeedFrames(d.(retry := RetryOf(d.retry, f)), more);
      FeedAppend(d, FrameLines(f), StreamOf(more));
    }
  }

  lemma FieldOneLine(name: string, value: string)
    requires OneLine(name) && OneLine(value)
    ensures OneLine(FieldLine(name, value))
  {}

  lemma {:induction false} DataFieldsOneLine(parts: seq<string>)
    requires AllOneLine(parts)
    ensures AllOneLine(DataFields(parts))
  {
    if parts != [] {
      FieldOneLine("data", parts[0]);
      DataFieldsOneLine(parts[1..]);
    }
  }

  lemma {:induction false} SplitOneLine(data: string)
    requires Lacks(data, '\r')
    ensures AllOneLine(SplitLF(data))
    decreases |data|
  {
    var i := IndexByte(data, '\n');
    if i < |data| {
      SplitOneLine(data[i + 1..]);
      assert SplitLF(data) == [data[..i]] + SplitLF(data[i + 1..]);
    }
  }

  lemma OneLineAppend(a: seq<string>, b: seq<string>)
    requires AllOneLine(a) && AllOneLine(b)
    ensures AllOneLine(a + b)
  {}

  lemma EventOneLine(name: string, data: string)
    requires OneLine(name) && Lacks(data, '\r')
    ensures AllOneLine(FrameLines(EventFrame(name, data)))
  {
    var head := if name != "" then [FieldLine("event", name)] else [];
    FieldOneLine("event", name);
    SplitOneLine(data);
    DataFieldsOneLine(SplitLF(data));
    OneLineAppend(head, DataFields(SplitLF(data)));
    OneLineAppend(head + DataFields(SplitLF(data)), [""]);
  }

  lemma FrameOneLine(f: Frame)
    requires Encodable(f)
    ensures AllOneLine(FrameLines(f))
  {
    match f {
      case EventFrame(name, data) => EventOneLine(name, data);
      case CommentFrame(text) => assert OneLine(": " + text);
      case RetryFrame(ms) =>
        PrintRoundTrip(ms);
        FieldOneLine("retry", Print(ms));
    }
  }

  predicate AllEncodable(frames: seq<Frame>) {
    forall k :: 0 <= k < |frames| ==> Encodable(frames[k])
  }

  lemma {:induction false} StreamOneLine(frames: seq<Frame>)
    requires AllEncodable(frames)
    ensures AllOneLine(StreamOf(frames))
  {
    if frames != [] {
      FrameOneLine(frames[0]);
      StreamOneLine(frames[1..]);
    }
  }

  /** No frame begins with a byte order mark. */
  lemma NoBom(frames: seq<Frame>)
    ensures StripBom(Encode(frames)) == Encode(frames)
  {
    if frames != [] {
      FirstChar(frames[0]);
      EncodedHead(FrameLines(frames[0]), StreamOf(frames[1..]));
    }
  }

  lemma EncodedHead(lines: seq<string>, more: seq<string>)
    requires lines != [] && lines[0] != ""
    ensures Unlines(lines + more) != "" && Unlines(lines + more)[0] == lines[0][0]
  {
    assert (lines + more)[0] == lines[0];
  }

  lemma FirstChar(f: Frame)
    ensures FrameLines(f) != [] && FrameLines(f)[0] != "" && FrameLines(f)[0][0] in {'e', 'd', 'r', ':'}
  {
    match f {
      case EventFrame(name, data) =>
        var parts := SplitLF(data);
        assert DataFields(parts)[0] == FieldLine("data", parts[0]);
      case CommentFrame(_) =>
      case RetryFrame(_) =>
    }
  }

  /** Decoding a stream gives back its events in order, whatever comments and retries stand between them. */
  lemma StreamRoundTrip(frames: seq<Frame>)
    requires AllEncodable(frames)
    ensures Decode(Encode(frames)).events == EventsOf(frames)
    ensures Decode(Encode(frames)).decoder.retry == RetryAfter(None, frames)
  {
    NoBom(frames);
    StreamOneLine(frames);
    SseLinesOfUnlines(StreamOf(frames));
    FeedFrames(START, frames);
  }

  // ---- exactly which data survives ---------------------------------------

  lemma {:induction false} SseLinesLackCR(s: string)
    ensures NoneHoldsCR(SseLines(s))
    decreases |s|
  {
    var i := LineEnd(s);
    if i < |s| {
      if s[i] == '\r' && i + 1 < |s| && s[i + 1] == '\n' {
        SseLinesLackCR(s[i + 2..]);
      } else {
        SseLinesLackCR(s[i + 1..]);
      }
    }
  }

  predicate NoneHoldsCR(lines: seq<string>) {
    forall k :: 0 <= k < |lines| ==> Lacks(lines[k], '\r')
  }

  predicate NoEventHoldsCR(events: seq<Event>) {
    forall k :: 0 <= k < |events| ==> Lacks(events[k].data, '\r')
  }

  lemma FeedKeepsCROut(d: Decoder, line: string)
    requires Lacks(d.data, '\r') && Lacks(line, '\r')
    ensures Lacks(Feed(d, line).decoder.data, '\r')
    ensures NoEventHoldsCR(Feed(d, line).events)
  {
    assert Lacks(FieldValue(line), '\r');
  }

  lemma {:induction false} FedDataLacksCR(d: Decoder, lines: seq<string>)
    requires Lacks(d.data, '\r') && NoneHoldsCR(lines)
    ensures NoEventHoldsCR(FeedAll(d, lines).events)
    decreases |lines|
  {
    if lines != [] {
      FeedKeepsCROut(d, lines[0]);
      FedDataLacksCR(Feed(d, lines[0]).decoder, lines[1..]);
    }
  }

  lemma DecodedLacksCR(s: string)
    ensures NoEventHoldsCR(Decode(s).events)
  {
    SseLinesLackCR(StripBom(s));
    FedDataLacksCR(START, SseLines(StripBom(s)));
  }

  /** Event data comes back unchanged if and only if it holds no carriage return. */
  lemma DataSurvivesIff(name: string, data: string)
    requires OneLine(name)
    ensures Decode(Encode([EventFrame(name, data)])).events == [Event(KindOf(name), data)] <==> Lacks(data, '\r')
  {
    var frames := [EventFrame(name, data)];
    if Lacks(data, '\r') {
      StreamRoundTrip(frames);
      assert EventsOf(frames) == EventOf(frames[0]) + EventsOf(frames[1..]);
    }
    var events := Decode(Encode(frames)).events;
    DecodedLacksCR(Encode(frames));
    if events == [Event(KindOf(name), data)] {
      assert events[0].data == data;
    }
  }
}
