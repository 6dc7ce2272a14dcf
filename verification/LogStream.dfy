/** From the worker's log calls to the client's rows: the event of each log line, and the whole chain's round trip. */
module LogStream {
  import opened Collections
  import opened Text
  import opened LogWriter
  import opened LogFormat
  import opened ServerSentEvents

  /** A keyed line replaces the row of its key; a plain line is appended. */
  function LineFrame(l: ReadLine): Frame {
    if l.key != "" then EventFrame("line-replace", l.key + "\t" + l.msg) else EventFrame("line", l.msg)
  }

  function LineFrames(lines: seq<ReadLine>): seq<Frame> {
    if lines == [] then [] else [LineFrame(lines[0])] + LineFrames(lines[1..])
  }

  method WriteLogLine(sw: SseWriter, l: ReadLine)
    modifies sw
    ensures sw.out == old(sw.out) + Unlines(FrameLines(LineFrame(l)))
  {
    if l.key != "" {
      sw.SseEvent("line-replace", l.key + "\t" + l.msg);
      return;
    }
    sw.SseEvent("line", l.msg);
  }

  lemma EncodeCons(f: Frame, frames: seq<Frame>)
    ensures Encode([f] + frames) == Unlines(FrameLines(f)) + Encode(frames)
  {
    assert ([f] + frames)[1..] == frames;
    UnlinesAppend(FrameLines(f), StreamOf(frames));
  }

  method EmitLines(sw: SseWriter, lines: seq<ReadLine>)
    modifies sw
    ensures sw.out == old(sw.out) + Encode(LineFrames(lines))
  {
    for i := 0 to |lines|
      invariant sw.out + Encode(LineFrames(lines[i..])) == old(sw.out) + Encode(LineFrames(lines))
    {
      ghost var before := sw.out;
      WriteLogLine(sw, lines[i]);
      EncodeCons(LineFrame(lines[i]), LineFrames(lines[i + 1..]));
      Glue(before, Unlines(FrameLines(LineFrame(lines[i]))), Encode(LineFrames(lines[i + 1..])));
    }
    assert lines[|lines|..] == [];
    assert sw.out + Encode([]) == sw.out;
  }

  // ---- the client --------------------------------------------------------

  /** A line-replace event is split at its first tab; without one it counts as a plain line. */
  function FromEvent(e: Event): seq<Entry> {
    if e.kind == "line" then [Plain(e.data)]
    else if e.kind == "line-replace" then
      var tab := IndexByte(e.data, '\t');
      if tab == |e.data| then [Plain(e.data)] else [Keyed(e.data[..tab], e.data[tab + 1..])]
    else []
  }

  function Received(events: seq<Event>): seq<Entry> {
    if events == [] then [] else FromEvent(events[0]) + Received(events[1..])
  }

  /** Keepalives, retry hints and the end marker. */
  predicate Filler(f: Frame) {
    match f
    case EventFrame(name, data) => name == "end" && OneLine(data)
    case CommentFrame(text) => OneLine(text)
    case RetryFrame(_) => true
  }

  /** The frames are those of the given log lines, with fillers anywhere between them. */
  predicate Carries(frames: seq<Frame>, lines: seq<ReadLine>)
    decreases |frames|
  {
    if frames == [] then lines == []
    else if Filler(frames[0]) then Carries(frames[1..], lines)
    else lines != [] && frames[0] == LineFrame(lines[0]) && Carries(frames[1..], lines[1..])
  }

  /** One poll of the whole file; a line the scanner refuses fails the poll. */
  function Polled(content: string): seq<ReadLine> {
    var p := ParseLog(content);
    if p.ok then p.lines else []
  }

  // ---- which entries arrive ----------------------------------------------

  predicate EntryLacks(e: Entry, c: char) {
    match e
    case Plain(msg) => Lacks(msg, c)
    case Keyed(key, msg) => Lacks(key, c) && Lacks(msg, c)
  }

  predicate EntriesLack(entries: seq<Entry>, c: char) {
    forall k :: 0 <= k < |entries| ==> EntryLacks(entries[k], c)
  }

  /** One line, not too long for the scanner, and not mistaken for an entry of the other kind. */
  predicate Deliverable(e: Entry) {
    && EntryLacks(e, '\r') && EntryLacks(e, '\n')
    && match e
       case Plain(msg) => msg != "" && |msg| < 1_048_576 && (msg[0] == '|' ==> Lacks(msg, '\t'))
       case Keyed(key, msg) => key != "" && |key| + |msg| + 2 < 1_048_576 && Lacks(key, '\t')
  }

  lemma DeliverableIff(e: Entry)
    ensures Deliverable(e) <==>
      && EntryLacks(e, '\r') && EntryLacks(e, '\n') && |Render(e)| < MAX_LINE
      && match e
         case Plain(msg) => msg != "" && !LooksKeyed(msg)
         case Keyed(key, _) => key != "" && Lacks(key, '\t')
  {
    if e.Plain? && e.msg != "" && e.msg[0] == '|' {
      assert Lacks(e.msg, '\t') <==> Lacks(e.msg[1..], '\t') by {
        if Lacks(e.msg[1..], '\t') {
          forall k | 0 <= k < |e.msg| ensures e.msg[k] != '\t' {
            if k > 0 { assert e.msg[1..][k - 1] == e.msg[k]; }
          }
        }
      }
    }
  }

  predicate AllDeliverable(entries: seq<Entry>) {
    forall k :: 0 <= k < |entries| ==> Deliverable(entries[k])
  }

  function FromReadLine(l: ReadLine): Entry {
    if l.key == "" then Plain(l.msg) else Keyed(l.key, l.msg)
  }

  function FromReadLines(lines: seq<ReadLine>): seq<Entry> {
    if lines == [] then [] else [FromReadLine(lines[0])] + FromReadLines(lines[1..])
  }

  /** What the parser produces from text without carriage returns. */
  predicate Tidy(l: ReadLine) {
    Lacks(l.key, '\t') && EntryLacks(FromReadLine(l), '\r') && EntryLacks(FromReadLine(l), '\n')
  }

  predicate AllTidy(lines: seq<ReadLine>) {
    forall k :: 0 <= k < |lines| ==> Tidy(lines[k])
  }

  lemma RenderLacks(e: Entry, c: char)
    requires c == '\r' || c == '\n'
    ensures Lacks(Render(e), c) <==> EntryLacks(e, c)
  {
    if e.Keyed? {
      var s := KeyedLine(e.key, e.msg);
      assert s == "|" + e.key + "\t" + e.msg;
      assert forall k :: 0 <= k < |e.key| ==> s[k + 1] == e.key[k];
      assert forall k :: 0 <= k < |e.msg| ==> s[k + 2 + |e.key|] == e.msg[k];
    }
  }

  lemma PartTidy(key: string, msg: string)
    requires Lacks(key, '\t') && OneLine(key) && OneLine(msg)
    ensures Tidy(ReadLine(key, msg))
  {}

  lemma ParsingTidy(raw: string)
    requires OneLine(raw)
    ensures AllTidy(Parsing(raw))
  {
    var text := DropCR(raw);
    assert OneLine(text);
    PartTidy("", text);
    if text != "" && text[0] == KIND_PREFIX {
      var rest := text[1..];
      var tab := IndexByte(rest, '\t');
      if tab < |rest| {
        PartTidy(rest[..tab], rest[tab + 1..]);
      }
    }
  }

  lemma {:induction false} ParseTidy(raw: seq<string>)
    requires AllOneLine(raw)
    ensures AllTidy(ParseLines(raw).lines)
  {
    if raw != [] && |raw[0]| < MAX_LINE {
      ParsingTidy(raw[0]);
      ParseTidy(raw[1..]);
    }
  }

  lemma {:induction false} LinesLackCR(s: string)
    requires Lacks(s, '\r')
    ensures AllOneLine(Lines(s)) && OneLine(Rest(s))
    decreases |s|
  {
    var i := IndexByte(s, '\n');
    if i < |s| {
      LinesLackCR(s[i + 1..]);
    }
  }

  lemma {:induction false} FileLacksCR(entries: seq<Entry>)
    requires EntriesLack(entries, '\r')
    ensures Lacks(FileOf(entries), '\r')
  {
    if entries != [] {
      FileLacksCR(entries[1..]);
      RenderLacks(entries[0], '\r');
      UnlinesCons(Render(entries[0]), RenderAll(entries[1..]));
    }
  }

  lemma PolledTidy(entries: seq<Entry>)
    requires EntriesLack(entries, '\r')
    ensures AllTidy(Polled(FileOf(entries)))
  {
    FileLacksCR(entries);
    LinesLackCR(FileOf(entries));
    ParseTidy(StreamLines(FileOf(entries)));
  }

  // ---- what the client reads off the wire --------------------------------

  lemma FrameDelivers(l: ReadLine)
    requires Tidy(l)
    ensures Encodable(LineFrame(l)) && !Filler(LineFrame(l))
    ensures EventOf(LineFrame(l)) == [Event(LineFrame(l).name, LineFrame(l).data)]
    ensures FromEvent(Event(LineFrame(l).name, LineFrame(l).data)) == [FromReadLine(l)]
  {
    if l.key != "" {
      assert l.key + "\t" + l.msg == l.key + ['\t'] + l.msg;
      CutAt(l.key, '\t', l.msg);
    }
  }

  lemma ReceivedCons(e: Event, more: seq<Event>)
    ensures Received([e] + more) == FromEvent(e) + Received(more)
  {
    assert ([e] + more)[1..] == more;
  }

  lemma FillerAddsNothing(f: Frame, more: seq<Event>)
    requires Filler(f)
    ensures Encodable(f) && Received(EventOf(f) + more) == Received(more)
  {
    if f.EventFrame? {
      ReceivedCons(Event("end", f.data), more);
    } else {
      assert EventOf(f) + more == more;
    }
  }

  lemma {:induction false} FramesDeliver(frames: seq<Frame>, lines: seq<ReadLine>)
    requires Carries(frames, lines) && AllTidy(lines)
    ensures AllEncodable(frames)
    ensures Received(EventsOf(frames)) == FromReadLines(lines)
    decreases |frames|
  {
    if frames != [] {
      var f := frames[0];
      if Filler(f) {
        FramesDeliver(frames[1..], lines);
        FillerAddsNothing(f, EventsOf(frames[1..]));
      } else {
        FramesDeliver(frames[1..], lines[1..]);
        FrameDelivers(lines[0]);
        ReceivedCons(Event(f.name, f.data), EventsOf(frames[1..]));
      }
    }
  }

  lemma EventsCons(f: Frame, frames: seq<Frame>)
    ensures EventsOf([f] + frames) == EventOf(f) + EventsOf(frames)
  {
    assert ([f] + frames)[1..] == frames;
  }

  /** The events of log lines: a keyed line replaces, with its key before the first tab. */
  lemma {:induction false} LineEvents(lines: seq<ReadLine>)
    requires AllTidy(lines)
    ensures AllEncodable(LineFrames(lines))
    ensures EventsOf(LineFrames(lines)) == seq(|lines|, i requires 0 <= i < |lines| =>
      if lines[i].key == "" then Event("line", lines[i].msg)
      else Event("line-replace", lines[i].key + "\t" + lines[i].msg))
  {
    if lines != [] {
      LineEvents(lines[1..]);
      FrameDelivers(lines[0]);
      EventsCons(LineFrame(lines[0]), LineFrames(lines[1..]));
    }
  }

  /** What a conforming decoder makes of the log lines that are sent. */
  lemma LinesOnTheWire(lines: seq<ReadLine>)
    requires AllTidy(lines)
    ensures Decode(Encode(LineFrames(lines))).events == seq(|lines|, i requires 0 <= i < |lines| =>
      if lines[i].key == "" then Event("line", lines[i].msg)
      else Event("line-replace", lines[i].key + "\t" + lines[i].msg))
  {
    LineEvents(lines);
    StreamRoundTrip(LineFrames(lines));
  }

  lemma StreamDelivers(frames: seq<Frame>, lines: seq<ReadLine>)
    requires Carries(frames, lines) && AllTidy(lines)
    ensures Received(Decode(Encode(frames)).events) == FromReadLines(lines)
  {
    FramesDeliver(frames, lines);
    StreamRoundTrip(frames);
  }

  // ---- exactly the deliverable entries come back -------------------------

  lemma {:induction false} ReceivedLacksCR(events: seq<Event>)
    requires NoEventHoldsCR(events)
    ensures EntriesLack(Received(events), '\r')
  {
    if events != [] {
      ReceivedLacksCR(events[1..]);
      assert EntriesLack(FromEvent(events[0]), '\r');
    }
  }

  lemma {:induction false} TidyEntries(lines: seq<ReadLine>)
    requires AllTidy(lines)
    ensures EntriesLack(FromReadLines(lines), '\n')
    ensures |FromReadLines(lines)| == |lines|
  {
    if lines != [] {
      TidyEntries(lines[1..]);
    }
  }

  lemma {:induction false} AtMostOneEach(raw: seq<string>)
    ensures |ParseLines(raw).lines| <= |raw|
  {
    if raw != [] {
      AtMostOneEach(raw[1..]);
    }
  }

  lemma {:induction false} FromReadLinesLength(lines: seq<ReadLine>)
    ensures |FromReadLines(lines)| == |lines|
  {
    if lines != [] {
      FromReadLinesLength(lines[1..]);
    }
  }

  lemma ParsedBackIsDeliverable(e: Entry)
    requires EntryLacks(e, '\r') && EntryLacks(e, '\n') && |Render(e)| < MAX_LINE
    requires |Parsing(Render(e))| == 1 && FromReadLine(Parsing(Render(e))[0]) == e
    ensures Deliverable(e)
  {
    DeliverableIff(e);
    RenderLacks(e, '\r');
    match e {
      case Plain(msg) => NoCut(msg[1..], '\t');
      case Keyed(key, msg) =>
        var text := KeyedLine(key, msg);
        assert text[1..] == key + ['\t'] + msg;
    }
  }

  lemma {:induction false} ReadBackMeansDeliverable(entries: seq<Entry>)
    requires EntriesLack(entries, '\r') && EntriesLack(entries, '\n')
    requires ParseLines(RenderAll(entries)).ok
    requires FromReadLines(ParseLines(RenderAll(entries)).lines) == entries
    ensures AllDeliverable(entries)
  {
    if entries != [] {
      var e, more := entries[0], entries[1..];
      var lines := ParseLines(RenderAll(more)).lines;
      ParseLinesCons(Render(e), RenderAll(more));
      AtMostOneEach(RenderAll(more));
      RenderAllLength(more);
      FromReadLinesLength(Parsing(Render(e)) + lines);
      assert |Parsing(Render(e))| == 1;
      assert (Parsing(Render(e)) + lines)[1..] == lines;
      ParsedBackIsDeliverable(e);
      ReadBackMeansDeliverable(more);
    }
  }

  lemma {:induction false} RenderAllLength(entries: seq<Entry>)
    ensures |RenderAll(entries)| == |entries|
  {
    if entries != [] {
      RenderAllLength(entries[1..]);
    }
  }

  lemma {:induction false} RenderAllClean(entries: seq<Entry>)
    requires EntriesLack(entries, '\n')
    ensures AllClean(RenderAll(entries))
  {
    if entries != [] {
      RenderAllClean(entries[1..]);
      RenderLacks(entries[0], '\n');
    }
  }

  lemma DeliverableSurvives(e: Entry)
    requires Deliverable(e)
    ensures Survives(e)
  {
    DeliverableIff(e);
    RenderLacks(e, '\r');
    RenderLacks(e, '\n');
  }

  lemma {:induction false} ToAndFrom(entries: seq<Entry>)
    requires AllDeliverable(entries)
    ensures FromReadLines(ToReadLines(entries)) == entries
  {
    if entries != [] {
      ToAndFrom(entries[1..]);
    }
  }

  /** Without carriage returns: the file gives every entry back exactly when all are deliverable. */
  lemma FileReadsBackIff(entries: seq<Entry>)
    requires EntriesLack(entries, '\r')
    ensures FromReadLines(Polled(FileOf(entries))) == entries <==> AllDeliverable(entries)
  {
    if AllDeliverable(entries) {
      forall k | 0 <= k < |entries| ensures Survives(entries[k]) { DeliverableSurvives(entries[k]); }
      FileRoundTrip(entries);
      ToAndFrom(entries);
    } else if FromReadLines(Polled(FileOf(entries))) == entries {
      PolledTidy(entries);
      TidyEntries(Polled(FileOf(entries)));
      RenderAllClean(entries);
      WholeLines(RenderAll(entries));
      ReadBackMeansDeliverable(entries);
    }
  }

  /**
   End to end: log entries are written, the file is parsed, each line is sent as an event, the client decodes the
   stream and splits keyed events at the first tab. With retry hints, keepalives and end markers anywhere between
   the events, it gets back exactly the entries if and only if every one of them is deliverable.
   */
  lemma EndToEnd(entries: seq<Entry>, frames: seq<Frame>)
    requires Carries(frames, Polled(FileOf(entries)))
    ensures Received(Decode(Encode(frames)).events) == entries <==> AllDeliverable(entries)
  {
    if EntriesLack(entries, '\r') {
      PolledTidy(entries);
      StreamDelivers(frames, Polled(FileOf(entries)));
      FileReadsBackIff(entries);
    } else {
      DecodedLacksCR(Encode(frames));
      ReceivedLacksCR(Decode(Encode(frames)).events);
    }
  }
}
