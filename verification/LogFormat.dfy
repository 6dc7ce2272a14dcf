/** The deploy log's reading side: the line scanner and the parser of plain and keyed lines. */
module LogFormat {
  import opened Wrappers
  import opened Collections
  import opened Text
  import opened LogWriter

  /** The scanner refuses a line that does not fit its buffer. */
  const MAX_LINE := 1024 * 1024

  /** One parsed line; an empty key marks a plain line. */
  datatype ReadLine = ReadLine(key: string, msg: string)

  datatype Parsed = Parsed(lines: seq<ReadLine>, ok: bool)

  /** The scanner's lines end in "\n" or "\r\n". */
  function DropCR(line: string): string {
    if line != "" && line[|line| - 1] == '\r' then line[..|line| - 1] else line
  }

  function ParseText(text: string): Option<ReadLine> {
    if text == "" then None
    else if text[0] == KIND_PREFIX then
      var rest := text[1..];
      var tab := IndexByte(rest, '\t');
      if tab == |rest| then Some(ReadLine("", text)) else Some(ReadLine(rest[..tab], rest[tab + 1..]))
    else Some(ReadLine("", text))
  }

  function Parsing(raw: string): seq<ReadLine> {
    match ParseText(DropCR(raw))
    case Some(line) => [line]
    case None => []
  }

  /** A carriage return before the newline is not part of the line. */
  lemma LineEndings(line: string)
    requires line == "" || line[|line| - 1] != '\r'
    ensures Parsing(line + "\r") == Parsing(line)
  {
    assert (line + "\r")[..|line|] == line;
  }

  function ParseLines(raw: seq<string>): Parsed {
    if raw == [] then Parsed([], true)
    else if |raw[0]| >= MAX_LINE then Parsed([], false)
    else
      var more := ParseLines(raw[1..]);
      Parsed(Parsing(raw[0]) + more.lines, more.ok)
  }

  function ParseLog(content: string): Parsed {
    ParseLines(StreamLines(content))
  }

  function FirstLine(s: string): string {
    s[..IndexByte(s, '\n')]
  }

  function AfterLine(s: string): string {
    var i := IndexByte(s, '\n');
    if i < |s| then s[i + 1..] else ""
  }

  lemma StreamLinesStep(s: string)
    requires s != ""
    ensures StreamLines(s) == [FirstLine(s)] + StreamLines(AfterLine(s))
  {
    var i := IndexByte(s, '\n');
    if i < |s| {
      assert Lines(s) == [FirstLine(s)] + Lines(AfterLine(s));
      Glue([FirstLine(s)], Lines(AfterLine(s)), Remainder(Rest(s)));
    } else {
      assert FirstLine(s) == s && Lines(s) == [];
      assert StreamLines("") == [];
    }
  }

  lemma ParseLinesCons(line: string, more: seq<string>)
    ensures ParseLines([line] + more) ==
            if |line| < MAX_LINE then Parsed(Parsing(line) + ParseLines(more).lines, ParseLines(more).ok)
            else Parsed([], false)
  {
    assert ([line] + more)[1..] == more;
  }

  lemma ParseStep(s: string)
    requires s != ""
    ensures ParseLog(s) ==
            if |FirstLine(s)| < MAX_LINE
            then Parsed(Parsing(FirstLine(s)) + ParseLog(AfterLine(s)).lines, ParseLog(AfterLine(s)).ok)
            else Parsed([], false)
  {
    StreamLinesStep(s);
    ParseLinesCons(FirstLine(s), StreamLines(AfterLine(s)));
  }

  /** The scan has parsed out and has the remaining bytes before it. */
  ghost predicate ScannedTo(content: string, out: seq<ReadLine>, remaining: string) {
    ParseLog(content) == Parsed(out + ParseLog(remaining).lines, ParseLog(remaining).ok)
  }

  lemma ScanStep(content: string, out: seq<ReadLine>, remaining: string)
    requires ScannedTo(content, out, remaining) && remaining != ""
    ensures if |FirstLine(remaining)| < MAX_LINE
            then ScannedTo(content, out + Parsing(FirstLine(remaining)), AfterLine(remaining))
            else ParseLog(content) == Parsed(out, false)
  {
    ParseStep(remaining);
    Glue(out, Parsing(FirstLine(remaining)), ParseLog(AfterLine(remaining)).lines);
  }

  lemma ScanEnds(content: string, out: seq<ReadLine>)
    requires ScannedTo(content, out, "")
    ensures ParseLog(content) == Parsed(out, true)
  {
    assert StreamLines("") == [];
  }

  method ScanLine(before: seq<ReadLine>, raw: string) returns (out: seq<ReadLine>)
    ensures out == before + Parsing(raw)
  {
    out := before;
    var text := DropCR(raw);
    if text == "" {
      return;
    }
    if text[0] == KIND_PREFIX {
      var rest := text[1..];
      var tab := IndexByte(rest, '\t');
      if tab == |rest| {
        // A prefix without a tab is malformed: keep the raw text as a plain line.
        out := out + [ReadLine("", text)];
        return;
      }
      out := out + [ReadLine(rest[..tab], rest[tab + 1..])];
      return;
    }
    out := out + [ReadLine("", text)];
  }

  method ParseDeployLog(content: string) returns (out: seq<ReadLine>, ok: bool)
    ensures Parsed(out, ok) == ParseLog(content)
  {
    out, ok := [], true;
    var remaining := content;
    while remaining != ""
      invariant ok && ScannedTo(content, out, remaining)
      decreases |remaining|
    {
      ScanStep(content, out, remaining);
      var i := IndexByte(remaining, '\n');
      var raw := remaining[..i];
      remaining := if i < |remaining| then remaining[i + 1..] else "";
      if i >= MAX_LINE {
        return out, false;
      }
      out := ScanLine(out, raw);
    }
    ScanEnds(content, out);
  }

  // ---- entries, their file and the parse back ----------------------------

  /** What the worker logs: a line, or a keyed line that replaces the earlier ones of its key. */
  datatype Entry = Plain(msg: string) | Keyed(key: string, msg: string)

  function Render(e: Entry): string {
    match e
    case Plain(msg) => msg
    case Keyed(key, msg) => KeyedLine(key, msg)
  }

  function RenderAll(entries: seq<Entry>): seq<string> {
    if entries == [] then [] else [Render(entries[0])] + RenderAll(entries[1..])
  }

  function ToReadLine(e: Entry): ReadLine {
    match e
    case Plain(msg) => ReadLine("", msg)
    case Keyed(key, msg) => ReadLine(key, msg)
  }

  function ToReadLines(entries: seq<Entry>): seq<ReadLine> {
    if entries == [] then [] else [ToReadLine(entries[0])] + ToReadLines(entries[1..])
  }

  function FileOf(entries: seq<Entry>): string {
    Unlines(RenderAll(entries))
  }

  predicate LooksKeyed(msg: string) {
    msg != "" && msg[0] == KIND_PREFIX && !Lacks(msg[1..], '\t')
  }

  predicate EndsInCR(line: string) {
    line != "" && line[|line| - 1] == '\r'
  }

  /** The entries that come back from the file as they went in. */
  predicate Survives(e: Entry) {
    && Clean(Render(e)) && !EndsInCR(Render(e)) && |Render(e)| < MAX_LINE
    && match e
       case Plain(msg) => msg != "" && !LooksKeyed(msg)
       case Keyed(key, _) => key != "" && Lacks(key, '\t')
  }

  lemma SurvivorParses(e: Entry)
    requires Survives(e)
    ensures Parsing(Render(e)) == [ToReadLine(e)]
  {
    match e {
      case Plain(msg) => NoCut(msg[1..], '\t');
      case Keyed(key, msg) =>
        var text := KeyedLine(key, msg);
        assert text[1..] == key + ['\t'] + msg;
        CutAt(key, '\t', msg);
    }
  }

  predicate AllSurvive(entries: seq<Entry>) {
    forall k :: 0 <= k < |entries| ==> Survives(entries[k])
  }

  lemma {:induction false} SurvivorsParse(entries: seq<Entry>)
    requires AllSurvive(entries)
    ensures ParseLines(RenderAll(entries)) == Parsed(ToReadLines(entries), true)
    ensures AllClean(RenderAll(entries))
  {
    if entries != [] {
      SurvivorsParse(entries[1..]);
      SurvivorParses(entries[0]);
      ParseLinesCons(Render(entries[0]), RenderAll(entries[1..]));
    }
  }

  /** Writing entries and parsing the file gives them back, in order. */
  lemma FileRoundTrip(entries: seq<Entry>)
    requires AllSurvive(entries)
    ensures ParseLog(FileOf(entries)) == Parsed(ToReadLines(entries), true)
  {
    SurvivorsParse(entries);
    WholeLines(RenderAll(entries));
  }

  lemma WholeLines(lines: seq<string>)
    requires AllClean(lines)
    ensures StreamLines(Unlines(lines)) == lines
  {
    LinesUnique(lines, "");
    assert Unlines(lines) + "" == Unlines(lines);
    assert lines + [] == lines;
  }
}
