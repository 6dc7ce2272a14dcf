/** The deploy log's writing side: the append-only file and the splitter of the pull progress stream. */
module LogWriter {
  import opened Collections
  import opened Text

  const KIND_PREFIX := '|'

  function KeyedLine(key: string, msg: string): string {
    [KIND_PREFIX] + key + "\t" + msg
  }

  /** A deploy's log file with its one writer; the buffer is flushed on every append. */
  class LogFile {
    var content: string
    var open: bool

    constructor ()
      ensures content == "" && open
    {
      content, open := "", true;
    }

    /** Appending to a closed file fails and writes nothing. */
    method AppendLine(msg: string) returns (ok: bool)
      modifies this
      ensures ok == old(open) && open == old(open)
      ensures content == if ok then old(content) + Unlines([msg]) else old(content)
    {
      ok := open;
      if open {
        content := content + msg + "\n";
        UnlinesOne(msg);
      }
    }

    method AppendKeyed(key: string, msg: string) returns (ok: bool)
      modifies this
      ensures ok == old(open) && open == old(open)
      ensures content == if ok then old(content) + Unlines([KeyedLine(key, msg)]) else old(content)
    {
      ok := open;
      if open {
        content := content + [KIND_PREFIX] + key + "\t" + msg + "\n";
        UnlinesOne(KeyedLine(key, msg));
        assert old(content) + [KIND_PREFIX] + key + "\t" + msg + "\n" == old(content) + Terminated(KeyedLine(key, msg));
      }
    }

    method Close()
      modifies this
      ensures !open && content == old(content)
    {
      open := false;
    }
  }

  /** Splits the bytes written to it at newlines and appends each complete line to the file. */
  class LineWriter {
    const file: LogFile
    var buf: string

    constructor (file: LogFile)
      ensures this.file == file && buf == ""
    {
      this.file := file;
      buf := "";
    }

    method Write(p: string) returns (n: nat)
      modifies this, file
      ensures n == |p|
      ensures buf == Rest(old(buf) + p)
      ensures file.open == old(file.open)
      ensures file.content == if file.open then old(file.content) + Unlines(Lines(old(buf) + p)) else old(file.content)
    {
      buf := buf + p;
      ghost var all := buf;
      ghost var done: seq<string> := [];
      while true
        invariant Lines(all) == done + Lines(buf) && Rest(all) == Rest(buf)
        invariant file.open == old(file.open)
        invariant file.content == if file.open then old(file.content) + Unlines(done) else old(file.content)
        decreases |buf|
      {
        var idx := IndexByte(buf, '\n');
        if idx == |buf| {
          assert Lines(all) == done;
          break;
        }
        var line := buf[..idx];
        buf := buf[idx + 1..];
        var ok := file.AppendLine(line);
        OneMoreLine(old(file.content), done, line, Lines(buf));
        done := done + [line];
      }
      n := |p|;
    }

    method FlushPartial()
      modifies this, file
      ensures buf == ""
      ensures file.open == old(file.open)
      ensures file.content == if file.open then old(file.content) + Unlines(Remainder(old(buf))) else old(file.content)
    {
      if buf == "" {
        assert file.content + Unlines([]) == file.content;
        return;
      }
      var ok := file.AppendLine(buf);
      buf := "";
    }
  }

  lemma OneMoreLine(content: string, done: seq<string>, line: string, todo: seq<string>)
    ensures done + ([line] + todo) == done + [line] + todo
    ensures content + Unlines(done) + Unlines([line]) == content + Unlines(done + [line])
  {
    Glue(done, [line], todo);
    UnlinesAppend(done, [line]);
    Glue(content, Unlines(done), Unlines([line]));
  }

  // ---- chunk invariance --------------------------------------------------

  /** What a sequence of Write calls emits, call by call, from a given buffer. */
  function Emitted(buf: string, chunks: seq<string>): seq<string>
    decreases |chunks|
  {
    if chunks == [] then []
    else Lines(buf + chunks[0]) + Emitted(Rest(buf + chunks[0]), chunks[1..])
  }

  function Buffered(buf: string, chunks: seq<string>): string
    decreases |chunks|
  {
    if chunks == [] then buf else Buffered(Rest(buf + chunks[0]), chunks[1..])
  }

  /** The lines of a whole stream: the split at newlines, and a remainder unless it is empty. */
  function StreamLines(s: string): seq<string> {
    Lines(s) + Remainder(Rest(s))
  }

  function Remainder(rest: string): seq<string> {
    if rest == "" then [] else [rest]
  }

  lemma {:induction false} WritesSplitTheStream(buf: string, chunks: seq<string>)
    requires Clean(buf)
    ensures Emitted(buf, chunks) == Lines(buf + Flatten(chunks))
    ensures Buffered(buf, chunks) == Rest(buf + Flatten(chunks))
    decreases |chunks|
  {
    if chunks == [] {
      assert buf + Flatten(chunks) == buf;
      NoCut(buf, '\n');
    } else {
      var head, tail := buf + chunks[0], Flatten(chunks[1..]);
      LinesClean(head);
      WritesSplitTheStream(Rest(head), chunks[1..]);
      LinesAppend(head, tail);
      Glue(buf, chunks[0], tail);
    }
  }

  /** Everything a sequence of Write calls and the final flush emit. */
  function EmittedInAll(chunks: seq<string>): seq<string> {
    Emitted("", chunks) + Remainder(Buffered("", chunks))
  }

  /** However a stream is cut into Write calls, the writes and the final flush emit exactly its lines. */
  lemma ChunkInvariance(a: seq<string>, b: seq<string>)
    ensures EmittedInAll(a) == StreamLines(Flatten(a))
    ensures Flatten(a) == Flatten(b) ==> EmittedInAll(a) == EmittedInAll(b)
  {
    WritesSplitTheStream("", a);
    WritesSplitTheStream("", b);
    assert "" + Flatten(a) == Flatten(a) && "" + Flatten(b) == Flatten(b);
  }
}
