/** Strings: searching, the split of a stream into newline-terminated lines, and the trimming of blanks. */
module Text {
  import opened Collections

  /** The first index of c in s, or |s| if there is none. */
  function IndexByte(s: string, c: char): (i: nat)
    ensures i <= |s|
    ensures forall k :: 0 <= k < i ==> s[k] != c
    ensures i < |s| ==> s[i] == c
  {
    if s == "" then 0
    else if s[0] == c then 0
    else 1 + IndexByte(s[1..], c)
  }

  predicate Lacks(s: string, c: char) {
    forall k :: 0 <= k < |s| ==> s[k] != c
  }

  /** Cutting s at the first c. */
  lemma CutAt(a: string, c: char, b: string)
    requires Lacks(a, c)
    ensures IndexByte(a + [c] + b, c) == |a|
    ensures (a + [c] + b)[..|a|] == a && (a + [c] + b)[|a| + 1..] == b
  {
    var s := a + [c] + b;
    assert s[|a|] == c;
    assert forall k :: 0 <= k < |a| ==> s[k] == a[k];
  }

  lemma NoCut(a: string, c: char)
    ensures Lacks(a, c) <==> IndexByte(a, c) == |a|
  {}

  predicate Clean(line: string) {
    Lacks(line, '\n')
  }

  /** The complete lines of s: what stands before each newline. */
  function Lines(s: string): seq<string>
    decreases |s|
  {
    var i := IndexByte(s, '\n');
    if i == |s| then [] else [s[..i]] + Lines(s[i + 1..])
  }

  /** What follows the last newline of s. */
  function Rest(s: string): string
    decreases |s|
  {
    var i := IndexByte(s, '\n');
    if i == |s| then s else Rest(s[i + 1..])
  }

  function Terminated(line: string): string {
    line + ['\n']
  }

  /** Each line followed by a newline. */
  function Unlines(lines: seq<string>): string {
    if lines == [] then [] else Terminated(lines[0]) + Unlines(lines[1..])
  }

  function Flatten(chunks: seq<string>): string {
    if chunks == [] then "" else chunks[0] + Flatten(chunks[1..])
  }

  predicate AllClean(lines: seq<string>) {
    forall k :: 0 <= k < |lines| ==> Clean(lines[k])
  }

  lemma UnlinesCons(line: string, lines: seq<string>)
    ensures Unlines([line] + lines) == Terminated(line) + Unlines(lines)
  {
    assert ([line] + lines)[1..] == lines;
  }

  lemma UnlinesOne(line: string)
    ensures Unlines([line]) == Terminated(line)
  {
    assert Unlines([line]) == Terminated(line) + Unlines([]);
  }

  lemma {:induction false} UnlinesAppend(a: seq<string>, b: seq<string>)
    ensures Unlines(a + b) == Unlines(a) + Unlines(b)
  {
    if a == [] {
      assert a + b == b;
    } else {
      var line, more := a[0], a[1..];
      assert a + b == [line] + (more + b);
      UnlinesCons(line, more + b);
      UnlinesAppend(more, b);
      Glue(Terminated(line), Unlines(more), Unlines(b));
    }
  }

  lemma LinesCons(line: string, tail: string)
    requires Clean(line)
    ensures Lines(Terminated(line) + tail) == [line] + Lines(tail)
    ensures Rest(Terminated(line) + tail) == Rest(tail)
  {
    CutAt(line, '\n', tail);
  }

  lemma CutApart(s: string, i: nat)
    requires i < |s| && s[i] == '\n'
    ensures s == Terminated(s[..i]) + s[i + 1..]
  {}

  lemma RegroupLines(line: string, more: seq<string>, rest: string)
    ensures Unlines([line] + more) + rest == Terminated(line) + (Unlines(more) + rest)
  {
    UnlinesCons(line, more);
    Glue(Terminated(line), Unlines(more), rest);
  }

  lemma {:induction false} LinesClean(s: string)
    ensures AllClean(Lines(s)) && Clean(Rest(s))
    decreases |s|
  {
    var i := IndexByte(s, '\n');
    if i < |s| {
      LinesClean(s[i + 1..]);
    }
  }

  /** Lines and Rest are a decomposition of the stream at its newlines ... */
  lemma {:induction false} LinesDecompose(s: string)
    ensures Unlines(Lines(s)) + Rest(s) == s
    decreases |s|
  {
    var i := IndexByte(s, '\n');
    if i < |s| {
      var tail := s[i + 1..];
      LinesDecompose(tail);
      RegroupLines(s[..i], Lines(tail), Rest(tail));
      CutApart(s, i);
    }
  }

  /** ... and the only one. */
  lemma {:induction false} LinesUnique(lines: seq<string>, rest: string)
    requires AllClean(lines) && Clean(rest)
    ensures Lines(Unlines(lines) + rest) == lines
    ensures Rest(Unlines(lines) + rest) == rest
  {
    if lines == [] {
      assert Unlines(lines) + rest == rest;
      NoCut(rest, '\n');
    } else {
      var line, more := lines[0], lines[1..];
      LinesUnique(more, rest);
      LinesCons(line, Unlines(more) + rest);
      assert [line] + more == lines;
      RegroupLines(line, more, rest);
    }
  }

  /** Splitting can stop anywhere and go on with the remainder. */
  lemma LinesAppend(a: string, b: string)
    ensures Lines(a + b) == Lines(a) + Lines(Rest(a) + b)
    ensures Rest(a + b) == Rest(Rest(a) + b)
  {
    var t := Rest(a) + b;
    LinesDecompose(a);
    LinesDecompose(t);
    LinesClean(a);
    LinesClean(t);
    Glue(Unlines(Lines(a)), Rest(a), b);
    Glue(Unlines(Lines(a)), Unlines(Lines(t)), Rest(t));
    UnlinesAppend(Lines(a), Lines(t));
    LinesUnique(Lines(a) + Lines(t), Rest(t));
  }

  // ---- blanks ------------------------------------------------------------

  /** unicode.IsSpace. */
  predicate IsSpace(c: char) {
    var n := c as int;
    || 9 <= n <= 13 || n == 32 || n == 0x85 || n == 0xA0 || n == 0x1680 || 0x2000 <= n <= 0x200A
    || n == 0x2028 || n == 0x2029 || n == 0x202F || n == 0x205F || n == 0x3000
  }

  function TrimLeft(s: string): string {
    if s != "" && IsSpace(s[0]) then TrimLeft(s[1..]) else s
  }

  function TrimRight(s: string): string {
    if s != "" && IsSpace(s[|s| - 1]) then TrimRight(s[..|s| - 1]) else s
  }

  function TrimSpace(s: string): string {
    TrimRight(TrimLeft(s))
  }

  lemma {:induction false} TrimLeftStart(s: string)
    ensures TrimLeft(s) == "" || !IsSpace(TrimLeft(s)[0])
  {
    if s != "" && IsSpace(s[0]) {
      TrimLeftStart(s[1..]);
    }
  }

  lemma {:induction false} TrimRightEnds(s: string)
    requires s == "" || !IsSpace(s[0])
    ensures var t := TrimRight(s); t == "" || (!IsSpace(t[0]) && !IsSpace(t[|t| - 1]))
  {
    if s != "" && IsSpace(s[|s| - 1]) {
      TrimRightEnds(s[..|s| - 1]);
    }
  }

  lemma TrimTwice(s: string)
    ensures TrimSpace(TrimSpace(s)) == TrimSpace(s)
  {
    TrimLeftStart(s);
    TrimRightEnds(TrimLeft(s));
  }

  predicate AllSpace(s: string) {
    forall k :: 0 <= k < |s| ==> IsSpace(s[k])
  }

  /** The blanks before the text and after it are gone, and nothing else. */
  ghost predicate IsTrimmed(s: string, t: string) {
    && (exists lo, hi :: 0 <= lo <= hi <= |s| && t == s[lo..hi] && AllSpace(s[..lo]) && AllSpace(s[hi..]))
    && (t != "" ==> !IsSpace(t[0]) && !IsSpace(t[|t| - 1]))
  }

  lemma {:induction false} TrimLeftAt(s: string) returns (lo: nat)
    ensures lo <= |s| && TrimLeft(s) == s[lo..] && AllSpace(s[..lo])
  {
    if s != "" && IsSpace(s[0]) {
      lo := TrimLeftAt(s[1..]);
      assert s[..lo + 1] == [s[0]] + s[1..][..lo] && s[1..][lo..] == s[lo + 1..];
      lo := lo + 1;
    } else {
      lo := 0;
    }
  }

  lemma {:induction false} TrimRightAt(s: string) returns (hi: nat)
    ensures hi <= |s| && TrimRight(s) == s[..hi] && AllSpace(s[hi..])
  {
    var n := |s|;
    if s != "" && IsSpace(s[n - 1]) {
      hi := TrimRightAt(s[..n - 1]);
      assert s[hi..] == s[..n - 1][hi..] + [s[n - 1]] && s[..n - 1][..hi] == s[..hi];
    } else {
      hi := n;
    }
  }

  lemma TrimSpaceTrims(s: string)
    ensures IsTrimmed(s, TrimSpace(s))
  {
    var lo := TrimLeftAt(s);
    var hi := TrimRightAt(s[lo..]);
    TrimLeftStart(s);
    TrimRightEnds(TrimLeft(s));
    assert s[lo..][..hi] == s[lo..lo + hi] && s[lo..][hi..] == s[lo + hi..];
  }

  /** Of the ASCII characters, the blank and the five control characters from the tab to the carriage return. */
  lemma AsciiSpaces(c: char)
    requires c as int < 0x80
    ensures IsSpace(c) <==> c == ' ' || '\t' <= c <= '\r'
  {}
}
