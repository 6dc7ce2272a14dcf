/**
 The tail of a growing deploy log: the worker appends whole lines while the stream's poll stats the file, reads it to
 its end, moves the cursor to the size it had seen before, and then asks whether the deploy is still in flight.
 */
module LogTail {
  import opened Collections
  import opened Text
  import opened LogFormat

  // ---- the cursor --------------------------------------------------------

  function ReadFrom(content: string, offset: nat): string {
    if offset <= |content| then content[offset..] else ""
  }

  datatype PollResult = PollResult(lines: seq<ReadLine>, ok: bool, offset: nat)

  /** A poll at the offset, with the size of the Stat and the content when the read meets the end of file. */
  function Poll(offset: nat, size: nat, content: string): PollResult {
    if size == offset then PollResult([], true, offset)
    else
      var p := ParseLog(ReadFrom(content, offset));
      if p.ok then PollResult(p.lines, true, size) else PollResult([], false, offset)
  }

  class TailCursor {
    var offset: nat

    constructor ()
      ensures offset == 0
    {
      offset := 0;
    }

    method Next(size: nat, content: string) returns (lines: seq<ReadLine>, ok: bool)
      modifies this
      ensures PollResult(lines, ok, offset) == Poll(old(offset), size, content)
    {
      if size == offset {
        return [], true;
      }
      lines, ok := ParseDeployLog(ReadFrom(content, offset));
      assert Parsed(lines, ok) == ParseLog(ReadFrom(content, offset));
      if !ok {
        return [], false;
      }
      offset := size;
    }
  }

  // ---- the transition system ---------------------------------------------

  /** Ended and Failed have sent the end marker, Failed because the open or a poll failed; Gone is a lost client. */
  datatype Pc = Opening | Polling | Statted(size: nat) | HaveRead(size: nat) | Checking | Ended | Failed | Gone

  datatype State = State(
    file: seq<string>,        // the raw lines appended so far
    open: bool,
    inflight: bool,
    drained: bool,            // the shutdown drain has emptied the in-flight map
    pc: Pc,
    offset: nat,
    delivered: seq<ReadLine>,
    // History, never read by a guard.
    cut: nat,                 // lines before the offset
    marked: nat,              // lines in the file at the last Stat
    reach: nat,               // lines in the file at the last read
    seen: seq<nat>)           // the line numbers read, in order

  datatype Step =
    | Append(lines: seq<string>)
    | CloseLog
    | LeaveInflight
    | Drain
    | Open(ok: bool)
    | Stat
    | Read
    | Advance
    | Check
    | PollFails // the Stat, the seek or the read
    | Disconnect

  predicate Enabled(s: State, step: Step) {
    match step
    case Append(lines) => s.open && lines != [] && AllClean(lines)
    case CloseLog => s.open
    case LeaveInflight => s.inflight && !s.open
    case Drain => !s.drained
    case Open(_) => s.pc.Opening?
    case Stat => s.pc.Polling?
    case Read => s.pc.Statted?
    case Advance => s.pc.HaveRead?
    case Check => s.pc.Checking?
    case PollFails => s.pc.Polling? || s.pc.Statted?
    case Disconnect => !s.pc.Ended? && !s.pc.Failed? && !s.pc.Gone?
  }

  function Range(lo: nat, hi: nat): (r: seq<nat>)
    ensures |r| == if lo <= hi then hi - lo else 0
    ensures forall k :: 0 <= k < |r| ==> r[k] == lo + k
    decreases hi - lo
  {
    if lo >= hi then [] else [lo] + Range(lo + 1, hi)
  }

  function Pending(s: State): Parsed {
    ParseLog(ReadFrom(Unlines(s.file), s.offset))
  }

  function Apply(s: State, step: Step): State
    requires Enabled(s, step)
  {
    match step
    case Append(lines) => s.(file := s.file + lines)
    case CloseLog => s.(open := false)
    case LeaveInflight => s.(inflight := false)
    case Drain => s.(inflight := false, drained := true)
    case Open(ok) => s.(pc := if ok then Polling else Failed)
    case Stat =>
      var size := |Unlines(s.file)|;
      s.(pc := if size == s.offset then Checking else Statted(size), marked := |s.file|)
    case Read =>
      if Pending(s).ok
      then s.(pc := HaveRead(s.pc.size), delivered := s.delivered + Pending(s).lines,
              reach := |s.file|, seen := s.seen + Range(s.cut, |s.file|))
      else s.(pc := Failed)
    case Advance => s.(pc := Checking, offset := s.pc.size, cut := s.marked)
    case Check => s.(pc := if s.inflight then Polling else Ended)
    case PollFails => s.(pc := Failed)
    case Disconnect => s.(pc := Gone)
  }

  /** The stream opens on a log with some lines in it, of a worker that may or may not be done. */
  predicate Init(s: State) {
    && AllClean(s.file) && (s.open ==> s.inflight || s.drained)
    && s.pc.Opening? && s.offset == 0 && s.delivered == []
    && s.cut == 0 && s.marked == 0 && s.reach == 0 && s.seen == []
  }

  ghost predicate IsRun(run: seq<State>, steps: seq<Step>) {
    && |run| == |steps| + 1
    && Init(run[0])
    && forall i {:trigger Enabled(run[i], steps[i])} :: 0 <= i < |steps| ==>
         Enabled(run[i], steps[i]) && run[i + 1] == Apply(run[i], steps[i])
  }

  /** The read and the move after a Stat that saw this size are the rest of the poll. */
  lemma ReadSteps(s: State, size: nat)
    requires s.pc == Statted(size) && size != s.offset
    ensures var poll := Poll(s.offset, size, Unlines(s.file));
      if poll.ok
      then
        var done := Apply(Apply(s, Read), Advance);
        done.offset == poll.offset && done.delivered == s.delivered + poll.lines
      else Apply(s, Read) == s.(pc := Failed)
  {}

  /** The Stat, the read of a possibly longer file and the move of the cursor are one poll of the cursor. */
  lemma PollSteps(s: State, more: seq<string>)
    requires s.pc.Polling?
    ensures var statted := Apply(s, Stat);
      var grown := statted.(file := s.file + more);
      var poll := Poll(s.offset, |Unlines(s.file)|, Unlines(grown.file));
      if statted.pc.Checking? then poll == PollResult([], true, s.offset)
      else if poll.ok
        then var done := Apply(Apply(grown, Read), Advance);
             done.offset == poll.offset && done.delivered == s.delivered + poll.lines
      else Apply(grown, Read) == grown.(pc := Failed)
  {
    var statted := Apply(s, Stat);
    if !statted.pc.Checking? {
      ReadSteps(statted.(file := s.file + more), statted.pc.size);
    }
  }

  // ---- what was delivered, line by line ----------------------------------

  predicate Within(idx: seq<nat>, n: nat) {
    forall k :: 0 <= k < |idx| ==> idx[k] < n
  }

  function LinesAt(file: seq<string>, idx: seq<nat>): seq<ReadLine>
    requires Within(idx, |file|)
    decreases |idx|
  {
    if idx == [] then [] else Parsing(file[idx[0]]) + LinesAt(file, idx[1..])
  }

  lemma LinesAtCons(file: seq<string>, i: nat, idx: seq<nat>)
    requires i < |file| && Within(idx, |file|)
    ensures Within([i] + idx, |file|) && LinesAt(file, [i] + idx) == Parsing(file[i]) + LinesAt(file, idx)
  {
    assert ([i] + idx)[1..] == idx;
  }

  lemma {:induction false} LinesAtAppend(file: seq<string>, a: seq<nat>, b: seq<nat>)
    requires Within(a, |file|) && Within(b, |file|)
    ensures Within(a + b, |file|) && LinesAt(file, a + b) == LinesAt(file, a) + LinesAt(file, b)
    decreases |a|
  {
    if a == [] {
      assert a + b == b;
    } else {
      var i, more := a[0], a[1..];
      assert a + b == [i] + (more + b);
      LinesAtAppend(file, more, b);
      LinesAtCons(file, i, more + b);
      Glue(Parsing(file[i]), LinesAt(file, more), LinesAt(file, b));
    }
  }

  lemma {:induction false} LinesAtGrows(file: seq<string>, more: seq<string>, idx: seq<nat>)
    requires Within(idx, |file|)
    ensures Within(idx, |file + more|) && LinesAt(file + more, idx) == LinesAt(file, idx)
    decreases |idx|
  {
    if idx != [] {
      LinesAtGrows(file, more, idx[1..]);
    }
  }

  lemma {:induction false} ParseFrom(file: seq<string>, lo: nat)
    requires lo <= |file|
    ensures ParseLines(file[lo..]).ok ==> ParseLines(file[lo..]).lines == LinesAt(file, Range(lo, |file|))
    decreases |file| - lo
  {
    if lo < |file| {
      ParseFrom(file, lo + 1);
      ParseLinesCons(file[lo], file[lo + 1..]);
      assert file[lo..] == [file[lo]] + file[lo + 1..];
      assert Range(lo, |file|)[1..] == Range(lo + 1, |file|);
    }
  }

  function Bytes(lines: seq<string>): nat {
    |Unlines(lines)|
  }

  lemma {:induction false} BytesAtLeast(lines: seq<string>)
    ensures |lines| <= Bytes(lines)
  {
    if lines != [] {
      BytesAtLeast(lines[1..]);
    }
  }

  /** A size taken at a line boundary says which boundary. */
  lemma BoundaryBySize(file: seq<string>, cut: nat)
    requires cut <= |file|
    ensures Bytes(file[..cut]) == Bytes(file) <==> cut == |file|
  {
    Rejoin(file, cut);
    UnlinesAppend(file[..cut], file[cut..]);
    BytesAtLeast(file[cut..]);
    if cut == |file| {
      assert file[..cut] == file;
    }
  }

  /** Reading on from a line boundary parses exactly the lines after it. */
  lemma ReadOn(file: seq<string>, cut: nat)
    requires AllClean(file) && cut <= |file|
    ensures ParseLog(ReadFrom(Unlines(file), Bytes(file[..cut]))) == ParseLines(file[cut..])
  {
    Rejoin(file, cut);
    UnlinesAppend(file[..cut], file[cut..]);
    WholeLines(file[cut..]);
  }

  // ---- the invariant -----------------------------------------------------

  /** Every line's first delivery comes after the first deliveries of all the lines before it. */
  ghost predicate FirstsInOrder(seen: seq<nat>) {
    forall p, j: nat :: 0 <= p < |seen| && j < seen[p] ==> j in seen[..p]
  }

  ghost predicate Covers(seen: seq<nat>, n: nat) {
    forall j: nat :: j < n ==> j in seen
  }

  predicate CursorOk(file: seq<string>, pc: Pc, offset: nat, cut: nat, marked: nat, reach: nat) {
    && cut <= reach <= |file| && cut <= marked <= |file|
    && offset == Bytes(file[..cut])
    && (pc.Statted? || pc.HaveRead? ==> pc.size == Bytes(file[..marked]))
    && (pc.HaveRead? ==> marked <= reach)
  }

  ghost predicate SeenOk(file: seq<string>, delivered: seq<ReadLine>, reach: nat, seen: seq<nat>) {
    && reach <= |file|
    && Within(seen, reach) && Covers(seen, reach) && FirstsInOrder(seen)
    && delivered == LinesAt(file, seen)
  }

  ghost predicate Inv(s: State) {
    && AllClean(s.file) && (s.open ==> s.inflight || s.drained) && (s.pc.Ended? ==> !s.inflight)
    && CursorOk(s.file, s.pc, s.offset, s.cut, s.marked, s.reach)
    && SeenOk(s.file, s.delivered, s.reach, s.seen)
  }

  lemma InitInv(s: State)
    requires Init(s)
    ensures Inv(s)
  {
    assert Unlines(s.file[..0]) == "";
  }

  lemma Prefix(file: seq<string>, more: seq<string>, n: nat)
    requires n <= |file|
    ensures (file + more)[..n] == file[..n]
  {}

  lemma AppendInv(s: State, lines: seq<string>)
    requires Inv(s) && Enabled(s, Append(lines))
    ensures Inv(Apply(s, Append(lines)))
  {
    Prefix(s.file, lines, s.cut);
    Prefix(s.file, lines, s.marked);
    LinesAtGrows(s.file, lines, s.seen);
  }

  lemma MoreFirsts(seen: seq<nat>, reach: nat, lo: nat, hi: nat, p: nat, j: nat)
    requires Covers(seen, reach) && FirstsInOrder(seen) && lo <= reach
    requires p < |seen + Range(lo, hi)| && j < (seen + Range(lo, hi))[p]
    ensures j in (seen + Range(lo, hi))[..p]
  {
    var all := seen + Range(lo, hi);
    if p < |seen| {
      assert all[..p] == seen[..p];
    } else if j < reach {
      assert j in seen;
      assert all[..p] == seen + all[..p][|seen|..];
    } else {
      assert all[..p][|seen| + j - lo] == j;
    }
  }

  lemma MoreSeen(seen: seq<nat>, reach: nat, lo: nat, hi: nat)
    requires Within(seen, reach) && Covers(seen, reach) && FirstsInOrder(seen) && lo <= reach <= hi
    ensures Within(seen + Range(lo, hi), hi) && Covers(seen + Range(lo, hi), hi)
    ensures FirstsInOrder(seen + Range(lo, hi))
  {
    var all := seen + Range(lo, hi);
    forall j: nat | j < hi ensures j in all {
      if reach <= j { assert all[|seen| + j - lo] == j; }
    }
    forall p, j: nat | 0 <= p < |all| && j < all[p] ensures j in all[..p] {
      MoreFirsts(seen, reach, lo, hi, p, j);
    }
  }

  lemma ReadInv(s: State)
    requires Inv(s) && Enabled(s, Read)
    ensures Inv(Apply(s, Read))
    ensures Pending(s) == ParseLines(s.file[s.cut..])
  {
    ReadOn(s.file, s.cut);
    if Pending(s).ok {
      ParseFrom(s.file, s.cut);
      MoreSeen(s.seen, s.reach, s.cut, |s.file|);
      LinesAtAppend(s.file, s.seen, Range(s.cut, |s.file|));
    }
  }

  /** The other steps move neither the lines that were seen nor the file. */
  lemma QuietInv(s: State, step: Step)
    requires Inv(s) && Enabled(s, step) && !step.Append? && !step.Read?
    ensures Inv(Apply(s, step))
  {
    if step.Stat? { assert s.file[..|s.file|] == s.file; }
  }

  lemma NextInv(run: seq<State>, steps: seq<Step>, m: nat)
    requires IsRun(run, steps) && m < |steps| && Inv(run[m])
    ensures Inv(run[m + 1])
  {
    assert Enabled(run[m], steps[m]);
    match steps[m] {
      case Append(lines) => AppendInv(run[m], lines);
      case Read => ReadInv(run[m]);
      case _ => QuietInv(run[m], steps[m]);
    }
  }

  lemma {:induction false} RunInv(run: seq<State>, steps: seq<Step>, i: nat)
    requires IsRun(run, steps) && i < |run|
    ensures Inv(run[i])
  {
    if i == 0 {
      InitInv(run[0]);
    } else {
      RunInv(run, steps, i - 1);
      NextInv(run, steps, i - 1);
    }
  }

  // ---- at least once, in order -------------------------------------------

  /**
   Whatever the worker appends between a poll's steps: the cursor stands at a line boundary, every line before it
   has been delivered, and the delivered lines are lines of the file whose first deliveries are in file order
   without gaps.
   */
  lemma AtLeastOnceInOrder(run: seq<State>, steps: seq<Step>, i: nat)
    requires IsRun(run, steps) && i < |run|
    ensures var s := run[i];
      && s.cut <= |s.file| && s.offset == Bytes(s.file[..s.cut])
      && Within(s.seen, |s.file|) && Covers(s.seen, s.cut) && FirstsInOrder(s.seen)
      && s.delivered == LinesAt(s.file, s.seen)
  {
    RunInv(run, steps, i);
  }
}
