/** A live stream from the worker's appends to the client's rows. */
module LogDelivery {
  import opened Collections
  import opened Text
  import opened LogFormat
  import opened LogTail
  import opened LogTailEnd
  import opened LogTailOnce
  import opened LogTailRuns
  import opened LogTailView
  import opened LogStream
  import opened ServerSentEvents

  // ---- the pump ----------------------------------------------------------

  /** The end marker; its text is a line of its own. */
  function EndFrame(text: string): Frame {
    EventFrame("end", text)
  }

  const END_TEXT := "nanoku deploy log stream end"

  lemma EndTextIsOneLine()
    ensures OneLine(END_TEXT)
  {}

  lemma StreamCons(f: Frame, more: seq<Frame>)
    ensures StreamOf([f] + more) == FrameLines(f) + StreamOf(more)
  {
    assert ([f] + more)[1..] == more;
  }

  lemma {:induction false} StreamAppend(a: seq<Frame>, b: seq<Frame>)
    ensures StreamOf(a + b) == StreamOf(a) + StreamOf(b)
  {
    if a == [] {
      assert a + b == b;
    } else {
      assert a + b == [a[0]] + (a[1..] + b);
      StreamAppend(a[1..], b);
      StreamCons(a[0], a[1..] + b);
      Glue(FrameLines(a[0]), StreamOf(a[1..]), StreamOf(b));
    }
  }

  lemma EncodeAppend(a: seq<Frame>, b: seq<Frame>)
    ensures Encode(a + b) == Encode(a) + Encode(b)
  {
    StreamAppend(a, b);
    UnlinesAppend(StreamOf(a), StreamOf(b));
  }

  lemma {:induction false} CarriesAppend(a: seq<Frame>, linesA: seq<ReadLine>, b: seq<Frame>, linesB: seq<ReadLine>)
    requires Carries(a, linesA) && Carries(b, linesB)
    ensures Carries(a + b, linesA + linesB)
    decreases |a|
  {
    if a == [] {
      assert a + b == b && linesA + linesB == linesB;
    } else {
      assert (a + b)[0] == a[0] && (a + b)[1..] == a[1..] + b;
      if Filler(a[0]) {
        CarriesAppend(a[1..], linesA, b, linesB);
      } else {
        assert (linesA + linesB)[0] == linesA[0] && (linesA + linesB)[1..] == linesA[1..] + linesB;
        CarriesAppend(a[1..], linesA[1..], b, linesB);
      }
    }
  }

  lemma {:induction false} LineFramesCarry(lines: seq<ReadLine>)
    ensures Carries(LineFrames(lines), lines)
  {
    if lines != [] {
      LineFramesCarry(lines[1..]);
      assert !Filler(LineFrame(lines[0]));
    }
  }

  /** What has been sent: the bytes are those of frames that carry the lines. */
  ghost predicate Sent(out: string, before: string, frames: seq<Frame>, lines: seq<ReadLine>) {
    out == before + Encode(frames) && Carries(frames, lines)
  }

  lemma SendMore(out: string, before: string, frames: seq<Frame>, lines: seq<ReadLine>, more: seq<Frame>,
                 moreLines: seq<ReadLine>)
    requires Sent(out, before, frames, lines) && Carries(more, moreLines)
    ensures Sent(out + Encode(more), before, frames + more, lines + moreLines)
  {
    EncodeAppend(frames, more);
    Glue(before, Encode(frames), Encode(more));
    CarriesAppend(frames, lines, more, moreLines);
  }

  lemma EncodeOne(f: Frame)
    ensures Encode([f]) == Unlines(FrameLines(f))
  {
    EncodeCons(f, []);
    assert [f] + [] == [f] && Encode([]) == "";
    assert Unlines(FrameLines(f)) + "" == Unlines(FrameLines(f));
  }

  lemma FillerCarriesNothing(f: Frame)
    requires Filler(f)
    ensures Carries([f], [])
  {
    assert [f][1..] == [];
  }

  lemma SendFiller(out: string, before: string, frames: seq<Frame>, lines: seq<ReadLine>, f: Frame)
    requires Sent(out, before, frames, lines) && Filler(f)
    ensures Sent(out + Unlines(FrameLines(f)), before, frames + [f], lines)
  {
    EncodeOne(f);
    FillerCarriesNothing(f);
    assert lines + [] == lines;
    SendMore(out, before, frames, lines, [f], []);
  }

  predicate IsEnd(f: Frame) {
    f.EventFrame? && f.name == "end"
  }

  /** The frames that carry no line of the log. */
  function Fillers(frames: seq<Frame>): seq<Frame> {
    if frames == [] then [] else (if Filler(frames[0]) then [frames[0]] else []) + Fillers(frames[1..])
  }

  lemma {:induction false} FillersAppend(a: seq<Frame>, b: seq<Frame>)
    ensures Fillers(a + b) == Fillers(a) + Fillers(b)
  {
    if a == [] {
      assert a + b == b && Fillers(a) == [] && [] + Fillers(b) == Fillers(b);
    } else {
      assert (a + b)[0] == a[0] && (a + b)[1..] == a[1..] + b;
      FillersAppend(a[1..], b);
      Glue(if Filler(a[0]) then [a[0]] else [], Fillers(a[1..]), Fillers(b));
    }
  }

  lemma OneFiller(frames: seq<Frame>, f: Frame)
    requires Filler(f)
    ensures Fillers(frames + [f]) == Fillers(frames) + [f]
  {
    FillersAppend(frames, [f]);
    assert [f][1..] == [] && [f] + [] == [f];
  }

  lemma {:induction false} LineFramesFillNothing(lines: seq<ReadLine>)
    ensures Fillers(LineFrames(lines)) == []
  {
    if lines != [] {
      LineFramesFillNothing(lines[1..]);
      assert !Filler(LineFrame(lines[0]));
    }
  }

  lemma PollFillers(frames: seq<Frame>, poll: PollResult, endText: string)
    requires OneLine(endText)
    ensures Fillers(frames + PollFrames(poll, endText))
            == if poll.ok then Fillers(frames) else Fillers(frames) + [EndFrame(endText)]
  {
    if poll.ok {
      FillersAppend(frames, LineFrames(poll.lines));
      LineFramesFillNothing(poll.lines);
    } else {
      OneFiller(frames, EndFrame(endText));
    }
  }

  function PollFrames(poll: PollResult, endText: string): seq<Frame> {
    if poll.ok then LineFrames(poll.lines) else [EndFrame(endText)]
  }

  lemma PollFramesCarry(poll: PollResult, endText: string)
    requires OneLine(endText) && (!poll.ok ==> poll.lines == [])
    ensures Carries(PollFrames(poll, endText), poll.lines)
  {
    if poll.ok {
      LineFramesCarry(poll.lines);
    } else {
      FillerCarriesNothing(EndFrame(endText));
    }
  }

  /** One poll, sent to the client; a poll that fails sends the end marker instead. */
  method EmitTail(sw: SseWriter, cursor: TailCursor, endText: string, size: nat, content: string) returns (ok: bool)
    modifies sw, cursor
    ensures var poll := Poll(old(cursor.offset), size, content);
      ok == poll.ok && cursor.offset == poll.offset && sw.out == old(sw.out) + Encode(PollFrames(poll, endText))
  {
    var lines;
    lines, ok := cursor.Next(size, content);
    if !ok {
      EncodeOne(EndFrame(endText));
      sw.SseEvent("end", endText);
      return;
    }
    EmitLines(sw, lines);
  }

  ghost predicate Runs(start: State, run: seq<State>, steps: seq<Step>, s: State) {
    RunTo(run, steps, s) && run[0] == start
  }

  lemma RunOn(start: State, run: seq<State>, steps: seq<Step>, s: State, step: Step)
    returns (run': seq<State>, steps': seq<Step>)
    requires Runs(start, run, steps, s) && Enabled(s, step)
    ensures Runs(start, run', steps', Apply(s, step)) && steps' == steps + [step]
  {
    run', steps' := Extend(run, steps, s, step);
  }

  /** How often the stream has asked whether the deploy is still in flight. */
  function Checks(steps: seq<Step>): nat {
    if steps == [] then 0 else Checks(steps[..|steps| - 1]) + if steps[|steps| - 1].Check? then 1 else 0
  }

  lemma OneMoreStep(steps: seq<Step>, step: Step)
    ensures Checks(steps + [step]) == Checks(steps) + if step.Check? then 1 else 0
  {
    assert (steps + [step])[..|steps|] == steps;
  }

  /** The read of a poll, and the move of the cursor unless it fails. */
  function AfterRead(s: State): State
    requires s.pc.Statted?
  {
    var t := Apply(s, Read);
    if t.pc.HaveRead? then Apply(t, Advance) else t
  }

  lemma RunRead(start: State, run: seq<State>, steps: seq<Step>, s: State)
    returns (run': seq<State>, steps': seq<Step>)
    requires Runs(start, run, steps, s) && s.pc.Statted?
    ensures Runs(start, run', steps', AfterRead(s)) && Checks(steps') == Checks(steps)
    ensures AfterRead(s).pc.Failed? ==> steps' == steps + [Read]
  {
    OneMoreStep(steps, Read);
    run', steps' := RunOn(start, run, steps, s, Read);
    if Apply(s, Read).pc.HaveRead? {
      OneMoreStep(steps', Advance);
      run', steps' := RunOn(start, run', steps', Apply(s, Read), Advance);
    }
  }

  lemma PollIsPending(s: State)
    requires s.pc.Statted? && s.pc.size != s.offset
    ensures Poll(s.offset, s.pc.size, Unlines(s.file)) ==
            if Pending(s).ok then PollResult(Pending(s).lines, true, s.pc.size) else PollResult([], false, s.offset)
  {}

  lemma OutcomeOf(s: State, poll: PollResult)
    requires s.pc.Statted?
    requires poll == if Pending(s).ok then PollResult(Pending(s).lines, true, s.pc.size)
                     else PollResult([], false, s.offset)
    ensures var t := AfterRead(s);
      && t.offset == poll.offset && t.delivered == s.delivered + poll.lines
      && if poll.ok then t.pc.Checking? && t.reach == |s.file| else t.pc.Failed?
  {
    assert s.delivered + [] == s.delivered;
  }

  /** What the read of a poll comes to, with the move of the cursor after it. */
  lemma ReadOutcome(s: State, poll: PollResult)
    requires s.pc.Statted? && s.pc.size != s.offset && poll == Poll(s.offset, s.pc.size, Unlines(s.file))
    ensures poll.ok == Pending(s).ok
    ensures var t := AfterRead(s);
      && t.offset == poll.offset && t.delivered == s.delivered + poll.lines
      && if poll.ok then t.pc.Checking? && t.reach == |s.file| else t.pc.Failed?
  {
    PollIsPending(s);
    OutcomeOf(s, poll);
  }

  // ---- the worker beside it ----------------------------------------------

  predicate OfTheWorker(step: Step) {
    step.Append? || step.CloseLog? || step.LeaveInflight? || step.Drain?
  }

  lemma WorkerFrame(s: State, step: Step)
    requires Enabled(s, step) && OfTheWorker(step)
    ensures var t := Apply(s, step);
      t.pc == s.pc && t.offset == s.offset && t.delivered == s.delivered && t.reach == s.reach
      && |s.file| <= |t.file|
  {}

  /** The steps are tried one after the other, and those that the others can take are taken. */
  function Went(s: State, tried: seq<Step>): State {
    if tried == [] then s
    else
      var n := |tried| - 1;
      var t := Went(s, tried[..n]);
      if OfTheWorker(tried[n]) && Enabled(t, tried[n]) then Apply(t, tried[n]) else t
  }

  /** A Stat that finds the file at the cursor has nothing to read. */
  lemma NothingToRead(start: State, run: seq<State>, steps: seq<Step>, s: State)
    requires Runs(start, run, steps, s) && s.pc.Polling? && Apply(s, Stat).pc.Checking?
    ensures s.reach == |s.file|
  {
    RunInv(run, steps, |steps|);
    NextReach(s, Stat);
  }

  /** What lets a stream go on, end, or stop: every check so far found the deploy in flight, or the last one did not. */
  lemma ChecksOfRun(start: State, run: seq<State>, steps: seq<Step>, s: State)
    requires Runs(start, run, steps, s)
    ensures s.pc.Ended? <==> exists m: nat :: m < |steps| && SawItOver(run, steps, m)
    ensures Covers(s.seen, s.reach) && s.reach <= |s.file|
  {
    EndedIff(run, steps, |steps|);
    RunInv(run, steps, |steps|);
  }

  // ---- what happens to a stream ------------------------------------------

  /** Whether the Stat and the read of a poll fail. */
  datatype Faults = Faults(stat: bool, read: bool)

  /** A poll, and what is tried beside it: before it, between its Stat and its read, and before the question. */
  datatype Look = Look(faults: Faults, before: seq<Step>, between: seq<Step>, after: seq<Step>)

  /** One turn of the loop: the client is gone, or a keepalive is due, or a poll. */
  datatype Turn = Lost(before: seq<Step>) | Quiet(before: seq<Step>) | Polls(look: Look)

  function BesideLook(look: Look): seq<Step> {
    look.before + look.between + look.after
  }

  function BesideTurn(turn: Turn): seq<Step> {
    match turn
    case Lost(before) => before
    case Quiet(before) => before
    case Polls(look) => BesideLook(look)
  }

  /** All that is tried beside some turns. */
  function BesideTurns(turns: seq<Turn>): seq<Step> {
    if turns == [] then [] else BesideTurns(turns[..|turns| - 1]) + BesideTurn(turns[|turns| - 1])
  }

  function Looks(turns: seq<Turn>): nat {
    if turns == [] then 0 else Looks(turns[..|turns| - 1]) + if turns[|turns| - 1].Polls? then 1 else 0
  }

  /** A quiet turn adds a keepalive. */
  function Alive(frames: seq<Frame>, turn: Turn): seq<Frame> {
    if turn.Quiet? then frames + [CommentFrame("ka")] else frames
  }

  /** The keepalives of some turns. */
  function Keepalives(turns: seq<Turn>): seq<Frame> {
    if turns == [] then []
    else Alive(Keepalives(turns[..|turns| - 1]), turns[|turns| - 1])
  }

  lemma OneMoreTurn(turns: seq<Turn>, turn: Turn)
    ensures Looks(turns + [turn]) == Looks(turns) + if turn.Polls? then 1 else 0
    ensures BesideTurns(turns + [turn]) == BesideTurns(turns) + BesideTurn(turn)
    ensures Keepalives(turns + [turn]) == Alive(Keepalives(turns), turn)
  {
    assert (turns + [turn])[..|turns|] == turns;
  }

  /** A turn after which a stream does not go on, whatever the deploy does. */
  predicate Breaks(turn: Turn) {
    turn.Lost? || (turn.Polls? && turn.look.faults.stat)
  }

  /** A poll has failed: it has met one of these faults, or a line too long. */
  predicate FailedBy(pc: Pc, steps: seq<Step>, faults: Faults) {
    pc.Failed? && steps != [] && match steps[|steps| - 1]
                                 case PollFails => faults.stat || faults.read
                                 case Read => true
                                 case _ => false
  }

  /** The dump or, after some turns, the last of them has failed. */
  predicate FailedAt(pc: Pc, steps: seq<Step>, dump: Faults, turns: seq<Turn>) {
    if turns == [] then FailedBy(pc, steps, dump)
    else turns[|turns| - 1].Polls? && FailedBy(pc, steps, turns[|turns| - 1].look.faults)
  }

  /** Where a stream stands after the open, the dump and some turns, and why. */
  predicate Stands(pc: Pc, steps: seq<Step>, opens: bool, dump: Faults, turns: seq<Turn>) {
    && (pc.Polling? || pc.Gone? || SentEnd(pc))
    && (pc.Gone? <==> turns != [] && turns[|turns| - 1].Lost?)
    && (pc.Failed? ==> !opens || FailedAt(pc, steps, dump, turns))
    && (!opens || dump.stat ==> pc.Failed?)
    && (pc.Polling? || pc.Ended? ==> forall k :: 0 <= k < |turns| ==> !Breaks(turns[k]))
  }

  /** How often the stream has asked about the deploy by then. */
  predicate Asked(pc: Pc, steps: seq<Step>, opens: bool, turns: seq<Turn>) {
    Checks(steps) == if opens then 1 + Looks(turns) - (if pc.Failed? then 1 else 0) else 0
  }

  /** A stream that is over adds the end marker. */
  function Marked(frames: seq<Frame>, pc: Pc, endText: string): seq<Frame> {
    if SentEnd(pc) then frames + [EndFrame(endText)] else frames
  }

  /** The frames without a line that it has sent by then. */
  predicate Framed(pc: Pc, frames: seq<Frame>, turns: seq<Turn>, comment: string, endText: string) {
    Fillers(frames) == Marked([RetryFrame(2000), CommentFrame(comment)] + Keepalives(turns), pc, endText)
  }

  /** What is known of a stream when it has taken some turns. */
  predicate Known(pc: Pc, steps: seq<Step>, frames: seq<Frame>, tried: seq<Step>, opens: bool, dump: Look,
                  opening: seq<Step>, turns: seq<Turn>, comment: string, endText: string) {
    && Stands(pc, steps, opens, dump.faults, turns)
    && (pc.Polling? || pc.Ended? ==> tried == opening + BesideLook(dump) + BesideTurns(turns))
    && Asked(pc, steps, opens, turns)
    && Framed(pc, frames, turns, comment, endText)
  }

  /** What a turn comes to. */
  predicate Turned(pc: Pc, steps: seq<Step>, turn: Turn) {
    match turn
    case Lost(_) => pc.Gone?
    case Quiet(_) => pc.Polling?
    case Polls(look) =>
      (pc.Polling? || pc.Ended? || FailedBy(pc, steps, look.faults)) && (!pc.Failed? ==> !look.faults.stat)
  }

  lemma StandsNext(pc: Pc, steps: seq<Step>, before: seq<Step>, dump: Faults, turns: seq<Turn>, turn: Turn)
    requires Stands(Polling, before, true, dump, turns) && Turned(pc, steps, turn)
    ensures Stands(pc, steps, true, dump, turns + [turn])
  {
    var all := turns + [turn];
    assert all[|all| - 1] == turn;
    forall k | 0 <= k < |all| && (pc.Polling? || pc.Ended?) ensures !Breaks(all[k]) {
      if k < |turns| { assert all[k] == turns[k]; }
    }
  }

  lemma AskedNext(pc: Pc, steps: seq<Step>, before: seq<Step>, turns: seq<Turn>, turn: Turn)
    requires Asked(Polling, before, true, turns) && Turned(pc, steps, turn)
    requires Checks(steps) == Checks(before) + if turn.Polls? && !pc.Failed? then 1 else 0
    ensures Asked(pc, steps, true, turns + [turn])
  {
    OneMoreTurn(turns, turn);
  }

  lemma FramedNext(pc: Pc, frames: seq<Frame>, before: seq<Frame>, turns: seq<Turn>, turn: Turn, comment: string,
                   endText: string)
    requires Framed(Polling, before, turns, comment, endText)
    requires Fillers(frames) == Marked(Alive(Fillers(before), turn), pc, endText)
    ensures Framed(pc, frames, turns + [turn], comment, endText)
  {
    OneMoreTurn(turns, turn);
    Glue([RetryFrame(2000), CommentFrame(comment)], Keepalives(turns), [CommentFrame("ka")]);
  }

  lemma Associate<T>(a: seq<T>, b: seq<T>, c: seq<T>, d: seq<T>)
    ensures a + b + c + d == a + (b + c + d)
  {}

  /** What a turn adds to the steps and the frames, and where it leaves the stream. */
  predicate Taken(turn: Turn, steps0: seq<Step>, frames0: seq<Frame>, tried0: seq<Step>, pc: Pc, steps: seq<Step>,
                  frames: seq<Frame>, tried: seq<Step>, endText: string) {
    && Turned(pc, steps, turn)
    && (pc.Polling? || pc.Ended? ==> tried == tried0 + BesideTurn(turn))
    && Checks(steps) == Checks(steps0) + (if turn.Polls? && !pc.Failed? then 1 else 0)
    && Fillers(frames) == Marked(Alive(Fillers(frames0), turn), pc, endText)
  }

  /** A claim about a stream that has taken some turns. */
  type Claim = (seq<Turn>, Pc, seq<Step>, seq<Frame>, seq<Step>) -> bool

  /** If the claim holds of a stream that goes on, it holds after one more turn. */
  ghost predicate Kept(claim: Claim, endText: string) {
    forall turns, turn, steps0, frames0, tried0, pc, steps, frames, tried
      {:trigger claim(turns, Polling, steps0, frames0, tried0),
                Taken(turn, steps0, frames0, tried0, pc, steps, frames, tried, endText)} ::
      claim(turns, Polling, steps0, frames0, tried0)
      && Taken(turn, steps0, frames0, tried0, pc, steps, frames, tried, endText) ==>
        claim(turns + [turn], pc, steps, frames, tried)
  }

  lemma TriedNext(opening: seq<Step>, dump: Look, turns: seq<Turn>, turn: Turn)
    ensures opening + BesideLook(dump) + BesideTurns(turns + [turn]) ==
            opening + BesideLook(dump) + BesideTurns(turns) + BesideTurn(turn)
  {
    OneMoreTurn(turns, turn);
    Glue(opening + BesideLook(dump), BesideTurns(turns), BesideTurn(turn));
  }

  lemma KnownNext(pc: Pc, steps: seq<Step>, frames: seq<Frame>, tried: seq<Step>, steps0: seq<Step>,
                  frames0: seq<Frame>, tried0: seq<Step>, dump: Look, opening: seq<Step>, turns: seq<Turn>, turn: Turn,
                  comment: string, endText: string)
    requires Known(Polling, steps0, frames0, tried0, true, dump, opening, turns, comment, endText)
    requires Taken(turn, steps0, frames0, tried0, pc, steps, frames, tried, endText)
    ensures Known(pc, steps, frames, tried, true, dump, opening, turns + [turn], comment, endText)
  {
    StandsNext(pc, steps, steps0, dump.faults, turns, turn);
    AskedNext(pc, steps, steps0, turns, turn);
    FramedNext(pc, frames, frames0, turns, turn, comment, endText);
    TriedNext(opening, dump, turns, turn);
  }

  ghost function KnownAfter(dump: Look, opening: seq<Step>, comment: string, endText: string): Claim {
    (turns, pc, steps, frames, tried) =>
      Known(pc, steps, frames, tried, true, dump, opening, turns, comment, endText)
  }

  lemma KnownKept(dump: Look, opening: seq<Step>, comment: string, endText: string)
    ensures Kept(KnownAfter(dump, opening, comment, endText), endText)
  {
    var claim := KnownAfter(dump, opening, comment, endText);
    forall turns, turn, steps0, frames0, tried0, pc, steps, frames, tried
      | claim(turns, Polling, steps0, frames0, tried0)
        && Taken(turn, steps0, frames0, tried0, pc, steps, frames, tried, endText)
      ensures claim(turns + [turn], pc, steps, frames, tried)
    {
      KnownNext(pc, steps, frames, tried, steps0, frames0, tried0, dump, opening, turns, turn, comment, endText);
    }
  }

  lemma KnownFirst(pc: Pc, steps: seq<Step>, frames: seq<Frame>, tried: seq<Step>, opens: bool, dump: Look,
                   opening: seq<Step>, comment: string, endText: string)
    requires if opens then Turned(pc, steps, Polls(dump)) else pc.Failed?
    requires pc.Polling? || pc.Ended? ==> tried == opening + BesideLook(dump)
    requires Checks(steps) == if opens && !pc.Failed? then 1 else 0
    requires Fillers(frames) == Marked([RetryFrame(2000), CommentFrame(comment)], pc, endText)
    ensures Known(pc, steps, frames, tried, opens, dump, opening, [], comment, endText)
  {
    FramedFirst(pc, frames, comment, endText);
    assert tried + BesideTurns([]) == tried;
  }

  lemma FramedFirst(pc: Pc, frames: seq<Frame>, comment: string, endText: string)
    requires Fillers(frames) == Marked([RetryFrame(2000), CommentFrame(comment)], pc, endText)
    ensures Framed(pc, frames, [], comment, endText)
  {
    var greeting := [RetryFrame(2000), CommentFrame(comment)];
    assert greeting + Keepalives([]) == greeting;
  }

  /** The pump of one stream, beside the worker whose log it tails. */
  class Pump {
    const sw: SseWriter
    const cursor: TailCursor
    const endText: string
    var s: State
    ghost const start: State
    ghost const before: string
    ghost var run: seq<State>
    ghost var steps: seq<Step>
    ghost var frames: seq<Frame>
    ghost var tried: seq<Step>

    /** The transition system has come to s, and the client has been sent frames that carry what was delivered. */
    ghost predicate Valid()
      reads this, sw, cursor
    {
      && OneLine(endText)
      && Runs(start, run, steps, s) && cursor.offset == s.offset
      && Sent(sw.out, before, frames, s.delivered)
    }

    ghost predicate EndSent()
      reads this
    {
      frames != [] && IsEnd(frames[|frames| - 1])
    }

    constructor (sw: SseWriter, start: State)
      requires Init(start)
      ensures Valid() && this.sw == sw && fresh(cursor) && s == start == this.start && before == sw.out
      ensures steps == [] && frames == [] && tried == [] && endText == "nanoku deploy log stream end"
    {
      EndTextIsOneLine();
      this.sw, this.endText := sw, END_TEXT;
      cursor := new TailCursor();
      s, this.start := start, start;
      before := sw.out;
      run, steps, frames, tried := [start], [], [], [];
      new;
      assert before + Encode([]) == before;
    }

    /** A step of the stream that delivers nothing and leaves the cursor alone. */
    method Move(step: Step)
      requires Valid() && Enabled(s, step)
      requires Apply(s, step).delivered == s.delivered && Apply(s, step).offset == s.offset
      modifies this`s, this`run, this`steps
      ensures Valid() && s == Apply(old(s), step) && steps == old(steps) + [step]
      ensures Checks(steps) == old(Checks(steps)) + if step.Check? then 1 else 0
    {
      OneMoreStep(steps, step);
      run, steps := RunOn(start, run, steps, s, step);
      s := Apply(s, step);
    }

    /** A step beside the stream, if it is possible. */
    method Try(step: Step)
      requires Valid()
      modifies this`s, this`run, this`steps, this`tried
      ensures Valid() && s.pc == old(s.pc) && s.offset == old(s.offset) && s.delivered == old(s.delivered)
      ensures s.reach == old(s.reach) && |old(s.file)| <= |s.file| && Checks(steps) == old(Checks(steps))
      ensures tried == old(tried) + [step]
      ensures s == if OfTheWorker(step) && Enabled(old(s), step) then Apply(old(s), step) else old(s)
    {
      tried := tried + [step];
      if OfTheWorker(step) && Enabled(s, step) {
        OneMoreStep(steps, step);
        WorkerFrame(s, step);
        run, steps := RunOn(start, run, steps, s, step);
        s := Apply(s, step);
      }
    }

    method SendFrame(f: Frame)
      requires Valid() && Filler(f)
      modifies this`frames, sw
      ensures Valid() && frames == old(frames) + [f] && Fillers(frames) == old(Fillers(frames)) + [f]
    {
      SendFiller(sw.out, before, frames, s.delivered, f);
      OneFiller(frames, f);
      match f {
        case EventFrame(name, data) => sw.SseEvent(name, data);
        case CommentFrame(text) => sw.SseComment(text);
        case RetryFrame(ms) => sw.SseRetry(ms);
      }
      frames := frames + [f];
    }

    method SendEnd()
      requires Valid()
      modifies this`frames, sw
      ensures Valid() && EndSent() && Fillers(frames) == old(Fillers(frames)) + [EndFrame(endText)]
    {
      SendFrame(EndFrame(endText));
    }

    /** The worker, its exit and the shutdown drain go on by these steps; the stream does not move. */
    method GoOn(others: seq<Step>)
      requires Valid()
      modifies this`s, this`run, this`steps, this`tried
      ensures Valid() && s.pc == old(s.pc) && s.offset == old(s.offset) && s.delivered == old(s.delivered)
      ensures s.reach == old(s.reach) && |old(s.file)| <= |s.file| && Checks(steps) == old(Checks(steps))
      ensures tried == old(tried) + others && s == Went(old(s), others)
    {
      for i := 0 to |others|
        invariant Valid() && s.pc == old(s.pc) && s.offset == old(s.offset) && s.delivered == old(s.delivered)
        invariant s.reach == old(s.reach) && |old(s.file)| <= |s.file| && Checks(steps) == old(Checks(steps))
        invariant tried == old(tried) + others[..i] && s == Went(old(s), others[..i])
      {
        assert others[..i + 1][..i] == others[..i];
        Try(others[i]);
        Glue(old(tried), others[..i], [others[i]]);
        assert others[..i + 1] == others[..i] + [others[i]];
      }
      assert others[..|others|] == others;
    }

    method OpenTail(opens: bool)
      requires Valid() && s.pc.Opening?
      modifies this`s, this`run, this`steps
      ensures Valid() && s.file == old(s.file) && if opens then s.pc.Polling? else s.pc.Failed?
      ensures Checks(steps) == old(Checks(steps))
    {
      Move(Open(opens));
    }

    method StatFile()
      requires Valid() && s.pc.Polling?
      modifies this`s, this`run, this`steps
      ensures Valid() && s.file == old(s.file) && Checks(steps) == old(Checks(steps))
      ensures if s.pc.Checking? then |s.file| == s.reach else s.pc.Statted? && s.pc.size != s.offset
    {
      if Apply(s, Stat).pc.Checking? { NothingToRead(start, run, steps, s); }
      Move(Stat);
    }

    method CheckDeploy()
      requires Valid() && s.pc.Checking?
      modifies this`s, this`run, this`steps
      ensures Valid() && s.file == old(s.file) && s.reach == old(s.reach)
      ensures if old(s.inflight) then s.pc.Polling? else s.pc.Ended?
      ensures Checks(steps) == old(Checks(steps)) + 1
    {
      Move(Check);
    }

    method LoseClient()
      requires Valid() && s.pc.Polling?
      modifies this`s, this`run, this`steps
      ensures Valid() && s.pc.Gone? && Checks(steps) == old(Checks(steps))
    {
      Move(Disconnect);
    }

    /** The Stat, the seek or the read fails. */
    method FailPoll()
      requires Valid() && (s.pc.Polling? || s.pc.Statted?)
      modifies this, sw
      ensures Valid() && s.pc.Failed? && EndSent() && steps == old(steps) + [PollFails]
      ensures Checks(steps) == old(Checks(steps)) && Fillers(frames) == old(Fillers(frames)) + [EndFrame(endText)]
    {
      Move(PollFails);
      SendEnd();
    }

    /** Sends what a poll returns, lines or the end marker. */
    method SendPoll(size: nat, content: string, ghost poll: PollResult, ghost delivered: seq<ReadLine>)
      returns (ok: bool)
      requires Sent(sw.out, before, frames, s.delivered) && OneLine(endText)
      requires poll == Poll(cursor.offset, size, content) && delivered == s.delivered + poll.lines
      modifies this`frames, sw, cursor
      ensures ok == poll.ok && cursor.offset == poll.offset
      ensures Sent(sw.out, before, frames, delivered)
      ensures !ok ==> EndSent()
      ensures Fillers(frames) == if ok then old(Fillers(frames)) else old(Fillers(frames)) + [EndFrame(endText)]
    {
      PollFramesCarry(poll, endText);
      PollFillers(frames, poll, endText);
      SendMore(sw.out, before, frames, s.delivered, PollFrames(poll, endText), poll.lines);
      ok := EmitTail(sw, cursor, endText, size, content);
      frames := frames + PollFrames(poll, endText);
    }

    /** The read of a poll with the lines it sends, and the move of the cursor; a line too long fails it. */
    method ReadAndSend()
      requires Valid() && s.pc.Statted? && s.pc.size != s.offset
      modifies this, sw, cursor
      ensures Valid() && Checks(steps) == old(Checks(steps))
      ensures (s.pc.Checking? && |old(s.file)| == s.reach) || (s.pc.Failed? && EndSent())
      ensures s.pc.Failed? ==> steps == old(steps) + [Read]
      ensures Fillers(frames) == Marked(old(Fillers(frames)), s.pc, endText)
      ensures tried == old(tried)
    {
      var t;
      ghost var run', steps';
      t, run', steps' := SendRead();
      Arrive(t, run', steps');
    }

    /** Sends what the read brings, and says where the stream will stand. */
    method SendRead() returns (t: State, ghost run': seq<State>, ghost steps': seq<Step>)
      requires Valid() && s.pc.Statted? && s.pc.size != s.offset
      modifies this`frames, sw, cursor
      ensures Runs(start, run', steps', t) && Checks(steps') == Checks(steps)
      ensures cursor.offset == t.offset && Sent(sw.out, before, frames, t.delivered)
      ensures (t.pc.Checking? && t.reach == |s.file|) || (t.pc.Failed? && EndSent() && steps' == steps + [Read])
      ensures Fillers(frames) == Marked(old(Fillers(frames)), t.pc, endText)
    {
      ghost var poll;
      t, run', steps', poll := ReadOn();
      var ok := SendPoll(s.pc.size, Unlines(s.file), poll, t.delivered);
    }

    /** Where the read, and the move of the cursor unless it fails, will lead. */
    method ReadOn() returns (t: State, ghost run': seq<State>, ghost steps': seq<Step>, ghost poll: PollResult)
      requires Valid() && s.pc.Statted? && s.pc.size != s.offset
      ensures Runs(start, run', steps', t) && Checks(steps') == Checks(steps)
      ensures poll == Poll(cursor.offset, s.pc.size, Unlines(s.file))
      ensures t.offset == poll.offset && t.delivered == s.delivered + poll.lines
      ensures if poll.ok then t.pc.Checking? && t.reach == |s.file| else t.pc.Failed? && steps' == steps + [Read]
    {
      t := AfterRead(s);
      poll := Poll(s.offset, s.pc.size, Unlines(s.file));
      ReadOutcome(s, poll);
      run', steps' := RunRead(start, run, steps, s);
    }

    method Arrive(t: State, ghost run': seq<State>, ghost steps': seq<Step>)
      requires OneLine(endText) && Runs(start, run', steps', t)
      requires cursor.offset == t.offset && Sent(sw.out, before, frames, t.delivered)
      modifies this`s, this`run, this`steps
      ensures Valid() && s == t && steps == steps'
    {
      s, run, steps := t, run', steps';
    }

    /** A poll and its steps. The file may grow between the Stat and the end of the read. */
    method PollOnce(faults: Faults, between: seq<Step>)
      requires Valid() && s.pc.Polling?
      modifies this, sw, cursor
      ensures Valid() && Checks(steps) == old(Checks(steps))
      ensures if s.pc.Checking? then |old(s.file)| <= s.reach && !faults.stat
              else FailedBy(s.pc, steps, faults) && EndSent()
      ensures Fillers(frames) == Marked(old(Fillers(frames)), s.pc, endText)
      ensures s.pc.Checking? ==> tried == old(tried) + between
    {
      if faults.stat {
        FailPoll();
        return;
      }
      StatFile();
      GoOn(between);
      if s.pc.Checking? {
        return;
      }
      if faults.read {
        FailPoll();
        return;
      }
      ReadAndSend();
    }

    /** A poll, and then the check of the deploy. */
    method PollAndCheck(faults: Faults, between: seq<Step>, after: seq<Step>)
      requires Valid() && s.pc.Polling?
      modifies this, sw, cursor
      ensures Valid() && (SentEnd(s.pc) ==> EndSent())
      ensures (s.pc.Polling? || s.pc.Ended? || FailedBy(s.pc, steps, faults)) && (!s.pc.Failed? ==> !faults.stat)
      ensures !s.pc.Failed? ==> |old(s.file)| <= s.reach && tried == old(tried) + between + after
      ensures Checks(steps) == old(Checks(steps)) + if s.pc.Failed? then 0 else 1
      ensures Fillers(frames) == Marked(old(Fillers(frames)), s.pc, endText)
    {
      PollOnce(faults, between);
      if s.pc.Failed? {
        return;
      }
      GoOn(after);
      CheckAndEnd();
    }

    /** The question, and the end marker if the answer is no. */
    method CheckAndEnd()
      requires Valid() && s.pc.Checking?
      modifies this`s, this`run, this`steps, this`frames, sw
      ensures Valid() && s.reach == old(s.reach) && (s.pc.Polling? || (s.pc.Ended? && EndSent()))
      ensures Checks(steps) == old(Checks(steps)) + 1
      ensures Fillers(frames) == Marked(old(Fillers(frames)), s.pc, endText)
    {
      CheckDeploy();
      if s.pc.Ended? {
        SendEnd();
      }
    }

    method KeepAlive(before: seq<Step>)
      requires Valid() && s.pc.Polling? && s.reach <= |s.file|
      modifies this, sw, cursor
      ensures Valid() && (SentEnd(s.pc) ==> EndSent())
      ensures Taken(Quiet(before), old(steps), old(frames), old(tried), s.pc, steps, frames, tried, endText)
      ensures s.pc.Polling? || s.pc.Ended? ==> old(s.reach) <= s.reach
    {
      GoOn(before);
      SendFrame(CommentFrame("ka"));
    }

    method Follow(look: Look)
      requires Valid() && s.pc.Polling? && s.reach <= |s.file|
      modifies this, sw, cursor
      ensures Valid() && (SentEnd(s.pc) ==> EndSent())
      ensures Taken(Polls(look), old(steps), old(frames), old(tried), s.pc, steps, frames, tried, endText)
      ensures s.pc.Polling? || s.pc.Ended? ==> old(s.reach) <= s.reach
    {
      GoOn(look.before);
      PollAndCheck(look.faults, look.between, look.after);
      Associate(old(tried), look.before, look.between, look.after);
    }

    method TakeTurn(turn: Turn)
      requires Valid() && s.pc.Polling? && s.reach <= |s.file|
      modifies this, sw, cursor
      ensures Valid() && (SentEnd(s.pc) ==> EndSent())
      ensures Taken(turn, old(steps), old(frames), old(tried), s.pc, steps, frames, tried, endText)
      ensures s.pc.Polling? || s.pc.Ended? ==> old(s.reach) <= s.reach
    {
      match turn {
        case Lost(before) =>
          GoOn(before);
          LoseClient();
        case Quiet(before) => KeepAlive(before);
        case Polls(look) => Follow(look);
      }
    }

    method Greet(comment: string)
      requires Valid() && OneLine(comment)
      modifies this`frames, sw
      ensures Valid() && Fillers(frames) == old(Fillers(frames)) + [RetryFrame(2000), CommentFrame(comment)]
    {
      SendFrame(RetryFrame(2000));
      SendFrame(CommentFrame(comment));
    }

    /** The start of the stream, until the log has been opened. */
    method Begin(opens: bool, opening: seq<Step>, comment: string)
      requires Valid() && s == start && s.pc.Opening? && steps == [] && frames == [] && tried == [] && OneLine(comment)
      modifies this, sw
      ensures tried == opening
      ensures Valid() && (if opens then s.pc.Polling? else s.pc.Failed? && EndSent())
      ensures |start.file| <= |s.file| && Checks(steps) == 0
      ensures Fillers(frames) == Marked([RetryFrame(2000), CommentFrame(comment)], s.pc, endText)
    {
      Greet(comment);
      GoOn(opening);
      OpenTail(opens);
      if !opens {
        SendEnd();
      }
    }

    /** The initial dump and the question after it. */
    method Dump(look: Look, comment: string)
      requires Valid() && s.pc.Polling? && |start.file| <= |s.file| && Checks(steps) == 0
      requires Fillers(frames) == Marked([RetryFrame(2000), CommentFrame(comment)], s.pc, endText)
      modifies this, sw, cursor
      ensures Valid() && (SentEnd(s.pc) ==> EndSent()) && Turned(s.pc, steps, Polls(look))
      ensures s.pc.Polling? || s.pc.Ended? ==> |start.file| <= s.reach && tried == old(tried) + BesideLook(look)
      ensures Checks(steps) == if s.pc.Failed? then 0 else 1
      ensures Fillers(frames) == Marked([RetryFrame(2000), CommentFrame(comment)], s.pc, endText)
    {
      GoOn(look.before);
      PollAndCheck(look.faults, look.between, look.after);
      Associate(old(tried), look.before, look.between, look.after);
    }

    /**
     The stream: a retry hint and a comment, the initial dump, then turns until the end marker or the loss of the
     client. It runs beside the worker as the transition system says, and the bytes sent are those of frames that carry
     what was delivered. One that has not failed or lost its client has sent all that was in the log when it began, has
     asked about the deploy after the dump and after each poll, has ended exactly if an answer was no, and has let the
     others take all the steps that they could of those they tried.
     */
    method StreamDeployLog(opens: bool, opening: seq<Step>, dump: Look, turns: seq<Turn>) returns (taken: nat)
      requires Valid() && s == start && s.pc.Opening? && steps == [] && frames == [] && tried == []
      modifies this, sw, cursor
      ensures Valid() && (SentEnd(s.pc) ==> EndSent()) && taken <= |turns| && (s.pc.Polling? ==> taken == |turns|)
      ensures Known(s.pc, steps, frames, tried, opens, dump, opening, turns[..taken], "nanoku deploy log stream",
                    endText)
      ensures s.pc.Polling? || s.pc.Ended? ==> Covers(s.seen, |start.file|)
      ensures s.pc.Ended? <==> exists m: nat :: m < |steps| && SawItOver(run, steps, m)
    {
      taken := Stream(opens, opening, dump, turns, "nanoku deploy log stream");
      ChecksOfRun(start, run, steps, s);
    }

    method Start(opens: bool, opening: seq<Step>, dump: Look, comment: string)
      requires Valid() && s == start && s.pc.Opening? && steps == [] && frames == [] && tried == [] && OneLine(comment)
      modifies this, sw, cursor
      ensures Valid() && (SentEnd(s.pc) ==> EndSent())
      ensures s.pc.Polling? || s.pc.Ended? ==> |start.file| <= s.reach
      ensures Known(s.pc, steps, frames, tried, opens, dump, opening, [], comment, endText)
    {
      Begin(opens, opening, comment);
      if opens {
        Dump(dump, comment);
      }
      KnownFirst(s.pc, steps, frames, tried, opens, dump, opening, comment, endText);
    }

    /** A stream that stands where the claim says, and has sent the end marker if it is over. */
    ghost predicate At(claim: Claim, turns: seq<Turn>)
      reads this, sw, cursor
    {
      && Valid() && (SentEnd(s.pc) ==> EndSent()) && claim(turns, s.pc, steps, frames, tried)
      && (s.pc.Polling? || s.pc.Ended? ==> |start.file| <= s.reach)
    }

    method NextTurn(turns: seq<Turn>, taken: nat, ghost claim: Claim)
      requires taken < |turns| && At(claim, turns[..taken]) && s.pc.Polling? && Kept(claim, endText)
      modifies this, sw, cursor
      ensures At(claim, turns[..taken + 1])
    {
      ReachedSoFar();
      assert turns[..taken + 1] == turns[..taken] + [turns[taken]];
      TakeTurn(turns[taken]);
    }

    /** The loop. */
    method TakeTurns(turns: seq<Turn>, ghost claim: Claim) returns (taken: nat)
      requires At(claim, turns[..0]) && Kept(claim, endText)
      modifies this, sw, cursor
      ensures taken <= |turns| && At(claim, turns[..taken]) && (s.pc.Polling? ==> taken == |turns|)
    {
      taken := 0;
      while s.pc.Polling? && taken < |turns|
        invariant taken <= |turns| && At(claim, turns[..taken])
      {
        NextTurn(turns, taken, claim);
        taken := taken + 1;
      }
    }

    method Stream(opens: bool, opening: seq<Step>, dump: Look, turns: seq<Turn>, comment: string) returns (taken: nat)
      requires Valid() && s == start && s.pc.Opening? && steps == [] && frames == [] && tried == [] && OneLine(comment)
      modifies this, sw, cursor
      ensures Valid() && (SentEnd(s.pc) ==> EndSent()) && taken <= |turns| && (s.pc.Polling? ==> taken == |turns|)
      ensures s.pc.Polling? || s.pc.Ended? ==> |start.file| <= s.reach
      ensures Known(s.pc, steps, frames, tried, opens, dump, opening, turns[..taken], comment, endText)
    {
      taken := 0;
      Start(opens, opening, dump, comment);
      assert turns[..0] == [];
      if s.pc.Polling? {
        KnownKept(dump, opening, comment, endText);
        taken := TakeTurns(turns, KnownAfter(dump, opening, comment, endText));
      }
    }

    lemma ReachedSoFar()
      requires Valid()
      ensures s.reach <= |s.file|
    {
      ChecksOfRun(start, run, steps, s);
    }
  }

  // ---- what the client has -----------------------------------------------

  /** The stream's last look saw the whole log, and no read that raced with an append was followed by another. */
  ghost predicate Undisturbed(run: seq<State>, steps: seq<Step>, i: nat) {
    && !RereadBefore(run, steps, i)
    && forall m: nat :: LastLook(run, steps, i) <= m < i ==> !AppendsAt(steps, m)
  }

  lemma SeenInOrder(seen: seq<nat>, n: nat)
    ensures seen == Range(0, n) <==> Once(seen) && |seen| == n
  {}

  lemma OnceCovers(seen: seq<nat>, n: nat)
    requires Once(seen)
    ensures Covers(seen, n) <==> n <= |seen|
  {
    forall j: nat | j < n <= |seen| ensures j in seen {
      assert seen[j] == j;
    }
    CoveredIsWithin(seen, |seen|, n);
  }

  /** A stream that ended has sent every line of the log exactly once and in order if and only if it was undisturbed. */
  lemma EverythingOnceIff(run: seq<State>, steps: seq<Step>, i: nat)
    requires IsRun(run, steps) && i < |run| && run[i].pc.Ended?
    ensures run[i].seen == Range(0, |run[i].file|) <==> Undisturbed(run, steps, i)
    ensures Undisturbed(run, steps, i) ==> run[i].reach == |run[i].file|
  {
    var seen, n := run[i].seen, |run[i].file|;
    RunInv(run, steps, i);
    RunOnce(run, steps, i);
    EndIsCompleteIff(run, steps, i);
    SeenInOrder(seen, n);
    if Once(seen) {
      OnceCovers(seen, n);
    }
  }

  lemma WholeFileDelivered(run: seq<State>, steps: seq<Step>, i: nat)
    requires IsRun(run, steps) && i < |run| && run[i].pc.Ended? && Undisturbed(run, steps, i)
    ensures run[i].delivered == ParseLines(run[i].file).lines
  {
    var s := run[i];
    EverythingOnceIff(run, steps, i);
    RunInv(run, steps, i);
    ViewOfOneRead(run, steps, i);
    assert s.file[..s.reach] == s.file && s.file[0..] == s.file;
    ParseFrom(s.file, 0);
  }

  /**
   The worker logs deliverable entries while a stream tails the log, in any interleaving. If the stream then ends
   undisturbed, the client decodes exactly the entries from the bytes it was sent.
   */
  lemma LiveStreamDelivers(run: seq<State>, steps: seq<Step>, i: nat, entries: seq<Entry>, out: string,
                           frames: seq<Frame>)
    requires IsRun(run, steps) && i < |run| && run[i].pc.Ended? && Undisturbed(run, steps, i)
    requires run[i].file == RenderAll(entries) && AllDeliverable(entries)
    requires Sent(out, "", frames, run[i].delivered)
    ensures Received(Decode(out).events) == entries
  {
    WholeFileDelivered(run, steps, i);
    forall k | 0 <= k < |entries| ensures Survives(entries[k]) { DeliverableSurvives(entries[k]); }
    SurvivorsParse(entries);
    FileRoundTrip(entries);
    PolledTidy(entries);
    StreamDelivers(frames, run[i].delivered);
    ToAndFrom(entries);
    assert "" + Encode(frames) == Encode(frames);
  }
}
