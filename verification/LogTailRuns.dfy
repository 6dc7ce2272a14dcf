/** Two runs of a tailed log: a line that is never delivered, and a line that is delivered twice. */
module LogTailRuns {
  import opened Text
  import opened LogFormat
  import opened LogTail

  ghost predicate RunTo(run: seq<State>, steps: seq<Step>, s: State) {
    IsRun(run, steps) && run[|steps|] == s
  }

  lemma Extend(run: seq<State>, steps: seq<Step>, s: State, step: Step) returns (run': seq<State>, steps': seq<Step>)
    requires RunTo(run, steps, s) && Enabled(s, step)
    ensures RunTo(run', steps', Apply(s, step)) && run' == run + [Apply(s, step)] && steps' == steps + [step]
  {
    run', steps' := run + [Apply(s, step)], steps + [step];
    forall i | 0 <= i < |steps'|
      ensures Enabled(run'[i], steps'[i]) && run'[i + 1] == Apply(run'[i], steps'[i])
    {
      if i < |steps| {
        assert run'[i] == run[i] && run'[i + 1] == run[i + 1] && steps'[i] == steps[i];
        assert Enabled(run[i], steps[i]);
      }
    }
  }

  /** An open log of a deploy in flight, before the stream has opened it. */
  function Fresh(file: seq<string>): State {
    State(file, true, true, false, Opening, 0, [], 0, 0, 0, [])
  }

  /** The worker's only line is written after the last look and before the check. */
  lemma LineLostBeforeEnd()
    ensures exists run: seq<State>, steps: seq<Step> ::
              IsRun(run, steps) && run[|steps|].pc.Ended? && run[|steps|].file == ["x"] && run[|steps|].delivered == []
  {
    var s := Fresh([]);
    var run, steps := [s], [];
    run, steps := Extend(run, steps, s, Open(true));
    s := s.(pc := Polling);
    run, steps := Extend(run, steps, s, Stat);
    s := s.(pc := Checking);
    run, steps := Extend(run, steps, s, Append(["x"]));
    s := s.(file := ["x"]);
    run, steps := Extend(run, steps, s, CloseLog);
    s := s.(open := false);
    run, steps := Extend(run, steps, s, LeaveInflight);
    s := s.(inflight := false);
    run, steps := Extend(run, steps, s, Check);
    assert run[|steps|] == s.(pc := Ended);
  }

  lemma Sizes()
    ensures Bytes(["a"]) == 2 && Bytes(["a", "b"]) == 4
  {
    UnlinesCons("a", ["b"]);
    UnlinesOne("a");
    UnlinesOne("b");
    assert ["a"] + ["b"] == ["a", "b"];
  }

  const A: ReadLine := ReadLine("", "a")
  const B: ReadLine := ReadLine("", "b")

  lemma ParsesB()
    ensures ParseLines(["b"]) == Parsed([B], true)
  {
    ParseLinesCons("b", []);
    assert ["b"] + [] == ["b"] && Parsing("b") == [B];
  }

  lemma ParsesBoth()
    ensures ParseLines(["a", "b"]) == Parsed([A, B], true)
  {
    ParsesB();
    ParseLinesCons("a", ["b"]);
    assert ["a"] + ["b"] == ["a", "b"] && Parsing("a") == [A];
  }

  lemma PendingFrom(s: State, cut: nat)
    requires AllClean(s.file) && cut <= |s.file| && s.offset == Bytes(s.file[..cut])
    ensures Pending(s) == ParseLines(s.file[cut..])
  {
    ReadOn(s.file, cut);
  }

  /** The stream has statted the file at its first line. */
  function AtFirst(file: seq<string>): State {
    Fresh(file).(pc := Statted(2), marked := 1)
  }

  /** The cursor stands after the first of two lines, both of which have been delivered. */
  const AT_SECOND: State := State(["a", "b"], true, true, false, Polling, 2, [A, B], 1, 1, 2, [0, 1])

  lemma OpenAndStat()
    ensures Apply(Apply(Fresh(["a"]), Open(true)), Stat) == AtFirst(["a"])
  {
    Sizes();
  }

  lemma FirstAppend()
    ensures Apply(AtFirst(["a"]), Append(["b"])) == AtFirst(["a", "b"])
  {
    assert ["a"] + ["b"] == ["a", "b"];
  }

  lemma FirstPending()
    ensures Pending(AtFirst(["a", "b"])) == Parsed([A, B], true)
  {
    assert ["a", "b"][..0] == [] && ["a", "b"][0..] == ["a", "b"];
    PendingFrom(AtFirst(["a", "b"]), 0);
    ParsesBoth();
  }

  lemma ReadGives(s: State, lines: seq<ReadLine>, to: State)
    requires s.pc.Statted? && Pending(s) == Parsed(lines, true)
    requires to == s.(pc := HaveRead(s.pc.size), delivered := s.delivered + lines, reach := |s.file|,
                      seen := s.seen + Range(s.cut, |s.file|))
    ensures Apply(s, Read) == to
  {}

  lemma FirstRead()
    ensures Apply(AtFirst(["a", "b"]), Read) == AT_SECOND.(pc := HaveRead(2), offset := 0, cut := 0)
  {
    FirstPending();
    FirstReadState();
    ReadGives(AtFirst(["a", "b"]), [A, B], AT_SECOND.(pc := HaveRead(2), offset := 0, cut := 0));
  }

  lemma FirstReadState()
    ensures var s := AtFirst(["a", "b"]);
      AT_SECOND.(pc := HaveRead(2), offset := 0, cut := 0) ==
      s.(pc := HaveRead(s.pc.size), delivered := s.delivered + [A, B], reach := |s.file|,
         seen := s.seen + Range(s.cut, |s.file|))
  {
    assert [] + [A, B] == [A, B] && [] + Range(0, 2) == [0, 1];
  }

  lemma SecondStat()
    ensures Apply(AT_SECOND, Stat) == AT_SECOND.(pc := Statted(4), marked := 2)
    ensures AT_SECOND.offset == Bytes(AT_SECOND.file[..1]) && AT_SECOND.file[1..] == ["b"]
  {
    Sizes();
    assert ["a", "b"][..1] == ["a"];
  }

  lemma FirstPoll() returns (run: seq<State>, steps: seq<Step>)
    ensures RunTo(run, steps, AT_SECOND)
  {
    run, steps := [Fresh(["a"])], [];
    run, steps := Extend(run, steps, Fresh(["a"]), Open(true));
    OpenAndStat();
    run, steps := Extend(run, steps, Fresh(["a"]).(pc := Polling), Stat);
    FirstAppend();
    FirstRead();
    run, steps := Extend(run, steps, AtFirst(["a"]), Append(["b"]));
    run, steps := Extend(run, steps, AtFirst(["a", "b"]), Read);
    var s := AT_SECOND.(pc := HaveRead(2), offset := 0, cut := 0);
    run, steps := Extend(run, steps, s, Advance);
    run, steps := Extend(run, steps, AT_SECOND.(pc := Checking), Check);
  }

  /** The worker appends between the Stat and the end of the read, and the next poll reads the line again. */
  lemma LineDeliveredTwice()
    ensures exists run: seq<State>, steps: seq<Step> ::
              IsRun(run, steps) && run[|steps|].file == ["a", "b"] && run[|steps|].delivered == [A, B, B]
  {
    var run, steps := FirstPoll();
    SecondStat();
    run, steps := Extend(run, steps, AT_SECOND, Stat);
    var s := AT_SECOND.(pc := Statted(4), marked := 2);
    PendingFrom(s, 1);
    ParsesB();
    run, steps := Extend(run, steps, s, Read);
    assert run[|steps|].file == ["a", "b"] && run[|steps|].delivered == [A, B, B];
  }
}
