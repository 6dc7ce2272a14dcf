/** What a client sees of a tailed log when it keeps the latest line of each key. */
module LogTailView {
  import opened Collections
  import opened LogFormat
  import opened LogTail

  /** The rows of keyed lines: their order of appearance and their latest text. */
  datatype View = View(order: seq<string>, text: map<string, string>)

  function ShowLine(v: View, l: ReadLine): View {
    if l.key == "" then v
    else View(if l.key in v.text then v.order else v.order + [l.key], v.text[l.key := l.msg])
  }

  function Show(v: View, lines: seq<ReadLine>): View
    decreases |lines|
  {
    if lines == [] then v else Show(ShowLine(v, lines[0]), lines[1..])
  }

  const BLANK: View := View([], map[])

  lemma {:induction false} ShowAppend(v: View, a: seq<ReadLine>, b: seq<ReadLine>)
    ensures Show(v, a + b) == Show(Show(v, a), b)
    decreases |a|
  {
    if a == [] {
      assert a + b == b;
    } else {
      assert (a + b)[0] == a[0] && (a + b)[1..] == a[1..] + b;
      ShowAppend(ShowLine(v, a[0]), a[1..], b);
    }
  }

  /** The texts a list of lines leaves behind do not depend on the rows before it. */
  lemma {:induction false} ShowText(v: View, lines: seq<ReadLine>)
    ensures Show(v, lines).text == v.text + Show(BLANK, lines).text
    decreases |lines|
  {
    if lines != [] {
      var n := |lines| - 1;
      ShowText(v, lines[..n]);
      assert lines == lines[..n] + [lines[n]];
      ShowAppend(v, lines[..n], [lines[n]]);
      ShowAppend(BLANK, lines[..n], [lines[n]]);
      ShowOne(Show(v, lines[..n]), lines[n]);
      ShowOne(Show(BLANK, lines[..n]), lines[n]);
    }
  }

  lemma ShowOne(v: View, l: ReadLine)
    ensures Show(v, [l]) == ShowLine(v, l)
  {
    assert [l][1..] == [];
  }

  predicate KeysKnown(v: View, lines: seq<ReadLine>) {
    forall k :: 0 <= k < |lines| && lines[k].key != "" ==> lines[k].key in v.text
  }

  lemma {:induction false} ShowKnowsKeys(v: View, lines: seq<ReadLine>)
    ensures KeysKnown(Show(v, lines), lines) && v.text.Keys <= Show(v, lines).text.Keys
    decreases |lines|
  {
    if lines != [] {
      ShowKnowsKeys(ShowLine(v, lines[0]), lines[1..]);
    }
  }

  lemma {:induction false} KnownKeepOrder(v: View, lines: seq<ReadLine>)
    requires KeysKnown(v, lines)
    ensures Show(v, lines).order == v.order
    decreases |lines|
  {
    if lines != [] {
      KnownKeepOrder(ShowLine(v, lines[0]), lines[1..]);
    }
  }

  /** Showing the same lines again changes nothing. */
  lemma Replay(v: View, lines: seq<ReadLine>)
    ensures Show(Show(v, lines), lines) == Show(v, lines)
  {
    var w := Show(v, lines);
    ShowKnowsKeys(v, lines);
    KnownKeepOrder(w, lines);
    ShowText(v, lines);
    ShowText(w, lines);
  }

  predicate AllShort(lines: seq<string>) {
    forall k :: 0 <= k < |lines| ==> |lines[k]| < MAX_LINE
  }

  lemma {:induction false} ParseOkIff(raw: seq<string>)
    ensures ParseLines(raw).ok <==> AllShort(raw)
  {
    if raw != [] {
      ParseOkIff(raw[1..]);
    }
  }

  /** The lines from lo up to hi as one read gives them. */
  function Span(file: seq<string>, lo: nat, hi: nat): seq<ReadLine>
    requires hi <= |file|
  {
    LinesAt(file, Range(lo, hi))
  }

  lemma SpanSplit(file: seq<string>, lo: nat, mid: nat, hi: nat)
    requires lo <= mid <= hi <= |file|
    ensures Span(file, lo, hi) == Span(file, lo, mid) + Span(file, mid, hi)
  {
    assert Range(lo, hi) == Range(lo, mid) + Range(mid, hi);
    LinesAtAppend(file, Range(lo, mid), Range(mid, hi));
  }

  /** Reading on from cut after everything up to reach shows what one read up to n shows. */
  lemma OverlapShows(file: seq<string>, cut: nat, reach: nat, n: nat)
    requires cut <= reach <= n <= |file|
    ensures Show(Show(BLANK, Span(file, 0, reach)), Span(file, cut, n)) == Show(BLANK, Span(file, 0, n))
  {
    var a, m, more := Span(file, 0, cut), Span(file, cut, reach), Span(file, reach, n);
    SpanSplit(file, 0, cut, reach);
    SpanSplit(file, cut, reach, n);
    SpanSplit(file, 0, reach, n);
    ShowAppend(BLANK, a, m);
    Replay(Show(BLANK, a), m);
    ShowAppend(Show(BLANK, a + m), m, more);
    ShowAppend(BLANK, a + m, more);
  }

  ghost predicate ViewOk(file: seq<string>, delivered: seq<ReadLine>, reach: nat) {
    && reach <= |file| && AllShort(file[..reach])
    && Show(BLANK, delivered) == Show(BLANK, Span(file, 0, reach))
  }

  lemma ShortJoin(file: seq<string>, cut: nat, reach: nat)
    requires cut <= reach <= |file| && AllShort(file[..reach]) && AllShort(file[cut..])
    ensures AllShort(file[..|file|])
  {
    forall k | 0 <= k < |file| ensures |file[k]| < MAX_LINE {
      if k < reach {
        assert file[..reach][k] == file[k];
      } else {
        assert file[cut..][k - cut] == file[k];
      }
    }
  }

  lemma ReadView(s: State)
    requires Inv(s) && Enabled(s, Read) && ViewOk(s.file, s.delivered, s.reach) && Pending(s).ok
    ensures ViewOk(s.file, s.delivered + Pending(s).lines, |s.file|)
  {
    ReadInv(s);
    ParseOkIff(s.file[s.cut..]);
    ShortJoin(s.file, s.cut, s.reach);
    ParseFrom(s.file, s.cut);
    ShowAppend(BLANK, s.delivered, Pending(s).lines);
    OverlapShows(s.file, s.cut, s.reach, |s.file|);
  }

  lemma AppendView(s: State, lines: seq<string>)
    requires Inv(s) && Enabled(s, Append(lines)) && ViewOk(s.file, s.delivered, s.reach)
    ensures ViewOk(s.file + lines, s.delivered, s.reach)
  {
    Prefix(s.file, lines, s.reach);
    LinesAtGrows(s.file, lines, Range(0, s.reach));
  }

  lemma NextView(run: seq<State>, steps: seq<Step>, m: nat)
    requires IsRun(run, steps) && m < |steps| && ViewOk(run[m].file, run[m].delivered, run[m].reach)
    ensures ViewOk(run[m + 1].file, run[m + 1].delivered, run[m + 1].reach)
  {
    RunInv(run, steps, m);
    assert Enabled(run[m], steps[m]);
    match steps[m] {
      case Read => if Pending(run[m]).ok { ReadView(run[m]); }
      case Append(lines) => AppendView(run[m], lines);
      case _ =>
    }
  }

  lemma {:induction false} RunView(run: seq<State>, steps: seq<Step>, i: nat)
    requires IsRun(run, steps) && i < |run|
    ensures ViewOk(run[i].file, run[i].delivered, run[i].reach)
  {
    if i > 0 {
      RunView(run, steps, i - 1);
      NextView(run, steps, i - 1);
    }
  }

  /** Even when polls overlap, the rows by key are those of one full read of the same prefix of the file. */
  lemma ViewOfOneRead(run: seq<State>, steps: seq<Step>, i: nat)
    requires IsRun(run, steps) && i < |run|
    ensures var s := run[i];
      && s.reach <= |s.file| && Covers(s.seen, s.reach)
      && ParseLines(s.file[..s.reach]).ok
      && Show(BLANK, s.delivered) == Show(BLANK, ParseLines(s.file[..s.reach]).lines)
  {
    var s := run[i];
    RunInv(run, steps, i);
    RunView(run, steps, i);
    ParseOkIff(s.file[..s.reach]);
    ParseFrom(s.file[..s.reach], 0);
    assert s.file[..s.reach][0..] == s.file[..s.reach];
    LinesAtGrows(s.file[..s.reach], s.file[s.reach..], Range(0, s.reach));
    Rejoin(s.file, s.reach);
  }
}
