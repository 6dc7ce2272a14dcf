/** What a client of a tailed log has when it gets the end marker. */
module LogTailEnd {
  import opened LogTail
  import opened LogTailOnce

  /** The poll saw the file's end: it read up to it, or the Stat found nothing new. */
  ghost predicate LooksAt(run: seq<State>, steps: seq<Step>, m: nat) {
    ReadsAt(run, steps, m) || (m < |steps| && m < |run| && steps[m].Stat? && Bytes(run[m].file) == run[m].offset)
  }

  ghost predicate AppendsAt(steps: seq<Step>, m: nat) {
    m < |steps| && steps[m].Append?
  }

  /** The last look before step i, or -1. */
  ghost function LastLook(run: seq<State>, steps: seq<Step>, i: nat): (o: int)
    ensures -1 <= o < i
  {
    if i == 0 then -1 else if LooksAt(run, steps, i - 1) then i - 1 else LastLook(run, steps, i - 1)
  }

  predicate NeedsLook(pc: Pc) {
    pc.Opening? || pc.Polling? || pc.Statted?
  }

  ghost predicate LookOk(run: seq<State>, s: State, o: int) {
    if o < 0 then NotLooked(s)
    else o < |run| && s.reach == |run[o].file|
  }

  /** Only a look moves the reach, and it moves it to the end of the file. */
  lemma NextReach(s: State, step: Step)
    requires Inv(s) && Enabled(s, step)
    ensures Apply(s, step).reach == if step.Read? && Pending(s).ok then |s.file| else s.reach
    ensures step.Stat? && Bytes(s.file) == s.offset ==> s.reach == |s.file|
  {
    if step.Stat? {
      BoundaryBySize(s.file, s.cut);
    }
  }

  predicate NotLooked(s: State) {
    s.reach == 0 && s.cut == 0 && (NeedsLook(s.pc) || !MayRead(s.pc))
  }

  lemma StillNotLooked(s: State, step: Step)
    requires Enabled(s, step) && NotLooked(s)
    requires !(step.Read? && Pending(s).ok) && !(step.Stat? && Bytes(s.file) == s.offset)
    ensures NotLooked(Apply(s, step))
  {}

  lemma StepLook(run: seq<State>, steps: seq<Step>, m: nat)
    requires IsRun(run, steps) && m < |steps| && LookOk(run, run[m], LastLook(run, steps, m))
    ensures LookOk(run, run[m + 1], LastLook(run, steps, m + 1))
  {
    RunInv(run, steps, m);
    NextReach(run[m], steps[m]);
    if LastLook(run, steps, m + 1) < 0 {
      StillNotLooked(run[m], steps[m]);
    }
  }

  lemma {:induction false} RunLook(run: seq<State>, steps: seq<Step>, i: nat)
    requires IsRun(run, steps) && i < |run|
    ensures LookOk(run, run[i], LastLook(run, steps, i))
  {
    if i > 0 {
      RunLook(run, steps, i - 1);
      StepLook(run, steps, i - 1);
    }
  }

  /** The file grows by appends only. */
  lemma {:induction false} FileSteady(run: seq<State>, steps: seq<Step>, o: nat, i: nat)
    requires IsRun(run, steps) && o <= i < |run|
    ensures run[o].file <= run[i].file
    ensures |run[i].file| == |run[o].file| <==> forall m: nat :: o <= m < i ==> !AppendsAt(steps, m)
    decreases i
  {
    if o < i {
      FileSteady(run, steps, o, i - 1);
      assert Enabled(run[i - 1], steps[i - 1]);
      if AppendsAt(steps, i - 1) {
        assert |run[i].file| > |run[i - 1].file|;
      } else {
        assert run[i].file == run[i - 1].file;
      }
    }
  }

  predicate SentEnd(pc: Pc) {
    pc.Ended? || pc.Failed?
  }

  /** The lines in the file at the last look: none if there was no look. */
  ghost function LookedAt(run: seq<State>, o: int): nat
    requires o < |run|
  {
    if o < 0 then 0 else |run[o].file|
  }

  /** Nothing was appended from o on; without a look, there was nothing to see. */
  ghost predicate NothingSince(run: seq<State>, steps: seq<Step>, o: int, i: nat)
    requires i < |run|
  {
    if o < 0 then run[i].file == [] else forall m: nat :: o <= m < i ==> !AppendsAt(steps, m)
  }

  /**
   When the stream sends its end marker, because the deploy is over or because the open or a poll failed, it has
   delivered the file as of its last look, and that is the whole file if and only if nothing was appended between that
   look and the end. When the deploy is over there was a look; but the check comes after it, so the worker can append,
   close and leave in between.
   */
  lemma EndIsCompleteIff(run: seq<State>, steps: seq<Step>, i: nat)
    requires IsRun(run, steps) && i < |run| && SentEnd(run[i].pc)
    ensures var o := LastLook(run, steps, i);
      && (run[i].pc.Ended? ==> 0 <= o)
      && Within(run[i].seen, LookedAt(run, o)) && Covers(run[i].seen, LookedAt(run, o))
      && LookedAt(run, o) <= |run[i].file| && run[i].delivered == LinesAt(run[i].file, run[i].seen)
      && (Covers(run[i].seen, |run[i].file|) <==> NothingSince(run, steps, o, i))
  {
    RunInv(run, steps, i);
    RunLook(run, steps, i);
    var o := LastLook(run, steps, i);
    if 0 <= o {
      FileSteady(run, steps, o, i);
    }
    CoveredIsWithin(run[i].seen, LookedAt(run, o), |run[i].file|);
  }

  lemma CoveredIsWithin(seen: seq<nat>, reach: nat, n: nat)
    requires Within(seen, reach)
    ensures Covers(seen, n) ==> n <= reach
  {
    assert reach < n && Covers(seen, n) ==> reach in seen;
  }

  lemma EndedStays(s: State, step: Step)
    requires Enabled(s, step)
    ensures s.pc.Ended? ==> Apply(s, step).pc.Ended?
    ensures !s.pc.Ended? ==> (Apply(s, step).pc.Ended? <==> step.Check? && !s.inflight)
    ensures step.Check? ==> !s.pc.Ended?
  {}

  ghost predicate SawItOver(run: seq<State>, steps: seq<Step>, m: nat) {
    m < |steps| && m < |run| && steps[m].Check? && !run[m].inflight
  }

  /** A stream has ended exactly if one of its checks has found the deploy no longer in flight. */
  lemma {:induction false} EndedIff(run: seq<State>, steps: seq<Step>, i: nat)
    requires IsRun(run, steps) && i < |run|
    ensures run[i].pc.Ended? <==> exists m: nat :: m < i && SawItOver(run, steps, m)
  {
    if i > 0 {
      EndedIff(run, steps, i - 1);
      assert Enabled(run[i - 1], steps[i - 1]);
      EndedStays(run[i - 1], steps[i - 1]);
      if SawItOver(run, steps, i - 1) {
        assert run[i].pc.Ended?;
      }
    }
  }

  lemma ClosedStays(s: State, step: Step)
    requires !s.open && s.pc.Ended? && Enabled(s, step)
    ensures var t := Apply(s, step); !t.open && t.pc.Ended? && t.file == s.file && t.seen == s.seen
  {}

  lemma {:induction false} ClosedForever(run: seq<State>, steps: seq<Step>, i: nat, k: nat)
    requires IsRun(run, steps) && i <= k < |run| && !run[i].open && run[i].pc.Ended?
    ensures !run[k].open && run[k].pc.Ended? && run[k].file == run[i].file && run[k].seen == run[i].seen
    decreases k
  {
    if i < k {
      ClosedForever(run, steps, i, k - 1);
      ClosedStays(run[k - 1], steps[k - 1]);
    }
  }

  /** Before the drain, the log of an ended stream never grows again: what the stream missed stays missed. */
  lemma NothingAfterEnd(run: seq<State>, steps: seq<Step>, i: nat, k: nat)
    requires IsRun(run, steps) && i <= k < |run| && run[i].pc.Ended? && !run[i].drained
    ensures run[k].file == run[i].file && run[k].seen == run[i].seen
  {
    RunInv(run, steps, i);
    ClosedForever(run, steps, i, k);
  }
}
