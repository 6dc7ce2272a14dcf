/** When a tailed log is delivered line by line exactly once. */
module LogTailOnce {
  import opened LogTail

  ghost predicate ReadsAt(run: seq<State>, steps: seq<Step>, m: nat) {
    m < |steps| && m < |run| && steps[m].Read? && Pending(run[m]).ok
  }

  /** The worker appended between this read's Stat and its end of file. */
  ghost predicate RacesAt(run: seq<State>, steps: seq<Step>, m: nat) {
    ReadsAt(run, steps, m) && run[m].pc.Statted? && Bytes(run[m].file) != run[m].pc.size
  }

  ghost predicate RacedBefore(run: seq<State>, steps: seq<Step>, i: nat) {
    exists m: nat :: m < i && RacesAt(run, steps, m)
  }

  ghost predicate RereadBefore(run: seq<State>, steps: seq<Step>, i: nat) {
    exists m1: nat, m2: nat :: m1 < m2 < i && RacesAt(run, steps, m1) && ReadsAt(run, steps, m2)
  }

  /** The k-th delivered line is line k of the file. */
  predicate Once(seen: seq<nat>) {
    forall k :: 0 <= k < |seen| ==> seen[k] == k
  }

  /** The cursor is, or is about to be, at the end of what has been read. */
  predicate CaughtUp(s: State) {
    (if s.pc.HaveRead? then s.marked else s.cut) == s.reach
  }

  /** The stream has not failed, nor lost its client. */
  predicate MayRead(pc: Pc) {
    !pc.Failed? && !pc.Gone?
  }

  ghost predicate OnceInv(s: State, raced: bool, reread: bool) {
    if reread then !Once(s.seen)
    else Once(s.seen) && |s.seen| == s.reach && (MayRead(s.pc) ==> (CaughtUp(s) <==> !raced))
  }

  lemma OnceExtends(seen: seq<nat>, cut: nat, n: nat)
    ensures Once(seen + Range(cut, n)) ==> Once(seen)
    ensures Once(seen) && cut <= |seen| <= n ==> (Once(seen + Range(cut, n)) <==> cut == |seen|)
  {
    var r := Range(cut, n);
    var all := seen + r;
    assert forall k :: 0 <= k < |seen| ==> all[k] == seen[k];
    assert forall k :: |seen| <= k < |all| ==> all[k] == r[k - |seen|];
    if cut < |seen| <= n {
      assert all[|seen|] == cut;
    }
  }

  lemma ReadOnce(s: State, raced: bool, reread: bool)
    requires Inv(s) && Enabled(s, Read) && OnceInv(s, raced, reread) && Pending(s).ok
    ensures OnceInv(Apply(s, Read), raced || Bytes(s.file) != s.pc.size, reread || raced)
  {
    OnceExtends(s.seen, s.cut, |s.file|);
    BoundaryBySize(s.file, s.marked);
  }

  lemma StepOnce(s: State, step: Step, raced: bool, reread: bool)
    requires Inv(s) && Enabled(s, step) && OnceInv(s, raced, reread) && !(step.Read? && Pending(s).ok)
    ensures OnceInv(Apply(s, step), raced, reread)
  {}

  lemma OneMoreRace(run: seq<State>, steps: seq<Step>, m: nat)
    ensures RacedBefore(run, steps, m + 1) <==> RacedBefore(run, steps, m) || RacesAt(run, steps, m)
  {
    if RacedBefore(run, steps, m) || RacesAt(run, steps, m) {
      var k: nat :| k < m + 1 && RacesAt(run, steps, k);
    }
  }

  lemma OneMoreReread(run: seq<State>, steps: seq<Step>, m: nat)
    ensures RereadBefore(run, steps, m + 1) <==>
            RereadBefore(run, steps, m) || (RacedBefore(run, steps, m) && ReadsAt(run, steps, m))
  {
    if RacedBefore(run, steps, m) && ReadsAt(run, steps, m) {
      var k: nat :| k < m && RacesAt(run, steps, k);
      assert k < m < m + 1;
    }
  }

  lemma NextOnce(run: seq<State>, steps: seq<Step>, m: nat, raced: bool, reread: bool)
    requires IsRun(run, steps) && m < |steps| && OnceInv(run[m], raced, reread)
    ensures OnceInv(run[m + 1], raced || RacesAt(run, steps, m), reread || (raced && ReadsAt(run, steps, m)))
  {
    RunInv(run, steps, m);
    if ReadsAt(run, steps, m) {
      ReadOnce(run[m], raced, reread);
    } else {
      StepOnce(run[m], steps[m], raced, reread);
    }
  }

  ghost predicate OnceAt(run: seq<State>, steps: seq<Step>, i: nat) {
    i < |run| && OnceInv(run[i], RacedBefore(run, steps, i), RereadBefore(run, steps, i))
  }

  lemma NextOnceAt(run: seq<State>, steps: seq<Step>, m: nat)
    requires IsRun(run, steps) && m < |steps| && OnceAt(run, steps, m)
    ensures OnceAt(run, steps, m + 1)
  {
    OneMoreRace(run, steps, m);
    OneMoreReread(run, steps, m);
    NextOnce(run, steps, m, RacedBefore(run, steps, m), RereadBefore(run, steps, m));
  }

  lemma {:induction false} RunOnce(run: seq<State>, steps: seq<Step>, i: nat)
    requires IsRun(run, steps) && i < |run|
    ensures OnceAt(run, steps, i)
  {
    if i > 0 {
      RunOnce(run, steps, i - 1);
      NextOnceAt(run, steps, i - 1);
    } else {
      assert Once(run[0].seen);
    }
  }

  /**
   Every line so far exactly once, in order, if and only if no read that raced with an append was followed by
   another.
   */
  lemma ExactlyOnceIff(run: seq<State>, steps: seq<Step>, i: nat)
    requires IsRun(run, steps) && i < |run|
    ensures Once(run[i].seen) <==> !RereadBefore(run, steps, i)
  {
    RunOnce(run, steps, i);
  }
}
