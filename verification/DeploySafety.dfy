/** What the invariant gives over whole runs of the deploy protocol. */
module DeploySafety {
  import opened Wrappers
  import opened DeployProtocol
  import opened DeployInvariant
  import opened DeployPreservation

  lemma {:induction false} RunInv(run: seq<State>, steps: seq<Step>, i: nat)
    requires IsRun(run, steps) && i < |run|
    ensures Inv(run[i])
  {
    if i == 0 {
      InitInv(run[0]);
    } else {
      RunInv(run, steps, i - 1);
      StepInv(run[i - 1], steps[i - 1]);
    }
  }

  // ---- the per-app lock --------------------------------------------------

  predicate Owns(s: State, o: Owner, a: AppId) {
    Holds(s.handlers, LockHolders(s.workers), o, a)
  }

  ghost predicate Unowned(s: State, a: AppId) {
    forall o :: !Owns(s, o, a)
  }

  /** An app is busy exactly when one process, and only one, holds its lock; acquires and releases balance. */
  lemma MutualExclusion(run: seq<State>, steps: seq<Step>, i: nat, a: AppId)
    requires IsRun(run, steps) && i < |run|
    ensures var s := run[i];
      && (a in s.busy <==> exists o :: Owns(s, o, a))
      && (forall o1, o2 | Owns(s, o1, a) && Owns(s, o2, a) :: o1 == o2)
      && s.acquired[a] == s.released[a] + (if a in s.busy then 1 else 0)
  {
    var s := run[i];
    RunInv(run, steps, i);
    if a in s.busy {
      assert Owns(s, s.owner[a], a);
    }
    assert multiset(s.busy)[a] == if a in s.busy then 1 else 0;
  }

  /** The process a step belongs to, when it may run a release. */
  function Releaser(step: Step): Option<Owner> {
    match step
    case InsertFails(r) => Some(ByRequest(r))
    case Work(d, _) => Some(ByWorker(d))
    case _ => None
  }

  /** What one worker's step cannot do to the rest. */
  ghost predicate WorkerFrame(s: State, t: State, d: DeployId) {
    && s.containers.Keys <= t.containers.Keys
    && (forall x :: x in s.deploys ==>
          x in t.deploys && (t.deploys[x].status == s.deploys[x].status || (x == d && Terminal(t.deploys[x].status))))
    && (forall x :: x != d ==> LinesOf(t.log, x) == LinesOf(s.log, x))
  }

  lemma DeferredFrame(s: State, d: DeployId, w: Worker, call: Deferred, partialLine: bool, dbOk: bool)
    requires d in s.workers
    ensures var t := RunDeferred(s, d, w, call, partialLine, dbOk);
      && WorkerFrame(s, t, d)
      && (t.busy == if call.ReleaseLock? then s.busy - {w.app} else s.busy)
      && (!w.logOpen ==> LinesOf(t.log, d) == LinesOf(s.log, d))
  {}

  lemma EffectFrame(s: State, d: DeployId, w: Worker, e: WorkerStep)
    requires d in s.workers && WorkEnabled(s, w, e) && StackOk(w)
    ensures var t := Effect(s, d, w, e);
      && WorkerFrame(s, t, d)
      && (t.busy == s.busy || (HoldsLock(w) && t.busy == s.busy - {w.app}))
      && (!w.logOpen && !e.OpenLog? ==> LinesOf(t.log, d) == LinesOf(s.log, d))
  {
    if e.Unwind? {
      var n := |w.defers| - 1;
      assert w.defers[n] == DEFER_ORDER[n];
      DeferredFrame(s, d, w, w.defers[n], e.partialLine, e.dbOk);
    }
  }

  lemma StepReleases(s: State, step: Step, a: AppId)
    requires Inv(s) && Enabled(s, step)
    requires a in s.busy && a !in Apply(s, step).busy
    ensures Releaser(step).Some? && Owns(s, Releaser(step).value, a)
  {
    if step.Work? {
      assert ProgressOk(s.workers[step.deploy], s.nextContainer);
      EffectFrame(s, step.deploy, s.workers[step.deploy], step.work);
    }
  }

  /** A lock is freed only by its own holder, and nobody holds it afterwards. */
  lemma ReleasedByItsHolder(run: seq<State>, steps: seq<Step>, i: nat, a: AppId)
    requires IsRun(run, steps) && i < |steps|
    requires a in run[i].busy && a !in run[i + 1].busy
    ensures Releaser(steps[i]).Some? && Owns(run[i], Releaser(steps[i]).value, a)
    ensures Unowned(run[i + 1], a)
  {
    RunInv(run, steps, i);
    RunInv(run, steps, i + 1);
    StepReleases(run[i], steps[i], a);
  }

  // ---- deploy rows -------------------------------------------------------

  /** Running, and not because a status write was lost or a previous process died. */
  predicate LiveRow(s: State, d: DeployId, a: AppId) {
    d in s.deploys && s.deploys[d].status.DRunning? && s.deploys[d].app == Some(a) && d !in s.lost
  }

  /** An app has at most one live running row, and the process that will settle it holds the app's lock. */
  lemma OneRunningRow(run: seq<State>, steps: seq<Step>, i: nat, a: AppId, d1: DeployId, d2: DeployId)
    requires IsRun(run, steps) && i < |run|
    requires LiveRow(run[i], d1, a) && LiveRow(run[i], d2, a)
    ensures d1 == d2
    ensures a in run[i].busy && a in run[i].owner
    ensures run[i].owner[a] == ByWorker(d1)
         || (run[i].owner[a].ByRequest? && InsertedBy(run[i].handlers, run[i].owner[a].request, d1))
  {
    RunInv(run, steps, i);
    var o1 := SettlerHolds(run[i], d1, a);
    var o2 := SettlerHolds(run[i], d2, a);
  }

  lemma SettlerHolds(s: State, d: DeployId, a: AppId) returns (o: Owner)
    requires Inv(s) && LiveRow(s, d, a)
    ensures Owns(s, o, a)
    ensures o == ByWorker(d) || (o.ByRequest? && InsertedBy(s.handlers, o.request, d))
  {
    assert Pending(s.handlers, s.workers, d);
    if r :| InsertedBy(s.handlers, r, d) {
      o := ByRequest(r);
      assert RowOf(s.deploys, d, s.handlers[r].app);
    } else {
      o := ByWorker(d);
      assert ProgressOk(s.workers[d], s.nextContainer);
      assert RowOf(s.deploys, d, s.workers[d].app);
    }
  }

  /** Every worker exit, by return or by panic, settles its row before it gives the lock back, or loses a write. */
  lemma SettledOrLost(run: seq<State>, steps: seq<Step>, i: nat, d: DeployId)
    requires IsRun(run, steps) && i < |run|
    requires d in run[i].workers && run[i].workers[d].pc.Unwinding? && |run[i].workers[d].defers| <= 2
    ensures d in run[i].deploys && (Terminal(run[i].deploys[d].status) || d in run[i].lost)
  {
    var s := run[i];
    RunInv(run, steps, i);
    assert ProgressOk(s.workers[d], s.nextContainer);
    assert RowOf(s.deploys, d, s.workers[d].app);
    assert !exists r :: InsertedBy(s.handlers, r, d);
  }

  lemma WorkKeepsRows(s: State, d: DeployId, e: WorkerStep, x: DeployId)
    requires d in s.workers && StackOk(s.workers[d]) && WorkEnabled(s, s.workers[d], e) && x in s.deploys
    ensures var t := WorkApply(s, d, s.workers[d], e);
      x in t.deploys && (t.deploys[x].status == s.deploys[x].status || Terminal(t.deploys[x].status))
  {
    EffectFrame(s, d, s.workers[d], e);
  }

  lemma StepKeepsRows(s: State, step: Step, d: DeployId)
    requires Inv(s) && Enabled(s, step) && d in s.deploys
    ensures var t := Apply(s, step);
      d in t.deploys && (t.deploys[d].status == s.deploys[d].status || Terminal(t.deploys[d].status))
  {
    if step.Work? {
      assert ProgressOk(s.workers[step.deploy], s.nextContainer);
      WorkKeepsRows(s, step.deploy, step.work, d);
    }
  }

  lemma RunKeepsRows(run: seq<State>, steps: seq<Step>, i: nat, d: DeployId)
    requires IsRun(run, steps) && i < |steps| && d in run[i].deploys
    ensures d in run[i + 1].deploys
    ensures run[i + 1].deploys[d].status == run[i].deploys[d].status || Terminal(run[i + 1].deploys[d].status)
  {
    RunInv(run, steps, i);
    StepKeepsRows(run[i], steps[i], d);
  }

  /** No step, the drain's placeholder and late workers included, moves a row back from a terminal status. */
  lemma {:induction false} TerminalIsForever(run: seq<State>, steps: seq<Step>, i: nat, j: nat, d: DeployId)
    requires IsRun(run, steps) && i <= j < |run|
    requires d in run[i].deploys && Terminal(run[i].deploys[d].status)
    ensures d in run[j].deploys && Terminal(run[j].deploys[d].status)
    decreases j
  {
    if i < j {
      TerminalIsForever(run, steps, i, j - 1, d);
      RunKeepsRows(run, steps, j - 1, d);
    }
  }

  // ---- the current edge --------------------------------------------------

  /** The set-current step never meets a container that already holds its app's one-to-one edge. */
  lemma SetCurrentFindsFreeEdge(run: seq<State>, steps: seq<Step>, i: nat, d: DeployId)
    requires IsRun(run, steps) && i < |run|
    requires d in run[i].workers && run[i].workers[d].pc.Linking?
    ensures run[i].workers[d].container.Some?
    ensures EdgeFree(run[i].containers, run[i].workers[d].app, run[i].workers[d].container.value)
  {
    var s := run[i];
    RunInv(run, steps, i);
    NothingCurrent(s, d);
    assert ProgressOk(s.workers[d], s.nextContainer) && IsLinking(s.workers[d]);
  }

  /** From a worker's clear to its release, the app's current container is none or the row it created. */
  lemma OnlyOwnRowIsCurrent(run: seq<State>, steps: seq<Step>, i: nat, d: DeployId, c: ContainerId)
    requires IsRun(run, steps) && i < |run|
    requires d in run[i].workers && run[i].workers[d].cleared && HoldsLock(run[i].workers[d])
    requires c in run[i].containers && run[i].containers[c].currentFor == Some(run[i].workers[d].app)
    ensures run[i].workers[d].container == Some(c)
  {
    RunInv(run, steps, i);
    assert WindowOk(run[i].containers, run[i].workers[d]);
  }

  /** The look-up of the old container comes after the clear: it finds nothing, and the retire branch never runs. */
  lemma RetireBranchIsDead(run: seq<State>, steps: seq<Step>, i: nat, d: DeployId)
    requires IsRun(run, steps) && i < |run| && d in run[i].workers
    ensures run[i].workers[d].retiree.None?
    ensures forall found :: WorkEnabled(run[i], run[i].workers[d], InspectCurrent(found)) ==> found.None?
  {
    var s := run[i];
    RunInv(run, steps, i);
    assert ProgressOk(s.workers[d], s.nextContainer);
    forall found | WorkEnabled(s, s.workers[d], InspectCurrent(found)) ensures found.None? {
      InspectInv(s, d, found);
    }
  }

  predicate IsCurrent(s: State, c: ContainerId) {
    c in s.containers && s.containers[c].currentFor.Some?
  }

  lemma EffectLinks(s: State, d: DeployId, w: Worker, e: WorkerStep, c: ContainerId)
    requires WorkEnabled(s, w, e)
    requires IsCurrent(Effect(s, d, w, e), c) && !IsCurrent(s, c)
    ensures e.LinkCurrent? && w.container == Some(c)
  {}

  /** A row becomes current only when the worker that inserted it links it. */
  lemma StepLinks(s: State, step: Step, c: ContainerId)
    requires Enabled(s, step)
    ensures IsCurrent(Apply(s, step), c) && !IsCurrent(s, c) ==>
      step.Work? && step.work.LinkCurrent? && s.workers[step.deploy].container == Some(c)
  {
    if step.Work? && IsCurrent(Apply(s, step), c) && !IsCurrent(s, c) {
      EffectLinks(s, step.deploy, s.workers[step.deploy], step.work, c);
    }
  }

  lemma LinkInWindow(s: State, step: Step, d: DeployId, c: ContainerId)
    requires Inv(s) && Enabled(s, step)
    requires d in s.workers && s.workers[d].cleared && HoldsLock(s.workers[d])
    requires IsCurrent(Apply(s, step), c) && !IsCurrent(s, c)
    requires Apply(s, step).containers[c].currentFor == Some(s.workers[d].app)
    ensures step == Work(d, LinkCurrent)
  {
    StepLinks(s, step, c);
    var e := step.deploy;
    BodyDepth(s.workers[e], s.nextContainer);
    OneHolder(s, d, e);
  }

  /** While a worker is in its window, nobody else makes a container current for its app. */
  lemma OnlyTheWorkerLinks(run: seq<State>, steps: seq<Step>, i: nat, d: DeployId, c: ContainerId)
    requires IsRun(run, steps) && i < |steps|
    requires d in run[i].workers && run[i].workers[d].cleared && HoldsLock(run[i].workers[d])
    ensures IsCurrent(run[i + 1], c) && !IsCurrent(run[i], c)
            && run[i + 1].containers[c].currentFor == Some(run[i].workers[d].app)
            ==> steps[i] == Work(d, LinkCurrent)
  {
    RunInv(run, steps, i);
    if IsCurrent(run[i + 1], c) && !IsCurrent(run[i], c)
       && run[i + 1].containers[c].currentFor == Some(run[i].workers[d].app) {
      LinkInWindow(run[i], steps[i], d, c);
    }
  }

  // ---- a cleared row never comes back, and a current row is never deleted -

  lemma WorkKeepsSpent(s: State, d: DeployId, e: WorkerStep, c: ContainerId)
    requires d in s.workers && WorkEnabled(s, s.workers[d], e)
    requires Spent(LinkingRows(s.workers), s.nextContainer, c)
    ensures Spent(LinkingRows(WorkApply(s, d, s.workers[d], e).workers),
                  WorkApply(s, d, s.workers[d], e).nextContainer, c)
  {
    var w := WorkerAfter(s, s.workers[d], e);
    assert w.pc.Linking? ==> w.container == Some(s.nextContainer);
    assert WorkApply(s, d, s.workers[d], e).workers == s.workers[d := w];
  }

  /** Once no worker is about to link a row, none ever will be. */
  lemma StepKeepsSpent(s: State, step: Step, c: ContainerId)
    requires Enabled(s, step) && Spent(LinkingRows(s.workers), s.nextContainer, c)
    ensures Spent(LinkingRows(Apply(s, step).workers), Apply(s, step).nextContainer, c)
  {
    match step {
      case Work(d, e) => WorkKeepsSpent(s, d, e, c);
      case Spawn(r) => assert !Apply(s, step).workers[s.handlers[r].deploy].pc.Linking?;
      case _ => assert Apply(s, step).workers == s.workers;
    }
  }

  /** Neither current nor about to be. */
  predicate PastCurrent(s: State, c: ContainerId) {
    Spent(LinkingRows(s.workers), s.nextContainer, c) && !IsCurrent(s, c)
  }

  lemma StepKeepsPast(s: State, step: Step, c: ContainerId)
    requires Enabled(s, step) && PastCurrent(s, c)
    ensures PastCurrent(Apply(s, step), c)
  {
    StepKeepsSpent(s, step, c);
    StepLinks(s, step, c);
    forall d | d in s.workers && IsLinking(s.workers[d]) ensures s.workers[d].container != Some(c) {
      assert s.workers[d].container.value in LinkingRows(s.workers);
    }
  }

  lemma RunKeepsSpent(run: seq<State>, steps: seq<Step>, i: nat, c: ContainerId)
    requires IsRun(run, steps) && i < |steps| && Spent(LinkingRows(run[i].workers), run[i].nextContainer, c)
    ensures Spent(LinkingRows(run[i + 1].workers), run[i + 1].nextContainer, c)
  {
    StepKeepsSpent(run[i], steps[i], c);
  }

  lemma {:induction false} SpentSince(run: seq<State>, steps: seq<Step>, i: nat, j: nat, c: ContainerId)
    requires IsRun(run, steps) && i <= j < |run| && IsCurrent(run[i], c)
    ensures Spent(LinkingRows(run[j].workers), run[j].nextContainer, c)
    decreases j
  {
    if i == j {
      RunInv(run, steps, i);
    } else {
      SpentSince(run, steps, i, j - 1, c);
      RunKeepsSpent(run, steps, j - 1, c);
    }
  }

  lemma RunKeepsPast(run: seq<State>, steps: seq<Step>, i: nat, c: ContainerId)
    requires IsRun(run, steps) && i < |steps| && PastCurrent(run[i], c)
    ensures PastCurrent(run[i + 1], c)
  {
    StepKeepsPast(run[i], steps[i], c);
  }

  /** A row that was current and then was not, never is again. */
  lemma {:induction false} ClearedNeverCurrentAgain(run: seq<State>, steps: seq<Step>, i: nat, j: nat, k: nat,
                                                    c: ContainerId)
    requires IsRun(run, steps) && i <= j <= k < |run|
    requires IsCurrent(run[i], c) && !IsCurrent(run[j], c)
    ensures PastCurrent(run[k], c)
    decreases k
  {
    if j == k {
      SpentSince(run, steps, i, j, c);
    } else {
      ClearedNeverCurrentAgain(run, steps, i, j, k - 1, c);
      RunKeepsPast(run, steps, k - 1, c);
    }
  }

  /** Container rows disappear only in the Janitor's delete. */
  lemma StepDeletes(s: State, step: Step, c: ContainerId)
    requires Inv(s) && Enabled(s, step) && c in s.containers && c !in Apply(s, step).containers
    ensures step.DeleteRow? && step.container == c
  {
    if step.Work? {
      assert ProgressOk(s.workers[step.deploy], s.nextContainer);
      EffectFrame(s, step.deploy, s.workers[step.deploy], step.work);
    }
  }

  /**
   In every interleaving of deploys, start/stop, reconcile and the Janitor's two-pass prune, a container row that
   disappears is no app's current container at that moment, and it is older than the retention the prune began with.
   */
  lemma CurrentContainerNeverDeleted(run: seq<State>, steps: seq<Step>, i: nat, c: ContainerId)
    requires IsRun(run, steps) && i < |steps|
    requires c in run[i].containers && c !in run[i + 1].containers
    ensures run[i].containers[c].currentFor.None?
    ensures run[i].containers[c].createdAt + DAY < run[i].clock
  {
    RunInv(run, steps, i);
    StepDeletes(run[i], steps[i], c);
    assert Doomed(run[i].containers, c, run[i].janitor.cutoff);
  }

  // ---- the log and inflight ----------------------------------------------

  predicate Finished(s: State, d: DeployId) {
    d in s.workers && s.workers[d].pc.Unwinding? && s.workers[d].defers == []
  }

  lemma StepKeepsFinished(s: State, step: Step, d: DeployId)
    requires Inv(s) && Enabled(s, step) && Finished(s, d)
    ensures Finished(Apply(s, step), d)
    ensures LinesOf(Apply(s, step).log, d) == LinesOf(s.log, d)
  {
    match step {
      case Work(x, e) =>
        assert ProgressOk(s.workers[x], s.nextContainer);
        assert x != d;
        EffectFrame(s, x, s.workers[x], e);
      case Spawn(r) => assert InsertedBy(s.handlers, r, s.handlers[r].deploy);
      case _ =>
    }
  }

  lemma RunKeepsFinished(run: seq<State>, steps: seq<Step>, i: nat, d: DeployId)
    requires IsRun(run, steps) && i < |steps| && Finished(run[i], d)
    ensures Finished(run[i + 1], d) && !run[i + 1].workers[d].logOpen && !HoldsLock(run[i + 1].workers[d])
    ensures LinesOf(run[i + 1].log, d) == LinesOf(run[i].log, d)
  {
    RunInv(run, steps, i);
    StepKeepsFinished(run[i], steps[i], d);
    RunInv(run, steps, i + 1);
    assert ProgressOk(run[i + 1].workers[d], run[i + 1].nextContainer);
  }

  /**
   Before the drain's map swap, a started deploy that has left inflight has closed its log and released its lock, and
   its log never changes again.
   */
  lemma {:induction false} LeftInflightMeansDone(run: seq<State>, steps: seq<Step>, i: nat, j: nat, d: DeployId)
    requires IsRun(run, steps) && i <= j < |run| && run[i].drain.Serving?
    requires d in run[i].workers && !run[i].workers[d].pc.Spawned? && d !in run[i].inflight
    ensures Finished(run[j], d) && !run[j].workers[d].logOpen && !HoldsLock(run[j].workers[d])
    ensures LinesOf(run[j].log, d) == LinesOf(run[i].log, d)
    decreases j
  {
    if i == j {
      RunInv(run, steps, i);
      assert ProgressOk(run[i].workers[d], run[i].nextContainer);
    } else {
      LeftInflightMeansDone(run, steps, i, j - 1, d);
      RunKeepsFinished(run, steps, j - 1, d);
    }
  }

  // ---- status writes: which of them settle a row, and whose verdict stays -

  /** A status write that reaches the row: the body's two before the deadline, the recovery of a panic, a drain mark. */
  predicate Settles(s: State, step: Step, d: DeployId) {
    && d in s.deploys
    && match step
       case Work(x, e) => x == d && d in s.workers && WorkSettles(s, s.workers[d], e)
       case MarkStraggler(x, dbOk) => x == d && dbOk
       case _ => false
  }

  predicate WorkSettles(s: State, w: Worker, e: WorkerStep) {
    match e
    case WriteSuccess(dbOk) => Reaches(s, w, dbOk)
    case MarkFailed(dbOk) => Reaches(s, w, dbOk)
    case Unwind(_, dbOk) => dbOk && w.panicking && w.defers != [] && w.defers[|w.defers| - 1].RecoverPanic?
    case _ => false
  }

  predicate Settled(deploys: Deploys, d: DeployId) {
    d in deploys && Terminal(deploys[d].status)
  }

  lemma WorkSettlesRow(s: State, x: DeployId, e: WorkerStep, d: DeployId)
    requires x in s.workers && WorkEnabled(s, s.workers[x], e) && d in s.deploys
    ensures var t := WorkApply(s, x, s.workers[x], e);
      d in t.deploys && (Settled(t.deploys, d) <==> Settled(s.deploys, d) || Settles(s, Work(x, e), d))
  {
    match e {
      case WriteSuccess(_) =>
      case MarkFailed(_) =>
      case Unwind(_, _) =>
      case _ => assert Effect(s, x, s.workers[x], e).deploys == s.deploys;
    }
  }

  /** A row is terminal after a step exactly if it was before, or the step is a status write that reaches it. */
  lemma StepSettles(s: State, step: Step, d: DeployId)
    requires Enabled(s, step) && d in s.deploys && d < s.nextDeploy
    ensures var t := Apply(s, step);
      d in t.deploys && (Settled(t.deploys, d) <==> Settled(s.deploys, d) || Settles(s, step, d))
  {
    match step {
      case Work(x, e) => WorkSettlesRow(s, x, e, d);
      case InsertRow(_) =>
      case RemoveApp(_) =>
      case MarkStraggler(_, _) =>
      case Acquire(_, _) =>
      case _ =>
    }
  }

  /** A new row is running. */
  lemma StepInserts(s: State, step: Step, d: DeployId)
    requires Enabled(s, step) && d !in s.deploys && d in Apply(s, step).deploys
    ensures !Settled(Apply(s, step).deploys, d) && !Settles(s, step, d)
  {
    if step.Work? { WorkInsertsNothing(s, step.deploy, step.work); }
  }

  lemma WorkInsertsNothing(s: State, x: DeployId, e: WorkerStep)
    requires x in s.workers && WorkEnabled(s, s.workers[x], e)
    ensures WorkApply(s, x, s.workers[x], e).deploys.Keys == s.deploys.Keys
  {
    if !e.WriteSuccess? && !e.MarkFailed? && !e.Unwind? {
      assert Effect(s, x, s.workers[x], e).deploys == s.deploys;
    }
  }

  /** In one step of a run, a row becomes terminal if and only if the step is a status write that reaches it. */
  lemma RowSettlesIff(run: seq<State>, steps: seq<Step>, i: nat, d: DeployId)
    requires IsRun(run, steps) && i < |steps|
    ensures d in run[i].deploys ==> d in run[i + 1].deploys
    ensures d in run[i].deploys ==>
      (Settled(run[i + 1].deploys, d) <==> Settled(run[i].deploys, d) || Settles(run[i], steps[i], d))
    ensures d !in run[i].deploys ==> !Settled(run[i + 1].deploys, d) && !Settles(run[i], steps[i], d)
  {
    RunInv(run, steps, i);
    if d in run[i].deploys {
      StepSettles(run[i], steps[i], d);
    } else if d in run[i + 1].deploys {
      StepInserts(run[i], steps[i], d);
    }
  }

  ghost predicate SettledBy(run: seq<State>, steps: seq<Step>, i: nat, d: DeployId) {
    exists m: nat {:trigger steps[m]} :: m < i && m < |run| && m < |steps| && Settles(run[m], steps[m], d)
  }

  lemma OneMoreSettle(run: seq<State>, steps: seq<Step>, i: nat, d: DeployId)
    requires i < |run| && i < |steps|
    ensures SettledBy(run, steps, i + 1, d) <==> SettledBy(run, steps, i, d) || Settles(run[i], steps[i], d)
  {
    if SettledBy(run, steps, i + 1, d) {
      var m: nat :| m < i + 1 && m < |run| && m < |steps| && Settles(run[m], steps[m], d);
    }
    if SettledBy(run, steps, i, d) {
      var m: nat :| m < i && m < |run| && m < |steps| && Settles(run[m], steps[m], d);
      assert m < i + 1;
    }
  }

  /** A row is terminal exactly if it was at boot or a status write has reached it since; until it exists, none has. */
  ghost predicate HistoryOk(run: seq<State>, steps: seq<Step>, i: nat, d: DeployId)
    requires 0 < |run| && i < |run|
  {
    if d in run[i].deploys
    then Settled(run[i].deploys, d) <==> Settled(run[0].deploys, d) || SettledBy(run, steps, i, d)
    else d !in run[0].deploys && !SettledBy(run, steps, i, d)
  }

  lemma NextHistory(run: seq<State>, steps: seq<Step>, i: nat, d: DeployId)
    requires IsRun(run, steps) && 0 < i < |run| && HistoryOk(run, steps, i - 1, d)
    ensures HistoryOk(run, steps, i, d)
  {
    RowSettlesIff(run, steps, i - 1, d);
    OneMoreSettle(run, steps, i - 1, d);
  }

  lemma {:induction false} TerminalIff(run: seq<State>, steps: seq<Step>, i: nat, d: DeployId)
    requires IsRun(run, steps) && i < |run|
    ensures HistoryOk(run, steps, i, d)
  {
    if i > 0 {
      TerminalIff(run, steps, i - 1, d);
      NextHistory(run, steps, i, d);
    }
  }

  // ---- rows of workers are rows of this process --------------------------

  ghost predicate AllNew(s: State, first: DeployId) {
    && first <= s.nextDeploy
    && (forall d :: d in s.workers ==> first <= d)
    && (forall r, d :: InsertedBy(s.handlers, r, d) ==> first <= d)
  }

  /** The insertions pending after a step: those before it, and the one it makes. */
  lemma StepInsertions(s: State, step: Step, r: RequestId, d: DeployId)
    requires Enabled(s, step) && InsertedBy(Apply(s, step).handlers, r, d)
    ensures InsertedBy(s.handlers, r, d) || (step == InsertRow(r) && d == s.nextDeploy)
  {
    match step {
      case Work(x, e) => WorkKeepsHandlers(s, x, e);
      case Acquire(_, _) =>
      case InsertRow(_) =>
      case InsertFails(_) =>
      case Spawn(_) =>
      case _ => assert step.Work? || Apply(s, step).handlers == s.handlers;
    }
  }

  lemma StepNextDeploy(s: State, step: Step)
    requires Enabled(s, step)
    ensures Apply(s, step).nextDeploy == if step.InsertRow? then s.nextDeploy + 1 else s.nextDeploy
  {
    if step.Work? { WorkKeepsHandlers(s, step.deploy, step.work); }
  }

  lemma StepWorkers(s: State, step: Step, d: DeployId)
    requires Enabled(s, step) && d in Apply(s, step).workers
    ensures d in s.workers || (step.Spawn? && InsertedBy(s.handlers, step.request, d))
  {
    if step.Work? {
      assert WorkApply(s, step.deploy, s.workers[step.deploy], step.work).workers.Keys == s.workers.Keys;
    }
  }

  lemma DeferredKeepsHandlers(s: State, d: DeployId, w: Worker, call: Deferred, partialLine: bool, dbOk: bool)
    ensures var t := RunDeferred(s, d, w, call, partialLine, dbOk);
      t.handlers == s.handlers && t.nextDeploy == s.nextDeploy
  {
    match call {
      case CloseLog =>
      case CancelTimeout =>
      case RecoverPanic =>
      case ReleaseLock =>
      case LeaveInflight =>
    }
  }

  lemma WorkKeepsHandlers(s: State, d: DeployId, e: WorkerStep)
    requires d in s.workers && WorkEnabled(s, s.workers[d], e)
    ensures var t := WorkApply(s, d, s.workers[d], e); t.handlers == s.handlers && t.nextDeploy == s.nextDeploy
  {
    var w := s.workers[d];
    if e.Unwind? {
      DeferredKeepsHandlers(s, d, w, w.defers[|w.defers| - 1], e.partialLine, e.dbOk);
    } else {
      assert Effect(s, d, w, e).handlers == s.handlers && Effect(s, d, w, e).nextDeploy == s.nextDeploy;
    }
  }

  lemma StepKeepsNew(s: State, step: Step, first: DeployId)
    requires Enabled(s, step) && AllNew(s, first)
    ensures AllNew(Apply(s, step), first)
  {
    var t := Apply(s, step);
    StepNextDeploy(s, step);
    forall d | d in t.workers ensures first <= d { StepWorkers(s, step, d); }
    forall r, d | InsertedBy(t.handlers, r, d) ensures first <= d { StepInsertions(s, step, r, d); }
  }

  lemma {:induction false} RunKeepsNew(run: seq<State>, steps: seq<Step>, i: nat)
    requires IsRun(run, steps) && i < |run|
    ensures AllNew(run[i], run[0].nextDeploy)
  {
    if i > 0 {
      RunKeepsNew(run, steps, i - 1);
      StepKeepsNew(run[i - 1], steps[i - 1], run[0].nextDeploy);
    }
  }

  /**
   The row of a deploy that has a worker is terminal if and only if some status write has reached it: a success or a
   failure that the database took before the deadline, the recovery of a panic, or a drain mark. Otherwise it is
   running.
   */
  lemma SettledIff(run: seq<State>, steps: seq<Step>, i: nat, d: DeployId)
    requires IsRun(run, steps) && i < |run| && d in run[i].workers
    ensures d in run[i].deploys
    ensures Terminal(run[i].deploys[d].status) <==> SettledBy(run, steps, i, d)
    ensures run[i].deploys[d].status.DRunning? <==> !SettledBy(run, steps, i, d)
  {
    RunInv(run, steps, i);
    RunKeepsNew(run, steps, i);
    TerminalIff(run, steps, i, d);
    assert RowOf(run[i].deploys, d, run[i].workers[d].app);
  }

  /** A worker that has come to its lock release without a status write that reached the row leaves it running. */
  lemma SettledBeforeRelease(run: seq<State>, steps: seq<Step>, i: nat, d: DeployId)
    requires IsRun(run, steps) && i < |run|
    requires d in run[i].workers && run[i].workers[d].pc.Unwinding? && |run[i].workers[d].defers| <= 2
    ensures d in run[i].deploys
    ensures Terminal(run[i].deploys[d].status) <==> SettledBy(run, steps, i, d)
    ensures !SettledBy(run, steps, i, d) ==> run[i].deploys[d].status.DRunning? && d in run[i].lost
  {
    SettledIff(run, steps, i, d);
    SettledOrLost(run, steps, i, d);
  }

  /** The writes that can follow a worker's success: the drain's placeholder, and the recovery of a later panic. */
  predicate Overwrites(s: State, step: Step, d: DeployId) {
    || step == MarkStraggler(d, true)
    || (step.Work? && step.deploy == d && d in s.workers && step.work.Unwind?
        && WorkSettles(s, s.workers[d], step.work))
  }

  predicate VerdictWritten(s: State, d: DeployId) {
    d in s.workers && !Unwritten(s.workers[d]) && d in s.deploys
  }

  lemma OwnStepAfterVerdict(s: State, d: DeployId, e: WorkerStep)
    requires VerdictWritten(s, d) && WorkEnabled(s, s.workers[d], e)
    ensures var t := WorkApply(s, d, s.workers[d], e);
      && VerdictWritten(t, d)
      && t.deploys[d].status == if Overwrites(s, Work(d, e), d) then DFailed else s.deploys[d].status
  {
    match e {
      case RetireOld(_) =>
      case Panic =>
      case Unwind(_, _) => assert WorkerAfter(s, s.workers[d], e).pc.Unwinding?;
    }
  }

  lemma WorkAfterVerdict(s: State, x: DeployId, e: WorkerStep, d: DeployId)
    requires x in s.workers && StackOk(s.workers[x]) && WorkEnabled(s, s.workers[x], e)
    requires VerdictWritten(s, d) && x != d
    ensures var t := WorkApply(s, x, s.workers[x], e);
      VerdictWritten(t, d) && t.deploys[d].status == s.deploys[d].status
  {
    EffectFrame(s, x, s.workers[x], e);
  }

  lemma OtherAfterVerdict(s: State, step: Step, d: DeployId)
    requires Enabled(s, step) && !step.Work? && VerdictWritten(s, d)
    requires step.Spawn? ==> s.handlers[step.request].deploy != d
    requires step.InsertRow? ==> s.nextDeploy != d
    ensures VerdictWritten(Apply(s, step), d)
    ensures Apply(s, step).deploys[d].status == if Overwrites(s, step, d) then DFailed else s.deploys[d].status
  {
    if step.Spawn? {
      assert Apply(s, step).deploys == s.deploys;
    } else {
      assert Apply(s, step).workers == s.workers;
    }
  }

  lemma StepAfterVerdict(s: State, step: Step, d: DeployId)
    requires Inv(s) && Enabled(s, step) && VerdictWritten(s, d)
    ensures VerdictWritten(Apply(s, step), d)
    ensures Apply(s, step).deploys[d].status == if Overwrites(s, step, d) then DFailed else s.deploys[d].status
  {
    if step.Work? {
      assert ProgressOk(s.workers[step.deploy], s.nextContainer);
      if step.deploy == d {
        OwnStepAfterVerdict(s, d, step.work);
      } else {
        WorkAfterVerdict(s, step.deploy, step.work, d);
      }
    } else {
      if step.Spawn? { assert InsertedBy(s.handlers, step.request, s.handlers[step.request].deploy); }
      OtherAfterVerdict(s, step, d);
    }
  }

  lemma RunAfterVerdict(run: seq<State>, steps: seq<Step>, i: nat, d: DeployId)
    requires IsRun(run, steps) && i < |steps| && VerdictWritten(run[i], d)
    ensures VerdictWritten(run[i + 1], d)
    ensures run[i + 1].deploys[d].status ==
            if Overwrites(run[i], steps[i], d) then DFailed else run[i].deploys[d].status
  {
    RunInv(run, steps, i);
    StepAfterVerdict(run[i], steps[i], d);
  }

  /** The step was a success write that reached the row. */
  predicate WritesSuccess(s: State, step: Step, d: DeployId) {
    && step.Work? && step.deploy == d && d in s.workers
    && step.work.WriteSuccess? && Reaches(s, s.workers[d], step.work.dbOk)
  }

  lemma FirstVerdict(run: seq<State>, steps: seq<Step>, i: nat, d: DeployId)
    requires IsRun(run, steps) && i < |steps| && WritesSuccess(run[i], steps[i], d)
    ensures VerdictWritten(run[i + 1], d) && run[i + 1].deploys[d].status.DSuccess?
  {
    RunInv(run, steps, i);
    assert Enabled(run[i], steps[i]) && RowOf(run[i].deploys, d, run[i].workers[d].app);
  }

  /** No step after i and before j overwrites the row. */
  ghost predicate Undisturbed(run: seq<State>, steps: seq<Step>, i: nat, j: nat, d: DeployId) {
    forall m {:trigger steps[m]} :: i < m < j && m < |run| && m < |steps| ==> !Overwrites(run[m], steps[m], d)
  }

  lemma UndisturbedStep(run: seq<State>, steps: seq<Step>, i: nat, j: nat, d: DeployId)
    requires i < j < |steps| && j < |run|
    ensures Undisturbed(run, steps, i, j + 1, d) <==>
            Undisturbed(run, steps, i, j, d) && !Overwrites(run[j], steps[j], d)
  {}

  /** After a success at i the row is a success if no step since has overwritten it, and failed otherwise. */
  ghost predicate VerdictStands(run: seq<State>, steps: seq<Step>, i: nat, j: nat, d: DeployId) {
    && j < |run| && VerdictWritten(run[j], d)
    && run[j].deploys[d].status == if Undisturbed(run, steps, i, j, d) then DSuccess else DFailed
  }

  lemma NextVerdict(run: seq<State>, steps: seq<Step>, i: nat, j: nat, d: DeployId)
    requires IsRun(run, steps) && i + 1 < j < |run| && VerdictStands(run, steps, i, j - 1, d)
    ensures VerdictStands(run, steps, i, j, d)
  {
    RunAfterVerdict(run, steps, j - 1, d);
    UndisturbedStep(run, steps, i, j - 1, d);
  }

  lemma {:induction false} VerdictFrom(run: seq<State>, steps: seq<Step>, i: nat, j: nat, d: DeployId)
    requires IsRun(run, steps) && i < j < |run| && VerdictStands(run, steps, i, i + 1, d)
    ensures VerdictStands(run, steps, i, j, d)
    decreases j
  {
    if j > i + 1 {
      VerdictFrom(run, steps, i, j - 1, d);
      NextVerdict(run, steps, i, j, d);
    }
  }

  /** A success stays the row's verdict if and only if neither the drain nor a late panic writes after it. */
  lemma SuccessStaysIff(run: seq<State>, steps: seq<Step>, i: nat, j: nat, d: DeployId)
    requires IsRun(run, steps) && i < j < |run| && WritesSuccess(run[i], steps[i], d)
    ensures d in run[j].deploys
    ensures run[j].deploys[d].status.DSuccess? <==> Undisturbed(run, steps, i, j, d)
    ensures run[j].deploys[d].status.DSuccess? || run[j].deploys[d].status.DFailed?
  {
    FirstVerdict(run, steps, i, d);
    VerdictFrom(run, steps, i, j, d);
  }
}
