/** Which steps of the deploy protocol change which rows: the current edge, container rows and deploy rows. */
module DeployEdges {
  import opened Wrappers
  import opened DeployProtocol
  import opened DeployInvariant
  import opened DeploySafety

  // ---- the current edge --------------------------------------------------

  predicate CurrentFor(containers: Containers, c: ContainerId, a: AppId) {
    c in containers && containers[c].currentFor == Some(a)
  }

  /** The steps that take the current container away from an app. */
  predicate ClearsEdgeOf(s: State, step: Step, a: AppId) {
    || step == ReconcileClear(a)
    || step == RemoveApp(a)
    || (step.Work? && step.work.ClearCurrent? && step.deploy in s.workers && s.workers[step.deploy].app == a)
  }

  predicate TouchesTable(step: Step) {
    || step.RemoveApp? || step.EndAction? || step.ReconcileClear? || step.DeleteRow?
    || (step.Work? && WorkTouchesTable(step.work))
  }

  predicate WorkTouchesTable(e: WorkerStep) {
    e.ClearCurrent? || e.CreateRow? || e.LinkCurrent? || e.RetireOld?
  }

  lemma WorkLeavesTable(s: State, d: DeployId, w: Worker, e: WorkerStep)
    requires WorkEnabled(s, w, e) && !WorkTouchesTable(e)
    ensures WorkApply(s, d, w, e).containers == s.containers
  {
    if !e.Unwind? { assert Effect(s, d, w, e).containers == s.containers; }
  }

  lemma StepLeavesTable(s: State, step: Step)
    requires Enabled(s, step) && !TouchesTable(step)
    ensures Apply(s, step).containers == s.containers
  {
    if step.Work? { WorkLeavesTable(s, step.deploy, s.workers[step.deploy], step.work); }
  }

  /** A retirement has nothing to retire. */
  lemma RetireLeavesTable(s: State, d: DeployId, e: WorkerStep)
    requires Inv(s) && d in s.workers && WorkEnabled(s, s.workers[d], e) && e.RetireOld?
    ensures WorkApply(s, d, s.workers[d], e).containers == s.containers
  {
    assert ProgressOk(s.workers[d], s.nextContainer);
  }

  lemma RowsAreOld(s: State, c: ContainerId)
    requires Inv(s) && c in s.containers
    ensures c < s.nextContainer
  {}

  lemma CurrentIsKept(s: State, c: ContainerId, dbOk: bool, x: ContainerId)
    requires Inv(s) && Enabled(s, DeleteRow(x, dbOk)) && c in s.containers && s.containers[c].currentFor.Some?
    ensures c != x
  {
    assert x in s.containers ==> Doomed(s.containers, x, s.janitor.cutoff);
  }

  lemma WorkLosesEdge(s: State, d: DeployId, e: WorkerStep, c: ContainerId, a: AppId)
    requires d in s.workers && WorkEnabled(s, s.workers[d], e) && CurrentFor(s.containers, c, a)
    requires WorkTouchesTable(e) && !e.RetireOld? && c < s.nextContainer
    ensures CurrentFor(WorkApply(s, d, s.workers[d], e).containers, c, a) <==>
            !(e.ClearCurrent? && s.workers[d].app == a)
  {}

  lemma AnyWorkLosesEdge(s: State, d: DeployId, e: WorkerStep, c: ContainerId, a: AppId)
    requires Inv(s) && d in s.workers && WorkEnabled(s, s.workers[d], e) && CurrentFor(s.containers, c, a)
    requires WorkTouchesTable(e)
    ensures CurrentFor(WorkApply(s, d, s.workers[d], e).containers, c, a) <==>
            !(e.ClearCurrent? && s.workers[d].app == a)
  {
    RowsAreOld(s, c);
    if e.RetireOld? {
      RetireLeavesTable(s, d, e);
    } else {
      WorkLosesEdge(s, d, e, c, a);
    }
  }

  lemma QuietStepLosesNoEdge(s: State, step: Step, c: ContainerId, a: AppId)
    requires Enabled(s, step) && CurrentFor(s.containers, c, a) && !TouchesTable(step)
    ensures CurrentFor(Apply(s, step).containers, c, a) && !ClearsEdgeOf(s, step, a)
  {
    StepLeavesTable(s, step);
  }

  lemma WorkStepLosesEdge(s: State, d: DeployId, e: WorkerStep, c: ContainerId, a: AppId)
    requires Inv(s) && Enabled(s, Work(d, e)) && CurrentFor(s.containers, c, a) && WorkTouchesTable(e)
    ensures CurrentFor(Apply(s, Work(d, e)).containers, c, a) <==> !ClearsEdgeOf(s, Work(d, e), a)
  {
    AnyWorkLosesEdge(s, d, e, c, a);
  }

  lemma DeleteLosesNoEdge(s: State, x: ContainerId, dbOk: bool, c: ContainerId, a: AppId)
    requires Inv(s) && Enabled(s, DeleteRow(x, dbOk)) && CurrentFor(s.containers, c, a)
    ensures CurrentFor(Apply(s, DeleteRow(x, dbOk)).containers, c, a)
  {
    CurrentIsKept(s, c, dbOk, x);
  }

  lemma OthersLoseEdge(s: State, step: Step, c: ContainerId, a: AppId)
    requires Enabled(s, step) && CurrentFor(s.containers, c, a)
    requires step.RemoveApp? || step.EndAction? || step.ReconcileClear?
    ensures CurrentFor(Apply(s, step).containers, c, a) <==> !ClearsEdgeOf(s, step, a)
  {}

  lemma StepLosesEdge(s: State, step: Step, c: ContainerId, a: AppId)
    requires Inv(s) && Enabled(s, step) && CurrentFor(s.containers, c, a)
    ensures CurrentFor(Apply(s, step).containers, c, a) <==> !ClearsEdgeOf(s, step, a)
  {
    if !TouchesTable(step) {
      QuietStepLosesNoEdge(s, step, c, a);
    } else if step.Work? {
      WorkStepLosesEdge(s, step.deploy, step.work, c, a);
    } else if step.DeleteRow? {
      DeleteLosesNoEdge(s, step.container, step.dbOk, c, a);
    } else {
      OthersLoseEdge(s, step, c, a);
    }
  }

  /**
   An app's current container stops being current in exactly the steps that clear that app's edge: a reconcile or a
   removal of the app, or the clear of one of its own workers. Clearing one app leaves the others alone.
   */
  lemma EdgeLostIff(run: seq<State>, steps: seq<Step>, i: nat, c: ContainerId, a: AppId)
    requires IsRun(run, steps) && i < |steps| && CurrentFor(run[i].containers, c, a)
    ensures !CurrentFor(run[i + 1].containers, c, a) <==> ClearsEdgeOf(run[i], steps[i], a)
  {
    RunInv(run, steps, i);
    assert Enabled(run[i], steps[i]);
    StepLosesEdge(run[i], steps[i], c, a);
  }

  // ---- becoming current --------------------------------------------------

  /** The step is the link of a worker of the app to the row it inserted. */
  predicate LinksEdge(s: State, step: Step, c: ContainerId, a: AppId) {
    && step.Work? && step.work.LinkCurrent? && step.deploy in s.workers
    && s.workers[step.deploy].app == a && s.workers[step.deploy].container == Some(c)
  }

  lemma WorkGainsEdge(s: State, d: DeployId, e: WorkerStep, c: ContainerId, a: AppId)
    requires d in s.workers && WorkEnabled(s, s.workers[d], e) && !CurrentFor(s.containers, c, a)
    requires WorkTouchesTable(e) && !e.RetireOld?
    ensures CurrentFor(WorkApply(s, d, s.workers[d], e).containers, c, a) <==> LinksEdge(s, Work(d, e), c, a)
  {}

  lemma OthersGainNoEdge(s: State, step: Step, c: ContainerId, a: AppId)
    requires Enabled(s, step) && !CurrentFor(s.containers, c, a)
    requires step.RemoveApp? || step.EndAction? || step.ReconcileClear? || step.DeleteRow?
    ensures !CurrentFor(Apply(s, step).containers, c, a)
  {}

  lemma StepGainsEdge(s: State, step: Step, c: ContainerId, a: AppId)
    requires Inv(s) && Enabled(s, step) && !CurrentFor(s.containers, c, a)
    ensures CurrentFor(Apply(s, step).containers, c, a) <==> LinksEdge(s, step, c, a)
  {
    if !TouchesTable(step) {
      StepLeavesTable(s, step);
    } else if step.Work? {
      if step.work.RetireOld? {
        RetireLeavesTable(s, step.deploy, step.work);
      } else {
        WorkGainsEdge(s, step.deploy, step.work, c, a);
      }
    } else {
      OthersGainNoEdge(s, step, c, a);
    }
  }

  /** A container becomes an app's current one in exactly the step in which a worker of the app links its own row. */
  lemma EdgeGainedIff(run: seq<State>, steps: seq<Step>, i: nat, c: ContainerId, a: AppId)
    requires IsRun(run, steps) && i < |steps| && !CurrentFor(run[i].containers, c, a)
    ensures CurrentFor(run[i + 1].containers, c, a) <==> LinksEdge(run[i], steps[i], c, a)
  {
    RunInv(run, steps, i);
    assert Enabled(run[i], steps[i]);
    StepGainsEdge(run[i], steps[i], c, a);
  }

  // ---- container rows ----------------------------------------------------

  /** A start, stop or restart request writes the status it was for to the row that it loaded. */
  predicate WritesStatus(s: State, step: Step, c: ContainerId) {
    step.EndAction? && step.saved && step.request in s.actions && s.actions[step.request] == c
  }

  lemma WorkKeepsRow(s: State, d: DeployId, e: WorkerStep, c: ContainerId)
    requires d in s.workers && WorkEnabled(s, s.workers[d], e) && c in s.containers && c < s.nextContainer
    requires WorkTouchesTable(e) && !e.RetireOld?
    ensures var t := WorkApply(s, d, s.workers[d], e);
      && c in t.containers && t.containers[c].createdAt == s.containers[c].createdAt
      && t.containers[c].status == s.containers[c].status
  {}

  lemma OthersKeepRow(s: State, step: Step, c: ContainerId)
    requires Enabled(s, step) && c in s.containers
    requires step.RemoveApp? || step.EndAction? || step.ReconcileClear? || step.DeleteRow?
    ensures var t := Apply(s, step);
      && (c !in t.containers <==> step == DeleteRow(c, true))
      && (c in t.containers ==>
            && t.containers[c].createdAt == s.containers[c].createdAt
            && t.containers[c].status == if WritesStatus(s, step, c) then step.status else s.containers[c].status)
  {}

  lemma StepKeepsRow(s: State, step: Step, c: ContainerId)
    requires Inv(s) && Enabled(s, step) && c in s.containers
    ensures var t := Apply(s, step);
      && (c !in t.containers <==> step == DeleteRow(c, true))
      && (c in t.containers ==>
            && t.containers[c].createdAt == s.containers[c].createdAt
            && t.containers[c].status == if WritesStatus(s, step, c) then step.status else s.containers[c].status)
  {
    if !TouchesTable(step) {
      StepLeavesTable(s, step);
    } else if step.Work? {
      RowsAreOld(s, c);
      if step.work.RetireOld? {
        RetireLeavesTable(s, step.deploy, step.work);
      } else {
        WorkKeepsRow(s, step.deploy, step.work, c);
      }
    } else {
      OthersKeepRow(s, step, c);
    }
  }

  /**
   A container row goes only in the prune's delete of it, keeps the time it was created for ever, and changes its
   status only when a request that has loaded it saves.
   */
  lemma RowChangesIff(run: seq<State>, steps: seq<Step>, i: nat, c: ContainerId)
    requires IsRun(run, steps) && i < |steps| && c in run[i].containers
    ensures c !in run[i + 1].containers <==> steps[i] == DeleteRow(c, true)
    ensures c in run[i + 1].containers ==>
      && run[i + 1].containers[c].createdAt == run[i].containers[c].createdAt
      && run[i + 1].containers[c].status ==
         if WritesStatus(run[i], steps[i], c) then steps[i].status else run[i].containers[c].status
  {
    RunInv(run, steps, i);
    assert Enabled(run[i], steps[i]);
    StepKeepsRow(run[i], steps[i], c);
  }

  lemma WorkAddsRow(s: State, d: DeployId, e: WorkerStep, c: ContainerId)
    requires d in s.workers && WorkEnabled(s, s.workers[d], e) && WorkTouchesTable(e)
    requires c !in s.containers && c in WorkApply(s, d, s.workers[d], e).containers
    ensures e.CreateRow?
    ensures var t := WorkApply(s, d, s.workers[d], e);
      && t.containers[c] == ContainerRow(CRunning, e.createdAt, None)
      && d in t.workers && t.workers[d].container == Some(c)
  {}

  lemma OthersAddNoRow(s: State, step: Step)
    requires Enabled(s, step) && (step.RemoveApp? || step.EndAction? || step.ReconcileClear? || step.DeleteRow?)
    ensures Apply(s, step).containers.Keys <= s.containers.Keys
  {}

  lemma WorkStepAddsRow(s: State, d: DeployId, e: WorkerStep, c: ContainerId)
    requires Enabled(s, Work(d, e)) && c !in s.containers && c in Apply(s, Work(d, e)).containers
    ensures e.CreateRow?
    ensures var t := Apply(s, Work(d, e));
      && t.containers[c] == ContainerRow(CRunning, e.createdAt, None)
      && d in t.workers && t.workers[d].container == Some(c)
  {
    if !WorkTouchesTable(e) {
      WorkLeavesTable(s, d, s.workers[d], e);
    } else {
      WorkAddsRow(s, d, e, c);
    }
  }

  lemma OnlyWorkAddsRows(s: State, step: Step, c: ContainerId)
    requires Enabled(s, step) && c !in s.containers && c in Apply(s, step).containers
    ensures step.Work?
  {
    if !TouchesTable(step) {
      StepLeavesTable(s, step);
    } else if !step.Work? {
      OthersAddNoRow(s, step);
    }
  }

  /** A new container row is a worker's own: running, linked to no app, and remembered by that worker. */
  lemma RowAdded(run: seq<State>, steps: seq<Step>, i: nat, c: ContainerId)
    requires IsRun(run, steps) && i < |steps| && c !in run[i].containers && c in run[i + 1].containers
    ensures steps[i].Work? && steps[i].work.CreateRow?
    ensures run[i + 1].containers[c] == ContainerRow(CRunning, steps[i].work.createdAt, None)
    ensures steps[i].deploy in run[i + 1].workers && run[i + 1].workers[steps[i].deploy].container == Some(c)
  {
    assert Enabled(run[i], steps[i]);
    OnlyWorkAddsRows(run[i], steps[i], c);
    WorkStepAddsRow(run[i], steps[i].deploy, steps[i].work, c);
  }

  // ---- deploy rows -------------------------------------------------------

  /** The verdict of a step that settles a row. */
  function Verdict(step: Step): DeployStatus {
    if step.Work? && step.work.WriteSuccess? then DSuccess else DFailed
  }

  predicate RowKept(s: State, step: Step, t: State, d: DeployId) {
    && d in s.deploys && d in t.deploys
    && t.deploys[d].status == (if Settles(s, step, d) then Verdict(step) else s.deploys[d].status)
    && t.deploys[d].app ==
       if step.RemoveApp? && s.deploys[d].app == Some(step.app) then None else s.deploys[d].app
  }

  lemma WorkKeepsDeploy(s: State, x: DeployId, e: WorkerStep, d: DeployId)
    requires x in s.workers && WorkEnabled(s, s.workers[x], e) && d in s.deploys
    ensures RowKept(s, Work(x, e), WorkApply(s, x, s.workers[x], e), d)
  {
    match e {
      case WriteSuccess(_) =>
      case MarkFailed(_) =>
      case Unwind(_, _) =>
      case _ => assert Effect(s, x, s.workers[x], e).deploys == s.deploys;
    }
  }

  lemma StepKeepsDeploy(s: State, step: Step, d: DeployId)
    requires Enabled(s, step) && d in s.deploys && d < s.nextDeploy
    ensures RowKept(s, step, Apply(s, step), d)
  {
    match step {
      case Work(x, e) => WorkKeepsDeploy(s, x, e, d);
      case InsertRow(_) =>
      case RemoveApp(_) =>
      case MarkStraggler(_, _) =>
      case Acquire(_, _) =>
      case _ =>
    }
  }

  /**
   A deploy row is never deleted. Its status changes only in a step that settles it: to success in its worker's own
   success write, to failed in the others. It loses its app only when the app is removed.
   */
  lemma DeployRowChangesIff(run: seq<State>, steps: seq<Step>, i: nat, d: DeployId)
    requires IsRun(run, steps) && i < |steps| && d in run[i].deploys
    ensures d in run[i + 1].deploys
    ensures run[i + 1].deploys[d].status ==
            if Settles(run[i], steps[i], d)
            then if steps[i].Work? && steps[i].work.WriteSuccess? then DSuccess else DFailed
            else run[i].deploys[d].status
    ensures run[i + 1].deploys[d].app ==
            if steps[i].RemoveApp? && run[i].deploys[d].app == Some(steps[i].app)
            then None else run[i].deploys[d].app
  {
    RunInv(run, steps, i);
    assert Enabled(run[i], steps[i]);
    StepKeepsDeploy(run[i], steps[i], d);
  }

  lemma StepAddsDeploy(s: State, step: Step, d: DeployId)
    requires Enabled(s, step) && d !in s.deploys && d in Apply(s, step).deploys
    ensures step.InsertRow? && step.request in s.handlers && s.handlers[step.request].Acquired?
    ensures var t, a := Apply(s, step), s.handlers[step.request].app;
      && t.deploys[d] == DeployRow(Some(a), DRunning)
      && step.request in t.handlers && t.handlers[step.request] == Inserted(a, d)
  {
    if step.Work? { WorkInsertsNothing(s, step.deploy, step.work); }
  }

  /** A new deploy row is running, and belongs to the app whose lock the handler that inserts it has taken. */
  lemma DeployRowAdded(run: seq<State>, steps: seq<Step>, i: nat, d: DeployId)
    requires IsRun(run, steps) && i < |steps| && d !in run[i].deploys && d in run[i + 1].deploys
    ensures steps[i].InsertRow? && steps[i].request in run[i].handlers && run[i].handlers[steps[i].request].Acquired?
    ensures var r, a := steps[i].request, run[i].handlers[steps[i].request].app;
      && run[i + 1].deploys[d] == DeployRow(Some(a), DRunning)
      && r in run[i + 1].handlers && run[i + 1].handlers[r] == Inserted(a, d)
  {
    assert Enabled(run[i], steps[i]);
    StepAddsDeploy(run[i], steps[i], d);
  }

  // ---- deploy logs -------------------------------------------------------

  /** The step writes a line to the deploy's log: the first, one of the body's, or a partial one at the close. */
  predicate WritesLine(s: State, step: Step, d: DeployId) {
    && step.Work? && step.deploy == d && d in s.workers
    && match step.work
       case OpenLog(hasStore) => hasStore
       case AppendLine => true
       case Unwind(partialLine, _) =>
         var w := s.workers[d];
         partialLine && w.logOpen && w.defers != [] && w.defers[|w.defers| - 1] == CloseLog
       case _ => false
  }

  lemma DeferredLines(s: State, x: DeployId, w: Worker, call: Deferred, partialLine: bool, dbOk: bool, d: DeployId)
    ensures LinesOf(RunDeferred(s, x, w, call, partialLine, dbOk).log, d) ==
            LinesOf(s.log, d) + if x == d && call.CloseLog? && partialLine && w.logOpen then 1 else 0
  {
    match call
    case CloseLog =>
    case CancelTimeout =>
    case RecoverPanic =>
    case ReleaseLock =>
    case LeaveInflight =>
  }

  lemma WorkLines(s: State, x: DeployId, e: WorkerStep, d: DeployId)
    requires x in s.workers && WorkEnabled(s, s.workers[x], e)
    ensures LinesOf(WorkApply(s, x, s.workers[x], e).log, d) ==
            LinesOf(s.log, d) + if WritesLine(s, Work(x, e), d) then 1 else 0
  {
    var w := s.workers[x];
    match e {
      case Unwind(partialLine, dbOk) =>
        DeferredLines(s, x, w, w.defers[|w.defers| - 1], partialLine, dbOk, d);
      case OpenLog(_) =>
      case AppendLine =>
      case _ => assert Effect(s, x, w, e).log == s.log;
    }
  }

  lemma StepLines(s: State, step: Step, d: DeployId)
    requires Enabled(s, step)
    ensures LinesOf(Apply(s, step).log, d) == LinesOf(s.log, d) + if WritesLine(s, step, d) then 1 else 0
  {
    if step.Work? {
      WorkLines(s, step.deploy, step.work, d);
    } else {
      assert Apply(s, step).log == s.log;
    }
  }

  /** A deploy's log grows by a line in exactly the steps of its worker that write one, and never shrinks. */
  lemma LogGrowsIff(run: seq<State>, steps: seq<Step>, i: nat, d: DeployId)
    requires IsRun(run, steps) && i < |steps|
    ensures LinesOf(run[i + 1].log, d) == LinesOf(run[i].log, d) + if WritesLine(run[i], steps[i], d) then 1 else 0
  {
    assert Enabled(run[i], steps[i]);
    StepLines(run[i], steps[i], d);
  }
}
