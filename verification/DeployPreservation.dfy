/** Every step of the deploy protocol keeps the invariant. */
module DeployPreservation {
  import opened Wrappers
  import opened DeployProtocol
  import opened DeployInvariant

  // ---- updating one worker -----------------------------------------------

  lemma SameHolders(ws: Workers, d: DeployId, w: Worker)
    requires d in ws && w.app == ws[d].app && HoldsLock(w) == HoldsLock(ws[d])
    ensures LockHolders(ws[d := w]) == LockHolders(ws)
  {}

  lemma NoNewLinking(ws: Workers, d: DeployId, w: Worker)
    requires !w.pc.Linking?
    ensures LinkingRows(ws[d := w]) <= LinkingRows(ws)
  {}

  /** A worker's own move: it keeps its app and its hold on the lock, and is not about to link a row. */
  predicate Quiet(ws: Workers, d: DeployId, w: Worker) {
    && d in ws
    && w.app == ws[d].app
    && HoldsLock(w) == HoldsLock(ws[d])
    && !w.pc.Linking?
    && (w.defers == [] <==> ws[d].defers == [])
  }

  /** The half of the structure that speaks of locks, rows and inflight. */
  ghost predicate ClaimsOk(busy: set<AppId>, owner: map<AppId, Owner>, deploys: Deploys, nextDeploy: DeployId,
                           handlers: Handlers, workers: Workers, inflight: map<DeployId, AppId>, drain: Drain) {
    && LockOk(busy, owner, handlers, LockHolders(workers))
    && RowIdsOk(deploys, nextDeploy, handlers, workers)
    && InflightOk(inflight, workers, drain)
  }

  /** The half that speaks of the container table. */
  ghost predicate TableOk(containers: Containers, nextContainer: ContainerId, workers: Workers,
                          actions: map<RequestId, ContainerId>, janitor: Janitor) {
    && EdgesOk(containers, nextContainer, LinkingRows(workers))
    && ProgressesOk(workers, nextContainer)
    && WindowsOk(containers, workers)
    && LinkingOk(containers, workers)
    && ActionsOk(actions, LinkingRows(workers), nextContainer)
    && PruneOk(janitor, containers, LinkingRows(workers), nextContainer)
  }

  /** The invariant but for the conjuncts about counters, cutoffs and running rows. */
  ghost predicate Structure(s: State) {
    && ClaimsOk(s.busy, s.owner, s.deploys, s.nextDeploy, s.handlers, s.workers, s.inflight, s.drain)
    && TableOk(s.containers, s.nextContainer, s.workers, s.actions, s.janitor)
  }

  lemma QuietClaims(busy: set<AppId>, owner: map<AppId, Owner>, deploys: Deploys, nextDeploy: DeployId,
                    handlers: Handlers, ws: Workers, inflight: map<DeployId, AppId>, drain: Drain,
                    d: DeployId, w: Worker)
    requires ClaimsOk(busy, owner, deploys, nextDeploy, handlers, ws, inflight, drain) && Quiet(ws, d, w)
    ensures ClaimsOk(busy, owner, deploys, nextDeploy, handlers, ws[d := w], inflight, drain)
  {
    SameHolders(ws, d, w);
  }

  lemma MovedTable(containers: Containers, nextContainer: ContainerId, ws: Workers,
                   actions: map<RequestId, ContainerId>, janitor: Janitor, d: DeployId, w: Worker)
    requires TableOk(containers, nextContainer, ws, actions, janitor)
    requires d in ws && !w.pc.Linking? && ProgressOk(w, nextContainer) && WindowOk(containers, w)
    ensures TableOk(containers, nextContainer, ws[d := w], actions, janitor)
  {
    NoNewLinking(ws, d, w);
  }

  lemma QuietMove(s: State, d: DeployId, w: Worker)
    requires Structure(s) && Quiet(s.workers, d, w)
    requires ProgressOk(w, s.nextContainer)
    requires WindowOk(s.containers, w)
    ensures Structure(SetWorker(s, d, w))
  {
    QuietClaims(s.busy, s.owner, s.deploys, s.nextDeploy, s.handlers, s.workers, s.inflight, s.drain, d, w);
    MovedTable(s.containers, s.nextContainer, s.workers, s.actions, s.janitor, d, w);
  }

  // ---- updating the container table --------------------------------------

  /** Edges are only removed; nothing else in the table changes. */
  ghost predicate EdgesShrink(before: Containers, after: Containers) {
    && before.Keys == after.Keys
    && forall c :: c in before ==>
         after[c].status == before[c].status && after[c].createdAt == before[c].createdAt
         && (after[c].currentFor == before[c].currentFor || after[c].currentFor.None?)
  }

  lemma ClearEdgeShrinks(containers: Containers, a: AppId)
    ensures EdgesShrink(containers, ClearEdge(containers, a))
    ensures forall c :: c in containers ==> ClearEdge(containers, a)[c].currentFor != Some(a)
  {}

  lemma ShrinkKeepsStructure(s: State, after: Containers)
    requires Structure(s) && EdgesShrink(s.containers, after)
    ensures Structure(s.(containers := after))
  {}

  lemma StatusKeepsStructure(s: State, c: ContainerId, status: ContainerStatus)
    requires Structure(s) && c !in LinkingRows(s.workers)
    ensures Structure(s.(containers := WithStatus(s.containers, c, status)))
  {
    if c in s.containers {
      forall d | d in s.workers && IsLinking(s.workers[d])
        ensures s.workers[d].container.value != c
      {
        assert s.workers[d].container.value in LinkingRows(s.workers);
      }
    }
  }

  // ---- the worker's steps ------------------------------------------------

  predicate IsQuietStep(e: WorkerStep) {
    e.ArmTimeout? || e.LoadApp? || e.OpenLog? || e.AppendLine? || e.FinishDocker?
    || e.ReloadCaddy? || e.Fail? || e.Panic?
  }

  lemma QuietNext(s: State, d: DeployId, w: Worker)
    requires Inv(s) && Quiet(s.workers, d, w)
    requires ProgressOk(w, s.nextContainer)
    requires WindowOk(s.containers, w)
    requires Unsettled(s.workers[d]) ==> Unsettled(w)
    requires Unwritten(w) ==> Unwritten(s.workers[d])
    ensures Inv(SetWorker(s, d, w))
  {
    QuietMove(s, d, w);
  }

  /** In the body at least the three defers of the entry are in place. */
  lemma BodyDepth(w: Worker, nextContainer: ContainerId)
    requires ProgressOk(w, nextContainer) && InBody(w.pc)
    ensures 3 <= |w.defers| && HoldsLock(w)
  {}

  lemma FailKeepsProgress(w: Worker, nextContainer: ContainerId)
    requires ProgressOk(w, nextContainer) && CanFail(w.pc)
    ensures ProgressOk(w.(pc := MarkingFailed), nextContainer)
  {}

  lemma PanicKeepsProgress(w: Worker, nextContainer: ContainerId)
    requires ProgressOk(w, nextContainer) && InBody(w.pc)
    ensures ProgressOk(w.(pc := Unwinding, panicking := true), nextContainer)
  {}

  lemma PushKeepsProgress(w: Worker, nextContainer: ContainerId)
    requires ProgressOk(w, nextContainer)
    ensures w.pc.Arming? ==> forall t ::
      ProgressOk(w.(pc := Loading, deadline := t, defers := w.defers + [CancelTimeout]), nextContainer)
    ensures w.pc.OpeningLog? ==>
      forall open :: ProgressOk(w.(pc := Clearing, logOpen := open, defers := w.defers + [CloseLog]), nextContainer)
  {}

  /** Between the clear and the link no container is current for the worker's app. */
  lemma NothingCurrent(s: State, d: DeployId)
    requires Inv(s) && d in s.workers
    requires s.workers[d].pc in {Inspecting, Deploying, Creating, Linking}
    ensures forall c :: c in s.containers ==> s.containers[c].currentFor != Some(s.workers[d].app)
  {
    var w := s.workers[d];
    BodyDepth(w, s.nextContainer);
    assert ProgressOk(w, s.nextContainer) && WindowOk(s.containers, w);
    if w.pc.Linking? {
      assert LinkableRow(s.containers, w.container.value, w.deadline);
    }
  }

  lemma InspectInv(s: State, d: DeployId, found: Option<ContainerId>)
    requires Inv(s) && d in s.workers && WorkEnabled(s, s.workers[d], InspectCurrent(found))
    ensures found.None?
    ensures Inv(WorkApply(s, d, s.workers[d], InspectCurrent(found)))
  {
    NothingCurrent(s, d);
    forall c | c in s.containers ensures found != Some(c) {
      assert s.containers[c].currentFor != Some(s.workers[d].app);
    }
    assert found.None?;
    QuietNext(s, d, s.workers[d].(pc := Deploying, retiree := None));
  }

  lemma QuietAfter(s: State, w: Worker, e: WorkerStep)
    requires ProgressOk(w, s.nextContainer) && WorkEnabled(s, w, e) && IsQuietStep(e)
    ensures var u := WorkerAfter(s, w, e);
      && ProgressOk(u, s.nextContainer)
      && u.app == w.app && u.cleared == w.cleared && u.container == w.container
      && HoldsLock(u) && HoldsLock(w) && !u.pc.Linking? && u.defers != [] && w.defers != []
      && Unsettled(u) && (Unwritten(u) ==> Unwritten(w))
  {
    BodyDepth(w, s.nextContainer);
    PushKeepsProgress(w, s.nextContainer);
    match e {
      case Fail => FailKeepsProgress(w, s.nextContainer);
      case Panic => PanicKeepsProgress(w, s.nextContainer);
      case _ =>
    }
  }

  lemma QuietStepInv(s: State, d: DeployId, e: WorkerStep)
    requires Inv(s) && d in s.workers && WorkEnabled(s, s.workers[d], e) && IsQuietStep(e)
    ensures Inv(WorkApply(s, d, s.workers[d], e))
  {
    var w := s.workers[d];
    QuietAfter(s, w, e);
    QuietNext(s, d, WorkerAfter(s, w, e));
    assert Effect(s, d, w, e) == s.(log := Effect(s, d, w, e).log);
  }

  /** Writing a status that is not pending keeps every row where it is. */
  lemma WrittenRowIds(deploys: Deploys, nextDeploy: DeployId, handlers: Handlers, ws: Workers, d: DeployId,
                      status: DeployStatus, written: bool, w: Worker)
    requires RowIdsOk(deploys, nextDeploy, handlers, ws) && !status.DPending? && d in ws && w.app == ws[d].app
    ensures RowIdsOk(StatusWritten(deploys, d, status, written), nextDeploy, handlers, ws[d := w])
  {}

  /** Settling a row: a terminal status is written, or the write is recorded as lost. */
  lemma SettledRow(deploys: Deploys, lost: set<DeployId>, handlers: Handlers, ws: Workers, drain: Drain, d: DeployId,
                   status: DeployStatus, written: bool, w: Worker)
    requires RunningOk(deploys, lost, handlers, ws) && OpenRowsOk(deploys, handlers, ws, drain)
    requires Terminal(status) && d in ws && !Unwritten(w) && !exists r :: InsertedBy(handlers, r, d)
    ensures var after, ws' := StatusWritten(deploys, d, status, written), ws[d := w];
      && RunningOk(after, if written then lost else lost + {d}, handlers, ws')
      && OpenRowsOk(after, handlers, ws', drain)
  {}

  lemma SettleInv(s: State, d: DeployId, status: DeployStatus, written: bool, w: Worker)
    requires Inv(s) && Quiet(s.workers, d, w) && Terminal(status) && !Unwritten(w)
    requires ProgressOk(w, s.nextContainer)
    requires WindowOk(s.containers, w)
    ensures Inv(SetWorker(WriteStatus(s, d, status, written), d, w))
  {
    QuietMove(s, d, w);
    WrittenRowIds(s.deploys, s.nextDeploy, s.handlers, s.workers, d, status, written, w);
    SettledRow(s.deploys, s.lost, s.handlers, s.workers, s.drain, d, status, written, w);
  }

  lemma SuccessInv(s: State, d: DeployId, dbOk: bool)
    requires Inv(s) && d in s.workers && s.workers[d].pc.Finishing?
    ensures Inv(WorkApply(s, d, s.workers[d], WriteSuccess(dbOk)))
  {
    var w := s.workers[d];
    BodyDepth(w, s.nextContainer);
    var u := w.(pc := Retiring);
    assert ProgressOk(u, s.nextContainer) && WindowOk(s.containers, u);
    WriteApply(s, d, w, dbOk);
    SettleInv(s, d, DSuccess, Reaches(s, w, dbOk), u);
  }

  lemma MarkKeepsProgress(w: Worker, nextContainer: ContainerId)
    requires ProgressOk(w, nextContainer) && w.pc.MarkingFailed?
    ensures ProgressOk(w.(pc := Unwinding), nextContainer)
    ensures 3 <= |w.defers|
  {}

  lemma MarkIsQuiet(s: State, d: DeployId)
    requires Inv(s) && d in s.workers && s.workers[d].pc.MarkingFailed?
    ensures var u := s.workers[d].(pc := Unwinding);
      Quiet(s.workers, d, u) && ProgressOk(u, s.nextContainer) && WindowOk(s.containers, u)
  {
    MarkKeepsProgress(s.workers[d], s.nextContainer);
    assert WindowOk(s.containers, s.workers[d]);
  }

  /** A status write is the worker's move and the write of its row. */
  lemma WriteApply(s: State, d: DeployId, w: Worker, dbOk: bool)
    ensures w.pc.Finishing? ==>
      WorkApply(s, d, w, WriteSuccess(dbOk))
      == SetWorker(WriteStatus(s, d, DSuccess, Reaches(s, w, dbOk)), d, w.(pc := Retiring))
    ensures w.pc.MarkingFailed? ==>
      WorkApply(s, d, w, MarkFailed(dbOk))
      == SetWorker(WriteStatus(s, d, DFailed, Reaches(s, w, dbOk)), d, w.(pc := Unwinding))
  {}

  lemma FailureInv(s: State, d: DeployId, dbOk: bool)
    requires Inv(s) && d in s.workers && s.workers[d].pc.MarkingFailed?
    ensures Inv(WorkApply(s, d, s.workers[d], MarkFailed(dbOk)))
  {
    var w := s.workers[d];
    WriteApply(s, d, w, dbOk);
    MarkIsQuiet(s, d);
    SettleInv(s, d, DFailed, Reaches(s, w, dbOk), w.(pc := Unwinding));
  }

  lemma RetireApply(s: State, d: DeployId, w: Worker, saved: bool)
    requires w.pc.Retiring? && w.retiree.None?
    ensures WorkApply(s, d, w, RetireOld(saved)) == SetWorker(s, d, w.(pc := Unwinding))
  {}

  lemma RetireInv(s: State, d: DeployId, saved: bool)
    requires Inv(s) && d in s.workers && s.workers[d].pc.Retiring?
    ensures Inv(WorkApply(s, d, s.workers[d], RetireOld(saved)))
  {
    var w := s.workers[d].(pc := Unwinding);
    BodyDepth(s.workers[d], s.nextContainer);
    assert ProgressOk(s.workers[d], s.nextContainer);
    RetireApply(s, d, s.workers[d], saved);
    QuietNext(s, d, w);
  }

  lemma ShrinkInv(s: State, a: AppId)
    requires Inv(s)
    ensures Inv(s.(containers := ClearEdge(s.containers, a)))
  {
    ClearEdgeShrinks(s.containers, a);
    ShrinkKeepsStructure(s, ClearEdge(s.containers, a));
  }

  lemma ClearIsQuiet(s: State, d: DeployId)
    requires Inv(s) && d in s.workers && s.workers[d].pc.Clearing?
    ensures var u := s.workers[d].(pc := Inspecting, cleared := true);
      && Quiet(s.workers, d, u) && ProgressOk(u, s.nextContainer)
      && WindowOk(ClearEdge(s.containers, u.app), u)
  {
    assert ProgressOk(s.workers[d], s.nextContainer);
  }

  lemma ClearInv(s: State, d: DeployId)
    requires Inv(s) && d in s.workers && WorkEnabled(s, s.workers[d], ClearCurrent)
    ensures Inv(WorkApply(s, d, s.workers[d], ClearCurrent))
  {
    var w := s.workers[d];
    ShrinkInv(s, w.app);
    ClearIsQuiet(s, d);
    QuietNext(s.(containers := ClearEdge(s.containers, w.app)), d, w.(pc := Inspecting, cleared := true));
    assert WorkApply(s, d, w, ClearCurrent) ==
      SetWorker(s.(containers := ClearEdge(s.containers, w.app)), d, w.(pc := Inspecting, cleared := true));
  }

  lemma RegisterInv(s: State, d: DeployId)
    requires Inv(s) && d in s.workers && s.workers[d].pc.Spawned?
    ensures Inv(WorkApply(s, d, s.workers[d], Register))
  {
    var w := s.workers[d].(pc := Arming, defers := [LeaveInflight, ReleaseLock, RecoverPanic]);
    assert ProgressOk(s.workers[d], s.nextContainer);
    assert WindowOk(s.containers, s.workers[d]) && WindowOk(s.containers, w);
    MoveKeeps(s, d, w);
    SameHolders(s.workers, d, w);
  }

  /** A worker's move that keeps its app and its row's state, whatever it does to its stack. */
  ghost predicate Moves(s: State, d: DeployId, w: Worker) {
    && d in s.workers && w.app == s.workers[d].app
    && !w.pc.Linking? && ProgressOk(w, s.nextContainer) && WindowOk(s.containers, w)
    && (Unwritten(w) ==> Unwritten(s.workers[d]))
    && (Unsettled(s.workers[d]) ==> Unsettled(w))
  }

  lemma MovedRows(deploys: Deploys, nextDeploy: DeployId, lost: set<DeployId>, handlers: Handlers, ws: Workers,
                  drain: Drain, d: DeployId, w: Worker)
    requires RowIdsOk(deploys, nextDeploy, handlers, ws) && d in ws && w.app == ws[d].app
    requires RunningOk(deploys, lost, handlers, ws) && (Unsettled(ws[d]) ==> Unsettled(w))
    requires OpenRowsOk(deploys, handlers, ws, drain) && (Unwritten(w) ==> Unwritten(ws[d]))
    ensures RowIdsOk(deploys, nextDeploy, handlers, ws[d := w])
    ensures RunningOk(deploys, lost, handlers, ws[d := w])
    ensures OpenRowsOk(deploys, handlers, ws[d := w], drain)
  {}

  /** What a move keeps but for the lock and inflight. */
  lemma MoveKeeps(s: State, d: DeployId, w: Worker)
    requires Inv(s) && Moves(s, d, w)
    ensures var ws := s.workers[d := w];
      && RowIdsOk(s.deploys, s.nextDeploy, s.handlers, ws)
      && RunningOk(s.deploys, s.lost, s.handlers, ws)
      && OpenRowsOk(s.deploys, s.handlers, ws, s.drain)
      && TableOk(s.containers, s.nextContainer, ws, s.actions, s.janitor)
  {
    MovedRows(s.deploys, s.nextDeploy, s.lost, s.handlers, s.workers, s.drain, d, w);
    MovedTable(s.containers, s.nextContainer, s.workers, s.actions, s.janitor, d, w);
  }

  /** What the other conjuncts need of a changed worker: its app, its hold, its row and its place in the map. */
  lemma WorkerClaims(s: State, d: DeployId, w: Worker)
    requires Inv(s) && d in s.workers && w.app == s.workers[d].app && HoldsLock(w) == HoldsLock(s.workers[d])
    requires (w.defers == [] <==> s.workers[d].defers == [])
    requires Unsettled(s.workers[d]) ==> Unsettled(w)
    requires Unwritten(w) ==> Unwritten(s.workers[d])
    ensures LockOk(s.busy, s.owner, s.handlers, LockHolders(s.workers[d := w]))
    ensures RowIdsOk(s.deploys, s.nextDeploy, s.handlers, s.workers[d := w])
    ensures RunningOk(s.deploys, s.lost, s.handlers, s.workers[d := w])
    ensures OpenRowsOk(s.deploys, s.handlers, s.workers[d := w], s.drain)
    ensures InflightOk(s.inflight, s.workers[d := w], s.drain)
  {
    SameHolders(s.workers, d, w);
  }

  lemma NewRowTable(s: State, d: DeployId, w: Worker, row: ContainerRow)
    requires Inv(s) && d in s.workers && w == s.workers[d].(pc := Linking, container := Some(s.nextContainer))
    requires row.status.CRunning? && row.currentFor.None? && w.deadline - DEPLOY_TIMEOUT <= row.createdAt
    ensures LinkingRows(s.workers[d := w]) <= LinkingRows(s.workers) + {s.nextContainer}
    ensures EdgesOk(s.containers[s.nextContainer := row], s.nextContainer + 1, LinkingRows(s.workers[d := w]))
    ensures LinkingOk(s.containers[s.nextContainer := row], s.workers[d := w])
  {
    forall e | e in s.workers && IsLinking(s.workers[e]) ensures s.workers[e].container.value < s.nextContainer {
      assert ProgressOk(s.workers[e], s.nextContainer);
    }
  }

  lemma CreateApply(s: State, d: DeployId, w: Worker, createdAt: Time)
    requires WorkEnabled(s, w, CreateRow(createdAt))
    ensures WorkApply(s, d, w, CreateRow(createdAt)) ==
      s.(containers := s.containers[s.nextContainer := ContainerRow(CRunning, createdAt, None)],
         nextContainer := s.nextContainer + 1,
         workers := s.workers[d := w.(pc := Linking, container := Some(s.nextContainer))])
  {}

  lemma CreateInv(s: State, d: DeployId, createdAt: Time)
    requires Inv(s) && d in s.workers && WorkEnabled(s, s.workers[d], CreateRow(createdAt))
    ensures Inv(WorkApply(s, d, s.workers[d], CreateRow(createdAt)))
  {
    var w := s.workers[d].(pc := Linking, container := Some(s.nextContainer));
    CreateApply(s, d, s.workers[d], createdAt);
    WorkerClaims(s, d, w);
    NewRowTable(s, d, w, ContainerRow(CRunning, createdAt, None));
    NewRowRest(s, d, w, ContainerRow(CRunning, createdAt, None));
  }

  lemma NewRowRest(s: State, d: DeployId, w: Worker, row: ContainerRow)
    requires Inv(s) && d in s.workers && s.workers[d].pc.Creating?
    requires w == s.workers[d].(pc := Linking, container := Some(s.nextContainer))
    requires row.currentFor.None?
    requires LinkingRows(s.workers[d := w]) <= LinkingRows(s.workers) + {s.nextContainer}
    ensures var ws, cs, n := s.workers[d := w], s.containers[s.nextContainer := row], s.nextContainer + 1;
      && ProgressesOk(ws, n)
      && WindowsOk(cs, ws)
      && ActionsOk(s.actions, LinkingRows(ws), n)
      && PruneOk(s.janitor, cs, LinkingRows(ws), n)
  {
    assert ProgressOk(s.workers[d], s.nextContainer);
    assert WindowOk(s.containers, s.workers[d]);
  }

  /** Two lock holders of one app are one worker. */
  lemma OneHolder(s: State, d1: DeployId, d2: DeployId)
    requires Inv(s)
    requires d1 in s.workers && HoldsLock(s.workers[d1])
    requires d2 in s.workers && HoldsLock(s.workers[d2])
    requires s.workers[d1].app == s.workers[d2].app
    ensures d1 == d2
  {
    var holders := LockHolders(s.workers);
    assert Holds(s.handlers, holders, ByWorker(d1), s.workers[d1].app);
    assert Holds(s.handlers, holders, ByWorker(d2), s.workers[d1].app);
  }

  /** The deadline arithmetic: a row linked in time is younger than any cutoff of a prune under way. */
  lemma LinkedRowIsYoung(s: State, d: DeployId)
    requires Inv(s) && d in s.workers && WorkEnabled(s, s.workers[d], LinkCurrent)
    ensures !s.janitor.Idle? ==> s.janitor.cutoff < s.containers[s.workers[d].container.value].createdAt
  {
    assert LinkableRow(s.containers, s.workers[d].container.value, s.workers[d].deadline);
  }

  lemma LinkTable(s: State, d: DeployId, c: ContainerId, w: Worker)
    requires Inv(s) && d in s.workers && s.workers[d].pc.Linking? && s.workers[d].container == Some(c)
    requires EdgeFree(s.containers, w.app, c) && !w.pc.Linking?
    requires !s.janitor.Idle? ==> s.janitor.cutoff < s.containers[c].createdAt
    ensures var ws, cs := s.workers[d := w], s.containers[c := s.containers[c].(currentFor := Some(w.app))];
      && LinkingRows(ws) <= LinkingRows(s.workers)
      && EdgesOk(cs, s.nextContainer, LinkingRows(ws))
      && LinkingOk(cs, ws)
      && PruneOk(s.janitor, cs, LinkingRows(ws), s.nextContainer)
  {
    NoNewLinking(s.workers, d, w);
    assert IsLinking(s.workers[d]);
    assert c in LinkingRows(s.workers) && c !in LinkingRows(s.workers[d := w]);
  }

  lemma LinkWindows(s: State, d: DeployId, c: ContainerId, w: Worker)
    requires Inv(s) && d in s.workers && w.app == s.workers[d].app && HoldsLock(s.workers[d])
    requires c in s.containers && WindowOk(s.containers, w) && w.container == Some(c)
    ensures WindowsOk(s.containers[c := s.containers[c].(currentFor := Some(w.app))], s.workers[d := w])
  {
    forall e | e in s.workers && e != d && s.workers[e].app == w.app && HoldsLock(s.workers[e]) ensures false {
      OneHolder(s, d, e);
    }
  }

  lemma LinkWorker(s: State, d: DeployId)
    requires Inv(s) && d in s.workers && s.workers[d].pc.Linking? && s.workers[d].container.Some?
    ensures var w := s.workers[d].(pc := Reloading);
      ProgressOk(w, s.nextContainer) && WindowOk(s.containers, w) && HoldsLock(w) && HoldsLock(s.workers[d])
  {
    assert ProgressOk(s.workers[d], s.nextContainer) && WindowOk(s.containers, s.workers[d]);
    BodyDepth(s.workers[d], s.nextContainer);
  }

  lemma LinkApply(s: State, d: DeployId, w: Worker, c: ContainerId)
    requires WorkEnabled(s, w, LinkCurrent) && w.container == Some(c)
    ensures WorkApply(s, d, w, LinkCurrent) ==
      s.(containers := s.containers[c := s.containers[c].(currentFor := Some(w.app))],
         workers := s.workers[d := w.(pc := Reloading)])
  {}

  lemma LinkInv(s: State, d: DeployId)
    requires Inv(s) && d in s.workers && WorkEnabled(s, s.workers[d], LinkCurrent)
    ensures Inv(WorkApply(s, d, s.workers[d], LinkCurrent))
  {
    var c := s.workers[d].container.value;
    var w := s.workers[d].(pc := Reloading);
    LinkApply(s, d, s.workers[d], c);
    LinkedRowIsYoung(s, d);
    LinkWorker(s, d);
    WorkerClaims(s, d, w);
    LinkTable(s, d, c, w);
    LinkWindows(s, d, c, w);
  }

  // ---- the deferred calls ------------------------------------------------

  /** The worker once it has run this call, the last on its stack. */
  predicate Pops(w: Worker, call: Deferred, u: Worker) {
    && u.app == w.app && u.pc.Unwinding? && u.cleared == w.cleared && u.container == w.container
    && HoldsLock(u) == (HoldsLock(w) && !call.ReleaseLock?)
    && (call.ReleaseLock? ==> HoldsLock(w) && !w.panicking)
    && w.defers != [] && (u.defers == [] <==> call.LeaveInflight?)
    && u.panicking == (w.panicking && !call.RecoverPanic?)
  }

  lemma PopKeepsProgress(w: Worker, nextContainer: ContainerId)
    requires ProgressOk(w, nextContainer) && w.pc.Unwinding? && w.defers != []
    ensures ProgressOk(Popped(w), nextContainer)
    ensures Pops(w, w.defers[|w.defers| - 1], Popped(w))
  {
    assert w.defers[|w.defers| - 1] == DEFER_ORDER[|w.defers| - 1];
  }

  lemma PopMoves(s: State, d: DeployId, call: Deferred, u: Worker)
    requires Inv(s) && d in s.workers && s.workers[d].pc.Unwinding?
    requires Pops(s.workers[d], call, u) && ProgressOk(u, s.nextContainer)
    ensures WindowOk(s.containers, u)
    ensures (call.RecoverPanic? && s.workers[d].panicking) || Moves(s, d, u)
    ensures call.LeaveInflight? || call.ReleaseLock? || Quiet(s.workers, d, u)
  {
    assert WindowOk(s.containers, s.workers[d]);
  }

  lemma OneHolderLess(ws: Workers, d: DeployId, w: Worker)
    requires d in ws && !HoldsLock(w)
    ensures LockHolders(ws[d := w]) == LockHolders(ws) - {d}
  {}

  /** Releasing a lock one holds leaves every other owner its own. */
  lemma ReleaseOwner(s: State, handlers: Handlers, holders: map<DeployId, AppId>, o: Owner, a: AppId)
    requires Inv(s) && Holds(s.handlers, LockHolders(s.workers), o, a)
    requires forall p, b :: Holds(handlers, holders, p, b) <==>
      Holds(s.handlers, LockHolders(s.workers), p, b) && p != o
    ensures LockOk(s.busy - {a}, s.owner - {a}, handlers, holders)
    ensures CountsOk(s.busy - {a}, s.acquired, s.released + multiset{a})
  {
    assert a in s.busy;
    assert s.busy == (s.busy - {a}) + {a};
    assert multiset(s.busy) == multiset(s.busy - {a}) + multiset{a};
  }

  lemma WorkerReleases(s: State, d: DeployId, u: Worker)
    requires Inv(s) && d in s.workers && u.app == s.workers[d].app && HoldsLock(s.workers[d]) && !HoldsLock(u)
    ensures LockOk(s.busy - {u.app}, s.owner - {u.app}, s.handlers, LockHolders(s.workers[d := u]))
    ensures CountsOk(s.busy - {u.app}, s.acquired, s.released + multiset{u.app})
  {
    OneHolderLess(s.workers, d, u);
    assert Holds(s.handlers, LockHolders(s.workers), ByWorker(d), u.app);
    ReleaseOwner(s, s.handlers, LockHolders(s.workers[d := u]), ByWorker(d), u.app);
  }

  lemma ReleaseInv(s: State, d: DeployId, u: Worker)
    requires Inv(s) && Moves(s, d, u) && HoldsLock(s.workers[d]) && !HoldsLock(u)
    requires u.defers != [] && s.workers[d].defers != []
    ensures Inv(SetWorker(Release(s, u.app), d, u))
  {
    MoveKeeps(s, d, u);
    WorkerReleases(s, d, u);
  }

  lemma LeaveInv(s: State, d: DeployId, u: Worker)
    requires Inv(s) && Moves(s, d, u) && HoldsLock(u) == HoldsLock(s.workers[d]) && u.defers == []
    ensures Inv(SetWorker(s.(inflight := s.inflight - {d}), d, u))
  {
    MoveKeeps(s, d, u);
    SameHolders(s.workers, d, u);
  }

  lemma LogOnly(s: State, log: map<DeployId, nat>)
    requires Inv(s)
    ensures Inv(s.(log := log))
  {}

  lemma DeferredInv(s: State, d: DeployId, call: Deferred, u: Worker, x: bool, y: bool)
    requires Inv(s) && d in s.workers && s.workers[d].pc.Unwinding?
    requires Pops(s.workers[d], call, u) && ProgressOk(u, s.nextContainer)
    ensures Inv(SetWorker(RunDeferred(s, d, s.workers[d], call, x, y), d, u))
  {
    PopMoves(s, d, call, u);
    match call {
      case LeaveInflight => LeaveInv(s, d, u);
      case ReleaseLock => ReleaseInv(s, d, u);
      case RecoverPanic =>
        if s.workers[d].panicking {
          SettleInv(s, d, DFailed, y, u);
        } else {
          QuietNext(s, d, u);
        }
      case CancelTimeout => QuietNext(s, d, u);
      case CloseLog =>
        QuietNext(s, d, u);
        LogOnly(SetWorker(s, d, u), RunDeferred(s, d, s.workers[d], call, x, y).log);
    }
  }

  lemma UnwindApply(s: State, d: DeployId, w: Worker, x: bool, y: bool)
    requires WorkEnabled(s, w, Unwind(x, y))
    ensures WorkApply(s, d, w, Unwind(x, y)) ==
            SetWorker(RunDeferred(s, d, w, w.defers[|w.defers| - 1], x, y), d, Popped(w))
  {}

  lemma UnwindInv(s: State, d: DeployId, x: bool, y: bool)
    requires Inv(s) && d in s.workers && s.workers[d].pc.Unwinding? && s.workers[d].defers != []
    ensures Inv(WorkApply(s, d, s.workers[d], Unwind(x, y)))
  {
    var w := s.workers[d];
    assert ProgressOk(w, s.nextContainer);
    PopKeepsProgress(w, s.nextContainer);
    DeferredInv(s, d, w.defers[|w.defers| - 1], Popped(w), x, y);
    UnwindApply(s, d, w, x, y);
  }

  lemma LastStepsInv(s: State, d: DeployId, e: WorkerStep)
    requires Inv(s) && d in s.workers && WorkEnabled(s, s.workers[d], e)
    requires e.WriteSuccess? || e.MarkFailed? || e.RetireOld? || e.Unwind?
    ensures Inv(WorkApply(s, d, s.workers[d], e))
  {
    match e {
      case WriteSuccess(dbOk) => SuccessInv(s, d, dbOk);
      case MarkFailed(dbOk) => FailureInv(s, d, dbOk);
      case RetireOld(saved) => RetireInv(s, d, saved);
      case Unwind(x, y) => UnwindInv(s, d, x, y);
    }
  }

  lemma WorkInv(s: State, d: DeployId, e: WorkerStep)
    requires Inv(s) && d in s.workers && WorkEnabled(s, s.workers[d], e)
    ensures Inv(WorkApply(s, d, s.workers[d], e))
  {
    if e.WriteSuccess? || e.MarkFailed? || e.RetireOld? || e.Unwind? {
      LastStepsInv(s, d, e);
    } else if IsQuietStep(e) {
      QuietStepInv(s, d, e);
    } else {
      match e {
        case Register => RegisterInv(s, d);
        case ClearCurrent => ClearInv(s, d);
        case InspectCurrent(found) => InspectInv(s, d, found);
        case CreateRow(createdAt) => CreateInv(s, d, createdAt);
        case LinkCurrent => LinkInv(s, d);
      }
    }
  }

  // ---- handlers ----------------------------------------------------------

  lemma AcquireInv(s: State, r: RequestId, a: AppId)
    requires Inv(s) && Enabled(s, Acquire(r, a))
    ensures Inv(Apply(s, Acquire(r, a)))
  {
    var handlers := s.handlers[r := Acquired(a)];
    AcquireOwner(s, r, a);
    AcquireCounts(s.busy, s.acquired, s.released, a);
    assert forall q, d :: InsertedBy(handlers, q, d) <==> InsertedBy(s.handlers, q, d);
    SameInserted(s, handlers);
  }

  lemma AcquireOwner(s: State, r: RequestId, a: AppId)
    requires Inv(s) && r !in s.handlers && a !in s.busy
    ensures LockOk(s.busy + {a}, s.owner[a := ByRequest(r)], s.handlers[r := Acquired(a)], LockHolders(s.workers))
  {
    var handlers, holders := s.handlers[r := Acquired(a)], LockHolders(s.workers);
    assert forall o, b :: Holds(handlers, holders, o, b) <==>
        (o == ByRequest(r) && b == a) || Holds(s.handlers, holders, o, b);
  }

  lemma AcquireCounts(busy: set<AppId>, acquired: multiset<AppId>, released: multiset<AppId>, a: AppId)
    requires CountsOk(busy, acquired, released) && a !in busy
    ensures CountsOk(busy + {a}, acquired + multiset{a}, released)
  {
    assert multiset(busy + {a}) == multiset(busy) + multiset{a};
  }

  lemma SameInserted(s: State, handlers: Handlers)
    requires Inv(s)
    requires forall r :: r in handlers && handlers[r].Inserted? ==> r in s.handlers && s.handlers[r] == handlers[r]
    requires forall r :: r in s.handlers && s.handlers[r].Inserted? ==> r in handlers && s.handlers[r] == handlers[r]
    ensures RowIdsOk(s.deploys, s.nextDeploy, handlers, s.workers)
    ensures RunningOk(s.deploys, s.lost, handlers, s.workers)
    ensures OpenRowsOk(s.deploys, handlers, s.workers, s.drain)
  {
    assert forall q, d :: InsertedBy(handlers, q, d) <==> InsertedBy(s.handlers, q, d);
  }

  lemma InsertOwner(s: State, r: RequestId, d: DeployId)
    requires Inv(s) && r in s.handlers
    ensures LockOk(s.busy, s.owner, s.handlers[r := Inserted(s.handlers[r].app, d)], LockHolders(s.workers))
  {
    var handlers := s.handlers[r := Inserted(s.handlers[r].app, d)];
    assert forall o, b :: Holds(handlers, LockHolders(s.workers), o, b) <==>
        Holds(s.handlers, LockHolders(s.workers), o, b);
  }

  lemma InsertInv(s: State, r: RequestId)
    requires Inv(s) && Enabled(s, InsertRow(r))
    ensures Inv(Apply(s, InsertRow(r)))
  {
    InsertOwner(s, r, s.nextDeploy);
    InsertRows(s, r);
  }

  lemma InsertRows(s: State, r: RequestId)
    requires Inv(s) && r in s.handlers && s.handlers[r].Acquired?
    ensures var a := s.handlers[r].app;
      var deploys := s.deploys[s.nextDeploy := DeployRow(Some(a), DRunning)];
      var handlers := s.handlers[r := Inserted(a, s.nextDeploy)];
      && RowIdsOk(deploys, s.nextDeploy + 1, handlers, s.workers)
      && RunningOk(deploys, s.lost, handlers, s.workers)
      && OpenRowsOk(deploys, handlers, s.workers, s.drain)
  {
    var handlers := s.handlers[r := Inserted(s.handlers[r].app, s.nextDeploy)];
    assert InsertedBy(handlers, r, s.nextDeploy);
    assert forall q, d :: InsertedBy(handlers, q, d) <==>
        InsertedBy(s.handlers, q, d) || (q == r && d == s.nextDeploy);
  }

  lemma InsertFailsInv(s: State, r: RequestId)
    requires Inv(s) && Enabled(s, InsertFails(r))
    ensures Inv(Apply(s, InsertFails(r)))
  {
    var handlers := s.handlers - {r};
    ReleaseOwner(s, handlers, LockHolders(s.workers), ByRequest(r), s.handlers[r].app);
    SameInserted(s, handlers);
  }

  lemma SpawnedLinking(ws: Workers, d: DeployId, w: Worker)
    requires d !in ws && !w.pc.Linking?
    ensures LinkingRows(ws[d := w]) == LinkingRows(ws)
  {
    assert forall e :: e in ws ==> ws[d := w][e] == ws[e];
    assert forall c :: c in LinkingRows(ws) ==> c in LinkingRows(ws[d := w]);
  }

  /** The request's hold on the lock becomes its worker's. */
  lemma SpawnOwner(busy: set<AppId>, owner: map<AppId, Owner>, handlers: Handlers, holders: map<DeployId, AppId>,
                   r: RequestId, d: DeployId, a: AppId)
    requires LockOk(busy, owner, handlers, holders) && r in handlers && handlers[r].app == a && d !in holders
    ensures LockOk(busy, owner[a := ByWorker(d)], handlers - {r}, holders[d := a])
  {
    var left, grown := handlers - {r}, holders[d := a];
    assert Holds(handlers, holders, ByRequest(r), a) && owner[a := ByWorker(d)].Keys == busy;
    forall o, b
      ensures Holds(left, grown, o, b) <==>
        (o == ByWorker(d) && b == a) || (Holds(handlers, holders, o, b) && o != ByRequest(r))
    {
      match o {
        case ByRequest(q) =>
        case ByWorker(e) =>
      }
    }
  }

  lemma SpawnRows(s: State, r: RequestId, w: Worker)
    requires Inv(s) && r in s.handlers && s.handlers[r].Inserted?
    requires w == Worker(s.handlers[r].app, Spawned, [], false, 0, false, false, None, None)
    ensures var ws := s.workers[s.handlers[r].deploy := w];
      && RowIdsOk(s.deploys, s.nextDeploy, s.handlers - {r}, ws)
      && RunningOk(s.deploys, s.lost, s.handlers - {r}, ws)
      && OpenRowsOk(s.deploys, s.handlers - {r}, ws, s.drain)
      && InflightOk(s.inflight, ws, s.drain)
  {
    var d := s.handlers[r].deploy;
    assert InsertedBy(s.handlers, r, d);
    assert forall q, e :: InsertedBy(s.handlers - {r}, q, e) <==> InsertedBy(s.handlers, q, e) && q != r;
  }

  lemma SpawnTable(containers: Containers, nextContainer: ContainerId, ws: Workers,
                   actions: map<RequestId, ContainerId>, janitor: Janitor, d: DeployId, w: Worker)
    requires TableOk(containers, nextContainer, ws, actions, janitor) && d !in ws && !w.cleared
    requires !w.pc.Linking? && ProgressOk(w, nextContainer)
    ensures TableOk(containers, nextContainer, ws[d := w], actions, janitor)
  {
    SpawnedLinking(ws, d, w);
  }

  lemma SpawnInv(s: State, r: RequestId)
    requires Inv(s) && Enabled(s, Spawn(r))
    ensures Inv(Apply(s, Spawn(r)))
  {
    var d := s.handlers[r].deploy;
    var w := Worker(s.handlers[r].app, Spawned, [], false, 0, false, false, None, None);
    assert InsertedBy(s.handlers, r, d) && d !in s.workers;
    SpawnOwner(s.busy, s.owner, s.handlers, LockHolders(s.workers), r, d, w.app);
    assert LockHolders(s.workers[d := w]) == LockHolders(s.workers)[d := w.app];
    SpawnTable(s.containers, s.nextContainer, s.workers, s.actions, s.janitor, d, w);
    SpawnRows(s, r, w);
  }

  // ---- apps, actions, reconcile, prune and drain ------------------------

  lemma RemoveAppInv(s: State, a: AppId)
    requires Inv(s)
    ensures Inv(s.(apps := s.apps - {a}, containers := ClearEdge(s.containers, a),
                                         deploys := DetachDeploys(s.deploys, a)))
  {
    ClearEdgeShrinks(s.containers, a);
    ShrinkKeepsStructure(s, ClearEdge(s.containers, a));
  }

  lemma ActionInv(s: State, step: Step)
    requires Inv(s) && Enabled(s, step) && (step.BeginAction? || step.EndAction?)
    ensures Inv(Apply(s, step))
  {
    if step.EndAction? {
      StatusKeepsStructure(s, s.actions[step.request], step.status);
    }
  }

  lemma PruneStepInv(s: State, step: Step)
    requires Inv(s) && Enabled(s, step)
    requires step.StartPrune? || step.ListCurrent? || step.QueryPrunable? || step.EndPrune?
    ensures Inv(Apply(s, step))
  {
    if step.QueryPrunable? {
      var todo := PrunableIds(s.containers, s.janitor.cutoff, s.janitor.current);
      forall c | c in todo ensures c !in LinkingRows(s.workers) {}
    }
  }

  lemma DeleteInv(s: State, c: ContainerId, dbOk: bool)
    requires Inv(s) && Enabled(s, DeleteRow(c, dbOk))
    ensures Inv(Apply(s, DeleteRow(c, dbOk)))
  {
    assert Spent(LinkingRows(s.workers), s.nextContainer, c);
    forall d | d in s.workers && IsLinking(s.workers[d]) ensures s.workers[d].container.value != c {
      assert s.workers[d].container.value in LinkingRows(s.workers);
    }
  }

  lemma SwapInv(s: State)
    requires Inv(s) && s.drain.Serving?
    ensures Inv(Apply(s, SwapInflight))
  {}

  lemma MarkInv(s: State, d: DeployId, dbOk: bool)
    requires Inv(s) && Enabled(s, MarkStraggler(d, dbOk))
    ensures Inv(Apply(s, MarkStraggler(d, dbOk)))
  {}

  lemma HandlerInv(s: State, step: Step)
    requires Inv(s) && Enabled(s, step)
    requires step.Acquire? || step.InsertRow? || step.InsertFails? || step.Spawn?
    ensures Inv(Apply(s, step))
  {
    match step {
      case Acquire(r, a) => AcquireInv(s, r, a);
      case InsertRow(r) => InsertInv(s, r);
      case InsertFails(r) => InsertFailsInv(s, r);
      case Spawn(r) => SpawnInv(s, r);
    }
  }

  lemma JanitorInv(s: State, step: Step)
    requires Inv(s) && Enabled(s, step)
    requires step.StartPrune? || step.ListCurrent? || step.QueryPrunable? || step.DeleteRow? || step.EndPrune?
    ensures Inv(Apply(s, step))
  {
    if step.DeleteRow? {
      DeleteInv(s, step.container, step.dbOk);
    } else {
      PruneStepInv(s, step);
    }
  }

  /** The inductive step: whatever process moves, the invariant holds again. */
  lemma StepInv(s: State, step: Step)
    requires Inv(s) && Enabled(s, step)
    ensures Inv(Apply(s, step))
  {
    if step.Work? {
      WorkInv(s, step.deploy, step.work);
    } else if step.Acquire? || step.InsertRow? || step.InsertFails? || step.Spawn? {
      HandlerInv(s, step);
    } else if step.StartPrune? || step.ListCurrent? || step.QueryPrunable? || step.DeleteRow? || step.EndPrune? {
      JanitorInv(s, step);
    } else if step.BeginAction? || step.EndAction? {
      ActionInv(s, step);
    } else {
      match step {
        case Tick(_) =>
        case AddApp(_) =>
        case RemoveApp(a) => RemoveAppInv(s, a);
        case ReconcileClear(a) => ShrinkInv(s, a);
        case SwapInflight => SwapInv(s);
        case MarkStraggler(d, dbOk) => MarkInv(s, d, dbOk);
      }
    }
  }
}
