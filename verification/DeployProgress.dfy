/** What the processes of the deploy protocol can always do: take a free lock, go on, fail, and finish. */
module DeployProgress {
  import opened Wrappers
  import opened DeployProtocol
  import opened DeployInvariant
  import opened DeploySafety
  import opened DeployHistory

  // ---- the lock ----------------------------------------------------------

  /** A deploy of an app is turned away if and only if another one is under way. */
  lemma TurnedAwayIff(run: seq<State>, steps: seq<Step>, i: nat, r: RequestId, a: AppId)
    requires IsRun(run, steps) && i < |run| && r !in run[i].handlers
    ensures Enabled(run[i], Acquire(r, a)) <==> Unowned(run[i], a)
  {
    MutualExclusion(run, steps, i, a);
    if Unowned(run[i], a) {
      assert !exists o :: Owns(run[i], o, a);
    }
  }

  // ---- no worker is ever stuck -------------------------------------------

  /** What a worker does next if nothing goes wrong. */
  function NextWork(s: State, w: Worker): WorkerStep {
    match w.pc
    case Spawned => Register
    case Arming => ArmTimeout
    case Loading => LoadApp
    case OpeningLog => OpenLog(true)
    case Clearing => ClearCurrent
    case Inspecting => InspectCurrent(None)
    case Deploying => FinishDocker
    case Creating => CreateRow(s.clock)
    case Linking => LinkCurrent
    case Reloading => ReloadCaddy
    case Finishing => WriteSuccess(true)
    case Retiring => RetireOld(true)
    case MarkingFailed => MarkFailed(true)
    case Unwinding => Unwind(false, true)
  }

  lemma StepClock(s: State, step: Step)
    requires Enabled(s, step)
    ensures s.clock <= Apply(s, step).clock
  {
    if step.Work? { WorkClock(s, step.deploy, s.workers[step.deploy], step.work); }
  }

  lemma WorkClock(s: State, d: DeployId, w: Worker, e: WorkerStep)
    requires WorkEnabled(s, w, e)
    ensures WorkApply(s, d, w, e).clock == s.clock
  {
    if e.Unwind? {
      DeferredClock(s, d, w, w.defers[|w.defers| - 1], e.partialLine, e.dbOk);
    } else {
      assert Effect(s, d, w, e).clock == s.clock;
    }
  }

  lemma DeferredClock(s: State, d: DeployId, w: Worker, call: Deferred, partialLine: bool, dbOk: bool)
    ensures RunDeferred(s, d, w, call, partialLine, dbOk).clock == s.clock
  {
    match call
    case CloseLog =>
    case CancelTimeout =>
    case RecoverPanic =>
    case ReleaseLock =>
    case LeaveInflight =>
  }

  lemma {:induction false} ClockForward(run: seq<State>, steps: seq<Step>, k: nat, i: nat)
    requires IsRun(run, steps) && k <= i < |run|
    ensures run[k].clock <= run[i].clock
    decreases i
  {
    if k < i {
      ClockForward(run, steps, k, i - 1);
      assert Enabled(run[i - 1], steps[i - 1]);
      StepClock(run[i - 1], steps[i - 1]);
    }
  }

  /** The worker's deadline has not passed, if it has one, and its app is still there. */
  predicate InTime(s: State, w: Worker) {
    w.app in s.apps && (Armed(w) ==> s.clock <= w.deadline)
  }

  lemma NextIsEnabled(s: State, d: DeployId)
    requires Inv(s) && d in s.workers && !Finished(s, d) && InTime(s, s.workers[d])
    requires s.workers[d].pc.Creating? ==> s.workers[d].deadline - DEPLOY_TIMEOUT <= s.clock
    requires s.workers[d].pc.Linking? ==>
      s.workers[d].container.Some? && EdgeFree(s.containers, s.workers[d].app, s.workers[d].container.value)
    ensures Enabled(s, Work(d, NextWork(s, s.workers[d])))
  {
    match s.workers[d].pc
    case Spawned =>
    case Arming =>
    case Unwinding =>
    case Linking =>
    case _ =>
  }

  /**
   A worker that is in time can always go on to its next step: nothing another process does can stand in its way. One
   that is late, or whose app has been removed, can go on or fail.
   */
  lemma WorkerCanGoOn(run: seq<State>, steps: seq<Step>, i: nat, d: DeployId)
    requires IsRun(run, steps) && i < |run| && d in run[i].workers && !Finished(run[i], d)
    ensures InTime(run[i], run[i].workers[d]) ==> Enabled(run[i], Work(d, NextWork(run[i], run[i].workers[d])))
    ensures Enabled(run[i], Work(d, NextWork(run[i], run[i].workers[d]))) || Enabled(run[i], Work(d, Fail))
  {
    var s, w := run[i], run[i].workers[d];
    RunInv(run, steps, i);
    if w.pc.Linking? { SetCurrentFindsFreeEdge(run, steps, i, d); }
    if w.pc.Creating? {
      var k := DeadlineSet(run, steps, i, d);
      ClockForward(run, steps, k, i);
    }
    if InTime(s, w) { NextIsEnabled(s, d); }
  }

  /**
   Only deploys wait for one another: an action on a current container and a reconcile or a removal of an app can come
   at any moment of any deploy.
   */
  lemma RequestsNeverWait(s: State, a: AppId, r: RequestId, c: ContainerId, saved: bool)
    ensures Enabled(s, RemoveApp(a)) <==> a in s.apps
    ensures Enabled(s, ReconcileClear(a)) <==> a in s.apps
    ensures r !in s.actions && c in s.containers && s.containers[c].currentFor.Some? ==> Enabled(s, BeginAction(r, c))
    ensures r in s.actions ==> Enabled(s, EndAction(r, CRunning, saved)) && Enabled(s, EndAction(r, CExited, saved))
    ensures r in s.handlers && s.handlers[r].Acquired? ==>
      Enabled(s, InsertFails(r)) && (s.handlers[r].app in s.apps ==> Enabled(s, InsertRow(r)))
    ensures r in s.handlers && s.handlers[r].Inserted? ==> Enabled(s, Spawn(r))
  {}

  /** So can every step of the prune and of the drain. */
  lemma PruneAndDrainNeverWait(s: State, c: ContainerId, d: DeployId, dbOk: bool)
    ensures Enabled(s, StartPrune) <==> s.janitor == Idle
    ensures s.janitor.Started? ==> Enabled(s, ListCurrent)
    ensures s.janitor.Listed? ==> Enabled(s, QueryPrunable)
    ensures s.janitor.Deleting? && c in s.janitor.todo ==> Enabled(s, DeleteRow(c, dbOk))
    ensures s.janitor != Idle ==> Enabled(s, EndPrune)
    ensures Enabled(s, SwapInflight) <==> s.drain == Serving
    ensures s.drain.Draining? && d in s.drain.stragglers ==> Enabled(s, MarkStraggler(d, dbOk))
  {}

  /** Every call of a worker can fail, every status write can be lost, and a panic can strike anywhere in the body. */
  lemma AnythingCanFail(s: State, d: DeployId, dbOk: bool)
    requires d in s.workers
    ensures var pc := s.workers[d].pc;
      && (pc != Spawned && pc != Unwinding ==> Enabled(s, Work(d, Panic)))
      && (pc in {Loading, OpeningLog, Clearing, Inspecting, Deploying, Creating, Linking, Reloading} ==>
            Enabled(s, Work(d, Fail)))
      && (pc == Finishing ==> Enabled(s, Work(d, WriteSuccess(dbOk))))
      && (pc == MarkingFailed ==> Enabled(s, Work(d, MarkFailed(dbOk))))
  {}

  /** The choices of a worker: to have a log, to log any number of lines, when its row was made, and a partial line. */
  lemma WorkerChooses(s: State, d: DeployId, yes: bool, time: Time, dbOk: bool)
    requires d in s.workers
    ensures var w := s.workers[d];
      && (w.pc == OpeningLog ==> Enabled(s, Work(d, OpenLog(yes))))
      && (w.pc == Deploying && w.logOpen ==> Enabled(s, Work(d, AppendLine)))
      && (w.pc == Creating && InTime(s, w) && w.deadline - 1800 <= time <= s.clock ==>
            Enabled(s, Work(d, CreateRow(time))))
      && (w.pc == Unwinding && w.defers != [] ==> Enabled(s, Work(d, Unwind(yes, dbOk))))
  {}

  // ---- a deploy that nothing disturbs ------------------------------------

  /** The steps can be taken one after the other, and end in t. */
  predicate Leads(s: State, steps: seq<Step>, t: State)
    decreases |steps|
  {
    if steps == [] then s == t else Enabled(s, steps[0]) && Leads(Apply(s, steps[0]), steps[1..], t)
  }

  lemma {:induction false} LeadsOn(s: State, a: seq<Step>, t: State, b: seq<Step>, u: State)
    requires Leads(s, a, t) && Leads(t, b, u)
    ensures Leads(s, a + b, u)
    decreases |a|
  {
    if a == [] {
      assert a + b == b;
    } else {
      assert (a + b)[0] == a[0] && (a + b)[1..] == a[1..] + b;
      LeadsOn(Apply(s, a[0]), a[1..], t, b, u);
    }
  }

  lemma One(s: State, d: DeployId, e: WorkerStep) returns (t: State, steps: seq<Step>)
    requires d in s.workers && WorkEnabled(s, s.workers[d], e)
    ensures steps == [Work(d, e)] && Leads(s, steps, t) && t == WorkApply(s, d, s.workers[d], e)
  {
    steps, t := [Work(d, e)], Apply(s, Work(d, e));
    assert steps[1..] == [];
  }

  predicate AllOf(steps: seq<Step>, d: DeployId) {
    forall k :: 0 <= k < |steps| ==> steps[k].Work? && steps[k].deploy == d
  }

  lemma Then(s: State, steps: seq<Step>, t: State, d: DeployId, e: WorkerStep) returns (u: State, more: seq<Step>)
    requires Leads(s, steps, t) && AllOf(steps, d) && d in t.workers && WorkEnabled(t, t.workers[d], e)
    ensures Leads(s, more, u) && AllOf(more, d) && u == WorkApply(t, d, t.workers[d], e)
  {
    var last;
    u, last := One(t, d, e);
    more := steps + last;
    LeadsOn(s, steps, t, last, u);
  }

  /** A worker of app a whose body began at the clock of s, with so many of its deferred calls left to run. */
  function Body(s: State, a: AppId, pc: Pc, defers: nat, logOpen: bool): Worker
    requires defers <= |DEFER_ORDER|
  {
    Worker(a, pc, DEFER_ORDER[..defers], false, s.clock + 1800, logOpen, false, None, None)
  }

  /** The worker after the clear, and once it has inserted its row. */
  function ClearedBody(s: State, a: AppId, pc: Pc): Worker {
    Body(s, a, pc, 5, true).(cleared := true)
  }

  function PlacedBody(s: State, a: AppId, pc: Pc, defers: nat, logOpen: bool): Worker
    requires defers <= |DEFER_ORDER|
  {
    Body(s, a, pc, defers, logOpen).(cleared := true, container := Some(s.nextContainer))
  }

  /** What a worker's steps change. */
  datatype Part = Part(worker: Worker, containers: Containers, nextContainer: ContainerId,
                       deploys: Deploys, busy: set<AppId>, inflight: map<DeployId, AppId>)

  /** The state t differs from s in that part. */
  predicate Is(s: State, t: State, d: DeployId, p: Part) {
    && t.workers == s.workers[d := p.worker]
    && t.containers == p.containers && t.nextContainer == p.nextContainer
    && t.deploys == p.deploys && t.busy == p.busy && t.inflight == p.inflight
    && t.clock == s.clock && t.apps == s.apps
    && t.handlers == s.handlers && t.actions == s.actions && t.janitor == s.janitor && t.drain == s.drain
  }

  function Begun(s: State, d: DeployId, w: Worker): Part {
    Part(w, s.containers, s.nextContainer, s.deploys, s.busy, s.inflight[d := w.app])
  }

  /** The app's edge has been cleared. */
  function Cleared(s: State, d: DeployId, w: Worker): Part {
    Begun(s, d, w).(containers := ClearEdge(s.containers, w.app))
  }

  function WithRow(s: State, a: AppId, currentFor: Option<AppId>): Containers {
    ClearEdge(s.containers, a)[s.nextContainer := ContainerRow(CRunning, s.clock, currentFor)]
  }

  /** The deploy's container row has been inserted, and is current or not. */
  function Placed(s: State, d: DeployId, w: Worker, currentFor: Option<AppId>): Part {
    Begun(s, d, w).(containers := WithRow(s, w.app, currentFor), nextContainer := s.nextContainer + 1)
  }

  /** The success has been written. */
  function Written(s: State, d: DeployId, w: Worker): Part {
    Placed(s, d, w, Some(w.app)).(deploys := StatusWritten(s.deploys, d, DSuccess, true))
  }

  function Released(s: State, d: DeployId, w: Worker): Part {
    Written(s, d, w).(busy := s.busy - {w.app})
  }

  predicate Starting(s: State, d: DeployId, a: AppId) {
    d in s.workers && s.workers[d] == NewWorker(a) && a in s.apps
  }

  lemma Defers()
    ensures DEFER_ORDER[..3] == [LeaveInflight, ReleaseLock, RecoverPanic]
    ensures DEFER_ORDER[..3] + [CancelTimeout] == DEFER_ORDER[..4] && DEFER_ORDER[..4] + [CloseLog] == DEFER_ORDER[..5]
  {}

  lemma Pops(w: Worker, n: nat)
    requires 0 < n <= 5 && w.defers == DEFER_ORDER[..n]
    ensures w.defers != [] && w.defers[|w.defers| - 1] == DEFER_ORDER[n - 1]
    ensures Popped(w) == w.(defers := DEFER_ORDER[..n - 1], logOpen := w.logOpen && n != 5,
                            panicking := w.panicking && n != 3)
  {
    assert DEFER_ORDER[..n][..n - 1] == DEFER_ORDER[..n - 1];
  }

  lemma ArmedBody(s: State, a: AppId, t: State)
    requires t.clock == s.clock
    ensures WorkerAfter(t, Body(s, a, Arming, 3, false).(deadline := 0), ArmTimeout) == Body(s, a, Loading, 4, false)
  {
    Defers();
  }

  lemma LoggingBody(s: State, a: AppId, t: State)
    ensures WorkerAfter(t, Body(s, a, OpeningLog, 4, false), OpenLog(true)) == Body(s, a, Clearing, 5, true)
  {
    Defers();
  }

  lemma EdgeCleared(s: State, u: State, d: DeployId, a: AppId)
    requires Is(s, u, d, Begun(s, d, Body(s, a, Clearing, 5, true)))
    requires d in u.workers && WorkEnabled(u, u.workers[d], ClearCurrent)
    ensures Is(s, WorkApply(u, d, u.workers[d], ClearCurrent), d, Cleared(s, d, ClearedBody(s, a, Inspecting)))
  {}

  lemma RowIsFree(s: State, a: AppId)
    ensures EdgeFree(WithRow(s, a, None), a, s.nextContainer)
    ensures WithRow(s, a, None)[s.nextContainer := WithRow(s, a, None)[s.nextContainer].(currentFor := Some(a))]
            == WithRow(s, a, Some(a))
  {}

  lemma Registers(s: State, d: DeployId, a: AppId) returns (steps: seq<Step>, t: State)
    requires Starting(s, d, a)
    ensures AllOf(steps, d) && Leads(s, steps, t)
    ensures Is(s, t, d, Begun(s, d, Body(s, a, Arming, 3, false).(deadline := 0)))
  {
    Defers();
    t, steps := One(s, d, Register);
  }

  lemma Arms(s: State, d: DeployId, a: AppId) returns (steps: seq<Step>, t: State)
    requires Starting(s, d, a)
    ensures AllOf(steps, d) && Leads(s, steps, t) && Is(s, t, d, Begun(s, d, Body(s, a, Loading, 4, false)))
  {
    var u;
    steps, u := Registers(s, d, a);
    ArmedBody(s, a, u);
    t, steps := Then(s, steps, u, d, ArmTimeout);
  }

  lemma Loads(s: State, d: DeployId, a: AppId) returns (steps: seq<Step>, t: State)
    requires Starting(s, d, a)
    ensures AllOf(steps, d) && Leads(s, steps, t) && Is(s, t, d, Begun(s, d, Body(s, a, OpeningLog, 4, false)))
  {
    var u;
    steps, u := Arms(s, d, a);
    t, steps := Then(s, steps, u, d, LoadApp);
  }

  lemma OpensLog(s: State, d: DeployId, a: AppId) returns (steps: seq<Step>, t: State)
    requires Starting(s, d, a)
    ensures AllOf(steps, d) && Leads(s, steps, t) && Is(s, t, d, Begun(s, d, Body(s, a, Clearing, 5, true)))
  {
    var u;
    steps, u := Loads(s, d, a);
    LoggingBody(s, a, u);
    t, steps := Then(s, steps, u, d, OpenLog(true));
  }

  lemma Clears(s: State, d: DeployId, a: AppId) returns (steps: seq<Step>, t: State)
    requires Starting(s, d, a)
    ensures AllOf(steps, d) && Leads(s, steps, t) && Is(s, t, d, Cleared(s, d, ClearedBody(s, a, Inspecting)))
  {
    var u;
    steps, u := OpensLog(s, d, a);
    EdgeCleared(s, u, d, a);
    t, steps := Then(s, steps, u, d, ClearCurrent);
  }

  lemma Inspects(s: State, d: DeployId, a: AppId) returns (steps: seq<Step>, t: State)
    requires Starting(s, d, a)
    ensures AllOf(steps, d) && Leads(s, steps, t) && Is(s, t, d, Cleared(s, d, ClearedBody(s, a, Deploying)))
  {
    var u;
    steps, u := Clears(s, d, a);
    t, steps := Then(s, steps, u, d, InspectCurrent(None));
  }

  lemma Runs(s: State, d: DeployId, a: AppId) returns (steps: seq<Step>, t: State)
    requires Starting(s, d, a)
    ensures AllOf(steps, d) && Leads(s, steps, t) && Is(s, t, d, Cleared(s, d, ClearedBody(s, a, Creating)))
  {
    var u;
    steps, u := Inspects(s, d, a);
    t, steps := Then(s, steps, u, d, FinishDocker);
  }

  lemma Creates(s: State, d: DeployId, a: AppId) returns (steps: seq<Step>, t: State)
    requires Starting(s, d, a)
    ensures AllOf(steps, d) && Leads(s, steps, t)
    ensures Is(s, t, d, Placed(s, d, PlacedBody(s, a, Linking, 5, true), None))
  {
    var u;
    steps, u := Runs(s, d, a);
    t, steps := Then(s, steps, u, d, CreateRow(s.clock));
  }

  lemma Links(s: State, d: DeployId, a: AppId) returns (steps: seq<Step>, t: State)
    requires Starting(s, d, a)
    ensures AllOf(steps, d) && Leads(s, steps, t)
    ensures Is(s, t, d, Placed(s, d, PlacedBody(s, a, Reloading, 5, true), Some(a)))
  {
    var u;
    steps, u := Creates(s, d, a);
    RowIsFree(s, a);
    t, steps := Then(s, steps, u, d, LinkCurrent);
  }

  lemma Reloads(s: State, d: DeployId, a: AppId) returns (steps: seq<Step>, t: State)
    requires Starting(s, d, a)
    ensures AllOf(steps, d) && Leads(s, steps, t)
    ensures Is(s, t, d, Placed(s, d, PlacedBody(s, a, Finishing, 5, true), Some(a)))
  {
    var u;
    steps, u := Links(s, d, a);
    t, steps := Then(s, steps, u, d, ReloadCaddy);
  }

  lemma Writes(s: State, d: DeployId, a: AppId) returns (steps: seq<Step>, t: State)
    requires Starting(s, d, a)
    ensures AllOf(steps, d) && Leads(s, steps, t)
    ensures Is(s, t, d, Written(s, d, PlacedBody(s, a, Retiring, 5, true)))
  {
    var u;
    steps, u := Reloads(s, d, a);
    t, steps := Then(s, steps, u, d, WriteSuccess(true));
  }

  lemma RetiresNothing(s: State, d: DeployId, a: AppId) returns (steps: seq<Step>, t: State)
    requires Starting(s, d, a)
    ensures AllOf(steps, d) && Leads(s, steps, t)
    ensures Is(s, t, d, Written(s, d, PlacedBody(s, a, Unwinding, 5, true)))
  {
    var u;
    steps, u := Writes(s, d, a);
    t, steps := Then(s, steps, u, d, RetireOld(true));
  }

  lemma ClosesLog(s: State, d: DeployId, a: AppId) returns (steps: seq<Step>, t: State)
    requires Starting(s, d, a)
    ensures AllOf(steps, d) && Leads(s, steps, t)
    ensures Is(s, t, d, Written(s, d, PlacedBody(s, a, Unwinding, 4, false)))
  {
    var u;
    steps, u := RetiresNothing(s, d, a);
    Pops(u.workers[d], 5);
    t, steps := Then(s, steps, u, d, Unwind(false, true));
  }

  lemma CancelsTimeout(s: State, d: DeployId, a: AppId) returns (steps: seq<Step>, t: State)
    requires Starting(s, d, a)
    ensures AllOf(steps, d) && Leads(s, steps, t)
    ensures Is(s, t, d, Written(s, d, PlacedBody(s, a, Unwinding, 3, false)))
  {
    var u;
    steps, u := ClosesLog(s, d, a);
    Pops(u.workers[d], 4);
    t, steps := Then(s, steps, u, d, Unwind(false, true));
  }

  lemma RecoversNothing(s: State, d: DeployId, a: AppId) returns (steps: seq<Step>, t: State)
    requires Starting(s, d, a)
    ensures AllOf(steps, d) && Leads(s, steps, t)
    ensures Is(s, t, d, Written(s, d, PlacedBody(s, a, Unwinding, 2, false)))
  {
    var u;
    steps, u := CancelsTimeout(s, d, a);
    Pops(u.workers[d], 3);
    t, steps := Then(s, steps, u, d, Unwind(false, true));
  }

  lemma ReleasesLock(s: State, d: DeployId, a: AppId) returns (steps: seq<Step>, t: State)
    requires Starting(s, d, a)
    ensures AllOf(steps, d) && Leads(s, steps, t)
    ensures Is(s, t, d, Released(s, d, PlacedBody(s, a, Unwinding, 1, false)))
  {
    var u;
    steps, u := RecoversNothing(s, d, a);
    Pops(u.workers[d], 2);
    t, steps := Then(s, steps, u, d, Unwind(false, true));
  }

  function Over(s: State, d: DeployId, a: AppId): Part {
    Released(s, d, PlacedBody(s, a, Unwinding, 0, false)).(inflight := s.inflight - {d})
  }

  lemma LeftInflight(inflight: map<DeployId, AppId>, d: DeployId, a: AppId)
    ensures inflight[d := a] - {d} == inflight - {d}
  {}

  lemma Leaves(s: State, d: DeployId, a: AppId) returns (steps: seq<Step>, t: State)
    requires Starting(s, d, a)
    ensures AllOf(steps, d) && Leads(s, steps, t) && Is(s, t, d, Over(s, d, a))
  {
    var u;
    steps, u := ReleasesLock(s, d, a);
    Pops(u.workers[d], 1);
    LeftInflight(s.inflight, d, a);
    t, steps := Then(s, steps, u, d, Unwind(false, true));
  }

  /** The deploy is over: it has succeeded, its new container is current, and it has given everything back. */
  ghost predicate Deployed(s: State, t: State, d: DeployId, a: AppId) {
    && d in t.deploys && t.deploys[d].status == DSuccess
    && (exists c ::
          c !in s.containers && c in t.containers && t.containers[c] == ContainerRow(CRunning, s.clock, Some(a)))
    && t.busy == s.busy - {a} && d !in t.inflight && Finished(t, d)
  }

  /** The app's old container is no longer current, and everything else is as it was. */
  ghost predicate OthersAlone(s: State, t: State, d: DeployId, a: AppId) {
    && (forall x :: x != d && x in s.deploys ==> x in t.deploys && t.deploys[x] == s.deploys[x])
    && (forall c :: c in s.containers ==> c in t.containers && t.containers[c] == Displaced(s.containers[c], a))
    && (forall x :: x != d && x in s.workers ==> x in t.workers && t.workers[x] == s.workers[x])
    && t.handlers == s.handlers && t.actions == s.actions && t.janitor == s.janitor && t.drain == s.drain
  }

  function Displaced(row: ContainerRow, a: AppId): ContainerRow {
    if row.currentFor == Some(a) then row.(currentFor := None) else row
  }

  lemma OverIsDeployed(s: State, t: State, d: DeployId, a: AppId)
    requires Starting(s, d, a) && d in s.deploys && s.nextContainer !in s.containers && Is(s, t, d, Over(s, d, a))
    ensures Deployed(s, t, d, a)
  {
    assert t.containers[s.nextContainer] == ContainerRow(CRunning, s.clock, Some(a));
  }

  lemma OverLeavesOthers(s: State, t: State, d: DeployId, a: AppId)
    requires Starting(s, d, a) && s.nextContainer !in s.containers && Is(s, t, d, Over(s, d, a))
    ensures OthersAlone(s, t, d, a)
  {}

  /** A worker that has not taken a step is as it was spawned. */
  lemma {:induction false} SpawnedIsNew(run: seq<State>, steps: seq<Step>, i: nat, d: DeployId)
    requires IsRun(run, steps) && i < |run| && d in run[i].workers && run[i].workers[d].pc.Spawned?
    ensures run[i].workers[d] == NewWorker(run[i].workers[d].app)
  {
    assert i > 0;
    var s, step := run[i - 1], steps[i - 1];
    assert Enabled(s, step);
    if step.Work? && step.deploy == d {
      OwnStep(s, d, step.work);
      NeverSpawnedAgain(s, s.workers[d], step.work);
    } else {
      StepWorker(s, step, d);
      if d in s.workers && s.workers[d] == run[i].workers[d] { SpawnedIsNew(run, steps, i - 1, d); }
    }
  }

  lemma NeverSpawnedAgain(s: State, w: Worker, e: WorkerStep)
    requires WorkEnabled(s, w, e)
    ensures !WorkerAfter(s, w, e).pc.Spawned?
  {}

  /**
   A worker that has just been spawned can bring its deploy to its end by its own steps, in every state of every run
   in which its app is still there.
   */
  lemma DeploySucceeds(run: seq<State>, steps: seq<Step>, i: nat, d: DeployId) returns (own: seq<Step>, t: State)
    requires IsRun(run, steps) && i < |run| && d in run[i].workers && run[i].workers[d].pc.Spawned?
    requires run[i].workers[d].app in run[i].apps
    ensures Leads(run[i], own, t) && AllOf(own, d)
    ensures Deployed(run[i], t, d, run[i].workers[d].app) && OthersAlone(run[i], t, d, run[i].workers[d].app)
  {
    var s, a := run[i], run[i].workers[d].app;
    SpawnedIsNew(run, steps, i, d);
    own, t := Leaves(s, d, a);
    RowExists(run, steps, i, d);
    OverIsDeployed(s, t, d, a);
    OverLeavesOthers(s, t, d, a);
  }

  lemma RowExists(run: seq<State>, steps: seq<Step>, i: nat, d: DeployId)
    requires IsRun(run, steps) && i < |run| && d in run[i].workers
    ensures d in run[i].deploys && run[i].nextContainer !in run[i].containers
  {
    RunInv(run, steps, i);
    assert RowOf(run[i].deploys, d, run[i].workers[d].app);
  }
}
