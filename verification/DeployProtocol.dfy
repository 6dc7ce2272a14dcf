/**
 The deploy protocol as a transition system: the HTTP handlers that take the
 per-app lock, insert a row and spawn a worker; the worker with its stack of
 deferred calls; start/stop actions; reconcile; the Janitor's container prune;
 and the shutdown drain. One step is one lock operation, one database call or
 one docker call, so every interleaving of the processes is a run.
 */
module DeployProtocol {
  import opened Wrappers

  type AppId = int
  type DeployId = int
  type ContainerId = int
  type RequestId = int
  type Time = int // seconds

  const MINUTE: Time := 60
  const DAY: Time := 24 * 60 * MINUTE
  const DEPLOY_TIMEOUT: Time := 30 * MINUTE

  // ---- rows --------------------------------------------------------------

  datatype DeployStatus = DPending | DRunning | DSuccess | DFailed
  datatype ContainerStatus =
    CCreated | CRunning | CPaused | CRestarting | CRemoving | CExited | CDead | CRetired

  datatype DeployRow = DeployRow(app: Option<AppId>, status: DeployStatus)

  /** The one-to-one edge App.current_container is a column of the container table. */
  datatype ContainerRow = ContainerRow(status: ContainerStatus, createdAt: Time, currentFor: Option<AppId>)

  predicate Terminal(status: DeployStatus) {
    status.DSuccess? || status.DFailed?
  }

  predicate Prunable(row: ContainerRow, cutoff: Time) {
    (row.status.CExited? || row.status.CDead? || row.status.CRetired?) && row.createdAt < cutoff
  }

  // ---- processes ---------------------------------------------------------

  /** A request handler that has taken the lock: before and after its row insert. */
  datatype Handler = Acquired(app: AppId) | Inserted(app: AppId, deploy: DeployId)

  /** The worker's deferred calls, in the order it registers them. */
  datatype Deferred = LeaveInflight | ReleaseLock | RecoverPanic | CancelTimeout | CloseLog

  const DEFER_ORDER: seq<Deferred> := [LeaveInflight, ReleaseLock, RecoverPanic, CancelTimeout, CloseLog]

  datatype Pc =
    | Spawned | Arming | Loading | OpeningLog | Clearing | Inspecting | Deploying | Creating
    | Linking | Reloading | Finishing | Retiring | MarkingFailed | Unwinding

  datatype Worker = Worker(
    app: AppId,
    pc: Pc,
    defers: seq<Deferred>,           // a stack: the last element runs first
    panicking: bool,
    deadline: Time,
    logOpen: bool,
    cleared: bool,                   // the clear of the current edge has succeeded
    container: Option<ContainerId>,  // the row this worker inserted
    retiree: Option<ContainerId>)    // the old container it stashed for retirement

  datatype Janitor =
    | Idle
    | Started(cutoff: Time)
    | Listed(cutoff: Time, current: set<ContainerId>)
    | Deleting(cutoff: Time, todo: set<ContainerId>)

  datatype Drain = Serving | Draining(stragglers: set<DeployId>)

  /** Who holds an app's lock. */
  datatype Owner = ByRequest(request: RequestId) | ByWorker(deploy: DeployId)

  datatype State = State(
    clock: Time,
    keepDays: nat,
    apps: set<AppId>,
    deploys: map<DeployId, DeployRow>,
    containers: map<ContainerId, ContainerRow>,
    nextDeploy: DeployId,
    nextContainer: ContainerId,
    busy: set<AppId>,
    inflight: map<DeployId, AppId>,
    handlers: map<RequestId, Handler>,
    workers: map<DeployId, Worker>,
    actions: map<RequestId, ContainerId>, // start/stop/restart requests and the row they loaded
    log: map<DeployId, nat>,              // lines in each deploy's log file
    janitor: Janitor,
    drain: Drain,
    // History, never read by a guard.
    owner: map<AppId, Owner>,
    acquired: multiset<AppId>,
    released: multiset<AppId>,
    lost: set<DeployId>)                  // running at boot, or a worker's own status write failed

  // ---- steps -------------------------------------------------------------

  datatype WorkerStep =
    | Register
    | ArmTimeout
    | LoadApp
    | OpenLog(hasStore: bool)
    | ClearCurrent
    | InspectCurrent(found: Option<ContainerId>)
    | AppendLine
    | FinishDocker
    | CreateRow(createdAt: Time)
    | LinkCurrent
    | ReloadCaddy
    | WriteSuccess(dbOk: bool)
    | RetireOld(saved: bool)
    | Fail
    | MarkFailed(dbOk: bool)
    | Panic
    | Unwind(partialLine: bool, dbOk: bool)

  datatype Step =
    | Tick(now: Time)
    | AddApp(app: AppId)
    | RemoveApp(app: AppId)
    | Acquire(request: RequestId, app: AppId)
    | InsertRow(request: RequestId)
    | InsertFails(request: RequestId)
    | Spawn(request: RequestId)
    | Work(deploy: DeployId, work: WorkerStep)
    | BeginAction(request: RequestId, container: ContainerId)
    | EndAction(request: RequestId, status: ContainerStatus, saved: bool)
    | ReconcileClear(app: AppId)
    | StartPrune
    | ListCurrent
    | QueryPrunable
    | DeleteRow(container: ContainerId, dbOk: bool)
    | EndPrune
    | SwapInflight
    | MarkStraggler(deploy: DeployId, dbOk: bool)

  // ---- lock, rows and edges as the steps use them ------------------------

  function CurrentIds(containers: map<ContainerId, ContainerRow>): set<ContainerId> {
    set c | c in containers && containers[c].currentFor.Some?
  }

  function PrunableIds(containers: map<ContainerId, ContainerRow>, cutoff: Time,
                       current: set<ContainerId>): set<ContainerId> {
    set c | c in containers && Prunable(containers[c], cutoff) && c !in current
  }

  /** ClearCurrentContainer: UPDATE containers SET app_current_container = NULL for this app. */
  function ClearEdge(containers: map<ContainerId, ContainerRow>, app: AppId): map<ContainerId, ContainerRow> {
    map c | c in containers ::
      if containers[c].currentFor == Some(app) then containers[c].(currentFor := None) else containers[c]
  }

  /** The UNIQUE column lets an edge be set only if neither end already has one. */
  predicate EdgeFree(containers: map<ContainerId, ContainerRow>, app: AppId, container: ContainerId) {
    && container in containers
    && containers[container].currentFor.None?
    && forall c :: c in containers ==> containers[c].currentFor != Some(app)
  }

  function DetachDeploys(deploys: map<DeployId, DeployRow>, app: AppId): map<DeployId, DeployRow> {
    map d | d in deploys :: if deploys[d].app == Some(app) then deploys[d].(app := None) else deploys[d]
  }

  function WithStatus(containers: map<ContainerId, ContainerRow>, container: ContainerId,
                      status: ContainerStatus): map<ContainerId, ContainerRow> {
    if container in containers
    then containers[container := containers[container].(status := status)]
    else containers
  }

  function StatusWritten(deploys: map<DeployId, DeployRow>, deploy: DeployId, status: DeployStatus,
                         written: bool): map<DeployId, DeployRow> {
    if written && deploy in deploys then deploys[deploy := deploys[deploy].(status := status)] else deploys
  }

  /** A worker's status write on its row; one that fails is swallowed, and recorded here as lost. */
  function WriteStatus(s: State, deploy: DeployId, status: DeployStatus, written: bool): State {
    s.(deploys := StatusWritten(s.deploys, deploy, status, written),
       lost := if written then s.lost else s.lost + {deploy})
  }

  function LinesOf(log: map<DeployId, nat>, deploy: DeployId): nat {
    if deploy in log then log[deploy] else 0
  }

  function AppendLines(s: State, deploy: DeployId, n: nat): State {
    s.(log := s.log[deploy := LinesOf(s.log, deploy) + n])
  }

  function Release(s: State, app: AppId): State {
    s.(busy := s.busy - {app}, owner := s.owner - {app}, released := s.released + multiset{app})
  }

  // ---- the worker --------------------------------------------------------

  predicate CanFail(pc: Pc) {
    pc.Loading? || pc.OpeningLog? || pc.Clearing? || pc.Inspecting? || pc.Deploying?
    || pc.Creating? || pc.Linking? || pc.Reloading?
  }

  /** The deferred recover is in place and the body has not returned. */
  predicate InBody(pc: Pc) {
    !pc.Spawned? && !pc.Unwinding?
  }

  predicate WorkEnabled(s: State, w: Worker, e: WorkerStep) {
    match e
    case Register => w.pc.Spawned?
    case ArmTimeout => w.pc.Arming?
    case LoadApp => w.pc.Loading? && w.app in s.apps && s.clock <= w.deadline
    case OpenLog(_) => w.pc.OpeningLog?
    case ClearCurrent => w.pc.Clearing? && w.app in s.apps && s.clock <= w.deadline
    case InspectCurrent(found) =>
      && w.pc.Inspecting?
      && (found.Some? ==> found.value in s.containers && s.containers[found.value].currentFor == Some(w.app))
    case AppendLine => w.pc.Deploying? && w.logOpen
    case FinishDocker => w.pc.Deploying?
    case CreateRow(createdAt) =>
      && w.pc.Creating?
      && w.app in s.apps
      && s.clock <= w.deadline
      && w.deadline - DEPLOY_TIMEOUT <= createdAt <= s.clock
    case LinkCurrent =>
      && w.pc.Linking?
      && w.app in s.apps
      && s.clock <= w.deadline
      && w.container.Some?
      && EdgeFree(s.containers, w.app, w.container.value)
    case ReloadCaddy => w.pc.Reloading?
    case WriteSuccess(_) => w.pc.Finishing?
    case RetireOld(_) => w.pc.Retiring?
    case Fail => CanFail(w.pc)
    case MarkFailed(_) => w.pc.MarkingFailed?
    case Panic => InBody(w.pc)
    case Unwind(_, _) => w.pc.Unwinding? && w.defers != []
  }

  function SetWorker(s: State, d: DeployId, w: Worker): State {
    s.(workers := s.workers[d := w])
  }

  /** The worker after its most recently deferred call has run. */
  function Popped(w: Worker): Worker
    requires w.defers != []
  {
    var n := |w.defers| - 1;
    w.(defers := w.defers[..n],
       logOpen := w.logOpen && !w.defers[n].CloseLog?,
       panicking := w.panicking && !w.defers[n].RecoverPanic?)
  }

  /** What a deferred call of the worker does to the rest of the system. */
  function RunDeferred(s: State, d: DeployId, w: Worker, call: Deferred, partialLine: bool, dbOk: bool): (t: State)
    ensures t.workers == s.workers && t.containers == s.containers && t.nextContainer == s.nextContainer
    ensures t.deploys == StatusWritten(s.deploys, d, DFailed, call.RecoverPanic? && w.panicking && dbOk)
    ensures t.lost == if call.RecoverPanic? && w.panicking && !dbOk then s.lost + {d} else s.lost
  {
    match call
    case CloseLog => AppendLines(s, d, if w.logOpen && partialLine then 1 else 0)
    case CancelTimeout => s
    case RecoverPanic => if w.panicking then WriteStatus(s, d, DFailed, dbOk) else s
    case ReleaseLock => Release(s, w.app)
    case LeaveInflight => s.(inflight := s.inflight - {d})
  }

  /** The worker's own record after a step. */
  function WorkerAfter(s: State, w: Worker, e: WorkerStep): Worker
    requires WorkEnabled(s, w, e)
  {
    match e
    case Register => w.(pc := Arming, defers := [LeaveInflight, ReleaseLock, RecoverPanic])
    case ArmTimeout => w.(pc := Loading, deadline := s.clock + DEPLOY_TIMEOUT, defers := w.defers + [CancelTimeout])
    case LoadApp => w.(pc := OpeningLog)
    case OpenLog(hasStore) => w.(pc := Clearing, logOpen := hasStore, defers := w.defers + [CloseLog])
    case ClearCurrent => w.(pc := Inspecting, cleared := true)
    case InspectCurrent(found) => w.(pc := Deploying, retiree := found)
    case AppendLine => w
    case FinishDocker => w.(pc := Creating)
    case CreateRow(_) => w.(pc := Linking, container := Some(s.nextContainer))
    case LinkCurrent => w.(pc := Reloading)
    case ReloadCaddy => w.(pc := Finishing)
    case WriteSuccess(_) => w.(pc := Retiring)
    case RetireOld(_) => w.(pc := Unwinding)
    case Fail => w.(pc := MarkingFailed)
    case MarkFailed(_) => w.(pc := Unwinding)
    case Panic => w.(pc := Unwinding, panicking := true)
    case Unwind(_, _) => Popped(w)
  }

  /** Both status writes of the body pass the deadline context: they are lost once it has expired. */
  predicate Reaches(s: State, w: Worker, dbOk: bool) {
    dbOk && s.clock <= w.deadline
  }

  /** The step is a status write of the worker's that the database refuses or the deadline cuts off. */
  predicate LosesVerdict(s: State, w: Worker, e: WorkerStep)
    requires WorkEnabled(s, w, e)
  {
    match e
    case WriteSuccess(dbOk) => !Reaches(s, w, dbOk)
    case MarkFailed(dbOk) => !Reaches(s, w, dbOk)
    case Unwind(_, dbOk) => w.defers[|w.defers| - 1].RecoverPanic? && w.panicking && !dbOk
    case _ => false
  }

  /** What a step of worker w of deploy d does to the rest of the system. */
  function Effect(s: State, d: DeployId, w: Worker, e: WorkerStep): (t: State)
    requires WorkEnabled(s, w, e)
    ensures t.workers == s.workers
    ensures t.lost == if LosesVerdict(s, w, e) then s.lost + {d} else s.lost
    ensures t.nextContainer == if e.CreateRow? then s.nextContainer + 1 else s.nextContainer
  {
    match e
    case Register => s.(inflight := s.inflight[d := w.app])
    case OpenLog(hasStore) => AppendLines(s, d, if hasStore then 1 else 0)
    case ClearCurrent => s.(containers := ClearEdge(s.containers, w.app))
    case AppendLine => AppendLines(s, d, 1)
    case CreateRow(createdAt) =>
      s.(containers := s.containers[s.nextContainer := ContainerRow(CRunning, createdAt, None)],
         nextContainer := s.nextContainer + 1)
    case LinkCurrent =>
      var c := w.container.value;
      s.(containers := s.containers[c := s.containers[c].(currentFor := Some(w.app))])
    case WriteSuccess(dbOk) => WriteStatus(s, d, DSuccess, Reaches(s, w, dbOk))
    case MarkFailed(dbOk) => WriteStatus(s, d, DFailed, Reaches(s, w, dbOk))
    case RetireOld(saved) =>
      s.(containers := if saved && w.retiree.Some?
                       then WithStatus(s.containers, w.retiree.value, CExited) else s.containers)
    case Unwind(partialLine, dbOk) => RunDeferred(s, d, w, w.defers[|w.defers| - 1], partialLine, dbOk)
    case _ => s
  }

  function WorkApply(s: State, d: DeployId, w: Worker, e: WorkerStep): State
    requires WorkEnabled(s, w, e)
  {
    SetWorker(Effect(s, d, w, e), d, WorkerAfter(s, w, e))
  }

  // ---- the whole system --------------------------------------------------

  predicate Enabled(s: State, step: Step) {
    match step
    case Tick(now) => s.clock <= now
    case AddApp(a) => a !in s.apps
    case RemoveApp(a) => a in s.apps
    case Acquire(r, a) => r !in s.handlers && a !in s.busy
    case InsertRow(r) => r in s.handlers && s.handlers[r].Acquired? && s.handlers[r].app in s.apps
    case InsertFails(r) => r in s.handlers && s.handlers[r].Acquired?
    case Spawn(r) => r in s.handlers && s.handlers[r].Inserted?
    case Work(d, e) => d in s.workers && WorkEnabled(s, s.workers[d], e)
    case BeginAction(r, c) => r !in s.actions && c in s.containers && s.containers[c].currentFor.Some?
    case EndAction(r, status, _) => r in s.actions && (status.CRunning? || status.CExited?)
    case ReconcileClear(a) => a in s.apps
    case StartPrune => s.janitor.Idle?
    case ListCurrent => s.janitor.Started?
    case QueryPrunable => s.janitor.Listed?
    case DeleteRow(c, _) => s.janitor.Deleting? && c in s.janitor.todo
    case EndPrune => !s.janitor.Idle?
    case SwapInflight => s.drain.Serving?
    case MarkStraggler(d, _) => s.drain.Draining? && d in s.drain.stragglers
  }

  function Apply(s: State, step: Step): State
    requires Enabled(s, step)
  {
    match step
    case Tick(now) => s.(clock := now)
    case AddApp(a) => s.(apps := s.apps + {a})
    case RemoveApp(a) =>
      s.(apps := s.apps - {a}, containers := ClearEdge(s.containers, a), deploys := DetachDeploys(s.deploys, a))
    case Acquire(r, a) =>
      s.(busy := s.busy + {a}, handlers := s.handlers[r := Acquired(a)],
         owner := s.owner[a := ByRequest(r)], acquired := s.acquired + multiset{a})
    case InsertRow(r) =>
      s.(deploys := s.deploys[s.nextDeploy := DeployRow(Some(s.handlers[r].app), DRunning)],
         nextDeploy := s.nextDeploy + 1,
         handlers := s.handlers[r := Inserted(s.handlers[r].app, s.nextDeploy)])
    case InsertFails(r) => Release(s, s.handlers[r].app).(handlers := s.handlers - {r})
    case Spawn(r) =>
      var h := s.handlers[r];
      s.(handlers := s.handlers - {r},
         workers := s.workers[h.deploy := Worker(h.app, Spawned, [], false, 0, false, false, None, None)],
         owner := s.owner[h.app := ByWorker(h.deploy)])
    case Work(d, e) => WorkApply(s, d, s.workers[d], e)
    case BeginAction(r, c) => s.(actions := s.actions[r := c])
    case EndAction(r, status, saved) =>
      s.(actions := s.actions - {r},
         containers := if saved then WithStatus(s.containers, s.actions[r], status) else s.containers)
    case ReconcileClear(a) => s.(containers := ClearEdge(s.containers, a))
    case StartPrune => s.(janitor := Started(s.clock - s.keepDays * DAY))
    case ListCurrent => s.(janitor := Listed(s.janitor.cutoff, CurrentIds(s.containers)))
    case QueryPrunable =>
      s.(janitor := Deleting(s.janitor.cutoff, PrunableIds(s.containers, s.janitor.cutoff, s.janitor.current)))
    case DeleteRow(c, dbOk) =>
      s.(janitor := s.janitor.(todo := s.janitor.todo - {c}),
         containers := if dbOk then s.containers - {c} else s.containers)
    case EndPrune => s.(janitor := Idle)
    case SwapInflight => s.(drain := Draining(s.inflight.Keys), inflight := map[])
    case MarkStraggler(d, dbOk) =>
      s.(drain := Draining(s.drain.stragglers - {d}),
         deploys := StatusWritten(s.deploys, d, DFailed, dbOk))
  }

  /** A fresh process over whatever database the previous one left behind. */
  predicate Init(s: State) {
    && 1 <= s.keepDays
    && s.busy == {} && s.inflight == map[] && s.handlers == map[] && s.workers == map[] && s.actions == map[]
    && s.janitor.Idle? && s.drain.Serving?
    && s.owner == map[] && s.acquired == multiset{} && s.released == multiset{}
    && (forall d :: d in s.deploys ==> d < s.nextDeploy)
    && (forall c :: c in s.containers ==> c < s.nextContainer)
    && (forall d :: d in s.deploys && s.deploys[d].status.DRunning? ==> d in s.lost)
    && (forall c1, c2 :: c1 in s.containers && c2 in s.containers
          && s.containers[c1].currentFor.Some? && s.containers[c1].currentFor == s.containers[c2].currentFor
          ==> c1 == c2)
  }

  /** A run: an initial state and enabled steps, in any interleaving. */
  ghost predicate IsRun(run: seq<State>, steps: seq<Step>) {
    && |run| == |steps| + 1
    && Init(run[0])
    && forall i {:trigger Enabled(run[i], steps[i])} :: 0 <= i < |steps| ==>
         Enabled(run[i], steps[i]) && run[i + 1] == Apply(run[i], steps[i])
  }
}
