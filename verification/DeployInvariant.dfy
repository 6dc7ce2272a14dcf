/** The inductive invariant of the deploy protocol. */
module DeployInvariant {
  import opened Wrappers
  import opened DeployProtocol

  // Each conjunct takes only the fields it speaks of, so a step that leaves
  // them alone keeps it without an argument.

  type Handlers = map<RequestId, Handler>
  type Workers = map<DeployId, Worker>
  type Deploys = map<DeployId, DeployRow>
  type Containers = map<ContainerId, ContainerRow>

  // ---- the stack of deferred calls ---------------------------------------

  predicate StackDepthOk(pc: Pc, n: nat) {
    match pc
    case Spawned => n == 0
    case Arming => n == 3
    case Loading => n == 4
    case OpeningLog => n == 4
    case MarkingFailed => n == 4 || n == 5
    case Unwinding => n <= 5
    case _ => n == 5
  }

  /** Deferred calls run last-in first-out, so the stack is always a prefix of the registration order. */
  predicate StackOk(w: Worker) {
    && |w.defers| <= |DEFER_ORDER|
    && w.defers == DEFER_ORDER[..|w.defers|]
    && StackDepthOk(w.pc, |w.defers|)
    && (w.logOpen ==> |w.defers| == 5)
    && (w.panicking ==> w.pc.Unwinding? && 3 <= |w.defers|)
  }

  predicate HoldsLock(w: Worker) {
    w.pc.Spawned? || 2 <= |w.defers|
  }

  // ---- ownership of the lock ---------------------------------------------

  /** The workers that have still to run their deferred release, with their apps. */
  function LockHolders(workers: Workers): map<DeployId, AppId> {
    map d | d in workers && HoldsLock(workers[d]) :: workers[d].app
  }

  predicate Holds(handlers: Handlers, holders: map<DeployId, AppId>, o: Owner, a: AppId) {
    match o
    case ByRequest(r) => r in handlers && handlers[r].app == a
    case ByWorker(d) => d in holders && holders[d] == a
  }

  ghost predicate LockOk(busy: set<AppId>, owner: map<AppId, Owner>, handlers: Handlers,
                         holders: map<DeployId, AppId>) {
    && owner.Keys == busy
    && (forall a :: a in owner ==> Holds(handlers, holders, owner[a], a))
    && (forall o, a :: Holds(handlers, holders, o, a) ==> a in owner && owner[a] == o)
  }

  ghost predicate CountsOk(busy: set<AppId>, acquired: multiset<AppId>, released: multiset<AppId>) {
    acquired == released + multiset(busy)
  }

  // ---- deploy rows -------------------------------------------------------

  predicate InsertedBy(handlers: Handlers, r: RequestId, d: DeployId) {
    r in handlers && handlers[r].Inserted? && handlers[r].deploy == d
  }

  /** The worker has still to write its terminal status. */
  predicate Unsettled(w: Worker) {
    if w.pc.Unwinding? then w.panicking else !w.pc.Retiring?
  }

  /** Some process that holds the lock will still settle the row. */
  ghost predicate Pending(handlers: Handlers, workers: Workers, d: DeployId) {
    (exists r :: InsertedBy(handlers, r, d)) || (d in workers && Unsettled(workers[d]))
  }

  predicate RowOf(deploys: Deploys, d: DeployId, a: AppId) {
    && d in deploys
    && !deploys[d].status.DPending?
    && (deploys[d].app == None || deploys[d].app == Some(a))
  }

  ghost predicate RowIdsOk(deploys: Deploys, nextDeploy: DeployId, handlers: Handlers, workers: Workers) {
    && (forall d :: d in deploys ==> d < nextDeploy)
    && (forall d :: d in workers ==> RowOf(deploys, d, workers[d].app))
    && (forall r, d :: InsertedBy(handlers, r, d) ==> RowOf(deploys, d, handlers[r].app) && d !in workers)
    && (forall r1, r2, d :: InsertedBy(handlers, r1, d) && InsertedBy(handlers, r2, d) ==> r1 == r2)
  }

  ghost predicate RunningOk(deploys: Deploys, lost: set<DeployId>, handlers: Handlers, workers: Workers) {
    forall d :: d in deploys && deploys[d].status.DRunning? && d !in lost ==> Pending(handlers, workers, d)
  }

  /** Until its worker's first status write a row is running, unless the drain marks it. */
  predicate Unwritten(w: Worker) {
    !w.pc.Retiring? && !w.pc.Unwinding?
  }

  ghost predicate OpenRowsOk(deploys: Deploys, handlers: Handlers, workers: Workers, drain: Drain) {
    drain.Serving? ==>
      && (forall d :: d in workers && Unwritten(workers[d]) && d in deploys ==> deploys[d].status.DRunning?)
      && (forall r, d :: InsertedBy(handlers, r, d) && d in deploys ==> deploys[d].status.DRunning?)
  }

  // ---- container rows and the current edge -------------------------------

  predicate IsLinking(w: Worker) {
    w.pc.Linking? && w.container.Some?
  }

  /** The rows some worker is about to make current. */
  function LinkingRows(workers: Workers): set<ContainerId> {
    set d | d in workers && IsLinking(workers[d]) :: workers[d].container.value
  }

  /** No worker can make this row current any more. */
  predicate Spent(linking: set<ContainerId>, nextContainer: ContainerId, c: ContainerId) {
    c < nextContainer && c !in linking
  }

  ghost predicate EdgesOk(containers: Containers, nextContainer: ContainerId, linking: set<ContainerId>) {
    && (forall c :: c in containers ==> c < nextContainer)
    && (forall c1, c2 | c1 in containers && c2 in containers ::
          containers[c1].currentFor.Some? && containers[c1].currentFor == containers[c2].currentFor ==> c1 == c2)
    && (forall c :: c in containers && containers[c].currentFor.Some? ==> c !in linking)
  }

  predicate ContainerDue(pc: Pc) {
    pc.Linking? || pc.Reloading? || pc.Finishing? || pc.Retiring?
  }

  predicate RowStillDue(pc: Pc) {
    !ContainerDue(pc) && !pc.MarkingFailed? && !pc.Unwinding?
  }

  predicate ProgressOk(w: Worker, nextContainer: ContainerId) {
    && StackOk(w)
    && w.retiree.None?
    && (w.container.Some? ==> w.container.value < nextContainer)
    && (RowStillDue(w.pc) ==> w.container.None?)
    && (w.pc.Inspecting? || w.pc.Deploying? || w.pc.Creating? ==> w.cleared)
    && (ContainerDue(w.pc) ==> w.cleared && w.container.Some?)
  }

  ghost predicate ProgressesOk(workers: Workers, nextContainer: ContainerId) {
    forall d :: d in workers ==> ProgressOk(workers[d], nextContainer)
  }

  /** From the clear to the release only the worker's own row can be current. */
  predicate WindowOk(containers: Containers, w: Worker) {
    w.cleared && HoldsLock(w) ==>
      forall c :: c in containers && containers[c].currentFor == Some(w.app) ==> w.container == Some(c)
  }

  ghost predicate WindowsOk(containers: Containers, workers: Workers) {
    forall d :: d in workers ==> WindowOk(containers, workers[d])
  }

  /** A row about to be linked is running, unlinked and no older than its deploy. */
  predicate LinkableRow(containers: Containers, c: ContainerId, deadline: Time) {
    && c in containers
    && containers[c].status.CRunning?
    && containers[c].currentFor.None?
    && deadline - DEPLOY_TIMEOUT <= containers[c].createdAt
  }

  ghost predicate LinkingOk(containers: Containers, workers: Workers) {
    && (forall d :: d in workers && IsLinking(workers[d])
          ==> LinkableRow(containers, workers[d].container.value, workers[d].deadline))
    && (forall d1, d2 | d1 in workers && d2 in workers && IsLinking(workers[d1]) && IsLinking(workers[d2]) ::
          workers[d1].container == workers[d2].container ==> d1 == d2)
  }

  /** Rows that start/stop requests remember are never about to be linked. */
  ghost predicate ActionsOk(actions: map<RequestId, ContainerId>, linking: set<ContainerId>,
                            nextContainer: ContainerId) {
    forall r :: r in actions ==> Spent(linking, nextContainer, actions[r])
  }

  // ---- the prune ---------------------------------------------------------

  predicate Doomed(containers: Containers, c: ContainerId, cutoff: Time) {
    c in containers ==> containers[c].createdAt < cutoff && containers[c].currentFor.None?
  }

  ghost predicate CutoffOk(clock: Time, keepDays: nat, janitor: Janitor) {
    1 <= keepDays && (!janitor.Idle? ==> janitor.cutoff + DAY <= clock)
  }

  ghost predicate PruneOk(janitor: Janitor, containers: Containers, linking: set<ContainerId>,
                          nextContainer: ContainerId) {
    match janitor
    case Listed(cutoff, current) =>
      forall c :: c in containers && c !in current && containers[c].createdAt < cutoff
                  ==> containers[c].currentFor.None?
    case Deleting(cutoff, todo) =>
      && (forall c :: c in todo ==> Doomed(containers, c, cutoff))
      && (forall c :: c in todo ==> Spent(linking, nextContainer, c))
    case _ => true
  }

  // ---- inflight ----------------------------------------------------------

  ghost predicate InflightOk(inflight: map<DeployId, AppId>, workers: Workers, drain: Drain) {
    && (forall d :: d in inflight ==> d in workers && workers[d].defers != [])
    && (drain.Serving? ==> forall d :: d in workers && workers[d].defers != [] ==> d in inflight)
  }

  ghost predicate Inv(s: State) {
    && LockOk(s.busy, s.owner, s.handlers, LockHolders(s.workers))
    && CountsOk(s.busy, s.acquired, s.released)
    && RowIdsOk(s.deploys, s.nextDeploy, s.handlers, s.workers)
    && RunningOk(s.deploys, s.lost, s.handlers, s.workers)
    && OpenRowsOk(s.deploys, s.handlers, s.workers, s.drain)
    && EdgesOk(s.containers, s.nextContainer, LinkingRows(s.workers))
    && ProgressesOk(s.workers, s.nextContainer)
    && WindowsOk(s.containers, s.workers)
    && LinkingOk(s.containers, s.workers)
    && ActionsOk(s.actions, LinkingRows(s.workers), s.nextContainer)
    && CutoffOk(s.clock, s.keepDays, s.janitor)
    && PruneOk(s.janitor, s.containers, LinkingRows(s.workers), s.nextContainer)
    && InflightOk(s.inflight, s.workers, s.drain)
  }

  lemma InitTable(s: State)
    requires Init(s)
    ensures EdgesOk(s.containers, s.nextContainer, LinkingRows(s.workers))
    ensures LinkingOk(s.containers, s.workers)
    ensures ActionsOk(s.actions, LinkingRows(s.workers), s.nextContainer)
  {
    assert LinkingRows(s.workers) == {};
  }

  lemma InitInv(s: State)
    requires Init(s)
    ensures Inv(s)
  {
    assert LockHolders(s.workers) == map[];
    InitTable(s);
  }
}
