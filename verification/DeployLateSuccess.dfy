/** The run that breaks the drain's promise: a success that was written is overwritten by the placeholder failure. */
module DeployLateSuccess {
  import opened Wrappers
  import opened DeployProtocol
  import opened DeployLateFailure

  type Containers = map<ContainerId, ContainerRow>

  /** App 1 has one deploy, number 0, running and in flight; w is its worker. */
  ghost predicate Underway(s: State, w: Worker, containers: Containers, next: ContainerId) {
    && s.apps == {1} && s.workers == map[0 := w] && s.clock == 0 && s.drain.Serving? && s.inflight == map[0 := 1]
    && s.deploys == map[0 := DeployRow(Some(1), DRunning)]
    && s.containers == containers && s.nextContainer == next
  }

  /** The step leaves the rest of the system as it is, but for the container table. */
  ghost predicate Leaves(s: State, t: State, containers: Containers, next: ContainerId) {
    && t.apps == s.apps && t.clock == s.clock && t.drain == s.drain && t.inflight == s.inflight
    && t.deploys == s.deploys && t.workers == s.workers
    && t.containers == containers && t.nextContainer == next
  }

  lemma Go(run: seq<State>, steps: seq<Step>, s: State, w: Worker, e: WorkerStep, before: Containers, n: ContainerId,
           after: Containers, next: ContainerId)
    returns (run': seq<State>, steps': seq<Step>, t: State)
    requires RunTo(run, steps, s) && Underway(s, w, before, n) && WorkEnabled(s, w, e)
    requires Leaves(s, Effect(s, 0, w, e), after, next)
    ensures RunTo(run', steps', t) && Underway(t, WorkerAfter(s, w, e), after, next)
  {
    run', steps' := Extend(run, steps, s, Work(0, e));
    t := Apply(s, Work(0, e));
  }

  const THREE: seq<Deferred> := [LeaveInflight, ReleaseLock, RecoverPanic]
  const FIVE: seq<Deferred> := DEFER_ORDER
  const DUE: Time := DEPLOY_TIMEOUT

  const ARMING: Worker := Worker(1, Arming, THREE, false, 0, false, false, None, None)
  const CLEARING: Worker := Worker(1, Clearing, FIVE, false, DUE, false, false, None, None)
  const CREATING: Worker := Worker(1, Creating, FIVE, false, DUE, false, true, None, None)
  const FINISHING: Worker := Worker(1, Finishing, FIVE, false, DUE, false, true, Some(0), None)

  const ROW: ContainerRow := ContainerRow(CRunning, 0, None)
  const CURRENT: ContainerRow := ContainerRow(CRunning, 0, Some(1))

  /** The row of app 1's deploy is in, and its worker has not been spawned. */
  ghost predicate RowInserted(s: State) {
    && s.apps == {1} && s.workers == map[] && s.clock == 0 && s.drain.Serving? && s.inflight == map[]
    && s.handlers == map[0 := Inserted(1, 0)] && s.deploys == map[0 := DeployRow(Some(1), DRunning)]
    && s.containers == map[] && s.nextContainer == 0
  }

  lemma Requested() returns (run: seq<State>, steps: seq<Step>, s: State)
    ensures RunTo(run, steps, s) && RowInserted(s)
  {
    run, steps := [FRESH], [];
    run, steps := Extend(run, steps, FRESH, Acquire(0, 1));
    s := Apply(FRESH, Acquire(0, 1));
    run, steps := Extend(run, steps, s, InsertRow(0));
    s := Apply(s, InsertRow(0));
  }

  lemma Registered() returns (run: seq<State>, steps: seq<Step>, s: State)
    ensures RunTo(run, steps, s) && Underway(s, ARMING, map[], 0)
  {
    run, steps, s := Requested();
    run, steps := Extend(run, steps, s, Spawn(0));
    s := Apply(s, Spawn(0));
    run, steps := Extend(run, steps, s, Work(0, Register));
    s := Apply(s, Work(0, Register));
  }

  lemma ToClearing() returns (run: seq<State>, steps: seq<Step>, s: State)
    ensures RunTo(run, steps, s) && Underway(s, CLEARING, map[], 0)
  {
    run, steps, s := Registered();
    run, steps, s := Go(run, steps, s, ARMING, ArmTimeout, map[], 0, map[], 0);
    var w := ARMING.(pc := Loading, deadline := DUE, defers := THREE + [CancelTimeout]);
    run, steps, s := Go(run, steps, s, w, LoadApp, map[], 0, map[], 0);
    run, steps, s := Go(run, steps, s, w.(pc := OpeningLog), OpenLog(false), map[], 0, map[], 0);
    assert THREE + [CancelTimeout] + [CloseLog] == FIVE;
  }

  lemma ToCreating() returns (run: seq<State>, steps: seq<Step>, s: State)
    ensures RunTo(run, steps, s) && Underway(s, CREATING, map[], 0)
  {
    run, steps, s := ToClearing();
    assert ClearEdge(map[], 1) == map[];
    run, steps, s := Go(run, steps, s, CLEARING, ClearCurrent, map[], 0, map[], 0);
    var w := CLEARING.(cleared := true);
    run, steps, s := Go(run, steps, s, w.(pc := Inspecting), InspectCurrent(None), map[], 0, map[], 0);
    run, steps, s := Go(run, steps, s, w.(pc := Deploying), FinishDocker, map[], 0, map[], 0);
  }

  lemma ToFinishing() returns (run: seq<State>, steps: seq<Step>, s: State)
    ensures RunTo(run, steps, s) && Underway(s, FINISHING, map[0 := CURRENT], 1)
  {
    run, steps, s := ToCreating();
    run, steps, s := Go(run, steps, s, CREATING, CreateRow(0), map[], 0, map[0 := ROW], 1);
    var w := CREATING.(container := Some(0));
    run, steps, s := Go(run, steps, s, w.(pc := Linking), LinkCurrent, map[0 := ROW], 1, map[0 := CURRENT], 1);
    run, steps, s := Go(run, steps, s, w.(pc := Reloading), ReloadCaddy, map[0 := CURRENT], 1, map[0 := CURRENT], 1);
  }

  predicate HasStatus(s: State, status: DeployStatus) {
    0 in s.deploys && s.deploys[0].status == status
  }

  /** The drain takes its snapshot, the worker writes its success, and the drain marks the row. */
  lemma SuccessOverwritten()
    ensures exists run: seq<State>, steps: seq<Step> ::
              && IsRun(run, steps) && 2 <= |steps|
              && steps[|steps| - 2] == Work(0, WriteSuccess(true)) && steps[|steps| - 1] == MarkStraggler(0, true)
              && HasStatus(run[|steps| - 1], DSuccess) && HasStatus(run[|steps|], DFailed)
  {
    var run, steps, s := ToFinishing();
    run, steps := Extend(run, steps, s, SwapInflight);
    s := Apply(s, SwapInflight);
    run, steps := Extend(run, steps, s, Work(0, WriteSuccess(true)));
    s := Apply(s, Work(0, WriteSuccess(true)));
    assert HasStatus(s, DSuccess) && s.drain == Draining({0});
    run, steps := Extend(run, steps, s, MarkStraggler(0, true));
  }
}
