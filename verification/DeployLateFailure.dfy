/**
 The run that breaks the worker's documented promise of a terminal status: when the deadline has gone by, the failure
 is written through the expired context and lost.
 */
module DeployLateFailure {
  import opened Wrappers
  import opened DeployProtocol
  import opened DeployInvariant

  ghost predicate RunTo(run: seq<State>, steps: seq<Step>, s: State) {
    IsRun(run, steps) && run[|steps|] == s
  }

  lemma Extend(run: seq<State>, steps: seq<Step>, s: State, step: Step) returns (run': seq<State>, steps': seq<Step>)
    requires RunTo(run, steps, s) && Enabled(s, step)
    ensures RunTo(run', steps', Apply(s, step))
    ensures run' == run + [Apply(s, step)] && steps' == steps + [step]
  {
    run', steps' := run + [Apply(s, step)], steps + [step];
    forall i | 0 <= i < |steps'|
      ensures Enabled(run'[i], steps'[i]) && run'[i + 1] == Apply(run'[i], steps'[i])
    {
      if i < |steps| {
        assert run'[i] == run[i] && run'[i + 1] == run[i + 1] && steps'[i] == steps[i];
        assert Enabled(run[i], steps[i]);
      }
    }
  }

  /** A fresh process with one app and nothing deployed. */
  const FRESH: State := State(0, 30, {1}, map[], map[], 0, 0, {}, map[], map[], map[], map[], map[], Idle, Serving,
                              map[], multiset{}, multiset{}, {})

  /** App 1 has one deploy, number 0, running; w is its worker. */
  ghost predicate OneDeploy(s: State, w: Worker, clock: Time) {
    && s.apps == {1} && s.workers == map[0 := w] && s.handlers == map[] && s.clock == clock
    && s.deploys == map[0 := DeployRow(Some(1), DRunning)] && s.nextDeploy == 1
    && s.busy == if HoldsLock(w) then {1} else {}
  }

  const JUST_SPAWNED: Worker := Worker(1, Spawned, [], false, 0, false, false, None, None)

  lemma StartDeploy() returns (run: seq<State>, steps: seq<Step>, s: State)
    ensures RunTo(run, steps, s) && OneDeploy(s, JUST_SPAWNED, 0)
  {
    run, steps := [FRESH], [];
    run, steps := Extend(run, steps, FRESH, Acquire(0, 1));
    s := Apply(FRESH, Acquire(0, 1));
    run, steps := Extend(run, steps, s, InsertRow(0));
    s := Apply(s, InsertRow(0));
    run, steps := Extend(run, steps, s, Spawn(0));
    s := Apply(s, Spawn(0));
  }

  /** Let the worker move, without writing its row. */
  lemma Move(run: seq<State>, steps: seq<Step>, s: State, w: Worker, e: WorkerStep)
    returns (run': seq<State>, steps': seq<Step>, t: State)
    requires RunTo(run, steps, s) && OneDeploy(s, w, s.clock) && WorkEnabled(s, w, e)
    requires Effect(s, 0, w, e).deploys == s.deploys && Effect(s, 0, w, e).nextDeploy == s.nextDeploy
    requires Effect(s, 0, w, e).apps == s.apps && Effect(s, 0, w, e).handlers == s.handlers
    requires Effect(s, 0, w, e).clock == s.clock
    requires Effect(s, 0, w, e).busy == if HoldsLock(WorkerAfter(s, w, e)) then {1} else {}
    ensures RunTo(run', steps', t) && OneDeploy(t, WorkerAfter(s, w, e), s.clock)
  {
    run', steps' := Extend(run, steps, s, Work(0, e));
    t := Apply(s, Work(0, e));
  }

  /** The worker whose deadline has gone by, with its failure about to be written. */
  const LATE: Worker := Worker(1, MarkingFailed, [LeaveInflight, ReleaseLock, RecoverPanic, CancelTimeout], false,
                               DEPLOY_TIMEOUT, false, false, None, None)

  lemma ReachDeadline() returns (run: seq<State>, steps: seq<Step>, s: State)
    ensures RunTo(run, steps, s) && OneDeploy(s, LATE, DEPLOY_TIMEOUT + 1)
  {
    run, steps, s := StartDeploy();
    run, steps, s := Move(run, steps, s, s.workers[0], Register);
    run, steps, s := Move(run, steps, s, s.workers[0], ArmTimeout);
    run, steps := Extend(run, steps, s, Tick(DEPLOY_TIMEOUT + 1));
    s := Apply(s, Tick(DEPLOY_TIMEOUT + 1));
    run, steps, s := Move(run, steps, s, s.workers[0], Fail);
    assert s.workers[0].defers == LATE.defers;
    assert s.workers[0] == LATE;
  }

  /** With every database call accepted, the failure write still misses, and the lock goes back. */
  lemma ReleaseLate() returns (run: seq<State>, steps: seq<Step>, s: State, w: Worker)
    ensures RunTo(run, steps, s) && OneDeploy(s, w, DEPLOY_TIMEOUT + 1) && !HoldsLock(w)
  {
    run, steps, s := ReachDeadline();
    run, steps, s := Move(run, steps, s, s.workers[0], MarkFailed(true));
    run, steps, s := Move(run, steps, s, s.workers[0], Unwind(false, true));
    run, steps, s := Move(run, steps, s, s.workers[0], Unwind(false, true));
    run, steps, s := Move(run, steps, s, s.workers[0], Unwind(false, true));
    w := s.workers[0];
  }

  predicate TwoRunningRows(s: State, a: AppId) {
    && 0 in s.deploys && s.deploys[0] == DeployRow(Some(a), DRunning)
    && 1 in s.deploys && s.deploys[1] == DeployRow(Some(a), DRunning)
  }

  /** The worker's own promise fails: it can return with its row still running, and a second row joins it. */
  lemma TwoRunningRowsAfterDeadline()
    ensures exists run, steps :: IsRun(run, steps) && TwoRunningRows(run[|steps|], 1)
  {
    var run, steps, s, w := ReleaseLate();
    run, steps := Extend(run, steps, s, Acquire(1, 1));
    s := Apply(s, Acquire(1, 1));
    run, steps := Extend(run, steps, s, InsertRow(1));
    assert TwoRunningRows(run[|steps|], 1);
  }
}
