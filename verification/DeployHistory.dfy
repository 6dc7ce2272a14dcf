/** What the past of a run of the deploy protocol says about its present. */
module DeployHistory {
  import opened Wrappers
  import opened DeployProtocol
  import opened DeployInvariant
  import opened DeploySafety

  // ---- the prune ---------------------------------------------------------

  lemma StepJanitor(s: State, step: Step)
    requires Enabled(s, step)
    requires !step.StartPrune? && !step.ListCurrent? && !step.QueryPrunable? && !step.DeleteRow? && !step.EndPrune?
    ensures Apply(s, step).janitor == s.janitor
  {
    if step.Work? { WorkJanitor(s, step.deploy, s.workers[step.deploy], step.work); }
  }

  lemma DeferredJanitor(s: State, d: DeployId, w: Worker, call: Deferred, partialLine: bool, dbOk: bool)
    ensures var t := RunDeferred(s, d, w, call, partialLine, dbOk);
      t.janitor == s.janitor && t.keepDays == s.keepDays && t.drain == s.drain
  {
    match call
    case CloseLog =>
    case CancelTimeout =>
    case RecoverPanic =>
    case ReleaseLock =>
    case LeaveInflight =>
  }

  lemma EffectJanitor(s: State, d: DeployId, w: Worker, e: WorkerStep)
    requires WorkEnabled(s, w, e) && !e.Unwind?
    ensures var t := Effect(s, d, w, e); t.janitor == s.janitor && t.keepDays == s.keepDays && t.drain == s.drain
  {
    match e
    case Register =>
    case OpenLog(hasStore) =>
    case ClearCurrent =>
    case AppendLine =>
    case CreateRow(createdAt) =>
    case LinkCurrent =>
    case WriteSuccess(dbOk) =>
    case MarkFailed(dbOk) =>
    case RetireOld(saved) =>
    case _ =>
  }

  lemma WorkJanitor(s: State, d: DeployId, w: Worker, e: WorkerStep)
    requires WorkEnabled(s, w, e)
    ensures var t := WorkApply(s, d, w, e); t.janitor == s.janitor && t.keepDays == s.keepDays && t.drain == s.drain
  {
    if e.Unwind? {
      DeferredJanitor(s, d, w, w.defers[|w.defers| - 1], e.partialLine, e.dbOk);
    } else {
      EffectJanitor(s, d, w, e);
    }
  }

  lemma StepKeepDays(s: State, step: Step)
    requires Enabled(s, step)
    ensures Apply(s, step).keepDays == s.keepDays
  {
    if step.Work? { WorkJanitor(s, step.deploy, s.workers[step.deploy], step.work); }
  }

  /** The row is over, in one of the three ways, and was created before this time. */
  predicate OverAndOlder(containers: Containers, c: ContainerId, time: Time) {
    && c in containers && containers[c].createdAt < time
    && containers[c].status in {CExited, CDead, CRetired}
  }

  const SECONDS_A_DAY: Time := 86_400

  /** Step k started the prune under way, and its cutoff lies as many days back as containers are kept. */
  ghost predicate StartedAt(run: seq<State>, steps: seq<Step>, i: nat, k: nat, cutoff: Time) {
    && k < i < |run| && k < |steps| && steps[k].StartPrune?
    && cutoff == run[k].clock - run[0].keepDays * SECONDS_A_DAY
  }

  /** The prune under way got its list from the rows that were current at step l. */
  ghost predicate ListedAt(run: seq<State>, steps: seq<Step>, i: nat, l: nat, current: set<ContainerId>) {
    && l < i < |run| && l < |steps| && steps[l].ListCurrent?
    && forall c :: c in current <==> c in run[l].containers && run[l].containers[c].currentFor.Some?
  }

  /** The prune under way chose at step m, and can still delete, rows that were over, old and not on its list. */
  ghost predicate ChosenAt(run: seq<State>, steps: seq<Step>, i: nat, m: nat, cutoff: Time, current: set<ContainerId>,
                           todo: set<ContainerId>) {
    && m < i < |run| && m < |steps| && steps[m].QueryPrunable?
    && forall c :: c in todo ==> OverAndOlder(run[m].containers, c, cutoff) && c !in current
  }

  ghost predicate PruneHistory(run: seq<State>, steps: seq<Step>, i: nat, k: nat, l: nat, m: nat,
                               current: set<ContainerId>)
    requires i < |run|
  {
    match run[i].janitor
    case Idle => true
    case Started(cutoff) => StartedAt(run, steps, i, k, cutoff)
    case Listed(cutoff, cs) => StartedAt(run, steps, i, k, cutoff) && k < l && ListedAt(run, steps, i, l, cs)
    case Deleting(cutoff, todo) =>
      && StartedAt(run, steps, i, k, cutoff) && k < l && ListedAt(run, steps, i, l, current)
      && l < m && ChosenAt(run, steps, i, m, cutoff, current, todo)
  }

  lemma {:induction false} DaysKept(run: seq<State>, steps: seq<Step>, i: nat)
    requires IsRun(run, steps) && i < |run|
    ensures run[i].keepDays == run[0].keepDays
  {
    if i > 0 {
      DaysKept(run, steps, i - 1);
      assert Enabled(run[i - 1], steps[i - 1]);
      StepKeepDays(run[i - 1], steps[i - 1]);
    }
  }

  lemma ChosenRows(containers: Containers, cutoff: Time, current: set<ContainerId>, c: ContainerId)
    requires c in PrunableIds(containers, cutoff, current)
    ensures OverAndOlder(containers, c, cutoff) && c !in current
  {}

  lemma CurrentRows(containers: Containers, c: ContainerId)
    ensures c in CurrentIds(containers) <==> c in containers && containers[c].currentFor.Some?
  {}

  lemma NextPruneHistory(run: seq<State>, steps: seq<Step>, i: nat, k: nat, l: nat, m: nat, current: set<ContainerId>)
    returns (k': nat, l': nat, m': nat, current': set<ContainerId>)
    requires IsRun(run, steps) && i < |steps| && PruneHistory(run, steps, i, k, l, m, current)
    ensures PruneHistory(run, steps, i + 1, k', l', m', current')
  {
    var s, step, t := run[i], steps[i], run[i + 1];
    assert Enabled(s, step);
    k', l', m', current' := k, l, m, current;
    if step.StartPrune? {
      k' := i;
      DaysKept(run, steps, i);
      assert t.janitor == Started(s.clock - s.keepDays * DAY);
      assert StartedAt(run, steps, i + 1, i, t.janitor.cutoff);
    } else if step.ListCurrent? {
      l' := i;
      forall c ensures c in t.janitor.current <==> c in s.containers && s.containers[c].currentFor.Some? {
        CurrentRows(s.containers, c);
      }
    } else if step.QueryPrunable? {
      m', current' := i, s.janitor.current;
      forall c | c in t.janitor.todo ensures OverAndOlder(s.containers, c, s.janitor.cutoff) && c !in current' {
        ChosenRows(s.containers, s.janitor.cutoff, s.janitor.current, c);
      }
    } else if step.DeleteRow? || step.EndPrune? {
    } else {
      StepJanitor(s, step);
    }
  }

  lemma {:induction false} PruneTrace(run: seq<State>, steps: seq<Step>, i: nat)
    returns (k: nat, l: nat, m: nat, current: set<ContainerId>)
    requires IsRun(run, steps) && i < |run|
    ensures PruneHistory(run, steps, i, k, l, m, current)
  {
    if i == 0 {
      k, l, m, current := 0, 0, 0, {};
    } else {
      k, l, m, current := PruneTrace(run, steps, i - 1);
      k, l, m, current := NextPruneHistory(run, steps, i - 1, k, l, m, current);
    }
  }

  /**
   A row that the prune deletes was chosen for its status and its age: when the prune queried, it was exited, dead or
   retired and older than the days to keep before the prune began, and it had not been current when the prune listed
   the current rows in between.
   */
  lemma DeletedWasOver(run: seq<State>, steps: seq<Step>, i: nat, c: ContainerId)
    returns (k: nat, l: nat, m: nat)
    requires IsRun(run, steps) && i < |steps| && steps[i].DeleteRow? && steps[i].container == c
    ensures k < l < m < i && steps[k].StartPrune? && steps[l].ListCurrent? && steps[m].QueryPrunable?
    ensures OverAndOlder(run[m].containers, c, run[k].clock - run[0].keepDays * 86_400)
    ensures c in run[l].containers ==> run[l].containers[c].currentFor.None?
  {
    var current;
    k, l, m, current := PruneTrace(run, steps, i);
    assert Enabled(run[i], steps[i]);
    assert ChosenAt(run, steps, i, m, run[i].janitor.cutoff, current, run[i].janitor.todo);
  }

  // ---- the deadline ------------------------------------------------------

  /** The worker has set its deadline. */
  predicate Armed(w: Worker) {
    !w.pc.Spawned? && !w.pc.Arming?
  }

  ghost predicate ArmedAt(run: seq<State>, steps: seq<Step>, i: nat, k: nat, d: DeployId, deadline: Time) {
    k < i && k < |run| && k < |steps| && steps[k] == Work(d, ArmTimeout) && deadline == run[k].clock + 1800
  }

  lemma WorkArms(s: State, d: DeployId, w: Worker, e: WorkerStep)
    requires WorkEnabled(s, w, e)
    ensures var v := WorkerAfter(s, w, e);
      && (Armed(v) && !w.pc.Unwinding? && !Armed(w) ==> e.ArmTimeout? || e.Panic?)
      && (e.ArmTimeout? ==> v.deadline == s.clock + 1800)
      && (!e.ArmTimeout? ==> v.deadline == w.deadline)
  {}

  function NewWorker(a: AppId): Worker {
    Worker(a, Spawned, [], false, 0, false, false, None, None)
  }

  lemma StepWorker(s: State, step: Step, d: DeployId)
    requires Enabled(s, step) && d in Apply(s, step).workers && !(step.Work? && step.deploy == d)
    ensures if step.Spawn? && InsertedBy(s.handlers, step.request, d)
            then Apply(s, step).workers[d] == NewWorker(s.handlers[step.request].app)
            else d in s.workers && Apply(s, step).workers[d] == s.workers[d]
  {
    if step.Work? {
      assert WorkApply(s, step.deploy, s.workers[step.deploy], step.work).workers ==
             s.workers[step.deploy := WorkerAfter(s, s.workers[step.deploy], step.work)];
    }
  }

  lemma OwnStep(s: State, d: DeployId, e: WorkerStep)
    requires Enabled(s, Work(d, e))
    ensures d in Apply(s, Work(d, e)).workers && Apply(s, Work(d, e)).workers[d] == WorkerAfter(s, s.workers[d], e)
  {}

  /** Before its terminal write and outside the deferred calls, a worker that has a deadline. */
  predicate Timed(w: Worker) {
    Armed(w) && !w.pc.Unwinding?
  }

  lemma {:induction false} DeadlineSet(run: seq<State>, steps: seq<Step>, i: nat, d: DeployId) returns (k: nat)
    requires IsRun(run, steps) && i < |run| && d in run[i].workers && Timed(run[i].workers[d])
    ensures ArmedAt(run, steps, i, k, d, run[i].workers[d].deadline)
  {
    assert i > 0;
    var s, step := run[i - 1], steps[i - 1];
    assert Enabled(s, step);
    if step.Work? && step.deploy == d {
      OwnStep(s, d, step.work);
      WorkArms(s, d, s.workers[d], step.work);
      if step.work.ArmTimeout? {
        k := i - 1;
      } else {
        k := DeadlineSet(run, steps, i - 1, d);
      }
    } else {
      StepWorker(s, step, d);
      k := DeadlineSet(run, steps, i - 1, d);
    }
  }

  /**
   A status write of a worker's body reaches the row if and only if the database takes it within half an hour of the
   step in which the worker set its deadline.
   */
  lemma WritesReachInTime(run: seq<State>, steps: seq<Step>, i: nat, d: DeployId, dbOk: bool) returns (k: nat)
    requires IsRun(run, steps) && i < |steps|
    requires steps[i] == Work(d, WriteSuccess(dbOk)) || steps[i] == Work(d, MarkFailed(dbOk))
    ensures k < i && steps[k] == Work(d, ArmTimeout)
    ensures Settles(run[i], steps[i], d) <==> dbOk && run[i].clock - run[k].clock <= 1800
  {
    assert Enabled(run[i], steps[i]);
    RunInv(run, steps, i);
    k := DeadlineSet(run, steps, i, d);
    assert RowOf(run[i].deploys, d, run[i].workers[d].app);
  }

  /** The database calls of a worker's body that are made under its deadline. */
  predicate UnderDeadline(e: WorkerStep) {
    e.LoadApp? || e.ClearCurrent? || e.CreateRow? || e.LinkCurrent?
  }

  /** A worker loads its app, clears the edge, inserts its row and links it within half an hour, if the app exists. */
  lemma CallsSucceedInTime(run: seq<State>, steps: seq<Step>, i: nat, d: DeployId) returns (k: nat)
    requires IsRun(run, steps) && i < |steps| && steps[i].Work? && steps[i].deploy == d && UnderDeadline(steps[i].work)
    ensures k < i && steps[k] == Work(d, ArmTimeout) && run[i].clock - run[k].clock <= 1800
    ensures d in run[i].workers && run[i].workers[d].app in run[i].apps
  {
    assert Enabled(run[i], steps[i]);
    k := DeadlineSet(run, steps, i, d);
  }

  // ---- the drain ---------------------------------------------------------

  ghost predicate SwappedAt(run: seq<State>, steps: seq<Step>, i: nat, m: nat, d: DeployId) {
    m < i && m < |run| && m < |steps| && steps[m] == SwapInflight && d in run[m].inflight
  }

  lemma StepDrain(s: State, step: Step)
    requires Enabled(s, step) && !step.SwapInflight? && !step.MarkStraggler?
    ensures Apply(s, step).drain == s.drain
  {
    if step.Work? { WorkJanitor(s, step.deploy, s.workers[step.deploy], step.work); }
  }

  lemma {:induction false} StragglerSwapped(run: seq<State>, steps: seq<Step>, i: nat, d: DeployId) returns (m: nat)
    requires IsRun(run, steps) && i < |run| && run[i].drain.Draining? && d in run[i].drain.stragglers
    ensures SwappedAt(run, steps, i, m, d)
  {
    assert i > 0;
    var s, step := run[i - 1], steps[i - 1];
    assert Enabled(s, step);
    if step.SwapInflight? {
      m := i - 1;
    } else {
      if !step.MarkStraggler? { StepDrain(s, step); }
      m := StragglerSwapped(run, steps, i - 1, d);
    }
  }

  /** The drain marks only deploys that were in flight when it emptied the map. */
  lemma MarkedWasInflight(run: seq<State>, steps: seq<Step>, i: nat, d: DeployId, dbOk: bool) returns (m: nat)
    requires IsRun(run, steps) && i < |steps| && steps[i] == MarkStraggler(d, dbOk)
    ensures m < i && steps[m] == SwapInflight && d in run[m].inflight
  {
    assert Enabled(run[i], steps[i]);
    m := StragglerSwapped(run, steps, i, d);
  }

  /** Before that, a deploy is in flight exactly from its worker's first step to the last of its deferred calls. */
  lemma InflightIff(run: seq<State>, steps: seq<Step>, i: nat, d: DeployId)
    requires IsRun(run, steps) && i < |run| && run[i].drain.Serving?
    ensures d in run[i].inflight <==>
            d in run[i].workers && !run[i].workers[d].pc.Spawned? && !Finished(run[i], d)
  {
    RunInv(run, steps, i);
    if d in run[i].workers { assert ProgressOk(run[i].workers[d], run[i].nextContainer); }
  }
}
