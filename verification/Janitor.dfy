/** The Janitor's schedule: which tasks run when, and what their status says about the runs. */
module Janitor {
  import opened Wrappers
  import opened Collections

  type Time = int // nanoseconds

  const SECOND: Time := 1_000_000_000
  const MINUTE: Time := 60 * SECOND
  const HOUR: Time := 60 * MINUTE

  // ---- configuration -----------------------------------------------------

  datatype Config = Config(keepDeploysDays: int, purgeExpiredSessions: Time, purgeStaleAttempts: Time,
                           pruneOrphanLogs: Time, pruneOldLogs: Time, pruneOldContainers: Time, taskTimeout: Time)

  function OrElse(value: Time, preset: Time): Time {
    if value == 0 then preset else value
  }

  function WithDefaults(c: Config): Config {
    Config(if c.keepDeploysDays <= 0 then 30 else c.keepDeploysDays,
           OrElse(c.purgeExpiredSessions, HOUR),
           OrElse(c.purgeStaleAttempts, 5 * MINUTE),
           OrElse(c.pruneOrphanLogs, HOUR),
           OrElse(c.pruneOldLogs, 6 * HOUR),
           OrElse(c.pruneOldContainers, 24 * HOUR),
           OrElse(c.taskTimeout, 30 * SECOND))
  }

  datatype Task = Task(name: string, interval: Time)

  function BuiltinTasks(c: Config): seq<Task> {
    [Task("purge-expired-sessions", c.purgeExpiredSessions), Task("purge-stale-attempts", c.purgeStaleAttempts),
     Task("prune-orphan-log-files", c.pruneOrphanLogs), Task("prune-old-log-files", c.pruneOldLogs),
     Task("prune-old-containers", c.pruneOldContainers)]
  }

  /**
   Zero does not disable a task: no configuration leaves a built-in task with a zero interval or less than a day
   kept.
   */
  lemma ZeroDisablesNothing(c: Config)
    ensures forall t :: t in BuiltinTasks(WithDefaults(c)) ==> t.interval != 0
    ensures 1 <= WithDefaults(c).keepDeploysDays
    ensures WithDefaults(WithDefaults(c)) == WithDefaults(c)
    ensures BuiltinTasks(WithDefaults(Config(0, 0, 0, 0, 0, 0, 0))) ==
            [Task("purge-expired-sessions", 3_600_000_000_000), Task("purge-stale-attempts", 300_000_000_000),
             Task("prune-orphan-log-files", 3_600_000_000_000), Task("prune-old-log-files", 21_600_000_000_000),
             Task("prune-old-containers", 86_400_000_000_000)]
    ensures WithDefaults(Config(0, 0, 0, 0, 0, 0, 0)).keepDeploysDays == 30
    ensures WithDefaults(Config(0, 0, 0, 0, 0, 0, 0)).taskTimeout == 30_000_000_000
    ensures 0 < c.keepDeploysDays && (forall t :: t in BuiltinTasks(c) ==> t.interval != 0) && c.taskTimeout != 0 ==>
      WithDefaults(c) == c
  {
    assert BuiltinTasks(c)[0] in BuiltinTasks(c) && BuiltinTasks(c)[1] in BuiltinTasks(c);
    assert BuiltinTasks(c)[2] in BuiltinTasks(c) && BuiltinTasks(c)[3] in BuiltinTasks(c);
    assert BuiltinTasks(c)[4] in BuiltinTasks(c);
  }

  predicate DistinctNames(tasks: seq<Task>) {
    forall j, k :: 0 <= j < k < |tasks| ==> tasks[j].name != tasks[k].name
  }

  function NamesOf(tasks: seq<Task>): set<string> {
    set t | t in tasks :: t.name
  }

  /** The tasks whose names are neither taken nor those of earlier ones, in order. */
  function FirstOfEach(tasks: seq<Task>, taken: set<string>): seq<Task> {
    if tasks == [] then []
    else if tasks[0].name in taken then FirstOfEach(tasks[1..], taken)
    else [tasks[0]] + FirstOfEach(tasks[1..], taken + {tasks[0].name})
  }

  /** The built-in tasks, and then, in order, the first custom task of each name that is still free. */
  method Tasks(c: Config, custom: seq<Task>) returns (all: seq<Task>)
    ensures all == BuiltinTasks(c) + FirstOfEach(custom, NamesOf(BuiltinTasks(c)))
  {
    all := BuiltinTasks(c);
    var seen := NamesOf(all);
    for i := 0 to |custom|
      invariant all + FirstOfEach(custom[i..], seen) == BuiltinTasks(c) + FirstOfEach(custom, NamesOf(BuiltinTasks(c)))
    {
      var t := custom[i];
      assert custom[i..][1..] == custom[i + 1..];
      if t.name in seen {
        continue;
      }
      Glue(all, [t], FirstOfEach(custom[i + 1..], seen + {t.name}));
      seen := seen + {t.name};
      all := all + [t];
    }
    assert custom[|custom|..] == [] && all + [] == all;
  }

  /** What is kept has distinct names, none of them taken, and every name that was free is kept once. */
  lemma {:induction false} FirstOfEachKeeps(tasks: seq<Task>, taken: set<string>)
    ensures var kept := FirstOfEach(tasks, taken);
      DistinctNames(kept) && NamesOf(kept) == NamesOf(tasks) - taken
    decreases |tasks|
  {
    if tasks != [] {
      var t, more := tasks[0], tasks[1..];
      assert tasks == [t] + more;
      NamesCons(t, more);
      if t.name in taken {
        FirstOfEachKeeps(more, taken);
      } else {
        FirstOfEachKeeps(more, taken + {t.name});
        var kept := FirstOfEach(more, taken + {t.name});
        NamesCons(t, kept);
        forall k | 0 <= k < |kept| ensures kept[k].name != t.name {
          assert kept[k].name in NamesOf(kept);
        }
      }
    }
  }

  /** No task before this one has its name. */
  predicate FirstOfName(tasks: seq<Task>, k: nat)
    requires k < |tasks|
  {
    forall j :: 0 <= j < k ==> tasks[j].name != tasks[k].name
  }

  lemma FirstInTail(tasks: seq<Task>, k: nat)
    requires 0 < k < |tasks|
    ensures FirstOfName(tasks, k) <==> FirstOfName(tasks[1..], k - 1) && tasks[k].name != tasks[0].name
  {
    if FirstOfName(tasks[1..], k - 1) && tasks[k].name != tasks[0].name {
      forall j | 0 <= j < k ensures tasks[j].name != tasks[k].name {
        if j > 0 { assert tasks[1..][j - 1].name != tasks[1..][k - 1].name; }
      }
    }
  }

  lemma {:induction false} FirstOfEachIff(tasks: seq<Task>, taken: set<string>, k: nat)
    requires k < |tasks|
    ensures FirstOfName(tasks, k) && tasks[k].name !in taken ==> tasks[k] in FirstOfEach(tasks, taken)
    ensures forall t :: t in FirstOfEach(tasks, taken) ==> t in tasks && t.name !in taken
    decreases |tasks|
  {
    var more := tasks[1..];
    var next := if tasks[0].name in taken then taken else taken + {tasks[0].name};
    if more != [] {
      FirstOfEachIff(more, next, if k == 0 then 0 else k - 1);
    }
    if k > 0 {
      FirstInTail(tasks, k);
    }
  }

  /** Of the custom tasks, exactly the first of each name that no built-in task has run. */
  lemma CustomTasksIff(c: Config, custom: seq<Task>, k: nat)
    requires k < |custom|
    ensures var builtin := BuiltinTasks(c);
      var all := builtin + FirstOfEach(custom, NamesOf(builtin));
      && (FirstOfName(custom, k) && (forall t :: t in builtin ==> t.name != custom[k].name) ==> custom[k] in all)
      && forall t :: t in all ==> t in builtin || (t in custom && forall b :: b in builtin ==> b.name != t.name)
  {
    var builtin := BuiltinTasks(c);
    FirstOfEachIff(custom, NamesOf(builtin), k);
    forall b: Task | b in builtin ensures b.name in NamesOf(builtin) {}
  }

  lemma NamesCons(t: Task, tasks: seq<Task>)
    ensures NamesOf([t] + tasks) == {t.name} + NamesOf(tasks)
  {
    assert t in [t] + tasks;
    forall u | u in tasks ensures u in [t] + tasks {}
  }

  lemma JoinedDistinct(a: seq<Task>, b: seq<Task>)
    requires DistinctNames(a) && DistinctNames(b) && NamesOf(a) !! NamesOf(b)
    ensures DistinctNames(a + b)
  {
    forall j, k | 0 <= j < |a| && 0 <= k < |b| ensures a[j].name != b[k].name {
      assert a[j].name in NamesOf(a) && b[k].name in NamesOf(b);
    }
  }

  /** The tasks that run have distinct names. */
  lemma TasksDistinct(c: Config, custom: seq<Task>)
    ensures DistinctNames(BuiltinTasks(c) + FirstOfEach(custom, NamesOf(BuiltinTasks(c))))
  {
    FirstOfEachKeeps(custom, NamesOf(BuiltinTasks(c)));
    BuiltinDistinct(c);
    JoinedDistinct(BuiltinTasks(c), FirstOfEach(custom, NamesOf(BuiltinTasks(c))));
  }

  lemma BuiltinDistinct(c: Config)
    ensures DistinctNames(BuiltinTasks(c))
  {}

  // ---- the status of a task ----------------------------------------------

  datatype CleanupResult = CleanupResult(scanned: int, pruned: int, bytes: int)

  const NOTHING := CleanupResult(0, 0, 0)

  /** What had a task run: the pass at the start, a tick of the loop, or a request. */
  datatype Starter = AtStart | OnTick | OnDemand

  /** One run: when it started and ended, and its result or error. A panic is an error. */
  datatype Run = Run(start: Time, end: Time, outcome: Result<CleanupResult, string>, starter: Starter)

  /** How long a task waits for its turn and takes, and what comes of it. */
  datatype Doing = Doing(wait: nat, took: nat, outcome: Result<CleanupResult, string>)

  /** What each task would do. */
  type Plan = string -> Doing

  datatype TaskStatus = TaskStatus(lastRun: Option<Time>, nextRun: Option<Time>, lastResult: CleanupResult,
                                   lastErr: string, lastErrAt: Option<Time>, runCount: nat, errCount: nat)

  const NEVER := TaskStatus(None, None, NOTHING, "", None, 0, 0)

  function Recorded(s: TaskStatus, interval: Time, run: Run): TaskStatus {
    var t := s.(lastRun := Some(run.start), runCount := s.runCount + 1, nextRun := Some(run.start + interval));
    match run.outcome
    case Err(message) => t.(lastErr := message, lastErrAt := Some(run.end), errCount := s.errCount + 1)
    case Ok(result) => t.(lastResult := result, lastErr := "")
  }

  function StatusAfter(history: seq<Run>, interval: Time): TaskStatus {
    if history == [] then NEVER
    else Recorded(StatusAfter(history[..|history| - 1], interval), interval, history[|history| - 1])
  }

  // ---- what a status says about the history ------------------------------

  predicate Failed(run: Run) {
    run.outcome.Err?
  }

  function Failures(history: seq<Run>): set<nat> {
    set k: nat | k < |history| && Failed(history[k])
  }

  /** The last of the runs that failed, or that did not, before n. */
  function LastRunThat(history: seq<Run>, failed: bool, n: nat): (k: Option<nat>)
    requires n <= |history|
    ensures k.Some? ==> k.value < n && Failed(history[k.value]) == failed
    ensures forall j :: (if k.Some? then k.value < j else 0 <= j) && j < n ==> Failed(history[j]) != failed
  {
    if n == 0 then None
    else if Failed(history[n - 1]) == failed then Some(n - 1)
    else LastRunThat(history, failed, n - 1)
  }

  function ResultOf(history: seq<Run>, k: Option<nat>): CleanupResult
    requires k.Some? ==> k.value < |history| && !Failed(history[k.value])
  {
    if k.Some? then history[k.value].outcome.value else NOTHING
  }

  /**
   The status read off the whole history: counts, the start of the last run, the result of the last run that
   succeeded, and the error of the last run if it failed.
   */
  ghost predicate Summarizes(s: TaskStatus, history: seq<Run>, interval: Time) {
    var n := |history|;
    var good, bad := LastRunThat(history, false, n), LastRunThat(history, true, n);
    && s.runCount == n && s.errCount == |Failures(history)|
    && s.lastRun == (if n == 0 then None else Some(history[n - 1].start))
    && s.nextRun == (if n == 0 then None else Some(history[n - 1].start + interval))
    && s.lastResult == ResultOf(history, good)
    && s.lastErr == (if n > 0 && Failed(history[n - 1]) then history[n - 1].outcome.error else "")
    && s.lastErrAt == (if bad.Some? then Some(history[bad.value].end) else None)
  }

  lemma {:induction false} LastRunInPrefix(history: seq<Run>, failed: bool, n: nat)
    requires n < |history|
    ensures LastRunThat(history[..|history| - 1], failed, n) == LastRunThat(history, failed, n)
  {
    if n > 0 {
      LastRunInPrefix(history, failed, n - 1);
    }
  }

  lemma FailuresGrow(history: seq<Run>)
    requires history != []
    ensures |Failures(history)| ==
            |Failures(history[..|history| - 1])| + if Failed(history[|history| - 1]) then 1 else 0
  {
    var n := |history| - 1;
    var before := Failures(history[..n]);
    assert n !in before;
    assert Failures(history) == before + if Failed(history[n]) then {n} else {};
  }

  /** Whatever the runs were, the recorded status sums them up. */
  lemma {:induction false} StatusSumsUpHistory(history: seq<Run>, interval: Time)
    ensures Summarizes(StatusAfter(history, interval), history, interval)
  {
    if history == [] {
      assert Failures(history) == {};
    } else {
      var n := |history| - 1;
      StatusSumsUpHistory(history[..n], interval);
      LastRunInPrefix(history, false, n);
      LastRunInPrefix(history, true, n);
      FailuresGrow(history);
    }
  }

  // ---- the schedule ------------------------------------------------------

  /** The loop never has a task run for the first time, nor before an interval has gone by since the start before. */
  predicate Spaced(h: seq<Run>, interval: Time) {
    forall k :: 0 <= k < |h| && h[k].starter.OnTick? ==> 0 < k && h[k - 1].start + interval <= h[k].start
  }

  function HistoryOf(history: map<string, seq<Run>>, name: string): seq<Run> {
    if name in history then history[name] else []
  }

  function StatusOf(status: map<string, TaskStatus>, name: string): TaskStatus {
    if name in status then status[name] else NEVER
  }

  lemma LastRunIs(h: seq<Run>, interval: Time)
    ensures StatusAfter(h, interval).lastRun == if h == [] then None else Some(h[|h| - 1].start)
  {}

  /** The status is the fold of the runs. */
  ghost predicate Kept(s: TaskStatus, h: seq<Run>, interval: Time, clock: Time) {
    s == StatusAfter(h, interval) && (h != [] ==> h[|h| - 1].start <= clock)
  }

  ghost predicate TaskOk(t: Task, status: map<string, TaskStatus>, history: map<string, seq<Run>>, clock: Time) {
    Kept(StatusOf(status, t.name), HistoryOf(history, t.name), t.interval, clock)
  }

  predicate Ran(before: Time, run: Run, after: Time) {
    before <= run.start <= run.end <= after
  }

  lemma RecordKeeps(s: TaskStatus, h: seq<Run>, interval: Time, clock: Time, run: Run, later: Time)
    requires Kept(s, h, interval, clock) && Ran(clock, run, later)
    ensures Kept(Recorded(s, interval, run), h + [run], interval, later)
  {
    assert (h + [run])[..|h|] == h;
  }

  ghost predicate AllOk(tasks: seq<Task>, status: map<string, TaskStatus>, history: map<string, seq<Run>>,
                        clock: Time) {
    forall k :: 0 <= k < |tasks| ==> TaskOk(tasks[k], status, history, clock)
  }

  lemma LaterOk(tasks: seq<Task>, status: map<string, TaskStatus>, history: map<string, seq<Run>>, clock: Time,
                later: Time)
    requires AllOk(tasks, status, history, clock) && clock <= later
    ensures AllOk(tasks, status, history, later)
  {}

  lemma RunKeepsOthers(tasks: seq<Task>, k: nat, status: map<string, TaskStatus>, history: map<string, seq<Run>>,
                       clock: Time, s: TaskStatus, h: seq<Run>)
    requires DistinctNames(tasks) && k < |tasks| && Kept(s, h, tasks[k].interval, clock)
    requires AllOk(tasks, status, history, clock)
    ensures AllOk(tasks, status[tasks[k].name := s], history[tasks[k].name := h], clock)
  {
    forall j | 0 <= j < |tasks|
      ensures TaskOk(tasks[j], status[tasks[k].name := s], history[tasks[k].name := h], clock)
    {
      assert TaskOk(tasks[j], status, history, clock);
      if j != k {
        assert tasks[j].name != tasks[k].name;
      }
    }
  }

  ghost predicate AllSpaced(tasks: seq<Task>, history: map<string, seq<Run>>) {
    forall k :: 0 <= k < |tasks| ==> Spaced(HistoryOf(history, tasks[k].name), tasks[k].interval)
  }

  /** The run may come next: if the loop started it, an interval after the start before. */
  predicate MayFollow(h: seq<Run>, interval: Time, run: Run) {
    run.starter.OnTick? ==> h != [] && h[|h| - 1].start + interval <= run.start
  }

  lemma RunKeepsSpacing(tasks: seq<Task>, k: nat, history: map<string, seq<Run>>, run: Run)
    requires DistinctNames(tasks) && k < |tasks| && AllSpaced(tasks, history)
    requires MayFollow(HistoryOf(history, tasks[k].name), tasks[k].interval, run)
    ensures AllSpaced(tasks, history[tasks[k].name := HistoryOf(history, tasks[k].name) + [run]])
  {
    var name := tasks[k].name;
    var after := history[name := HistoryOf(history, name) + [run]];
    forall j | 0 <= j < |tasks| ensures Spaced(HistoryOf(after, tasks[j].name), tasks[j].interval) {
      assert Spaced(HistoryOf(history, tasks[j].name), tasks[j].interval);
      if j != k {
        assert tasks[j].name != name;
      }
    }
  }

  lemma RunKeepsAll(tasks: seq<Task>, k: nat, status: map<string, TaskStatus>, history: map<string, seq<Run>>,
                    clock: Time, run: Run, later: Time)
    requires DistinctNames(tasks) && k < |tasks| && AllOk(tasks, status, history, clock)
    requires AllSpaced(tasks, history) && Ran(clock, run, later)
    requires MayFollow(HistoryOf(history, tasks[k].name), tasks[k].interval, run)
    ensures var t := tasks[k];
      var after := history[t.name := HistoryOf(history, t.name) + [run]];
      && AllOk(tasks, status[t.name := Recorded(StatusOf(status, t.name), t.interval, run)], after, later)
      && AllSpaced(tasks, after)
  {
    var t := tasks[k];
    assert TaskOk(t, status, history, clock);
    LaterOk(tasks, status, history, clock, later);
    RecordKeeps(StatusOf(status, t.name), HistoryOf(history, t.name), t.interval, clock, run, later);
    RunKeepsOthers(tasks, k, status, history, later, Recorded(StatusOf(status, t.name), t.interval, run),
                   HistoryOf(history, t.name) + [run]);
    RunKeepsSpacing(tasks, k, history, run);
  }

  /** A tick finds a task due if a whole interval has gone by, on the tick's own time, since its last start. */
  predicate TickDue(h: seq<Run>, interval: Time, tick: Time) {
    h != [] && tick - h[|h| - 1].start >= interval
  }

  /** One run more, with this start, duration, outcome and starter. */
  predicate RanOnce(before: seq<Run>, after: seq<Run>, doing: Doing, starter: Starter) {
    && |after| == |before| + 1 && after[..|before|] == before
    && var run := after[|before|];
       run.starter == starter && run.outcome == doing.outcome && run.end == run.start + doing.took
  }

  /** What one tick does to a task: the loop has it run once if it is due, an interval or more after its last start. */
  ghost predicate Ticked(before: seq<Run>, after: seq<Run>, interval: Time, tick: Time, doing: Doing) {
    if TickDue(before, interval, tick)
    then RanOnce(before, after, doing, OnTick) && before[|before| - 1].start + interval <= after[|before|].start
    else after == before
  }

  /** The tick has visited the first n tasks. */
  ghost predicate AllTicked(tasks: seq<Task>, was: map<string, seq<Run>>, now: map<string, seq<Run>>, tick: Time,
                            plan: Plan, n: nat) {
    n <= |tasks| && forall j :: 0 <= j < n ==>
      Ticked(HistoryOf(was, tasks[j].name), HistoryOf(now, tasks[j].name), tasks[j].interval, tick,
             plan(tasks[j].name))
  }

  /** The first pass has run the first n tasks. */
  ghost predicate AllRun(tasks: seq<Task>, was: map<string, seq<Run>>, now: map<string, seq<Run>>, plan: Plan, n: nat) {
    n <= |tasks| && forall j :: 0 <= j < n ==>
      RanOnce(HistoryOf(was, tasks[j].name), HistoryOf(now, tasks[j].name), plan(tasks[j].name), AtStart)
  }

  /** How many of the tasks are reached before the cancellation. */
  function Reached(stop: nat, n: nat): nat {
    if stop < n then stop else n
  }

  /** No run is forgotten. */
  ghost predicate Extends(was: map<string, seq<Run>>, now: map<string, seq<Run>>) {
    forall name :: HistoryOf(was, name) <= HistoryOf(now, name)
  }

  /** The status map sums up every task's history. */
  ghost predicate AllSummarized(tasks: seq<Task>, status: map<string, TaskStatus>, history: map<string, seq<Run>>) {
    forall k :: 0 <= k < |tasks| ==>
      Summarizes(StatusOf(status, tasks[k].name), HistoryOf(history, tasks[k].name), tasks[k].interval)
  }

  lemma OkIsSummarized(tasks: seq<Task>, status: map<string, TaskStatus>, history: map<string, seq<Run>>, clock: Time)
    requires AllOk(tasks, status, history, clock)
    ensures AllSummarized(tasks, status, history)
  {
    forall k | 0 <= k < |tasks|
      ensures Summarizes(StatusOf(status, tasks[k].name), HistoryOf(history, tasks[k].name), tasks[k].interval)
    {
      assert TaskOk(tasks[k], status, history, clock);
      StatusSumsUpHistory(HistoryOf(history, tasks[k].name), tasks[k].interval);
    }
  }

  ghost predicate Untouched(tasks: seq<Task>, was: map<string, seq<Run>>, now: map<string, seq<Run>>, n: nat) {
    forall j :: n <= j < |tasks| ==> HistoryOf(now, tasks[j].name) == HistoryOf(was, tasks[j].name)
  }

  lemma OneMoreTicked(tasks: seq<Task>, was: map<string, seq<Run>>, before: map<string, seq<Run>>,
                      now: map<string, seq<Run>>, tick: Time, plan: Plan, k: nat)
    requires DistinctNames(tasks) && k < |tasks|
    requires AllTicked(tasks, was, before, tick, plan, k) && Untouched(tasks, was, before, k)
    requires Ticked(HistoryOf(before, tasks[k].name), HistoryOf(now, tasks[k].name), tasks[k].interval, tick,
                    plan(tasks[k].name))
    requires forall name :: name != tasks[k].name ==> HistoryOf(now, name) == HistoryOf(before, name)
    ensures AllTicked(tasks, was, now, tick, plan, k + 1) && Untouched(tasks, was, now, k + 1)
  {
    forall j | 0 <= j < |tasks| && j != k ensures HistoryOf(now, tasks[j].name) == HistoryOf(before, tasks[j].name) {
      assert tasks[j].name != tasks[k].name;
    }
  }

  lemma OneMoreRun(tasks: seq<Task>, was: map<string, seq<Run>>, before: map<string, seq<Run>>,
                   now: map<string, seq<Run>>, plan: Plan, k: nat)
    requires DistinctNames(tasks) && k < |tasks|
    requires AllRun(tasks, was, before, plan, k) && Untouched(tasks, was, before, k)
    requires RanOnce(HistoryOf(before, tasks[k].name), HistoryOf(now, tasks[k].name), plan(tasks[k].name), AtStart)
    requires forall name :: name != tasks[k].name ==> HistoryOf(now, name) == HistoryOf(before, name)
    ensures AllRun(tasks, was, now, plan, k + 1) && Untouched(tasks, was, now, k + 1)
  {
    forall j | 0 <= j < |tasks| && j != k ensures HistoryOf(now, tasks[j].name) == HistoryOf(before, tasks[j].name) {
      assert tasks[j].name != tasks[k].name;
    }
  }

  // ---- what happens to the loop ------------------------------------------

  /**
   A run on demand of a task, or a tick of the ticker: it is seen after a wait, may then be of some age, and the context
   is cancelled before the visit to the task at stop.
   */
  datatype Event = Demand(k: nat, doing: Doing) | Tock(wait: nat, age: nat, stop: nat, plan: Plan)

  /** The histories and the clock between two events. */
  datatype Moment = Moment(history: map<string, seq<Run>>, clock: Time)

  /** The loop has returned before the event at i: the first pass or a tick before it was cancelled. */
  predicate StoppedBefore(events: seq<Event>, i: nat, first: nat, n: nat)
    requires i <= |events|
  {
    first < n || exists j :: 0 <= j < i && events[j].Tock? && events[j].stop < n
  }

  /** What an event does: a run on demand is one run of its task; a tick visits the tasks unless it comes too late. */
  ghost predicate Happens(tasks: seq<Task>, e: Event, stopped: bool, before: Moment, after: Moment) {
    match e
    case Demand(k, doing) =>
      if k < |tasks|
      then RanOnce(HistoryOf(before.history, tasks[k].name), HistoryOf(after.history, tasks[k].name), doing, OnDemand)
           && forall name :: name != tasks[k].name ==> HistoryOf(after.history, name) == HistoryOf(before.history, name)
      else after == before
    case Tock(wait, age, stop, plan) =>
      if stopped then after == before
      else AllTicked(tasks, before.history, after.history, before.clock + wait - age, plan, Reached(stop, |tasks|))
           && Untouched(tasks, before.history, after.history, Reached(stop, |tasks|))
  }

  /** The moments are those of the events, one after the other. */
  ghost predicate Unfolds(tasks: seq<Task>, events: seq<Event>, first: nat, moments: seq<Moment>) {
    && |moments| == |events| + 1
    && forall i :: 0 <= i < |events| ==>
         Happens(tasks, events[i], StoppedBefore(events, i, first, |tasks|), moments[i], moments[i + 1])
  }

  lemma OneMoreEvent(tasks: seq<Task>, events: seq<Event>, i: nat, first: nat, moments: seq<Moment>, next: Moment)
    requires i < |events| && Unfolds(tasks, events[..i], first, moments)
    requires Happens(tasks, events[i], StoppedBefore(events, i, first, |tasks|), moments[i], next)
    ensures Unfolds(tasks, events[..i + 1], first, moments + [next])
  {
    var all := moments + [next];
    forall k | 0 <= k < i + 1
      ensures Happens(tasks, events[..i + 1][k], StoppedBefore(events[..i + 1], k, first, |tasks|), all[k], all[k + 1])
    {
      assert events[..i + 1][k] == events[k];
      SameStop(events, i + 1, k, first, |tasks|);
      if k < i {
        assert events[..i][k] == events[k];
        SameStop(events, i, k, first, |tasks|);
      }
    }
  }

  lemma SameStop(events: seq<Event>, i: nat, k: nat, first: nat, n: nat)
    requires k <= i <= |events|
    ensures StoppedBefore(events[..i], k, first, n) <==> StoppedBefore(events, k, first, n)
  {
    if StoppedBefore(events, k, first, n) && first >= n {
      var j :| 0 <= j < k && events[j].Tock? && events[j].stop < n;
      assert events[..i][j] == events[j];
    }
  }

  lemma NextStop(events: seq<Event>, i: nat, first: nat, n: nat)
    requires i < |events|
    ensures StoppedBefore(events, i + 1, first, n) <==>
            StoppedBefore(events, i, first, n) || (events[i].Tock? && events[i].stop < n)
  {
    if StoppedBefore(events, i, first, n) && first >= n {
      var j :| 0 <= j < i && events[j].Tock? && events[j].stop < n;
      assert 0 <= j < i + 1;
    }
  }

  class Janitor {
    const tasks: seq<Task>
    var status: map<string, TaskStatus>
    var clock: Time
    ghost var history: map<string, seq<Run>>

    ghost predicate Valid()
      reads this
    {
      && DistinctNames(tasks)
      && AllOk(tasks, status, history, clock)
      && AllSpaced(tasks, history)
    }

    constructor (tasks: seq<Task>, now: Time)
      requires DistinctNames(tasks)
      ensures Valid() && this.tasks == tasks && history == map[] && status == map[]
    {
      this.tasks, status, clock, history := tasks, map[], now, map[];
    }

    /** The clock goes on, by any amount. */
    method Now(wait: nat) returns (t: Time)
      modifies this`clock
      ensures t == clock == old(clock) + wait
    {
      t := clock + wait;
      clock := t;
    }

    /** A due time in the past of the tick; a task that has never run is not due. */
    method ShouldRun(t: Task, tick: Time) returns (due: bool)
      ensures due <==> StatusOf(status, t.name).lastRun.Some?
                       && tick - StatusOf(status, t.name).lastRun.value >= t.interval
    {
      var s := StatusOf(status, t.name);
      if s.lastRun.None? {
        return false;
      }
      due := tick - s.lastRun.value >= t.interval;
    }

    /** One run of a task. The loop asks for one only once an interval has gone by since the last start. */
    method RunTask(k: nat, ghost starter: Starter, doing: Doing)
      requires Valid() && k < |tasks|
      requires starter.OnTick? ==>
        var h := HistoryOf(history, tasks[k].name); h != [] && h[|h| - 1].start + tasks[k].interval <= clock
      modifies this
      ensures Valid() && old(clock) <= clock
      ensures history == old(history)[tasks[k].name := HistoryOf(old(history), tasks[k].name)
              + [Run(old(clock) + doing.wait, old(clock) + doing.wait + doing.took, doing.outcome, starter)]]
    {
      var t := tasks[k];
      var start := Now(doing.wait);
      var end := Now(doing.took);
      ghost var run := Run(start, end, doing.outcome, starter);
      var s := StatusOf(status, t.name);
      s := s.(lastRun := Some(start), runCount := s.runCount + 1, nextRun := Some(start + t.interval));
      match doing.outcome {
        case Err(message) => s := s.(lastErr := message, lastErrAt := Some(end), errCount := s.errCount + 1);
        case Ok(result) => s := s.(lastResult := result, lastErr := "");
      }
      assert s == Recorded(StatusOf(status, t.name), t.interval, run);
      RunKeepsAll(tasks, k, status, history, old(clock), run, clock);
      status := status[t.name := s];
      history := history[t.name := HistoryOf(history, t.name) + [run]];
    }

    /** The first pass: every task once, unless the context is cancelled. */
    method Start(stop: nat, plan: Plan) returns (cancelled: bool)
      requires Valid()
      modifies this
      ensures Valid() && Extends(old(history), history)
      ensures cancelled <==> stop < |tasks|
      ensures AllRun(tasks, old(history), history, plan, Reached(stop, |tasks|))
      ensures Untouched(tasks, old(history), history, Reached(stop, |tasks|))
    {
      ghost var was := history;
      for k := 0 to |tasks|
        invariant Valid() && Extends(was, history) && k <= stop
        invariant AllRun(tasks, was, history, plan, k) && Untouched(tasks, was, history, k)
      {
        if k == stop {
          return true;
        }
        ghost var before := history;
        RunTask(k, AtStart, plan(tasks[k].name));
        OneMoreRun(tasks, was, before, history, plan, k);
      }
      cancelled := false;
    }

    /** The visit of a tick to one task, which runs it if it is due. */
    method Visit(k: nat, tick: Time, doing: Doing)
      requires Valid() && k < |tasks| && tick <= clock
      modifies this
      ensures Valid() && old(clock) <= clock
      ensures Ticked(old(HistoryOf(history, tasks[k].name)), HistoryOf(history, tasks[k].name), tasks[k].interval, tick,
                     doing)
      ensures forall name :: name != tasks[k].name ==> HistoryOf(history, name) == HistoryOf(old(history), name)
    {
      assert TaskOk(tasks[k], status, history, clock);
      LastRunIs(HistoryOf(history, tasks[k].name), tasks[k].interval);
      var due := ShouldRun(tasks[k], tick);
      if due {
        RunTask(k, OnTick, doing);
      }
    }

    /** One tick of the loop. The tick may have waited in its channel: its time is in the past of the clock. */
    method Tick(tick: Time, stop: nat, plan: Plan) returns (cancelled: bool)
      requires Valid() && tick <= clock
      modifies this
      ensures Valid() && old(clock) <= clock && Extends(old(history), history)
      ensures cancelled <==> stop < |tasks|
      ensures AllTicked(tasks, old(history), history, tick, plan, Reached(stop, |tasks|))
      ensures Untouched(tasks, old(history), history, Reached(stop, |tasks|))
    {
      ghost var was := history;
      for k := 0 to |tasks|
        invariant Valid() && old(clock) <= clock && Extends(was, history) && k <= stop
        invariant AllTicked(tasks, was, history, tick, plan, k) && Untouched(tasks, was, history, k)
      {
        if k == stop {
          return true;
        }
        ghost var before := history;
        Visit(k, tick, plan(tasks[k].name));
        OneMoreTicked(tasks, was, before, history, tick, plan, k);
      }
      cancelled := false;
    }

    /** What happens next: a run on demand, or a tick, which the loop ignores once it has been cancelled. */
    method Turn(stopped: bool, e: Event) returns (cancelled: bool)
      requires Valid()
      modifies this
      ensures Valid() && Extends(old(history), history)
      ensures cancelled <==> stopped || (e.Tock? && e.stop < |tasks|)
      ensures Happens(tasks, e, stopped, Moment(old(history), old(clock)), Moment(history, clock))
    {
      cancelled := stopped || (e.Tock? && e.stop < |tasks|);
      match e {
        case Demand(k, doing) =>
          if k < |tasks| {
            RunTask(k, OnDemand, doing);
          }
        case Tock(wait, age, stop, plan) =>
          if !stopped {
            ghost var since := clock;
            var now := Now(wait);
            LaterOk(tasks, status, history, since, clock);
            var stops := Tick(now - age, stop, plan);
          }
      }
    }

    /**
     The first pass and any ticks, stale or not, with runs on demand in between: each event does what it should, every
     run that the loop started began at least an interval after that task's previous start, whoever had started it, and
     the status sums up each history.
     */
    method Loop(first: nat, plan: Plan, events: seq<Event>) returns (ghost moments: seq<Moment>)
      requires Valid()
      modifies this
      ensures Valid() && AllSpaced(tasks, history) && AllSummarized(tasks, status, history)
      ensures Unfolds(tasks, events, first, moments) && moments[|events|] == Moment(history, clock)
      ensures AllRun(tasks, old(history), moments[0].history, plan, Reached(first, |tasks|))
      ensures Untouched(tasks, old(history), moments[0].history, Reached(first, |tasks|))
    {
      var stopped := Start(first, plan);
      moments := [Moment(history, clock)];
      for i := 0 to |events|
        invariant Valid() && stopped == StoppedBefore(events, i, first, |tasks|)
        invariant Unfolds(tasks, events[..i], first, moments) && moments[i] == Moment(history, clock)
        invariant AllRun(tasks, old(history), moments[0].history, plan, Reached(first, |tasks|))
        invariant Untouched(tasks, old(history), moments[0].history, Reached(first, |tasks|))
      {
        NextStop(events, i, first, |tasks|);
        stopped := Turn(stopped, events[i]);
        OneMoreEvent(tasks, events, i, first, moments, Moment(history, clock));
        moments := moments + [Moment(history, clock)];
      }
      assert events[..|events|] == events;
      OkIsSummarized(tasks, status, history, clock);
    }
  }
}
