/**
 What a deploy's worker does to its log, seen by a stream that tails it: the worker's steps of the tailed log follow
 the steps of the deploy protocol, and its rule that the log is closed before the deploy leaves the in-flight map is
 kept by every run of the protocol.
 */
module DeployTail {
  import opened DeployProtocol
  import opened DeployInvariant
  import opened DeployPreservation
  import opened DeploySafety
  import Text
  import Tail = LogTail

  /** The deploy's log file has been opened, or it was found that there is none to open. */
  predicate LogReady(workers: Workers, d: DeployId) {
    && d in workers
    && !workers[d].pc.Spawned? && !workers[d].pc.Arming? && !workers[d].pc.Loading? && !workers[d].pc.OpeningLog?
  }

  /** The tailed log stands for the log of the deploy. */
  ghost predicate Shows(s: State, d: DeployId, u: Tail.State) {
    && d in s.workers
    && u.open == s.workers[d].logOpen
    && u.inflight == (d in s.inflight)
    && u.drained == s.drain.Draining?
    && |u.file| == LinesOf(s.log, d)
  }

  /** The steps lead from one tailed log to the other. */
  ghost predicate Leads(u: Tail.State, steps: seq<Tail.Step>, v: Tail.State)
    decreases |steps|
  {
    if steps == [] then u == v
    else Tail.Enabled(u, steps[0]) && Leads(Tail.Apply(u, steps[0]), steps[1..], v)
  }

  lemma {:induction false} LeadsOn(u: Tail.State, a: seq<Tail.Step>, v: Tail.State, b: seq<Tail.Step>, x: Tail.State)
    requires Leads(u, a, v) && Leads(v, b, x)
    ensures Leads(u, a + b, x)
    decreases |a|
  {
    if a == [] {
      assert a + b == b;
    } else {
      assert (a + b)[1..] == a[1..] + b;
      LeadsOn(Tail.Apply(u, a[0]), a[1..], v, b, x);
    }
  }

  lemma OneStep(u: Tail.State, step: Tail.Step)
    requires Tail.Enabled(u, step)
    ensures Leads(u, [step], Tail.Apply(u, step))
  {
    assert [step][1..] == [];
  }

  // ---- what a step of the protocol is to the tailed log ------------------

  /** A step of the protocol as steps of the deploy's tailed log; the text is that of the line it writes, if any. */
  function TailSteps(s: State, step: Step, d: DeployId, text: string): seq<Tail.Step> {
    match step
    case Work(x, e) =>
      if x == d && d in s.workers then WorkerTailSteps(s.workers[d], e, d in s.inflight, text) else []
    case SwapInflight => [Tail.Drain]
    case _ => []
  }

  function WorkerTailSteps(w: Worker, e: WorkerStep, inflight: bool, text: string): seq<Tail.Step> {
    match e
    case AppendLine => [Tail.Append([text])]
    case Unwind(partialLine, _) =>
      if w.defers == [] then [] else CallTailSteps(w, w.defers[|w.defers| - 1], partialLine, inflight, text)
    case _ => []
  }

  function CallTailSteps(w: Worker, call: Deferred, partialLine: bool, inflight: bool, text: string): seq<Tail.Step> {
    match call
    case CloseLog => if w.logOpen then (if partialLine then [Tail.Append([text])] else []) + [Tail.CloseLog] else []
    case LeaveInflight => if inflight then [Tail.LeaveInflight] else []
    case _ => []
  }

  lemma CloseFollows(u: Tail.State, partialLine: bool, text: string) returns (v: Tail.State)
    requires u.open && Text.Clean(text)
    ensures Leads(u, (if partialLine then [Tail.Append([text])] else []) + [Tail.CloseLog], v)
    ensures v == u.(open := false, file := u.file + if partialLine then [text] else [])
  {
    var closing: seq<Tail.Step> := [Tail.CloseLog];
    if partialLine {
      var grown := Tail.Apply(u, Tail.Append([text]));
      OneStep(u, Tail.Append([text]));
      OneStep(grown, Tail.CloseLog);
      v := Tail.Apply(grown, Tail.CloseLog);
      LeadsOn(u, [Tail.Append([text])], grown, closing, v);
    } else {
      OneStep(u, Tail.CloseLog);
      v := Tail.Apply(u, Tail.CloseLog);
      assert [] + closing == closing && u.file + [] == u.file;
    }
  }

  /** What a deferred call does to logs and to the map. */
  lemma DeferredLog(s: State, x: DeployId, w: Worker, call: Deferred, partialLine: bool, dbOk: bool, d: DeployId)
    ensures var t := RunDeferred(s, x, w, call, partialLine, dbOk);
      && t.drain == s.drain
      && (d in t.inflight <==> d in s.inflight && !(d == x && call.LeaveInflight?))
      && LinesOf(t.log, x) == LinesOf(s.log, x) + if call.CloseLog? && w.logOpen && partialLine then 1 else 0
  {
    match call {
      case CloseLog =>
      case CancelTimeout =>
      case RecoverPanic =>
      case ReleaseLock =>
      case LeaveInflight =>
    }
  }

  /** The call on top of the stack: it leaves the map only once the log has been closed. */
  lemma LastCall(w: Worker)
    requires StackOk(w) && w.pc.Unwinding? && w.defers != []
    ensures var call := w.defers[|w.defers| - 1];
      && (call.LeaveInflight? ==> !w.logOpen)
      && Popped(w).logOpen == (w.logOpen && !call.CloseLog?) && Popped(w).pc.Unwinding?
  {
    assert w.defers[|w.defers| - 1] == DEFER_ORDER[|w.defers| - 1];
  }

  lemma CallLeads(w: Worker, call: Deferred, u: Tail.State, partialLine: bool, text: string) returns (v: Tail.State)
    requires (call.LeaveInflight? ==> !w.logOpen) && u.open == w.logOpen && Text.Clean(text)
    ensures Leads(u, CallTailSteps(w, call, partialLine, u.inflight, text), v)
    ensures v.open == (u.open && !call.CloseLog?) && v.inflight == (u.inflight && !call.LeaveInflight?)
    ensures v.drained == u.drained
    ensures |v.file| == |u.file| + if call.CloseLog? && w.logOpen && partialLine then 1 else 0
  {
    v := u;
    if call.CloseLog? && w.logOpen {
      v := CloseFollows(u, partialLine, text);
    } else if call.LeaveInflight? && u.inflight {
      OneStep(u, Tail.LeaveInflight);
      v := Tail.Apply(u, Tail.LeaveInflight);
    }
  }

  /** The deferred calls run last-in first-out: by the time the deploy leaves the map, its log has been closed. */
  lemma CallFollows(s: State, d: DeployId, u: Tail.State, partialLine: bool, dbOk: bool, text: string)
    returns (v: Tail.State)
    requires Shows(s, d, u) && StackOk(s.workers[d]) && Text.Clean(text)
    requires WorkEnabled(s, s.workers[d], Unwind(partialLine, dbOk))
    ensures Leads(u, WorkerTailSteps(s.workers[d], Unwind(partialLine, dbOk), d in s.inflight, text), v)
    ensures Shows(WorkApply(s, d, s.workers[d], Unwind(partialLine, dbOk)), d, v)
    ensures WorkApply(s, d, s.workers[d], Unwind(partialLine, dbOk)).workers[d].pc.Unwinding?
  {
    var w := s.workers[d];
    var call := w.defers[|w.defers| - 1];
    LastCall(w);
    DeferredLog(s, d, w, call, partialLine, dbOk, d);
    UnwindApply(s, d, w, partialLine, dbOk);
    v := CallLeads(w, call, u, partialLine, text);
  }

  lemma OwnStepFollows(s: State, d: DeployId, u: Tail.State, e: WorkerStep, text: string) returns (v: Tail.State)
    requires Shows(s, d, u) && LogReady(s.workers, d) && StackOk(s.workers[d]) && Text.Clean(text)
    requires WorkEnabled(s, s.workers[d], e)
    ensures Leads(u, WorkerTailSteps(s.workers[d], e, d in s.inflight, text), v)
    ensures Shows(WorkApply(s, d, s.workers[d], e), d, v) && LogReady(WorkApply(s, d, s.workers[d], e).workers, d)
  {
    if e.Unwind? {
      v := CallFollows(s, d, u, e.partialLine, e.dbOk, text);
    } else if e.AppendLine? {
      OneStep(u, Tail.Append([text]));
      v := Tail.Apply(u, Tail.Append([text]));
    } else {
      v := u;
      QuietToTheLog(s, d, e);
    }
  }

  lemma QuietToTheLog(s: State, d: DeployId, e: WorkerStep)
    requires LogReady(s.workers, d) && WorkEnabled(s, s.workers[d], e) && !e.Unwind? && !e.AppendLine?
    ensures var t := WorkApply(s, d, s.workers[d], e);
      && t.log == s.log && t.inflight == s.inflight && t.drain == s.drain
      && LogReady(t.workers, d) && t.workers[d].logOpen == s.workers[d].logOpen
  {
    match e {
      case ClearCurrent =>
      case InspectCurrent(_) =>
      case FinishDocker =>
      case CreateRow(_) =>
      case LinkCurrent =>
      case ReloadCaddy =>
      case WriteSuccess(_) =>
      case RetireOld(_) =>
      case Fail =>
      case MarkFailed(_) =>
      case Panic =>
    }
  }

  /** Another deploy's worker leaves this one's log and place in the map alone. */
  lemma OthersFrame(s: State, x: DeployId, e: WorkerStep, d: DeployId)
    requires x in s.workers && StackOk(s.workers[x]) && WorkEnabled(s, s.workers[x], e) && x != d && d in s.workers
    ensures var t := WorkApply(s, x, s.workers[x], e);
      && d in t.workers && t.workers[d] == s.workers[d] && LinesOf(t.log, d) == LinesOf(s.log, d)
      && (d in t.inflight <==> d in s.inflight) && t.drain == s.drain
  {
    EffectFrame(s, x, s.workers[x], e);
    InflightFrame(s, x, s.workers[x], e, d);
  }

  lemma InflightFrame(s: State, x: DeployId, w: Worker, e: WorkerStep, d: DeployId)
    requires WorkEnabled(s, w, e) && x != d
    ensures var t := Effect(s, x, w, e); (d in t.inflight <==> d in s.inflight) && t.drain == s.drain
  {
    if e.Unwind? {
      DeferredLog(s, x, w, w.defers[|w.defers| - 1], e.partialLine, e.dbOk, d);
    } else {
      InflightKept(s, x, w, e);
    }
  }

  lemma InflightKept(s: State, x: DeployId, w: Worker, e: WorkerStep)
    requires WorkEnabled(s, w, e) && !e.Unwind?
    ensures var t := Effect(s, x, w, e);
      t.inflight == (if e.Register? then s.inflight[x := w.app] else s.inflight) && t.drain == s.drain
  {
    match e {
      case Register =>
      case ArmTimeout =>
      case LoadApp =>
      case OpenLog(_) =>
      case ClearCurrent =>
      case InspectCurrent(_) =>
      case AppendLine =>
      case FinishDocker =>
      case CreateRow(_) =>
      case LinkCurrent =>
      case ReloadCaddy =>
      case WriteSuccess(_) =>
      case RetireOld(_) =>
      case Fail =>
      case MarkFailed(_) =>
      case Panic =>
    }
  }

  lemma WorkFollows(s: State, x: DeployId, e: WorkerStep, d: DeployId, u: Tail.State, text: string)
    returns (v: Tail.State)
    requires x in s.workers && StackOk(s.workers[x]) && WorkEnabled(s, s.workers[x], e)
    requires LogReady(s.workers, d) && Shows(s, d, u) && Text.Clean(text)
    ensures Leads(u, TailSteps(s, Work(x, e), d, text), v)
    ensures Shows(WorkApply(s, x, s.workers[x], e), d, v) && LogReady(WorkApply(s, x, s.workers[x], e).workers, d)
  {
    if x == d {
      v := OwnStepFollows(s, d, u, e, text);
    } else {
      v := u;
      OthersFrame(s, x, e, d);
    }
  }

  /** No other step touches workers, logs or the map. */
  lemma ElsewhereFollows(s: State, step: Step, d: DeployId, u: Tail.State)
    requires Enabled(s, step) && !step.Work? && !step.SwapInflight? && !step.Spawn?
    requires LogReady(s.workers, d) && Shows(s, d, u)
    ensures Shows(Apply(s, step), d, u) && LogReady(Apply(s, step).workers, d)
  {}

  lemma SpawnFollows(s: State, r: RequestId, d: DeployId, u: Tail.State)
    requires Inv(s) && Enabled(s, Spawn(r)) && LogReady(s.workers, d) && Shows(s, d, u)
    ensures Shows(Apply(s, Spawn(r)), d, u) && LogReady(Apply(s, Spawn(r)).workers, d)
  {
    assert InsertedBy(s.handlers, r, s.handlers[r].deploy);
  }

  lemma SwapFollows(s: State, d: DeployId, u: Tail.State) returns (v: Tail.State)
    requires Enabled(s, SwapInflight) && LogReady(s.workers, d) && Shows(s, d, u)
    ensures Leads(u, [Tail.Drain], v)
    ensures Shows(Apply(s, SwapInflight), d, v) && LogReady(Apply(s, SwapInflight).workers, d)
  {
    OneStep(u, Tail.Drain);
    v := Tail.Apply(u, Tail.Drain);
  }

  lemma InvStack(s: State, x: DeployId)
    requires Inv(s) && x in s.workers
    ensures StackOk(s.workers[x])
  {
    assert ProgressOk(s.workers[x], s.nextContainer);
  }

  /** Every step of the protocol is a step of the deploy's tailed log, or two, or none. */
  lemma StepFollows(s: State, step: Step, d: DeployId, u: Tail.State, text: string) returns (v: Tail.State)
    requires Inv(s) && Enabled(s, step) && LogReady(s.workers, d) && Shows(s, d, u) && Text.Clean(text)
    ensures Leads(u, TailSteps(s, step, d, text), v)
    ensures Shows(Apply(s, step), d, v) && LogReady(Apply(s, step).workers, d)
  {
    v := u;
    if step.Work? {
      InvStack(s, step.deploy);
      v := WorkFollows(s, step.deploy, step.work, d, u, text);
    } else if step.SwapInflight? {
      v := SwapFollows(s, d, u);
    } else if step.Spawn? {
      SpawnFollows(s, step.request, d, u);
    } else {
      ElsewhereFollows(s, step, d, u);
    }
  }

  // ---- the protocol beside the stream ------------------------------------

  /** What happens next: a step of the protocol, with the text of a line, or one of the stream that tails the log. */
  datatype Event = OfProtocol(step: Step, text: string) | OfStream(poll: Tail.Step)

  predicate StreamStep(step: Tail.Step) {
    step.Open? || step.Stat? || step.Read? || step.Advance? || step.Check? || step.PollFails? || step.Disconnect?
  }

  /** The tailed log after steps, as far as they are possible. */
  function TailAfter(u: Tail.State, steps: seq<Tail.Step>): Tail.State
    decreases |steps|
  {
    if steps == [] || !Tail.Enabled(u, steps[0]) then u else TailAfter(Tail.Apply(u, steps[0]), steps[1..])
  }

  lemma {:induction false} LeadsThere(u: Tail.State, steps: seq<Tail.Step>, v: Tail.State)
    requires Leads(u, steps, v)
    ensures TailAfter(u, steps) == v
    decreases |steps|
  {
    if steps != [] {
      LeadsThere(Tail.Apply(u, steps[0]), steps[1..], v);
    }
  }

  /** The two states after an event, and the event as steps of the tailed log. */
  datatype Both = Both(protocol: State, tail: Tail.State, trace: seq<Tail.Step>)

  predicate Possible(s: State, u: Tail.State, event: Event) {
    match event
    case OfProtocol(step, text) => Enabled(s, step) && Text.Clean(text)
    case OfStream(poll) => StreamStep(poll) && Tail.Enabled(u, poll)
  }

  function After(s: State, u: Tail.State, d: DeployId, event: Event): Both
    requires Possible(s, u, event)
  {
    match event
    case OfProtocol(step, text) =>
      var trace := TailSteps(s, step, d, text); Both(Apply(s, step), TailAfter(u, trace), trace)
    case OfStream(poll) => Both(s, Tail.Apply(u, poll), [poll])
  }

  /** Each event is possible when its turn comes. Only the protocol is asked about its own steps. */
  ghost predicate AllPossible(s: State, u: Tail.State, d: DeployId, events: seq<Event>)
    decreases |events|
  {
    events != [] ==>
      && Possible(s, u, events[0])
      && var b := After(s, u, d, events[0]); AllPossible(b.protocol, b.tail, d, events[1..])
  }

  ghost function AfterAll(s: State, u: Tail.State, d: DeployId, events: seq<Event>): Both
    requires AllPossible(s, u, d, events)
    decreases |events|
  {
    if events == [] then Both(s, u, [])
    else
      var b := After(s, u, d, events[0]);
      var more := AfterAll(b.protocol, b.tail, d, events[1..]);
      more.(trace := b.trace + more.trace)
  }

  lemma ProtocolFollows(s: State, u: Tail.State, d: DeployId, step: Step, text: string)
    requires Inv(s) && Enabled(s, step) && LogReady(s.workers, d) && Shows(s, d, u) && Text.Clean(text)
    ensures var trace := TailSteps(s, step, d, text);
      && LogReady(Apply(s, step).workers, d)
      && Leads(u, trace, TailAfter(u, trace)) && Shows(Apply(s, step), d, TailAfter(u, trace))
  {
    var v := StepFollows(s, step, d, u, text);
    LeadsThere(u, TailSteps(s, step, d, text), v);
  }

  /** The stream leaves the log as it is. */
  lemma StreamKeepsLog(s: State, d: DeployId, u: Tail.State, step: Tail.Step)
    requires Shows(s, d, u) && StreamStep(step) && Tail.Enabled(u, step)
    ensures Shows(s, d, Tail.Apply(u, step))
  {}

  lemma PollFollows(s: State, u: Tail.State, d: DeployId, poll: Tail.Step)
    requires Shows(s, d, u) && StreamStep(poll) && Tail.Enabled(u, poll)
    ensures Leads(u, [poll], Tail.Apply(u, poll)) && Shows(s, d, Tail.Apply(u, poll))
  {
    OneStep(u, poll);
    StreamKeepsLog(s, d, u, poll);
  }

  lemma EventFollows(s: State, u: Tail.State, d: DeployId, event: Event)
    requires Inv(s) && LogReady(s.workers, d) && Shows(s, d, u) && Possible(s, u, event)
    ensures var b := After(s, u, d, event);
      LogReady(b.protocol.workers, d) && Leads(u, b.trace, b.tail) && Shows(b.protocol, d, b.tail)
  {
    match event {
      case OfProtocol(step, text) => ProtocolFollows(s, u, d, step, text);
      case OfStream(poll) => PollFollows(s, u, d, poll);
    }
  }

  lemma EventKeepsInv(s: State, u: Tail.State, d: DeployId, event: Event)
    requires Inv(s) && Possible(s, u, event)
    ensures Inv(After(s, u, d, event).protocol)
  {
    if event.OfProtocol? { StepInv(s, event.step); }
  }

  lemma {:induction false} EventsFollow(s: State, u: Tail.State, d: DeployId, events: seq<Event>)
    requires Inv(s) && LogReady(s.workers, d) && Shows(s, d, u) && AllPossible(s, u, d, events)
    ensures var b := AfterAll(s, u, d, events); Leads(u, b.trace, b.tail) && Shows(b.protocol, d, b.tail)
    decreases |events|
  {
    if events != [] {
      var b := After(s, u, d, events[0]);
      EventFollows(s, u, d, events[0]);
      EventKeepsInv(s, u, d, events[0]);
      EventsFollow(b.protocol, b.tail, d, events[1..]);
      var more := AfterAll(b.protocol, b.tail, d, events[1..]);
      LeadsOn(u, b.trace, b.tail, more.trace, more.tail);
    }
  }

  /** A stream that opens the log finds what the transition system of the tail starts from. */
  lemma StreamOpens(run: seq<State>, steps: seq<Step>, i: nat, d: DeployId, file: seq<string>)
    requires IsRun(run, steps) && i < |run| && LogReady(run[i].workers, d)
    requires |file| == LinesOf(run[i].log, d) && Text.AllClean(file)
    ensures var s := run[i];
      var u := Tail.State(file, s.workers[d].logOpen, d in s.inflight, s.drain.Draining?, Tail.Opening,
                          0, [], 0, 0, 0, []);
      Shows(s, d, u) && Tail.Init(u)
  {
    RunInv(run, steps, i);
    assert ProgressOk(run[i].workers[d], run[i].nextContainer);
  }

  lemma {:induction false} LeadsIsRun(u: Tail.State, steps: seq<Tail.Step>, v: Tail.State)
    returns (run: seq<Tail.State>)
    requires Leads(u, steps, v)
    ensures |run| == |steps| + 1 && run[0] == u && run[|steps|] == v
    ensures forall k :: 0 <= k < |steps| ==>
      Tail.Enabled(run[k], steps[k]) && run[k + 1] == Tail.Apply(run[k], steps[k])
    decreases |steps|
  {
    if steps == [] {
      run := [u];
    } else {
      var more := LeadsIsRun(Tail.Apply(u, steps[0]), steps[1..], v);
      run := [u] + more;
      forall k | 0 <= k < |steps|
        ensures Tail.Enabled(run[k], steps[k]) && run[k + 1] == Tail.Apply(run[k], steps[k])
      {
        if k > 0 {
          assert run[k] == more[k - 1] && run[k + 1] == more[k] && steps[k] == steps[1..][k - 1];
        }
      }
    }
  }

  /**
   In every run of the protocol, with a stream that has opened a deploy's log beside it, whatever the processes and the
   stream do next is a run of the tail's transition system. So the worker keeps that system's rules: it appends only
   while the log is open, and leaves the in-flight map only after it has closed it.
   */
  lemma StreamBesideTheProtocol(run: seq<State>, steps: seq<Step>, i: nat, d: DeployId, u: Tail.State,
                                events: seq<Event>)
    returns (tail: seq<Tail.State>)
    requires IsRun(run, steps) && i < |run| && LogReady(run[i].workers, d)
    requires Shows(run[i], d, u) && Tail.Init(u) && AllPossible(run[i], u, d, events)
    ensures var b := AfterAll(run[i], u, d, events);
      && Tail.IsRun(tail, b.trace) && tail[0] == u && tail[|b.trace|] == b.tail
      && Shows(b.protocol, d, b.tail)
  {
    var b := AfterAll(run[i], u, d, events);
    RunInv(run, steps, i);
    EventsFollow(run[i], u, d, events);
    tail := LeadsIsRun(u, b.trace, b.tail);
  }
}
