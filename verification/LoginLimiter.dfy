/**
 The sliding-window login limiter: five accepted logins a minute for each client address. A call samples its
 cutoff before it takes the mutex and stamps an accepted login under it.
 */
module LoginLimiter {
  import opened Collections

  type Ip = string
  type Time = int // nanoseconds

  const MINUTE: Time := 60_000_000_000
  const LIMIT := 5

  type Log = seq<Time>

  /** The stamps after the cutoff, in order. */
  function Recent(log: Log, cutoff: Time): (kept: Log)
    ensures |kept| <= |log|
  {
    if log == [] then [] else (if log[0] > cutoff then [log[0]] else []) + Recent(log[1..], cutoff)
  }

  function LogOf(logs: map<Ip, Log>, ip: Ip): Log {
    if ip in logs then logs[ip] else []
  }

  predicate HasRecent(log: Log, cutoff: Time) {
    exists k :: 0 <= k < |log| && log[k] > cutoff
  }

  // ---- one call's critical section ---------------------------------------

  predicate Allows(logs: map<Ip, Log>, ip: Ip, cutoff: Time) {
    |Recent(LogOf(logs, ip), cutoff)| < LIMIT
  }

  function AfterLogin(logs: map<Ip, Log>, ip: Ip, cutoff: Time, stamp: Time): map<Ip, Log> {
    var kept := Recent(LogOf(logs, ip), cutoff);
    logs[ip := if |kept| < LIMIT then kept + [stamp] else kept]
  }

  function AfterPurge(logs: map<Ip, Log>, cutoff: Time): map<Ip, Log> {
    map ip | ip in logs && HasRecent(logs[ip], cutoff) :: logs[ip]
  }

  class SessionStore {
    var attempts: map<Ip, Log>

    constructor ()
      ensures attempts == map[]
    {
      attempts := map[];
    }

    /** sampled is the clock before the mutex is taken, now the clock under it. */
    method AllowLogin(ip: Ip, sampled: Time, now: Time) returns (ok: bool)
      modifies this
      ensures ok == Allows(old(attempts), ip, sampled - MINUTE)
      ensures attempts == AfterLogin(old(attempts), ip, sampled - MINUTE, now)
      ensures ok <==> |After(LogOf(old(attempts), ip), sampled - 60_000_000_000)| < 5
    {
      var cutoff := sampled - MINUTE;
      var log := LogOf(attempts, ip);
      RecentCount(log, cutoff);
      var kept: Log := [];
      for i := 0 to |log|
        invariant attempts == old(attempts)
        invariant kept + Recent(log[i..], cutoff) == Recent(log, cutoff)
      {
        RecentStep(kept, log, i, cutoff);
        if log[i] > cutoff {
          kept := kept + [log[i]];
        }
      }
      assert log[|log|..] == [] && kept == Recent(log, cutoff);
      if |kept| >= LIMIT {
        attempts := attempts[ip := kept];
        return false;
      }
      kept := kept + [now];
      attempts := attempts[ip := kept];
      ok := true;
    }

    method PurgeStaleAttempts(sampled: Time)
      modifies this
      ensures attempts == AfterPurge(old(attempts), sampled - MINUTE)
    {
      var cutoff := sampled - MINUTE;
      var ips := attempts.Keys;
      while ips != {}
        invariant ips <= attempts.Keys <= old(attempts).Keys
        invariant forall ip :: ip in attempts ==> attempts[ip] == old(attempts)[ip]
        invariant forall ip :: ip in old(attempts) && ip !in ips ==>
          (ip in attempts <==> HasRecent(old(attempts)[ip], cutoff))
        decreases |ips|
      {
        var ip :| ip in ips;
        ips := ips - {ip};
        var log := attempts[ip];
        var hasRecent := false;
        for i := 0 to |log|
          invariant !hasRecent && !HasRecent(log[..i], cutoff)
        {
          if log[i] > cutoff {
            hasRecent := true;
            break;
          }
        }
        assert log[..|log|] == log;
        if !hasRecent {
          attempts := attempts - {ip};
        }
      }
    }
  }

  lemma RecentStep(kept: Log, log: Log, i: nat, cutoff: Time)
    requires i < |log| && kept + Recent(log[i..], cutoff) == Recent(log, cutoff)
    ensures (if log[i] > cutoff then kept + [log[i]] else kept) + Recent(log[i + 1..], cutoff) == Recent(log, cutoff)
  {
    assert log[i..][1..] == log[i + 1..];
    Glue(kept, if log[i] > cutoff then [log[i]] else [], Recent(log[i + 1..], cutoff));
    assert kept + [] == kept;
  }

  // ---- the filter --------------------------------------------------------

  lemma RecentCons(t: Time, log: Log, cutoff: Time)
    ensures Recent([t] + log, cutoff) == (if t > cutoff then [t] else []) + Recent(log, cutoff)
  {
    assert ([t] + log)[1..] == log;
  }

  lemma {:induction false} RecentAppend(a: Log, b: Log, cutoff: Time)
    ensures Recent(a + b, cutoff) == Recent(a, cutoff) + Recent(b, cutoff)
  {
    if a == [] {
      assert a + b == b;
    } else {
      var t, more := a[0], a[1..];
      assert a + b == [t] + (more + b);
      RecentAppend(more, b, cutoff);
      RecentCons(t, more + b, cutoff);
      Glue(if t > cutoff then [t] else [], Recent(more, cutoff), Recent(b, cutoff));
    }
  }

  lemma {:induction false} RecentTwice(log: Log, early: Time, late: Time)
    requires early <= late
    ensures Recent(Recent(log, early), late) == Recent(log, late)
  {
    if log != [] {
      var more := Recent(log[1..], early);
      RecentTwice(log[1..], early, late);
      RecentCons(log[0], more, late);
      assert [] + more == more;
    }
  }

  lemma {:induction false} NoneRecent(log: Log, cutoff: Time)
    ensures Recent(log, cutoff) == [] <==> !HasRecent(log, cutoff)
  {
    if log != [] {
      NoneRecent(log[1..], cutoff);
      if HasRecent(log[1..], cutoff) {
        var k :| 0 <= k < |log[1..]| && log[1..][k] > cutoff;
        assert log[k + 1] > cutoff;
      }
    }
  }

  /** The indices of the stamps after a cutoff. */
  function After(log: Log, cutoff: Time): set<nat> {
    set k: nat | k < |log| && log[k] > cutoff
  }

  lemma AfterSnoc(log: Log, t: Time, cutoff: Time)
    ensures |After(log + [t], cutoff)| == |After(log, cutoff)| + if t > cutoff then 1 else 0
  {
    if t > cutoff {
      assert After(log + [t], cutoff) == After(log, cutoff) + {|log|};
    } else {
      assert After(log + [t], cutoff) == After(log, cutoff);
    }
  }

  lemma {:induction false} RecentCount(log: Log, cutoff: Time)
    ensures |Recent(log, cutoff)| == |After(log, cutoff)|
  {
    if log != [] {
      var n := |log| - 1;
      RecentCount(log[..n], cutoff);
      Rejoin(log, n);
      RecentAppend(log[..n], [log[n]], cutoff);
      RecentCons(log[n], [], cutoff);
      assert [log[n]] + [] == [log[n]] == log[n..];
      AfterSnoc(log[..n], log[n], cutoff);
    }
  }

  // ---- one call at a time: the limiter that remembers everything ---------

  datatype Op = Login(ip: Ip, sampled: Time, stamp: Time) | Purge(sampled: Time)

  /** Calls one after the other on a clock that does not go back. */
  predicate Timed(ops: seq<Op>, clock: Time)
    decreases |ops|
  {
    ops == [] ||
    match ops[0]
    case Login(_, sampled, stamp) => clock <= sampled <= stamp && Timed(ops[1..], stamp)
    case Purge(sampled) => clock <= sampled && Timed(ops[1..], sampled)
  }

  /** The verdicts of a sequence of calls on the pruned logs. */
  function Verdicts(logs: map<Ip, Log>, ops: seq<Op>): seq<bool>
    decreases |ops|
  {
    if ops == [] then []
    else match ops[0]
    case Login(ip, sampled, stamp) =>
      [Allows(logs, ip, sampled - MINUTE)] + Verdicts(AfterLogin(logs, ip, sampled - MINUTE, stamp), ops[1..])
    case Purge(sampled) => Verdicts(AfterPurge(logs, sampled - MINUTE), ops[1..])
  }

  /** The reference: every accepted stamp is kept forever, and purges do nothing. */
  function Remembered(history: map<Ip, Log>, ip: Ip, cutoff: Time, stamp: Time): map<Ip, Log> {
    if Allows(history, ip, cutoff) then history[ip := LogOf(history, ip) + [stamp]] else history
  }

  function ReferenceVerdicts(history: map<Ip, Log>, ops: seq<Op>): seq<bool>
    decreases |ops|
  {
    if ops == [] then []
    else match ops[0]
    case Login(ip, sampled, stamp) =>
      [Allows(history, ip, sampled - MINUTE)]
      + ReferenceVerdicts(Remembered(history, ip, sampled - MINUTE, stamp), ops[1..])
    case Purge(_) => ReferenceVerdicts(history, ops[1..])
  }

  ghost predicate Agree(logs: map<Ip, Log>, history: map<Ip, Log>, clock: Time) {
    forall ip, c :: c >= clock - MINUTE ==> Recent(LogOf(logs, ip), c) == Recent(LogOf(history, ip), c)
  }

  lemma LoginAgrees(logs: map<Ip, Log>, history: map<Ip, Log>, ip: Ip, sampled: Time, stamp: Time)
    requires sampled <= stamp && Agree(logs, history, sampled)
    ensures Allows(logs, ip, sampled - MINUTE) == Allows(history, ip, sampled - MINUTE)
    ensures Agree(AfterLogin(logs, ip, sampled - MINUTE, stamp), Remembered(history, ip, sampled - MINUTE, stamp),
                  stamp)
  {
    var cutoff := sampled - MINUTE;
    var log, past := LogOf(logs, ip), LogOf(history, ip);
    var logs', history' := AfterLogin(logs, ip, cutoff, stamp), Remembered(history, ip, cutoff, stamp);
    forall x, c | c >= stamp - MINUTE ensures Recent(LogOf(logs', x), c) == Recent(LogOf(history', x), c) {
      if x == ip {
        RecentTwice(log, cutoff, c);
        RecentAppend(Recent(log, cutoff), [stamp], c);
        RecentAppend(past, [stamp], c);
      } else {
        assert LogOf(logs', x) == LogOf(logs, x) && LogOf(history', x) == LogOf(history, x);
      }
    }
  }

  lemma PurgeAgrees(logs: map<Ip, Log>, history: map<Ip, Log>, sampled: Time)
    requires Agree(logs, history, sampled)
    ensures Agree(AfterPurge(logs, sampled - MINUTE), history, sampled)
  {
    var cutoff := sampled - MINUTE;
    var logs' := AfterPurge(logs, cutoff);
    forall x, c | c >= cutoff ensures Recent(LogOf(logs', x), c) == Recent(LogOf(history, x), c) {
      if x in logs && x !in logs' {
        NoneRecent(logs[x], cutoff);
        RecentTwice(logs[x], cutoff, c);
      }
      assert Recent(LogOf(logs, x), c) == Recent(LogOf(history, x), c);
    }
  }

  lemma SameAfterLogin(logs: map<Ip, Log>, history: map<Ip, Log>, ops: seq<Op>, ip: Ip, sampled: Time, stamp: Time)
    requires ops != [] && ops[0] == Login(ip, sampled, stamp)
    requires Allows(logs, ip, sampled - MINUTE) == Allows(history, ip, sampled - MINUTE)
    requires Verdicts(AfterLogin(logs, ip, sampled - MINUTE, stamp), ops[1..])
             == ReferenceVerdicts(Remembered(history, ip, sampled - MINUTE, stamp), ops[1..])
    ensures Verdicts(logs, ops) == ReferenceVerdicts(history, ops)
  {}

  lemma {:induction false} SameVerdicts(logs: map<Ip, Log>, history: map<Ip, Log>, ops: seq<Op>, clock: Time)
    requires Timed(ops, clock) && Agree(logs, history, clock)
    ensures Verdicts(logs, ops) == ReferenceVerdicts(history, ops)
    decreases |ops|
  {
    if ops != [] {
      AgreeLater(logs, history, clock, ops[0].sampled);
      match ops[0] {
        case Login(ip, sampled, stamp) =>
          LoginAgrees(logs, history, ip, sampled, stamp);
          SameVerdicts(AfterLogin(logs, ip, sampled - MINUTE, stamp),
                       Remembered(history, ip, sampled - MINUTE, stamp), ops[1..], stamp);
          SameAfterLogin(logs, history, ops, ip, sampled, stamp);
        case Purge(sampled) =>
          PurgeAgrees(logs, history, sampled);
          SameVerdicts(AfterPurge(logs, sampled - MINUTE), history, ops[1..], sampled);
      }
    }
  }

  lemma AgreeLater(logs: map<Ip, Log>, history: map<Ip, Log>, clock: Time, later: Time)
    requires Agree(logs, history, clock) && clock <= later
    ensures Agree(logs, history, later)
  {}

  /** Called one at a time, the pruned limiter gives the verdicts of the limiter that keeps the whole history. */
  lemma RefinesWholeHistory(ops: seq<Op>, clock: Time)
    requires Timed(ops, clock)
    ensures Verdicts(map[], ops) == ReferenceVerdicts(map[], ops)
  {
    SameVerdicts(map[], map[], ops, clock);
  }

  function WithoutPurges(ops: seq<Op>): seq<Op> {
    if ops == [] then []
    else if ops[0].Purge? then WithoutPurges(ops[1..])
    else [ops[0]] + WithoutPurges(ops[1..])
  }

  lemma {:induction false} ReferenceIgnoresPurges(history: map<Ip, Log>, ops: seq<Op>, clock: Time, earlier: Time)
    requires Timed(ops, clock) && earlier <= clock
    ensures Timed(WithoutPurges(ops), earlier)
    ensures ReferenceVerdicts(history, WithoutPurges(ops)) == ReferenceVerdicts(history, ops)
    decreases |ops|
  {
    if ops != [] {
      match ops[0] {
        case Login(ip, sampled, stamp) =>
          assert WithoutPurges(ops)[1..] == WithoutPurges(ops[1..]);
          ReferenceIgnoresPurges(Remembered(history, ip, sampled - MINUTE, stamp), ops[1..], stamp, stamp);
        case Purge(sampled) => ReferenceIgnoresPurges(history, ops[1..], sampled, earlier);
      }
    }
  }

  /** Purges inserted anywhere change no verdict. */
  lemma PurgesAreInvisible(ops: seq<Op>, clock: Time)
    requires Timed(ops, clock)
    ensures Verdicts(map[], ops) == Verdicts(map[], WithoutPurges(ops))
  {
    ReferenceIgnoresPurges(map[], ops, clock, clock);
    RefinesWholeHistory(ops, clock);
    RefinesWholeHistory(WithoutPurges(ops), clock);
  }

  // ---- any number of calls at once ---------------------------------------

  type CallId = int

  datatype Call = LoginCall(ip: Ip, cutoff: Time) | PurgeCall(cutoff: Time)

  datatype State = State(
    clock: Time,
    logs: map<Ip, Log>,
    calls: map<CallId, Call>,      // the calls that have sampled their cutoff and not yet had the mutex
    accepted: map<Ip, Log>)        // history: every accepted login's stamp, never read by a guard

  datatype Step =
    | Tick(now: Time)
    | BeginLogin(call: CallId, ip: Ip)
    | BeginPurge(call: CallId)
    | Finish(call: CallId)         // the whole critical section

  predicate Enabled(s: State, step: Step) {
    match step
    case Tick(now) => s.clock <= now
    case BeginLogin(call, _) => call !in s.calls
    case BeginPurge(call) => call !in s.calls
    case Finish(call) => call in s.calls
  }

  function Apply(s: State, step: Step): State
    requires Enabled(s, step)
  {
    match step
    case Tick(now) => s.(clock := now)
    case BeginLogin(call, ip) => s.(calls := s.calls[call := LoginCall(ip, s.clock - MINUTE)])
    case BeginPurge(call) => s.(calls := s.calls[call := PurgeCall(s.clock - MINUTE)])
    case Finish(call) =>
      var t := s.(calls := s.calls - {call});
      match s.calls[call]
      case LoginCall(ip, cutoff) =>
        t.(logs := AfterLogin(s.logs, ip, cutoff, s.clock),
           accepted := if Allows(s.logs, ip, cutoff)
                       then s.accepted[ip := LogOf(s.accepted, ip) + [s.clock]] else s.accepted)
      case PurgeCall(cutoff) => t.(logs := AfterPurge(s.logs, cutoff))
  }

  predicate Init(s: State) {
    s.logs == map[] && s.calls == map[] && s.accepted == map[]
  }

  ghost predicate IsRun(run: seq<State>, steps: seq<Step>) {
    && |run| == |steps| + 1
    && Init(run[0])
    && forall i {:trigger Enabled(run[i], steps[i])} :: 0 <= i < |steps| ==>
         Enabled(run[i], steps[i]) && run[i + 1] == Apply(run[i], steps[i])
  }

  predicate Sorted(log: Log) {
    forall j, k :: 0 <= j < k < |log| ==> log[j] <= log[k]
  }

  predicate NoLater(log: Log, t: Time) {
    forall j :: 0 <= j < |log| ==> log[j] <= t
  }

  /** What is kept is the end of what was accepted, and the rest is more than a minute old. */
  predicate KeptOk(log: Log, accepted: Log, clock: Time) {
    && |log| <= |accepted|
    && log == accepted[|accepted| - |log|..]
    && NoLater(accepted[..|accepted| - |log|], clock - MINUTE)
  }

  /** Six accepted logins in a row span a minute at least. */
  predicate Spaced(accepted: Log) {
    forall j :: 0 <= j && j + LIMIT < |accepted| ==> accepted[j] + MINUTE <= accepted[j + LIMIT]
  }

  predicate AddressOk(log: Log, accepted: Log, clock: Time) {
    Sorted(accepted) && NoLater(accepted, clock) && KeptOk(log, accepted, clock) && Spaced(accepted)
  }

  ghost predicate Inv(s: State) {
    && (forall ip :: AddressOk(LogOf(s.logs, ip), LogOf(s.accepted, ip), s.clock))
    && (forall call :: call in s.calls ==> s.calls[call].cutoff <= s.clock - MINUTE)
  }

  /** In a sorted log the stamps after a cutoff are its end. */
  lemma {:induction false} RecentIsSuffix(log: Log, cutoff: Time)
    requires Sorted(log)
    ensures var n := |log| - |Recent(log, cutoff)|;
      Recent(log, cutoff) == log[n..] && NoLater(log[..n], cutoff)
  {
    if log != [] {
      if log[0] > cutoff {
        AllRecent(log, cutoff);
      } else {
        RecentIsSuffix(log[1..], cutoff);
        SuffixOfSuffix(log, 1, |log| - 1 - |Recent(log[1..], cutoff)|);
        NoLaterJoin(log[..1], log[1..][..|log| - 1 - |Recent(log[1..], cutoff)|], cutoff);
      }
    }
  }

  lemma {:induction false} AllRecent(log: Log, cutoff: Time)
    requires forall k :: 0 <= k < |log| ==> log[k] > cutoff
    ensures Recent(log, cutoff) == log
  {
    if log != [] {
      AllRecent(log[1..], cutoff);
    }
  }

  lemma NoLaterJoin(a: Log, b: Log, t: Time)
    requires NoLater(a, t) && NoLater(b, t)
    ensures NoLater(a + b, t)
  {}

  lemma SuffixOfSuffix(s: Log, m: nat, n: nat)
    requires m + n <= |s|
    ensures s[m..][n..] == s[m + n..] && s[..m + n] == s[..m] + s[m..][..n]
  {}

  /** Dropping n old stamps more from what is kept. */
  lemma DropOld(accepted: Log, log: Log, n: nat, clock: Time)
    requires KeptOk(log, accepted, clock) && n <= |log| && NoLater(log[..n], clock - MINUTE)
    ensures KeptOk(log[n..], accepted, clock)
  {
    var m := |accepted| - |log|;
    SuffixOfSuffix(accepted, m, n);
    NoLaterJoin(accepted[..m], log[..n], clock - MINUTE);
  }

  lemma SortedSuffix(log: Log, accepted: Log, clock: Time)
    requires KeptOk(log, accepted, clock) && Sorted(accepted)
    ensures Sorted(log)
  {}

  lemma KeptAfterCutoff(log: Log, accepted: Log, clock: Time, cutoff: Time)
    requires AddressOk(log, accepted, clock) && cutoff <= clock - MINUTE
    ensures KeptOk(Recent(log, cutoff), accepted, clock)
  {
    SortedSuffix(log, accepted, clock);
    RecentIsSuffix(log, cutoff);
    DropOld(accepted, log, |log| - |Recent(log, cutoff)|, clock);
  }

  lemma AcceptOk(kept: Log, accepted: Log, clock: Time)
    requires AddressOk(kept, accepted, clock) && |kept| < LIMIT
    ensures AddressOk(kept + [clock], accepted + [clock], clock)
  {
    var m := |accepted| - |kept|;
    assert (accepted + [clock])[m..] == kept + [clock];
    assert (accepted + [clock])[..m] == accepted[..m];
    if |accepted| >= LIMIT {
      var j := |accepted| - LIMIT;
      assert accepted[..m][j] == accepted[j];
    }
  }

  lemma LaterOk(log: Log, accepted: Log, clock: Time, now: Time)
    requires AddressOk(log, accepted, clock) && clock <= now
    ensures AddressOk(log, accepted, now)
  {}

  lemma PurgeOk(logs: map<Ip, Log>, ip: Ip, accepted: Log, clock: Time, cutoff: Time)
    requires AddressOk(LogOf(logs, ip), accepted, clock) && cutoff <= clock - MINUTE
    ensures AddressOk(LogOf(AfterPurge(logs, cutoff), ip), accepted, clock)
  {
    if !HasRecent(LogOf(logs, ip), cutoff) {
      KeptAfterCutoff(LogOf(logs, ip), accepted, clock, cutoff);
      NoneRecent(LogOf(logs, ip), cutoff);
    }
  }

  lemma FinishInv(s: State, call: CallId, ip: Ip)
    requires call in s.calls && s.calls[call].cutoff <= s.clock - MINUTE
    requires AddressOk(LogOf(s.logs, ip), LogOf(s.accepted, ip), s.clock)
    ensures var t := Apply(s, Finish(call)); AddressOk(LogOf(t.logs, ip), LogOf(t.accepted, ip), t.clock)
  {
    match s.calls[call] {
      case LoginCall(x, cutoff) =>
        if x == ip {
          KeptAfterCutoff(LogOf(s.logs, ip), LogOf(s.accepted, ip), s.clock, cutoff);
          if Allows(s.logs, ip, cutoff) {
            AcceptOk(Recent(LogOf(s.logs, ip), cutoff), LogOf(s.accepted, ip), s.clock);
          }
        }
      case PurgeCall(cutoff) => PurgeOk(s.logs, ip, LogOf(s.accepted, ip), s.clock, cutoff);
    }
  }

  lemma StepInv(s: State, step: Step)
    requires Inv(s) && Enabled(s, step)
    ensures Inv(Apply(s, step))
  {
    var t := Apply(s, step);
    forall ip ensures AddressOk(LogOf(t.logs, ip), LogOf(t.accepted, ip), t.clock) {
      assert AddressOk(LogOf(s.logs, ip), LogOf(s.accepted, ip), s.clock);
      match step {
        case Tick(now) => LaterOk(LogOf(s.logs, ip), LogOf(s.accepted, ip), s.clock, now);
        case Finish(call) => FinishInv(s, call, ip);
        case _ =>
      }
    }
  }

  lemma {:induction false} RunInv(run: seq<State>, steps: seq<Step>, i: nat)
    requires IsRun(run, steps) && i < |run|
    ensures Inv(run[i])
  {
    if i > 0 {
      RunInv(run, steps, i - 1);
      StepInv(run[i - 1], steps[i - 1]);
    }
  }

  /** The accepted logins of the window (t - 60s, t]. */
  function Window(accepted: Log, t: Time): Log {
    if accepted == [] then []
    else (if t - MINUTE < accepted[0] <= t then [accepted[0]] else []) + Window(accepted[1..], t)
  }

  lemma {:induction false} WindowAppend(a: Log, b: Log, t: Time)
    ensures Window(a + b, t) == Window(a, t) + Window(b, t)
  {
    if a == [] {
      assert a + b == b;
    } else {
      assert (a + b)[0] == a[0] && (a + b)[1..] == a[1..] + b;
      WindowAppend(a[1..], b, t);
      Glue(if t - MINUTE < a[0] <= t then [a[0]] else [], Window(a[1..], t), Window(b, t));
    }
  }

  lemma {:induction false} WindowSize(a: Log, t: Time)
    ensures |Window(a, t)| <= |a|
    ensures NoLater(a, t - MINUTE) ==> Window(a, t) == []
  {
    if a != [] {
      WindowSize(a[1..], t);
    }
  }

  lemma LateEnd(accepted: Log, t: Time)
    requires accepted != [] && accepted[|accepted| - 1] > t
    ensures Window(accepted, t) == Window(accepted[..|accepted| - 1], t)
  {
    var n := |accepted| - 1;
    Rejoin(accepted, n);
    WindowAppend(accepted[..n], accepted[n..], t);
    assert accepted[n..] == [accepted[n]] && [accepted[n]][1..] == [];
    assert Window(accepted[n..], t) == [];
  }

  lemma {:induction false} SpacedWindow(accepted: Log, t: Time)
    requires Sorted(accepted) && Spaced(accepted)
    ensures |Window(accepted, t)| <= LIMIT
    decreases |accepted|
  {
    var n := |accepted|;
    WindowSize(accepted, t);
    if n > LIMIT {
      if accepted[n - 1] > t {
        SpacedWindow(accepted[..n - 1], t);
        LateEnd(accepted, t);
      } else {
        OldFront(accepted, t);
      }
    }
  }

  lemma OldFront(accepted: Log, t: Time)
    requires Sorted(accepted) && Spaced(accepted) && |accepted| > LIMIT && accepted[|accepted| - 1] <= t
    ensures |Window(accepted, t)| <= LIMIT
  {
    var m := |accepted| - LIMIT;
    assert accepted[m - 1] + MINUTE <= accepted[m - 1 + LIMIT];
    Rejoin(accepted, m);
    WindowAppend(accepted[..m], accepted[m..], t);
    WindowSize(accepted[..m], t);
    WindowSize(accepted[m..], t);
  }

  /**
   However logins and purges overlap, no window of a minute holds more than five accepted logins of an address: the
   fifth after any login comes a minute later at least.
   */
  lemma RateBound(run: seq<State>, steps: seq<Step>, i: nat, ip: Ip, t: Time)
    requires IsRun(run, steps) && i < |run|
    ensures |Window(LogOf(run[i].accepted, ip), t)| <= 5
    ensures var a := LogOf(run[i].accepted, ip);
      && (forall j, k :: 0 <= j < k < |a| ==> a[j] <= a[k])
      && (forall j :: 0 <= j && j + 5 < |a| ==> a[j] + 60_000_000_000 <= a[j + 5])
  {
    RunInv(run, steps, i);
    assert AddressOk(LogOf(run[i].logs, ip), LogOf(run[i].accepted, ip), run[i].clock);
    SpacedWindow(LogOf(run[i].accepted, ip), t);
  }

  /** The call's login began at step m, and its cutoff was sampled there. */
  ghost predicate BeganAt(run: seq<State>, steps: seq<Step>, m: nat, call: CallId, c: Call) {
    && m < |steps| && m < |run|
    && match c
       case LoginCall(ip, cutoff) => steps[m] == BeginLogin(call, ip) && cutoff == run[m].clock - 60_000_000_000
       case PurgeCall(cutoff) => steps[m] == BeginPurge(call) && cutoff == run[m].clock - 60_000_000_000
  }

  lemma {:induction false} CallBegan(run: seq<State>, steps: seq<Step>, i: nat, call: CallId) returns (m: nat)
    requires IsRun(run, steps) && i < |run| && call in run[i].calls
    ensures m < i && BeganAt(run, steps, m, call, run[i].calls[call])
  {
    assert i > 0;
    assert Enabled(run[i - 1], steps[i - 1]);
    if call in run[i - 1].calls {
      m := CallBegan(run, steps, i - 1, call);
    } else {
      m := i - 1;
    }
  }

  lemma FifthFromTheEnd(log: Log, cutoff: Time)
    requires Sorted(log) && |Recent(log, cutoff)| >= 5
    ensures log[|log| - 5] > cutoff
  {
    var n := |log| - 4;
    if log[n - 1] <= cutoff {
      Rejoin(log, n);
      RecentAppend(log[..n], log[n..], cutoff);
      NoneRecent(log[..n], cutoff);
    }
  }

  lemma FullWhenRefused(log: Log, accepted: Log, clock: Time, cutoff: Time)
    requires AddressOk(log, accepted, clock) && |Recent(log, cutoff)| >= LIMIT
    ensures |accepted| >= 5 && accepted[|accepted| - 5] > cutoff
  {
    var m := |accepted| - |log|;
    Rejoin(accepted, m);
    RecentAppend(accepted[..m], accepted[m..], cutoff);
    FifthFromTheEnd(accepted, cutoff);
  }

  /**
   A login is refused only if the fifth last accepted login of its address came less than a minute before its call
   began, or later; otherwise it is stamped with the time at which it got the mutex.
   */
  lemma RefusedOnlyWhenFull(run: seq<State>, steps: seq<Step>, i: nat, call: CallId) returns (m: nat)
    requires IsRun(run, steps) && i < |steps| && steps[i] == Finish(call)
    requires call in run[i].calls && run[i].calls[call].LoginCall?
    ensures var ip := run[i].calls[call].ip;
      var a, a' := LogOf(run[i].accepted, ip), LogOf(run[i + 1].accepted, ip);
      && m < i && steps[m] == BeginLogin(call, ip)
      && (a' == a || a' == a + [run[i].clock])
      && (a' == a ==> |a| >= 5 && a[|a| - 5] > run[m].clock - 60_000_000_000)
  {
    assert Enabled(run[i], steps[i]);
    m := CallBegan(run, steps, i, call);
    RunInv(run, steps, i);
    var ip, cutoff := run[i].calls[call].ip, run[i].calls[call].cutoff;
    assert AddressOk(LogOf(run[i].logs, ip), LogOf(run[i].accepted, ip), run[i].clock);
    if !Allows(run[i].logs, ip, cutoff) {
      FullWhenRefused(LogOf(run[i].logs, ip), LogOf(run[i].accepted, ip), run[i].clock, cutoff);
    }
  }
}
