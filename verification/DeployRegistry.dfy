/** The two tables in memory that the deploy protocol's steps work on: the per-app lock and the deploys in flight. */
module DeployRegistry {
  import opened Collections
  import opened DeployProtocol

  /** Serializes the deploys of each app; different apps deploy in parallel. */
  class DeployLock {
    var busy: set<AppId>

    constructor ()
      ensures busy == {}
    {
      busy := {};
    }

    method TryAcquire(app: AppId) returns (ok: bool)
      modifies this
      ensures ok <==> app !in old(busy)
      ensures busy == old(busy) + {app}
    {
      if app in busy {
        return false;
      }
      busy := busy + {app};
      ok := true;
    }

    method Release(app: AppId)
      modifies this
      ensures busy == old(busy) - {app}
    {
      busy := busy - {app};
    }

    method IsBusy(app: AppId) returns (b: bool)
      ensures b <==> app in busy
    {
      b := app in busy;
    }
  }

  method CopyEntries(from: map<DeployId, AppId>) returns (copy: map<DeployId, AppId>)
    ensures copy == from
  {
    copy := map[];
    var todo := from.Keys;
    while todo != {}
      invariant todo <= from.Keys
      invariant copy == map d | d in from && d !in todo :: from[d]
      decreases |todo|
    {
      ghost var some := SomeMember(todo);
      var d :| d in todo;
      todo := todo - {d};
      copy := copy[d := from[d]];
    }
  }

  /** The deploys with a worker, the rows they write, and the drain that takes them over at shutdown. */
  class Registry {
    var inflight: map<DeployId, AppId>
    var deploys: map<DeployId, DeployRow>

    constructor (deploys: map<DeployId, DeployRow>)
      ensures inflight == map[] && this.deploys == deploys
    {
      inflight, this.deploys := map[], deploys;
    }

    method Enter(d: DeployId, app: AppId)
      modifies this`inflight
      ensures inflight == old(inflight)[d := app]
    {
      inflight := inflight[d := app];
    }

    method Leave(d: DeployId)
      modifies this`inflight
      ensures inflight == old(inflight) - {d}
    {
      inflight := inflight - {d};
    }

    method IsDeployInFlight(d: DeployId) returns (b: bool)
      ensures b <==> d in inflight
    {
      b := d in inflight;
    }

    /** The copy of the map that is taken while it is swapped for an empty one. */
    method SwapInflight() returns (stragglers: map<DeployId, AppId>)
      modifies this`inflight
      ensures stragglers == old(inflight) && inflight == map[]
    {
      stragglers := CopyEntries(inflight);
      inflight := map[];
    }

    /** Marks every deploy that was in flight failed, where the database accepts the write. */
    method DrainInflight(accepted: set<DeployId>)
      modifies this
      ensures inflight == map[]
      ensures deploys == Failed(old(deploys), old(inflight).Keys * accepted)
    {
      var stragglers := SwapInflight();
      var todo := stragglers.Keys;
      while todo != {}
        invariant todo <= stragglers.Keys
        invariant inflight == map[]
        invariant deploys == Failed(old(deploys), Done(stragglers.Keys, todo, accepted))
        decreases |todo|
      {
        ghost var some := SomeMember(todo);
        var d :| d in todo;
        FailedOneMore(old(deploys), Done(stragglers.Keys, todo, accepted), d);
        OneMoreDone(stragglers.Keys, todo, accepted, d);
        deploys := StatusWritten(deploys, d, DFailed, d in accepted);
        todo := todo - {d};
      }
      assert Done(stragglers.Keys, {}, accepted) == stragglers.Keys * accepted;
    }
  }

  /** The stragglers whose write was tried and accepted. */
  function Done(all: set<DeployId>, todo: set<DeployId>, accepted: set<DeployId>): set<DeployId> {
    (all - todo) * accepted
  }

  lemma OneMoreDone(all: set<DeployId>, todo: set<DeployId>, accepted: set<DeployId>, d: DeployId)
    requires d in todo && todo <= all
    ensures Done(all, todo - {d}, accepted) == Done(all, todo, accepted) + if d in accepted then {d} else {}
  {}

  function Failed(deploys: map<DeployId, DeployRow>, ids: set<DeployId>): map<DeployId, DeployRow> {
    map d | d in deploys :: if d in ids then deploys[d].(status := DFailed) else deploys[d]
  }

  lemma FailedOneMore(deploys: map<DeployId, DeployRow>, ids: set<DeployId>, d: DeployId)
    ensures Failed(deploys, ids + {d}) == StatusWritten(Failed(deploys, ids), d, DFailed, true)
  {}

  // ---- the drain as steps of the protocol --------------------------------

  /** The protocol's state after the drain has tried the given stragglers and written some of them. */
  function Marked(s: State, tried: set<DeployId>, written: set<DeployId>): State
    requires s.drain.Draining?
  {
    s.(drain := Draining(s.drain.stragglers - tried), deploys := Failed(s.deploys, written))
  }

  /** Trying one straggler more is one step of the protocol, whether or not the database takes the write. */
  lemma MarkingIsAStep(s: State, tried: set<DeployId>, written: set<DeployId>, d: DeployId, dbOk: bool)
    requires s.drain.Draining? && d in s.drain.stragglers && d !in tried
    ensures Enabled(Marked(s, tried, written), MarkStraggler(d, dbOk))
    ensures Apply(Marked(s, tried, written), MarkStraggler(d, dbOk)) ==
            Marked(s, tried + {d}, written + if dbOk then {d} else {})
  {
    FailedOneMore(s.deploys, written, d);
    assert s.drain.stragglers - tried - {d} == s.drain.stragglers - (tried + {d});
    assert written + {} == written;
  }
}
