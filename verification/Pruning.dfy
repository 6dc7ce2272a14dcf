/**
 The Janitor's container prune: the query that leaves out the current ids, the fallback that filters the rows in the
 slice it reads them from, and the deletes.
 */
module Pruning {
  import opened DeployProtocol

  const ID_FILTER_CAP := 100

  datatype Row = Row(id: ContainerId, cells: ContainerRow)

  /** The rows a query returns, in its order. */
  type Rows = seq<Row>

  predicate Matches(r: Row, cutoff: Time, except: set<ContainerId>) {
    Prunable(r.cells, cutoff) && r.id !in except
  }

  function Query(rows: Rows, cutoff: Time, except: set<ContainerId>): Rows {
    if rows == [] then []
    else
      var last := rows[|rows| - 1];
      Query(rows[..|rows| - 1], cutoff, except) + if Matches(last, cutoff, except) then [last] else []
  }

  function Without(rows: Rows, ids: set<ContainerId>): Rows {
    if rows == [] then []
    else
      var last := rows[|rows| - 1];
      Without(rows[..|rows| - 1], ids) + if last.id in ids then [] else [last]
  }

  /** Filters a slice into its own front: every write lands on an element that has been read. */
  method FilterInPlace(conts: array<Row>, current: set<ContainerId>) returns (k: nat)
    modifies conts
    ensures k <= conts.Length
    ensures conts[..k] == Without(old(conts[..]), current)
    ensures conts[k..] == old(conts[k..])
  {
    k := 0;
    ghost var was := conts[..];
    for i := 0 to conts.Length
      invariant k <= i
      invariant conts[..k] == Without(was[..i], current)
      invariant conts[k..] == was[k..]
    {
      var c := conts[i];
      assert c == was[i] by { assert conts[k..][i - k] == was[k..][i - k]; }
      assert was[..i + 1][..i] == was[..i];
      if c.id in current {
        continue;
      }
      conts[k] := c;
      k := k + 1;
      assert conts[k..] == was[k..];
      assert conts[..k] == conts[..k - 1] + [c];
    }
    assert was[..conts.Length] == was;
  }

  /** What the database and the cancellation of the run do to the deletes: which are refused, and where they stop. */
  datatype Outcome = Outcome(refused: set<ContainerId>, cancelledAt: nat)

  datatype CleanupResult = CleanupResult(scanned: nat, pruned: nat, cancelled: bool)

  function Ids(rows: Rows): set<ContainerId> {
    set r | r in rows :: r.id
  }

  predicate DistinctIds(rows: Rows) {
    forall j, k :: 0 <= j < k < |rows| ==> rows[j].id != rows[k].id
  }

  function MinNat(a: nat, b: nat): nat {
    if a < b then a else b
  }

  /** The rows that the deletes remove. */
  function Deleted(conts: Rows, outcome: Outcome): set<ContainerId> {
    Ids(conts[..MinNat(outcome.cancelledAt, |conts|)]) - outcome.refused
  }

  /** The rows removed once one more row has had its delete. */
  lemma DeletedNext(conts: Rows, i: nat, refused: set<ContainerId>, gone: set<ContainerId>)
    requires DistinctIds(conts) && i < |conts| && gone == Ids(conts[..i]) - refused
    ensures conts[i].id !in gone
    ensures Ids(conts[..i + 1]) - refused == if conts[i].id in refused then gone else gone + {conts[i].id}
  {
    assert conts[..i + 1] == conts[..i] + [conts[i]];
    IdsAppend(conts[..i], conts[i]);
    NotBefore(conts, i);
  }

  class ContainerTable {
    var rows: Rows

    constructor (rows: Rows)
      ensures this.rows == rows
    {
      this.rows := rows;
    }

    method DeleteContainers(conts: Rows, outcome: Outcome) returns (result: CleanupResult)
      requires DistinctIds(conts)
      modifies this
      ensures rows == Without(old(rows), Deleted(conts, outcome))
      ensures result.scanned == |conts| && result.pruned == |Deleted(conts, outcome)|
      ensures result.cancelled == (outcome.cancelledAt < |conts|)
    {
      var pruned := 0;
      ghost var gone: set<ContainerId> := {};
      WithoutNone(rows);
      for i := 0 to |conts|
        invariant i <= outcome.cancelledAt
        invariant gone == Ids(conts[..i]) - outcome.refused && pruned == |gone|
        invariant rows == Without(old(rows), gone)
      {
        if outcome.cancelledAt <= i {
          return CleanupResult(|conts|, pruned, true);
        }
        var c := conts[i];
        DeletedNext(conts, i, outcome.refused, gone);
        if c.id in outcome.refused {
          continue;
        }
        WithoutTwice(old(rows), gone, {c.id});
        rows := Without(rows, {c.id});
        pruned := pruned + 1;
        gone := gone + {c.id};
      }
      assert conts[..|conts|] == conts;
      result := CleanupResult(|conts|, pruned, false);
    }

    /**
     Undisturbed, a prune removes exactly the rows that are due; otherwise it removes some of them. It counts the rows
     that were due and those that went.
     */
    method PruneOldContainers(now: Time, keepDays: nat, current: set<ContainerId>, outcome: Outcome)
      returns (result: CleanupResult)
      requires DistinctIds(rows)
      modifies this
      ensures rows == Without(old(rows), Deleted(Query(old(rows), now - keepDays * DAY, current), outcome))
      ensures result.scanned == |DueIds(old(rows), now, keepDays, current)|
      ensures result.pruned == |old(rows)| - |rows| <= result.scanned
      ensures OnlyDueRowsGo(old(rows), rows, now, keepDays, current, outcome.refused)
      ensures outcome.refused == {} && !result.cancelled ==>
        forall r :: r in old(rows) ==> (r !in rows <==> Due(r, now, keepDays, current))
    {
      var conts := SelectOld(now - keepDays * DAY, current);
      PruneLaw(rows, now, keepDays, current, outcome, conts);
      result := DeleteContainers(conts, outcome);
    }

    method SelectOld(cutoff: Time, current: set<ContainerId>) returns (conts: Rows)
      ensures conts == Query(rows, cutoff, current)
    {
      if |current| == 0 {
        conts := Query(rows, cutoff, {});
      } else if |current| <= ID_FILTER_CAP {
        conts := Query(rows, cutoff, current);
      } else {
        conts := PruneSlow(cutoff, current);
      }
    }

    /** The fallback selects the rows that the query with the current ids in it selects, in the same order. */
    method PruneSlow(cutoff: Time, current: set<ContainerId>) returns (filtered: Rows)
      ensures filtered == Query(rows, cutoff, current)
    {
      var found := Query(rows, cutoff, {});
      var conts := new Row[|found|](i requires 0 <= i < |found| => found[i]);
      assert conts[..] == found;
      var k := FilterInPlace(conts, current);
      filtered := conts[..k];
      FastIsSlow(rows, cutoff, current);
    }
  }

  lemma WithoutSnoc(rows: Rows, r: Row, ids: set<ContainerId>)
    ensures Without(rows + [r], ids) == Without(rows, ids) + if r.id in ids then [] else [r]
  {
    assert (rows + [r])[..|rows|] == rows;
  }

  lemma {:induction false} FastIsSlow(rows: Rows, cutoff: Time, current: set<ContainerId>)
    ensures Without(Query(rows, cutoff, {}), current) == Query(rows, cutoff, current)
  {
    if rows != [] {
      var front, last := rows[..|rows| - 1], rows[|rows| - 1];
      FastIsSlow(front, cutoff, current);
      var found := Query(front, cutoff, {});
      WithoutSnoc(found, last, current);
      assert found + [] == found;
    }
  }

  /** The selection is exactly the terminal rows older than the cutoff that are not current. */
  lemma {:induction false} QuerySelects(rows: Rows, cutoff: Time, except: set<ContainerId>, r: Row)
    ensures r in Query(rows, cutoff, except) <==> r in rows && Matches(r, cutoff, except)
  {
    if rows != [] {
      var n := |rows| - 1;
      QuerySelects(rows[..n], cutoff, except, r);
      assert rows == rows[..n] + [rows[n]];
    }
  }

  lemma {:induction false} QueryDistinct(rows: Rows, cutoff: Time, except: set<ContainerId>)
    requires DistinctIds(rows)
    ensures DistinctIds(Query(rows, cutoff, except))
  {
    if rows != [] {
      var n := |rows| - 1;
      QueryDistinct(rows[..n], cutoff, except);
      var front := Query(rows[..n], cutoff, except);
      forall j | 0 <= j < |front| ensures front[j].id != rows[n].id {
        QuerySelects(rows[..n], cutoff, except, front[j]);
      }
    }
  }

  lemma {:induction false} WithoutNone(rows: Rows)
    ensures Without(rows, {}) == rows
  {
    if rows != [] {
      WithoutNone(rows[..|rows| - 1]);
    }
  }

  lemma {:induction false} WithoutTwice(rows: Rows, a: set<ContainerId>, b: set<ContainerId>)
    ensures Without(Without(rows, a), b) == Without(rows, a + b)
  {
    if rows != [] {
      var front, last := rows[..|rows| - 1], rows[|rows| - 1];
      WithoutTwice(front, a, b);
      var kept := Without(front, a);
      WithoutSnoc(kept, last, b);
      assert kept + [] == kept;
    }
  }

  lemma IdsAppend(rows: Rows, r: Row)
    ensures Ids(rows + [r]) == Ids(rows) + {r.id}
  {
    assert r in rows + [r];
    forall x | x in rows ensures x in rows + [r] {}
  }

  lemma NotBefore(rows: Rows, i: nat)
    requires i < |rows| && DistinctIds(rows)
    ensures rows[i].id !in Ids(rows[..i])
  {}

  lemma {:induction false} IdsSize(rows: Rows)
    ensures |Ids(rows)| <= |rows|
  {
    if rows != [] {
      var n := |rows| - 1;
      IdsSize(rows[..n]);
      assert rows == rows[..n] + [rows[n]];
      IdsAppend(rows[..n], rows[n]);
    }
  }

  lemma Shrinks(a: set<ContainerId>, b: set<ContainerId>)
    ensures |a - b| <= |a|
  {
    assert a == (a - b) + (a * b);
  }

  lemma DeletedSize(conts: Rows, outcome: Outcome)
    ensures |Deleted(conts, outcome)| <= |conts|
  {
    var done := conts[..MinNat(outcome.cancelledAt, |conts|)];
    IdsSize(done);
    Shrinks(Ids(done), outcome.refused);
  }

  lemma {:induction false} WithoutKeeps(rows: Rows, ids: set<ContainerId>, r: Row)
    ensures r in Without(rows, ids) <==> r in rows && r.id !in ids
  {
    if rows != [] {
      var n := |rows| - 1;
      WithoutKeeps(rows[..n], ids, r);
      assert rows == rows[..n] + [rows[n]];
    }
  }

  /**
   A prune removes only terminal rows older than the cutoff that are not current; undisturbed, it removes all of
   them.
   */
  lemma OnlyMatchingRowsGo(rows: Rows, cutoff: Time, current: set<ContainerId>, outcome: Outcome, r: Row)
    requires DistinctIds(rows) && r in rows
    ensures var selected := Query(rows, cutoff, current);
      var after := Without(rows, Deleted(selected, outcome));
      && (r !in after ==> Matches(r, cutoff, current))
      && (outcome.refused == {} && |selected| <= outcome.cancelledAt ==> (r in after <==> !Matches(r, cutoff, current)))
  {
    var selected := Query(rows, cutoff, current);
    WithoutKeeps(rows, Deleted(selected, outcome), r);
    QuerySelects(rows, cutoff, current, r);
    if r.id in Ids(selected) {
      var q :| q in selected && q.id == r.id;
      QuerySelects(rows, cutoff, current, q);
      assert q == r;
    }
    assert selected[..|selected|] == selected;
  }

  // ---- what a prune does to the table ------------------------------------

  /** Over in one of three ways, created more than the days to keep ago, and no app's current container. */
  predicate Due(r: Row, now: Time, keepDays: nat, current: set<ContainerId>) {
    && (r.cells.status == CExited || r.cells.status == CDead || r.cells.status == CRetired)
    && r.cells.createdAt < now - keepDays * 86_400
    && r.id !in current
  }

  function DueIds(rows: Rows, now: Time, keepDays: nat, current: set<ContainerId>): set<ContainerId> {
    set r | r in rows && Due(r, now, keepDays, current) :: r.id
  }

  lemma DueMatches(r: Row, now: Time, keepDays: nat, current: set<ContainerId>)
    ensures Due(r, now, keepDays, current) <==> Matches(r, now - keepDays * DAY, current)
  {}

  lemma {:induction false} DistinctSize(rows: Rows)
    requires DistinctIds(rows)
    ensures |Ids(rows)| == |rows|
  {
    if rows != [] {
      var n := |rows| - 1;
      DistinctSize(rows[..n]);
      assert rows == rows[..n] + [rows[n]];
      IdsAppend(rows[..n], rows[n]);
      NotBefore(rows, n);
    }
  }

  lemma ScannedAreDue(rows: Rows, now: Time, keepDays: nat, current: set<ContainerId>)
    requires DistinctIds(rows)
    ensures |Query(rows, now - keepDays * DAY, current)| == |DueIds(rows, now, keepDays, current)|
  {
    var selected := Query(rows, now - keepDays * DAY, current);
    forall r ensures r in selected <==> r in rows && Due(r, now, keepDays, current) {
      QuerySelects(rows, now - keepDays * DAY, current, r);
      DueMatches(r, now, keepDays, current);
    }
    assert Ids(selected) == DueIds(rows, now, keepDays, current);
    QueryDistinct(rows, now - keepDays * DAY, current);
    DistinctSize(selected);
  }

  lemma {:induction false} WithoutSize(rows: Rows, ids: set<ContainerId>)
    requires DistinctIds(rows)
    ensures |Without(rows, ids)| + |Ids(rows) * ids| == |rows|
  {
    if rows != [] {
      var n := |rows| - 1;
      WithoutSize(rows[..n], ids);
      assert rows == rows[..n] + [rows[n]];
      IdsAppend(rows[..n], rows[n]);
      NotBefore(rows, n);
      OneMoreLost(Ids(rows[..n]), ids, rows[n].id);
    }
  }

  lemma OneMoreLost(a: set<ContainerId>, ids: set<ContainerId>, x: ContainerId)
    requires x !in a
    ensures |(a + {x}) * ids| == |a * ids| + if x in ids then 1 else 0
  {
    if x in ids {
      assert (a + {x}) * ids == a * ids + {x};
    } else {
      assert (a + {x}) * ids == a * ids;
    }
  }

  lemma DeletedAreRows(rows: Rows, cutoff: Time, current: set<ContainerId>, outcome: Outcome)
    ensures var gone := Deleted(Query(rows, cutoff, current), outcome); Ids(rows) * gone == gone
  {
    var selected := Query(rows, cutoff, current);
    var gone := Deleted(selected, outcome);
    forall c | c in gone ensures c in Ids(rows) {
      var r :| r in selected[..MinNat(outcome.cancelledAt, |selected|)] && r.id == c;
      QuerySelects(rows, cutoff, current, r);
    }
  }

  lemma RefusedStay(rows: Rows, cutoff: Time, current: set<ContainerId>, outcome: Outcome, r: Row)
    requires DistinctIds(rows) && r in rows && r.id in outcome.refused
    ensures r in Without(rows, Deleted(Query(rows, cutoff, current), outcome))
  {
    WithoutKeeps(rows, Deleted(Query(rows, cutoff, current), outcome), r);
  }

  /** Nothing new, and what has gone was due and its delete not refused. */
  ghost predicate OnlyDueRowsGo(before: Rows, after: Rows, now: Time, keepDays: nat, current: set<ContainerId>,
                                refused: set<ContainerId>) {
    && (forall r :: r in after ==> r in before)
    && (forall r :: r in before && r !in after ==> Due(r, now, keepDays, current) && r.id !in refused)
  }

  lemma RowFate(rows: Rows, now: Time, keepDays: nat, current: set<ContainerId>, outcome: Outcome, r: Row)
    requires DistinctIds(rows) && r in rows
    ensures var selected := Query(rows, now - keepDays * DAY, current);
      var after := Without(rows, Deleted(selected, outcome));
      && (r !in after ==> Due(r, now, keepDays, current) && r.id !in outcome.refused)
      && (outcome.refused == {} && |selected| <= outcome.cancelledAt ==>
            (r !in after <==> Due(r, now, keepDays, current)))
  {
    OnlyMatchingRowsGo(rows, now - keepDays * DAY, current, outcome, r);
    DueMatches(r, now, keepDays, current);
    if r.id in outcome.refused { RefusedStay(rows, now - keepDays * DAY, current, outcome, r); }
  }

  lemma PrunedAreDue(rows: Rows, now: Time, keepDays: nat, current: set<ContainerId>, outcome: Outcome)
    requires DistinctIds(rows)
    ensures var selected := Query(rows, now - keepDays * DAY, current);
      var after := Without(rows, Deleted(selected, outcome));
      && |rows| - |after| == |Deleted(selected, outcome)|
      && OnlyDueRowsGo(rows, after, now, keepDays, current, outcome.refused)
      && (outcome.refused == {} && |selected| <= outcome.cancelledAt ==>
            forall r :: r in rows ==> (r !in after <==> Due(r, now, keepDays, current)))
  {
    var cutoff := now - keepDays * DAY;
    var gone := Deleted(Query(rows, cutoff, current), outcome);
    WithoutSize(rows, gone);
    DeletedAreRows(rows, cutoff, current, outcome);
    forall r | r in Without(rows, gone) ensures r in rows { WithoutKeeps(rows, gone, r); }
    forall r | r in rows
      ensures r !in Without(rows, gone) ==> Due(r, now, keepDays, current) && r.id !in outcome.refused
      ensures outcome.refused == {} && |Query(rows, cutoff, current)| <= outcome.cancelledAt ==>
        (r !in Without(rows, gone) <==> Due(r, now, keepDays, current))
    {
      RowFate(rows, now, keepDays, current, outcome, r);
    }
  }

  lemma PruneLaw(rows: Rows, now: Time, keepDays: nat, current: set<ContainerId>, outcome: Outcome, selected: Rows)
    requires DistinctIds(rows) && selected == Query(rows, now - keepDays * DAY, current)
    ensures DistinctIds(selected) && |selected| == |DueIds(rows, now, keepDays, current)|
    ensures var after := Without(rows, Deleted(selected, outcome));
      && |Deleted(selected, outcome)| == |rows| - |after| <= |selected|
      && OnlyDueRowsGo(rows, after, now, keepDays, current, outcome.refused)
      && (outcome.refused == {} && |selected| <= outcome.cancelledAt ==>
            forall r :: r in rows ==> (r !in after <==> Due(r, now, keepDays, current)))
  {
    QueryDistinct(rows, now - keepDays * DAY, current);
    DeletedSize(selected, outcome);
    ScannedAreDue(rows, now, keepDays, current);
    PrunedAreDue(rows, now, keepDays, current, outcome);
  }

  // ---- the prune of the deploy protocol ----------------------------------

  /** The table as the deploy protocol sees it. */
  function Table(rows: Rows): map<ContainerId, ContainerRow>
    requires DistinctIds(rows)
  {
    map r | r in rows :: r.id := r.cells
  }

  /** The rows selected here are those the protocol's prune step puts on its list. */
  lemma SelectsThePrunable(rows: Rows, cutoff: Time, current: set<ContainerId>)
    requires DistinctIds(rows)
    ensures Ids(Query(rows, cutoff, current)) == PrunableIds(Table(rows), cutoff, current)
  {
    forall c ensures c in Ids(Query(rows, cutoff, current)) <==> c in PrunableIds(Table(rows), cutoff, current) {
      if c in Ids(Query(rows, cutoff, current)) {
        var r :| r in Query(rows, cutoff, current) && r.id == c;
        QuerySelects(rows, cutoff, current, r);
        assert Table(rows)[c] == r.cells;
      }
      if c in PrunableIds(Table(rows), cutoff, current) {
        var r :| r in rows && r.id == c;
        assert Table(rows)[c] == r.cells;
        QuerySelects(rows, cutoff, current, r);
      }
    }
  }
}
