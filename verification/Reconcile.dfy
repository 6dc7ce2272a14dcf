/** Comparing the container rows with the docker containers, and clearing the current edges that lead nowhere. */
module Reconcile {
  import opened Wrappers
  import opened Collections

  type AppId = int
  type ContainerId = int

  datatype Container = Container(id: ContainerId, name: string, app: Option<AppId>)

  /** An app as loaded with its current container. */
  datatype App = App(id: AppId, current: Option<Container>)

  datatype Inputs = Inputs(containers: seq<Container>, apps: seq<App>, docker: seq<string>, caddyName: string)

  datatype DbOnly = DbOnly(containerId: ContainerId, name: string, appId: AppId, isCurrent: bool)

  datatype Report = Report(dbOnly: seq<DbOnly>, dbOnlyCount: nat, dockerOnly: seq<string>, dockerOnlyCount: nat,
                           currentMissing: seq<AppId>)

  const PREFIX := "nanoku-"

  // ---- what the report means ---------------------------------------------

  predicate Gone(name: string, docker: seq<string>) {
    name !in docker
  }

  /** The app points at a container that docker does not have. */
  predicate Dangling(a: App, docker: seq<string>) {
    a.current.Some? && Gone(a.current.value.name, docker)
  }

  predicate SomeDangling(apps: seq<App>, docker: seq<string>, id: ContainerId) {
    exists k :: 0 <= k < |apps| && Dangling(apps[k], docker) && apps[k].current.value.id == id
  }

  function DbOnlyOf(c: Container, isCurrent: bool): DbOnly {
    DbOnly(c.id, c.name, match c.app case Some(a) => a case None => 0, isCurrent)
  }

  /** A row without a container; current if some app with a missing container points at it. */
  function DbOnlyRow(c: Container, apps: seq<App>, docker: seq<string>): seq<DbOnly> {
    if Gone(c.name, docker) then [DbOnlyOf(c, SomeDangling(apps, docker, c.id))] else []
  }

  /** The rows without a container, in order. */
  function DbOnlyRows(containers: seq<Container>, apps: seq<App>, docker: seq<string>): seq<DbOnly> {
    if containers == [] then [] else DbOnlyRow(containers[0], apps, docker) + DbOnlyRows(containers[1..], apps, docker)
  }

  function DanglingIds(apps: seq<App>, docker: seq<string>): seq<AppId> {
    if apps == [] then []
    else (if Dangling(apps[0], docker) then [apps[0].id] else []) + DanglingIds(apps[1..], docker)
  }

  predicate Tracked(name: string, containers: seq<Container>) {
    exists k :: 0 <= k < |containers| && containers[k].name == name
  }

  predicate Orphan(name: string, containers: seq<Container>, caddyName: string) {
    !Tracked(name, containers) && name != caddyName && PREFIX <= name
  }

  function Orphans(names: seq<string>, containers: seq<Container>, caddyName: string): seq<string> {
    if names == [] then []
    else
      (if Orphan(names[0], containers, caddyName) then [names[0]] else [])
      + Orphans(names[1..], containers, caddyName)
  }

  function ReportOf(input: Inputs): Report {
    var dbOnly := DbOnlyRows(input.containers, input.apps, input.docker);
    var dockerOnly := Orphans(input.docker, input.containers, input.caddyName);
    Report(dbOnly, |dbOnly|, dockerOnly, |dockerOnly|, DanglingIds(input.apps, input.docker))
  }

  // ---- the comparison ----------------------------------------------------

  /** The rows found, all marked as not current. */
  function Unmarked(containers: seq<Container>, docker: seq<string>): seq<DbOnly> {
    DbOnlyRows(containers, [], docker)
  }

  function MarkCurrent(rows: seq<DbOnly>, id: ContainerId): seq<DbOnly> {
    seq(|rows|, i requires 0 <= i < |rows| =>
          if rows[i].containerId == id then rows[i].(isCurrent := true) else rows[i])
  }

  method FindDbOnly(containers: seq<Container>, docker: seq<string>) returns (rows: seq<DbOnly>, seen: set<string>)
    ensures rows == Unmarked(containers, docker)
    ensures forall n :: n in seen <==> Tracked(n, containers)
  {
    rows, seen := [], {};
    var dockerSet := set n | n in docker;
    for i := 0 to |containers|
      invariant rows + Unmarked(containers[i..], docker) == Unmarked(containers, docker)
      invariant forall n :: n in seen <==> Tracked(n, containers[..i])
    {
      var c := containers[i];
      seen := seen + {c.name};
      assert forall n :: Tracked(n, containers[..i + 1]) <==> Tracked(n, containers[..i]) || n == c.name by {
        forall n { OneMoreTracked(n, containers, i); }
      }
      UnmarkedStep(rows, containers, i, docker);
      if c.name in dockerSet {
        continue;
      }
      var appId := 0;
      if c.app.Some? {
        appId := c.app.value;
      }
      rows := rows + [DbOnly(c.id, c.name, appId, false)];
    }
    assert containers[|containers|..] == [] && containers[..|containers|] == containers;
    assert rows + [] == rows;
  }

  lemma OneMoreTracked(n: string, containers: seq<Container>, i: nat)
    requires i < |containers|
    ensures Tracked(n, containers[..i + 1]) <==> Tracked(n, containers[..i]) || n == containers[i].name
  {
    if Tracked(n, containers[..i]) {
      var k :| 0 <= k < i && containers[..i][k].name == n;
      assert containers[..i + 1][k].name == n;
    }
    assert containers[..i + 1][i] == containers[i];
  }

  lemma UnmarkedStep(rows: seq<DbOnly>, containers: seq<Container>, i: nat, docker: seq<string>)
    requires i < |containers|
    ensures rows + Unmarked(containers[i..], docker) ==
            rows + (if Gone(containers[i].name, docker) then [DbOnlyOf(containers[i], false)] else [])
            + Unmarked(containers[i + 1..], docker)
    ensures rows + [] == rows
  {
    assert containers[i..][1..] == containers[i + 1..];
    Glue(rows, if Gone(containers[i].name, docker) then [DbOnlyOf(containers[i], false)] else [],
         Unmarked(containers[i + 1..], docker));
  }

  /** Flips the mark of a row in place. */
  method Mark(before: seq<DbOnly>, id: ContainerId) returns (rows: seq<DbOnly>)
    ensures rows == MarkCurrent(before, id)
  {
    rows := before;
    for i := 0 to |before|
      invariant |rows| == |before|
      invariant forall k :: 0 <= k < i ==> rows[k] == MarkCurrent(before, id)[k]
      invariant forall k :: i <= k < |before| ==> rows[k] == before[k]
    {
      if rows[i].containerId == id {
        rows := rows[i := rows[i].(isCurrent := true)];
      }
    }
  }

  method ComputeReconcile(input: Inputs) returns (report: Report)
    ensures report == ReportOf(input)
  {
    var dbOnly, seenInDb := FindDbOnly(input.containers, input.docker);
    var currentMissing: seq<AppId> := [];
    var dockerSet := set n | n in input.docker;
    for i := 0 to |input.apps|
      invariant dbOnly == DbOnlyRows(input.containers, input.apps[..i], input.docker)
      invariant currentMissing + DanglingIds(input.apps[i..], input.docker) == DanglingIds(input.apps, input.docker)
    {
      var a := input.apps[i];
      DanglingStep(currentMissing, input.apps, i, input.docker);
      MarkStep(input.containers, input.apps, i, input.docker);
      if a.current.None? || a.current.value.name in dockerSet {
        continue;
      }
      dbOnly := Mark(dbOnly, a.current.value.id);
      currentMissing := currentMissing + [a.id];
    }
    assert input.apps[|input.apps|..] == [] && input.apps[..|input.apps|] == input.apps;
    assert currentMissing + [] == currentMissing;

    var dockerOnly: seq<string> := [];
    for i := 0 to |input.docker|
      invariant dockerOnly + Orphans(input.docker[i..], input.containers, input.caddyName)
                == Orphans(input.docker, input.containers, input.caddyName)
    {
      var n := input.docker[i];
      OrphanStep(dockerOnly, input.docker, i, input.containers, input.caddyName);
      if n in seenInDb || n == input.caddyName || !(PREFIX <= n) {
        continue;
      }
      dockerOnly := dockerOnly + [n];
    }
    assert input.docker[|input.docker|..] == [];
    assert dockerOnly + [] == dockerOnly;
    report := Report(dbOnly, |dbOnly|, dockerOnly, |dockerOnly|, currentMissing);
  }

  lemma DanglingStep(ids: seq<AppId>, apps: seq<App>, i: nat, docker: seq<string>)
    requires i < |apps|
    ensures ids + DanglingIds(apps[i..], docker) ==
            ids + (if Dangling(apps[i], docker) then [apps[i].id] else []) + DanglingIds(apps[i + 1..], docker)
    ensures ids + [] == ids
  {
    assert apps[i..][1..] == apps[i + 1..];
    Glue(ids, if Dangling(apps[i], docker) then [apps[i].id] else [], DanglingIds(apps[i + 1..], docker));
  }

  lemma OrphanStep(out: seq<string>, names: seq<string>, i: nat, containers: seq<Container>, caddyName: string)
    requires i < |names|
    ensures out + Orphans(names[i..], containers, caddyName) ==
            out + (if Orphan(names[i], containers, caddyName) then [names[i]] else [])
            + Orphans(names[i + 1..], containers, caddyName)
    ensures out + [] == out
  {
    assert names[i..][1..] == names[i + 1..];
    Glue(out, if Orphan(names[i], containers, caddyName) then [names[i]] else [],
         Orphans(names[i + 1..], containers, caddyName));
  }

  lemma OneMoreDangling(apps: seq<App>, i: nat, docker: seq<string>, id: ContainerId)
    requires i < |apps|
    ensures SomeDangling(apps[..i + 1], docker, id) <==>
            SomeDangling(apps[..i], docker, id) || (Dangling(apps[i], docker) && apps[i].current.value.id == id)
  {
    if SomeDangling(apps[..i], docker, id) {
      var k :| 0 <= k < i && Dangling(apps[..i][k], docker) && apps[..i][k].current.value.id == id;
      assert apps[..i + 1][k] == apps[..i][k];
    }
    assert apps[..i + 1][i] == apps[i];
  }

  lemma MarkAppend(a: seq<DbOnly>, b: seq<DbOnly>, id: ContainerId)
    ensures MarkCurrent(a + b, id) == MarkCurrent(a, id) + MarkCurrent(b, id)
  {}

  lemma MarkRow(c: Container, apps: seq<App>, i: nat, docker: seq<string>)
    requires i < |apps|
    ensures DbOnlyRow(c, apps[..i + 1], docker) ==
            if Dangling(apps[i], docker)
            then MarkCurrent(DbOnlyRow(c, apps[..i], docker), apps[i].current.value.id)
            else DbOnlyRow(c, apps[..i], docker)
  {
    OneMoreDangling(apps, i, docker, c.id);
  }

  /** One app more marks the rows it points at, if its container is gone. */
  lemma {:induction false} MarkStep(containers: seq<Container>, apps: seq<App>, i: nat, docker: seq<string>)
    requires i < |apps|
    ensures DbOnlyRows(containers, apps[..i + 1], docker) ==
            if Dangling(apps[i], docker)
            then MarkCurrent(DbOnlyRows(containers, apps[..i], docker), apps[i].current.value.id)
            else DbOnlyRows(containers, apps[..i], docker)
  {
    if containers != [] {
      MarkStep(containers[1..], apps, i, docker);
      MarkRow(containers[0], apps, i, docker);
      if Dangling(apps[i], docker) {
        MarkAppend(DbOnlyRow(containers[0], apps[..i], docker), DbOnlyRows(containers[1..], apps[..i], docker),
                   apps[i].current.value.id);
      }
    }
  }

  // ---- soundness and completeness ----------------------------------------

  lemma {:induction false} RowsReported(containers: seq<Container>, apps: seq<App>, docker: seq<string>, r: DbOnly)
    ensures r in DbOnlyRows(containers, apps, docker) <==>
            exists k :: 0 <= k < |containers| && Gone(containers[k].name, docker)
                        && r == DbOnlyOf(containers[k], SomeDangling(apps, docker, containers[k].id))
  {
    if containers != [] {
      var more := containers[1..];
      RowsReported(more, apps, docker, r);
      if k :| 0 <= k < |more| && Gone(more[k].name, docker)
              && r == DbOnlyOf(more[k], SomeDangling(apps, docker, more[k].id)) {
        assert containers[k + 1] == more[k];
      }
      if k :| 0 <= k < |containers| && Gone(containers[k].name, docker)
              && r == DbOnlyOf(containers[k], SomeDangling(apps, docker, containers[k].id)) {
        if k > 0 { assert more[k - 1] == containers[k]; }
      }
    }
  }

  /** The app's current container is this one. */
  predicate PointsAt(a: App, id: ContainerId) {
    a.current.Some? && a.current.value.id == id
  }

  /** What the report says of a container row: its columns, zero for no app, and whether it is current. */
  ghost predicate Reports(r: DbOnly, c: Container, apps: seq<App>, docker: seq<string>) {
    && r.containerId == c.id && r.name == c.name
    && (if c.app.Some? then r.appId == c.app.value else r.appId == 0)
    && (r.isCurrent <==>
          exists k :: 0 <= k < |apps| && PointsAt(apps[k], c.id) && apps[k].current.value.name !in docker)
  }

  lemma ReportsIff(r: DbOnly, c: Container, apps: seq<App>, docker: seq<string>)
    ensures Reports(r, c, apps, docker) <==> r == DbOnlyOf(c, SomeDangling(apps, docker, c.id))
  {
    if SomeDangling(apps, docker, c.id) {
      var k :| 0 <= k < |apps| && Dangling(apps[k], docker) && apps[k].current.value.id == c.id;
      assert PointsAt(apps[k], c.id);
    }
  }

  /**
   A row is reported exactly when docker lacks its container, and as current exactly if an app whose current container
   docker lacks points at it.
   */
  lemma DbOnlyExactly(containers: seq<Container>, apps: seq<App>, docker: seq<string>, r: DbOnly)
    ensures r in DbOnlyRows(containers, apps, docker) <==>
            exists k :: 0 <= k < |containers| && Reports(r, containers[k], apps, docker)
                        && containers[k].name !in docker
  {
    RowsReported(containers, apps, docker, r);
    forall k | 0 <= k < |containers|
      ensures Reports(r, containers[k], apps, docker) <==>
              r == DbOnlyOf(containers[k], SomeDangling(apps, docker, containers[k].id))
    {
      ReportsIff(r, containers[k], apps, docker);
    }
  }

  lemma {:induction false} OrphansExactly(names: seq<string>, containers: seq<Container>, caddyName: string, n: string)
    ensures n in Orphans(names, containers, caddyName) <==> n in names && Orphan(n, containers, caddyName)
  {
    if names != [] {
      OrphansExactly(names[1..], containers, caddyName, n);
    }
  }

  /** A docker name is reported exactly if it is neither tracked by a row, nor the proxy's own, nor somebody else's. */
  lemma DockerOnlyExactly(input: Inputs, n: string)
    ensures n in ReportOf(input).dockerOnly <==>
            && n in input.docker && n != input.caddyName && "nanoku-" <= n
            && forall k :: 0 <= k < |input.containers| ==> input.containers[k].name != n
  {
    OrphansExactly(input.docker, input.containers, input.caddyName, n);
  }

  datatype Origin = TrackedRow | Proxy | Foreign | Unknown

  /** What a docker name is, by the first test that applies. */
  function OriginOf(name: string, containers: seq<Container>, caddyName: string): Origin {
    if Tracked(name, containers) then TrackedRow
    else if name == caddyName then Proxy
    else if !(PREFIX <= name) then Foreign
    else Unknown
  }

  /** The names of one origin, in the order of the listing. */
  function NamesOf(names: seq<string>, containers: seq<Container>, caddyName: string, origin: Origin): seq<string> {
    if names == [] then []
    else
      (if OriginOf(names[0], containers, caddyName) == origin then [names[0]] else [])
      + NamesOf(names[1..], containers, caddyName, origin)
  }

  lemma {:induction false} OrphansAreUnknown(names: seq<string>, containers: seq<Container>, caddyName: string)
    ensures Orphans(names, containers, caddyName) == NamesOf(names, containers, caddyName, Unknown)
  {
    if names != [] {
      OrphansAreUnknown(names[1..], containers, caddyName);
    }
  }

  lemma {:induction false} OriginsAddUp(names: seq<string>, containers: seq<Container>, caddyName: string)
    ensures multiset(names) ==
            multiset(NamesOf(names, containers, caddyName, TrackedRow))
            + multiset(NamesOf(names, containers, caddyName, Proxy))
            + multiset(NamesOf(names, containers, caddyName, Foreign))
            + multiset(NamesOf(names, containers, caddyName, Unknown))
  {
    if names != [] {
      OriginsAddUp(names[1..], containers, caddyName);
      assert names == [names[0]] + names[1..];
    }
  }

  /**
   The report lists, in order, the docker names of unknown origin; the tracked names, the proxy's, the foreign ones and
   these make up the listing.
   */
  lemma DockerNamesSplit(input: Inputs)
    ensures ReportOf(input).dockerOnly == NamesOf(input.docker, input.containers, input.caddyName, Unknown)
    ensures multiset(input.docker) ==
            multiset(NamesOf(input.docker, input.containers, input.caddyName, TrackedRow))
            + multiset(NamesOf(input.docker, input.containers, input.caddyName, Proxy))
            + multiset(NamesOf(input.docker, input.containers, input.caddyName, Foreign))
            + multiset(ReportOf(input).dockerOnly)
  {
    OrphansAreUnknown(input.docker, input.containers, input.caddyName);
    OriginsAddUp(input.docker, input.containers, input.caddyName);
  }

  // ---- applying the report -----------------------------------------------

  /** The app table: each app's current container, by id. */
  type Edges = seq<Edge>

  datatype Edge = Edge(app: AppId, current: Option<ContainerId>)

  function Row(containers: seq<Container>, id: ContainerId): Option<Container> {
    if containers == [] then None
    else if containers[0].id == id then Some(containers[0])
    else Row(containers[1..], id)
  }

  function LoadedApp(containers: seq<Container>, e: Edge): App {
    App(e.app, if e.current.Some? then Row(containers, e.current.value) else None)
  }

  function Loaded(containers: seq<Container>, edges: Edges): seq<App> {
    if edges == [] then [] else [LoadedApp(containers, edges[0])] + Loaded(containers, edges[1..])
  }

  function ClearEdge(edges: Edges, app: AppId): Edges {
    if edges == [] then []
    else [if edges[0].app == app then edges[0].(current := None) else edges[0]] + ClearEdge(edges[1..], app)
  }

  function ClearEdges(edges: Edges, apps: seq<AppId>): Edges
    decreases |apps|
  {
    if apps == [] then edges else ClearEdges(ClearEdge(edges, apps[0]), apps[1..])
  }

  predicate HasApp(edges: Edges, app: AppId) {
    exists k :: 0 <= k < |edges| && edges[k].app == app
  }

  class Database {
    var containers: seq<Container>
    var edges: Edges

    constructor (containers: seq<Container>, edges: Edges)
      ensures this.containers == containers && this.edges == edges
    {
      this.containers, this.edges := containers, edges;
    }

    function Scan(docker: seq<string>, caddyName: string): Report
      reads this
    {
      ReportOf(Inputs(containers, Loaded(containers, edges), docker, caddyName))
    }

    method Reconcile(docker: seq<string>, caddyName: string) returns (report: Report)
      ensures report == Scan(docker, caddyName)
    {
      report := ComputeReconcile(Inputs(containers, Loaded(containers, edges), docker, caddyName));
    }

    /** An app that is not there is an error; a current edge that is already clear is not. */
    method ClearAppCurrentContainer(app: AppId, dbOk: bool) returns (ok: bool)
      modifies this`edges
      ensures ok <==> dbOk && HasApp(old(edges), app)
      ensures edges == if ok then ClearEdge(old(edges), app) else old(edges)
    {
      ok := dbOk && HasApp(edges, app);
      if ok {
        edges := ClearEdge(edges, app);
      }
    }

    /** Stops at the first edge that cannot be cleared. The report is the one from before the clears. */
    method ApplyReconcile(docker: seq<string>, caddyName: string, failsAt: nat) returns (report: Report, ok: bool)
      modifies this`edges
      ensures report == old(Scan(docker, caddyName))
      ensures ok <==> |report.currentMissing| <= failsAt
      ensures ok ==> edges == ClearEdges(old(edges), report.currentMissing)
      ensures !ok ==> edges == ClearEdges(old(edges), report.currentMissing[..failsAt])
      ensures var cleared := if ok then report.currentMissing else report.currentMissing[..failsAt];
        && |edges| == |old(edges)|
        && forall k :: 0 <= k < |edges| ==>
             edges[k] == if old(edges)[k].app in cleared then old(edges)[k].(current := None) else old(edges)[k]
    {
      report := Reconcile(docker, caddyName);
      var missing := report.currentMissing;
      MissingAreThere(edges, containers, docker, missing);
      ok := ClearAll(missing, failsAt);
      ClearedAt(old(edges), if ok then missing else missing[..failsAt]);
    }

    method ClearAll(missing: seq<AppId>, failsAt: nat) returns (ok: bool)
      requires forall i :: 0 <= i < |missing| ==> HasApp(edges, missing[i])
      modifies this`edges
      ensures ok <==> |missing| <= failsAt
      ensures edges == ClearEdges(old(edges), if ok then missing else missing[..failsAt])
    {
      ghost var was := edges;
      for i := 0 to |missing|
        invariant i <= failsAt && edges == ClearEdges(was, missing[..i])
      {
        ClearNext(was, missing, i);
        var cleared := ClearAppCurrentContainer(missing[i], i < failsAt);
        if !cleared {
          return false;
        }
      }
      assert missing[..|missing|] == missing;
      ok := true;
    }
  }

  lemma {:induction false} ClearOneMore(edges: Edges, apps: seq<AppId>, app: AppId)
    ensures ClearEdges(edges, apps + [app]) == ClearEdge(ClearEdges(edges, apps), app)
    decreases |apps|
  {
    if apps == [] {
      assert [app][1..] == [];
    } else {
      assert (apps + [app])[0] == apps[0] && (apps + [app])[1..] == apps[1..] + [app];
      ClearOneMore(ClearEdge(edges, apps[0]), apps[1..], app);
    }
  }

  lemma ClearNext(edges: Edges, missing: seq<AppId>, i: nat)
    requires i < |missing|
    ensures ClearEdges(edges, missing[..i + 1]) == ClearEdge(ClearEdges(edges, missing[..i]), missing[i])
    ensures HasApp(ClearEdges(edges, missing[..i]), missing[i]) <==> HasApp(edges, missing[i])
  {
    assert missing[..i + 1] == missing[..i] + [missing[i]];
    ClearOneMore(edges, missing[..i], missing[i]);
    ClearKeepsApps(edges, missing[..i], missing[i]);
  }

  lemma {:induction false} ClearKeepsApps(edges: Edges, apps: seq<AppId>, app: AppId)
    ensures HasApp(ClearEdges(edges, apps), app) <==> HasApp(edges, app)
    decreases |apps|
  {
    if apps != [] {
      ClearKeepsApps(ClearEdge(edges, apps[0]), apps[1..], app);
      ClearAt(edges, apps[0]);
    }
  }

  lemma {:induction false} ClearAt(edges: Edges, app: AppId)
    ensures |ClearEdge(edges, app)| == |edges|
    ensures forall k :: 0 <= k < |edges| ==>
      ClearEdge(edges, app)[k] == if edges[k].app == app then edges[k].(current := None) else edges[k]
  {
    if edges != [] {
      ClearAt(edges[1..], app);
    }
  }

  lemma {:induction false} LoadedAt(containers: seq<Container>, edges: Edges)
    ensures |Loaded(containers, edges)| == |edges|
    ensures forall k :: 0 <= k < |edges| ==> Loaded(containers, edges)[k] == LoadedApp(containers, edges[k])
  {
    if edges != [] {
      LoadedAt(containers, edges[1..]);
    }
  }

  lemma {:induction false} DanglingExactly(apps: seq<App>, docker: seq<string>, id: AppId)
    ensures id in DanglingIds(apps, docker) <==>
            exists k :: 0 <= k < |apps| && Dangling(apps[k], docker) && apps[k].id == id
  {
    if apps != [] {
      var more := apps[1..];
      DanglingExactly(more, docker, id);
      if k :| 0 <= k < |more| && Dangling(more[k], docker) && more[k].id == id {
        assert apps[k + 1] == more[k];
      }
      if k :| 0 <= k < |apps| && Dangling(apps[k], docker) && apps[k].id == id {
        if k > 0 { assert more[k - 1] == apps[k]; }
      }
    }
  }

  lemma {:induction false} RowById(containers: seq<Container>, id: ContainerId, c: Container)
    requires forall j, k :: 0 <= j < k < |containers| ==> containers[j].id != containers[k].id
    ensures Row(containers, id) == Some(c) <==> c in containers && c.id == id
  {
    if containers != [] {
      RowById(containers[1..], id, c);
    }
  }

  /** The app's current container is a row whose container docker does not have. */
  predicate Missing(containers: seq<Container>, e: Edge, docker: seq<string>) {
    exists c :: c in containers && e.current == Some(c.id) && c.name !in docker
  }

  lemma DanglingIsMissing(containers: seq<Container>, e: Edge, docker: seq<string>)
    requires forall j, k :: 0 <= j < k < |containers| ==> containers[j].id != containers[k].id
    ensures Dangling(LoadedApp(containers, e), docker) <==> Missing(containers, e, docker)
  {
    if e.current.Some? {
      forall c ensures Row(containers, e.current.value) == Some(c) <==> c in containers && c.id == e.current.value {
        RowById(containers, e.current.value, c);
      }
      var found := Row(containers, e.current.value);
      if found.Some? { assert found == Some(found.value); }
    }
  }

  /** A scan reports an app exactly if its current container is a row whose container docker does not have. */
  lemma CurrentMissingExactly(containers: seq<Container>, edges: Edges, docker: seq<string>, caddyName: string,
                              app: AppId)
    requires forall j, k :: 0 <= j < k < |containers| ==> containers[j].id != containers[k].id
    ensures app in ReportOf(Inputs(containers, Loaded(containers, edges), docker, caddyName)).currentMissing <==>
            exists k :: 0 <= k < |edges| && edges[k].app == app && Missing(containers, edges[k], docker)
  {
    LoadedAt(containers, edges);
    DanglingExactly(Loaded(containers, edges), docker, app);
    forall k | 0 <= k < |edges|
      ensures Dangling(Loaded(containers, edges)[k], docker) <==> Missing(containers, edges[k], docker)
    {
      DanglingIsMissing(containers, edges[k], docker);
    }
  }

  lemma MissingAreThere(edges: Edges, containers: seq<Container>, docker: seq<string>, missing: seq<AppId>)
    requires missing == DanglingIds(Loaded(containers, edges), docker)
    ensures forall i :: 0 <= i < |missing| ==> HasApp(edges, missing[i])
  {
    LoadedAt(containers, edges);
    forall i | 0 <= i < |missing| ensures HasApp(edges, missing[i]) {
      DanglingExactly(Loaded(containers, edges), docker, missing[i]);
    }
  }

  /** Clearing a list of apps clears exactly those. */
  lemma {:induction false} ClearedAt(edges: Edges, apps: seq<AppId>)
    ensures |ClearEdges(edges, apps)| == |edges|
    ensures forall k :: 0 <= k < |edges| ==>
      ClearEdges(edges, apps)[k] == if edges[k].app in apps then edges[k].(current := None) else edges[k]
    decreases |apps|
  {
    if apps != [] {
      ClearAt(edges, apps[0]);
      ClearedAt(ClearEdge(edges, apps[0]), apps[1..]);
    }
  }

  lemma {:induction false} NothingDangles(apps: seq<App>, docker: seq<string>)
    requires forall k :: 0 <= k < |apps| ==> !Dangling(apps[k], docker)
    ensures DanglingIds(apps, docker) == []
  {
    if apps != [] {
      NothingDangles(apps[1..], docker);
    }
  }

  function Unmark(rows: seq<DbOnly>): seq<DbOnly> {
    seq(|rows|, i requires 0 <= i < |rows| => rows[i].(isCurrent := false))
  }

  lemma UnmarkAppend(a: seq<DbOnly>, b: seq<DbOnly>)
    ensures Unmark(a + b) == Unmark(a) + Unmark(b)
  {}

  lemma UnmarkRow(c: Container, before: seq<App>, after: seq<App>, docker: seq<string>)
    requires !SomeDangling(after, docker, c.id)
    ensures DbOnlyRow(c, after, docker) == Unmark(DbOnlyRow(c, before, docker))
  {}

  lemma {:induction false} UnmarkedRows(containers: seq<Container>, before: seq<App>, after: seq<App>,
                                        docker: seq<string>)
    requires forall k :: 0 <= k < |after| ==> !Dangling(after[k], docker)
    ensures DbOnlyRows(containers, after, docker) == Unmark(DbOnlyRows(containers, before, docker))
  {
    if containers != [] {
      var c, more := containers[0], containers[1..];
      UnmarkedRows(more, before, after, docker);
      UnmarkRow(c, before, after, docker);
      UnmarkAppend(DbOnlyRow(c, before, docker), DbOnlyRows(more, before, docker));
    }
  }

  /**
   In a system where nothing else moves, a scan after the report has been applied finds no current container
   missing, and otherwise the same rows and names, none of them marked as current.
   */
  lemma SecondScan(containers: seq<Container>, edges: Edges, docker: seq<string>, caddyName: string)
    ensures var first := ReportOf(Inputs(containers, Loaded(containers, edges), docker, caddyName));
      var cleared := ClearEdges(edges, first.currentMissing);
      var second := ReportOf(Inputs(containers, Loaded(containers, cleared), docker, caddyName));
      && second.currentMissing == []
      && second.dbOnly == Unmark(first.dbOnly)
      && second.dockerOnly == first.dockerOnly
  {
    var before := Loaded(containers, edges);
    var missing := DanglingIds(before, docker);
    var cleared := ClearEdges(edges, missing);
    var after := Loaded(containers, cleared);
    LoadedAt(containers, edges);
    LoadedAt(containers, cleared);
    ClearedAt(edges, missing);
    forall k | 0 <= k < |after| ensures !Dangling(after[k], docker) {
      if edges[k].app !in missing {
        DanglingExactly(before, docker, edges[k].app);
        assert before[k] == after[k];
      }
    }
    NothingDangles(after, docker);
    UnmarkedRows(containers, before, after, docker);
  }
}
