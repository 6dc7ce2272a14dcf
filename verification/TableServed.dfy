/** What the generated file, read as a Caddyfile, says of the rows of the site table. */
module TableServed {
  import opened Wrappers
  import opened Collections
  import opened Sorting
  import Text
  import opened Sites
  import opened SitesServed
  import opened CaddyGrammar
  import Caddyfile
  import CaddyServed

  // ---- one row -----------------------------------------------------------

  /** The row has an upstream: its app is routed somewhere, or it has no app and an upstream of its own. */
  ghost predicate Routed(w: World, row: Sites.Row) {
    if row.app.Some? && row.app.value in w.apps
    then exists r :: RoutesTo(w.decode, w.apps[row.app.value], row.appService, r)
    else row.upstream.Some? && row.upstream.value != ""
  }

  /** This is where the row's requests should go. */
  ghost predicate GoesTo(w: World, row: Sites.Row, upstream: string) {
    if row.app.Some? && row.app.value in w.apps
    then exists r :: RoutesTo(w.decode, w.apps[row.app.value], row.appService, r) && Addresses(upstream, r)
    else row.upstream == Some(upstream)
  }

  /** One address, over plain http if asked or on a loopback domain, and all its requests go where the row's should. */
  ghost predicate Serves(w: World, row: Sites.Row, b: Block) {
    && b.keys == [(if row.scheme == "http" || LoopbackRow(w, row) then "http://" else "") + row.domain]
    && |b.body| == 1 && b.body[0].name == "reverse_proxy" && b.body[0].matcher.None?
    && |b.body[0].args| == 1 && GoesTo(w, row, b.body[0].args[0])
  }

  lemma NameLacksColon(name: string)
    requires AppName(name)
    ensures Text.Lacks(name, ':')
  {}

  lemma RoutedIff(w: World, row: Sites.Row)
    requires RowStored(w, row)
    ensures Routed(w, row) <==> ResolvedUpstream(w, row) != ""
    ensures Routed(w, row) ==> GoesTo(w, row, ResolvedUpstream(w, row))
  {
    if row.app.Some? && row.app.value in w.apps {
      var a := w.apps[row.app.value];
      NameLacksColon(a.name);
      UpstreamIsTheRoute(w.decode, a, row.appService);
      if Routed(w, row) {
        var r :| RoutesTo(w.decode, a, row.appService, r);
        assert Addresses(ResolvedUpstream(w, row), r);
      }
    }
  }

  lemma BlockServes(w: World, row: Sites.Row, config: Caddyfile.Config)
    requires RowStored(w, row) && Routed(w, row) && w.loopbackIp == config.loopbackIp
    ensures Serves(w, row, CaddyServed.BlockOf(Projected(w, row), config))
  {
    RoutedIff(w, row);
    AddressOfRow(w, row, config);
    assert "" + row.domain == row.domain;
  }

  // ---- the whole table ---------------------------------------------------

  ghost predicate Wants(w: World, row: Sites.Row) {
    row.enabled && Routed(w, row)
  }

  /** The blocks are those of the enabled rows that have an upstream, each once, by ascending domain. */
  ghost predicate BlocksServe(w: World, order: seq<SiteId>, rows: Rows, blocks: seq<Block>, served: seq<SiteId>) {
    && |served| == |blocks|
    && (forall k :: 0 <= k < |served| ==> served[k] in order && served[k] in rows && Wants(w, rows[served[k]]))
    && (forall k :: 0 <= k < |served| ==> Serves(w, rows[served[k]], blocks[k]))
    && (forall id :: id in order && id in rows && Wants(w, rows[id]) ==> id in served)
    && (forall j, k :: 0 <= j < k < |served| ==> Before(rows[served[j]].domain, rows[served[k]].domain))
  }

  ghost predicate AnyLoopback(w: World, order: seq<SiteId>, rows: Rows) {
    exists id :: id in order && id in rows && Wants(w, rows[id]) && LoopbackRow(w, rows[id])
  }

  /** The upstream of a row without an app, and a loopback domain, are one word that means itself. */
  ghost predicate WordsOk(w: World, row: Sites.Row) {
    && (!(row.app.Some? && row.app.value in w.apps) && row.upstream.Some? ==>
          Arg(row.upstream.value) && row.upstream.value != "" && !Matcher(row.upstream.value))
    && (LoopbackRow(w, row) ==> Key("http://" + row.domain))
  }

  /** What the file can say: at most one option, and only values of one word. */
  ghost predicate Sayable(w: World, order: seq<SiteId>, rows: Rows, config: Caddyfile.Config) {
    && (config.email == "" || (Arg(config.email) && config.autoHttps && !AnyLoopback(w, order, rows)))
    && forall id :: id in order && id in rows && Wants(w, rows[id]) ==> WordsOk(w, rows[id])
  }

  lemma WantsIff(w: World, rows: Rows, id: SiteId)
    requires Stored(w, rows) && id in rows
    ensures Wants(w, rows[id]) <==> InFile(w, rows[id])
    ensures Wants(w, rows[id]) ==> (WordsOk(w, rows[id]) <==> MeansItself(w, rows[id]))
  {
    StoredAt(w, rows, id);
    RoutedIff(w, rows[id]);
  }

  lemma AnyLoopbackIff(w: World, order: seq<SiteId>, rows: Rows, config: Caddyfile.Config)
    requires Lists(order, rows) && Stored(w, rows) && w.loopbackIp == config.loopbackIp
    ensures Caddyfile.HasLoopback(CaddySites(w, order, rows), config) <==> AnyLoopback(w, order, rows)
  {
    var sites := CaddySites(w, order, rows);
    if Caddyfile.HasLoopback(sites, config) {
      var j :| 0 <= j < |sites| && sites[j].enabled && Caddyfile.Loopback(config, sites[j].domain);
      var k := RowOf(w, order, rows, sites[j]);
      WantsIff(w, rows, order[k]);
      assert order[k] in order;
    }
    if AnyLoopback(w, order, rows) {
      var id :| id in order && id in rows && Wants(w, rows[id]) && LoopbackRow(w, rows[id]);
      var k :| 0 <= k < |order| && order[k] == id;
      WantsIff(w, rows, id);
      SiteOf(w, order, rows, k);
      var j :| 0 <= j < |sites| && sites[j] == Projected(w, rows[id]);
    }
  }

  lemma MeaningIff(w: World, order: seq<SiteId>, rows: Rows)
    requires Lists(order, rows) && Stored(w, rows)
    ensures RowsMeanThemselves(w, order, rows) <==>
            forall id :: id in order && id in rows && Wants(w, rows[id]) ==> WordsOk(w, rows[id])
  {
    forall k | 0 <= k < |order|
      ensures Wants(w, rows[order[k]]) <==> InFile(w, rows[order[k]])
      ensures Wants(w, rows[order[k]]) ==> (WordsOk(w, rows[order[k]]) <==> MeansItself(w, rows[order[k]]))
    {
      WantsIff(w, rows, order[k]);
    }
    if RowsMeanThemselves(w, order, rows) {
      forall id | id in order && id in rows && Wants(w, rows[id]) ensures WordsOk(w, rows[id]) {
        var k :| 0 <= k < |order| && order[k] == id;
      }
    } else {
      var k :| 0 <= k < |order| && InFile(w, rows[order[k]]) && !MeansItself(w, rows[order[k]]);
      assert order[k] in order && !WordsOk(w, rows[order[k]]);
    }
  }

  lemma SayableIff(w: World, order: seq<SiteId>, rows: Rows, config: Caddyfile.Config)
    requires Lists(order, rows) && Stored(w, rows) && w.loopbackIp == config.loopbackIp
    ensures Sayable(w, order, rows, config) <==>
            CaddyServed.OptionsFit(CaddySites(w, order, rows), config) && RowsMeanThemselves(w, order, rows)
  {
    MeaningIff(w, order, rows);
    AnyLoopbackIff(w, order, rows, config);
  }

  /** The rows behind some sites of the file. */
  lemma {:induction false} IdsOf(w: World, order: seq<SiteId>, rows: Rows, sites: seq<Caddyfile.Site>)
    returns (served: seq<SiteId>)
    requires Lists(order, rows) && forall s :: s in sites ==> s.enabled && s in CaddySites(w, order, rows)
    ensures |served| == |sites|
    ensures forall k :: 0 <= k < |served| ==>
      served[k] in order && InFile(w, rows[served[k]]) && sites[k] == Projected(w, rows[served[k]])
  {
    if sites == [] {
      served := [];
    } else {
      var k := RowOf(w, order, rows, sites[0]);
      var more := IdsOf(w, order, rows, sites[1..]);
      served := [order[k]] + more;
    }
  }

  lemma SortedMembers(w: World, order: seq<SiteId>, rows: Rows, sorted: seq<Caddyfile.Site>)
    requires Lists(order, rows)
    requires sorted == SortBy(Caddyfile.Enabled(CaddySites(w, order, rows)), Caddyfile.DomainOf)
    ensures forall s :: s in sorted <==> s.enabled && s in CaddySites(w, order, rows)
  {
    var sites := CaddySites(w, order, rows);
    SortMembers(Caddyfile.Enabled(sites), Caddyfile.DomainOf);
    forall s ensures s in sorted <==> s.enabled && s in sites {
      SameElement(sorted, Caddyfile.Enabled(sites), s);
      Caddyfile.EnabledIsMember(sites, s);
    }
  }

  lemma SortedAscending(w: World, order: seq<SiteId>, rows: Rows, sorted: seq<Caddyfile.Site>)
    requires Lists(order, rows) && DistinctDomains(rows)
    requires sorted == SortBy(Caddyfile.Enabled(CaddySites(w, order, rows)), Caddyfile.DomainOf)
    ensures Ascending(sorted, Caddyfile.DomainOf)
  {
    SitesDistinct(w, order, rows);
    EnabledDistinct(CaddySites(w, order, rows), Caddyfile.DomainOf);
    SortSorts(Caddyfile.Enabled(CaddySites(w, order, rows)), Caddyfile.DomainOf);
    SortedAscends(sorted, Caddyfile.DomainOf);
  }

  /** Every row that should be served is behind one of the sites. */
  lemma AllServed(w: World, order: seq<SiteId>, rows: Rows, sorted: seq<Caddyfile.Site>, served: seq<SiteId>,
                  id: SiteId)
    requires Lists(order, rows) && DistinctDomains(rows) && Stored(w, rows)
    requires forall s :: s in sorted <==> s.enabled && s in CaddySites(w, order, rows)
    requires |served| == |sorted| && forall k :: 0 <= k < |served| ==>
      served[k] in order && sorted[k] == Projected(w, rows[served[k]])
    requires id in order && Wants(w, rows[id])
    ensures id in served
  {
    WantsIff(w, rows, id);
    var j :| 0 <= j < |order| && order[j] == id;
    SiteOf(w, order, rows, j);
    var k :| 0 <= k < |sorted| && sorted[k] == Projected(w, rows[id]);
    assert rows[served[k]].domain == rows[id].domain;
  }

  lemma BlocksServeRows(w: World, order: seq<SiteId>, rows: Rows, config: Caddyfile.Config)
    returns (served: seq<SiteId>)
    requires Lists(order, rows) && DistinctDomains(rows) && Stored(w, rows) && w.loopbackIp == config.loopbackIp
    ensures BlocksServe(w, order, rows, CaddyServed.Wanted(CaddySites(w, order, rows), config).blocks, served)
  {
    var sorted := SortBy(Caddyfile.Enabled(CaddySites(w, order, rows)), Caddyfile.DomainOf);
    var blocks := CaddyServed.BlocksOf(sorted, config);
    SortedMembers(w, order, rows, sorted);
    SortedAscending(w, order, rows, sorted);
    served := IdsOf(w, order, rows, sorted);
    BlockCount(sorted, config);
    forall k | 0 <= k < |served| ensures Wants(w, rows[served[k]]) && Serves(w, rows[served[k]], blocks[k]) {
      WantsIff(w, rows, served[k]);
      StoredAt(w, rows, served[k]);
      CaddyServed.BlockAt(sorted, config, k);
      BlockServes(w, rows[served[k]], config);
    }
    forall id | id in order && id in rows && Wants(w, rows[id]) ensures id in served {
      AllServed(w, order, rows, sorted, served, id);
    }
    forall j, k | 0 <= j < k < |served| ensures Before(rows[served[j]].domain, rows[served[k]].domain) {
      assert Before(Caddyfile.DomainOf(sorted[j]), Caddyfile.DomainOf(sorted[k]));
    }
  }

  lemma {:induction false} BlockCount(sites: seq<Caddyfile.Site>, config: Caddyfile.Config)
    ensures |CaddyServed.BlocksOf(sites, config)| == |sites|
  {
    if sites != [] {
      BlockCount(sites[1..], config);
    }
  }

  /** Certificates are off when they are switched off or for a loopback site, and the account's address is given. */
  ghost predicate OptionsSaid(w: World, order: seq<SiteId>, rows: Rows, config: Caddyfile.Config,
                              options: seq<CaddyGrammar.Row>) {
    options == (if !config.autoHttps || AnyLoopback(w, order, rows) then [["auto_https", "off"]] else [])
               + (if config.email != "" then [["email", config.email]] else [])
  }

  /**
   If an email has no other option beside it, and the free upstreams and the loopback domains of the enabled rows are
   one word each, then the file that is generated from the table can be read, says the options that must be in force,
   and serves exactly the enabled rows that have an upstream, each at its own address and with its own route, by
   ascending domain. Otherwise it is read as something else, or not at all (see FileServesTheTableIff).
   */
  lemma FileServesTheTable(w: World, order: seq<SiteId>, rows: Rows, config: Caddyfile.Config)
    returns (served: seq<SiteId>)
    requires Lists(order, rows) && DistinctDomains(rows) && Stored(w, rows) && w.loopbackIp == config.loopbackIp
    ensures var read := ReadFile(Caddyfile.Rendered(CaddySites(w, order, rows), config));
      && (read == Some(CaddyServed.Wanted(CaddySites(w, order, rows), config)) <==> Sayable(w, order, rows, config))
      && (Sayable(w, order, rows, config) ==>
            && read.Some?
            && OptionsSaid(w, order, rows, config, read.value.options)
            && BlocksServe(w, order, rows, read.value.blocks, served))
  {
    SayableIff(w, order, rows, config);
    AnyLoopbackIff(w, order, rows, config);
    FileServesTheTableIff(w, order, rows, config);
    served := BlocksServeRows(w, order, rows, config);
  }
}
