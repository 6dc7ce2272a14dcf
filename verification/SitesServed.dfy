/** Which rows of the site table the generated file serves. */
module SitesServed {
  import opened Wrappers
  import opened Collections
  import opened Text
  import opened Sorting
  import opened Domains
  import opened ExposedPorts
  import opened Sites
  import Caddyfile
  import CaddyGrammar
  import CaddyServed

  type Rows = map<SiteId, Row>

  // ---- words that mean no more than themselves ---------------------------

  /** No blank, and none of the marks that the Caddyfile grammar knows. */
  predicate Safe(c: char) {
    && !IsSpace(c) && c != '\\' && c != '"' && c != '`' && c != '#' && c != '{' && c != '}' && c != '$'
    && c != '<' && c != ',' && c != '@' && c != '(' && c != '*' && c != '&'
  }

  predicate AllSafe(s: string) {
    forall k :: 0 <= k < |s| ==> Safe(s[k])
  }

  lemma SafeJoin(a: string, b: string)
    requires AllSafe(a) && AllSafe(b)
    ensures AllSafe(a + b)
  {}

  lemma SafeIsArg(w: string)
    requires w != "" && AllSafe(w)
    ensures CaddyGrammar.Arg(w) && (w[0] != '/' ==> !CaddyGrammar.Matcher(w))
    ensures w != "import" ==> CaddyGrammar.Key(w)
  {
    assert Safe(w[0]) && Safe(w[|w| - 1]);
    assert !("<<" <= w) && !("&(" <= w);
  }

  lemma NameCharIsSafe(c: char)
    requires NameChar(LowerChar(c))
    ensures Safe(c) && c != '/' && c != ':'
  {}

  const HTTP := "http://"

  lemma HttpIsSafe(s: string)
    requires AllSafe(s)
    ensures AllSafe(HTTP + s) && HTTP + s != "import" && (HTTP + s)[4] == ':'
  {
    assert HTTP[0] == 'h' && "import"[0] == 'i';
    assert AllSafe(HTTP);
    SafeJoin(HTTP, s);
  }

  lemma DotIsNoImport(s: string)
    requires '.' in s
    ensures s != "import"
  {
    assert '.' !in "import";
  }

  lemma NameIsSafe(domain: string, lower: string)
    requires |lower| == |domain| > 0 && forall k :: 0 <= k < |domain| ==> lower[k] == LowerChar(domain[k])
    requires '.' in lower && forall k :: 0 <= k < |lower| ==> NameChar(lower[k])
    ensures AllSafe(domain) && domain[0] != '/' && '.' in domain && ':' !in domain
  {
    forall k | 0 <= k < |domain| ensures Safe(domain[k]) && domain[k] != '/' && domain[k] != ':' {
      assert NameChar(lower[k]);
      NameCharIsSafe(domain[k]);
    }
    var k :| 0 <= k < |lower| && lower[k] == '.';
    assert LowerChar(domain[k]) == '.';
    assert domain[k] == '.';
  }

  lemma QualifiedIsSafe(domain: string)
    requires QualifiedName(Lower(domain))
    ensures domain != "" && AllSafe(domain) && domain[0] != '/' && '.' in domain && ':' !in domain
  {
    QualifiedNameChars(Lower(domain));
    NameIsSafe(domain, Lower(domain));
  }

  /** A fully-qualified name is an address that means itself, under either scheme. */
  lemma QualifiedIsKey(domain: string)
    requires QualifiedName(Lower(domain))
    ensures CaddyGrammar.Key(domain) && CaddyGrammar.Key(HTTP + domain)
  {
    QualifiedIsSafe(domain);
    DotIsNoImport(domain);
    SafeIsArg(domain);
    HttpIsSafe(domain);
    SafeIsArg(HTTP + domain);
  }

  // ---- a linked site's upstream ------------------------------------------

  /** The name pattern of apps. */
  predicate AppName(s: string) {
    1 <= |s| <= 63 && 'a' <= s[0] <= 'z' && forall k :: 0 <= k < |s| ==> LetterOrDigit(s[k]) || s[k] == '-'
  }

  lemma {:induction false} DigitsAreSafe(s: string)
    requires Decimal.AllDigits(s)
    ensures AllSafe(s)
  {}

  lemma PortIsSafe(port: int)
    ensures AllSafe(PrintInt(port))
  {
    if port < 0 {
      Decimal.PrintRoundTrip(-port);
      DigitsAreSafe(Decimal.Print(-port));
      SafeJoin("-", Decimal.Print(-port));
    } else {
      Decimal.PrintRoundTrip(port);
      DigitsAreSafe(Decimal.Print(port));
    }
  }

  lemma FoundIsServiceName(decode: Decoder, raw: Column, svc: string)
    requires ParseResult(decode, raw).Ok? && Find(ParseResult(decode, raw).value, svc).Some?
    ensures ServiceName(svc)
  {
    var ports := ParseResult(decode, raw).value;
    FoundIsThere(ports, svc);
    if ports != [] {
      CanonicalIsCanonical(decode(TrimSpace(raw.value)).value);
      var k :| 0 <= k < |ports| && ports[k].name == svc;
      assert PortOk(ports[k]);
      assert Trimmed(ports)[k] == ports[k];
    }
  }

  lemma AliasIsSafe(name: string, rest: string)
    requires AppName(name) && AllSafe(rest)
    ensures AllSafe("nanoku-" + name + rest) && ("nanoku-" + name + rest)[0] == 'n'
  {
    SafeJoin("nanoku-", name);
    SafeJoin("nanoku-" + name, rest);
  }

  lemma AppAliasIsArg(name: string, port: int)
    requires AppName(name)
    ensures var up := "nanoku-" + name + ":" + PrintInt(port); CaddyGrammar.Arg(up) && !CaddyGrammar.Matcher(up)
  {
    PortIsSafe(port);
    SafeJoin(":", PrintInt(port));
    AliasIsSafe(name, ":" + PrintInt(port));
    assert "nanoku-" + name + ":" + PrintInt(port) == "nanoku-" + name + (":" + PrintInt(port));
    SafeIsArg("nanoku-" + name + (":" + PrintInt(port)));
  }

  lemma ServiceAliasIsArg(name: string, svc: string, port: int)
    requires AppName(name) && ServiceName(svc)
    ensures var up := "nanoku-" + name + "-" + svc + ":" + PrintInt(port);
      CaddyGrammar.Arg(up) && !CaddyGrammar.Matcher(up)
  {
    var tail := "-" + (svc + (":" + PrintInt(port)));
    PortIsSafe(port);
    SafeJoin(":", PrintInt(port));
    SafeJoin(svc, ":" + PrintInt(port));
    SafeJoin("-", svc + (":" + PrintInt(port)));
    AliasIsSafe(name, tail);
    assert "nanoku-" + name + "-" + svc + ":" + PrintInt(port) == "nanoku-" + name + tail;
    SafeIsArg("nanoku-" + name + tail);
  }

  /** The upstream of a linked site is one word that means itself. */
  lemma LinkedUpstreamIsArg(decode: Decoder, a: App, appService: Option<string>)
    requires AppName(a.name) && UpstreamFor(decode, Some(a), appService) != ""
    ensures var up := UpstreamFor(decode, Some(a), appService); CaddyGrammar.Arg(up) && !CaddyGrammar.Matcher(up)
  {
    if !a.compose {
      AppAliasIsArg(a.name, a.port);
    } else {
      var ports := ParseResult(decode, a.exposedPorts).value;
      var svc := ServiceAmong(ports, TrimmedOr(appService));
      FoundIsServiceName(decode, a.exposedPorts, svc);
      ServiceAliasIsArg(a.name, svc, Find(ports, svc).value.port);
    }
  }

  // ---- what the table holds ----------------------------------------------

  /** The handlers store domains that they have validated and trimmed. */
  predicate DomainStored(w: World, domain: string) {
    ValidDomain(w.loopbackIp, domain) && TrimSpace(domain) == domain
  }

  /** App names match their pattern in the schema. */
  predicate RowStored(w: World, row: Row) {
    DomainStored(w, row.domain) && (LinkedApp(w, row).Some? ==> AppName(w.apps[row.app.value].name))
  }

  ghost predicate Stored(w: World, rows: Rows) {
    forall id :: id in rows ==> RowStored(w, rows[id])
  }

  lemma TrimmedIsStored(w: World, domain: string)
    requires ValidDomain(w.loopbackIp, domain)
    ensures DomainStored(w, TrimSpace(domain))
  {
    TrimTwice(domain);
  }

  /** Creates and updates keep it so. */
  lemma SavedIsStored(w: World, input: Input, existing: Row)
    ensures CreateAccepted(w, input) ==> DomainStored(w, CreatedRow(w, input).domain)
    ensures UpdateAccepted(w, input, existing) && DomainStored(w, existing.domain) ==>
      DomainStored(w, UpdatedRow(w, input, existing).domain)
  {
    if input.domain.Some? && ValidDomain(w.loopbackIp, input.domain.value) { TrimmedIsStored(w, input.domain.value); }
  }

  predicate LoopbackRow(w: World, row: Row) {
    IsLoopbackDomain(w.loopbackIp, row.domain)
  }

  /** What the handlers do not check: a free upstream, and what a loopback domain has before its suffix. */
  predicate MeansItself(w: World, row: Row) {
    && (LinkedApp(w, row).None? ==>
          var up := ResolvedUpstream(w, row); up != "" && CaddyGrammar.Arg(up) && !CaddyGrammar.Matcher(up))
    && (LoopbackRow(w, row) ==> CaddyGrammar.Key(HTTP + row.domain))
  }

  lemma AddressOfRow(w: World, row: Row, config: Caddyfile.Config)
    requires w.loopbackIp == config.loopbackIp
    ensures Caddyfile.Address(Projected(w, row), config) ==
            if row.scheme == "http" || LoopbackRow(w, row) then HTTP + row.domain else row.domain
  {}

  lemma AddressIsKeyIff(w: World, row: Row, config: Caddyfile.Config)
    requires w.loopbackIp == config.loopbackIp && DomainStored(w, row.domain)
    ensures CaddyGrammar.Key(Caddyfile.Address(Projected(w, row), config)) <==>
            (LoopbackRow(w, row) ==> CaddyGrammar.Key(HTTP + row.domain))
  {
    AddressOfRow(w, row, config);
    if !LoopbackRow(w, row) {
      QualifiedIsKey(row.domain);
    }
  }

  lemma LinkedRowIsArg(w: World, row: Row)
    requires RowStored(w, row) && ResolvedUpstream(w, row) != "" && LinkedApp(w, row).Some?
    ensures CaddyGrammar.Arg(ResolvedUpstream(w, row)) && !CaddyGrammar.Matcher(ResolvedUpstream(w, row))
  {
    LinkedUpstreamIsArg(w.decode, w.apps[row.app.value], row.appService);
  }

  lemma RowPlainIff(w: World, row: Row, config: Caddyfile.Config)
    requires w.loopbackIp == config.loopbackIp && RowStored(w, row) && ResolvedUpstream(w, row) != ""
    ensures CaddyServed.Plain(Projected(w, row), config) <==> MeansItself(w, row)
  {
    AddressIsKeyIff(w, row, config);
    if LinkedApp(w, row).Some? {
      LinkedRowIsArg(w, row);
    }
  }

  lemma PrefixedDiffer(a: string, b: string)
    requires ':' !in b
    ensures HTTP + a != b
  {
    assert (HTTP + a)[4] == ':';
  }

  lemma SameTail(a: string, b: string)
    requires HTTP + a == HTTP + b
    ensures a == b
  {
    assert (HTTP + a)[|HTTP|..] == a && (HTTP + b)[|HTTP|..] == b;
  }

  lemma AddressesDiffer(w: World, a: Row, b: Row, config: Caddyfile.Config)
    requires w.loopbackIp == config.loopbackIp && DomainStored(w, a.domain) && DomainStored(w, b.domain)
    requires a.domain != b.domain
    ensures Caddyfile.Address(Projected(w, a), config) != Caddyfile.Address(Projected(w, b), config)
  {
    AddressOfRow(w, a, config);
    AddressOfRow(w, b, config);
    if !LoopbackRow(w, a) { QualifiedIsSafe(a.domain); PrefixedDiffer(b.domain, a.domain); }
    if !LoopbackRow(w, b) { QualifiedIsSafe(b.domain); PrefixedDiffer(a.domain, b.domain); }
    if HTTP + a.domain == HTTP + b.domain { SameTail(a.domain, b.domain); }
  }

  // ---- from the table to the file ----------------------------------------

  predicate InFile(w: World, row: Row) {
    row.enabled && ResolvedUpstream(w, row) != ""
  }

  /** Every row that belongs in the file means itself. */
  predicate RowsMeanThemselves(w: World, order: seq<SiteId>, rows: Rows)
    requires Lists(order, rows)
  {
    forall k :: 0 <= k < |order| && InFile(w, rows[order[k]]) ==> MeansItself(w, rows[order[k]])
  }

  lemma RowOf(w: World, order: seq<SiteId>, rows: Rows, s: Caddyfile.Site) returns (k: nat)
    requires Lists(order, rows) && s in CaddySites(w, order, rows)
    ensures k < |order| && s == Projected(w, rows[order[k]]) && ResolvedUpstream(w, rows[order[k]]) != ""
  {
    SitesOf(w, order, rows, s);
    k :| 0 <= k < |order| && s in ResolveRow(w, rows[order[k]]);
  }

  lemma SiteOf(w: World, order: seq<SiteId>, rows: Rows, k: nat)
    requires Lists(order, rows) && k < |order| && InFile(w, rows[order[k]])
    ensures Projected(w, rows[order[k]]) in CaddySites(w, order, rows) && Projected(w, rows[order[k]]).enabled
  {
    var s := Projected(w, rows[order[k]]);
    assert s in ResolveRow(w, rows[order[k]]);
    SitesOf(w, order, rows, s);
  }

  /** What holds of the enabled sites of the file holds of the rows that belong in it, and the other way round. */
  lemma SitesAndRows(w: World, order: seq<SiteId>, rows: Rows, p: Caddyfile.Site -> bool)
    requires Lists(order, rows)
    ensures var sites := CaddySites(w, order, rows);
      (forall s :: s in sites && s.enabled ==> p(s)) <==>
      (forall k :: 0 <= k < |order| && InFile(w, rows[order[k]]) ==> p(Projected(w, rows[order[k]])))
  {
    var sites := CaddySites(w, order, rows);
    forall k | 0 <= k < |order| && InFile(w, rows[order[k]]) ensures Projected(w, rows[order[k]]) in sites {
      SiteOf(w, order, rows, k);
    }
    forall s | s in sites && s.enabled
      ensures exists k :: 0 <= k < |order| && InFile(w, rows[order[k]]) && s == Projected(w, rows[order[k]])
    {
      var k := RowOf(w, order, rows, s);
    }
  }

  lemma StoredAt(w: World, rows: Rows, id: SiteId)
    requires Stored(w, rows) && id in rows
    ensures RowStored(w, rows[id])
  {}

  lemma RowsPlainIff(w: World, order: seq<SiteId>, rows: Rows, config: Caddyfile.Config)
    requires Lists(order, rows) && Stored(w, rows) && w.loopbackIp == config.loopbackIp
    ensures RowsMeanThemselves(w, order, rows) <==> CaddyServed.EnabledPlain(CaddySites(w, order, rows), config)
  {
    var p: Caddyfile.Site -> bool := s => CaddyServed.Plain(s, config);
    SitesAndRows(w, order, rows, p);
    forall k | 0 <= k < |order| && InFile(w, rows[order[k]])
      ensures p(Projected(w, rows[order[k]])) <==> MeansItself(w, rows[order[k]])
    {
      StoredAt(w, rows, order[k]);
      RowPlainIff(w, rows[order[k]], config);
    }
    EveryEnabled(CaddySites(w, order, rows), config, p);
  }

  lemma EveryEnabled(sites: seq<Caddyfile.Site>, config: Caddyfile.Config, p: Caddyfile.Site -> bool)
    requires forall s :: p(s) == CaddyServed.Plain(s, config)
    ensures CaddyServed.EnabledPlain(sites, config) <==> forall s :: s in sites && s.enabled ==> p(s)
  {
    if CaddyServed.EnabledPlain(sites, config) {
      forall s | s in sites && s.enabled ensures p(s) {
        var k :| 0 <= k < |sites| && sites[k] == s;
      }
    }
  }

  lemma FirstAddress(w: World, order: seq<SiteId>, rows: Rows, config: Caddyfile.Config, s: Caddyfile.Site)
    requires Lists(order, rows) && Stored(w, rows) && w.loopbackIp == config.loopbackIp && DistinctDomains(rows)
    requires order != [] && s in CaddySites(w, order[1..], rows)
    ensures Caddyfile.Address(s, config) != Caddyfile.Address(Projected(w, rows[order[0]]), config)
  {
    var j := RowOf(w, order[1..], rows, s);
    StoredAt(w, rows, order[0]);
    StoredAt(w, rows, order[j + 1]);
    AddressesDiffer(w, rows[order[j + 1]], rows[order[0]], config);
  }

  lemma {:induction false} AddressesDistinct(w: World, order: seq<SiteId>, rows: Rows, config: Caddyfile.Config)
    requires Lists(order, rows) && Stored(w, rows) && w.loopbackIp == config.loopbackIp && DistinctDomains(rows)
    ensures DistinctKeys(CaddySites(w, order, rows), CaddyServed.AddressUnder(config))
  {
    if order != [] {
      var first, more := rows[order[0]], CaddySites(w, order[1..], rows);
      AddressesDistinct(w, order[1..], rows, config);
      forall k | 0 <= k < |more|
        ensures Caddyfile.Address(more[k], config) != Caddyfile.Address(Projected(w, first), config)
      {
        FirstAddress(w, order, rows, config, more[k]);
      }
    }
  }

  /**
   Read as a Caddyfile, the file serves exactly the enabled rows that resolve, one block each, under the options that
   must be in force, if and only if the options fit in one block, the free upstreams of those rows are one word each,
   and so are their loopback addresses. Domains that are not loopback and the upstreams of linked rows always are.
   */
  lemma FileServesTheTableIff(w: World, order: seq<SiteId>, rows: Rows, config: Caddyfile.Config)
    requires Lists(order, rows) && DistinctDomains(rows) && Stored(w, rows) && w.loopbackIp == config.loopbackIp
    ensures var sites := CaddySites(w, order, rows);
      && (CaddyGrammar.ReadFile(Caddyfile.Rendered(sites, config)) == Some(CaddyServed.Wanted(sites, config)) <==>
            CaddyServed.OptionsFit(sites, config) && RowsMeanThemselves(w, order, rows))
      && var sorted := SortBy(Caddyfile.Enabled(sites), Caddyfile.DomainOf);
         && Ascending(sorted, Caddyfile.DomainOf)
         && forall s :: s in sorted <==> s.enabled && FromRow(w, order, rows, s)
  {
    var sites := CaddySites(w, order, rows);
    var sorted := SortBy(Caddyfile.Enabled(sites), Caddyfile.DomainOf);
    SitesDistinct(w, order, rows);
    AddressesDistinct(w, order, rows, config);
    EnabledDistinct(sites, Caddyfile.DomainOf);
    EnabledDistinct(sites, CaddyServed.AddressUnder(config));
    RowsPlainIff(w, order, rows, config);
    CaddyServed.FileServesEnabledIff(sites, config);
    forall s ensures s in sorted <==> s.enabled && FromRow(w, order, rows, s) {
      SameElement(sorted, Caddyfile.Enabled(sites), s);
      Caddyfile.EnabledIsMember(sites, s);
      SitesOf(w, order, rows, s);
    }
  }

  // ---- what the handlers accept and the file does not serve --------------

  function FreeSite(domain: string, upstream: string): Input {
    Input(Some(domain), Some(upstream), None, None, None, None, false)
  }

  /** A create checks its upstream for being there, and no further. */
  lemma AnyUpstreamAccepted(w: World, domain: string, upstream: string)
    requires DomainStored(w, domain) && upstream != "" && TrimSpace(upstream) == upstream
    ensures CreateAccepted(w, FreeSite(domain, upstream))
    ensures Projected(w, CreatedRow(w, FreeSite(domain, upstream))) == Caddyfile.Site(domain, "https", upstream, true)
  {}

  lemma TrimmedAlready(s: string)
    requires s != "" && !IsSpace(s[0]) && !IsSpace(s[|s| - 1])
    ensures TrimSpace(s) == s
  {}

  lemma BraceIsTrimmed(upstream: string)
    requires CaddyGrammar.Arg(upstream)
    ensures TrimSpace(upstream + " {") == upstream + " {"
  {
    assert (upstream + " {")[0] == upstream[0];
    TrimmedAlready(upstream + " {");
  }

  lemma StoredKey(w: World, domain: string)
    requires DomainStored(w, domain) && !IsLoopbackDomain(w.loopbackIp, domain)
    ensures CaddyGrammar.Key(domain)
  {
    QualifiedIsKey(domain);
  }

  lemma BraceIsCreated(w: World, domain: string, upstream: string)
    requires DomainStored(w, domain) && CaddyGrammar.Arg(upstream)
    ensures CreateAccepted(w, FreeSite(domain, upstream + " {"))
    ensures Projected(w, CreatedRow(w, FreeSite(domain, upstream + " {")))
            == Caddyfile.Site(domain, "https", upstream + " {", true)
  {
    BraceIsTrimmed(upstream);
    AnyUpstreamAccepted(w, domain, upstream + " {");
  }

  lemma HttpsAddress(domain: string, upstream: string, config: Caddyfile.Config)
    requires !IsLoopbackDomain(config.loopbackIp, domain)
    ensures Caddyfile.Address(Caddyfile.Site(domain, "https", upstream, true), config) == domain
  {}

  lemma BraceIsUnread(domain: string, upstream: string, config: Caddyfile.Config)
    requires CaddyGrammar.Key(domain) && !IsLoopbackDomain(config.loopbackIp, domain)
    requires CaddyGrammar.Arg(upstream) && (config.email == "" || CaddyGrammar.Arg(config.email))
    ensures var s := Caddyfile.Site(domain, "https", upstream + " {", true);
      CaddyGrammar.ReadFile(Caddyfile.Rendered([s], config)).None?
  {
    HttpsAddress(domain, upstream + " {", config);
    CaddyServed.OpenBrace(Caddyfile.Site(domain, "https", upstream + " {", true), upstream, config);
  }

  /** The upstream that opens a block is accepted, and then the file is no Caddyfile. */
  lemma BraceIsAccepted(w: World, domain: string, upstream: string, config: Caddyfile.Config)
    requires DomainStored(w, domain) && w.loopbackIp == config.loopbackIp && !IsLoopbackDomain(w.loopbackIp, domain)
    requires CaddyGrammar.Arg(upstream) && (config.email == "" || CaddyGrammar.Arg(config.email))
    ensures var input := FreeSite(domain, upstream + " {");
      && CreateAccepted(w, input)
      && CaddyGrammar.ReadFile(Caddyfile.Rendered([Projected(w, CreatedRow(w, input))], config)).None?
  {
    BraceIsCreated(w, domain, upstream);
    StoredKey(w, domain);
    BraceIsUnread(domain, upstream, config);
  }

  lemma JoinedIsTrimmed(s: Caddyfile.Site, t: Caddyfile.Site, config: Caddyfile.Config)
    requires CaddyGrammar.Arg(s.upstream) && CaddyGrammar.Arg(t.upstream)
    ensures var up := Caddyfile.Joined(s, t, config).upstream; up != "" && TrimSpace(up) == up
  {
    var up := Caddyfile.Joined(s, t, config).upstream;
    assert up[0] == s.upstream[0] && up[|up| - 1] == t.upstream[|t.upstream| - 1];
    TrimmedAlready(up);
  }

  /** The upstream with line breaks is accepted, and then the one row is served as two sites. */
  lemma LineBreakIsAccepted(w: World, s: Caddyfile.Site, t: Caddyfile.Site, config: Caddyfile.Config)
    requires DomainStored(w, s.domain) && w.loopbackIp == config.loopbackIp && s.scheme == "https" && s.enabled
    requires CaddyServed.AllPlain([s, t], config) && Caddyfile.Address(s, config) != Caddyfile.Address(t, config)
    requires CaddyServed.OptionsFit([Caddyfile.Joined(s, t, config)], config)
    ensures var input := FreeSite(s.domain, Caddyfile.Joined(s, t, config).upstream);
      && CreateAccepted(w, input)
      && var sites := [Projected(w, CreatedRow(w, input))];
         CaddyGrammar.ReadFile(Caddyfile.Rendered(sites, config)) ==
         Some(CaddyGrammar.View(CaddyServed.RequiredOptions(sites, config), CaddyServed.BlocksOf([s, t], config)))
  {
    assert CaddyServed.Plain([s, t][0], config) && CaddyServed.Plain([s, t][1], config);
    JoinedIsTrimmed(s, t, config);
    AnyUpstreamAccepted(w, s.domain, Caddyfile.Joined(s, t, config).upstream);
    CaddyServed.OneSiteServesTwo(s, t, config);
  }

  const SPACED := "a b.localhost"

  lemma SpacedIsLoopback(w: World)
    ensures DomainStored(w, SPACED)
  {
    TrimmedAlready(SPACED);
    SpacedIsLower();
    assert EndsWith(SPACED, "." + LOCALHOST);
  }

  lemma SpacedIsLower()
    ensures Lower(SPACED) == SPACED && ByteLength(SPACED) == 13
  {
    assert |SPACED| == 13;
    assert forall k :: 0 <= k < |SPACED| ==> LowerChar(SPACED[k]) == SPACED[k];
    AsciiLength(SPACED);
  }

  lemma {:induction false} AsciiLength(s: string)
    requires forall k :: 0 <= k < |s| ==> s[k] as int < 0x80
    ensures ByteLength(s) == |s|
  {
    if s != "" {
      AsciiLength(s[1..]);
    }
  }

  lemma BlankIsNoKey(s: string, i: nat)
    requires i < |s| && IsSpace(s[i])
    ensures !CaddyGrammar.Key(HTTP + s)
  {
    assert (HTTP + s)[|HTTP| + i] == s[i];
  }

  /** A loopback domain is checked by its suffix only: this one is valid, but no address (see SplitAddress). */
  lemma BlankIsAccepted(w: World)
    ensures DomainStored(w, SPACED) && !CaddyGrammar.Key(HTTP + SPACED)
  {
    SpacedIsLoopback(w);
    BlankIsNoKey(SPACED, 1);
  }
}
