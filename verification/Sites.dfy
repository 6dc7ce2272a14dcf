/** Sites: which creates and updates are accepted, and what the Caddyfile then serves for them. */
module Sites {
  import opened Wrappers
  import opened Collections
  import opened Decimal
  import opened Sorting
  import opened ExposedPorts
  import opened Text
  import opened Domains
  import Caddyfile

  type AppId = int
  type SiteId = int

  datatype App = App(name: string, compose: bool, port: int, exposedPorts: Column)

  /** Only a free site's upstream column is read; a linked site's upstream is derived. */
  datatype Row = Row(domain: string, enabled: bool, scheme: string, app: Option<AppId>, appService: Option<string>,
                     upstream: Option<string>)

  datatype Input = Input(domain: Option<string>, upstream: Option<string>, enabled: Option<bool>, appId: Option<AppId>,
                         appService: Option<string>, scheme: Option<string>, clearApp: bool)

  /**
   What a request meets: the apps, which do not change during it, and which calls succeed: the query of the site, the
   load of an app, the app query of the check, the save, the reload and the delete that takes a failed create back.
   */
  datatype World = World(apps: map<AppId, App>, decode: Decoder, loopbackIp: string -> bool,
                         query: bool, load: bool, check: bool, save: bool, reload: bool, undo: bool)

  datatype Outcome = Saved(id: SiteId) | BadRequest | NotFound | Internal | Panicked

  // ---- upstream resolution -----------------------------------------------

  function TrimmedOr(s: Option<string>): string {
    match s
    case Some(v) => TrimSpace(v)
    case None => ""
  }

  /** A lone service is picked when none is named. */
  function ServiceAmong(ports: Ports, named: string): string {
    if named == "" && |ports| == 1 then ports[0].name else named
  }

  function UpstreamFor(decode: Decoder, app: Option<App>, appService: Option<string>): string {
    match app
    case None => ""
    case Some(a) =>
      if !a.compose then "nanoku-" + a.name + ":" + PrintInt(a.port)
      else match ParseResult(decode, a.exposedPorts)
        case Err(_) => ""
        case Ok(ports) =>
          var svc := ServiceAmong(ports, TrimmedOr(appService));
          if svc == "" then ""
          else match Find(ports, svc)
            case None => ""
            case Some(ep) => "nanoku-" + a.name + "-" + svc + ":" + PrintInt(ep.port)
  }

  function AppOf(apps: map<AppId, App>, id: AppId): Option<App> {
    if id in apps then Some(apps[id]) else None
  }

  /** Where a site is routed: a name on the docker network and a port. */
  datatype Route = Route(host: string, port: int)

  /** The exposed port of a compose app that a site picks: the one of the service it names, or the only one. */
  predicate Picks(ports: Ports, appService: Option<string>, ep: ExposedPort) {
    if TrimmedOr(appService) != "" then ep in ports && ep.name == TrimmedOr(appService) else ports == [ep]
  }

  /** A docker app has its own alias and port, whatever the service; a compose app those of the service picked. */
  predicate RoutesTo(decode: Decoder, a: App, appService: Option<string>, r: Route) {
    if !a.compose then r == Route("nanoku-" + a.name, a.port)
    else match ParseResult(decode, a.exposedPorts)
      case Err(_) => false
      case Ok(ports) =>
        exists k :: 0 <= k < |ports| && Picks(ports, appService, ports[k])
                    && r == Route("nanoku-" + a.name + "-" + ports[k].name, ports[k].port)
  }

  /** The decimal numeral of n. */
  predicate Numeral(s: string, n: int) {
    if n < 0 then s != "" && s[0] == '-' && s[1..] != "" && AllDigits(s[1..]) && Value(s[1..]) == -n
    else s != "" && AllDigits(s) && Value(s) == n
  }

  /** Cut at its only colon, the upstream is the host and the port's numeral. */
  predicate Addresses(upstream: string, r: Route) {
    var i := IndexByte(upstream, ':');
    && i < |upstream| && upstream[..i] == r.host
    && Lacks(upstream[i + 1..], ':') && Numeral(upstream[i + 1..], r.port)
  }

  lemma PrintIntNumeral(n: int)
    ensures Numeral(PrintInt(n), n) && Lacks(PrintInt(n), ':')
  {
    if n < 0 {
      PrintRoundTrip(-n);
      assert PrintInt(n)[1..] == Decimal.Print(-n);
    } else {
      PrintRoundTrip(n);
    }
  }

  lemma AddressOf(r: Route)
    requires Lacks(r.host, ':')
    ensures Addresses(r.host + ":" + PrintInt(r.port), r)
  {
    PrintIntNumeral(r.port);
    assert ":" == [':'];
    CutAt(r.host, ':', PrintInt(r.port));
  }

  lemma JoinLacks(a: string, b: string, c: char)
    requires Lacks(a, c) && Lacks(b, c)
    ensures Lacks(a + b, c)
  {}

  lemma HostLacks(name: string, svc: string)
    requires Lacks(name, ':') && Lacks(svc, ':')
    ensures Lacks("nanoku-" + name, ':') && Lacks("nanoku-" + name + "-" + svc, ':')
  {
    JoinLacks("nanoku-", name, ':');
    JoinLacks("nanoku-" + name, "-", ':');
    JoinLacks("nanoku-" + name + "-", svc, ':');
  }

  /** The one exposed port that a compose site picks is the one that is looked up. */
  lemma PickedIsFound(ports: Ports, appService: Option<string>, ep: ExposedPort)
    requires DistinctKeys(ports, NameOf) && forall k :: 0 <= k < |ports| ==> ports[k].name != ""
    requires Picks(ports, appService, ep)
    ensures ServiceAmong(ports, TrimmedOr(appService)) == ep.name != "" && Find(ports, ep.name) == Some(ep)
  {
    FindsIt(ports, ep);
  }

  lemma FoundIsPicked(ports: Ports, appService: Option<string>)
    requires var svc := ServiceAmong(ports, TrimmedOr(appService)); svc != "" && Find(ports, svc).Some?
    ensures var svc := ServiceAmong(ports, TrimmedOr(appService));
      exists k :: 0 <= k < |ports| && Picks(ports, appService, ports[k]) && ports[k] == Find(ports, svc).value
  {
    var svc := ServiceAmong(ports, TrimmedOr(appService));
    FoundIsThere(ports, svc);
    var k :| 0 <= k < |ports| && ports[k] == Find(ports, svc).value;
    assert TrimmedOr(appService) == "" ==> ports == [ports[0]];
    assert Picks(ports, appService, ports[k]);
  }

  lemma ComposeRoute(decode: Decoder, a: App, appService: Option<string>, r: Route)
    requires a.compose && Lacks(a.name, ':') && RoutesTo(decode, a, appService, r)
    ensures UpstreamFor(decode, Some(a), appService) == r.host + ":" + PrintInt(r.port) && Lacks(r.host, ':')
  {
    var ports := ParseResult(decode, a.exposedPorts).value;
    var k :| 0 <= k < |ports| && Picks(ports, appService, ports[k])
             && r == Route("nanoku-" + a.name + "-" + ports[k].name, ports[k].port);
    ParsedNames(decode, a.exposedPorts);
    PickedIsFound(ports, appService, ports[k]);
    HostLacks(a.name, ports[k].name);
  }

  lemma PickIsRoute(decode: Decoder, a: App, appService: Option<string>, k: nat)
    requires a.compose && ParseResult(decode, a.exposedPorts).Ok?
    requires var ports := ParseResult(decode, a.exposedPorts).value; k < |ports| && Picks(ports, appService, ports[k])
    ensures exists r :: RoutesTo(decode, a, appService, r)
  {
    var ports := ParseResult(decode, a.exposedPorts).value;
    assert RoutesTo(decode, a, appService, Route("nanoku-" + a.name + "-" + ports[k].name, ports[k].port));
  }

  lemma ComposeRouted(decode: Decoder, a: App, appService: Option<string>)
    requires a.compose && UpstreamFor(decode, Some(a), appService) != ""
    ensures exists r :: RoutesTo(decode, a, appService, r)
  {
    var ports := ParseResult(decode, a.exposedPorts).value;
    FoundIsPicked(ports, appService);
    var k :| 0 <= k < |ports| && Picks(ports, appService, ports[k]);
    PickIsRoute(decode, a, appService, k);
  }

  lemma DockerRoute(decode: Decoder, a: App, appService: Option<string>)
    requires !a.compose && Lacks(a.name, ':')
    ensures var r := Route("nanoku-" + a.name, a.port);
      && RoutesTo(decode, a, appService, r) && Lacks(r.host, ':')
      && UpstreamFor(decode, Some(a), appService) == r.host + ":" + PrintInt(r.port)
  {
    HostLacks(a.name, "");
  }

  /** A linked site has an upstream exactly if it is routed somewhere, and then the upstream addresses the route. */
  lemma UpstreamIsTheRoute(decode: Decoder, a: App, appService: Option<string>)
    requires Lacks(a.name, ':')
    ensures UpstreamFor(decode, Some(a), appService) != "" <==> exists r :: RoutesTo(decode, a, appService, r)
    ensures forall r :: RoutesTo(decode, a, appService, r) ==> Addresses(UpstreamFor(decode, Some(a), appService), r)
  {
    if !a.compose { DockerRoute(decode, a, appService); }
    if a.compose && UpstreamFor(decode, Some(a), appService) != "" { ComposeRouted(decode, a, appService); }
    forall r | RoutesTo(decode, a, appService, r)
      ensures Addresses(UpstreamFor(decode, Some(a), appService), r)
    {
      if a.compose { ComposeRoute(decode, a, appService, r); }
      AddressOf(r);
    }
  }

  lemma ParsedNames(decode: Decoder, raw: Column)
    requires ParseResult(decode, raw).Ok?
    ensures var ports := ParseResult(decode, raw).value;
      && DistinctKeys(ports, NameOf)
      && forall k :: 0 <= k < |ports| ==> ports[k].name != "" && Lacks(ports[k].name, ':')
  {
    var ports := ParseResult(decode, raw).value;
    if ports != [] {
      CanonicalIsCanonical(decode(TrimSpace(raw.value)).value);
      SortedDistinct(ports);
      forall k | 0 <= k < |ports| ensures ports[k].name != "" && Lacks(ports[k].name, ':') {
        assert PortOk(ports[k]) && TrimName(ports[k]) == Trimmed(ports)[k];
      }
    }
  }

  lemma {:induction false} FindsIt(ports: Ports, ep: ExposedPort)
    requires ep in ports && DistinctKeys(ports, NameOf)
    ensures Find(ports, ep.name) == Some(ep)
  {
    if ports[0] != ep {
      var k :| 0 <= k < |ports| && ports[k] == ep;
      assert NameOf(ports[0]) != NameOf(ports[k]);
      FindsIt(ports[1..], ep);
    }
  }

  lemma {:induction false} FoundIsThere(ports: Ports, name: string)
    requires Find(ports, name).Some?
    ensures Find(ports, name).value in ports && Find(ports, name).value.name == name
  {
    if ports[0].name != name {
      FoundIsThere(ports[1..], name);
    }
  }

  function NonEmpty(s: string): Option<string> {
    if s == "" then None else Some(s)
  }

  /** The check of the handlers: an app id and a service name, before anything is saved. */
  function ComputeSiteUpstream(w: World, id: AppId, svc: string): string {
    if w.check then UpstreamFor(w.decode, AppOf(w.apps, id), NonEmpty(svc)) else ""
  }

  /** What the Caddyfile is given for a row: nothing when no upstream resolves. */
  function ResolvedUpstream(w: World, row: Row): string {
    if row.app.Some? && row.app.value in w.apps then UpstreamFor(w.decode, Some(w.apps[row.app.value]), row.appService)
    else if row.upstream.Some? then row.upstream.value
    else ""
  }

  function Projected(w: World, row: Row): Caddyfile.Site {
    Caddyfile.Site(row.domain, row.scheme, ResolvedUpstream(w, row), row.enabled)
  }

  function ResolveRow(w: World, row: Row): seq<Caddyfile.Site> {
    if ResolvedUpstream(w, row) == "" then [] else [Projected(w, row)]
  }

  function Resolve(w: World): Row -> seq<Caddyfile.Site> {
    row => ResolveRow(w, row)
  }

  function ResolveRows(w: World, rows: seq<Row>): seq<Caddyfile.Site> {
    if rows == [] then [] else ResolveRow(w, rows[0]) + ResolveRows(w, rows[1..])
  }

  lemma {:induction false} RowByRow(w: World, rows: seq<Row>)
    ensures ResolveRows(w, rows) == FlatMap(rows, Resolve(w))
  {
    if rows != [] {
      RowByRow(w, rows[1..]);
    }
  }

  method ResolveCaddySites(w: World, rows: seq<Row>) returns (out: seq<Caddyfile.Site>)
    ensures out == ResolveRows(w, rows)
  {
    out := [];
    for i := 0 to |rows|
      invariant out + ResolveRows(w, rows[i..]) == ResolveRows(w, rows)
    {
      var row := rows[i];
      var upstream := "";
      if row.app.Some? && row.app.value in w.apps {
        upstream := UpstreamFor(w.decode, Some(w.apps[row.app.value]), row.appService);
      } else if row.upstream.Some? {
        upstream := row.upstream.value;
      }
      ResolveStep(w, rows, i, out);
      if upstream == "" {
        continue;
      }
      out := out + [Caddyfile.Site(row.domain, row.scheme, upstream, row.enabled)];
    }
    assert rows[|rows|..] == [] && out + [] == out;
  }

  lemma ResolveStep(w: World, rows: seq<Row>, i: nat, out: seq<Caddyfile.Site>)
    requires i < |rows|
    ensures out + ResolveRows(w, rows[i..]) == out + ResolveRow(w, rows[i]) + ResolveRows(w, rows[i + 1..])
    ensures out + [] == out
  {
    assert rows[i..][1..] == rows[i + 1..];
    Glue(out, ResolveRow(w, rows[i]), ResolveRows(w, rows[i + 1..]));
  }

  // ---- what a request asks for -------------------------------------------

  predicate SchemeOk(scheme: Option<string>) {
    scheme.Some? ==> scheme.value == "http" || scheme.value == "https"
  }

  /** A service named for a compose app must be one of its exposed ports; docker apps ignore the name. */
  predicate ServiceOk(w: World, a: App, appService: Option<string>) {
    a.compose && TrimmedOr(appService) != "" ==>
      match ParseResult(w.decode, a.exposedPorts)
      case Err(_) => false
      case Ok(ports) => Find(ports, TrimmedOr(appService)).Some?
  }

  function ServiceFor(a: App, appService: Option<string>): string {
    if a.compose then TrimmedOr(appService) else ""
  }

  predicate Linked(appId: Option<AppId>) {
    appId.Some? && appId.value != 0
  }

  predicate Taken(rows: map<SiteId, Row>, domain: string, self: Option<SiteId>) {
    exists id :: id in rows && Some(id) != self && rows[id].domain == domain
  }

  // ---- creating ----------------------------------------------------------

  predicate CreateWellFormed(w: World, input: Input) {
    && input.domain.Some? && TrimSpace(input.domain.value) != "" && ValidDomain(w.loopbackIp, input.domain.value)
    && (input.appId.Some? || TrimmedOr(input.upstream) != "")
    && SchemeOk(input.scheme)
  }

  predicate CreateLinkOk(w: World, input: Input)
    requires Linked(input.appId)
  {
    && w.load && input.appId.value in w.apps
    && ServiceOk(w, w.apps[input.appId.value], input.appService)
    && ComputeSiteUpstream(w, input.appId.value, ServiceFor(w.apps[input.appId.value], input.appService)) != ""
  }

  /** Everything the handler demands before it saves. */
  predicate CreateAccepted(w: World, input: Input) {
    && CreateWellFormed(w, input)
    && if Linked(input.appId) then CreateLinkOk(w, input) else TrimmedOr(input.upstream) != ""
  }

  /** An app id of zero and no upstream: the handler dereferences the missing upstream. */
  predicate CreatePanics(w: World, input: Input) {
    CreateWellFormed(w, input) && !Linked(input.appId) && input.upstream.None?
  }

  function CreatedRow(w: World, input: Input): Row
    requires CreateAccepted(w, input)
  {
    var linked := Linked(input.appId);
    Row(TrimSpace(input.domain.value),
        if input.enabled.Some? then input.enabled.value else true,
        if input.scheme.Some? then input.scheme.value else "https",
        if linked then input.appId else None,
        if linked then NonEmpty(ServiceFor(w.apps[input.appId.value], input.appService)) else None,
        if linked then None else Some(TrimmedOr(input.upstream)))
  }

  // ---- updating ----------------------------------------------------------

  /** The app edge as the query loads it. */
  function LinkedApp(w: World, row: Row): Option<AppId> {
    if row.app.Some? && row.app.value in w.apps then row.app else None
  }

  function NonZero(id: AppId): Option<AppId> {
    if id == 0 then None else Some(id)
  }

  /** The app a site is linked to once an update has been saved. */
  function TargetApp(input: Input, linked: Option<AppId>): Option<AppId> {
    if input.clearApp then None
    else if input.appId.Some? then NonZero(input.appId.value)
    else linked
  }

  predicate WillHaveApp(input: Input, linked: Option<AppId>) {
    !input.clearApp && (input.appId.None? || input.appId.value != 0 || linked.Some?)
  }

  /** The app whose ports a new service name is checked against, even in a request that clears the link. */
  function ServiceTarget(input: Input, linked: Option<AppId>): Option<AppId> {
    if input.appId.Some? then NonZero(input.appId.value) else linked
  }

  predicate Unlinks(input: Input) {
    input.clearApp || input.appId == Some(0)
  }

  /** The service the resolution check is made with: the new name, or the one the row has. */
  function RequestedService(input: Input, existing: Row): string {
    if input.appService.Some? then TrimmedOr(input.appService) else TrimmedOr(existing.appService)
  }

  predicate UpdateServiceOk(w: World, input: Input, linked: Option<AppId>) {
    var target := ServiceTarget(input, linked);
    input.appService.Some? && target.Some? ==>
      w.load && target.value in w.apps && ServiceOk(w, w.apps[target.value], input.appService)
  }

  predicate UpdateResolves(w: World, input: Input, existing: Row) {
    var target := TargetApp(input, LinkedApp(w, existing));
    target.Some? ==> ComputeSiteUpstream(w, target.value, RequestedService(input, existing)) != ""
  }

  predicate UpdateAccepted(w: World, input: Input, existing: Row) {
    && (input.domain.Some? ==> ValidDomain(w.loopbackIp, input.domain.value))
    && SchemeOk(input.scheme)
    && (input.upstream.Some? ==> !WillHaveApp(input, LinkedApp(w, existing)))
    && UpdateServiceOk(w, input, LinkedApp(w, existing))
    && UpdateResolves(w, input, existing)
  }

  /** The service column after an update: a name for a compose app is stored, a docker app's is left alone. */
  function UpdatedService(w: World, input: Input, existing: Row): Option<string> {
    var target := ServiceTarget(input, LinkedApp(w, existing));
    var named := input.appService.Some? && target.Some? && target.value in w.apps && w.apps[target.value].compose;
    if named && TrimmedOr(input.appService) != "" then Some(TrimmedOr(input.appService))
    else if named || Unlinks(input) then None
    else existing.appService
  }

  function UpdatedRow(w: World, input: Input, existing: Row): Row {
    Row(if input.domain.Some? then TrimSpace(input.domain.value) else existing.domain,
        if input.enabled.Some? then input.enabled.value else existing.enabled,
        if input.scheme.Some? then input.scheme.value else existing.scheme,
        if Unlinks(input) then None else if input.appId.Some? then input.appId else existing.app,
        UpdatedService(w, input, existing),
        if input.upstream.Some? then Some(TrimmedOr(input.upstream)) else existing.upstream)
  }

  /** Only a compose app's site keeps a service name. */
  predicate StoresService(w: World, target: Option<AppId>) {
    target.Some? && target.value != 0 && target.value in w.apps && w.apps[target.value].compose
  }

  /** The update builder: what was set and what was cleared. */
  class SiteUpdate {
    var domain: Option<string>
    var enabled: Option<bool>
    var scheme: Option<string>
    var upstream: Option<string>
    var app: Option<AppId>
    var appCleared: bool
    var service: Option<string>
    var serviceCleared: bool

    constructor ()
      ensures Blank()
    {
      domain, enabled, scheme, upstream := None, None, None, None;
      app, appCleared, service, serviceCleared := None, false, None, false;
    }

    /** A value that is set wins over a clear. */
    function Applied(row: Row): Row
      reads this
    {
      Row(if domain.Some? then domain.value else row.domain,
          if enabled.Some? then enabled.value else row.enabled,
          if scheme.Some? then scheme.value else row.scheme,
          if app.Some? then app else if appCleared then None else row.app,
          if service.Some? then service else if serviceCleared then None else row.appService,
          if upstream.Some? then upstream else row.upstream)
    }

    ghost predicate Blank()
      reads this
    {
      && domain.None? && enabled.None? && scheme.None? && upstream.None?
      && app.None? && !appCleared && service.None? && !serviceCleared
    }

    /** Fills a new builder from a request, or refuses the request. */
    method Prepare(w: World, input: Input, existing: Row) returns (error: Option<Outcome>)
      requires Blank() && 0 !in w.apps
      modifies this
      ensures error.Some? ==> error.value.BadRequest? || error.value.Internal?
      ensures error.None? <==> UpdateAccepted(w, input, existing)
      ensures error.None? ==> Applied(existing) == UpdatedRow(w, input, existing)
    {
      var linked := LinkedApp(w, existing);
      var existingAppId := if linked.Some? then linked.value else 0;
      var willHaveApp := !input.clearApp && (input.appId.None? || input.appId.value != 0 || existingAppId != 0);
      error := SetFields(w, input, willHaveApp);
      if error.Some? {
        return;
      }
      error := SetLink(w, input, existing, existingAppId);
      if error.Some? {
        return;
      }
      if willHaveApp {
        var resolves := Resolves(w, input, existing, existingAppId);
        if !resolves {
          return Some(BadRequest);
        }
      }
    }

    method SetFields(w: World, input: Input, willHaveApp: bool) returns (error: Option<Outcome>)
      requires Blank()
      modifies this`domain, this`enabled, this`scheme, this`upstream
      ensures error.Some? ==> error.value == BadRequest
      ensures error.None? <==>
        && (input.domain.Some? ==> ValidDomain(w.loopbackIp, input.domain.value))
        && SchemeOk(input.scheme)
        && (input.upstream.Some? ==> !willHaveApp)
      ensures error.None? ==>
        && domain == (if input.domain.Some? then Some(TrimSpace(input.domain.value)) else None)
        && enabled == input.enabled && scheme == input.scheme
        && upstream == (if input.upstream.Some? then Some(TrimSpace(input.upstream.value)) else None)
    {
      if input.domain.Some? {
        if !ValidDomain(w.loopbackIp, input.domain.value) {
          return Some(BadRequest);
        }
        domain := Some(TrimSpace(input.domain.value));
      }
      if input.enabled.Some? {
        enabled := input.enabled;
      }
      if input.scheme.Some? {
        if input.scheme.value == "http" || input.scheme.value == "https" {
          scheme := input.scheme;
        } else {
          return Some(BadRequest);
        }
      }
      if input.upstream.Some? {
        if willHaveApp {
          return Some(BadRequest);
        }
        upstream := Some(TrimSpace(input.upstream.value));
      }
      error := None;
    }

    method SetLink(w: World, input: Input, existing: Row, existingAppId: AppId) returns (error: Option<Outcome>)
      requires app.None? && !appCleared && service.None? && !serviceCleared && 0 !in w.apps
      requires existingAppId == match LinkedApp(w, existing) case Some(id) => id case None => 0
      modifies this`app, this`appCleared, this`service, this`serviceCleared
      ensures error.Some? ==> error.value.BadRequest? || error.value.Internal?
      ensures error.None? <==> UpdateServiceOk(w, input, LinkedApp(w, existing))
      ensures error.None? ==> appCleared == Unlinks(input) && app == if Unlinks(input) then None else input.appId
      ensures error.None? ==>
        UpdatedService(w, input, existing)
        == if service.Some? then service else if serviceCleared then None else existing.appService
    {
      ApplyAppLinkage(input);
      error := None;
      if input.appService.Some? {
        var targetAppId := input.appId;
        if targetAppId.None? && existingAppId != 0 {
          targetAppId := Some(existingAppId);
        }
        error := ApplyAppService(w, input.appService.value, targetAppId);
      }
    }

    /** The check of the state the update leads to. */
    static method Resolves(w: World, input: Input, existing: Row, existingAppId: AppId) returns (ok: bool)
      requires !input.clearApp && 0 !in w.apps
      requires existingAppId == match LinkedApp(w, existing) case Some(id) => id case None => 0
      ensures ok == UpdateResolves(w, input, existing)
    {
      var targetAppId := if input.appId.Some? then input.appId.value else existingAppId;
      var svc := "";
      if input.appService.Some? {
        svc := TrimSpace(input.appService.value);
      } else if existing.appService.Some? {
        svc := TrimSpace(existing.appService.value);
      }
      if targetAppId != 0 {
        return ComputeSiteUpstream(w, targetAppId, svc) != "";
      }
      ok := true;
    }

    method ApplyAppLinkage(input: Input)
      requires app.None? && !appCleared && service.None? && !serviceCleared
      modifies this`app, this`appCleared, this`service, this`serviceCleared
      ensures appCleared == serviceCleared == Unlinks(input) && service.None?
      ensures app == if Unlinks(input) then None else input.appId
    {
      if input.clearApp {
        appCleared, serviceCleared := true, true;
      } else if input.appId.Some? {
        if input.appId.value == 0 {
          appCleared, serviceCleared := true, true;
        } else {
          app := input.appId;
        }
      }
    }

    method ApplyAppService(w: World, appService: string, target: Option<AppId>) returns (error: Option<Outcome>)
      modifies this`service, this`serviceCleared
      ensures error.Some? ==> error.value.BadRequest? || error.value.Internal?
      ensures error.None? <==> target.Some? && target.value != 0 ==>
        w.load && target.value in w.apps && ServiceOk(w, w.apps[target.value], Some(appService))
      ensures error.None? && StoresService(w, target) ==>
        if TrimSpace(appService) == "" then serviceCleared && service == old(service)
        else service == Some(TrimSpace(appService)) && serviceCleared == old(serviceCleared)
      ensures !(error.None? && StoresService(w, target)) ==>
        service == old(service) && serviceCleared == old(serviceCleared)
    {
      if target.None? || target.value == 0 {
        return None;
      }
      if !w.load || target.value !in w.apps {
        return Some(Internal);
      }
      var app := w.apps[target.value];
      if !app.compose {
        return None;
      }
      var svc := TrimSpace(appService);
      if svc == "" {
        serviceCleared := true;
        return None;
      }
      var ports := ParseExposedPorts(w.decode, app.exposedPorts);
      if ports.Err? {
        return Some(BadRequest);
      }
      var found := FindExposedPort(ports.value, svc);
      if found.None? {
        return Some(BadRequest);
      }
      service := Some(svc);
      error := None;
    }
  }

  // ---- the table ---------------------------------------------------------

  /** The domain column is unique. */
  predicate DistinctDomains(rows: map<SiteId, Row>) {
    forall i, j :: i in rows && j in rows && i != j ==> rows[i].domain != rows[j].domain
  }

  class SiteTable {
    var rows: map<SiteId, Row>
    var nextId: SiteId

    ghost predicate Valid()
      reads this
    {
      DistinctDomains(rows) && forall id :: id in rows ==> id < nextId
    }

    constructor ()
      ensures Valid() && rows == map[]
    {
      rows, nextId := map[], 1;
    }

    method CreateSite(w: World, input: Input) returns (out: Outcome)
      requires Valid()
      modifies this
      ensures Valid()
      ensures out.Panicked? <==> CreatePanics(w, input)
      ensures out.Saved? <==> CreateAccepted(w, input) && w.save && w.reload
                              && !Taken(old(rows), TrimSpace(input.domain.value), None)
      ensures out.Saved? ==> out.id !in old(rows) && rows == old(rows)[out.id := CreatedRow(w, input)]
      ensures !out.Saved? && w.undo ==> rows == old(rows)
    {
      if input.domain.None? || TrimSpace(input.domain.value) == "" {
        return BadRequest;
      }
      if !ValidDomain(w.loopbackIp, input.domain.value) {
        return BadRequest;
      }
      if input.appId.None? && (input.upstream.None? || TrimSpace(input.upstream.value) == "") {
        return BadRequest;
      }
      var appService := "";
      if input.appId.Some? && input.appId.value != 0 {
        var error: Option<Outcome>;
        error, appService := ChooseService(w, input.appId.value, input.appService);
        if error.Some? {
          return error.value;
        }
      }
      var enabled := true;
      if input.enabled.Some? {
        enabled := input.enabled.value;
      }
      var scheme := "https";
      if input.scheme.Some? {
        if input.scheme.value == "http" || input.scheme.value == "https" {
          scheme := input.scheme.value;
        } else {
          return BadRequest;
        }
      }
      if input.appId.Some? && input.appId.value != 0 {
        if ComputeSiteUpstream(w, input.appId.value, appService) == "" {
          return BadRequest;
        }
      } else {
        if input.upstream.None? {
          return Panicked;
        }
        if TrimSpace(input.upstream.value) == "" {
          return BadRequest;
        }
      }
      var row := Row(TrimSpace(input.domain.value), enabled, scheme, None, None, None);
      if input.appId.Some? && input.appId.value != 0 {
        row := row.(app := input.appId);
        if appService != "" {
          row := row.(appService := Some(appService));
        }
      } else {
        row := row.(upstream := Some(TrimSpace(input.upstream.value)));
      }
      out := Insert(w, row);
    }

    /** The service a new site names, checked against its app. */
    method ChooseService(w: World, id: AppId, named: Option<string>)
      returns (error: Option<Outcome>, appService: string)
      ensures error.Some? ==> error.value.BadRequest? || error.value.Internal?
      ensures error.None? <==> w.load && id in w.apps && ServiceOk(w, w.apps[id], named)
      ensures error.None? ==> appService == ServiceFor(w.apps[id], named)
    {
      appService := "";
      if !w.load {
        return Some(Internal), "";
      }
      if id !in w.apps {
        return Some(BadRequest), "";
      }
      var app := w.apps[id];
      if app.compose && named.Some? {
        var svc := TrimSpace(named.value);
        if svc != "" {
          var ports := ParseExposedPorts(w.decode, app.exposedPorts);
          if ports.Err? {
            return Some(BadRequest), "";
          }
          var found := FindExposedPort(ports.value, svc);
          if found.None? {
            return Some(BadRequest), "";
          }
          appService := svc;
        }
      }
      error := None;
    }

    /** Saves a new row, and takes it back when the Caddyfile cannot be reloaded. */
    method Insert(w: World, row: Row) returns (out: Outcome)
      requires Valid()
      modifies this
      ensures Valid()
      ensures out.Saved? || out.Internal?
      ensures out.Saved? <==> w.save && w.reload && !Taken(old(rows), row.domain, None)
      ensures out.Saved? ==> out.id !in old(rows) && rows == old(rows)[out.id := row]
      ensures !out.Saved? && w.undo ==> rows == old(rows)
    {
      if !w.save || Taken(rows, row.domain, None) {
        return Internal;
      }
      var id := nextId;
      rows, nextId := rows[id := row], id + 1;
      if !w.reload {
        if w.undo {
          rows := rows - {id};
        }
        return Internal;
      }
      out := Saved(id);
    }

    /** A failed reload leaves the row updated. */
    method UpdateSite(w: World, id: SiteId, input: Input) returns (out: Outcome)
      requires Valid() && 0 !in w.apps
      modifies this
      ensures Valid()
      ensures out.Saved? ==> out.id == id
      ensures id !in old(rows) ==> rows == old(rows) && !out.Saved?
      ensures id in old(rows) ==>
        var saved := w.query && UpdateAccepted(w, input, old(rows)[id]) && w.save
                     && !Taken(old(rows), UpdatedRow(w, input, old(rows)[id]).domain, Some(id));
        && rows == (if saved then old(rows)[id := UpdatedRow(w, input, old(rows)[id])] else old(rows))
        && (out.Saved? <==> saved && w.reload)
    {
      if !w.query {
        return Internal;
      }
      if id !in rows {
        return NotFound;
      }
      var upd := new SiteUpdate();
      var error := upd.Prepare(w, input, rows[id]);
      if error.Some? {
        return error.value;
      }
      var row := upd.Applied(rows[id]);
      if !w.save || Taken(rows, row.domain, Some(id)) {
        return Internal;
      }
      rows := rows[id := row];
      if !w.reload {
        return Internal;
      }
      out := Saved(id);
    }
  }

  // ---- what was checked is what is served --------------------------------

  lemma NamedAlike(decode: Decoder, app: Option<App>, stored: Option<string>, svc: string)
    requires TrimmedOr(stored) == svc
    ensures UpstreamFor(decode, app, stored) == UpstreamFor(decode, app, NonEmpty(svc))
  {
    if stored.Some? {
      TrimTwice(stored.value);
    }
  }

  /** A site of the app with this service would be routed somewhere. */
  ghost predicate Routable(w: World, id: AppId, appService: Option<string>) {
    id in w.apps && exists r :: RoutesTo(w.decode, w.apps[id], appService, r)
  }

  lemma SameRoutes(decode: Decoder, a: App, s: Option<string>, t: Option<string>, r: Route)
    requires TrimmedOr(s) == TrimmedOr(t) || !a.compose
    ensures RoutesTo(decode, a, s, r) <==> RoutesTo(decode, a, t, r)
  {
    if a.compose && ParseResult(decode, a.exposedPorts).Ok? {
      var ports := ParseResult(decode, a.exposedPorts).value;
      assert forall k :: 0 <= k < |ports| ==> (Picks(ports, s, ports[k]) <==> Picks(ports, t, ports[k]));
    }
  }

  /** The check of the handlers passes exactly if it reaches the database and the site would be routed. */
  lemma CheckPassesIff(w: World, id: AppId, svc: string)
    requires id in w.apps ==> Lacks(w.apps[id].name, ':')
    ensures ComputeSiteUpstream(w, id, svc) != "" <==> w.check && Routable(w, id, NonEmpty(svc))
  {
    if id in w.apps { UpstreamIsTheRoute(w.decode, w.apps[id], NonEmpty(svc)); }
  }

  /** A service that a route can be found for is one that the app exposes. */
  lemma RoutedServiceIsOk(w: World, a: App, appService: Option<string>, r: Route)
    requires RoutesTo(w.decode, a, appService, r)
    ensures ServiceOk(w, a, appService)
  {
    if a.compose && TrimmedOr(appService) != "" {
      var ports := ParseResult(w.decode, a.exposedPorts).value;
      var k :| 0 <= k < |ports| && Picks(ports, appService, ports[k]);
      ParsedNames(w.decode, a.exposedPorts);
      FindsIt(ports, ports[k]);
    }
  }

  lemma LinkAcceptedIff(w: World, input: Input)
    requires Linked(input.appId)
    requires input.appId.value in w.apps ==> Lacks(w.apps[input.appId.value].name, ':')
    ensures CreateLinkOk(w, input) <==> w.load && w.check && Routable(w, input.appId.value, input.appService)
  {
    var id := input.appId.value;
    if id in w.apps {
      var a := w.apps[id];
      var svc := ServiceFor(a, input.appService);
      CheckPassesIff(w, id, svc);
      if input.appService.Some? { TrimTwice(input.appService.value); }
      forall r ensures RoutesTo(w.decode, a, NonEmpty(svc), r) <==> RoutesTo(w.decode, a, input.appService, r) {
        SameRoutes(w.decode, a, NonEmpty(svc), input.appService, r);
      }
      if Routable(w, id, input.appService) {
        var r :| RoutesTo(w.decode, a, input.appService, r);
        RoutedServiceIsOk(w, a, input.appService, r);
      }
    }
  }

  /** An update that ends linked passes the check exactly if the app it ends with would route its service. */
  lemma UpdateLinkIff(w: World, input: Input, existing: Row, id: AppId)
    requires TargetApp(input, LinkedApp(w, existing)) == Some(id)
    requires id in w.apps ==> Lacks(w.apps[id].name, ':')
    ensures UpdateResolves(w, input, existing) <==>
      w.check && Routable(w, id, if input.appService.Some? then input.appService else existing.appService)
  {
    var named := if input.appService.Some? then input.appService else existing.appService;
    var svc := RequestedService(input, existing);
    CheckPassesIff(w, id, svc);
    if named.Some? { TrimTwice(named.value); }
    if id in w.apps {
      forall r ensures RoutesTo(w.decode, w.apps[id], NonEmpty(svc), r) <==> RoutesTo(w.decode, w.apps[id], named, r) {
        SameRoutes(w.decode, w.apps[id], NonEmpty(svc), named, r);
      }
    }
  }

  /**
   A create is accepted exactly if its domain is valid, its scheme is http or https if it names one, and it would be
   routed to the app it names, or names none and brings an upstream.
   */
  lemma CreateAcceptedIff(w: World, input: Input)
    requires forall id :: id in w.apps ==> Lacks(w.apps[id].name, ':')
    ensures CreateAccepted(w, input) <==>
      && input.domain.Some? && ValidDomain(w.loopbackIp, input.domain.value)
      && (input.scheme.Some? ==> input.scheme.value in ["http", "https"])
      && if input.appId.Some? && input.appId.value != 0
         then w.load && w.check && Routable(w, input.appId.value, input.appService)
         else input.upstream.Some? && TrimSpace(input.upstream.value) != ""
  {
    if Linked(input.appId) { LinkAcceptedIff(w, input); }
  }

  /**
   A created site resolves: a linked one to the upstream that was checked, a free one to the upstream it was
   given.
   */
  lemma CreatedSiteResolves(w: World, input: Input)
    requires CreateAccepted(w, input)
    ensures ResolvedUpstream(w, CreatedRow(w, input)) != ""
    ensures ResolvedUpstream(w, CreatedRow(w, input)) ==
            if Linked(input.appId)
            then ComputeSiteUpstream(w, input.appId.value, ServiceFor(w.apps[input.appId.value], input.appService))
            else TrimmedOr(input.upstream)
  {}

  /** An update that ends with the site linked leaves a row that resolves to exactly the upstream that was checked. */
  lemma LinkedUpdateResolves(w: World, input: Input, existing: Row)
    requires UpdateAccepted(w, input, existing) && LinkedApp(w, UpdatedRow(w, input, existing)).Some?
    ensures var row := UpdatedRow(w, input, existing);
      && ResolvedUpstream(w, row) == ComputeSiteUpstream(w, row.app.value, RequestedService(input, existing))
      && ResolvedUpstream(w, row) != ""
  {
    var row := UpdatedRow(w, input, existing);
    assert TargetApp(input, LinkedApp(w, existing)) == row.app;
    var app := w.apps[row.app.value];
    if app.compose {
      assert TrimmedOr(row.appService) == RequestedService(input, existing) by {
        if input.appService.Some? { TrimTwice(input.appService.value); }
      }
    }
    NamedAlike(w.decode, Some(app), row.appService, TrimmedOr(row.appService));
  }

  /** An accepted update leaves a site that is served, except one that ends free without an upstream of its own. */
  lemma UpdatedSiteResolvesIff(w: World, input: Input, existing: Row)
    requires UpdateAccepted(w, input, existing)
    ensures var row := UpdatedRow(w, input, existing);
      ResolvedUpstream(w, row) != "" <==>
      LinkedApp(w, row).Some? || (row.upstream.Some? && row.upstream.value != "")
  {
    if LinkedApp(w, UpdatedRow(w, input, existing)).Some? {
      LinkedUpdateResolves(w, input, existing);
    }
  }

  /**
   A request that sets an upstream is accepted if and only if it would be accepted without it and clears the link
   explicitly: an app id of zero is enough only for a site that has no link to clear.
   */
  lemma UpstreamAcceptedIff(w: World, input: Input, existing: Row)
    requires input.upstream.Some?
    ensures UpdateAccepted(w, input, existing) <==>
      && UpdateAccepted(w, input.(upstream := None), existing)
      && (input.clearApp || (input.appId == Some(0) && LinkedApp(w, existing).None?))
    ensures UpdateAccepted(w, input, existing) ==> UpdatedRow(w, input, existing).app.None?
  {
    var without := input.(upstream := None);
    assert UpdateServiceOk(w, without, LinkedApp(w, existing)) == UpdateServiceOk(w, input, LinkedApp(w, existing));
    assert UpdateResolves(w, without, existing) == UpdateResolves(w, input, existing);
  }

  // ---- from the table to the file ----------------------------------------

  /** The rows in the order of some query. */
  predicate Lists(order: seq<SiteId>, rows: map<SiteId, Row>) {
    && (forall k :: 0 <= k < |order| ==> order[k] in rows)
    && (forall j, k :: 0 <= j < k < |order| ==> order[j] != order[k])
  }

  function RowsAt(order: seq<SiteId>, rows: map<SiteId, Row>): seq<Row>
    requires Lists(order, rows)
  {
    if order == [] then [] else [rows[order[0]]] + RowsAt(order[1..], rows)
  }

  function CaddySites(w: World, order: seq<SiteId>, rows: map<SiteId, Row>): seq<Caddyfile.Site>
    requires Lists(order, rows)
  {
    ResolveRows(w, RowsAt(order, rows))
  }

  /** The site is what some listed row resolves to. */
  predicate FromRow(w: World, order: seq<SiteId>, rows: map<SiteId, Row>, s: Caddyfile.Site)
    requires Lists(order, rows)
  {
    exists k :: 0 <= k < |order| && s in ResolveRow(w, rows[order[k]])
  }

  lemma {:induction false} SitesOf(w: World, order: seq<SiteId>, rows: map<SiteId, Row>, s: Caddyfile.Site)
    requires Lists(order, rows)
    ensures s in CaddySites(w, order, rows) <==> FromRow(w, order, rows, s)
  {
    if order != [] {
      var more := order[1..];
      SitesOf(w, more, rows, s);
      if FromRow(w, order, rows, s) {
        var k :| 0 <= k < |order| && s in ResolveRow(w, rows[order[k]]);
        if k > 0 { assert more[k - 1] == order[k]; }
      }
      if FromRow(w, more, rows, s) {
        var k :| 0 <= k < |more| && s in ResolveRow(w, rows[more[k]]);
        assert order[k + 1] == more[k];
      }
    }
  }

  /** What the renderer is given: each row that has an upstream, on or off, with its domain, scheme and upstream. */
  lemma {:induction false} ResolvesExactly(w: World, rows: seq<Row>, s: Caddyfile.Site)
    ensures s in ResolveRows(w, rows) <==>
            exists k :: 0 <= k < |rows| && s.upstream != "" && s.upstream == ResolvedUpstream(w, rows[k])
                        && s.domain == rows[k].domain && s.scheme == rows[k].scheme && s.enabled == rows[k].enabled
  {
    if rows != [] {
      var more := rows[1..];
      ResolvesExactly(w, more, s);
      if k :| 0 <= k < |more| && s.upstream != "" && s.upstream == ResolvedUpstream(w, more[k])
              && s.domain == more[k].domain && s.scheme == more[k].scheme && s.enabled == more[k].enabled {
        assert rows[k + 1] == more[k];
      }
      if k :| 0 <= k < |rows| && s.upstream != "" && s.upstream == ResolvedUpstream(w, rows[k])
              && s.domain == rows[k].domain && s.scheme == rows[k].scheme && s.enabled == rows[k].enabled {
        if k > 0 { assert more[k - 1] == rows[k]; }
      }
    }
  }

  lemma {:induction false} SitesDistinct(w: World, order: seq<SiteId>, rows: map<SiteId, Row>)
    requires Lists(order, rows) && DistinctDomains(rows)
    ensures DistinctKeys(CaddySites(w, order, rows), Caddyfile.DomainOf)
  {
    if order != [] {
      var more := CaddySites(w, order[1..], rows);
      SitesDistinct(w, order[1..], rows);
      forall k | 0 <= k < |more| ensures more[k].domain != rows[order[0]].domain {
        SitesOf(w, order[1..], rows, more[k]);
      }
    }
  }

  lemma {:induction false} EnabledDistinct(sites: seq<Caddyfile.Site>, key: Caddyfile.Site -> string)
    requires DistinctKeys(sites, key)
    ensures DistinctKeys(Caddyfile.Enabled(sites), key)
  {
    if sites != [] {
      EnabledDistinct(sites[1..], key);
      var more := Caddyfile.Enabled(sites[1..]);
      forall k | 0 <= k < |more| ensures key(more[k]) != key(sites[0]) {
        Caddyfile.EnabledIsMember(sites[1..], more[k]);
      }
    }
  }

  lemma {:induction false} RowsReordered(a: seq<SiteId>, b: seq<SiteId>, rows: map<SiteId, Row>)
    requires Lists(a, rows) && Lists(b, rows) && multiset(a) == multiset(b)
    ensures multiset(RowsAt(a, rows)) == multiset(RowsAt(b, rows))
  {
    var f: SiteId -> seq<Row> := id => if id in rows then [rows[id]] else [];
    RowsByElement(a, rows, f);
    RowsByElement(b, rows, f);
    FlatMapOrder(a, b, f);
  }

  lemma {:induction false} RowsByElement(order: seq<SiteId>, rows: map<SiteId, Row>, f: SiteId -> seq<Row>)
    requires Lists(order, rows) && forall id :: id in rows ==> f(id) == [rows[id]]
    ensures RowsAt(order, rows) == FlatMap(order, f)
  {
    if order != [] {
      RowsByElement(order[1..], rows, f);
    }
  }

  /** The generated file depends on the set of rows, not on the order in which a query lists them. */
  lemma FileIgnoresQueryOrder(w: World, a: seq<SiteId>, b: seq<SiteId>, rows: map<SiteId, Row>,
                              config: Caddyfile.Config)
    requires Lists(a, rows) && Lists(b, rows) && multiset(a) == multiset(b) && DistinctDomains(rows)
    ensures Caddyfile.Rendered(CaddySites(w, a, rows), config) == Caddyfile.Rendered(CaddySites(w, b, rows), config)
  {
    RowsReordered(a, b, rows);
    RowByRow(w, RowsAt(a, rows));
    RowByRow(w, RowsAt(b, rows));
    FlatMapOrder(RowsAt(a, rows), RowsAt(b, rows), Resolve(w));
    SitesDistinct(w, a, rows);
    EnabledDistinct(CaddySites(w, a, rows), Caddyfile.DomainOf);
    Caddyfile.RenderIgnoresOrder(CaddySites(w, a, rows), CaddySites(w, b, rows), config);
  }
}
