/** The rendering of the Caddyfile. */
module Caddyfile {
  import opened Collections
  import opened Text
  import opened Sorting
  import opened Domains

  datatype Site = Site(domain: string, scheme: string, upstream: string, enabled: bool)

  /** What the renderer takes from elsewhere: the parsing of addresses, the environment switch and the account. */
  datatype Config = Config(loopbackIp: string -> bool, autoHttps: bool, email: string)

  predicate Loopback(config: Config, domain: string) {
    IsLoopbackDomain(config.loopbackIp, domain)
  }

  function DomainOf(s: Site): string {
    s.domain
  }

  function Enabled(sites: seq<Site>): seq<Site> {
    if sites == [] then []
    else (if sites[0].enabled then [sites[0]] else []) + Enabled(sites[1..])
  }

  predicate HasLoopback(sites: seq<Site>, config: Config) {
    exists k :: 0 <= k < |sites| && sites[k].enabled && Loopback(config, sites[k].domain)
  }

  /** A loopback site is served over plain http whatever its scheme says. */
  function Address(s: Site, config: Config): string {
    (if s.scheme == "http" || Loopback(config, s.domain) then "http://" else "") + s.domain
  }

  const PROXY := "    reverse_proxy "

  function BlockLines(s: Site, config: Config): seq<string> {
    [Address(s, config) + " {", PROXY + s.upstream, "}", ""]
  }

  function AllBlocks(sites: seq<Site>, config: Config): seq<string> {
    if sites == [] then [] else BlockLines(sites[0], config) + AllBlocks(sites[1..], config)
  }

  function OptionLines(on: bool, option: string): seq<string> {
    if on then ["{", "    " + option, "}", ""] else []
  }

  const BANNER := "# Auto-generated by Nanoku. Do not edit."
  const NOTICE := "# Regenerated on every Site change."
  const COMMENTS: seq<string> := [BANNER, NOTICE, ""]

  function Options(hasLoopback: bool, config: Config): seq<string> {
    OptionLines(!config.autoHttps || hasLoopback, "auto_https off")
    + OptionLines(config.email != "", "email " + config.email)
  }

  function Preamble(hasLoopback: bool, config: Config): seq<string> {
    COMMENTS + Options(hasLoopback, config)
  }

  function RenderedLines(sites: seq<Site>, config: Config): seq<string> {
    Preamble(HasLoopback(sites, config), config) + AllBlocks(SortBy(Enabled(sites), DomainOf), config)
  }

  function Rendered(sites: seq<Site>, config: Config): string {
    Unlines(RenderedLines(sites, config))
  }

  method AnyLoopback(sites: seq<Site>, config: Config) returns (found: bool)
    ensures found == HasLoopback(sites, config)
  {
    for i := 0 to |sites|
      invariant !HasLoopback(sites[..i], config)
    {
      if sites[i].enabled && Loopback(config, sites[i].domain) {
        return true;
      }
    }
    assert sites[..|sites|] == sites;
    return false;
  }

  method EnabledByDomain(sites: seq<Site>) returns (enabled: seq<Site>)
    ensures enabled == SortBy(Enabled(sites), DomainOf)
  {
    enabled := [];
    for i := 0 to |sites|
      invariant enabled + Enabled(sites[i..]) == Enabled(sites)
    {
      EnabledStep(enabled, sites, i);
      if sites[i].enabled {
        enabled := enabled + [sites[i]];
      }
    }
    assert sites[|sites|..] == [];
    assert enabled + [] == enabled;
    enabled := SortBy(enabled, DomainOf);
  }

  method WriteOption(before: string, ghost lines: seq<string>, on: bool, option: string) returns (file: string)
    requires before == Unlines(lines)
    ensures file == Unlines(lines + OptionLines(on, option))
  {
    file := before;
    if on {
      AddOption(lines, option);
      file := file + ("{\n    " + option + "\n}\n\n");
    } else {
      NoLines(lines);
    }
  }

  method WritePreamble(hasLoopback: bool, config: Config) returns (file: string)
    ensures file == Unlines(Preamble(hasLoopback, config))
  {
    file := BANNER + "\n";
    file := file + NOTICE + "\n\n";
    ThreeLines(BANNER, NOTICE);
    ghost var https := OptionLines(!config.autoHttps || hasLoopback, "auto_https off");
    file := WriteOption(file, COMMENTS, !config.autoHttps || hasLoopback, "auto_https off");
    file := WriteOption(file, COMMENTS + https, config.email != "", "email " + config.email);
    Glue(COMMENTS, https, OptionLines(config.email != "", "email " + config.email));
  }

  method Render(sites: seq<Site>, config: Config) returns (file: string)
    ensures file == Rendered(sites, config)
  {
    var hasLoopback := AnyLoopback(sites, config);
    file := WritePreamble(hasLoopback, config);
    var enabled := EnabledByDomain(sites);
    ghost var lines := Preamble(hasLoopback, config);
    for i := 0 to |enabled|
      invariant file == Unlines(lines)
      invariant lines + AllBlocks(enabled[i..], config) == RenderedLines(sites, config)
    {
      var s := enabled[i];
      var scheme := "";
      if s.scheme == "http" || Loopback(config, s.domain) {
        scheme := "http://";
      }
      BlocksStep(lines, enabled, i, config);
      WriteBlock(file, lines, scheme, s, config);
      file := file + scheme + s.domain + " {\n";
      file := file + "    reverse_proxy " + s.upstream + "\n";
      file := file + "}\n\n";
      lines := lines + BlockLines(s, config);
    }
    NoLines(lines);
    assert enabled[|enabled|..] == [];
  }

  lemma NoLines(lines: seq<string>)
    ensures lines + [] == lines
  {}

  lemma WriteBlock(file: string, lines: seq<string>, scheme: string, s: Site, config: Config)
    requires file == Unlines(lines) && scheme + s.domain == Address(s, config)
    ensures file + scheme + s.domain + " {\n" + "    reverse_proxy " + s.upstream + "\n" + "}\n\n"
            == Unlines(lines + BlockLines(s, config))
  {
    var a, b := Address(s, config) + " {", PROXY + s.upstream;
    FourLines(lines, a, b);
    BlockText(file, scheme, s.domain, s.upstream);
  }

  lemma BlockText(file: string, scheme: string, domain: string, upstream: string)
    ensures file + scheme + domain + " {\n" + "    reverse_proxy " + upstream + "\n" + "}\n\n"
            == file + ((scheme + domain + " {") + "\n" + (PROXY + upstream) + "\n}\n\n")
  {}

  lemma ThreeLines(a: string, b: string)
    ensures Unlines([a, b, ""]) == a + "\n" + b + "\n\n"
  {
    UnlinesAppend([a], [b, ""]);
    UnlinesAppend([b], [""]);
    UnlinesOne(a);
    UnlinesOne(b);
    UnlinesOne("");
    assert [a] + [b, ""] == [a, b, ""] && [b] + [""] == [b, ""];
  }

  lemma FourLines(lines: seq<string>, a: string, b: string)
    ensures Unlines(lines + [a, b, "}", ""]) == Unlines(lines) + (a + "\n" + b + "\n}\n\n")
  {
    ThreeLines(b, "}");
    UnlinesAppend([a], [b, "}", ""]);
    UnlinesOne(a);
    assert [a] + [b, "}", ""] == [a, b, "}", ""];
    UnlinesAppend(lines, [a, b, "}", ""]);
  }

  lemma AddOption(lines: seq<string>, option: string)
    ensures Unlines(lines + OptionLines(true, option)) == Unlines(lines) + ("{\n    " + option + "\n}\n\n")
  {
    FourLines(lines, "{", "    " + option);
    assert "{" + "\n" + ("    " + option) + "\n}\n\n" == "{\n    " + option + "\n}\n\n";
  }

  lemma EnabledStep(enabled: seq<Site>, sites: seq<Site>, i: nat)
    requires i < |sites| && enabled + Enabled(sites[i..]) == Enabled(sites)
    ensures (if sites[i].enabled then enabled + [sites[i]] else enabled) + Enabled(sites[i + 1..]) == Enabled(sites)
  {
    assert sites[i..][1..] == sites[i + 1..];
    Glue(enabled, if sites[i].enabled then [sites[i]] else [], Enabled(sites[i + 1..]));
    assert enabled + [] == enabled;
  }

  lemma BlocksStep(lines: seq<string>, sites: seq<Site>, i: nat, config: Config)
    requires i < |sites|
    ensures lines + AllBlocks(sites[i..], config) ==
            lines + BlockLines(sites[i], config) + AllBlocks(sites[i + 1..], config)
  {
    assert sites[i..][1..] == sites[i + 1..];
    Glue(lines, BlockLines(sites[i], config), AllBlocks(sites[i + 1..], config));
  }

  // ---- the file depends on the set of sites only -------------------------

  lemma {:induction false} EnabledMembers(sites: seq<Site>, s: Site)
    ensures multiset(Enabled(sites))[s] == if s.enabled then multiset(sites)[s] else 0
  {
    if sites != [] {
      EnabledMembers(sites[1..], s);
      assert sites == [sites[0]] + sites[1..];
    }
  }

  lemma {:induction false} EnabledIsMember(sites: seq<Site>, s: Site)
    ensures s in Enabled(sites) <==> s in sites && s.enabled
  {
    if sites != [] {
      EnabledIsMember(sites[1..], s);
    }
  }

  lemma SameEnabled(a: seq<Site>, b: seq<Site>, config: Config)
    requires multiset(a) == multiset(b)
    ensures multiset(Enabled(a)) == multiset(Enabled(b))
    ensures HasLoopback(a, config) ==> HasLoopback(b, config)
  {
    forall s ensures multiset(Enabled(a))[s] == multiset(Enabled(b))[s] {
      EnabledMembers(a, s);
      EnabledMembers(b, s);
    }
    if HasLoopback(a, config) {
      var k :| 0 <= k < |a| && a[k].enabled && Loopback(config, a[k].domain);
      SameElement(a, b, a[k]);
    }
  }

  /** With distinct domains the file does not depend on the order of the query. */
  lemma RenderIgnoresOrder(a: seq<Site>, b: seq<Site>, config: Config)
    requires multiset(a) == multiset(b) && DistinctKeys(Enabled(a), DomainOf)
    ensures Rendered(a, config) == Rendered(b, config)
  {
    SameEnabled(a, b, config);
    SameEnabled(b, a, config);
    SortIgnoresOrder(Enabled(a), Enabled(b), DomainOf);
  }

  // ---- values are written as they are -------------------------------------

  /** The upstream u of one site followed by the end of its block and the start of another site's. */
  function Joined(s: Site, t: Site, config: Config): Site {
    s.(upstream := s.upstream + "\n}\n\n" + Address(t, config) + " {\n" + PROXY + t.upstream)
  }

  lemma BlockBytes(s: Site, config: Config)
    ensures Unlines(BlockLines(s, config)) == (Address(s, config) + " {") + "\n" + (PROXY + s.upstream) + "\n}\n\n"
  {
    FourLines([], Address(s, config) + " {", PROXY + s.upstream);
    assert [] + BlockLines(s, config) == BlockLines(s, config);
  }

  lemma JoinedText(head: string, upstream: string, address: string, other: string)
    ensures head + "\n" + (PROXY + (upstream + "\n}\n\n" + address + " {\n" + PROXY + other)) + "\n}\n\n" ==
            (head + "\n" + (PROXY + upstream) + "\n}\n\n") + ((address + " {") + "\n" + (PROXY + other) + "\n}\n\n")
  {}

  /** The renderer writes upstreams unescaped: one site with such an upstream is written as the two would be. */
  lemma JoinedIsTwoBlocks(s: Site, t: Site, config: Config)
    ensures Unlines(BlockLines(Joined(s, t, config), config)) == Unlines(BlockLines(s, config) + BlockLines(t, config))
  {
    BlockBytes(s, config);
    BlockBytes(t, config);
    BlockBytes(Joined(s, t, config), config);
    UnlinesAppend(BlockLines(s, config), BlockLines(t, config));
    JoinedText(Address(s, config) + " {", s.upstream, Address(t, config), t.upstream);
  }

  lemma AllBlocksCons(s: Site, more: seq<Site>, config: Config)
    ensures AllBlocks([s] + more, config) == BlockLines(s, config) + AllBlocks(more, config)
  {
    assert ([s] + more)[1..] == more;
  }

  /** After any lines, the one site's block is the two sites' blocks. */
  lemma JoinedAfter(lines: seq<string>, s: Site, t: Site, config: Config)
    ensures Unlines(lines + AllBlocks([Joined(s, t, config)], config)) == Unlines(lines + AllBlocks([s, t], config))
  {
    var joined := Joined(s, t, config);
    AllBlocksCons(joined, [], config);
    AllBlocksCons(t, [], config);
    AllBlocksCons(s, [t], config);
    NoLines(BlockLines(joined, config));
    NoLines(BlockLines(t, config));
    assert [joined] + [] == [joined] && [t] + [] == [t] && [s] + [t] == [s, t];
    JoinedIsTwoBlocks(s, t, config);
    UnlinesAppend(lines, AllBlocks([joined], config));
    UnlinesAppend(lines, AllBlocks([s, t], config));
  }
}
