/** When the rendered file, read as a Caddyfile, serves the enabled sites under the options that must be in force. */
module CaddyServed {
  import opened Wrappers
  import opened Collections
  import opened Text
  import opened Sorting
  import opened Caddyfile
  import opened CaddyGrammar

  // ---- what the file should say ------------------------------------------

  predicate Off(sites: seq<Site>, config: Config) {
    !config.autoHttps || HasLoopback(sites, config)
  }

  function OptionIf(on: bool, option: Row): seq<Row> {
    if on then [option] else []
  }

  const AUTO_HTTPS: Row := ["auto_https", "off"]

  function EmailOption(config: Config): Row {
    ["email", config.email]
  }

  /** The options that must be in force: certificates off for loopback sites, and the account's address. */
  function RequiredOptions(sites: seq<Site>, config: Config): seq<Row> {
    OptionIf(Off(sites, config), AUTO_HTTPS) + OptionIf(config.email != "", EmailOption(config))
  }

  /** One address, all of whose requests go to one upstream. */
  function BlockOf(s: Site, config: Config): Block {
    Block([Address(s, config)], [Directive("reverse_proxy", None, [s.upstream])])
  }

  function BlocksOf(sites: seq<Site>, config: Config): seq<Block> {
    if sites == [] then [] else [BlockOf(sites[0], config)] + BlocksOf(sites[1..], config)
  }

  /** The required options, and one block for each enabled site by ascending domain. */
  function Wanted(sites: seq<Site>, config: Config): View {
    View(RequiredOptions(sites, config), BlocksOf(SortBy(Enabled(sites), DomainOf), config))
  }

  // ---- the values for which it does --------------------------------------

  /** The address and the upstream are one word each, and mean no more than themselves. */
  predicate Plain(s: Site, config: Config) {
    Key(Address(s, config)) && Arg(s.upstream) && !Matcher(s.upstream)
  }

  predicate AllPlain(sites: seq<Site>, config: Config) {
    forall k :: 0 <= k < |sites| ==> Plain(sites[k], config)
  }

  predicate EnabledPlain(sites: seq<Site>, config: Config) {
    forall k :: 0 <= k < |sites| && sites[k].enabled ==> Plain(sites[k], config)
  }

  function AddressUnder(config: Config): Site -> string {
    s => Address(s, config)
  }

  /** The renderer writes a block for each option, and only one such block may be in a file. */
  predicate OptionsFit(sites: seq<Site>, config: Config) {
    config.email == "" || (Arg(config.email) && !Off(sites, config))
  }

  // ---- the rows of the rendered lines ------------------------------------

  function OptionRows(on: bool, option: Row): seq<Row> {
    if on then [["{"], option, ["}"]] else []
  }

  function SiteRows(s: Site, config: Config): seq<Row> {
    [[Address(s, config), "{"], ["reverse_proxy", s.upstream], ["}"]]
  }

  function AllSiteRows(sites: seq<Site>, config: Config): seq<Row> {
    if sites == [] then [] else SiteRows(sites[0], config) + AllSiteRows(sites[1..], config)
  }

  lemma BlankRows()
    ensures Rows([""]) == Some([])
  {
    RowsCons("", [], []);
    assert [""] + [] == [""];
    Nothing([]);
  }

  lemma Nothing(rows: seq<Row>)
    ensures [] + rows == rows && rows + [] == rows
  {}

  lemma BlockLinesRows(head: string, line: string, first: Row, second: Row)
    requires Words(head) == Some(first) && Words(line) == Some(second) && first != [] && second != []
    ensures Rows([head, line, "}", ""]) == Some([first, second, ["}"]])
  {
    OneWord("}");
    BlankRows();
    RowsCons("}", ["}"], [""]);
    RowsCons(line, second, ["}"] + [""]);
    RowsCons(head, first, [line] + (["}"] + [""]));
    assert [head] + ([line] + (["}"] + [""])) == [head, line, "}", ""];
    assert [first] + ([second] + ([["}"]] + [])) == [first, second, ["}"]];
  }

  lemma DirectiveWords(name: string, arg: string)
    requires Word(name) && Word(arg)
    ensures Words(INDENT + (name + " " + arg)) == Some([name, arg])
  {
    TwoWords(name, arg);
    Indented(name + " " + arg);
  }

  lemma ProxyText(upstream: string)
    ensures PROXY + upstream == INDENT + ("reverse_proxy" + " " + upstream)
  {}

  lemma ProxyName()
    ensures Arg("reverse_proxy")
  {}

  lemma OptionNames()
    ensures Arg("auto_https") && Arg("off") && Arg("email")
    ensures "auto_https" + " " + "off" == "auto_https off"
  {}

  lemma SiteLinesRows(s: Site, config: Config)
    requires Plain(s, config)
    ensures Rows(BlockLines(s, config)) == Some(SiteRows(s, config))
  {
    var a := Address(s, config);
    TwoWords(a, "{");
    HeadText(a);
    ProxyName();
    DirectiveWords("reverse_proxy", s.upstream);
    ProxyText(s.upstream);
    BlockLinesRows(a + " {", PROXY + s.upstream, [a, "{"], ["reverse_proxy", s.upstream]);
  }

  lemma HeadText(a: string)
    ensures a + " " + "{" == a + " {"
  {}

  lemma {:induction false} AllLinesRows(sites: seq<Site>, config: Config)
    requires AllPlain(sites, config)
    ensures Rows(AllBlocks(sites, config)) == Some(AllSiteRows(sites, config))
  {
    if sites != [] {
      SiteLinesRows(sites[0], config);
      AllLinesRows(sites[1..], config);
      RowsAppend(BlockLines(sites[0], config), AllBlocks(sites[1..], config));
    }
  }

  lemma OptionLinesRows(on: bool, name: string, value: string)
    requires on ==> Word(name) && Word(value)
    ensures Rows(OptionLines(on, name + " " + value)) == Some(OptionRows(on, [name, value]))
  {
    if on {
      OneWord("{");
      DirectiveWords(name, value);
      BlockLinesRows("{", INDENT + (name + " " + value), ["{"], [name, value]);
    }
  }

  lemma CommentRows()
    ensures Rows(COMMENTS) == Some([])
  {
    BlankRows();
    RowsCons(NOTICE, [], [""]);
    RowsCons(BANNER, [], [NOTICE] + [""]);
    assert [BANNER] + ([NOTICE] + [""]) == COMMENTS;
    Nothing([]);
  }

  function FileRows(off: bool, sorted: seq<Site>, config: Config): seq<Row> {
    OptionRows(off, AUTO_HTTPS) + OptionRows(config.email != "", EmailOption(config)) + AllSiteRows(sorted, config)
  }

  lemma OptionsRows(off: bool, email: string)
    requires email == "" || Arg(email)
    ensures Rows(OptionLines(off, "auto_https off") + OptionLines(email != "", "email " + email)) ==
            Some(OptionRows(off, AUTO_HTTPS) + OptionRows(email != "", ["email", email]))
  {
    OptionNames();
    OptionLinesRows(off, "auto_https", "off");
    EmailText(email);
    OptionLinesRows(email != "", "email", email);
    RowsAppend(OptionLines(off, "auto_https off"), OptionLines(email != "", "email " + email));
  }

  lemma EmailText(email: string)
    ensures "email" + " " + email == "email " + email
  {}

  lemma PreambleRows(hasLoopback: bool, config: Config)
    requires config.email == "" || Arg(config.email)
    ensures Rows(Preamble(hasLoopback, config)) ==
            Some(OptionRows(!config.autoHttps || hasLoopback, AUTO_HTTPS)
                 + OptionRows(config.email != "", EmailOption(config)))
  {
    OptionsRows(!config.autoHttps || hasLoopback, config.email);
    CommentRows();
    RowsAppend(COMMENTS, Options(hasLoopback, config));
    Nothing(Rows(Options(hasLoopback, config)).value);
  }

  lemma LinesRows(hasLoopback: bool, sorted: seq<Site>, config: Config)
    requires AllPlain(sorted, config) && (config.email == "" || Arg(config.email))
    ensures Rows(Preamble(hasLoopback, config) + AllBlocks(sorted, config)) ==
            Some(FileRows(!config.autoHttps || hasLoopback, sorted, config))
  {
    PreambleRows(hasLoopback, config);
    AllLinesRows(sorted, config);
    RowsAppend(Preamble(hasLoopback, config), AllBlocks(sorted, config));
  }

  // ---- the blocks of the rows --------------------------------------------

  lemma InsideOne(row: Row, more: seq<Row>)
    requires Flat(row)
    ensures Inside([row, ["}"]] + more) == Some(Braced([row], more))
  {
    var rows := [row, ["}"]] + more;
    assert rows[1..] == [["}"]] + more && ([["}"]] + more)[1..] == more;
    assert Brace("}");
    assert [row] + [] == [row];
  }

  lemma ProxyDirective(upstream: string)
    requires Arg(upstream) && !Matcher(upstream)
    ensures Flat(["reverse_proxy", upstream])
    ensures Directives([["reverse_proxy", upstream]]) == [Directive("reverse_proxy", None, [upstream])]
  {
    var row: Row := ["reverse_proxy", upstream];
    ProxyName();
    assert "reverse_proxy"[0] == 'r';
    assert row[1..] == [upstream];
    Nothing([row]);
    assert Directives([row]) == [AsDirective(row)] + Directives([]);
  }

  lemma BlockRead(s: Site, config: Config, more: seq<Row>)
    requires Plain(s, config) && Blocks(more).Some?
    ensures Blocks(SiteRows(s, config) + more) == Some([BlockOf(s, config)] + Blocks(more).value)
  {
    var head, body := [Address(s, config), "{"], ["reverse_proxy", s.upstream];
    var rows := SiteRows(s, config) + more;
    assert rows[0] == head && rows[1..] == [body, ["}"]] + more;
    ProxyDirective(s.upstream);
    InsideOne(body, more);
    assert head[..1] == [Address(s, config)];
  }

  lemma {:induction false} AllBlocksRead(sites: seq<Site>, config: Config)
    requires AllPlain(sites, config)
    ensures Blocks(AllSiteRows(sites, config)) == Some(BlocksOf(sites, config))
  {
    if sites != [] {
      AllBlocksRead(sites[1..], config);
      BlockRead(sites[0], config, AllSiteRows(sites[1..], config));
    }
  }

  lemma {:induction false} KeysAreAddresses(sites: seq<Site>, config: Config)
    ensures |Keys(BlocksOf(sites, config))| == |sites|
    ensures forall k :: 0 <= k < |sites| ==> Keys(BlocksOf(sites, config))[k] == Address(sites[k], config)
  {
    if sites != [] {
      KeysAreAddresses(sites[1..], config);
      assert BlocksOf(sites, config)[1..] == BlocksOf(sites[1..], config);
    }
  }

  /** A block of options is read if it comes first, and makes the file unreadable if it does not. */
  lemma OptionBlockRead(option: Row, more: seq<Row>)
    requires Flat(option)
    ensures ReadRows(OptionRows(true, option) + more) == Sited([option], Blocks(more))
    ensures Blocks(OptionRows(true, option) + more).None?
  {
    var rows := OptionRows(true, option) + more;
    assert rows[0] == ["{"] && rows[1..] == [option, ["}"]] + more;
    InsideOne(option, more);
  }

  lemma NoOptionBlock(sites: seq<Site>, config: Config)
    ensures ReadRows(AllSiteRows(sites, config)) == Sited([], Blocks(AllSiteRows(sites, config)))
  {
    if sites != [] {
      assert AllSiteRows(sites, config)[0] == [Address(sites[0], config), "{"];
    }
  }

  /** What the rows of plain values read as: nothing if there are two blocks of options. */
  lemma FileRowsRead(off: bool, sorted: seq<Site>, config: Config)
    requires AllPlain(sorted, config) && (config.email == "" || Arg(config.email))
    ensures ReadRows(FileRows(off, sorted, config)) ==
      if off && config.email != "" then None
      else Sited(OptionIf(off, AUTO_HTTPS) + OptionIf(config.email != "", EmailOption(config)),
                 Some(BlocksOf(sorted, config)))
  {
    var email, sites := OptionRows(config.email != "", EmailOption(config)), AllSiteRows(sorted, config);
    AllBlocksRead(sorted, config);
    OptionsFlat(config.email);
    Nothing(sites);
    Nothing([AUTO_HTTPS]);
    Nothing([EmailOption(config)]);
    Nothing(email);
    if off {
      Glue(OptionRows(true, AUTO_HTTPS), email, sites);
      OptionBlockRead(AUTO_HTTPS, email + sites);
    }
    if config.email != "" {
      OptionBlockRead(EmailOption(config), sites);
    } else {
      NoOptionBlock(sorted, config);
    }
  }

  lemma OptionsFlat(email: string)
    ensures Flat(AUTO_HTTPS) && (Arg(email) ==> Flat(["email", email]))
  {
    OptionNames();
  }

  lemma WordIsClean(w: string)
    requires Solid(w)
    ensures Clean(w)
  {
    assert IsSpace('\n');
  }

  lemma CleanJoin(a: string, b: string)
    requires Clean(a) && Clean(b)
    ensures Clean(a + b)
  {}

  lemma CleanAppend(a: seq<string>, b: seq<string>)
    requires AllClean(a) && AllClean(b)
    ensures AllClean(a + b)
  {}

  lemma {:induction false} BlocksClean(sites: seq<Site>, config: Config)
    requires AllPlain(sites, config)
    ensures AllClean(AllBlocks(sites, config))
  {
    if sites != [] {
      var s := sites[0];
      WordIsClean(Address(s, config));
      WordIsClean(s.upstream);
      CleanJoin(Address(s, config), " {");
      CleanJoin(PROXY, s.upstream);
      BlocksClean(sites[1..], config);
      CleanAppend(BlockLines(s, config), AllBlocks(sites[1..], config));
    }
  }

  lemma OptionsClean(on: bool, option: string)
    requires Clean(option)
    ensures AllClean(OptionLines(on, option))
  {
    CleanJoin(INDENT, option);
  }

  lemma CommentsClean()
    ensures AllClean(COMMENTS)
  {
    assert Clean(BANNER);
    assert Clean(NOTICE);
  }

  lemma PreambleClean(hasLoopback: bool, config: Config)
    requires config.email == "" || Arg(config.email)
    ensures AllClean(Preamble(hasLoopback, config))
  {
    var off := !config.autoHttps || hasLoopback;
    WordIsClean(config.email);
    CleanJoin("email ", config.email);
    OptionsClean(off, "auto_https off");
    OptionsClean(config.email != "", "email " + config.email);
    CommentsClean();
    CleanAppend(OptionLines(off, "auto_https off"), OptionLines(config.email != "", "email " + config.email));
    CleanAppend(COMMENTS, Options(hasLoopback, config));
  }

  /** What a file of plain values reads as. */
  lemma PlainFileReads(hasLoopback: bool, sorted: seq<Site>, config: Config)
    requires AllPlain(sorted, config) && (config.email == "" || Arg(config.email))
    ensures var off := !config.autoHttps || hasLoopback;
      ReadFile(Unlines(Preamble(hasLoopback, config) + AllBlocks(sorted, config))) ==
      if off && config.email != "" then None
      else Sited(OptionIf(off, AUTO_HTTPS) + OptionIf(config.email != "", EmailOption(config)),
                 Some(BlocksOf(sorted, config)))
  {
    var lines := Preamble(hasLoopback, config) + AllBlocks(sorted, config);
    BlocksClean(sorted, config);
    PreambleClean(hasLoopback, config);
    CleanAppend(Preamble(hasLoopback, config), AllBlocks(sorted, config));
    LinesUnique(lines, "");
    assert Unlines(lines) + "" == Unlines(lines);
    LinesRows(hasLoopback, sorted, config);
    FileRowsRead(!config.autoHttps || hasLoopback, sorted, config);
  }

  // ---- exactly when the file serves the enabled sites --------------------

  lemma {:induction false} BlockAt(sites: seq<Site>, config: Config, k: nat)
    requires k < |sites|
    ensures k < |BlocksOf(sites, config)| && BlocksOf(sites, config)[k] == BlockOf(sites[k], config)
  {
    if k > 0 {
      BlockAt(sites[1..], config, k - 1);
    }
  }

  lemma BlockIsPlain(s: Site, config: Config)
    requires BlockOk(BlockOf(s, config))
    ensures Plain(s, config)
  {
    var b := BlockOf(s, config);
    assert Key(b.keys[0]) && DirectiveOk(b.body[0]);
    assert Arg(b.body[0].args[0]);
  }

  /** A view that is read and is the wanted one holds only plain values. */
  lemma WantedMeansPlain(sites: seq<Site>, config: Config)
    requires ViewOk(Wanted(sites, config))
    ensures var sorted := SortBy(Enabled(sites), DomainOf);
      && AllPlain(sorted, config) && DistinctKeys(sorted, AddressUnder(config))
      && (config.email == "" || Arg(config.email))
  {
    var sorted := SortBy(Enabled(sites), DomainOf);
    forall k | 0 <= k < |sorted| ensures Plain(sorted[k], config) {
      BlockAt(sorted, config, k);
      BlockIsPlain(sorted[k], config);
    }
    KeysAreAddresses(sorted, config);
    if config.email != "" {
      var options := RequiredOptions(sites, config);
      assert options[|options| - 1] == EmailOption(config);
      assert Arg(EmailOption(config)[1]);
    }
  }

  lemma EnabledPlainIff(sites: seq<Site>, config: Config)
    ensures EnabledPlain(sites, config) <==> AllPlain(SortBy(Enabled(sites), DomainOf), config)
  {
    var sorted := SortBy(Enabled(sites), DomainOf);
    SortMembers(Enabled(sites), DomainOf);
    forall s ensures s in sorted <==> s in sites && s.enabled {
      SameElement(sorted, Enabled(sites), s);
      EnabledIsMember(sites, s);
    }
  }

  lemma AddressesInAnyOrder(sites: seq<Site>, config: Config)
    ensures DistinctKeys(SortBy(Enabled(sites), DomainOf), AddressUnder(config))
            <==> DistinctKeys(Enabled(sites), AddressUnder(config))
  {
    var sorted := SortBy(Enabled(sites), DomainOf);
    SortMembers(Enabled(sites), DomainOf);
    if DistinctKeys(sorted, AddressUnder(config)) { DistinctInAnyOrder(sorted, Enabled(sites), AddressUnder(config)); }
    if DistinctKeys(Enabled(sites), AddressUnder(config)) {
      DistinctInAnyOrder(Enabled(sites), sorted, AddressUnder(config));
    }
  }

  lemma ReadsIff(sites: seq<Site>, config: Config)
    ensures var sorted := SortBy(Enabled(sites), DomainOf);
      ReadFile(Rendered(sites, config)) == Some(Wanted(sites, config)) <==>
        OptionsFit(sites, config) && AllPlain(sorted, config) && DistinctKeys(sorted, AddressUnder(config))
  {
    var sorted := SortBy(Enabled(sites), DomainOf);
    KeysAreAddresses(sorted, config);
    if ReadFile(Rendered(sites, config)) == Some(Wanted(sites, config)) {
      ReadIsOk(Rendered(sites, config));
      WantedMeansPlain(sites, config);
    }
    if AllPlain(sorted, config) && (config.email == "" || Arg(config.email)) {
      PlainFileReads(HasLoopback(sites, config), sorted, config);
    }
  }

  /**
   Read as a Caddyfile, the file has exactly the options that must be in force and serves exactly the enabled sites,
   one block each, if and only if the email is one word and no other option is needed beside it, the address and the
   upstream of each enabled site are plain, and the addresses are distinct.
   */
  lemma FileServesEnabledIff(sites: seq<Site>, config: Config)
    ensures ReadFile(Rendered(sites, config)) == Some(Wanted(sites, config)) <==>
      && OptionsFit(sites, config)
      && EnabledPlain(sites, config)
      && DistinctKeys(Enabled(sites), AddressUnder(config))
    ensures DistinctKeys(Enabled(sites), DomainOf) ==> Ascending(SortBy(Enabled(sites), DomainOf), DomainOf)
    ensures multiset(SortBy(Enabled(sites), DomainOf)) == multiset(Enabled(sites))
  {
    SortMembers(Enabled(sites), DomainOf);
    if DistinctKeys(Enabled(sites), DomainOf) {
      SortSorts(Enabled(sites), DomainOf);
      SortedAscends(SortBy(Enabled(sites), DomainOf), DomainOf);
    }
    EnabledPlainIff(sites, config);
    AddressesInAnyOrder(sites, config);
    ReadsIff(sites, config);
  }

  // ---- files that serve something else -----------------------------------

  /** With an email and another option to write, the file has two blocks of options and is no Caddyfile. */
  lemma TwoOptionBlocks(sites: seq<Site>, config: Config)
    requires EnabledPlain(sites, config) && Arg(config.email) && Off(sites, config)
    ensures ReadFile(Rendered(sites, config)).None?
  {
    EnabledPlainIff(sites, config);
    PlainFileReads(HasLoopback(sites, config), SortBy(Enabled(sites), DomainOf), config);
  }

  lemma OneSorted(s: Site)
    requires s.enabled
    ensures SortBy(Enabled([s]), DomainOf) == [s]
  {
    assert Enabled([s]) == [s] + Enabled([]) && [s][1..] == [];
  }

  /** A single enabled site whose upstream holds line breaks: its file serves both sites. */
  lemma OneSiteServesTwo(s: Site, t: Site, config: Config)
    requires s.enabled && AllPlain([s, t], config) && Address(s, config) != Address(t, config)
    requires OptionsFit([Joined(s, t, config)], config)
    ensures var sites := [Joined(s, t, config)];
      ReadFile(Rendered(sites, config)) == Some(View(RequiredOptions(sites, config), BlocksOf([s, t], config)))
  {
    var sites := [Joined(s, t, config)];
    var hasLoopback := HasLoopback(sites, config);
    OneSorted(sites[0]);
    JoinedAfter(Preamble(hasLoopback, config), s, t, config);
    PlainFileReads(hasLoopback, [s, t], config);
    KeysAreAddresses([s, t], config);
  }

  lemma FileLines(lines: seq<string>)
    requires AllClean(lines)
    ensures Lines(Unlines(lines)) == lines
  {
    LinesUnique(lines, "");
    assert Unlines(lines) + "" == Unlines(lines);
  }

  lemma OneBlockClean(s: Site, config: Config)
    requires Key(Address(s, config)) && Clean(s.upstream)
    ensures AllClean(BlockLines(s, config))
  {
    WordIsClean(Address(s, config));
    CleanJoin(Address(s, config), " {");
    CleanJoin(PROXY, s.upstream);
  }

  lemma OneBlockRows(s: Site, config: Config, row: Row)
    requires Key(Address(s, config)) && Words(PROXY + s.upstream) == Some(row) && row != []
    ensures Rows(BlockLines(s, config)) == Some([[Address(s, config), "{"], row, ["}"]])
  {
    var a := Address(s, config);
    TwoWords(a, "{");
    HeadText(a);
    BlockLinesRows(a + " {", PROXY + s.upstream, [a, "{"], row);
  }

  /** The file of one site whose upstream stays on its line, whatever words it holds. */
  lemma OneSiteRows(s: Site, config: Config, row: Row)
    requires s.enabled && Key(Address(s, config)) && (config.email == "" || Arg(config.email))
    requires Clean(s.upstream) && Words(PROXY + s.upstream) == Some(row) && row != []
    ensures ReadFile(Rendered([s], config)) == ReadRows(
      OptionRows(Off([s], config), AUTO_HTTPS) + OptionRows(config.email != "", EmailOption(config))
      + [[Address(s, config), "{"], row, ["}"]])
  {
    var preamble := Preamble(HasLoopback([s], config), config);
    OneSorted(s);
    OneBlockLines(s, config);
    OneBlockClean(s, config);
    PreambleClean(HasLoopback([s], config), config);
    CleanAppend(preamble, BlockLines(s, config));
    FileLines(preamble + BlockLines(s, config));
    OneBlockRows(s, config, row);
    PreambleRows(HasLoopback([s], config), config);
    RowsAppend(preamble, BlockLines(s, config));
  }

  lemma OneBlockLines(s: Site, config: Config)
    ensures AllBlocks([s], config) == BlockLines(s, config)
  {
    assert [s][1..] == [] && BlockLines(s, config) + [] == BlockLines(s, config);
  }

  /** Blocks that cannot be read are not read after options either. */
  lemma UnreadAfterOptions(off: bool, config: Config, rows: seq<Row>)
    requires Blocks(rows).None? && rows != [] && rows[0] != ["{"] && (config.email == "" || Arg(config.email))
    ensures ReadRows(OptionRows(off, AUTO_HTTPS) + OptionRows(config.email != "", EmailOption(config)) + rows).None?
  {
    var email := OptionRows(config.email != "", EmailOption(config));
    OptionsFlat(config.email);
    Nothing(rows);
    if config.email != "" { OptionBlockRead(EmailOption(config), rows); }
    if off {
      Glue(OptionRows(true, AUTO_HTTPS), email, rows);
      OptionBlockRead(AUTO_HTTPS, email + rows);
    } else {
      Nothing(email);
    }
  }

  lemma NestedBlock(head: Row, row: Row)
    requires |row| == 3 && row[2] == "{"
    ensures Blocks([head, row, ["}"]]).None?
  {
    var rows := [head, row, ["}"]];
    assert Brace(row[2]) && !Flat(row);
    assert rows[1..][0] == row && row != ["}"];
  }

  lemma BraceWords(upstream: string)
    requires Arg(upstream)
    ensures Words(PROXY + (upstream + " {")) == Some(["reverse_proxy", upstream, "{"])
    ensures Clean(upstream + " {")
  {
    ProxyName();
    ThreeWords("reverse_proxy", upstream, "{");
    HeadText(upstream);
    ProxyText(upstream + " {");
    Indented("reverse_proxy" + " " + (upstream + " {"));
    WordIsClean(upstream);
    CleanJoin(upstream, " {");
  }

  /** An upstream that ends in a brace opens a block, which the end of its site's block closes: no Caddyfile. */
  lemma OpenBrace(s: Site, upstream: string, config: Config)
    requires s.enabled && s.upstream == upstream + " {" && Arg(upstream)
    requires Key(Address(s, config)) && (config.email == "" || Arg(config.email))
    ensures ReadFile(Rendered([s], config)).None?
  {
    BraceWords(upstream);
    OneSiteRows(s, config, ["reverse_proxy", upstream, "{"]);
    NestedBlock([Address(s, config), "{"], ["reverse_proxy", upstream, "{"]);
    UnreadAfterOptions(Off([s], config), config,
                       [[Address(s, config), "{"], ["reverse_proxy", upstream, "{"], ["}"]]);
  }
}
