/** The exposed_ports column: a canonical JSON form of a list of (service name, port) pairs. */
module ExposedPorts {
  import opened Wrappers
  import opened Collections
  import opened Text
  import opened Decimal
  import opened Sorting

  datatype ExposedPort = ExposedPort(name: string, port: int)

  type Ports = seq<ExposedPort>

  datatype PortError = InvalidJson | NameRequired(i: nat) | BadName(i: nat) | BadPort(i: nat) | Duplicate(i: nat)

  predicate Alnum(c: char) {
    'a' <= c <= 'z' || '0' <= c <= '9'
  }

  /** The pattern ^[a-z0-9]([a-z0-9-]{0,61}[a-z0-9])?$ */
  predicate ServiceName(s: string) {
    && 1 <= |s| <= 63 && Alnum(s[0]) && Alnum(s[|s| - 1])
    && forall k :: 0 <= k < |s| ==> Alnum(s[k]) || s[k] == '-'
  }

  // ---- which lists are accepted ------------------------------------------

  function TrimName(p: ExposedPort): ExposedPort {
    p.(name := TrimSpace(p.name))
  }

  function Trimmed(ports: Ports): Ports {
    seq(|ports|, i requires 0 <= i < |ports| => TrimName(ports[i]))
  }

  function NameOf(p: ExposedPort): string {
    p.name
  }

  predicate PortOk(p: ExposedPort) {
    ServiceName(TrimSpace(p.name)) && 1 <= p.port <= 65535
  }

  /** Every entry is well-formed, and the trimmed names are distinct. */
  predicate Acceptable(ports: Ports) {
    (forall k :: 0 <= k < |ports| ==> PortOk(ports[k])) && DistinctKeys(Trimmed(ports), NameOf)
  }

  /** What is wrong with the entry at i, given the ones before it. */
  function ErrorAt(ports: Ports, i: nat): Option<PortError>
    requires i < |ports|
  {
    var name := TrimSpace(ports[i].name);
    if name == "" then Some(NameRequired(i))
    else if !ServiceName(name) then Some(BadName(i))
    else if !(1 <= ports[i].port <= 65535) then Some(BadPort(i))
    else if name in Names(Trimmed(ports[..i])) then Some(Duplicate(i))
    else None
  }

  function Names(ports: Ports): set<string> {
    set p | p in ports :: p.name
  }

  predicate FineUpTo(ports: Ports, i: nat)
    requires i <= |ports|
  {
    forall k :: 0 <= k < i ==> ErrorAt(ports, k).None?
  }

  /** The first thing that is wrong with the list. */
  ghost predicate FirstError(ports: Ports, e: PortError) {
    e != InvalidJson && e.i < |ports| && FineUpTo(ports, e.i) && ErrorAt(ports, e.i) == Some(e)
  }

  lemma TrimmedPrefix(ports: Ports, i: nat)
    requires i <= |ports|
    ensures Trimmed(ports[..i]) == Trimmed(ports)[..i]
  {}

  lemma Clash(ports: Ports, j: nat, k: nat)
    requires j < k < |ports| && ports[j].name == ports[k].name
    ensures !DistinctKeys(ports, NameOf)
  {
    assert NameOf(ports[j]) == NameOf(ports[k]);
  }

  /** The entry-by-entry checks accept exactly the acceptable lists. */
  lemma FineIsAcceptable(ports: Ports)
    ensures FineUpTo(ports, |ports|) <==> Acceptable(ports)
  {
    if FineUpTo(ports, |ports|) {
      forall j, k | 0 <= j < k < |ports| ensures Trimmed(ports)[j].name != Trimmed(ports)[k].name {
        assert ErrorAt(ports, k).None?;
        TrimmedPrefix(ports, k);
        assert Trimmed(ports[..k])[j] in Trimmed(ports[..k]);
      }
      forall k | 0 <= k < |ports| ensures PortOk(ports[k]) {
        assert ErrorAt(ports, k).None?;
      }
    }
    if Acceptable(ports) {
      forall k | 0 <= k < |ports| ensures ErrorAt(ports, k).None? {
        assert PortOk(ports[k]);
        TrimmedPrefix(ports, k);
        if TrimSpace(ports[k].name) in Names(Trimmed(ports[..k])) {
          var p :| p in Trimmed(ports[..k]) && p.name == TrimSpace(ports[k].name);
          var j :| 0 <= j < k && Trimmed(ports)[j] == p;
          Clash(Trimmed(ports), j, k);
        }
      }
    }
  }

  // ---- parsing and marshalling -------------------------------------------

  function Canonical(ports: Ports): Ports {
    SortBy(Trimmed(ports), NameOf)
  }

  /** The list with its first i names trimmed. */
  function PartlyTrimmed(ports: Ports, i: nat): Ports
    requires i <= |ports|
  {
    Trimmed(ports[..i]) + ports[i..]
  }

  /** The list so far, with the names seen in it. */
  ghost predicate Progress(was: Ports, now: Ports, i: nat, seen: set<string>) {
    && i <= |was| && |now| == |was|
    && FineUpTo(was, i)
    && now == PartlyTrimmed(was, i)
    && seen == Names(Trimmed(was[..i]))
  }

  lemma Progresses(was: Ports, now: Ports, i: nat, seen: set<string>)
    requires Progress(was, now, i, seen) && i < |was|
    ensures now[i] == was[i]
    ensures ErrorAt(was, i).Some? ==> FirstError(was, ErrorAt(was, i).value)
    ensures TrimSpace(was[i].name) in seen <==> TrimSpace(was[i].name) in Names(Trimmed(was[..i]))
    ensures ErrorAt(was, i).None? ==>
      Progress(was, now[i := TrimName(was[i])], i + 1, seen + {TrimSpace(was[i].name)})
  {
    assert PartlyTrimmed(was, i)[i] == was[i..][0];
    assert Trimmed(was[..i + 1]) == Trimmed(was[..i]) + [TrimName(was[i])];
    assert PartlyTrimmed(was, i)[i := TrimName(was[i])] == PartlyTrimmed(was, i + 1);
    NamesAppend(Trimmed(was[..i]), TrimName(was[i]));
  }

  lemma NamesAppend(ports: Ports, p: ExposedPort)
    ensures Names(ports + [p]) == Names(ports) + {p.name}
  {
    assert p in ports + [p];
    forall q | q in ports ensures q in ports + [p] {}
  }

  /** Trims and checks the entries in place; on an error the entries before it stay trimmed. */
  method TrimAndCheck(ports: array<ExposedPort>) returns (error: Option<PortError>)
    modifies ports
    ensures error.None? ==> Acceptable(old(ports[..])) && ports[..] == Trimmed(old(ports[..]))
    ensures error.Some? ==> FirstError(old(ports[..]), error.value)
    ensures error.Some? ==> ports[..] == PartlyTrimmed(old(ports[..]), error.value.i)
  {
    ghost var was := ports[..];
    var seen: set<string> := {};
    for i := 0 to ports.Length
      invariant Progress(was, ports[..], i, seen)
    {
      Progresses(was, ports[..], i, seen);
      var ep := ports[i];
      var name := TrimSpace(ep.name);
      if name == "" {
        return Some(NameRequired(i));
      }
      if !ServiceName(name) {
        return Some(BadName(i));
      }
      if ep.port < 1 || ep.port > 65535 {
        return Some(BadPort(i));
      }
      if name in seen {
        return Some(Duplicate(i));
      }
      seen := seen + {name};
      ghost var before := ports[..];
      ports[i] := ep.(name := name);
      assert ports[..] == before[i := TrimName(was[i])];
    }
    FineIsAcceptable(was);
    assert was[..|was|] == was && was[|was|..] == [];
    error := None;
  }

  /** Whatever the sorting library does, distinct names leave it one result. */
  method SortByName(ports: array<ExposedPort>)
    modifies ports
    ensures ports[..] == SortBy(old(ports[..]), NameOf)
  {
    var sorted := SortBy(ports[..], NameOf);
    SortMembers(ports[..], NameOf);
    assert |sorted| == |multiset(sorted)| == |multiset(ports[..])| == ports.Length;
    forall i | 0 <= i < ports.Length {
      ports[i] := sorted[i];
    }
  }

  type Column = Option<string>

  /** json.Unmarshal into the list type. */
  type Decoder = string -> Option<Ports>

  function ParseResult(decode: Decoder, raw: Column): (r: Result<Ports, PortError>) {
    if raw.None? || TrimSpace(raw.value) == "" then Ok([])
    else match decode(TrimSpace(raw.value))
      case None => Err(InvalidJson)
      case Some(ports) => Checked(ports)
  }

  function FirstErrorFrom(ports: Ports, i: nat): PortError
    requires i <= |ports|
    decreases |ports| - i
  {
    if i == |ports| then InvalidJson
    else if ErrorAt(ports, i).Some? then ErrorAt(ports, i).value
    else FirstErrorFrom(ports, i + 1)
  }

  function Checked(ports: Ports): Result<Ports, PortError> {
    if Acceptable(ports) then Ok(Canonical(ports)) else Err(FirstErrorFrom(ports, 0))
  }

  lemma {:induction false} FirstErrorFound(ports: Ports, i: nat, e: PortError)
    requires FirstError(ports, e) && i <= e.i
    ensures FirstErrorFrom(ports, i) == e && !Acceptable(ports)
    decreases |ports| - i
  {
    if i < e.i {
      FirstErrorFound(ports, i + 1, e);
    }
    FineIsAcceptable(ports);
  }

  method ParseExposedPorts(decode: Decoder, raw: Column) returns (r: Result<Ports, PortError>)
    ensures r == ParseResult(decode, raw)
  {
    if raw.None? {
      return Ok([]);
    }
    var s := TrimSpace(raw.value);
    if s == "" {
      return Ok([]);
    }
    var out := decode(s);
    if out.None? {
      return Err(InvalidJson);
    }
    var list := out.value;
    if |list| == 0 {
      assert Canonical([]) == [];
      return Ok([]);
    }
    var ports := new ExposedPort[|list|](i requires 0 <= i < |list| => list[i]);
    assert ports[..] == list;
    var error := TrimAndCheck(ports);
    if error.Some? {
      FirstErrorFound(list, 0, error.value);
      return Err(error.value);
    }
    SortByName(ports);
    r := Ok(ports[..]);
  }

  /** The caller's list is trimmed and sorted in place. */
  method MarshalExposedPorts(ports: array<ExposedPort>) returns (r: Result<Column, PortError>)
    modifies ports
    ensures r == MarshalResult(old(ports[..]))
    ensures r.Ok? <==> WellFormed(old(ports[..]))
    ensures r.Ok? ==> TrimmedInOrder(old(ports[..]), ports[..])
    ensures r.Err? ==> FirstError(old(ports[..]), r.error) && ports[..] == PartlyTrimmed(old(ports[..]), r.error.i)
  {
    ghost var was := ports[..];
    AcceptableIsWellFormed(was);
    if Acceptable(was) { CanonicalInOrder(was); }
    if ports.Length == 0 {
      return Ok(None);
    }
    var error := TrimAndCheck(ports);
    if error.Some? {
      FirstErrorFound(was, 0, error.value);
      return Err(error.value);
    }
    SortByName(ports);
    r := Ok(Some(PrintPorts(ports[..])));
  }

  function MarshalResult(ports: Ports): Result<Column, PortError> {
    if ports == [] then Ok(None)
    else match Checked(ports)
      case Ok(canonical) => Ok(Some(PrintPorts(canonical)))
      case Err(e) => Err(e)
  }

  method FindExposedPort(ports: Ports, name: string) returns (found: Option<ExposedPort>)
    ensures found == Find(ports, name)
  {
    for i := 0 to |ports|
      invariant Find(ports, name) == Find(ports[i..], name)
    {
      if ports[i].name == name {
        return Some(ports[i]);
      }
    }
    return None;
  }

  function Find(ports: Ports, name: string): Option<ExposedPort> {
    if ports == [] then None
    else if ports[0].name == name then Some(ports[0])
    else Find(ports[1..], name)
  }

  // ---- the printed form --------------------------------------------------

  const BEFORE_NAME := "{\"name\":\""
  const BEFORE_PORT := "\",\"port\":"

  function PrintInt(n: int): string {
    if n < 0 then "-" + Decimal.Print(-n) else Decimal.Print(n)
  }

  function PrintPort(p: ExposedPort): string {
    BEFORE_NAME + (p.name + (BEFORE_PORT + (PrintInt(p.port) + "}")))
  }

  function PrintItems(ports: Ports): string
    requires ports != []
  {
    PrintPort(ports[0]) + if |ports| == 1 then "]" else "," + PrintItems(ports[1..])
  }

  /** json.Marshal of a list whose names need no escapes. */
  function PrintPorts(ports: Ports): string {
    if ports == [] then "[]" else "[" + PrintItems(ports)
  }

  function Drop(s: string, prefix: string): Option<string> {
    if prefix <= s then Some(s[|prefix|..]) else None
  }

  datatype Scanned = Scanned(port: ExposedPort, rest: string)

  function ScanNumber(name: string, s: string): Option<Scanned> {
    var e := IndexByte(s, '}');
    if e == |s| || e == 0 || !AllDigits(s[..e]) then None
    else Some(Scanned(ExposedPort(name, Value(s[..e])), s[e + 1..]))
  }

  function ScanName(s: string): Option<Scanned> {
    var q := IndexByte(s, '"');
    match Drop(s[q..], BEFORE_PORT)
    case None => None
    case Some(number) => ScanNumber(s[..q], number)
  }

  function ScanPort(s: string): (r: Option<Scanned>)
    ensures r.Some? ==> |r.value.rest| < |s|
  {
    match Drop(s, BEFORE_NAME)
    case None => None
    case Some(name) => ScanName(name)
  }

  function ScanItems(s: string): Option<Ports>
    decreases |s|
  {
    match ScanPort(s)
    case None => None
    case Some(Scanned(p, rest)) =>
      if rest == "]" then Some([p])
      else if rest == "" || rest[0] != ',' then None
      else match ScanItems(rest[1..])
        case None => None
        case Some(more) => Some([p] + more)
  }

  /** Reads the printed form back. */
  function DecodePrinted(s: string): Option<Ports> {
    if s == "[]" then Some([])
    else if s == "" || s[0] != '[' then None
    else ScanItems(s[1..])
  }

  predicate Printable(ports: Ports) {
    forall k :: 0 <= k < |ports| ==> Lacks(ports[k].name, '"') && ports[k].port >= 0
  }

  lemma DropPrefix(prefix: string, s: string)
    ensures Drop(prefix + s, prefix) == Some(s)
  {
    assert (prefix + s)[|prefix|..] == s;
  }

  lemma DigitsOnly(n: nat)
    ensures Lacks(Decimal.Print(n), '}')
  {
    PrintRoundTrip(n);
  }

  lemma ScanNumberBack(name: string, n: nat, rest: string)
    ensures ScanNumber(name, Decimal.Print(n) + ['}'] + rest) == Some(Scanned(ExposedPort(name, n), rest))
  {
    DigitsOnly(n);
    PrintRoundTrip(n);
    CutAt(Decimal.Print(n), '}', rest);
  }

  lemma ScanNameBack(name: string, number: string)
    requires Lacks(name, '"')
    ensures ScanName(name + (BEFORE_PORT + number)) == ScanNumber(name, number)
  {
    var s := name + (BEFORE_PORT + number);
    var after := BEFORE_PORT[1..] + number;
    assert BEFORE_PORT + number == ['"'] + after;
    assert s == name + ['"'] + after;
    CutAt(name, '"', after);
    assert s[|name|..] == BEFORE_PORT + number;
    DropPrefix(BEFORE_PORT, number);
  }

  lemma ScanPortBack(p: ExposedPort, rest: string)
    requires Lacks(p.name, '"') && p.port >= 0
    ensures ScanPort(PrintPort(p) + rest) == Some(Scanned(p, rest))
  {
    var number := Decimal.Print(p.port) + ['}'] + rest;
    var name := p.name + (BEFORE_PORT + number);
    assert PrintPort(p) + rest == BEFORE_NAME + name;
    DropPrefix(BEFORE_NAME, name);
    ScanNameBack(p.name, number);
    ScanNumberBack(p.name, p.port, rest);
  }

  lemma ScanLast(s: string, p: ExposedPort)
    requires ScanPort(s) == Some(Scanned(p, "]"))
    ensures ScanItems(s) == Some([p])
  {}

  lemma ScanMore(s: string, p: ExposedPort, rest: string, more: Ports)
    requires ScanPort(s) == Some(Scanned(p, "," + rest)) && ScanItems(rest) == Some(more)
    ensures ScanItems(s) == Some([p] + more)
  {
    var tail := "," + rest;
    assert tail != "" && tail[0] == ',' && tail[1..] == rest;
    assert tail != "]";
  }

  lemma PrintCons(p: ExposedPort, more: Ports)
    ensures PrintItems([p] + more) == PrintPort(p) + if more == [] then "]" else "," + PrintItems(more)
  {
    assert ([p] + more)[1..] == more;
  }

  lemma {:induction false} ScanItemsBack(ports: Ports)
    requires ports != [] && Printable(ports)
    ensures ScanItems(PrintItems(ports)) == Some(ports)
  {
    var p, more := ports[0], ports[1..];
    assert ports == [p] + more;
    PrintCons(p, more);
    if more == [] {
      assert [p] + more == [p];
      ScanPortBack(p, "]");
      ScanLast(PrintItems(ports), p);
    } else {
      ScanItemsBack(more);
      ScanPortBack(p, "," + PrintItems(more));
      ScanMore(PrintItems(ports), p, PrintItems(more), more);
    }
  }

  /** The printed form determines the list. */
  lemma PrintedReadsBack(ports: Ports)
    requires Printable(ports)
    ensures DecodePrinted(PrintPorts(ports)) == Some(ports)
  {
    if ports != [] {
      var s := PrintPorts(ports);
      assert s[1..] == PrintItems(ports);
      assert PrintItems(ports)[0] == '{';
      assert s[1] != ']';
      ScanItemsBack(ports);
    }
  }

  // ---- the canonical form ------------------------------------------------

  /** A list as the column stores it, but for the order: its names need no JSON escapes and its ports fit an int. */
  predicate Storable(ports: Ports) {
    Acceptable(ports) && Trimmed(ports) == ports
  }

  /** A JSON decoder that reads back what the encoder prints of storable lists. */
  ghost predicate ReadsPrinted(decode: Decoder) {
    forall ports: Ports :: Storable(ports) ==> decode(PrintPorts(ports)) == Some(ports)
  }

  lemma StorableIsPrintable(ports: Ports)
    requires Storable(ports)
    ensures Printable(ports)
  {
    forall k | 0 <= k < |ports| ensures Lacks(ports[k].name, '"') && ports[k].port >= 0 {
      assert PortOk(ports[k]) && ports[k] == Trimmed(ports)[k];
      AlnumIsNoSpace(ports[k].name);
    }
  }

  lemma SomeDecoderReads()
    ensures ReadsPrinted(DecodePrinted)
  {
    forall ports: Ports | Storable(ports) ensures DecodePrinted(PrintPorts(ports)) == Some(ports) {
      StorableIsPrintable(ports);
      PrintedReadsBack(ports);
    }
  }

  lemma AlnumIsNoSpace(s: string)
    requires ServiceName(s)
    ensures TrimSpace(s) == s && Lacks(s, '"')
  {}

  /** A canonical list is acceptable, already trimmed, and strictly sorted by name. */
  lemma CanonicalIsCanonical(ports: Ports)
    requires Acceptable(ports)
    ensures multiset(Canonical(ports)) == multiset(Trimmed(ports)) && StrictlySorted(Canonical(ports), NameOf)
    ensures Storable(Canonical(ports)) && Canonical(Canonical(ports)) == Canonical(ports)
  {
    var c, t := Canonical(ports), Trimmed(ports);
    SortMembers(t, NameOf);
    SortSorts(t, NameOf);
    forall k | 0 <= k < |c| ensures PortOk(c[k]) && TrimName(c[k]) == c[k] {
      SameElement(c, t, c[k]);
      var j :| 0 <= j < |t| && t[j] == c[k];
      assert PortOk(ports[j]);
      AlnumIsNoSpace(c[k].name);
    }
    assert Trimmed(c) == c;
    SortedDistinct(c);
    SortIgnoresOrder(c, t, NameOf);
  }

  lemma SortedDistinct(ports: Ports)
    requires StrictlySorted(ports, NameOf)
    ensures DistinctKeys(ports, NameOf)
  {
    forall j, k | 0 <= j < k < |ports| ensures NameOf(ports[j]) != NameOf(ports[k]) {
      LessIrreflexive(ports[j].name);
    }
  }

  lemma BracketsTrimmed(s: string)
    requires |s| >= 2 && s[0] == '[' && s[|s| - 1] == ']'
    ensures TrimSpace(s) == s
  {}

  lemma {:induction false} PrintedEnds(ports: Ports)
    requires ports != []
    ensures PrintItems(ports) != "" && PrintItems(ports)[|PrintItems(ports)| - 1] == ']'
  {
    if |ports| > 1 {
      PrintedEnds(ports[1..]);
    }
  }

  lemma PrintedTrimmed(ports: Ports)
    requires ports != []
    ensures TrimSpace(PrintPorts(ports)) == PrintPorts(ports) && PrintPorts(ports) != ""
  {
    PrintedEnds(ports);
    BracketsTrimmed(PrintPorts(ports));
  }

  predicate AllInner(s: string) {
    forall k :: 0 <= k < |s| ==> 'a' <= s[k] <= 'z' || '0' <= s[k] <= '9' || s[k] == '-'
  }

  /** One lower-case letter or digit, or two of them with up to 61 of them or hyphens in between. */
  predicate MatchesPattern(s: string) {
    && s != "" && AllInner([s[0]]) && s[0] != '-'
    && (|s| > 1 ==> |s| - 2 <= 61 && AllInner(s[1..|s| - 1]) && AllInner([s[|s| - 1]]) && s[|s| - 1] != '-')
  }

  lemma ServiceNameIsPattern(s: string)
    ensures ServiceName(s) <==> MatchesPattern(s)
  {
    if s != "" {
      assert [s[0]][0] == s[0] && [s[|s| - 1]][0] == s[|s| - 1];
    }
    if MatchesPattern(s) && |s| > 1 {
      forall k | 0 <= k < |s| ensures Alnum(s[k]) || s[k] == '-' {
        if 0 < k < |s| - 1 { assert s[k] == s[1..|s| - 1][k - 1]; }
      }
    }
  }

  /** The names match the pattern once trimmed, and differ; the ports are ports. */
  predicate WellFormed(ports: Ports) {
    && (forall k :: 0 <= k < |ports| ==> MatchesPattern(TrimSpace(ports[k].name)) && 1 <= ports[k].port <= 65535)
    && (forall j, k :: 0 <= j < k < |ports| ==> TrimSpace(ports[j].name) != TrimSpace(ports[k].name))
  }

  lemma AcceptableIsWellFormed(ports: Ports)
    ensures Acceptable(ports) <==> WellFormed(ports)
  {
    forall k | 0 <= k < |ports|
      ensures PortOk(ports[k]) <==> MatchesPattern(TrimSpace(ports[k].name)) && 1 <= ports[k].port <= 65535
    {
      ServiceNameIsPattern(TrimSpace(ports[k].name));
    }
    forall j, k | 0 <= j < k < |ports|
      ensures NameOf(Trimmed(ports)[j]) != NameOf(Trimmed(ports)[k])
              <==> TrimSpace(ports[j].name) != TrimSpace(ports[k].name)
    {}
  }

  /** The list in ascending order of the names, trimmed. */
  ghost predicate TrimmedInOrder(ports: Ports, list: Ports) {
    && multiset(list) == multiset(seq(|ports|, i requires 0 <= i < |ports| =>
         ExposedPort(TrimSpace(ports[i].name), ports[i].port)))
    && forall j, k :: 0 <= j < k < |list| ==> Before(list[j].name, list[k].name)
  }

  lemma CanonicalInOrder(ports: Ports)
    requires Acceptable(ports)
    ensures TrimmedInOrder(ports, Canonical(ports))
  {
    CanonicalIsCanonical(ports);
    SortedAscends(Canonical(ports), NameOf);
    assert Trimmed(ports) == seq(|ports|, i requires 0 <= i < |ports| =>
      ExposedPort(TrimSpace(ports[i].name), ports[i].port));
    var list := Canonical(ports);
    forall j, k | 0 <= j < k < |list| ensures Before(list[j].name, list[k].name) {
      assert Before(NameOf(list[j]), NameOf(list[k]));
    }
  }

  /**
   Parsing what was marshalled gives the trimmed list in ascending order of the names; exactly the lists that are not
   well-formed are refused.
   */
  lemma ParseOfMarshal(decode: Decoder, ports: Ports)
    requires ReadsPrinted(decode)
    ensures MarshalResult(ports).Ok? <==> WellFormed(ports)
    ensures WellFormed(ports) ==>
      && ParseResult(decode, MarshalResult(ports).value).Ok?
      && TrimmedInOrder(ports, ParseResult(decode, MarshalResult(ports).value).value)
      && ParseResult(decode, MarshalResult(ports).value).value == Canonical(ports)
  {
    AcceptableIsWellFormed(ports);
    if Acceptable(ports) {
      CanonicalInOrder(ports);
      CanonicalIsCanonical(ports);
      if ports != [] {
        CanonicalSize(ports);
        PrintedTrimmed(Canonical(ports));
      }
    }
  }

  lemma CanonicalSize(ports: Ports)
    ensures |Canonical(ports)| == |ports|
  {
    SortMembers(Trimmed(ports), NameOf);
    assert |multiset(Canonical(ports))| == |multiset(Trimmed(ports))|;
  }

  lemma {:induction false} TrimmedByEntry(ports: Ports)
    ensures Trimmed(ports) == FlatMap(ports, p => [TrimName(p)])
  {
    if ports != [] {
      TrimmedByEntry(ports[1..]);
      assert Trimmed(ports) == [TrimName(ports[0])] + Trimmed(ports[1..]);
    }
  }

  lemma TrimmedOrder(a: Ports, b: Ports)
    requires multiset(a) == multiset(b)
    ensures multiset(Trimmed(a)) == multiset(Trimmed(b))
  {
    TrimmedByEntry(a);
    TrimmedByEntry(b);
    FlatMapOrder(a, b, p => [TrimName(p)]);
  }

  lemma AcceptableInAnyOrder(a: Ports, b: Ports)
    requires multiset(a) == multiset(b) && Acceptable(a)
    ensures Acceptable(b) && Canonical(a) == Canonical(b)
  {
    TrimmedOrder(a, b);
    SortIgnoresOrder(Trimmed(a), Trimmed(b), NameOf);
    DistinctInAnyOrder(Trimmed(a), Trimmed(b), NameOf);
    forall k | 0 <= k < |b| ensures PortOk(b[k]) {
      SameElement(a, b, b[k]);
    }
  }

  /** Two arrangements of one list are accepted or refused alike, and marshal to the same string. */
  lemma PermutationsMarshalEqual(a: Ports, b: Ports)
    requires multiset(a) == multiset(b)
    ensures MarshalResult(a).Ok? <==> MarshalResult(b).Ok?
    ensures MarshalResult(a).Ok? ==> MarshalResult(a) == MarshalResult(b)
  {
    assert |a| == |multiset(a)| == |multiset(b)| == |b|;
    if Acceptable(a) {
      AcceptableInAnyOrder(a, b);
    }
    if Acceptable(b) {
      AcceptableInAnyOrder(b, a);
    }
  }

  /**
   What one parse returns is a fixed point: marshalling it and parsing again changes nothing, and nor does
   marshalling.
   */
  lemma MarshalAfterParse(decode: Decoder, raw: Column)
    requires ReadsPrinted(decode) && ParseResult(decode, raw).Ok?
    ensures var ports := ParseResult(decode, raw).value;
      var column := MarshalResult(ports);
      && column.Ok?
      && ParseResult(decode, column.value) == Ok(ports)
      && MarshalResult(ParseResult(decode, column.value).value) == column
  {
    var ports := ParseResult(decode, raw).value;
    if ports != [] {
      var list := decode(TrimSpace(raw.value)).value;
      CanonicalIsCanonical(list);
      AcceptableIsWellFormed(ports);
      ParseOfMarshal(decode, ports);
    }
  }

  lemma {:induction false} FirstErrorIsFirst(ports: Ports, i: nat)
    requires i <= |ports| && FineUpTo(ports, i) && !Acceptable(ports)
    ensures FirstError(ports, FirstErrorFrom(ports, i))
    decreases |ports| - i
  {
    if i == |ports| {
      FineIsAcceptable(ports);
    } else if ErrorAt(ports, i).None? {
      FirstErrorIsFirst(ports, i + 1);
    }
  }

  /**
   Both functions accept exactly the well-formed lists, and report the first offending entry of the others; what a
   parse returns is the decoded list, trimmed and in order.
   */
  lemma SameAcceptance(decode: Decoder, raw: Column, ports: Ports)
    requires raw.Some? && TrimSpace(raw.value) != "" && decode(TrimSpace(raw.value)) == Some(ports) && ports != []
    ensures ParseResult(decode, raw).Ok? <==> WellFormed(ports)
    ensures MarshalResult(ports).Ok? <==> WellFormed(ports)
    ensures WellFormed(ports) ==> TrimmedInOrder(ports, ParseResult(decode, raw).value)
    ensures !WellFormed(ports) ==>
      FirstError(ports, ParseResult(decode, raw).error) && FirstError(ports, MarshalResult(ports).error)
  {
    AcceptableIsWellFormed(ports);
    if Acceptable(ports) {
      CanonicalInOrder(ports);
    } else {
      FirstErrorIsFirst(ports, 0);
    }
  }
}
