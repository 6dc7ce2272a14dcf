/**
 The part of the Caddyfile grammar that the renderer means to write: comments, one block of global options, and site
 blocks of directives. A construct outside it, such as a quoted word, makes a file unreadable here.
 */
module CaddyGrammar {
  import opened Wrappers
  import opened Text

  // ---- the words of a line -----------------------------------------------

  type Row = seq<string>

  /** Not the start of a quoted word or a heredoc, and without escapes and environment variables. */
  predicate Literal(w: string)
    requires w != ""
  {
    w[0] != '"' && w[0] != '`' && !("<<" <= w) && Lacks(w, '\\') && NoVariable(w)
  }

  predicate NoVariable(w: string) {
    forall k :: 0 < k < |w| ==> w[k - 1] != '{' || w[k] != '$'
  }

  predicate Solid(w: string) {
    forall k :: 0 <= k < |w| ==> !IsSpace(w[k])
  }

  /** A value that stands for itself as one word of a line. */
  predicate Word(w: string) {
    w != "" && w[0] != '#' && Solid(w) && Literal(w)
  }

  /** How far the first word of s goes. */
  function WordEnd(s: string): (n: nat)
    ensures n <= |s| && Solid(s[..n])
    ensures n < |s| ==> IsSpace(s[n])
  {
    if s == "" || IsSpace(s[0]) then 0 else 1 + WordEnd(s[1..])
  }

  function Consed(w: string, more: Option<Row>): Option<Row> {
    match more
    case None => None
    case Some(row) => Some([w] + row)
  }

  /** The words of a line, up to a comment. */
  function Words(line: string): Option<Row>
    decreases |line|
  {
    if line == "" || line[0] == '#' then Some([])
    else if IsSpace(line[0]) then Words(line[1..])
    else
      var n := WordEnd(line);
      if Literal(line[..n]) then Consed(line[..n], Words(line[n..])) else None
  }

  lemma {:induction false} SolidEnd(w: string, tail: string)
    requires Solid(w) && (tail == "" || IsSpace(tail[0]))
    ensures WordEnd(w + tail) == |w|
  {
    if w == "" {
      assert w + tail == tail;
    } else {
      assert (w + tail)[1..] == w[1..] + tail;
      SolidEnd(w[1..], tail);
    }
  }

  lemma FirstWord(w: string, tail: string)
    requires Word(w) && (tail == "" || IsSpace(tail[0]))
    ensures Words(w + tail) == Consed(w, Words(tail))
  {
    SolidEnd(w, tail);
    assert (w + tail)[..|w|] == w && (w + tail)[|w|..] == tail;
  }

  lemma OneWord(w: string)
    requires Word(w)
    ensures Words(w) == Some([w])
  {
    FirstWord(w, "");
    assert w + "" == w && [w] + [] == [w];
  }

  lemma Blank(line: string)
    ensures Words(" " + line) == Words(line)
  {
    assert (" " + line)[1..] == line;
  }

  lemma TwoWords(a: string, b: string)
    requires Word(a) && Word(b)
    ensures Words(a + " " + b) == Some([a, b])
  {
    OneWord(b);
    Blank(b);
    FirstWord(a, " " + b);
    assert a + " " + b == a + (" " + b);
    assert [a] + [b] == [a, b];
  }

  lemma ThreeWords(a: string, b: string, c: string)
    requires Word(a) && Word(b) && Word(c)
    ensures Words(a + " " + (b + " " + c)) == Some([a, b, c])
  {
    var more := b + " " + c;
    TwoWords(b, c);
    Blank(more);
    FirstWord(a, " " + more);
    assert a + " " + more == a + (" " + more);
    assert [a] + [b, c] == [a, b, c];
  }

  /** An address with a blank in it is two. */
  lemma SplitAddress(a: string, b: string)
    requires Word(a) && Word(b)
    ensures Words(a + " " + b + " {") == Some([a, b, "{"])
  {
    ThreeWords(a, b, "{");
    assert a + " " + b + " {" == a + " " + (b + " " + "{");
  }

  const INDENT := "    "

  lemma Indented(line: string)
    ensures Words(INDENT + line) == Words(line)
  {
    Blank(line);
    Blank(" " + line);
    Blank(" " + (" " + line));
    Blank(" " + (" " + (" " + line)));
    assert INDENT + line == " " + (" " + (" " + (" " + line)));
  }

  // ---- the rows of a file ------------------------------------------------

  /** The words of each line that has any. */
  function Rows(lines: seq<string>): Option<seq<Row>> {
    if lines == [] then Some([])
    else match Words(lines[0])
      case None => None
      case Some(row) => match Rows(lines[1..])
        case None => None
        case Some(more) => Some((if row == [] then [] else [row]) + more)
  }

  lemma RowsCons(line: string, row: Row, more: seq<string>)
    requires Words(line) == Some(row) && Rows(more).Some?
    ensures Rows([line] + more) == Some((if row == [] then [] else [row]) + Rows(more).value)
  {
    assert ([line] + more)[1..] == more;
  }

  lemma {:induction false} RowsAppend(a: seq<string>, b: seq<string>)
    requires Rows(a).Some? && Rows(b).Some?
    ensures Rows(a + b) == Some(Rows(a).value + Rows(b).value)
  {
    if a == [] {
      assert a + b == b;
      assert [] + Rows(b).value == Rows(b).value;
    } else {
      assert (a + b)[1..] == a[1..] + b;
      RowsAppend(a[1..], b);
      var row := Words(a[0]).value;
      var first := if row == [] then [] else [row];
      assert first + Rows(a[1..]).value + Rows(b).value == first + (Rows(a[1..]).value + Rows(b).value);
    }
  }

  // ---- blocks ------------------------------------------------------------

  predicate Brace(w: string) {
    w == "{" || w == "}" || w == "{}"
  }

  /** A word that neither opens nor closes a block. */
  predicate Arg(w: string) {
    Word(w) && !Brace(w)
  }

  predicate AllArg(row: Row) {
    forall k :: 0 <= k < |row| ==> Arg(row[k])
  }

  /** A line inside a block: no block of its own, and no import of a snippet or a file. */
  predicate Flat(row: Row) {
    row != [] && row[0] != "import" && AllArg(row)
  }

  /** The address of a site: no list, no snippet, no route, no matcher and no import. */
  predicate Key(w: string) {
    && Arg(w) && w[|w| - 1] != '{' && Lacks(w, ',') && w[0] != '@' && w[0] != '(' && !("&(" <= w) && w != "import"
  }

  /** The first argument of a directive can be a request matcher. */
  predicate Matcher(w: string)
    requires w != ""
  {
    w == "*" || w[0] == '/' || w[0] == '@'
  }

  datatype Directive = Directive(name: string, matcher: Option<string>, args: seq<string>)

  datatype Block = Block(keys: seq<string>, body: seq<Directive>)

  datatype View = View(options: seq<Row>, blocks: seq<Block>)

  /** The rows inside a block, and those after it. */
  datatype Braced = Braced(inside: seq<Row>, rest: seq<Row>)

  function Inside(rows: seq<Row>): (b: Option<Braced>)
    ensures b.Some? ==> |b.value.rest| < |rows|
  {
    if rows == [] then None
    else if rows[0] == ["}"] then Some(Braced([], rows[1..]))
    else if !Flat(rows[0]) then None
    else match Inside(rows[1..])
      case None => None
      case Some(b) => Some(b.(inside := [rows[0]] + b.inside))
  }

  function AsDirective(row: Row): Directive
    requires Flat(row)
  {
    if |row| > 1 && Matcher(row[1]) then Directive(row[0], Some(row[1]), row[2..])
    else Directive(row[0], None, row[1..])
  }

  predicate AllFlat(rows: seq<Row>) {
    forall k :: 0 <= k < |rows| ==> Flat(rows[k])
  }

  function Directives(rows: seq<Row>): seq<Directive>
    requires AllFlat(rows)
  {
    if rows == [] then [] else [AsDirective(rows[0])] + Directives(rows[1..])
  }

  lemma {:induction false} InsideIsFlat(rows: seq<Row>)
    ensures Inside(rows).Some? ==> AllFlat(Inside(rows).value.inside)
  {
    if rows != [] {
      InsideIsFlat(rows[1..]);
    }
  }

  predicate Opens(row: Row) {
    |row| >= 2 && row[|row| - 1] == "{" && forall k :: 0 <= k < |row| - 1 ==> Key(row[k])
  }

  /** Site blocks. A block without a key is for global options, and none may stand here. */
  function Blocks(rows: seq<Row>): Option<seq<Block>>
    decreases |rows|
  {
    if rows == [] then Some([])
    else if !Opens(rows[0]) then None
    else match Inside(rows[1..])
      case None => None
      case Some(b) => match Blocks(b.rest)
        case None => None
        case Some(more) =>
          InsideIsFlat(rows[1..]);
          Some([Block(rows[0][..|rows[0]| - 1], Directives(b.inside))] + more)
  }

  function Keys(blocks: seq<Block>): seq<string> {
    if blocks == [] then [] else blocks[0].keys + Keys(blocks[1..])
  }

  predicate Distinct(s: seq<string>) {
    forall j, k :: 0 <= j < k < |s| ==> s[j] != s[k]
  }

  /** The global options, if any, come first; no two sites have the same address. */
  function ReadRows(rows: seq<Row>): Option<View> {
    if rows != [] && rows[0] == ["{"] then
      match Inside(rows[1..])
      case None => None
      case Some(b) => Sited(b.inside, Blocks(b.rest))
    else Sited([], Blocks(rows))
  }

  function Sited(options: seq<Row>, blocks: Option<seq<Block>>): Option<View> {
    match blocks
    case None => None
    case Some(sites) => if Distinct(Keys(sites)) then Some(View(options, sites)) else None
  }

  function ReadFile(file: string): Option<View> {
    match Rows(Lines(file))
    case None => None
    case Some(rows) => ReadRows(rows)
  }

  // ---- what can be read --------------------------------------------------

  predicate DirectiveOk(d: Directive) {
    AllArg(d.args) && (d.matcher.None? && d.args != [] ==> !Matcher(d.args[0]))
  }

  predicate BlockOk(b: Block) {
    && (forall k :: 0 <= k < |b.keys| ==> Key(b.keys[k]))
    && forall k :: 0 <= k < |b.body| ==> DirectiveOk(b.body[k])
  }

  /** What every view read from a file is like. */
  predicate ViewOk(v: View) {
    && AllFlat(v.options)
    && (forall k :: 0 <= k < |v.blocks| ==> BlockOk(v.blocks[k]))
    && Distinct(Keys(v.blocks))
  }

  lemma {:induction false} DirectivesOk(rows: seq<Row>)
    requires AllFlat(rows)
    ensures forall k :: 0 <= k < |Directives(rows)| ==> DirectiveOk(Directives(rows)[k])
  {
    if rows != [] {
      DirectivesOk(rows[1..]);
    }
  }

  lemma {:induction false} BlocksOk(rows: seq<Row>)
    ensures Blocks(rows).Some? ==> forall k :: 0 <= k < |Blocks(rows).value| ==> BlockOk(Blocks(rows).value[k])
    decreases |rows|
  {
    if rows != [] && Opens(rows[0]) && Inside(rows[1..]).Some? {
      InsideIsFlat(rows[1..]);
      DirectivesOk(Inside(rows[1..]).value.inside);
      BlocksOk(Inside(rows[1..]).value.rest);
    }
  }

  lemma ReadIsOk(file: string)
    ensures ReadFile(file).Some? ==> ViewOk(ReadFile(file).value)
  {
    if Rows(Lines(file)).Some? {
      var rows := Rows(Lines(file)).value;
      BlocksOk(rows);
      if rows != [] {
        InsideIsFlat(rows[1..]);
        if Inside(rows[1..]).Some? { BlocksOk(Inside(rows[1..]).value.rest); }
      }
    }
  }
}
