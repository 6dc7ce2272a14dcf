/** The domains a site can have: fully-qualified names and loopback addresses. */
module Domains {
  import Collections
  import opened Text

  /** unicode.ToLower, as far as its results are ASCII: two letters outside ASCII have lower cases inside. */
  function LowerChar(c: char): char {
    if 'A' <= c <= 'Z' then (c as int + 32) as char
    else if c as int == 0x130 then 'i'
    else if c as int == 0x212A then 'k'
    else c
  }

  function Lower(s: string): string {
    seq(|s|, i requires 0 <= i < |s| => LowerChar(s[i]))
  }

  predicate EndsWith(s: string, suffix: string) {
    |suffix| <= |s| && s[|s| - |suffix|..] == suffix
  }

  const LOCALHOST := "localhost"

  /** loopbackIp says which strings parse as a loopback IP address. */
  predicate IsLoopbackDomain(loopbackIp: string -> bool, domain: string) {
    var d := TrimSpace(Lower(domain));
    d != "" && (d == LOCALHOST || EndsWith(d, "." + LOCALHOST) || loopbackIp(d))
  }

  const MAX_DOMAIN_LENGTH := 253

  /** The length of the UTF-8 encoding. */
  function ByteLength(s: string): nat {
    if s == "" then 0
    else
      var n := s[0] as int;
      (if n < 0x80 then 1 else if n < 0x800 then 2 else if n < 0x1_0000 then 3 else 4) + ByteLength(s[1..])
  }

  predicate LetterOrDigit(c: char) {
    'a' <= c <= 'z' || '0' <= c <= '9'
  }

  predicate Label(s: string) {
    && s != "" && s[0] != '-' && s[|s| - 1] != '-'
    && forall k :: 0 <= k < |s| ==> LetterOrDigit(s[k]) || s[k] == '-'
  }

  /** Labels with dots between them. */
  predicate Labels(s: string)
    decreases |s|
  {
    var i := IndexByte(s, '.');
    if i == |s| then Label(s) else Label(s[..i]) && Labels(s[i + 1..])
  }

  predicate TopLevel(s: string) {
    |s| >= 2 && forall k :: 0 <= k < |s| ==> 'a' <= s[k] <= 'z'
  }

  /** The name matches fqdnPattern. */
  predicate QualifiedName(s: string) {
    exists i :: 0 <= i < |s| && s[i] == '.' && Labels(s[..i]) && TopLevel(s[i + 1..])
  }

  predicate ValidDomain(loopbackIp: string -> bool, raw: string) {
    var domain := TrimSpace(raw);
    && domain != "" && ByteLength(domain) <= MAX_DOMAIN_LENGTH
    && (IsLoopbackDomain(loopbackIp, domain) || QualifiedName(Lower(domain)))
  }

  predicate NameChar(c: char) {
    LetterOrDigit(c) || c == '-' || c == '.'
  }

  lemma {:induction false} LabelsChars(s: string)
    requires Labels(s)
    ensures s != "" && LetterOrDigit(s[0]) && forall k :: 0 <= k < |s| ==> NameChar(s[k])
    decreases |s|
  {
    var i := IndexByte(s, '.');
    if i < |s| {
      LabelsChars(s[i + 1..]);
      assert s == s[..i] + ['.'] + s[i + 1..];
    }
  }

  lemma CharAt(s: string, i: nat, k: nat)
    requires i < |s| && k < |s|
    ensures s[k] == if k < i then s[..i][k] else if k == i then s[i] else s[i + 1..][k - i - 1]
  {}

  /** A qualified name is letters, digits, hyphens and dots, at least one of these; it starts and ends with no mark. */
  lemma QualifiedNameChars(s: string)
    requires QualifiedName(s)
    ensures s != "" && LetterOrDigit(s[0]) && '.' in s && LetterOrDigit(s[|s| - 1])
    ensures forall k :: 0 <= k < |s| ==> NameChar(s[k])
  {
    var i :| 0 <= i < |s| && s[i] == '.' && Labels(s[..i]) && TopLevel(s[i + 1..]);
    var before, after := s[..i], s[i + 1..];
    LabelsChars(before);
    forall k | 0 <= k < |s| ensures NameChar(s[k]) {
      CharAt(s, i, k);
    }
    CharAt(s, i, 0);
    CharAt(s, i, |s| - 1);
  }

  // ---- the pattern, part by part -----------------------------------------

  /** What stands between the dots. */
  function Parts(s: string): (parts: seq<string>)
    ensures parts != []
    decreases |s|
  {
    var i := IndexByte(s, '.');
    if i == |s| then [s] else [s[..i]] + Parts(s[i + 1..])
  }

  function Dotted(parts: seq<string>): string
    requires parts != []
  {
    if |parts| == 1 then parts[0] else parts[0] + ['.'] + Dotted(parts[1..])
  }

  lemma {:induction false} DottedParts(s: string)
    ensures Dotted(Parts(s)) == s && forall k :: 0 <= k < |Parts(s)| ==> Lacks(Parts(s)[k], '.')
    decreases |s|
  {
    var i := IndexByte(s, '.');
    if i < |s| {
      DottedParts(s[i + 1..]);
      assert Parts(s)[1..] == Parts(s[i + 1..]);
      SplitAt(s, i);
    }
  }

  /** A lower-case letter or digit at each end, and these or hyphens in between. */
  predicate IsLabel(s: string) {
    && s != "" && s[0] != '-' && s[|s| - 1] != '-'
    && forall k :: 0 <= k < |s| ==> 'a' <= s[k] <= 'z' || '0' <= s[k] <= '9' || s[k] == '-'
  }

  /** Two lower-case letters at least. */
  predicate IsTopLevel(s: string) {
    2 <= |s| && forall k :: 0 <= k < |s| ==> 'a' <= s[k] <= 'z'
  }

  predicate AllLabels(parts: seq<string>) {
    forall k :: 0 <= k < |parts| ==> IsLabel(parts[k])
  }

  lemma {:induction false} LabelsAreParts(s: string)
    ensures Labels(s) <==> AllLabels(Parts(s))
    decreases |s|
  {
    var i := IndexByte(s, '.');
    if i < |s| {
      var first, more := s[..i], Parts(s[i + 1..]);
      LabelsAreParts(s[i + 1..]);
      LabelsCons(first, more);
    } else {
      LabelsCons(s, []);
      assert [s] + [] == [s];
    }
  }

  lemma LabelsCons(first: string, more: seq<string>)
    ensures AllLabels([first] + more) <==> IsLabel(first) && AllLabels(more)
  {
    var all := [first] + more;
    if AllLabels(all) {
      assert IsLabel(all[0]);
      forall k | 0 <= k < |more| ensures IsLabel(more[k]) {
        assert all[k + 1] == more[k];
      }
    }
  }

  lemma PartsCons(first: string, rest: string)
    requires Lacks(first, '.')
    ensures Parts(first + ['.'] + rest) == [first] + Parts(rest)
  {
    CutAt(first, '.', rest);
  }

  /** The parts are the only ones without dots that make up the name. */
  lemma {:induction false} PartsOfDotted(parts: seq<string>)
    requires parts != [] && forall k :: 0 <= k < |parts| ==> Lacks(parts[k], '.')
    ensures Parts(Dotted(parts)) == parts
  {
    if |parts| == 1 {
      NoCut(parts[0], '.');
    } else {
      PartsOfDotted(parts[1..]);
      PartsCons(parts[0], Dotted(parts[1..]));
      assert parts == [parts[0]] + parts[1..];
    }
  }

  lemma Regrouped(first: string, rest: string, last: string)
    ensures first + ['.'] + rest + ['.'] + last == first + ['.'] + (rest + ['.'] + last)
  {}

  lemma {:induction false} PartsSnoc(s: string, last: string)
    requires Lacks(last, '.')
    ensures Parts(s + ['.'] + last) == Parts(s) + [last]
    decreases |s|
  {
    var i := IndexByte(s, '.');
    if i == |s| {
      PartsCons(s, last);
      NoCut(last, '.');
    } else {
      var first, rest := s[..i], s[i + 1..];
      SplitAt(s, i);
      Regrouped(first, rest, last);
      PartsSnoc(rest, last);
      PartsCons(first, rest + ['.'] + last);
      Collections.Glue([first], Parts(rest), [last]);
    }
  }

  lemma PartsAtLast(s: string, i: nat)
    requires i < |s| && s[i] == '.' && Lacks(s[i + 1..], '.')
    ensures Parts(s) == Parts(s[..i]) + [s[i + 1..]]
  {
    SplitAt(s, i);
    PartsSnoc(s[..i], s[i + 1..]);
  }

  lemma SplitAt(s: string, i: nat)
    requires i < |s| && s[i] == '.'
    ensures s[..i] + ['.'] + s[i + 1..] == s
  {}

  lemma FrontOf<T>(a: seq<T>, x: T)
    ensures (a + [x])[..|a|] == a
  {}

  lemma TopLevelLacksDots(s: string)
    requires TopLevel(s)
    ensures Lacks(s, '.')
  {}

  lemma {:induction false} LastDot(s: string) returns (i: nat)
    requires !Lacks(s, '.')
    ensures i < |s| && s[i] == '.' && Lacks(s[i + 1..], '.')
  {
    var n := |s| - 1;
    if s[n] == '.' {
      i := n;
    } else {
      assert !Lacks(s[..n], '.') by {
        var k :| 0 <= k < |s| && s[k] == '.';
        assert s[..n][k] == '.';
      }
      i := LastDot(s[..n]);
      assert s[i + 1..] == s[..n][i + 1..] + [s[n]];
    }
  }

  /** Two parts or more: labels, and then a top-level domain. */
  predicate LabelsAndTop(parts: seq<string>) {
    var n := |parts| - 1;
    1 <= n && AllLabels(parts[..n]) && IsTopLevel(parts[n])
  }

  lemma QualifiedParts(s: string)
    requires QualifiedName(s)
    ensures LabelsAndTop(Parts(s))
  {
    var i :| 0 <= i < |s| && s[i] == '.' && Labels(s[..i]) && TopLevel(s[i + 1..]);
    TopLevelLacksDots(s[i + 1..]);
    PartsAtLast(s, i);
    LabelsAreParts(s[..i]);
    FrontOf(Parts(s[..i]), s[i + 1..]);
  }

  lemma PartsQualify(s: string)
    requires LabelsAndTop(Parts(s))
    ensures QualifiedName(s)
  {
    if Lacks(s, '.') { NoCut(s, '.'); }
    var i := LastDot(s);
    PartsAtLast(s, i);
    LabelsAreParts(s[..i]);
    FrontOf(Parts(s[..i]), s[i + 1..]);
  }

  /** A name is fully qualified if and only if its parts are two or more, labels and then a top-level domain. */
  lemma QualifiedIff(s: string)
    ensures QualifiedName(s) <==> LabelsAndTop(Parts(s))
  {
    if QualifiedName(s) { QualifiedParts(s); }
    if LabelsAndTop(Parts(s)) { PartsQualify(s); }
  }

  /** The domains that the handlers accept. */
  lemma ValidDomainIff(loopbackIp: string -> bool, raw: string)
    ensures ValidDomain(loopbackIp, raw) <==>
      var d := TrimSpace(raw);
      d != "" && ByteLength(d) <= 253 && (IsLoopbackDomain(loopbackIp, d) || LabelsAndTop(Parts(Lower(d))))
  {
    QualifiedIff(Lower(TrimSpace(raw)));
  }

  lemma Plainly(s: string)
    requires s != "" && forall k :: 0 <= k < |s| ==> LowerChar(s[k]) == s[k] && !IsSpace(s[k])
    ensures TrimSpace(Lower(s)) == s
  {
    assert Lower(s) == s;
  }

  /** A name in lower case that is a loopback domain: this name, one below it, or a loopback address. */
  lemma LoopbackIff(loopbackIp: string -> bool, s: string)
    requires s != "" && forall k :: 0 <= k < |s| ==> !('A' <= s[k] <= 'Z') && ' ' < s[k] < '\U{007f}'
    ensures IsLoopbackDomain(loopbackIp, s) <==>
            s == "localhost" || (|s| >= 10 && s[|s| - 10..] == ".localhost") || loopbackIp(s)
  {
    Plainly(s);
  }

  /** The case of a letter makes no difference. */
  lemma LoopbackIgnoresCase(loopbackIp: string -> bool, s: string)
    ensures IsLoopbackDomain(loopbackIp, s) <==> IsLoopbackDomain(loopbackIp, Lower(s))
  {
    assert Lower(Lower(s)) == Lower(s);
  }
}
