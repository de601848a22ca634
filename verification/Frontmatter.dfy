/** A document's YAML block, after internal/frontmatter/frontmatter.go: its bounds, and the text added to it. */
module Frontmatter {
  import opened Common
  import opened Text

  function TrimCR(s: string): string {
    if s != "" && s[|s| - 1] == '\r' then TrimCR(s[..|s| - 1]) else s
  }

  /** Up to the first newline. */
  function FirstLine(s: string): (line: string)
    ensures '\n' !in line && line <= s
    ensures |line| < |s| ==> s[|line|] == '\n'
  {
    if s == "" || s[0] == '\n' then "" else [s[0]] + FirstLine(s[1..])
  }

  predicate Opening(line: string) {
    TrimCR(line) == "---"
  }

  predicate Closing(line: string) {
    TrimCR(line) == "---" || TrimCR(line) == "..."
  }

  predicate WholeLines(s: string) {
    s == "" || s[|s| - 1] == '\n'
  }

  predicate NoClosing(s: string) {
    s == "" || (var line := FirstLine(s);
                !Closing(line) && (|line| < |s| ==> NoClosing(s[|line| + 1..])))
  }

  /** A document in three: the opening line, the YAML, which is whole lines and holds no closing line, and
    * what begins with the closing line. */
  ghost predicate IsSplit(content: string, head: string, yml: string, tail: string) {
    && content == head + yml + tail
    && head != "" && head[|head| - 1] == '\n' && '\n' !in head[..|head| - 1] && Opening(head[..|head| - 1])
    && WholeLines(yml) && NoClosing(yml)
    && Closing(FirstLine(tail))
  }

  /** Where the first closing line begins. */
  function ClosingAt(s: string): (at: Option<nat>)
    ensures at.Some? ==> at.value <= |s|
    decreases |s|
  {
    var line := FirstLine(s);
    if Closing(line) then Some(0)
    else if |line| == |s| then None
    else
      var rest := ClosingAt(s[|line| + 1..]);
      if rest.None? then None else Some(|line| + 1 + rest.value)
  }

  lemma {:induction false} FirstLineEnds(line: string, rest: string)
    requires '\n' !in line
    ensures FirstLine(line + ['\n'] + rest) == line
  {
    var s := line + ['\n'] + rest;
    if line != "" {
      assert s[1..] == line[1..] + ['\n'] + rest;
      FirstLineEnds(line[1..], rest);
    }
  }

  lemma {:induction false} FirstLineOfLines(s: string, t: string)
    requires WholeLines(s) && s != ""
    ensures FirstLine(s + t) == FirstLine(s) && |FirstLine(s)| < |s|
    ensures WholeLines(s[|FirstLine(s)| + 1..])
  {
    var line := FirstLine(s);
    assert '\n' in s && (|line| == |s| ==> line == s);
    var rest := s[|line| + 1..];
    assert s == line + ['\n'] + rest;
    FirstLineEnds(line, rest + t);
    assert s + t == line + ['\n'] + (rest + t);
  }

  lemma {:induction false} ClosingAtStep(s: string)
    ensures var line := FirstLine(s);
            ClosingAt(s) == if Closing(line) then Some(0)
                            else if |line| == |s| then None
                            else var rest := ClosingAt(s[|line| + 1..]);
                                 if rest.None? then None else Some(|line| + 1 + rest.value)
  {
    hide Closing, FirstLine;
  }

  lemma {:induction false} NoClosingStep(s: string)
    requires s != ""
    ensures var line := FirstLine(s);
            NoClosing(s) <==> !Closing(line) && (|line| < |s| ==> NoClosing(s[|line| + 1..]))
  {
    hide Closing, FirstLine;
  }

  lemma {:induction false} ClosingBehindLines(yml: string, tail: string)
    requires WholeLines(yml) && NoClosing(yml) && Closing(FirstLine(tail))
    ensures ClosingAt(yml + tail) == Some(|yml|)
    decreases |yml|
  {
    hide Closing, FirstLine, ClosingAt, NoClosing;
    ClosingAtStep(yml + tail);
    if yml == "" {
      assert yml + tail == tail;
    } else {
      FirstLineOfLines(yml, tail);
      NoClosingStep(yml);
      var line := FirstLine(yml);
      ClosingBehindLines(yml[|line| + 1..], tail);
      assert (yml + tail)[|line| + 1..] == yml[|line| + 1..] + tail;
    }
  }

  /** One more line in front. */
  lemma LineInFront(line: string, rest: string)
    requires '\n' !in line && !Closing(line) && WholeLines(rest) && NoClosing(rest)
    ensures WholeLines(line + ['\n'] + rest) && NoClosing(line + ['\n'] + rest)
  {
    hide Closing, FirstLine, NoClosing;
    var s := line + ['\n'] + rest;
    FirstLineEnds(line, rest);
    NoClosingStep(s);
    assert s[|line| + 1..] == rest;
  }

  lemma {:induction false} LinesBeforeClosing(s: string)
    requires ClosingAt(s).Some?
    ensures var n := ClosingAt(s).value;
            WholeLines(s[..n]) && NoClosing(s[..n]) && Closing(FirstLine(s[n..]))
    decreases |s|
  {
    ClosingAtStep(s);
    NoLines();
    hide Closing, FirstLine, ClosingAt, NoClosing;
    var line := FirstLine(s);
    if Closing(line) {
      assert s[0..] == s && s[..0] == "";
    } else {
      var rest := s[|line| + 1..];
      LinesBeforeClosing(rest);
      var n := ClosingAt(s).value;
      var m := n - |line| - 1;
      assert s[n..] == rest[m..];
      assert s[..n] == line + ['\n'] + rest[..m];
      LineInFront(line, rest[..m]);
    }
  }

  lemma NoLines()
    ensures WholeLines("") && NoClosing("")
  {
  }

  /** The first line and the first closing line behind it say where a document is split. */
  lemma SplitPlaces(content: string, head: string, yml: string, tail: string)
    requires IsSplit(content, head, yml, tail)
    ensures var n := |FirstLine(content)| + 1;
            && n <= |content| && head == content[..n] && yml + tail == content[n..]
            && ClosingAt(content[n..]) == Some(|yml|)
  {
    hide Opening, Closing, NoClosing, WholeLines, FirstLine, ClosingAt;
    var line := head[..|head| - 1];
    assert head == line + ['\n'];
    assert content == line + ['\n'] + (yml + tail);
    FirstLineEnds(line, yml + tail);
    ClosingBehindLines(yml, tail);
    assert content[|head|..] == yml + tail;
  }

  /** A document can be split in one way only. */
  lemma SplitUnique(content: string, head: string, yml: string, tail: string, head': string, yml': string, tail': string)
    requires IsSplit(content, head, yml, tail) && IsSplit(content, head', yml', tail')
    ensures head == head' && yml == yml' && tail == tail'
  {
    hide IsSplit, FirstLine, ClosingAt;
    SplitPlaces(content, head, yml, tail);
    SplitPlaces(content, head', yml', tail');
    assert yml == (yml + tail)[..|yml|] && tail == (yml + tail)[|yml|..];
    assert yml' == (yml' + tail')[..|yml'|] && tail' == (yml' + tail')[|yml'|..];
  }

  lemma {:induction false} LinesAppend(a: string, b: string)
    requires WholeLines(a) && NoClosing(a) && WholeLines(b) && NoClosing(b)
    ensures WholeLines(a + b) && NoClosing(a + b)
    decreases |a|
  {
    hide Closing, FirstLine, NoClosing;
    if a == "" {
      assert a + b == b;
    } else {
      var line := FirstLine(a);
      FirstLineOfLines(a, "");
      NoClosingStep(a);
      var rest := a[|line| + 1..];
      LinesAppend(rest, b);
      NewlineAfter(a);
      assert a + b == line + ['\n'] + (rest + b);
      LineInFront(line, rest + b);
    }
  }

  lemma NewlineAfter(s: string)
    ensures var line := FirstLine(s);
            '\n' !in line && line <= s && (|line| < |s| ==> s == line + ['\n'] + s[|line| + 1..])
  {
  }

  /** `split` finds the one way to split a document, or there is none. */
  method FindSplit(content: string) returns (head: string, yml: string, tail: string, ok: bool)
    ensures ok ==> IsSplit(content, head, yml, tail)
    ensures !ok ==> forall h, y, t :: !IsSplit(content, h, y, t)
  {
    hide Opening, Closing, NoClosing, FirstLine, ClosingAt, IsSplit;
    var first := FirstLine(content);
    NewlineAfter(content);
    if |first| == |content| || !Opening(first) {
      NoSplitWithoutOpening(content);
      return "", "", "", false;
    }
    head := content[..|first| + 1];
    var rest := content[|first| + 1..];
    var off := 0;
    assert rest[0..] == rest;
    while off <= |rest|
      invariant 0 <= off <= |rest|
      invariant ClosingAt(rest) == (var at := ClosingAt(rest[off..]); if at.None? then None else Some(off + at.value))
      decreases |rest| - off
    {
      var line := FirstLine(rest[off..]);
      ClosingAtStep(rest[off..]);
      NewlineAfter(rest[off..]);
      if Closing(line) {
        SplitAtClosing(content);
        return head, rest[..off], rest[off..], true;
      }
      if |line| == |rest[off..]| {
        break;
      }
      assert rest[off..][|line| + 1..] == rest[off + |line| + 1..];
      off := off + |line| + 1;
    }
    NoSplitWithoutClosing(content);
    return "", "", "", false;
  }

  lemma SplitParts(content: string, head: string, yml: string, tail: string)
    requires IsSplit(content, head, yml, tail)
    ensures var first := FirstLine(content);
            |first| < |content| && Opening(first) && ClosingAt(content[|first| + 1..]) == Some(|yml|)
  {
    hide Opening, Closing, NoClosing, FirstLine, ClosingAt;
    var line := head[..|head| - 1];
    assert content == line + ['\n'] + (yml + tail);
    FirstLineEnds(line, yml + tail);
    ClosingBehindLines(yml, tail);
    assert content[|line| + 1..] == yml + tail;
  }

  lemma NoSplitWithoutOpening(content: string)
    requires var first := FirstLine(content); |first| == |content| || !Opening(first)
    ensures forall h, y, t :: !IsSplit(content, h, y, t)
  {
    hide IsSplit, FirstLine, Opening, ClosingAt;
    forall h, y, t | IsSplit(content, h, y, t) ensures false {
      SplitParts(content, h, y, t);
    }
  }

  lemma NoSplitWithoutClosing(content: string)
    requires var first := FirstLine(content); |first| < |content| && ClosingAt(content[|first| + 1..]).None?
    ensures forall h, y, t :: !IsSplit(content, h, y, t)
  {
    hide IsSplit, FirstLine, Opening, ClosingAt;
    forall h, y, t | IsSplit(content, h, y, t) ensures false {
      SplitParts(content, h, y, t);
    }
  }

  lemma SplitAtClosing(content: string)
    requires var first := FirstLine(content);
             |first| < |content| && Opening(first) && ClosingAt(content[|first| + 1..]).Some?
    ensures var first := FirstLine(content);
            var rest := content[|first| + 1..];
            var n := ClosingAt(rest).value;
            IsSplit(content, content[..|first| + 1], rest[..n], rest[n..])
  {
    hide Opening, Closing, NoClosing, FirstLine, ClosingAt;
    NewlineAfter(content);
    var first := FirstLine(content);
    var rest := content[|first| + 1..];
    LinesBeforeClosing(rest);
    assert content[..|first| + 1][..|first|] == first;
    var n := ClosingAt(rest).value;
    assert rest == rest[..n] + rest[n..];
  }

  //
  // The text that is added
  //

  datatype Additions = Additions(clients: seq<int>, projects: seq<int>, topics: seq<string>)

  /** The first of each, in order. */
  function Distinct<T(==)>(xs: seq<T>): seq<T> {
    if xs == [] then []
    else
      var before := Distinct(xs[..|xs| - 1]);
      if xs[|xs| - 1] in before then before else before + [xs[|xs| - 1]]
  }

  lemma {:induction false} DistinctKeepsEach<T>(xs: seq<T>)
    ensures forall x :: x in Distinct(xs) <==> x in xs
    ensures forall i, j :: 0 <= i < j < |Distinct(xs)| ==> Distinct(xs)[i] != Distinct(xs)[j]
  {
    if xs != [] {
      DistinctKeepsEach(xs[..|xs| - 1]);
      assert xs == xs[..|xs| - 1] + [xs[|xs| - 1]];
    }
  }

  function Mapped<T>(xs: seq<T>, f: T -> string): (parts: seq<string>)
    ensures |parts| == |xs| && forall i :: 0 <= i < |xs| ==> parts[i] == f(xs[i])
  {
    if xs == [] then [] else Mapped(xs[..|xs| - 1], f) + [f(xs[|xs| - 1])]
  }

  function Bracketed(parts: seq<string>): string {
    "[" + JoinWith(parts, ", ") + "]"
  }

  /** strings.Join. */
  function JoinWith(parts: seq<string>, sep: string): string {
    if parts == [] then "" else if |parts| == 1 then parts[0] else parts[0] + sep + JoinWith(parts[1..], sep)
  }

  /** strconv.FormatInt in base ten. */
  function Number(n: int): string {
    if n < 0 then "-" + Decimal(-n) else Decimal(n)
  }

  /** Each distinct value once, as the loops of `intList` and `block` write it. */
  method List<T(==)>(xs: seq<T>, f: T -> string) returns (s: string)
    ensures s == Bracketed(Mapped(Distinct(xs), f))
  {
    hide JoinWith;
    var seen: set<T>, parts: seq<string> := {}, [];
    for i := 0 to |xs|
      invariant forall x :: x in seen <==> x in Distinct(xs[..i])
      invariant parts == Mapped(Distinct(xs[..i]), f)
    {
      assert xs[..i + 1][..i] == xs[..i];
      if xs[i] in seen {
        continue;
      }
      seen := seen + {xs[i]};
      assert (Distinct(xs[..i]) + [xs[i]])[..|parts|] == Distinct(xs[..i]);
      parts := parts + [f(xs[i])];
    }
    assert xs[..|xs|] == xs;
    return "[" + JoinWith(parts, ", ") + "]";
  }

  function Hex(n: nat, digits: nat): string {
    if digits == 0 then "" else Hex(n / 16, digits - 1) + ["0123456789abcdef"[n % 16]]
  }

  /** strconv.IsPrint; beyond ASCII it is what `wide` says. */
  predicate Printable(c: char, wide: char -> bool) {
    if c < 128 as char then ' ' <= c <= '~' else wide(c)
  }

  function QuotedChar(c: char, wide: char -> bool): string {
    if c == '\"' || c == '\\' then ['\\', c]
    else if Printable(c, wide) then [c]
    else
      var u := c as int;
      if u == 7 then "\\a" else if u == 8 then "\\b" else if u == 12 then "\\f" else if u == 10 then "\\n"
      else if u == 13 then "\\r" else if u == 9 then "\\t" else if u == 11 then "\\v"
      else if u < 32 || u == 127 then "\\x" + Hex(u, 2)
      else if u < 0x1_0000 then "\\u" + Hex(u, 4)
      else "\\U" + Hex(u, 8)
  }

  function QuotedChars(s: string, wide: char -> bool): string {
    if s == "" then "" else QuotedChar(s[0], wide) + QuotedChars(s[1..], wide)
  }

  /** strconv.Quote. */
  function Quote(s: string, wide: char -> bool): string {
    "\"" + QuotedChars(s, wide) + "\""
  }

  predicate OneLine(s: string) {
    '\n' !in s
  }

  lemma {:induction false} HexOneLine(n: nat, digits: nat)
    ensures OneLine(Hex(n, digits))
  {
    if digits > 0 {
      HexOneLine(n / 16, digits - 1);
    }
  }

  lemma {:induction false} QuoteOneLine(s: string, wide: char -> bool)
    ensures OneLine(QuotedChars(s, wide))
  {
    if s != "" {
      HexOneLine(s[0] as int, 2);
      HexOneLine(s[0] as int, 4);
      HexOneLine(s[0] as int, 8);
      QuoteOneLine(s[1..], wide);
    }
  }

  lemma {:induction false} JoinOneLine(parts: seq<string>)
    requires forall i :: 0 <= i < |parts| ==> OneLine(parts[i])
    ensures OneLine(JoinWith(parts, ", "))
  {
    if |parts| > 1 {
      JoinOneLine(parts[1..]);
    }
  }

  function Ids(ids: seq<int>): string {
    Bracketed(Mapped(Distinct(ids), Number))
  }

  function Topics(topics: seq<string>, wide: char -> bool): string {
    Bracketed(Mapped(Distinct(topics), t => Quote(t, wide)))
  }

  function KeyLine(key: string, list: string): string {
    key + list + ['\n']
  }

  function ListLine(key: string, empty: bool, list: string): string {
    if empty then "" else KeyLine(key, list)
  }

  /** The additions as frontmatter lines. */
  function BlockText(a: Additions, wide: char -> bool): string {
    ListLine("jiku:", a.clients == [] && a.projects == [], "")
    + ListLine("  clients: ", a.clients == [], Ids(a.clients))
    + ListLine("  projects: ", a.projects == [], Ids(a.projects))
    + ListLine("topics: ", a.topics == [], Topics(a.topics, wide))
  }

  method Block(a: Additions, wide: char -> bool) returns (b: string)
    ensures b == BlockText(a, wide)
  {
    hide Bracketed, Mapped, Distinct;
    b := "";
    if a.clients != [] || a.projects != [] {
      b := b + "jiku:\n";
      if a.clients != [] {
        var list := List(a.clients, Number);
        b := b + ("  clients: " + list + "\n");
      }
      if a.projects != [] {
        var list := List(a.projects, Number);
        b := b + ("  projects: " + list + "\n");
      }
    }
    assert b == ListLine("jiku:", a.clients == [] && a.projects == [], "")
                + ListLine("  clients: ", a.clients == [], Ids(a.clients))
                + ListLine("  projects: ", a.projects == [], Ids(a.projects));
    b := AddTopics(b, a.topics, wide);
  }

  method AddTopics(before: string, topics: seq<string>, wide: char -> bool) returns (b: string)
    ensures b == before + ListLine("topics: ", topics == [], Topics(topics, wide))
  {
    hide Bracketed, Mapped, Distinct;
    b := before;
    if topics != [] {
      var list := List(topics, t => Quote(t, wide));
      b := b + ("topics: " + list + "\n");
    }
  }

  lemma {:induction false} TrimCRPrefix(s: string)
    ensures TrimCR(s) <= s
  {
    if s != "" && s[|s| - 1] == '\r' {
      TrimCRPrefix(s[..|s| - 1]);
    }
  }

  lemma NotClosing(line: string)
    requires line != "" && line[0] != '-' && line[0] != '.'
    ensures !Closing(line)
  {
    TrimCRPrefix(line);
    hide TrimCR;
    var t := TrimCR(line);
    assert t != "" ==> t[0] == line[0];
    assert "---"[0] == '-' && "..."[0] == '.';
  }

  /** A line of the block is whole, is one line, and does not close the frontmatter. */
  lemma KeyLineHolds(key: string, list: string)
    requires key != "" && key[0] != '-' && key[0] != '.' && OneLine(key) && OneLine(list)
    ensures WholeLines(KeyLine(key, list)) && NoClosing(KeyLine(key, list))
  {
    hide Closing, NoClosing;
    var line := key + list;
    NotClosing(line);
    NoLines();
    LineInFront(line, "");
    assert KeyLine(key, list) == line + ['\n'] + "";
  }

  lemma IdsOneLine(ids: seq<int>)
    ensures OneLine(Ids(ids))
  {
    var parts := Mapped(Distinct(ids), Number);
    hide Decimal, JoinWith, Mapped, Distinct;
    JoinOneLine(parts);
  }

  lemma TopicsOneLine(topics: seq<string>, wide: char -> bool)
    ensures OneLine(Topics(topics, wide))
  {
    var names := Distinct(topics);
    var parts := Mapped(names, t => Quote(t, wide));
    hide JoinWith, QuotedChars, Distinct;
    forall i | 0 <= i < |parts| ensures OneLine(parts[i]) {
      QuoteOneLine(names[i], wide);
    }
    JoinOneLine(parts);
  }

  lemma BlockHolds(a: Additions, wide: char -> bool)
    ensures WholeLines(BlockText(a, wide)) && NoClosing(BlockText(a, wide))
  {
    hide NoClosing, Ids, Topics, KeyLine, WholeLines;
    NoLines();
    IdsOneLine(a.clients);
    IdsOneLine(a.projects);
    TopicsOneLine(a.topics, wide);
    KeyLineHolds("jiku:", "");
    KeyLineHolds("  clients: ", Ids(a.clients));
    KeyLineHolds("  projects: ", Ids(a.projects));
    KeyLineHolds("topics: ", Topics(a.topics, wide));
    var jiku := ListLine("jiku:", a.clients == [] && a.projects == [], "");
    var clients := ListLine("  clients: ", a.clients == [], Ids(a.clients));
    var projects := ListLine("  projects: ", a.projects == [], Ids(a.projects));
    LinesAppend(jiku, clients);
    LinesAppend(jiku + clients, projects);
    LinesAppend(jiku + clients + projects, ListLine("topics: ", a.topics == [], Topics(a.topics, wide)));
  }

  //
  // Adding it
  //

  /** Which of the keys the top-level mapping of some YAML has; None for YAML that is not a mapping. */
  datatype Keys = Keys(jiku: bool, topics: bool)

  /** What `Add` did: nothing to do, text written, refused, or the YAML edited node by node, which is not
    * part of this model. */
  datatype Added = Same | Written(content: string) | NotAMapping | Edited

  predicate Blank(s: string) {
    forall i :: 0 <= i < |s| ==> IsSpace(s[i])
  }

  function Empty(a: Additions): bool {
    a.clients == [] && a.projects == [] && a.topics == []
  }

  /** `Add` on its text paths: everything outside the YAML is kept byte for byte, and splitting what was
    * written gives the YAML with exactly the block added. */
  method Add(content: string, a: Additions, yaml: string -> Option<Keys>, wide: char -> bool) returns (r: Added)
    ensures Empty(a) ==> r == Same
    ensures !Empty(a) && (forall h, y, t :: !IsSplit(content, h, y, t)) ==>
              r.Written? && IsSplit(r.content, "---\n", BlockText(a, wide), "---\n" + content)
    ensures !Empty(a) ==> forall h, y, t :: IsSplit(content, h, y, t) ==>
              if Blank(y) then r.Written? && IsSplit(r.content, h, BlockText(a, wide), t)
              else if yaml(y).None? then r.NotAMapping?
              else if !yaml(y).value.jiku && !yaml(y).value.topics then
                r.Written? && IsSplit(r.content, h, y + BlockText(a, wide), t)
              else r.Edited?
  {
    hide IsSplit, BlockText;
    if Empty(a) {
      return Same;
    }
    var block := Block(a, wide);
    var head, yml, tail, ok := FindSplit(content);
    if !ok {
      NewFrontmatter(content, a, wide);
      return Written("---\n" + block + "---\n" + content);
    }
    forall h, y, t | IsSplit(content, h, y, t) ensures h == head && y == yml && t == tail {
      SplitUnique(content, h, y, t, head, yml, tail);
    }
    if Blank(yml) {
      Refilled(content, head, yml, tail, "", block, a, wide);
      return Written(head + block + tail);
    }
    var m := yaml(yml);
    if m.None? {
      return NotAMapping;
    }
    if !m.value.jiku && !m.value.topics {
      YamlEndsInNewline(content, head, yml, tail);
      var kept := yml;
      if !HasSuffix(yml, "\n") {
        kept := kept + "\n";
      }
      Refilled(content, head, yml, tail, yml, block, a, wide);
      return Written(head + (kept + block) + tail);
    }
    return Edited;
  }

  /** The newline `Add` puts after YAML that lacks one is never needed. */
  lemma YamlEndsInNewline(content: string, head: string, yml: string, tail: string)
    requires IsSplit(content, head, yml, tail)
    ensures yml != "" ==> HasSuffix(yml, "\n")
  {
  }

  /** Replacing the YAML by the same YAML or none, and the block behind it. */
  lemma Refilled(content: string, head: string, yml: string, tail: string, kept: string, block: string, a: Additions, wide: char -> bool)
    requires IsSplit(content, head, yml, tail) && (kept == "" || kept == yml) && block == BlockText(a, wide)
    ensures IsSplit(head + (kept + block) + tail, head, kept + block, tail)
    ensures kept == "" ==> head + (kept + block) + tail == head + block + tail && kept + block == block
  {
    hide NoClosing, Closing, Opening, BlockText;
    NoLines();
    BlockHolds(a, wide);
    LinesAppend(kept, block);
    assert kept == "" ==> kept + block == block;
  }

  lemma NewFrontmatter(content: string, a: Additions, wide: char -> bool)
    ensures IsSplit("---\n" + BlockText(a, wide) + "---\n" + content, "---\n", BlockText(a, wide), "---\n" + content)
  {
    hide NoClosing, BlockText;
    BlockHolds(a, wide);
    assert "---\n"[..3] == "---";
    FirstLineEnds("---", content);
    assert "---\n" + content == "---" + ['\n'] + content;
    assert "---\n" + BlockText(a, wide) + "---\n" + content == "---\n" + BlockText(a, wide) + ("---\n" + content);
    assert Opening("---") && Closing("---");
  }
}
