/** Reading back what internal/frontmatter/frontmatter.go adds: its lines, lists, numbers and quoted strings, as
 * a YAML reader takes them. */
module FrontmatterReading {
  import opened Common
  import opened Text
  import opened Frontmatter

  // ---- numbers -----------------------------------------------------------------

  function Digits(s: string): (d: string)
    ensures AllDigits(d) && d <= s
  {
    if s == "" || !IsDigit(s[0]) then "" else [s[0]] + Digits(s[1..])
  }

  /** A whole number, and what comes behind it. */
  function ReadNumber(s: string): Option<(int, string)> {
    var t := if s != "" && s[0] == '-' then s[1..] else s;
    var d := Digits(t);
    var n: int := Value(d);
    if d == "" then None else Some((if t == s then n else -n, t[|d|..]))
  }

  /** What may come behind an item of a list. */
  predicate Stops(rest: string) {
    rest != "" && (rest[0] == ',' || rest[0] == ']')
  }

  lemma {:induction false} DigitsRead(d: string, rest: string)
    requires AllDigits(d) && (rest == "" || !IsDigit(rest[0]))
    ensures Digits(d + rest) == d
  {
    if d == "" {
      assert d + rest == rest;
    } else {
      DigitsRead(d[1..], rest);
      assert (d + rest)[1..] == d[1..] + rest;
    }
  }

  lemma NumberRead(n: int, rest: string)
    requires Stops(rest)
    ensures ReadNumber(Number(n) + rest) == Some((n, rest))
  {
    var d := Decimal(if n < 0 then -n else n);
    DigitsRead(d, rest);
    DecimalValue(if n < 0 then -n else n);
    hide Decimal, Value, Digits;
    assert (d + rest)[|d|..] == rest && (d + rest)[0] == d[0];
    assert ("-" + d + rest)[1..] == d + rest;
  }

  // ---- quoted strings ------------------------------------------------------------

  function HexDigit(c: char): Option<nat> {
    if '0' <= c <= '9' then Some(c as int - 48) else if 'a' <= c <= 'f' then Some(c as int - 87) else None
  }

  /** The number of so many hexadecimal digits, after those read already. */
  function ReadHex(s: string, digits: nat, read: nat): Option<(nat, string)> {
    if digits == 0 then Some((read, s))
    else if s == "" || HexDigit(s[0]).None? then None
    else ReadHex(s[1..], digits - 1, 16 * read + HexDigit(s[0]).value)
  }

  predicate IsScalar(n: int) {
    0 <= n < 0xD800 || 0xE000 <= n < 0x11_0000
  }

  function ReadCode(s: string, digits: nat): Option<(char, string)> {
    match ReadHex(s, digits, 0)
    case None => None
    case Some(r) => if IsScalar(r.0) then Some((r.0 as char, r.1)) else None
  }

  /** One character of a quoted string, and what comes behind it. */
  function ReadChar(s: string): Option<(char, string)>
    requires s != ""
  {
    if s[0] != '\\' then Some((s[0], s[1..]))
    else if |s| == 1 then None
    else
      var rest := s[2..];
      match s[1]
      case '\"' => Some(('\"', rest))
      case '\\' => Some(('\\', rest))
      case 'a' => Some((7 as char, rest))
      case 'b' => Some((8 as char, rest))
      case 't' => Some((9 as char, rest))
      case 'n' => Some((10 as char, rest))
      case 'v' => Some((11 as char, rest))
      case 'f' => Some((12 as char, rest))
      case 'r' => Some((13 as char, rest))
      case 'x' => ReadCode(rest, 2)
      case 'u' => ReadCode(rest, 4)
      case 'U' => ReadCode(rest, 8)
      case _ => None
  }

  /** The characters up to the closing quote, and what comes behind it. */
  function ReadChars(s: string): Option<(string, string)>
    decreases |s|
  {
    if s == "" then None
    else if s[0] == '\"' then Some(("", s[1..]))
    else
      match ReadChar(s)
      case None => None
      case Some(c) =>
        if |c.1| >= |s| then None
        else
          match ReadChars(c.1)
          case None => None
          case Some(r) => Some(([c.0] + r.0, r.1))
  }

  function ReadQuoted(s: string): Option<(string, string)> {
    if s == "" || s[0] != '\"' then None else ReadChars(s[1..])
  }

  /** How many numbers have so many hexadecimal digits. */
  function Bound(digits: nat): nat {
    if digits == 0 then 1 else 16 * Bound(digits - 1)
  }

  function Shifted(n: nat, digits: nat): nat {
    if digits == 0 then n else 16 * Shifted(n, digits - 1)
  }

  lemma {:induction false} HexRead(n: nat, digits: nat, rest: string, more: nat, read: nat)
    requires n < Bound(digits)
    ensures ReadHex(Hex(n, digits) + rest, digits + more, read) == ReadHex(rest, more, Shifted(read, digits) + n)
  {
    if digits == 0 {
      assert Hex(n, digits) + rest == rest;
    } else {
      var c := "0123456789abcdef"[n % 16];
      HexRead(n / 16, digits - 1, [c] + rest, more + 1, read);
      assert Hex(n, digits) + rest == Hex(n / 16, digits - 1) + ([c] + rest);
      assert ([c] + rest)[1..] == rest;
      DigitIsRead(n % 16);
    }
  }

  lemma DigitIsRead(k: nat)
    requires k < 16
    ensures HexDigit("0123456789abcdef"[k]) == Some(k)
  {
  }

  lemma {:induction false} NothingShifted(digits: nat)
    ensures Shifted(0, digits) == 0
  {
    if digits > 0 {
      NothingShifted(digits - 1);
    }
  }

  lemma CodeRead(c: char, digits: nat, rest: string)
    requires c as int < Bound(digits)
    ensures ReadCode(Hex(c as int, digits) + rest, digits) == Some((c, rest))
  {
    HexRead(c as int, digits, rest, 0, 0);
    NothingShifted(digits);
  }

  lemma Bounds()
    ensures Bound(2) == 0x100 && Bound(4) == 0x1_0000 && Bound(8) == 0x1_0000_0000
  {
    assert Bound(3) == 0x1000 && Bound(5) == 0x10_0000 && Bound(6) == 0x100_0000 && Bound(7) == 0x1000_0000;
  }

  lemma CharRead(c: char, wide: char -> bool, rest: string)
    ensures var q := QuotedChar(c, wide);
            q != "" && q[0] != '\"' && ReadChar(q + rest) == Some((c, rest))
  {
    Bounds();
    var q, u := QuotedChar(c, wide), c as int;
    CodesRead(c, rest);
    hide ReadCode, Hex, Bound;
    if q[0] == '\\' {
      assert (q + rest)[0] == '\\' && (q + rest)[1] == q[1] && (q + rest)[2..] == q[2..] + rest;
    } else {
      assert (q + rest)[1..] == rest;
    }
  }

  lemma CodesRead(c: char, rest: string)
    ensures c as int < 0x100 ==> ReadCode(Hex(c as int, 2) + rest, 2) == Some((c, rest))
    ensures c as int < 0x1_0000 ==> ReadCode(Hex(c as int, 4) + rest, 4) == Some((c, rest))
    ensures ReadCode(Hex(c as int, 8) + rest, 8) == Some((c, rest))
  {
    Bounds();
    hide Bound, ReadCode, Hex;
    if c as int < 0x100 {
      CodeRead(c, 2, rest);
    }
    if c as int < 0x1_0000 {
      CodeRead(c, 4, rest);
    }
    CodeRead(c, 8, rest);
  }

  lemma {:induction false} CharsRead(s: string, wide: char -> bool, rest: string)
    ensures ReadChars(QuotedChars(s, wide) + "\"" + rest) == Some((s, rest))
  {
    hide QuotedChar, ReadChar;
    if s == "" {
      assert "" + "\"" + rest == "\"" + rest && ("\"" + rest)[1..] == rest;
    } else {
      var q, more := QuotedChar(s[0], wide), QuotedChars(s[1..], wide) + "\"" + rest;
      CharRead(s[0], wide, more);
      CharsRead(s[1..], wide, rest);
      assert QuotedChars(s, wide) + "\"" + rest == q + more;
      assert [s[0]] + s[1..] == s;
    }
  }

  /** strconv.Quote is read back, whatever counts as printable. */
  lemma QuotedRead(s: string, wide: char -> bool, rest: string)
    ensures ReadQuoted(Quote(s, wide) + rest) == Some((s, rest))
  {
    hide QuotedChars, ReadChars;
    CharsRead(s, wide, rest);
    assert (Quote(s, wide) + rest)[1..] == QuotedChars(s, wide) + "\"" + rest;
  }

  // ---- lists ---------------------------------------------------------------------

  /** Items up to the closing bracket. */
  function ReadItems<T>(s: string, item: string -> Option<(T, string)>): Option<seq<T>>
    decreases |s|
  {
    match item(s)
    case None => None
    case Some(r) =>
      if r.1 == "]" then Some([r.0])
      else if 2 <= |r.1| <= |s| && r.1[..2] == ", " then
        match ReadItems(r.1[2..], item)
        case None => None
        case Some(xs) => Some([r.0] + xs)
      else None
  }

  function ReadList<T>(s: string, item: string -> Option<(T, string)>): Option<seq<T>> {
    if s == "[]" then Some([]) else if s == "" || s[0] != '[' then None else ReadItems(s[1..], item)
  }

  lemma {:induction false} ItemsRead<T>(xs: seq<T>, parts: seq<string>, item: string -> Option<(T, string)>)
    requires xs != [] && |parts| == |xs|
    requires forall i, rest :: 0 <= i < |xs| && Stops(rest) ==> item(parts[i] + rest) == Some((xs[i], rest))
    ensures ReadItems(JoinWith(parts, ", ") + "]", item) == Some(xs)
  {
    if |xs| == 1 {
      assert Stops("]") && xs == [xs[0]];
    } else {
      var more := JoinWith(parts[1..], ", ") + "]";
      ItemsRead(xs[1..], parts[1..], item);
      var rest := ", " + more;
      assert Stops(rest) && rest[..2] == ", " && rest[2..] == more;
      assert JoinWith(parts, ", ") + "]" == parts[0] + rest;
      assert [xs[0]] + xs[1..] == xs;
    }
  }

  lemma ListRead<T>(xs: seq<T>, parts: seq<string>, item: string -> Option<(T, string)>)
    requires xs != [] && |parts| == |xs|
    requires forall i, rest :: 0 <= i < |xs| && Stops(rest) ==> item(parts[i] + rest) == Some((xs[i], rest))
    requires item("]").None?
    ensures ReadList(Bracketed(parts), item) == Some(xs)
  {
    ItemsRead(xs, parts, item);
    var inner := JoinWith(parts, ", ") + "]";
    hide JoinWith, ReadItems;
    assert Bracketed(parts) == "[" + inner && ("[" + inner)[1..] == inner;
    assert inner != "]" by { NothingRead(item); }
    assert "[]"[1..] == "]";
  }

  lemma NothingRead<T>(item: string -> Option<(T, string)>)
    requires item("]").None?
    ensures ReadItems("]", item).None?
  {
  }

  lemma IdsRead(ids: seq<int>)
    requires ids != []
    ensures ReadList(Ids(ids), ReadNumber) == Some(Distinct(ids))
  {
    DistinctKeepsEach(ids);
    var xs := Distinct(ids);
    assert ids[0] in xs;
    var parts := Mapped(xs, Number);
    forall i, rest | 0 <= i < |xs| && Stops(rest) ensures ReadNumber(parts[i] + rest) == Some((xs[i], rest)) {
      NumberRead(xs[i], rest);
    }
    assert Digits("]") == "";
    hide Number, ReadNumber, Mapped, Distinct, Bracketed;
    ListRead(xs, parts, ReadNumber);
  }

  lemma TopicsRead(topics: seq<string>, wide: char -> bool)
    requires topics != []
    ensures ReadList(Topics(topics, wide), ReadQuoted) == Some(Distinct(topics))
  {
    DistinctKeepsEach(topics);
    var xs := Distinct(topics);
    assert topics[0] in xs;
    var parts := Mapped(xs, t => Quote(t, wide));
    forall i, rest | 0 <= i < |xs| && Stops(rest) ensures ReadQuoted(parts[i] + rest) == Some((xs[i], rest)) {
      QuotedRead(xs[i], wide, rest);
    }
    assert ReadQuoted("]").None?;
    hide Quote, ReadQuoted, Mapped, Distinct, Bracketed;
    ListRead(xs, parts, ReadQuoted);
  }

  // ---- lines ---------------------------------------------------------------------

  /** What was read so far, and whether the mapping `jiku` is being read. */
  datatype Reading = Reading(inside: bool, a: Additions)

  const NOTHING := Reading(false, Additions([], [], []))

  /** The list behind a key. */
  function ListBehind<T>(line: string, key: string, item: string -> Option<(T, string)>): Option<seq<T>>
    requires key <= line
  {
    ReadList(line[|key|..], item)
  }

  /** One line: `clients` and `projects` are keys of `jiku`, and `topics` is a key of its own. */
  function ReadLine(st: Reading, line: string): Option<Reading> {
    if line == "jiku:" then Some(st.(inside := true))
    else if "  clients: " <= line && st.inside then
      match ListBehind(line, "  clients: ", ReadNumber)
      case None => None
      case Some(ids) => Some(st.(a := st.a.(clients := ids)))
    else if "  projects: " <= line && st.inside then
      match ListBehind(line, "  projects: ", ReadNumber)
      case None => None
      case Some(ids) => Some(st.(a := st.a.(projects := ids)))
    else if "topics: " <= line then
      match ListBehind(line, "topics: ", ReadQuoted)
      case None => None
      case Some(topics) => Some(Reading(false, st.a.(topics := topics)))
    else None
  }

  function ReadLines(st: Reading, s: string): Option<Additions>
    decreases |s|
  {
    if s == "" then Some(st.a)
    else
      var line := FirstLine(s);
      if |line| == |s| || ReadLine(st, line).None? then None
      else ReadLines(ReadLine(st, line).value, s[|line| + 1..])
  }

  lemma LineRead(st: Reading, line: string, rest: string)
    requires OneLine(line) && ReadLine(st, line).Some?
    ensures ReadLines(st, KeyLine(line, "") + rest) == ReadLines(ReadLine(st, line).value, rest)
  {
    hide ReadLine, FirstLine;
    FirstLineEnds(line, rest);
    var s := line + ['\n'] + rest;
    assert KeyLine(line, "") + rest == s && s[|line| + 1..] == rest;
  }

  /** A line that is not written if its list is empty. */
  lemma ListLineRead(st: Reading, next: Reading, key: string, empty: bool, list: string, rest: string)
    requires OneLine(key) && OneLine(list)
    requires if empty then next == st else ReadLine(st, key + list) == Some(next)
    ensures ReadLines(st, ListLine(key, empty, list) + rest) == ReadLines(next, rest)
  {
    hide ReadLine, ReadLines;
    if empty {
      assert "" + rest == rest;
    } else {
      LineRead(st, key + list, rest);
      assert KeyLine(key + list, "") == KeyLine(key, list);
    }
  }

  lemma ClientsRead(st: Reading, ids: seq<int>)
    requires st.inside && ids != []
    ensures ReadLine(st, "  clients: " + Ids(ids)) == Some(st.(a := st.a.(clients := Distinct(ids))))
  {
    IdsRead(ids);
    hide Ids, ReadList, Distinct;
    var key := "  clients: ";
    assert (key + Ids(ids))[|key|..] == Ids(ids) && key <= key + Ids(ids);
    assert (key + Ids(ids))[0] == ' ' != "jiku:"[0];
  }

  lemma ProjectsRead(st: Reading, ids: seq<int>)
    requires st.inside && ids != []
    ensures ReadLine(st, "  projects: " + Ids(ids)) == Some(st.(a := st.a.(projects := Distinct(ids))))
  {
    IdsRead(ids);
    hide Ids, ReadList, Distinct;
    var key := "  projects: ";
    assert (key + Ids(ids))[|key|..] == Ids(ids) && key <= key + Ids(ids);
    assert (key + Ids(ids))[0] == ' ' != "jiku:"[0] && (key + Ids(ids))[2] == 'p' != "  clients: "[2];
  }

  lemma TopicsLineRead(st: Reading, topics: seq<string>, wide: char -> bool)
    requires topics != []
    ensures ReadLine(st, "topics: " + Topics(topics, wide)) == Some(Reading(false, st.a.(topics := Distinct(topics))))
  {
    TopicsRead(topics, wide);
    hide Topics, ReadList, Distinct;
    var key := "topics: ";
    assert (key + Topics(topics, wide))[|key|..] == Topics(topics, wide) && key <= key + Topics(topics, wide);
    assert (key + Topics(topics, wide))[0] == 't' && "jiku:"[0] == 'j' && "  clients: "[0] == ' ' == "  projects: "[0];
  }

  /** What is added is read back: each list of clients, projects and topics under its own key, without
    * repetitions and in order, whatever the topics contain. */
  lemma BlockRead(a: Additions, wide: char -> bool)
    ensures ReadLines(NOTHING, BlockText(a, wide)) == Some(Additions(Distinct(a.clients), Distinct(a.projects), Distinct(a.topics)))
  {
    hide Ids, Topics, Distinct, ReadLine, ReadLines, ListLine;
    var jiku := ListLine("jiku:", a.clients == [] && a.projects == [], "");
    var clients := ListLine("  clients: ", a.clients == [], Ids(a.clients));
    var projects := ListLine("  projects: ", a.projects == [], Ids(a.projects));
    var topics := ListLine("topics: ", a.topics == [], Topics(a.topics, wide));
    var inside := Reading(!(a.clients == [] && a.projects == []), NOTHING.a);
    var first := if a.clients == [] then inside else inside.(a := inside.a.(clients := Distinct(a.clients)));
    var second := if a.projects == [] then first else first.(a := first.a.(projects := Distinct(a.projects)));
    var last := if a.topics == [] then second else Reading(false, second.a.(topics := Distinct(a.topics)));
    JikuRead(a);
    IdsOneLine(a.clients);
    IdsOneLine(a.projects);
    TopicsOneLine(a.topics, wide);
    ListLineRead(NOTHING, inside, "jiku:", a.clients == [] && a.projects == [], "", clients + projects + topics);
    if a.clients != [] {
      ClientsRead(inside, a.clients);
    }
    ListLineRead(inside, first, "  clients: ", a.clients == [], Ids(a.clients), projects + topics);
    if a.projects != [] {
      ProjectsRead(first, a.projects);
    }
    ListLineRead(first, second, "  projects: ", a.projects == [], Ids(a.projects), topics);
    if a.topics != [] {
      TopicsLineRead(second, a.topics, wide);
    }
    ListLineRead(second, last, "topics: ", a.topics == [], Topics(a.topics, wide), "");
    assert topics + "" == topics;
    assert clients + projects + topics == clients + (projects + topics);
    assert BlockText(a, wide) == jiku + (clients + projects + topics);
    NothingDistinct();
    EndRead(last);
  }

  lemma JikuRead(a: Additions)
    ensures ReadLine(NOTHING, "jiku:" + "") == Some(Reading(true, NOTHING.a))
  {
    assert "jiku:" + "" == "jiku:";
  }

  lemma NothingDistinct()
    ensures Distinct<int>([]) == [] && Distinct<string>([]) == []
  {
  }

  lemma EndRead(st: Reading)
    ensures ReadLines(st, "") == Some(st.a)
  {
  }
}
