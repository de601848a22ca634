/** Names on disk, after internal/docsync/files.go and paths.go: which file a module path is, and which names
 * the daemon never syncs.
 *
 * A local file is named here by its path under the synced folder, written as `remotePath` writes
 * it: "/" and the segments joined by "/".
 */
module Files {
  import opened Common
  import opened Text

  const NO_ACCESS_DIR := ".sin-acceso"

  /** strings.Trim(p, "/"). */
  function TrimSlashes(p: string): string {
    TrimRight(TrimLeft(p, '/'), '/')
  }

  predicate PlainSegment(seg: string) {
    seg != "" && seg != "." && seg != ".." && '\\' !in seg
  }

  predicate PlainSegments(segs: seq<string>) {
    forall i {:trigger PlainSegment(segs[i])} :: 0 <= i < |segs| ==> PlainSegment(segs[i])
  }

  /** The file a module path is, or None for a path that is not a plain one inside the folder. */
  function LocalPath(p: string): Option<string> {
    var t := TrimSlashes(p);
    if PlainSegments(Split(t, '/')) then Some("/" + t) else None
  }

  /** A module path that is already written the way its file is. */
  predicate Plain(p: string) {
    LocalPath(p) == Some(p)
  }

  /** `filepath.Rel` and its refusal of everything that starts with "..": the first segment of a
    * file such as "/..notes.md" is refused with it. */
  predicate DotDot(file: string) {
    HasPrefix(file, "/..")
  }

  function RemotePath(file: string): Option<string> {
    if DotDot(file) then None else Some(file)
  }

  /** filepath.Ext: from the last dot of the last segment. */
  function Ext(p: string): (e: string)
    ensures HasSuffix(p, e) && '/' !in e
    ensures e != "" ==> e[0] == '.' && forall i :: 0 < i < |e| ==> e[i] != '.'
  {
    if p == "" || p[|p| - 1] == '/' then ""
    else if p[|p| - 1] == '.' then "."
    else
      var e := Ext(p[..|p| - 1]);
      if e == "" then "" else e + [p[|p| - 1]]
  }

  /** A path without its extension. */
  function Stem(p: string): (b: string)
    ensures p == b + Ext(p)
  {
    p[..|p| - |Ext(p)|]
  }

  /** The conflict copy of version v beside a file. */
  function ConflictName(local: string, v: nat): string {
    Stem(local) + CopySuffix(Decimal(v))
  }

  function CopySuffix(digits: string): string {
    ".remoto-v" + digits + ".md"
  }

  function TrailingDigits(s: string): (n: nat)
    ensures n <= |s|
    ensures AllDigits(s[|s| - n..])
  {
    if s == "" || !IsDigit(s[|s| - 1]) then 0 else 1 + TrailingDigits(s[..|s| - 1])
  }

  /** The regular expression `\.remoto-v[0-9]+\.md$`. */
  predicate IsCopyName(name: string) {
    HasSuffix(name, ".md") &&
    var b := name[..|name| - 3];
    var n := TrailingDigits(b);
    n > 0 && HasSuffix(b[..|b| - n], ".remoto-v")
  }

  predicate IgnoredName(name: string) {
    || name == "" || HasPrefix(name, ".")
    || HasSuffix(name, "~") || HasSuffix(name, ".swp") || HasSuffix(name, ".swx") || HasSuffix(name, ".tmp")
    || (HasPrefix(name, "#") && HasSuffix(name, "#"))
    || IsCopyName(name)
  }

  predicate HiddenPath(p: string) {
    var segs := Split(TrimSlashes(p), '/');
    exists i :: 0 <= i < |segs| && IgnoredName(segs[i])
  }

  /** Whether a file is under `.sin-acceso`. */
  predicate InNoAccess(file: string) {
    HasPrefix(file, "/" + NO_ACCESS_DIR + "/")
  }

  /** Where `moveAside` puts a file first, and the name it falls back to when that is taken. */
  function AsidePath(file: string): string {
    "/" + NO_ACCESS_DIR + file
  }

  function StampedPath(dest: string, time: nat): string {
    Stem(dest) + "." + Decimal(time) + Ext(dest)
  }

  // ---- lemmas ----------------------------------------------------------------

  lemma {:induction false} TrailingDigitsOf(b: string, digits: string)
    requires AllDigits(digits)
    requires b != "" && !IsDigit(b[|b| - 1])
    ensures TrailingDigits(b + digits) == |digits|
  {
    if digits == "" {
      assert b + digits == b;
    } else {
      var d := digits[..|digits| - 1];
      assert (b + digits)[..|b + digits| - 1] == b + d;
      TrailingDigitsOf(b, d);
    }
  }

  lemma CopySuffixMatches(b: string, digits: string)
    requires digits != "" && AllDigits(digits)
    ensures IsCopyName(b + CopySuffix(digits))
  {
    var name := b + CopySuffix(digits);
    var stem := b + ".remoto-v";
    assert name == stem + digits + ".md";
    assert name[..|name| - 3] == stem + digits;
    TrailingDigitsOf(stem, digits);
    assert (stem + digits)[..|stem|] == stem;
  }

  /** A copy name is some text followed by the copy suffix. */
  lemma CopyNameShape(name: string) returns (b: string, digits: string)
    requires IsCopyName(name)
    ensures name == b + CopySuffix(digits)
    ensures digits != "" && AllDigits(digits)
  {
    var s := name[..|name| - 3];
    var n := TrailingDigits(s);
    digits := s[|s| - n..];
    var stem := s[..|s| - n];
    b := stem[..|stem| - 9];
    assert stem == b + ".remoto-v";
    assert name == s + ".md";
  }

  /** The name of a version put beside an edited file is that of a conflict copy. */
  lemma ConflictNameIsCopy(local: string, v: nat)
    ensures IsCopyName(ConflictName(local, v))
  {
    CopySuffixMatches(Stem(local), Decimal(v));
  }

  lemma {:induction false} TrimLeftConcat(a: string, b: string)
    requires b != "" && b[0] != '/'
    ensures TrimLeft(a + b, '/') == TrimLeft(a, '/') + b
  {
    if a == "" {
      assert a + b == b;
    } else if a[0] == '/' {
      assert (a + b)[1..] == a[1..] + b;
      TrimLeftConcat(a[1..], b);
    }
  }

  /** Text that starts and ends without a slash stays whole at the end of a trimmed path. */
  lemma TrimConcat(a: string, b: string)
    requires b != "" && b[0] != '/' && b[|b| - 1] != '/'
    ensures TrimSlashes(a + b) == TrimLeft(a, '/') + b
  {
    TrimLeftConcat(a, b);
    hide TrimLeft;
    var t := TrimLeft(a, '/') + b;
    assert t[|t| - 1] == b[|b| - 1];
    assert TrimRight(t, '/') == t;
  }

  lemma NoSlashInSuffix(digits: string)
    requires AllDigits(digits)
    ensures '/' !in CopySuffix(digits)
  {
  }

  /** A copy name is never one of the names the daemon syncs, so every file that is not ignored is
    * out of reach of a conflict copy. */
  lemma CopiesAreHidden(file: string)
    requires IsCopyName(file)
    ensures HiddenPath(file)
  {
    var b, digits := CopyNameShape(file);
    var suffix := CopySuffix(digits);
    TrimConcat(b, suffix);
    NoSlashInSuffix(digits);
    SplitAppend(TrimLeft(b, '/'), suffix, '/');
    var segs := Split(TrimSlashes(file), '/');
    var front := Split(TrimLeft(b, '/'), '/');
    assert segs[|front| - 1] == front[|front| - 1] + suffix;
    CopySuffixMatches(front[|front| - 1], digits);
    assert IgnoredName(segs[|front| - 1]);
  }

  lemma EndsWithSlash(t: string)
    requires t != "" && t[|t| - 1] == '/'
    ensures Split(t, '/')[|Split(t, '/')| - 1] == ""
  {
    var front := t[..|t| - 1];
    SplitConcat(front, "", '/');
    assert front + ['/'] + "" == t;
  }

  lemma FirstNotSlash(t: string, segs: seq<string>)
    requires segs == Split(t, '/') && segs[0] != ""
    ensures t != "" && t[0] != '/'
  {
  }

  lemma LastNotSlash(t: string, segs: seq<string>)
    requires t != "" && segs == Split(t, '/') && segs[|segs| - 1] != ""
    ensures t[|t| - 1] != '/'
  {
    if t[|t| - 1] == '/' {
      EndsWithSlash(t);
    }
  }

  lemma PlainEnds(segs: seq<string>)
    requires |segs| > 0 && PlainSegments(segs)
    ensures segs[0] != "" && segs[|segs| - 1] != ""
  {
    assert PlainSegment(segs[0]) && PlainSegment(segs[|segs| - 1]);
  }

  lemma TrimOfPlain(t: string)
    requires PlainSegments(Split(t, '/'))
    ensures t != "" && t[0] != '/' && t[|t| - 1] != '/'
  {
    hide Split, PlainSegments;
    var segs := Split(t, '/');
    PlainEnds(segs);
    FirstNotSlash(t, segs);
    LastNotSlash(t, segs);
  }

  /** The file of a module path is its own plain path. */
  lemma LocalPathIsPlain(p: string)
    requires LocalPath(p).Some?
    ensures Plain(LocalPath(p).value)
  {
    var t := TrimSlashes(p);
    TrimOfPlain(t);
    TrimConcat("/", t);
    assert TrimLeft("/", '/') == "" by { assert "/"[1..] == ""; }
    assert "" + t == t;
  }

  lemma {:induction false} HeadsWithSlashes(p: string)
    requires p != "" && p[0] == '/' && (|p| == 1 || p[1] != '/')
    ensures TrimLeft(p, '/') == p[1..]
  {
  }

  /** Replacing what follows the last dot of a plain name keeps it plain. */
  lemma PlainWithSuffix(s: string, e: string, suffix: string)
    requires '/' !in e && '/' !in suffix && '\\' !in suffix && |suffix| > 2
    requires PlainSegments(Split(s + e, '/'))
    ensures PlainSegments(Split(s + suffix, '/'))
  {
    SplitAppend(s, e, '/');
    SplitAppend(s, suffix, '/');
    var front := Split(s, '/');
    var n := |front| - 1;
    var was, segs := Split(s + e, '/'), Split(s + suffix, '/');
    forall i | 0 <= i < |segs|
      ensures PlainSegment(segs[i])
    {
      assert PlainSegment(was[i]);
      if i == n {
        assert '\\' !in front[n] by { assert was[n][..|front[n]|] == front[n]; }
      }
    }
  }

  lemma SlashAndPlain(t: string)
    requires PlainSegments(Split(t, '/'))
    ensures Plain("/" + t)
  {
    TrimOfPlain(t);
    TrimConcat("/", t);
    assert TrimLeft("/", '/') == "" by { assert "/"[1..] == ""; }
    assert "" + t == t;
  }

  /** A name in the top folder is a plain path. */
  lemma PlainName(name: string)
    requires PlainSegment(name) && '/' !in name
    ensures Plain("/" + name) && TrimSlashes("/" + name) == name && Split(name, '/') == [name]
  {
    SplitNoSeparator(name, '/');
    assert PlainSegments([name]);
    SlashAndPlain(name);
    TrimOfPlain(name);
    TrimConcat("/", name);
    assert TrimLeft("/", '/') == "" by { assert "/"[1..] == ""; }
    assert "" + name == name;
  }

  lemma PlainStem(local: string) returns (s: string)
    requires Plain(local)
    ensures Stem(local) == "/" + s
    ensures PlainSegments(Split(s + Ext(local), '/'))
  {
    var t, stem := TrimSlashes(local), Stem(local);
    assert local == "/" + t == stem + Ext(local);
    StemKeepsSlash(local);
    s := stem[1..];
    assert (stem + Ext(local))[1..] == s + Ext(local);
    assert s + Ext(local) == t;
  }

  lemma Regroup(a: string, b: string, c: string)
    ensures a + (b + c) == (a + b) + c
  {
  }

  /** The conflict copy of a plain file is a plain file beside it. */
  lemma ConflictNameIsPlain(local: string, v: nat)
    requires Plain(local)
    ensures Plain(ConflictName(local, v))
  {
    var s := PlainStem(local);
    var suffix := CopySuffix(Decimal(v));
    NoSlashInSuffix(Decimal(v));
    PlainWithSuffix(s, Ext(local), suffix);
    SlashAndPlain(s + suffix);
    Regroup("/", s, suffix);
  }

  /** The slashes of a path are all in its stem. */
  lemma StemHoldsSlashes(p: string)
    ensures forall i :: |Stem(p)| <= i < |p| ==> p[i] != '/'
  {
    hide Stem, Ext;
    assert forall i :: |Stem(p)| <= i < |p| ==> p[i] == Ext(p)[i - |Stem(p)|];
  }

  lemma StemKeepsSlash(local: string)
    requires HasPrefix(local, "/")
    ensures HasPrefix(Stem(local), "/")
  {
    hide Stem, Ext;
    StemHoldsSlashes(local);
    var stem := Stem(local);
    assert local == stem + Ext(local);
    assert local[0] == '/';
    assert |stem| > 0 && stem[0] == local[0];
  }

  /** The daemon can name the copy it wrote exactly when the file's first segment does not start
    * with "..". */
  lemma CopyIsTracked(local: string, v: nat)
    requires Plain(local)
    ensures RemotePath(ConflictName(local, v)).Some? <==> !DotDot(local)
  {
    StemKeepsSlash(local);
    var stem, cp, e := Stem(local), ConflictName(local, v), Ext(local);
    assert cp == stem + CopySuffix(Decimal(v));
    assert local == stem + e;
    if |stem| == 2 {
      assert cp[1] == local[1] == stem[1] && cp[2] == '.';
      assert e != "" ==> local[2] == e[0];
    } else if |stem| == 1 {
      assert cp[2] == 'r';
      assert forall i :: 1 <= i < |local| ==> local[i] == e[i - 1];
    }
  }

  // ---- moving aside ----------------------------------------------------------

  lemma AsideIsNoAccess(file: string)
    requires HasPrefix(file, "/")
    ensures InNoAccess(AsidePath(file))
  {
  }

  lemma StampedIsNoAccess(dest: string, time: nat)
    requires InNoAccess(dest)
    ensures InNoAccess(StampedPath(dest, time))
  {
    var dir := "/" + NO_ACCESS_DIR + "/";
    StemHoldsSlashes(dest);
    assert dest[|dir| - 1] == '/';
    assert Stem(dest)[..|dir|] == dir;
  }

  lemma StampedInjective(dest: string, m: nat, n: nat)
    requires StampedPath(dest, m) == StampedPath(dest, n)
    ensures m == n
  {
    var b, e := Stem(dest) + ".", Ext(dest);
    var p, q := StampedPath(dest, m), StampedPath(dest, n);
    assert p == b + Decimal(m) + e && q == b + Decimal(n) + e;
    assert |Decimal(m)| == |Decimal(n)|;
    assert Decimal(m) == p[|b|..|p| - |e|] == q[|b|..|q| - |e|] == Decimal(n);
    DecimalInjective(m, n);
  }

  /** A file moved aside is not one of the names a conflict copy may take, unless it already was. */
  lemma AsideKeepsName(file: string)
    requires HasPrefix(file, "/") && !IsCopyName(file)
    ensures !IsCopyName(AsidePath(file))
  {
    var dest := AsidePath(file);
    if IsCopyName(dest) {
      var b, digits := CopyNameShape(dest);
      var suffix := CopySuffix(digits);
      NoSlashInSuffix(digits);
      var k := |dest| - |file|;
      assert forall i :: |b| <= i < |dest| ==> dest[i] == suffix[i - |b|];
      assert dest[k] == '/';
      assert dest[k..] == file && dest[k..] == b[k..] + suffix;
      CopySuffixMatches(b[k..], digits);
    }
  }

  lemma StampedKeepsName(dest: string, time: nat)
    requires HasPrefix(dest, "/")
    ensures !IsCopyName(StampedPath(dest, time))
  {
    var e, name, d := Ext(dest), StampedPath(dest, time), Decimal(time);
    if e == ".md" {
      var front := Stem(dest) + ".";
      assert name[..|name| - 3] == front + d;
      TrailingDigitsOf(front, d);
      assert (front + d)[..|front|] == front;
      assert front[|front| - 1] == '.';
    } else {
      ExtOfSuffix(Stem(dest), e, d, name);
    }
  }

  /** An extension other than ".md" does not let a name end in ".md". */
  lemma ExtOfSuffix(stem: string, e: string, d: string, name: string)
    requires d != "" && AllDigits(d)
    requires name == stem + "." + d + e
    requires e != ".md" && (e == "" || (e[0] == '.' && forall i :: 0 < i < |e| ==> e[i] != '.'))
    ensures !HasSuffix(name, ".md")
  {
    var n := |name|;
    if |e| >= 3 {
      assert name[n - 3..] == e[|e| - 3..];
      if |e| == 3 {
        assert e[0..] == e;
      } else {
        assert e[|e| - 3..][0] != '.';
      }
    } else if |e| > 0 {
      assert name[n - |e|] == '.';
    } else {
      assert name[n - 1] == d[|d| - 1];
    }
  }

  /** Everything under `.sin-acceso` is ignored. */
  lemma NoAccessIsHidden(file: string)
    requires InNoAccess(file)
    ensures HiddenPath(file)
  {
    assert file[0] == '/' && file[1] == '.';
    HeadsWithSlashes(file);
    var t := TrimSlashes(file);
    assert TrimLeft(file, '/')[0] == '.';
    TrimRightKeepsFirst(TrimLeft(file, '/'));
    FirstPart(t);
    assert IgnoredName(Split(t, '/')[0]);
  }

  lemma {:induction false} TrimRightKeepsFirst(s: string)
    requires s != "" && s[0] != '/'
    ensures TrimRight(s, '/') != "" && TrimRight(s, '/')[0] == s[0]
    decreases |s|
  {
    if s[|s| - 1] == '/' {
      TrimRightKeepsFirst(s[..|s| - 1]);
    }
  }

  lemma FirstPart(t: string)
    requires t != "" && t[0] == '.'
    ensures HasPrefix(Split(t, '/')[0], ".")
  {
  }
}
