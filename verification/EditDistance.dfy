/** Levenshtein distance with two swapped rows, and the suggestion made from it for a mistyped name, after
 * describe.go. */
module EditDistance {

  function Min(x: nat, y: nat): nat {
    if x <= y then x else y
  }

  function Init(s: string): string
    requires s != ""
  {
    s[..|s| - 1]
  }

  function Cost(s: string, t: string): nat
    requires s != "" && t != ""
  {
    if s[|s| - 1] == t[|t| - 1] then 0 else 1
  }

  /** The recurrence of the table: the last character of one side is deleted, inserted, or put over the
    * last of the other. */
  function Distance(s: string, t: string): nat
    decreases |s| + |t|
  {
    if s == "" then |t|
    else if t == "" then |s|
    else Min(Distance(Init(s), t) + 1, Min(Distance(s, Init(t)) + 1, Distance(Init(s), Init(t)) + Cost(s, t)))
  }

  //
  // What a distance means: the fewest single edits, at any places and in any order
  //

  datatype Edit = Insert(at: nat, c: char) | Delete(at: nat) | Substitute(at: nat, c: char)

  predicate Fits(e: Edit, s: string) {
    if e.Insert? then e.at <= |s| else e.at < |s|
  }

  function Apply(e: Edit, s: string): string
    requires Fits(e, s)
  {
    match e
    case Insert(i, c) => s[..i] + [c] + s[i..]
    case Delete(i) => s[..i] + s[i + 1..]
    case Substitute(i, c) => s[..i] + [c] + s[i + 1..]
  }

  /** The edits, applied one after another, turn `s` into `t`. */
  predicate Turns(edits: seq<Edit>, s: string, t: string)
    decreases |edits|
  {
    if edits == [] then s == t
    else Fits(edits[0], s) && Turns(edits[1..], Apply(edits[0], s), t)
  }

  ghost predicate Least(d: nat, s: string, t: string) {
    && (exists edits :: Turns(edits, s, t) && |edits| == d)
    && (forall edits :: Turns(edits, s, t) ==> d <= |edits|)
  }

  //
  // A metric
  //

  lemma {:induction false} DistanceSymmetric(s: string, t: string)
    ensures Distance(s, t) == Distance(t, s)
    decreases |s| + |t|
  {
    if s != "" && t != "" {
      DistanceSymmetric(Init(s), t);
      DistanceSymmetric(s, Init(t));
      DistanceSymmetric(Init(s), Init(t));
    }
  }

  lemma {:induction false} ZeroOnlyWhenEqual(s: string, t: string)
    ensures Distance(s, t) == 0 <==> s == t
    decreases |s| + |t|
  {
    if s != "" && t != "" {
      ZeroOnlyWhenEqual(Init(s), Init(t));
      assert s == Init(s) + [s[|s| - 1]] && t == Init(t) + [t[|t| - 1]];
    }
  }

  lemma {:induction false} LengthBounds(s: string, t: string)
    ensures |s| <= |t| + Distance(s, t) && |t| <= |s| + Distance(s, t) && Distance(s, t) <= |s| + |t|
    decreases |s| + |t|
  {
    if s != "" && t != "" {
      LengthBounds(Init(s), t);
      LengthBounds(s, Init(t));
      LengthBounds(Init(s), Init(t));
    }
  }

  lemma {:induction false} Triangle(s: string, t: string, u: string)
    ensures Distance(s, u) <= Distance(s, t) + Distance(t, u)
    decreases |s| + |t| + |u|
  {
    if s == "" || t == "" || u == "" {
      LengthBounds(s, t);
      LengthBounds(t, u);
      LengthBounds(s, u);
    } else if Distance(s, t) == Distance(Init(s), t) + 1 {
      Triangle(Init(s), t, u);
    } else if Distance(t, u) == Distance(t, Init(u)) + 1 {
      Triangle(s, t, Init(u));
    } else if Distance(s, t) == Distance(s, Init(t)) + 1 {
      if Distance(t, u) == Distance(Init(t), u) + 1 {
        Triangle(s, Init(t), u);
      } else {
        Triangle(s, Init(t), Init(u));
      }
    } else if Distance(t, u) == Distance(Init(t), u) + 1 {
      Triangle(Init(s), Init(t), u);
    } else {
      Triangle(Init(s), Init(t), Init(u));
    }
  }

  //
  // No edits are fewer
  //

  lemma CommonLast(s: string, t: string, c: char)
    ensures Distance(s + [c], t + [c]) <= Distance(s, t)
  {
    assert Init(s + [c]) == s && Init(t + [c]) == t;
  }

  lemma {:induction false} CommonEnd(s: string, t: string, end: string)
    ensures Distance(s + end, t + end) <= Distance(s, t)
    decreases |end|
  {
    hide Distance;
    if end == "" {
      assert s + end == s && t + end == t;
    } else {
      CommonLast(s, t, end[0]);
      CommonEnd(s + [end[0]], t + [end[0]], end[1..]);
      assert s + [end[0]] + end[1..] == s + end && t + [end[0]] + end[1..] == t + end;
    }
  }

  lemma OneMore(s: string, c: char)
    ensures Distance(s, s + [c]) <= 1 && Distance(s + [c], s) <= 1
  {
    assert Init(s + [c]) == s;
    ZeroOnlyWhenEqual(s, s);
  }

  lemma OneOther(s: string, c: char, d: char)
    ensures Distance(s + [c], s + [d]) <= 1
  {
    assert Init(s + [c]) == s && Init(s + [d]) == s;
    ZeroOnlyWhenEqual(s, s);
  }

  lemma OneEdit(e: Edit, s: string)
    requires Fits(e, s)
    ensures Distance(s, Apply(e, s)) <= 1
  {
    var i := e.at;
    assert s == s[..i] + s[i..];
    match e
    case Insert(_, c) =>
      CommonEnd(s[..i], s[..i] + [c], s[i..]);
      OneMore(s[..i], c);
    case Delete(_) =>
      assert s == s[..i] + [s[i]] + s[i + 1..];
      CommonEnd(s[..i] + [s[i]], s[..i], s[i + 1..]);
      OneMore(s[..i], s[i]);
    case Substitute(_, c) =>
      assert s == s[..i] + [s[i]] + s[i + 1..];
      CommonEnd(s[..i] + [s[i]], s[..i] + [c], s[i + 1..]);
      OneOther(s[..i], s[i], c);
  }

  lemma {:induction false} NoFewer(edits: seq<Edit>, s: string, t: string)
    requires Turns(edits, s, t)
    ensures Distance(s, t) <= |edits|
    decreases |edits|
  {
    if edits == [] {
      ZeroOnlyWhenEqual(s, t);
    } else {
      NoFewer(edits[1..], Apply(edits[0], s), t);
      OneEdit(edits[0], s);
      Triangle(s, Apply(edits[0], s), t);
    }
  }

  //
  // As few suffice
  //

  lemma ApplyBefore(e: Edit, s: string, end: string)
    requires Fits(e, s)
    ensures Fits(e, s + end) && Apply(e, s + end) == Apply(e, s) + end
  {
    var i := e.at;
    assert (s + end)[..i] == s[..i] && (s + end)[i..] == s[i..] + end;
    assert i < |s| ==> (s + end)[i + 1..] == s[i + 1..] + end;
    match e
    case Insert(_, c) => assert s[..i] + [c] + (s[i..] + end) == s[..i] + [c] + s[i..] + end;
    case Delete(_) => assert s[..i] + (s[i + 1..] + end) == s[..i] + s[i + 1..] + end;
    case Substitute(_, c) => assert s[..i] + [c] + (s[i + 1..] + end) == s[..i] + [c] + s[i + 1..] + end;
  }

  /** The same edits work with more text behind. */
  lemma {:induction false} TurnsBefore(edits: seq<Edit>, s: string, t: string, end: string)
    requires Turns(edits, s, t)
    ensures Turns(edits, s + end, t + end)
    decreases |edits|
  {
    if edits != [] {
      hide Apply;
      TurnsBefore(edits[1..], Apply(edits[0], s), t, end);
      ApplyBefore(edits[0], s, end);
    }
  }

  lemma {:induction false} TurnsThen(edits: seq<Edit>, s: string, t: string, last: Edit)
    requires Turns(edits, s, t) && Fits(last, t)
    ensures Turns(edits + [last], s, Apply(last, t))
    decreases |edits|
  {
    if edits == [] {
      assert (edits + [last])[1..] == [];
    } else {
      TurnsThen(edits[1..], Apply(edits[0], s), t, last);
      assert (edits + [last])[1..] == edits[1..] + [last];
    }
  }

  lemma TurnsAfter(first: Edit, edits: seq<Edit>, s: string, t: string)
    requires Fits(first, s) && Turns(edits, Apply(first, s), t)
    ensures Turns([first] + edits, s, t)
  {
    assert ([first] + edits)[1..] == edits;
  }

  /** The edits read off the table. */
  ghost function Script(s: string, t: string): (edits: seq<Edit>)
    ensures |edits| == Distance(s, t)
    decreases |s| + |t|
  {
    if s == "" && t == "" then []
    else if s == "" || (t != "" && Distance(s, t) == Distance(s, Init(t)) + 1) then
      Script(s, Init(t)) + [Insert(|t| - 1, t[|t| - 1])]
    else if t == "" || Distance(s, t) == Distance(Init(s), t) + 1 then
      [Delete(|s| - 1)] + Script(Init(s), t)
    else if Cost(s, t) == 0 then
      Script(Init(s), Init(t))
    else
      [Substitute(|s| - 1, t[|t| - 1])] + Script(Init(s), Init(t))
  }

  lemma TurnsNone(s: string)
    ensures Turns([], s, s)
  {
  }

  lemma {:induction false} ScriptTurns(s: string, t: string)
    ensures Turns(Script(s, t), s, t)
    decreases |s| + |t|
  {
    hide Distance, Turns;
    if s == "" && t == "" {
      TurnsNone(s);
    } else if s == "" || (t != "" && Distance(s, t) == Distance(s, Init(t)) + 1) {
      ScriptTurns(s, Init(t));
      var last := Insert(|t| - 1, t[|t| - 1]);
      TurnsThen(Script(s, Init(t)), s, Init(t), last);
      assert Apply(last, Init(t)) == t;
    } else if t == "" || Distance(s, t) == Distance(Init(s), t) + 1 {
      ScriptTurns(Init(s), t);
      assert Apply(Delete(|s| - 1), s) == Init(s);
      TurnsAfter(Delete(|s| - 1), Script(Init(s), t), s, t);
    } else {
      ScriptTurns(Init(s), Init(t));
      var end := [t[|t| - 1]];
      TurnsBefore(Script(Init(s), Init(t)), Init(s), Init(t), end);
      assert Init(t) + end == t;
      if Cost(s, t) == 0 {
        assert Init(s) + end == s;
      } else {
        var first := Substitute(|s| - 1, t[|t| - 1]);
        assert Apply(first, s) == Init(s) + end;
        TurnsAfter(first, Script(Init(s), Init(t)), s, t);
      }
    }
  }

  /** The recurrence computes the least number of edits. */
  lemma DistanceIsLeast(s: string, t: string)
    ensures Least(Distance(s, t), s, t)
  {
    ScriptTurns(s, t);
    forall edits | Turns(edits, s, t) ensures Distance(s, t) <= |edits| {
      NoFewer(edits, s, t);
    }
  }

  //
  // The two rows
  //

  /** `cells` is the row of the table for `s`, up to column `n`. */
  predicate RowUpTo(cells: seq<nat>, s: string, t: string, n: nat)
    requires n <= |t| < |cells|
  {
    forall j :: 0 <= j <= n ==> cells[j] == Distance(s, t[..j])
  }

  lemma {:induction false} LastStep(s: string, t: string)
    requires s != "" && t != ""
    ensures Distance(s, t) == Min(Distance(Init(s), t) + 1,
                                  Min(Distance(s, Init(t)) + 1, Distance(Init(s), Init(t)) + Cost(s, t)))
  {
    hide Init, Cost, Min;
  }

  lemma Cell(a: string, b: string, i: nat, j: nat)
    requires 1 <= i <= |a| && 1 <= j <= |b|
    ensures var cost := if a[i - 1] == b[j - 1] then 0 else 1;
            Distance(a[..i], b[..j]) == Min(Distance(a[..i - 1], b[..j]) + 1,
                                            Min(Distance(a[..i], b[..j - 1]) + 1, Distance(a[..i - 1], b[..j - 1]) + cost))
  {
    hide Distance;
    assert Init(a[..i]) == a[..i - 1] && Init(b[..j]) == b[..j - 1];
    LastStep(a[..i], b[..j]);
  }

  lemma FirstRow(b: string)
    ensures forall j :: 0 <= j <= |b| ==> Distance("", b[..j]) == j
  {
  }

  lemma FirstCell(a: string, i: nat)
    requires i <= |a|
    ensures Distance(a[..i], "") == i
  {
  }

  /** One row from the one above it. */
  method FillRow(prev: array<nat>, cur: array<nat>, a: string, b: string, i: nat)
    requires prev != cur && prev.Length == |b| + 1 && cur.Length == |b| + 1
    requires 1 <= i <= |a| && RowUpTo(prev[..], a[..i - 1], b, |b|)
    modifies cur
    ensures RowUpTo(cur[..], a[..i], b, |b|)
  {
    hide Distance;
    cur[0] := i;
    FirstCell(a, i);
    assert b[..0] == "";
    for j := 1 to |b| + 1
      invariant RowUpTo(cur[..], a[..i], b, j - 1)
    {
      var cost := 1;
      if a[i - 1] == b[j - 1] {
        cost := 0;
      }
      Cell(a, b, i, j);
      assert prev[..][j] == Distance(a[..i - 1], b[..j]) && prev[..][j - 1] == Distance(a[..i - 1], b[..j - 1]);
      assert cur[..][j - 1] == Distance(a[..i], b[..j - 1]);
      ghost var before := cur[..];
      cur[j] := Min(prev[j] + 1, Min(cur[j - 1] + 1, prev[j - 1] + cost));
      assert cur[..] == before[j := cur[j]];
    }
  }

  /** `editDistance` answers the least number of single-character edits. */
  method Compute(a: string, b: string) returns (d: nat)
    ensures d == Distance(a, b)
    ensures Least(d, a, b)
  {
    hide Distance, Least;
    DistanceIsLeast(a, b);
    FirstRow(b);
    if a == b {
      ZeroOnlyWhenEqual(a, b);
      return 0;
    }
    var prev := new nat[|b| + 1](j => j);
    var cur := new nat[|b| + 1](_ => 0);
    for i := 1 to |a| + 1
      invariant prev != cur && prev.Length == |b| + 1 && cur.Length == |b| + 1
      invariant fresh(prev) && fresh(cur)
      invariant RowUpTo(prev[..], a[..i - 1], b, |b|)
    {
      FillRow(prev, cur, a, b, i);
      prev, cur := cur, prev;
    }
    assert prev[..][|b|] == Distance(a[..|a|], b[..|b|]);
    assert a[..|a|] == a && b[..|b|] == b;
    return prev[|b|];
  }

  //
  // The suggestion
  //

  const FAR := 0x4000_0000

  /** Bytes of a string in UTF-8. */
  function Bytes(s: string): nat {
    if s == "" then 0
    else
      var c := s[0] as int;
      (if c < 0x80 then 1 else if c < 0x800 then 2 else if c < 0x1_0000 then 3 else 4) + Bytes(s[1..])
  }

  /** How far a candidate is from the input, letter case aside. */
  function Off(input: string, candidate: string, lower: string -> string): nat {
    Distance(lower(input), lower(candidate))
  }

  /** Candidate `k` is closer than every one before it and no farther than any of the first `n`. */
  predicate FirstClosest(input: string, candidates: seq<string>, lower: string -> string, k: nat, n: nat) {
    && k < n <= |candidates|
    && (forall i :: 0 <= i < n ==> Off(input, candidates[k], lower) <= Off(input, candidates[i], lower))
    && (forall i :: 0 <= i < k ==> Off(input, candidates[k], lower) != Off(input, candidates[i], lower))
  }

  predicate Near(input: string, candidate: string, lower: string -> string) {
    Off(input, candidate, lower) <= Bytes(input) / 3 + 1 && Off(input, candidate, lower) < FAR
  }

  lemma FirstCandidate(input: string, candidates: seq<string>, lower: string -> string)
    requires candidates != []
    ensures FirstClosest(input, candidates, lower, 0, 1)
  {
  }

  /** One more candidate: it becomes the first closest, or leaves the one so far. */
  lemma OneMoreCandidate(input: string, candidates: seq<string>, lower: string -> string, k: nat, n: nat)
    requires FirstClosest(input, candidates, lower, k, n) && n < |candidates|
    ensures if Off(input, candidates[n], lower) < Off(input, candidates[k], lower)
            then FirstClosest(input, candidates, lower, n, n + 1)
            else FirstClosest(input, candidates, lower, k, n + 1)
  {
    hide Off;
  }

  /** `suggest` names the first closest candidate when that is within its limit, and otherwise nothing. */
  method Suggest(input: string, candidates: seq<string>, lower: string -> string) returns (best: string)
    ensures candidates == [] ==> best == ""
    ensures candidates != [] ==>
              exists k: nat :: FirstClosest(input, candidates, lower, k, |candidates|)
                               && best == if Near(input, candidates[k], lower) then candidates[k] else ""
  {
    hide Distance, Bytes, FirstClosest, Least;
    best := "";
    var bestDist: nat := FAR;
    var limit := Bytes(input) / 3 + 1;
    ghost var at: nat := 0;
    for n := 0 to |candidates|
      invariant n == 0 ==> best == "" && bestDist == FAR && at == 0
      invariant n > 0 ==> at < n && FirstClosest(input, candidates, lower, at, n)
      invariant n > 0 ==> bestDist == if Off(input, candidates[at], lower) < FAR then Off(input, candidates[at], lower) else FAR
      invariant n > 0 ==> best == if Off(input, candidates[at], lower) < FAR then candidates[at] else ""
    {
      var d := Compute(lower(input), lower(candidates[n]));
      assert d == Off(input, candidates[n], lower);
      if n == 0 {
        FirstCandidate(input, candidates, lower);
      } else {
        OneMoreCandidate(input, candidates, lower, at, n);
        at := if d < Off(input, candidates[at], lower) then n else at;
      }
      if d < bestDist {
        best, bestDist := candidates[n], d;
      }
    }
    if bestDist > limit {
      best := "";
    }
  }

  /** At most one candidate is the suggested one. */
  lemma SuggestedUnique(input: string, candidates: seq<string>, lower: string -> string, j: nat, k: nat)
    requires FirstClosest(input, candidates, lower, j, |candidates|)
    requires FirstClosest(input, candidates, lower, k, |candidates|)
    ensures j == k
  {
    assert Off(input, candidates[j], lower) <= Off(input, candidates[k], lower);
    assert Off(input, candidates[k], lower) <= Off(input, candidates[j], lower);
  }
}
