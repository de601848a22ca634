/** Command-line filter expressions turned into a wire filter, after filter.go. */
module Filter {
  import opened Common
  import opened Text

  datatype Result<T> = Ok(value: T) | Err(error: Error)

  datatype Error = NotAnExpression | NoName | NoValue | Uncoercible | NoValues | ContainmentOnlyEquals | Twice | Mixed

  /** A value typed by the resource contract. */
  datatype Scalar = Integer(int) | Number(string) | Boolean(bool) | Str(string)

  /** The shapes by which the bus tells the operators apart. */
  datatype Condition = Equal(Scalar) | In(seq<Scalar>) | Not(Condition) | Contains(key: string, inner: string)
    | Range(bounds: map<string, Scalar>)

  type Wire = map<string, Condition>

  /** `Resource.Coerce`: None for a value its field does not take. */
  type Coerce = (string, string) -> Option<Scalar>

  const OPERATORS := [">=", "<=", "!=", "=", ">", "<"]

  predicate Trimmed(s: string) {
    s != "" && !IsSpace(s[0]) && !IsSpace(s[|s| - 1])
  }

  //
  // One expression
  //

  /** The operator that starts at `i`: the first of the list, so the longest. */
  function OperatorAt(s: string, i: nat): (op: Option<string>)
    requires i <= |s|
    ensures op.Some? ==> op.value in OPERATORS && i + |op.value| <= |s| && op.value != ""
  {
    FirstPrefix(s[i..], 0)
  }

  function FirstPrefix(s: string, k: nat): (op: Option<string>)
    requires k <= |OPERATORS|
    ensures op.Some? ==> op.value in OPERATORS && op.value <= s
    decreases |OPERATORS| - k
  {
    if k == |OPERATORS| then None
    else if OPERATORS[k] <= s then Some(OPERATORS[k])
    else FirstPrefix(s, k + 1)
  }

  datatype Parts = Parts(name: string, op: string, value: string)

  /** What an expression says when its first operator is at `i`. */
  function PartsAt(s: string, i: nat): Result<Parts>
    requires i <= |s| && OperatorAt(s, i).Some?
  {
    var op := OperatorAt(s, i).value;
    var name, value := Trim(s[..i]), Trim(s[i + |op|..]);
    if name == "" then Err(NoName) else if value == "" then Err(NoValue) else Ok(Parts(name, op, value))
  }

  function PartsFrom(s: string, i: nat): Result<Parts>
    requires i <= |s|
    decreases |s| - i
  {
    if i == |s| then Err(NotAnExpression)
    else if OperatorAt(s, i).Some? then PartsAt(s, i)
    else PartsFrom(s, i + 1)
  }

  /** `splitExpr`: the leftmost operator, the longest one there, ends the name. */
  method SplitExpr(s: string) returns (r: Result<Parts>)
    ensures r == PartsFrom(s, 0)
    ensures r == Err(NotAnExpression) <==> forall i :: 0 <= i < |s| ==> OperatorAt(s, i).None?
  {
    hide IsSpace, TrimStart, TrimEnd;
    for i := 0 to |s|
      invariant PartsFrom(s, 0) == PartsFrom(s, i)
      invariant forall j :: 0 <= j < i ==> OperatorAt(s, j).None?
    {
      for k := 0 to |OPERATORS|
        invariant OperatorAt(s, i) == FirstPrefix(s[i..], k)
      {
        var candidate := OPERATORS[k];
        if !(candidate <= s[i..]) {
          continue;
        }
        assert OperatorAt(s, i) == Some(candidate);
        var name := Trim(s[..i]);
        var value := Trim(s[i + |candidate|..]);
        if name == "" {
          return Err(NoName);
        }
        if value == "" {
          return Err(NoValue);
        }
        return Ok(Parts(name, candidate, value));
      }
    }
    return Err(NotAnExpression);
  }

  /** The operators by their characters. */
  lemma OperatorByCharacters(s: string, i: nat)
    requires i < |s|
    ensures var two := i + 1 < |s| && s[i + 1] == '=';
            OperatorAt(s, i) == if two && s[i] in "<>!" then Some([s[i], '='])
                                else if s[i] in "=<>" then Some([s[i]])
                                else None
  {
    var t := s[i..];
    assert t[0] == s[i] && (|t| > 1 ==> t[1] == s[i + 1]);
    assert ">=" <= t <==> |t| > 1 && t[0] == '>' && t[1] == '=';
    assert "<=" <= t <==> |t| > 1 && t[0] == '<' && t[1] == '=';
    assert "!=" <= t <==> |t| > 1 && t[0] == '!' && t[1] == '=';
    assert "=" <= t <==> t[0] == '=';
    assert ">" <= t <==> t[0] == '>';
    assert "<" <= t <==> t[0] == '<';
    assert FirstPrefix(t, 6) == None;
    assert FirstPrefix(t, 5) == if "<" <= t then Some("<") else FirstPrefix(t, 6);
    assert FirstPrefix(t, 4) == if ">" <= t then Some(">") else FirstPrefix(t, 5);
    assert FirstPrefix(t, 3) == if "=" <= t then Some("=") else FirstPrefix(t, 4);
    assert FirstPrefix(t, 2) == if "!=" <= t then Some("!=") else FirstPrefix(t, 3);
    assert FirstPrefix(t, 1) == if "<=" <= t then Some("<=") else FirstPrefix(t, 2);
    assert FirstPrefix(t, 0) == if ">=" <= t then Some(">=") else FirstPrefix(t, 1);
  }

  lemma {:induction false} FirstOperatorSplits(s: string, i: nat, j: nat)
    requires i <= j < |s| && OperatorAt(s, j).Some?
    requires forall k :: i <= k < j ==> OperatorAt(s, k).None?
    ensures PartsFrom(s, i) == PartsAt(s, j)
    decreases j - i
  {
    hide OperatorAt;
    if i < j {
      FirstOperatorSplits(s, i + 1, j);
    }
  }

  lemma {:induction false} SplitAtFirst(s: string, i: nat) returns (j: nat)
    requires i <= |s| && PartsFrom(s, i).Ok?
    ensures i <= j < |s| && OperatorAt(s, j).Some? && PartsFrom(s, i) == PartsAt(s, j)
    ensures forall k :: i <= k < j ==> OperatorAt(s, k).None?
    decreases |s| - i
  {
    hide OperatorAt;
    if OperatorAt(s, i).Some? {
      return i;
    }
    j := SplitAtFirst(s, i + 1);
  }

  lemma TrimKeeps(s: string)
    requires Trimmed(s)
    ensures Trim(s) == s
  {
  }

  lemma {:induction false} TrimNoLonger(s: string)
    ensures |Trim(s)| <= |s|
  {
    TrimStartNoLonger(s);
  }

  lemma {:induction false} TrimStartNoLonger(s: string)
    ensures |TrimStart(s)| <= |s|
  {
    if s != "" && IsSpace(s[0]) {
      TrimStartNoLonger(s[1..]);
    }
  }

  /** When a name, an operator and a value can be written next to each other. */
  predicate Writable(name: string, op: string, value: string) {
    && Trimmed(name) && Trimmed(value)
    && (forall i :: 0 <= i < |name| ==> name[i] !in "=<>")
    && (op == "=" ==> name[|name| - 1] != '!')
    && (op == ">" || op == "<" ==> value[0] != '=')
  }

  lemma OperatorCharacters(op: string)
    requires op in OPERATORS
    ensures op == "=" || op == "<" || op == ">" || op == ">=" || op == "<=" || op == "!="
  {
  }

  lemma NoneInName(name: string, op: string, value: string, k: nat)
    requires op in OPERATORS && Writable(name, op, value) && k < |name|
    ensures OperatorAt(name + op + value, k).None?
  {
    hide OperatorAt, IsSpace;
    var s := name + op + value;
    OperatorCharacters(op);
    OperatorByCharacters(s, k);
    assert s[k] == name[k] && s[|name|] == op[0];
    assert k + 1 < |name| ==> s[k + 1] == name[k + 1];
  }

  lemma OperatorEndsName(name: string, op: string, value: string)
    requires op in OPERATORS && Writable(name, op, value)
    ensures OperatorAt(name + op + value, |name|) == Some(op)
  {
    hide OperatorAt, IsSpace;
    var s, n := name + op + value, |name|;
    OperatorCharacters(op);
    OperatorByCharacters(s, n);
    assert s[n] == op[0] && (|op| == 2 ==> s[n + 1] == op[1]) && s[n + |op|] == value[0];
  }

  lemma WritableTrims(name: string, op: string, value: string)
    requires Writable(name, op, value)
    ensures Trim(name) == name != "" && Trim(value) == value != ""
  {
    TrimKeeps(name);
    TrimKeeps(value);
  }

  lemma WritableSplits(name: string, op: string, value: string)
    requires op in OPERATORS && Writable(name, op, value)
    ensures PartsFrom(name + op + value, 0) == Ok(Parts(name, op, value))
  {
    hide PartsFrom, OperatorAt, Writable, Trim, OPERATORS;
    var s, n := name + op + value, |name|;
    WritableTrims(name, op, value);
    forall k | 0 <= k < n ensures OperatorAt(s, k).None? {
      NoneInName(name, op, value, k);
    }
    OperatorEndsName(name, op, value);
    FirstOperatorSplits(s, 0, n);
    assert s[..n] == name && s[n + |op|..] == value;
  }

  /** Where the first operator is when a name before it comes back whole. */
  lemma SplitsBehindName(name: string, op: string, value: string) returns (j: nat)
    requires op in OPERATORS && PartsFrom(name + op + value, 0) == Ok(Parts(name, op, value))
    ensures var s := name + op + value;
            |name| <= j < |s| && OperatorAt(s, j).Some? && PartsAt(s, j) == Ok(Parts(name, op, value))
            && forall k :: 0 <= k < j ==> OperatorAt(s, k).None?
  {
    hide OperatorAt, PartsFrom, Trim;
    j := SplitAtFirst(name + op + value, 0);
    TrimNoLonger((name + op + value)[..j]);
  }

  lemma NameHoldsNoOperator(name: string, op: string, value: string)
    requires op in OPERATORS && forall k :: 0 <= k < |name| ==> OperatorAt(name + op + value, k).None?
    ensures forall i :: 0 <= i < |name| ==> name[i] !in "=<>"
    ensures op == "=" && name != "" ==> name[|name| - 1] != '!'
  {
    hide OperatorAt;
    var s, n := name + op + value, |name|;
    OperatorCharacters(op);
    forall k | 0 <= k < n ensures name[k] !in "=<>" && (k == n - 1 && op == "=" ==> name[k] != '!') {
      OperatorByCharacters(s, k);
      assert s[k] == name[k] && s[n] == op[0];
    }
  }

  /** An operator does begin where the name ends, and the value has not made it longer. */
  lemma OperatorStands(name: string, op: string, value: string)
    requires op in OPERATORS
    ensures OperatorAt(name + op + value, |name|).Some?
    ensures (op == ">" || op == "<") && value != "" && value[0] == '=' ==>
              OperatorAt(name + op + value, |name|) != Some(op)
  {
    hide OperatorAt;
    var s, n := name + op + value, |name|;
    OperatorCharacters(op);
    OperatorByCharacters(s, n);
    assert s[n] == op[0] && (|op| == 2 ==> s[n + 1] == op[1]);
    assert |op| == 1 && value != "" ==> s[n + 1] == value[0];
  }

  lemma SplitsOnlyWritable(name: string, op: string, value: string)
    requires op in OPERATORS && PartsFrom(name + op + value, 0) == Ok(Parts(name, op, value))
    ensures Writable(name, op, value)
  {
    hide OperatorAt, IsSpace, PartsFrom, TrimStart, TrimEnd, OPERATORS;
    var j := SplitsBehindName(name, op, value);
    NameHoldsNoOperator(name, op, value);
    OperatorStands(name, op, value);
    var s, n := name + op + value, |name|;
    assert j == n;
    assert s[..n] == name && s[n + |op|..] == value;
  }

  /** `splitExpr` recovers exactly these triples: both sides trimmed and not empty, no operator begins in
    * the name, and none is lengthened by the value. */
  lemma SplitRecovers(name: string, op: string, value: string)
    requires op in OPERATORS
    ensures PartsFrom(name + op + value, 0) == Ok(Parts(name, op, value)) <==> Writable(name, op, value)
  {
    hide PartsFrom, Writable;
    if Writable(name, op, value) {
      WritableSplits(name, op, value);
    }
    if PartsFrom(name + op + value, 0) == Ok(Parts(name, op, value)) {
      SplitsOnlyWritable(name, op, value);
    }
  }

  //
  // One condition
  //

  /** What one expression asks for: the whole condition of a name, or one bound of its range. */
  datatype Item = Whole(name: string, condition: Condition) | Bound(name: string, key: string, value: Scalar)

  predicate Bare(c: Condition) {
    !c.Range?
  }

  function FirstColon(s: string): (at: Option<nat>)
    ensures at.Some? ==> at.value < |s|
  {
    ColonFrom(s, 0)
  }

  function ColonFrom(s: string, i: nat): (at: Option<nat>)
    requires i <= |s|
    ensures at.Some? ==> at.value < |s|
    decreases |s| - i
  {
    if i == |s| then None else if s[i] == ':' then Some(i) else ColonFrom(s, i + 1)
  }

  /** The values of a comma-separated list, empty places skipped. */
  function Listed(name: string, parts: seq<string>, coerce: Coerce): Result<seq<Scalar>> {
    if parts == [] then Ok([])
    else
      var last := Trim(parts[|parts| - 1]);
      var before := Listed(name, parts[..|parts| - 1], coerce);
      if before.Err? || last == "" then before
      else
        var v := coerce(name, last);
        if v.None? then Err(Uncoercible) else Ok(before.value + [v.value])
  }

  /** A value without a comma is one scalar; with one it is a list, whatever it holds. */
  function ListValue(name: string, value: string, coerce: Coerce): (r: Result<Condition>)
    ensures r.Ok? ==> Bare(r.value)
  {
    if ',' !in value then
      var v := coerce(name, value);
      if v.None? then Err(Uncoercible) else Ok(Equal(v.value))
    else
      var vs := Listed(name, Split(value, ','), coerce);
      if vs.Err? then Err(vs.error) else if vs.value == [] then Err(NoValues) else Ok(In(vs.value))
  }

  method CoerceList(name: string, value: string, coerce: Coerce) returns (r: Result<Condition>)
    ensures r == ListValue(name, value, coerce)
  {
    if ',' !in value {
      var v := coerce(name, value);
      return if v.None? then Err(Uncoercible) else Ok(Equal(v.value));
    }
    var parts := Split(value, ',');
    var out: seq<Scalar> := [];
    for i := 0 to |parts|
      invariant Listed(name, parts[..i], coerce) == Ok(out)
    {
      assert parts[..i + 1][..i] == parts[..i];
      var p := Trim(parts[i]);
      if p == "" {
        continue;
      }
      var v := coerce(name, p);
      if v.None? {
        ListFails(name, parts, coerce, i + 1);
        return Err(Uncoercible);
      }
      out := out + [v.value];
    }
    assert parts[..|parts|] == parts;
    if out == [] {
      return Err(NoValues);
    }
    return Ok(In(out));
  }

  lemma {:induction false} ListFails(name: string, parts: seq<string>, coerce: Coerce, i: nat)
    requires i <= |parts| && Listed(name, parts[..i], coerce).Err?
    ensures Listed(name, parts, coerce) == Listed(name, parts[..i], coerce)
    decreases |parts|
  {
    if i < |parts| {
      var init := parts[..|parts| - 1];
      assert init[..i] == parts[..i];
      ListFails(name, init, coerce, i);
    } else {
      assert parts[..i] == parts;
    }
  }

  function BoundKey(op: string): string {
    if op == ">=" then "gte" else if op == "<=" then "lte" else if op == ">" then "gt" else "lt"
  }

  function ItemOfParts(p: Parts, coerce: Coerce): (r: Result<Item>)
    ensures r.Ok? && r.value.Whole? ==> Bare(r.value.condition)
  {
    var colon := FirstColon(p.name);
    if colon.Some? then
      if p.op != "=" then Err(ContainmentOnlyEquals)
      else Ok(Whole(p.name[..colon.value], Contains(p.name[colon.value + 1..], p.value)))
    else if p.op == "=" || p.op == "!=" then
      var c := ListValue(p.name, p.value, coerce);
      if c.Err? then Err(c.error) else Ok(Whole(p.name, if p.op == "!=" then Not(c.value) else c.value))
    else
      var v := coerce(p.name, p.value);
      if v.None? then Err(Uncoercible) else Ok(Bound(p.name, BoundKey(p.op), v.value))
  }

  function ItemOf(expr: string, coerce: Coerce): (r: Result<Item>)
    ensures r.Ok? && r.value.Whole? ==> Bare(r.value.condition)
  {
    var p := PartsFrom(expr, 0);
    if p.Err? then Err(p.error) else ItemOfParts(p.value, coerce)
  }

  //
  // A whole filter
  //

  /** Two conditions that cannot both apply: only different bounds of one name merge. */
  predicate Clash(x: Item, y: Item) {
    x.name == y.name && (x.Whole? || y.Whole? || x.key == y.key)
  }

  ghost predicate AllParse(exprs: seq<string>, coerce: Coerce) {
    forall i :: 0 <= i < |exprs| ==> ItemOf(exprs[i], coerce).Ok?
  }

  /** Every expression stands for a condition, and no two at different places clash. */
  ghost predicate Acceptable(exprs: seq<string>, coerce: Coerce) {
    AllParse(exprs, coerce)
    && forall i, j :: 0 <= i < j < |exprs| ==> !Clash(ItemOf(exprs[i], coerce).value, ItemOf(exprs[j], coerce).value)
  }

  ghost function ItemsOf(exprs: seq<string>, coerce: Coerce): set<Item>
    requires AllParse(exprs, coerce)
  {
    set i | 0 <= i < |exprs| :: ItemOf(exprs[i], coerce).value
  }

  /** The conditions a wire filter holds. */
  predicate Holds(f: Wire, item: Item) {
    item.name in f
    && match item
       case Whole(name, c) => f[name] == c && Bare(c)
       case Bound(name, key, v) => f[name].Range? && key in f[name].bounds && f[name].bounds[key] == v
  }

  ghost function Conditions(f: Wire): (items: set<Item>)
    ensures forall item :: item in items <==> Holds(f, item)
  {
    var wholes := set name | name in f && Bare(f[name]) :: Whole(name, f[name]);
    var bounds := set name, key | name in f && f[name].Range? && key in f[name].bounds :: Bound(name, key, f[name].bounds[key]);
    assert forall item :: item in wholes <==> item.Whole? && Holds(f, item);
    assert forall item :: item in bounds <==> item.Bound? && Holds(f, item);
    wholes + bounds
  }

  predicate NoEmptyRange(f: Wire) {
    forall name :: name in f && f[name].Range? ==> f[name].bounds != map[]
  }

  /** What the loop has gathered from `items`: whole conditions in `out`, bounds in `ranges`. */
  ghost predicate Gathered(items: seq<Item>, out: Wire, ranges: map<string, map<string, Scalar>>) {
    && (forall item: Item :: item.Whole? ==> (item in items <==> item.name in out && out[item.name] == item.condition))
    && (forall name :: name in out ==> Bare(out[name]))
    && (forall item: Item :: item.Bound? ==>
          (item in items <==> item.name in ranges && item.key in ranges[item.name] && ranges[item.name][item.key] == item.value))
    && (forall name :: name in ranges ==> ranges[name] != map[])
  }

  predicate SameSlot(x: Item, y: Item) {
    x.name == y.name && x.Whole? == y.Whole? && (x.Bound? ==> x.key == y.key)
  }

  ghost predicate Parsed(exprs: seq<string>, coerce: Coerce, items: seq<Item>) {
    |items| == |exprs| && forall i :: 0 <= i < |exprs| ==> ItemOf(exprs[i], coerce) == Ok(items[i])
  }

  ghost predicate SlotsApart(items: seq<Item>) {
    forall i, j :: 0 <= i < j < |items| ==> !SameSlot(items[i], items[j])
  }

  lemma GatherWhole(items: seq<Item>, out: Wire, ranges: map<string, map<string, Scalar>>, item: Item)
    requires Gathered(items, out, ranges) && SlotsApart(items) && item.Whole? && Bare(item.condition)
    ensures item.name !in out ==> Gathered(items + [item], out[item.name := item.condition], ranges)
                                  && SlotsApart(items + [item])
    ensures item.name in out ==> exists i :: 0 <= i < |items| && Clash(items[i], item)
  {
    if item.name in out {
      var x := Whole(item.name, out[item.name]);
      assert x in items;
    } else {
      forall i | 0 <= i < |items| ensures !SameSlot(items[i], item) {
        assert items[i] in items;
      }
    }
  }

  lemma GatherBound(items: seq<Item>, out: Wire, ranges: map<string, map<string, Scalar>>, item: Item)
    requires Gathered(items, out, ranges) && SlotsApart(items) && item.Bound?
    ensures var bounds := if item.name in ranges then ranges[item.name] else map[];
            if item.key in bounds then exists i :: 0 <= i < |items| && Clash(items[i], item)
            else Gathered(items + [item], out, ranges[item.name := bounds[item.key := item.value]])
                 && SlotsApart(items + [item])
  {
    var bounds := if item.name in ranges then ranges[item.name] else map[];
    if item.key in bounds {
      var x := Bound(item.name, item.key, bounds[item.key]);
      assert x in items;
    } else {
      forall i | 0 <= i < |items| ensures !SameSlot(items[i], item) {
        assert items[i] in items;
      }
    }
  }

  lemma NotAcceptable(exprs: seq<string>, coerce: Coerce, items: seq<Item>, i: nat)
    requires i < |exprs| && Parsed(exprs[..i], coerce, items)
    requires ItemOf(exprs[i], coerce).Err? || exists j :: 0 <= j < i && Clash(items[j], ItemOf(exprs[i], coerce).value)
    ensures !Acceptable(exprs, coerce)
  {
    if ItemOf(exprs[i], coerce).Ok? {
      var j :| 0 <= j < i && Clash(items[j], ItemOf(exprs[i], coerce).value);
      assert exprs[..i][j] == exprs[j];
    }
  }

  lemma ParsedStep(exprs: seq<string>, coerce: Coerce, items: seq<Item>, i: nat)
    requires i < |exprs| && Parsed(exprs[..i], coerce, items) && ItemOf(exprs[i], coerce).Ok?
    ensures Parsed(exprs[..i + 1], coerce, items + [ItemOf(exprs[i], coerce).value])
  {
    assert exprs[..i + 1] == exprs[..i] + [exprs[i]];
  }

  /** A condition that must be the only one of its name: containment and the two equalities. */
  method AddWhole(p: Parts, coerce: Coerce, out: Wire) returns (r: Result<Wire>)
    requires FirstColon(p.name).Some? || p.op == "=" || p.op == "!="
    ensures r.Ok? ==> ItemOfParts(p, coerce).Ok? && (var item := ItemOfParts(p, coerce).value;
                      item.Whole? && item.name !in out && r.value == out[item.name := item.condition])
    ensures r.Err? ==> ItemOfParts(p, coerce).Err? || ItemOfParts(p, coerce).value.name in out
  {
    var colon := FirstColon(p.name);
    if colon.Some? {
      var key, inner := p.name[..colon.value], p.name[colon.value + 1..];
      if p.op != "=" {
        return Err(ContainmentOnlyEquals);
      }
      if key in out {
        return Err(Twice);
      }
      return Ok(out[key := Contains(inner, p.value)]);
    }
    if p.name in out {
      return Err(Twice);
    }
    var coerced := CoerceList(p.name, p.value, coerce);
    if coerced.Err? {
      return Err(coerced.error);
    }
    return Ok(out[p.name := if p.op == "!=" then Not(coerced.value) else coerced.value]);
  }

  method AddBound(p: Parts, coerce: Coerce, ranges: map<string, map<string, Scalar>>)
    returns (r: Result<map<string, map<string, Scalar>>>)
    requires FirstColon(p.name).None? && p.op != "=" && p.op != "!="
    ensures r.Ok? ==> ItemOfParts(p, coerce).Ok? && (var item := ItemOfParts(p, coerce).value;
                      var bounds := if item.name in ranges then ranges[item.name] else map[];
                      item.Bound? && item.key !in bounds && r.value == ranges[item.name := bounds[item.key := item.value]])
    ensures r.Err? ==> ItemOfParts(p, coerce).Err?
                       || (var item := ItemOfParts(p, coerce).value;
                           item.Bound? && item.name in ranges && item.key in ranges[item.name])
  {
    var coerced := coerce(p.name, p.value);
    if coerced.None? {
      return Err(Uncoercible);
    }
    var bounds := if p.name in ranges then ranges[p.name] else map[];
    var key := BoundKey(p.op);
    if key in bounds {
      return Err(Twice);
    }
    return Ok(ranges[p.name := bounds[key := coerced.value]]);
  }

  /** The first loop of `ParseFilter`. */
  method Gather(exprs: seq<string>, coerce: Coerce)
    returns (err: Option<Error>, out: Wire, ranges: map<string, map<string, Scalar>>, ghost items: seq<Item>)
    ensures err.Some? ==> !Acceptable(exprs, coerce)
    ensures err.None? ==> Parsed(exprs, coerce, items) && Gathered(items, out, ranges) && SlotsApart(items)
  {
    hide PartsFrom, ItemOfParts, Gathered, SlotsApart, Parsed, Acceptable, FirstColon, Clash;
    out, ranges, items, err := map[], map[], [], None;
    NothingGathered(coerce);
    assert exprs[..0] == [];
    for i := 0 to |exprs|
      invariant Parsed(exprs[..i], coerce, items) && Gathered(items, out, ranges) && SlotsApart(items)
      invariant |items| == i
    {
      var split := SplitExpr(exprs[i]);
      if split.Err? {
        NotAcceptable(exprs, coerce, items, i);
        return Some(split.error), out, ranges, items;
      }
      var p := split.value;
      ghost var item := ItemOfParts(p, coerce);
      if FirstColon(p.name).Some? || p.op == "=" || p.op == "!=" {
        var r := AddWhole(p, coerce, out);
        if item.Ok? {
          WholeParts(p, coerce);
          GatherWhole(items, out, ranges, item.value);
        }
        if r.Err? {
          NotAcceptable(exprs, coerce, items, i);
          return Some(r.error), out, ranges, items;
        }
        out := r.value;
      } else {
        var r := AddBound(p, coerce, ranges);
        if item.Ok? && item.value.Bound? {
          GatherBound(items, out, ranges, item.value);
        }
        if r.Err? {
          NotAcceptable(exprs, coerce, items, i);
          return Some(r.error), out, ranges, items;
        }
        ranges := r.value;
      }
      ParsedStep(exprs, coerce, items, i);
      items := items + [item.value];
    }
    assert exprs[..|exprs|] == exprs;
  }

  lemma NothingGathered(coerce: Coerce)
    ensures Parsed([], coerce, []) && Gathered([], map[], map[]) && SlotsApart([])
  {
  }

  lemma WholeParts(p: Parts, coerce: Coerce)
    requires FirstColon(p.name).Some? || p.op == "=" || p.op == "!="
    requires ItemOfParts(p, coerce).Ok?
    ensures ItemOfParts(p, coerce).value.Whole?
  {
  }

  /** The filter with the ranges of these names merged in. */
  ghost predicate Merged(out: Wire, ranges: map<string, map<string, Scalar>>, names: set<string>, f: Wire) {
    && (forall name :: name in f <==> name in out || name in names)
    && (forall name :: name in f ==> f[name] == if name in names && name in ranges then Range(ranges[name])
                                                else if name in out then out[name] else f[name])
  }

  /** The second loop of `ParseFilter`, in whatever order the ranges come. */
  method Merge(out: Wire, ranges: map<string, map<string, Scalar>>) returns (r: Result<Wire>)
    ensures r.Ok? <==> out.Keys !! ranges.Keys
    ensures r.Ok? ==> Merged(out, ranges, ranges.Keys, r.value)
  {
    var f := out;
    var names := ranges.Keys;
    while names != {}
      invariant names <= ranges.Keys
      invariant forall name :: name in ranges && name !in names ==> name !in out
      invariant Merged(out, ranges, ranges.Keys - names, f)
      decreases |names|
    {
      var name :| name in names;
      if name in f {
        assert name in out && name in ranges;
        return Err(Mixed);
      }
      f := f[name := Range(ranges[name])];
      names := names - {name};
    }
    assert ranges.Keys - {} == ranges.Keys;
    return Ok(f);
  }

  lemma MergedHolds(items: seq<Item>, out: Wire, ranges: map<string, map<string, Scalar>>, f: Wire)
    requires Gathered(items, out, ranges) && out.Keys !! ranges.Keys && Merged(out, ranges, ranges.Keys, f)
    ensures NoEmptyRange(f) && forall item: Item :: item in items <==> Holds(f, item)
  {
    forall item: Item ensures item in items <==> Holds(f, item) {
      if item.name in out {
        assert item.name !in ranges;
        assert f[item.name] == out[item.name] && Bare(out[item.name]);
      } else if item.name in ranges {
        assert f[item.name] == Range(ranges[item.name]);
      }
    }
    assert forall name :: name in out ==> name !in ranges && Bare(out[name]) && f[name] == out[name];
  }

  /** Whole conditions and bounds share no name exactly when nothing clashes. */
  lemma ApartOnlyWithoutClash(items: seq<Item>, out: Wire, ranges: map<string, map<string, Scalar>>)
    requires Gathered(items, out, ranges) && SlotsApart(items)
    ensures out.Keys !! ranges.Keys <==> forall i, j :: 0 <= i < j < |items| ==> !Clash(items[i], items[j])
  {
    if out.Keys !! ranges.Keys {
      forall i, j | 0 <= i < j < |items| ensures !Clash(items[i], items[j]) {
        assert items[i] in items && items[j] in items && !SameSlot(items[i], items[j]);
        if items[i].Whole? {
          assert items[i].name in out;
        } else {
          assert items[i].name in ranges;
        }
        if items[j].Whole? {
          assert items[j].name in out;
        } else {
          assert items[j].name in ranges;
        }
      }
    } else {
      var name :| name in out && name in ranges;
      var key :| key in ranges[name];
      var x, y := Whole(name, out[name]), Bound(name, key, ranges[name][key]);
      assert x in items && y in items;
      var a :| 0 <= a < |items| && items[a] == x;
      var b :| 0 <= b < |items| && items[b] == y;
      assert Clash(items[if a < b then a else b], items[if a < b then b else a]);
    }
  }

  lemma ParsedMeans(exprs: seq<string>, coerce: Coerce, items: seq<Item>)
    requires Parsed(exprs, coerce, items)
    ensures AllParse(exprs, coerce)
    ensures forall item :: item in items <==> item in ItemsOf(exprs, coerce)
    ensures Acceptable(exprs, coerce) <==> forall i, j :: 0 <= i < j < |items| ==> !Clash(items[i], items[j])
  {
    hide ItemOf, Clash;
    forall item | item in items ensures item in ItemsOf(exprs, coerce) {
      var i :| 0 <= i < |items| && items[i] == item;
      assert ItemOf(exprs[i], coerce).value == item;
    }
    forall item | item in ItemsOf(exprs, coerce) ensures item in items {
      var i :| 0 <= i < |exprs| && item == ItemOf(exprs[i], coerce).value;
      assert items[i] == item;
    }
    if Acceptable(exprs, coerce) {
      forall i, j | 0 <= i < j < |items| ensures !Clash(items[i], items[j]) {
        assert !Clash(ItemOf(exprs[i], coerce).value, ItemOf(exprs[j], coerce).value);
      }
    }
  }

  /** `ParseFilter` accepts exactly the lists whose expressions all stand for a condition and do not clash,
    * and its filter then holds their conditions and no other. */
  method ParseFilter(exprs: seq<string>, coerce: Coerce) returns (r: Result<Wire>)
    ensures r.Ok? <==> Acceptable(exprs, coerce)
    ensures r.Ok? ==> Conditions(r.value) == ItemsOf(exprs, coerce) && NoEmptyRange(r.value)
    ensures r.Ok? <==> exists parts :: SplitsInto(exprs, parts) && Admitted(parts, coerce)
    ensures r.Ok? ==> forall parts :: SplitsInto(exprs, parts) ==> MeansAll(r.value, parts, coerce)
  {
    hide ItemOf, Clash, SplitsInto, Admitted, MeansAll, Gathered, SlotsApart, Parsed, Acceptable, Merged, Holds, NoEmptyRange;
    var err, out, ranges, items := Gather(exprs, coerce);
    if err.Some? {
      AcceptableMeans(exprs, coerce);
      return Err(err.value);
    }
    r := Merge(out, ranges);
    ApartOnlyWithoutClash(items, out, ranges);
    ParsedMeans(exprs, coerce, items);
    if r.Ok? {
      MergedHolds(items, out, ranges, r.value);
      AcceptedMeans(exprs, coerce, r.value);
    }
    AcceptableMeans(exprs, coerce);
  }

  /** The conditions of a filter determine it. */
  lemma ConditionsDetermine(f: Wire, g: Wire)
    requires Conditions(f) == Conditions(g) && NoEmptyRange(f) && NoEmptyRange(g)
    ensures f == g
  {
    SameConditions(f, g);
    SameConditions(g, f);
    assert f.Keys == g.Keys;
    forall name | name in f ensures f[name] == g[name] {
      if f[name].Range? && g[name].Range? {
        assert f[name].bounds == g[name].bounds by {
          assert forall key :: key in f[name].bounds ==> Holds(g, Bound(name, key, f[name].bounds[key]));
          assert forall key :: key in g[name].bounds ==> Holds(f, Bound(name, key, g[name].bounds[key]));
          assert f[name].bounds.Keys == g[name].bounds.Keys;
        }
      }
    }
  }

  lemma SameConditions(f: Wire, g: Wire)
    requires Conditions(f) == Conditions(g) && NoEmptyRange(f)
    ensures forall item :: Holds(f, item) ==> Holds(g, item)
    ensures forall name :: name in f ==> name in g && (f[name].Range? <==> g[name].Range?)
                                         && (Bare(f[name]) ==> g[name] == f[name])
  {
    forall item | Holds(f, item) ensures Holds(g, item) {
      assert item in Conditions(f);
    }
    forall name | name in f ensures name in g && (f[name].Range? <==> g[name].Range?) && (Bare(f[name]) ==> g[name] == f[name]) {
      if Bare(f[name]) {
        assert Holds(f, Whole(name, f[name]));
      } else {
        var key :| key in f[name].bounds;
        assert Holds(f, Bound(name, key, f[name].bounds[key]));
      }
    }
  }

  //
  // The order of the expressions
  //

  lemma {:induction false} Occurs(s: seq<string>, e: string)
    ensures e in s <==> multiset(s)[e] > 0
  {
  }

  /** What stands twice in a list has two places in it. */
  lemma {:induction false} TwoPlaces(s: seq<string>, e: string) returns (i: nat, j: nat)
    requires multiset(s)[e] >= 2
    ensures i < j < |s| && s[i] == e && s[j] == e
  {
    var init, last := s[..|s| - 1], s[|s| - 1];
    assert s == init + [last];
    assert multiset(s) == multiset(init) + multiset([last]);
    if last == e {
      Occurs(init, e);
      i :| 0 <= i < |init| && init[i] == e;
      j := |init|;
    } else {
      assert multiset([last])[e] == 0;
      i, j := TwoPlaces(init, e);
    }
  }

  lemma {:induction false} TwoPlacesCount(s: seq<string>, i: nat, j: nat)
    requires i < j < |s| && s[i] == s[j]
    ensures multiset(s)[s[i]] >= 2
  {
    var a, b := s[..j], s[j..];
    assert s == a + b && s[i] == a[i] && s[j] == b[0];
    assert multiset(s) == multiset(a) + multiset(b);
    Occurs(a, s[i]);
    Occurs(b, s[i]);
  }

  lemma AcceptableInAnyOrder(exprs: seq<string>, other: seq<string>, coerce: Coerce)
    requires multiset(exprs) == multiset(other) && Acceptable(exprs, coerce)
    ensures Acceptable(other, coerce)
  {
    hide ItemOf, Clash;
    forall i | 0 <= i < |other| ensures ItemOf(other[i], coerce).Ok? {
      Occurs(other, other[i]);
      Occurs(exprs, other[i]);
    }
    forall i, j | 0 <= i < j < |other|
      ensures !Clash(ItemOf(other[i], coerce).value, ItemOf(other[j], coerce).value)
    {
      if other[i] == other[j] {
        TwoPlacesCount(other, i, j);
        var a, b := TwoPlaces(exprs, other[i]);
      } else {
        Occurs(other, other[i]);
        Occurs(exprs, other[i]);
        Occurs(other, other[j]);
        Occurs(exprs, other[j]);
        var a :| 0 <= a < |exprs| && exprs[a] == other[i];
        var b :| 0 <= b < |exprs| && exprs[b] == other[j];
        ClashSymmetric(ItemOf(exprs[a], coerce).value, ItemOf(exprs[b], coerce).value);
      }
    }
  }

  lemma ClashSymmetric(x: Item, y: Item)
    ensures Clash(x, y) == Clash(y, x)
  {
  }

  /** A list is accepted exactly when every permutation of it is, and the filter is the same. */
  lemma OrderIndependent(exprs: seq<string>, other: seq<string>, coerce: Coerce, f: Wire, g: Wire)
    requires multiset(exprs) == multiset(other)
    ensures Acceptable(exprs, coerce) <==> Acceptable(other, coerce)
    ensures Acceptable(exprs, coerce) && NoEmptyRange(f) && NoEmptyRange(g) ==>
              Conditions(f) == ItemsOf(exprs, coerce) && Conditions(g) == ItemsOf(other, coerce) ==> f == g
  {
    hide ItemOf, Clash;
    if Acceptable(exprs, coerce) {
      AcceptableInAnyOrder(exprs, other, coerce);
      SameItems(exprs, other, coerce);
      SameItems(other, exprs, coerce);
      if NoEmptyRange(f) && NoEmptyRange(g) && Conditions(f) == Conditions(g) {
        ConditionsDetermine(f, g);
      }
    } else if Acceptable(other, coerce) {
      AcceptableInAnyOrder(other, exprs, coerce);
    }
  }

  lemma SameItems(exprs: seq<string>, other: seq<string>, coerce: Coerce)
    requires multiset(exprs) == multiset(other) && AllParse(exprs, coerce) && AllParse(other, coerce)
    ensures ItemsOf(exprs, coerce) <= ItemsOf(other, coerce)
  {
    hide ItemOf;
    forall item | item in ItemsOf(exprs, coerce) ensures item in ItemsOf(other, coerce) {
      var i :| 0 <= i < |exprs| && item == ItemOf(exprs[i], coerce).value;
      Occurs(exprs, exprs[i]);
      Occurs(other, exprs[i]);
      var j :| 0 <= j < |other| && other[j] == exprs[i];
    }
  }

  /** Nothing is merged away: an accepted list has as many conditions as expressions. */
  lemma {:induction false} Conserves(exprs: seq<string>, coerce: Coerce)
    requires Acceptable(exprs, coerce)
    ensures |ItemsOf(exprs, coerce)| == |exprs|
  {
    hide ItemOf;
    if exprs != [] {
      var init, n := exprs[..|exprs| - 1], |exprs| - 1;
      Conserves(init, coerce);
      var last := ItemOf(exprs[n], coerce).value;
      forall item | item in ItemsOf(init, coerce) ensures item != last {
        var i :| 0 <= i < n && item == ItemOf(init[i], coerce).value;
        assert !Clash(ItemOf(exprs[i], coerce).value, last);
      }
      assert forall i :: 0 <= i < n ==> init[i] == exprs[i];
      assert ItemsOf(exprs, coerce) == ItemsOf(init, coerce) + {last};
    }
  }

  //
  // What a filter accepts
  //

  /** A row of a resource: its columns, and the names and values held in each of its tag columns. */
  datatype Row = Row(fields: map<string, Scalar>, tags: map<string, map<string, string>>)

  /** How the resource orders its values. */
  type AtMost = (Scalar, Scalar) -> bool

  predicate Bounded(key: string, x: Scalar, v: Scalar, atMost: AtMost) {
    && (key == "gte" ==> atMost(v, x))
    && (key == "gt" ==> atMost(v, x) && x != v)
    && (key == "lte" ==> atMost(x, v))
    && (key == "lt" ==> atMost(x, v) && x != v)
  }

  /** What the bus makes of the shape of a condition on a column. */
  predicate Meets(row: Row, name: string, c: Condition, atMost: AtMost) {
    match c
    case Equal(v) => name in row.fields && row.fields[name] == v
    case In(vs) => name in row.fields && row.fields[name] in vs
    case Not(inner) => !Meets(row, name, inner, atMost)
    case Contains(key, inner) => name in row.tags && key in row.tags[name] && row.tags[name][key] == inner
    case Range(bounds) =>
      forall key :: key in bounds ==> name in row.fields && Bounded(key, row.fields[name], bounds[key], atMost)
  }

  predicate Accepts(f: Wire, row: Row, atMost: AtMost) {
    forall name :: name in f ==> Meets(row, name, f[name], atMost)
  }

  /** A value is one of those written, between commas if there are any. */
  predicate Among(x: Scalar, name: string, value: string, coerce: Coerce) {
    if ',' in value then exists part :: part in Split(value, ',') && Trim(part) != "" && coerce(name, Trim(part)) == Some(x)
    else coerce(name, value) == Some(x)
  }

  /** The field an expression is about: what stands before a colon, if there is one. */
  ghost predicate FieldOf(name: string, field: string) {
    (':' !in name && field == name) || exists inner :: ContainmentIn(name, field, inner)
  }

  ghost predicate ContainmentIn(name: string, field: string, inner: string) {
    name == field + ":" + inner && ':' !in field
  }

  predicate IsBound(p: Parts) {
    ':' !in p.name && p.op in [">=", "<=", ">", "<"]
  }

  /** What an expression says of a row, read by its operator. */
  ghost predicate SaysOf(p: Parts, row: Row, coerce: Coerce, atMost: AtMost) {
    if ':' in p.name then
      exists field, inner :: ContainmentIn(p.name, field, inner)
                             && field in row.tags && inner in row.tags[field] && row.tags[field][inner] == p.value
    else
      var known := p.name in row.fields;
      match p.op
      case "=" => known && Among(row.fields[p.name], p.name, p.value, coerce)
      case "!=" => !(known && Among(row.fields[p.name], p.name, p.value, coerce))
      case _ => known && exists v :: coerce(p.name, p.value) == Some(v) && Compares(p.op, row.fields[p.name], v, atMost)
  }

  predicate Compares(op: string, x: Scalar, v: Scalar, atMost: AtMost) {
    match op
    case ">=" => atMost(v, x)
    case "<=" => atMost(x, v)
    case ">" => atMost(v, x) && x != v
    case "<" => atMost(x, v) && x != v
    case _ => false
  }

  /** The values an expression writes are those its field takes, a list has one, and a colon asks for "=". */
  predicate Sensible(p: Parts, coerce: Coerce) {
    if ':' in p.name then p.op == "="
    else if ',' in p.value && (p.op == "=" || p.op == "!=") then
      && (exists part :: part in Split(p.value, ',') && Trim(part) != "")
      && (forall part :: part in Split(p.value, ',') && Trim(part) != "" ==> coerce(p.name, Trim(part)).Some?)
    else coerce(p.name, p.value).Some?
  }

  lemma {:induction false} ColonFirst(s: string, i: nat)
    requires i <= |s|
    ensures ColonFrom(s, i).None? ==> forall k :: i <= k < |s| ==> s[k] != ':'
    ensures ColonFrom(s, i).Some? ==>
              var c := ColonFrom(s, i).value;
              i <= c && s[c] == ':' && forall k :: i <= k < c ==> s[k] != ':'
    decreases |s| - i
  {
    if i < |s| && s[i] != ':' {
      ColonFirst(s, i + 1);
    }
  }

  /** A name with a colon is cut at its first one. */
  lemma ColonCuts(name: string)
    ensures FirstColon(name).Some? <==> ':' in name
    ensures FirstColon(name).Some? ==>
              var c := FirstColon(name).value;
              forall field, inner :: ContainmentIn(name, field, inner) <==> field == name[..c] && inner == name[c + 1..]
  {
    ColonFirst(name, 0);
    hide ColonFrom;
    if FirstColon(name).Some? {
      var c := FirstColon(name).value;
      forall field, inner | ContainmentIn(name, field, inner) ensures field == name[..c] && inner == name[c + 1..] {
        assert name[|field|] == ':';
        assert forall k :: 0 <= k < |field| ==> name[k] == field[k];
        assert |field| == c;
      }
      assert name == name[..c] + ":" + name[c + 1..];
    }
  }

  lemma {:induction false} ListedMeans(name: string, parts: seq<string>, coerce: Coerce)
    ensures Listed(name, parts, coerce).Ok? <==>
              forall part :: part in parts && Trim(part) != "" ==> coerce(name, Trim(part)).Some?
    ensures Listed(name, parts, coerce).Ok? ==>
              var vs := Listed(name, parts, coerce).value;
              && (vs != [] <==> exists part :: part in parts && Trim(part) != "")
              && forall x :: x in vs <==> exists part :: part in parts && Trim(part) != "" && coerce(name, Trim(part)) == Some(x)
  {
    hide Trim;
    if parts != [] {
      var init, last := parts[..|parts| - 1], parts[|parts| - 1];
      ListedMeans(name, init, coerce);
      assert parts == init + [last];
      assert forall part :: part in parts <==> part in init || part == last;
    }
  }

  lemma ListValueMeans(row: Row, name: string, value: string, coerce: Coerce, atMost: AtMost)
    ensures ListValue(name, value, coerce).Ok? <==>
              if ',' in value then
                && (exists part :: part in Split(value, ',') && Trim(part) != "")
                && (forall part :: part in Split(value, ',') && Trim(part) != "" ==> coerce(name, Trim(part)).Some?)
              else coerce(name, value).Some?
    ensures ListValue(name, value, coerce).Ok? ==>
              (Meets(row, name, ListValue(name, value, coerce).value, atMost)
               <==> name in row.fields && Among(row.fields[name], name, value, coerce))
  {
    hide Trim, Split;
    ListedMeans(name, Split(value, ','), coerce);
  }

  /** What an item asks of a row. */
  predicate ItemMeets(row: Row, item: Item, atMost: AtMost) {
    match item
    case Whole(name, c) => Meets(row, name, c, atMost)
    case Bound(name, key, v) => name in row.fields && Bounded(key, row.fields[name], v, atMost)
  }

  /** An expression stands for a condition exactly when it is sensible; the condition is about the field before
    * the colon, is a bound exactly for the four comparisons, and asks of a row what the expression says. */
  lemma ItemMeans(p: Parts, row: Row, coerce: Coerce, atMost: AtMost)
    requires p.op in OPERATORS
    ensures ItemOfParts(p, coerce).Ok? <==> Sensible(p, coerce)
    ensures ItemOfParts(p, coerce).Ok? ==>
              var item := ItemOfParts(p, coerce).value;
              && FieldOf(p.name, item.name) && (item.Bound? <==> IsBound(p))
              && (item.Bound? ==> item.key == BoundKey(p.op))
              && (ItemMeets(row, item, atMost) <==> SaysOf(p, row, coerce, atMost))
  {
    hide FirstColon, Among, Trim, Split, ContainmentIn;
    OperatorCharacters(p.op);
    ColonCuts(p.name);
    if FirstColon(p.name).Some? {
      ContainmentMeans(p, row, FirstColon(p.name).value);
    } else if p.op == "=" || p.op == "!=" {
      ListValueMeans(row, p.name, p.value, coerce, atMost);
    }
  }

  lemma ContainmentMeans(p: Parts, row: Row, c: nat)
    requires c < |p.name| && ':' in p.name
    requires forall field, inner :: ContainmentIn(p.name, field, inner) <==> field == p.name[..c] && inner == p.name[c + 1..]
    ensures FieldOf(p.name, p.name[..c])
    ensures forall coerce, atMost ::
              SaysOf(p, row, coerce, atMost) <==>
                var field, inner := p.name[..c], p.name[c + 1..];
                field in row.tags && inner in row.tags[field] && row.tags[field][inner] == p.value
  {
    hide ContainmentIn;
    assert ContainmentIn(p.name, p.name[..c], p.name[c + 1..]);
  }

  /** A filter accepts a row exactly when the row meets each of its conditions. */
  lemma AcceptsByCondition(f: Wire, row: Row, atMost: AtMost)
    ensures Accepts(f, row, atMost) <==> forall item :: item in Conditions(f) ==> ItemMeets(row, item, atMost)
  {
    if forall item :: item in Conditions(f) ==> ItemMeets(row, item, atMost) {
      forall name | name in f ensures Meets(row, name, f[name], atMost) {
        if f[name].Range? {
          var bounds := f[name].bounds;
          forall key | key in bounds ensures name in row.fields && Bounded(key, row.fields[name], bounds[key], atMost) {
            assert Bound(name, key, bounds[key]) in Conditions(f);
          }
        } else {
          assert Whole(name, f[name]) in Conditions(f);
        }
      }
    }
  }

  ghost predicate SplitsInto(exprs: seq<string>, parts: seq<Parts>) {
    |parts| == |exprs| && forall i :: 0 <= i < |exprs| ==> PartsFrom(exprs[i], 0) == Ok(parts[i])
  }

  lemma {:induction false} OperatorOfParts(s: string, i: nat)
    requires i <= |s| && PartsFrom(s, i).Ok?
    ensures PartsFrom(s, i).value.op in OPERATORS
    decreases |s| - i
  {
    hide OPERATORS, Trim;
    if OperatorAt(s, i).None? {
      OperatorOfParts(s, i + 1);
    }
  }

  /** The filter of an accepted list accepts a row exactly when every expression holds of it, each read by its
    * own operator. */
  lemma FilterMeans(exprs: seq<string>, parts: seq<Parts>, coerce: Coerce, f: Wire, row: Row, atMost: AtMost)
    requires Acceptable(exprs, coerce) && Conditions(f) == ItemsOf(exprs, coerce) && SplitsInto(exprs, parts)
    ensures Accepts(f, row, atMost) <==> forall i :: 0 <= i < |parts| ==> SaysOf(parts[i], row, coerce, atMost)
  {
    hide PartsFrom, ItemOfParts, SaysOf, ItemMeets, Clash, Accepts, Sensible, FieldOf, IsBound, BoundKey;
    AcceptsByCondition(f, row, atMost);
    forall i | 0 <= i < |exprs|
      ensures ItemOf(exprs[i], coerce) == ItemOfParts(parts[i], coerce)
      ensures ItemOf(exprs[i], coerce).value in Conditions(f)
      ensures ItemMeets(row, ItemOf(exprs[i], coerce).value, atMost) <==> SaysOf(parts[i], row, coerce, atMost)
    {
      OperatorOfParts(exprs[i], 0);
      ItemMeans(parts[i], row, coerce, atMost);
    }
  }

  /** As many expressions as one likes, each a name, an operator and a value written together. */
  ghost predicate Written(exprs: seq<string>, parts: seq<Parts>) {
    |parts| == |exprs|
    && forall i :: 0 <= i < |exprs| ==>
                     var p := parts[i];
                     exprs[i] == p.name + p.op + p.value && p.op in OPERATORS && Writable(p.name, p.op, p.value)
  }

  lemma WrittenSplits(exprs: seq<string>, parts: seq<Parts>)
    requires Written(exprs, parts)
    ensures SplitsInto(exprs, parts)
  {
    hide PartsFrom, Writable, OPERATORS;
    forall i | 0 <= i < |exprs| ensures PartsFrom(exprs[i], 0) == Ok(parts[i]) {
      WritableSplits(parts[i].name, parts[i].op, parts[i].value);
    }
  }

  /** Two expressions that cannot both stand: of one field, unless they are comparisons by different operators. */
  ghost predicate Exclude(p: Parts, q: Parts) {
    (exists field :: FieldOf(p.name, field) && FieldOf(q.name, field)) && !(IsBound(p) && IsBound(q) && p.op != q.op)
  }

  /** All of them are sensible, and no two exclude each other. */
  ghost predicate Admitted(parts: seq<Parts>, coerce: Coerce) {
    && (forall i :: 0 <= i < |parts| ==> Sensible(parts[i], coerce))
    && (forall i, j :: 0 <= i < j < |parts| ==> !Exclude(parts[i], parts[j]))
  }

  /** The filter accepts exactly the rows of which every expression holds. */
  ghost predicate MeansAll(f: Wire, parts: seq<Parts>, coerce: Coerce) {
    forall row, atMost: AtMost ::
      Accepts(f, row, atMost) <==> forall i :: 0 <= i < |parts| ==> SaysOf(parts[i], row, coerce, atMost)
  }

  lemma AcceptedMeans(exprs: seq<string>, coerce: Coerce, f: Wire)
    requires Acceptable(exprs, coerce) && Conditions(f) == ItemsOf(exprs, coerce)
    ensures forall parts :: SplitsInto(exprs, parts) ==> MeansAll(f, parts, coerce)
  {
    hide Acceptable, SplitsInto, Accepts, SaysOf, ItemOf;
    forall parts, row, atMost: AtMost | SplitsInto(exprs, parts)
      ensures Accepts(f, row, atMost) <==> forall i :: 0 <= i < |parts| ==> SaysOf(parts[i], row, coerce, atMost)
    {
      FilterMeans(exprs, parts, coerce, f, row, atMost);
    }
  }

  lemma AcceptableMeans(exprs: seq<string>, coerce: Coerce)
    ensures Acceptable(exprs, coerce) <==> exists parts :: SplitsInto(exprs, parts) && Admitted(parts, coerce)
  {
    hide Admitted, PartsFrom, ItemOfParts, Clash;
    if Acceptable(exprs, coerce) {
      assert forall i :: 0 <= i < |exprs| ==> ItemOf(exprs[i], coerce).Ok? && PartsFrom(exprs[i], 0).Ok?;
      var parts := seq(|exprs|, i requires 0 <= i < |exprs| => PartsFrom(exprs[i], 0).value);
      assert SplitsInto(exprs, parts);
      AcceptableIff(exprs, parts, coerce);
    }
    if parts :| SplitsInto(exprs, parts) && Admitted(parts, coerce) {
      AcceptableIff(exprs, parts, coerce);
    }
  }

  /** A list is accepted exactly when all its expressions are sensible and no two exclude each other. */
  lemma AcceptableIff(exprs: seq<string>, parts: seq<Parts>, coerce: Coerce)
    requires SplitsInto(exprs, parts)
    ensures Acceptable(exprs, coerce) <==> Admitted(parts, coerce)
  {
    hide PartsFrom, ItemOfParts, Sensible, Clash, Exclude;
    forall i | 0 <= i < |exprs|
      ensures ItemOf(exprs[i], coerce) == ItemOfParts(parts[i], coerce)
      ensures ItemOf(exprs[i], coerce).Ok? <==> Sensible(parts[i], coerce)
    {
      StandsWhenSensible(exprs[i], parts[i], coerce);
    }
    if AllParse(exprs, coerce) {
      forall i, j | 0 <= i < j < |exprs|
        ensures Clash(ItemOf(exprs[i], coerce).value, ItemOf(exprs[j], coerce).value) <==> Exclude(parts[i], parts[j])
      {
        OperatorOfParts(exprs[i], 0);
        OperatorOfParts(exprs[j], 0);
        ClashExcludes(parts[i], parts[j], coerce);
      }
    }
  }

  lemma StandsWhenSensible(expr: string, p: Parts, coerce: Coerce)
    requires PartsFrom(expr, 0) == Ok(p)
    ensures ItemOf(expr, coerce).Ok? <==> Sensible(p, coerce)
  {
    hide PartsFrom, ItemOfParts, Sensible;
    OperatorOfParts(expr, 0);
    ItemMeans(p, Row(map[], map[]), coerce, (x, y) => true);
  }

  /** A name is about one field. */
  lemma OneField(name: string, field: string, other: string)
    requires FieldOf(name, field) && FieldOf(name, other)
    ensures field == other
  {
    hide FirstColon;
    ColonCuts(name);
    forall cut, inner | ContainmentIn(name, cut, inner) ensures ':' in name {
      assert name[|cut|] == ':';
    }
  }

  lemma ClashExcludes(p: Parts, q: Parts, coerce: Coerce)
    requires p.op in OPERATORS && q.op in OPERATORS
    requires ItemOfParts(p, coerce).Ok? && ItemOfParts(q, coerce).Ok?
    ensures Clash(ItemOfParts(p, coerce).value, ItemOfParts(q, coerce).value) <==> Exclude(p, q)
  {
    hide ItemOfParts, FieldOf, Sensible, SaysOf, ItemMeets, OPERATORS;
    var anyRow, anyOrder: AtMost := Row(map[], map[]), (x, y) => true;
    ItemMeans(p, anyRow, coerce, anyOrder);
    ItemMeans(q, anyRow, coerce, anyOrder);
    var x, y := ItemOfParts(p, coerce).value, ItemOfParts(q, coerce).value;
    if field :| FieldOf(p.name, field) && FieldOf(q.name, field) {
      OneField(p.name, field, x.name);
      OneField(q.name, field, y.name);
    }
  }
}
