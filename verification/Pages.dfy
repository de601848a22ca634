/** The iterator of iter.go: a paged list walked from cursor to cursor. */
module Pages {
  import opened Common
  import opened Text

  type Item = string

  /** One reply of a list request; the last page carries no cursor. */
  datatype Reply = Failed(error: string) | Page(items: seq<Item>, cursor: string)

  const CANCELED := "context canceled"

  /** A walk: its items and the error that stopped it. */
  datatype Walk = Walk(items: seq<Item>, err: Option<string>)

  /** The pages' items in order through the first page without a cursor. The replies are those of the
    * requests made before the context ends, as many as they are. */
  function Concatenation(replies: seq<Reply>): Walk {
    if replies == [] then Walk([], Some(CANCELED))
    else match replies[0]
      case Failed(e) => Walk([], Some(e))
      case Page(items, cursor) =>
        if cursor == "" then Walk(items, None)
        else
          var rest := Concatenation(replies[1..]);
          Walk(items + rest.items, rest.err)
  }

  /** The cursor of each request: the query's own, then the previous page's. */
  function Cursors(first: string, replies: seq<Reply>): seq<string>
    decreases |replies|
  {
    [first] + (if replies != [] && replies[0].Page? && replies[0].cursor != ""
               then Cursors(replies[0].cursor, replies[1..]) else [])
  }

  /** How many requests got a page. */
  function Fetched(replies: seq<Reply>): nat {
    if replies == [] || replies[0].Failed? then 0
    else if replies[0].cursor == "" then 1
    else 1 + Fetched(replies[1..])
  }

  ghost predicate PageWithCursor(r: Reply) {
    r.Page? && r.cursor != ""
  }

  function Flattened(replies: seq<Reply>): seq<Item> {
    if replies == [] then []
    else (if replies[0].Page? then replies[0].items else []) + Flattened(replies[1..])
  }

  /** However many pages with a cursor come first, empty ones included, the walk goes through them all up
    * to the page, or the failure, that ends it. */
  lemma {:induction false} WalksEveryPage(first: string, replies: seq<Reply>, k: nat)
    requires k < |replies| && !PageWithCursor(replies[k])
    requires forall i :: 0 <= i < k ==> PageWithCursor(replies[i])
    ensures Concatenation(replies) == Walk(Flattened(replies[..k + 1]),
                                           if replies[k].Failed? then Some(replies[k].error) else None)
    ensures |Cursors(first, replies)| == k + 1 && Cursors(first, replies)[0] == first
    ensures forall i :: 0 < i <= k ==> replies[i - 1].Page? && Cursors(first, replies)[i] == replies[i - 1].cursor
    ensures Fetched(replies) == if replies[k].Failed? then k else k + 1
    decreases k
  {
    assert replies[..k + 1][1..] == replies[1..][..k];
    if k == 0 {
      assert replies[..1][1..] == [];
    } else {
      WalksEveryPage(replies[0].cursor, replies[1..], k - 1);
    }
  }

  class Iterator {
    const first: string
    const replies: seq<Reply>

    var items: seq<Item>
    var pos: nat
    var cursor: string
    var started: bool
    var done: bool
    var err: Option<string>
    var pages: nat
    var seen: nat

    /** The requests the server has seen, by the cursor they asked for. */
    var asked: seq<string>

    ghost function Total(): Walk {
      Concatenation(replies)
    }

    predicate Continues()
      reads this
    {
      err.None? && (!started || cursor != "")
    }

    predicate Finished()
      reads this
    {
      err.Some? || done
    }

    ghost predicate Valid()
      reads this
    {
      && pos <= |items| && seen <= |Total().items|
      && (done ==> pos == |items| && !Continues())
      && (err.Some? ==> pos == |items|)
      && pages == |asked| - (if err.Some? then 1 else 0)
      && if Continues() then
           && |asked| <= |replies|
           && (var rest := replies[|asked|..];
               && Total().items[seen..] == items[pos..] + Concatenation(rest).items
               && Total().err == Concatenation(rest).err
               && Cursors(first, replies) == asked + Cursors(if started then cursor else first, rest)
               && Fetched(replies) == pages + Fetched(rest))
         else
           && Total().items[seen..] == items[pos..]
           && Total().err == err && Cursors(first, replies) == asked && Fetched(replies) == pages
    }

    /** `NewIterator`: nothing is requested yet. */
    constructor (first: string, replies: seq<Reply>)
      ensures Valid() && this.first == first && this.replies == replies
      ensures asked == [] && seen == 0
    {
      this.first, this.replies := first, replies;
      items, pos, cursor := [], 0, "";
      started, done, err, pages, seen, asked := false, false, None, 0, 0, [];
      new;
      assert replies[0..] == replies && asked + Cursors(first, replies) == Cursors(first, replies);
      assert Total().items[0..] == items[pos..] + Concatenation(replies).items;
    }

    /** One more page. An empty page ends the walk only without a cursor. */
    method Fetch() returns (ok: bool)
      requires Valid() && Continues() && !done && pos == |items|
      modifies this
      ensures Valid() && seen == old(seen)
      ensures asked == old(asked) + [old(if started then cursor else first)]
      ensures ok ==> !Finished() && |asked| <= |replies|
      ensures !ok ==> Finished() && seen == |Total().items|
    {
      hide Concatenation, Cursors, Fetched;
      ghost var rest := replies[|asked|..];
      var q := if started then cursor else first;
      OnePage(rest, q);
      var n := |asked|;
      asked := asked + [q];
      if n == |replies| {
        err := Some(CANCELED);
        return false;
      }
      var col := replies[n];
      assert rest[0] == col && rest[1..] == replies[n + 1..];
      if col.Failed? {
        err := Some(col.error);
        return false;
      }
      started := true;
      items, pos, cursor := col.items, 0, col.cursor;
      pages := pages + 1;
      assert items[0..] == items;
      if |items| == 0 && cursor == "" {
        done := true;
        return false;
      }
      return true;
    }

    /** `Next`: whether there is one more item, whatever empty pages come before it. */
    method Next() returns (ok: bool)
      requires Valid()
      modifies this
      ensures Valid() && old(asked) <= asked
      ensures ok <==> old(seen) < |Total().items|
      ensures ok ==> seen == old(seen) + 1 && pos > 0 && items[pos - 1] == Total().items[old(seen)]
      ensures !ok ==> Finished() && seen == old(seen) && err == Total().err
                      && asked == Cursors(first, replies) && pages == Fetched(replies)
      ensures old(Finished()) ==> asked == old(asked)
    {
      hide Concatenation, Cursors, Fetched;
      while true
        invariant Valid() && seen == old(seen) && old(asked) <= asked
        invariant old(Finished()) ==> Finished() && asked == old(asked)
        decreases |replies| + 1 - |asked|
      {
        if err.Some? || done {
          return false;
        }
        if pos < |items| {
          assert Total().items[seen..][0] == items[pos..][0];
          assert Total().items[seen + 1..] == Total().items[seen..][1..];
          pos := pos + 1;
          seen := seen + 1;
          return true;
        }
        if started && cursor == "" {
          done := true;
          return false;
        }
        var more := Fetch();
        if !more {
          return false;
        }
      }
    }
  }

  lemma OnePage(rest: seq<Reply>, q: string)
    ensures var next := Concatenation(rest);
            if rest == [] then next == Walk([], Some(CANCELED)) && Cursors(q, rest) == [q] && Fetched(rest) == 0
            else if rest[0].Failed? then next == Walk([], Some(rest[0].error)) && Cursors(q, rest) == [q] && Fetched(rest) == 0
            else if rest[0].cursor == "" then next == Walk(rest[0].items, None) && Cursors(q, rest) == [q] && Fetched(rest) == 1
            else next == Walk(rest[0].items + Concatenation(rest[1..]).items, Concatenation(rest[1..]).err)
                 && Cursors(q, rest) == [q] + Cursors(rest[0].cursor, rest[1..]) && Fetched(rest) == 1 + Fetched(rest[1..])
  {
  }

  /** `joinRawArray`, into a buffer of exactly the size it computes first. */
  method JoinRawArray(items: seq<Item>) returns (out: string)
    ensures out == "[" + Join(items, ',') + "]"
  {
    hide Join;
    if |items| == 0 {
      EmptyJoin();
      return "[]";
    }
    ghost var n := 2 + |items| - 1;
    for i := 0 to |items|
      invariant n == 2 + |items| - 1 + TotalLength(items[..i])
    {
      assert items[..i + 1][..i] == items[..i];
      n := n + |items[i]|;
    }
    out := "[";
    for i := 0 to |items|
      invariant if i == 0 then out == "[" else out == "[" + Join(items[..i], ',')
    {
      JoinOneMore(items[..i], items[i], ',');
      assert items[..i + 1] == items[..i] + [items[i]];
      if i > 0 {
        out := out + ",";
      }
      out := out + items[i];
    }
    assert items[..|items|] == items;
    out := out + "]";
    JoinedLength(items, ',');
    assert |out| == n;
  }

  lemma EmptyJoin()
    ensures Join([], ',') == ""
  {
  }

  function TotalLength(items: seq<string>): nat {
    if items == [] then 0 else TotalLength(items[..|items| - 1]) + |items[|items| - 1]|
  }

  lemma {:induction false} JoinOneMore(items: seq<string>, last: string, sep: char)
    ensures Join(items + [last], sep) == if items == [] then last else Join(items, sep) + [sep] + last
  {
    if |items| > 1 {
      JoinOneMore(items[1..], last, sep);
      assert (items + [last])[1..] == items[1..] + [last];
    } else if |items| == 1 {
      assert (items + [last])[1..] == [last];
    }
  }

  lemma {:induction false} JoinedLength(items: seq<string>, sep: char)
    requires items != []
    ensures |Join(items, sep)| == TotalLength(items) + |items| - 1
  {
    var init := items[..|items| - 1];
    assert items == init + [items[|items| - 1]];
    JoinOneMore(init, items[|items| - 1], sep);
    if init != [] {
      JoinedLength(init, sep);
    }
  }

  /** `allInto`, up to the decoding: every item in one array, or the error that stopped the walk. */
  method All(it: Iterator) returns (err: Option<string>, joined: string)
    requires it.Valid() && it.seen == 0
    modifies it
    ensures err == it.Total().err
    ensures err.None? ==> joined == "[" + Join(it.Total().items, ',') + "]"
  {
    hide Concatenation, Cursors, Fetched, Join;
    var raw: seq<Item> := [];
    var more := it.Next();
    while more
      invariant it.Valid()
      invariant more ==> it.seen > 0 && it.pos > 0 && it.pos <= |it.items|
                         && raw == it.Total().items[..it.seen - 1] && it.items[it.pos - 1] == it.Total().items[it.seen - 1]
      invariant !more ==> raw == it.Total().items && it.err == it.Total().err
      decreases |it.Total().items| - it.seen, more
    {
      raw := raw + [it.items[it.pos - 1]];
      more := it.Next();
    }
    if it.err.Some? {
      return it.err, "";
    }
    joined := JoinRawArray(raw);
    err := None;
  }
}
