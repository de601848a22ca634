/** Desktop notices that do not flood the desktop, after internal/docsync/alerts.go: notices of a kind are
 * spaced, and those that come too early wait and are told together. */
module Alerts {
  import opened Common

  datatype Kind = Conflict | Failure | Uninstalled | Unavailable

  datatype Event = Event(kind: Kind, path: string)

  /** The kinds that are gathered; the others are said at once. */
  predicate Gathered(kind: Kind) {
    kind.Conflict? || kind.Failure?
  }

  datatype Group = Group(pending: seq<Event>, notified: map<string, int>, firstAt: int, lastAt: int, lastSent: Option<int>)

  const NEW_GROUP := Group([], map[], 0, 0, None)

  /** A notice: its kind, when it was sent and the events it speaks of. */
  datatype Notice = Notice(kind: Kind, at: int, events: seq<Event>)

  datatype Spacing = Spacing(every: int, quiet: int, maxGather: int)

  predicate Pending(g: Group, path: string) {
    exists i :: 0 <= i < |g.pending| && g.pending[i].path == path
  }

  predicate Names(n: Notice, kind: Kind, path: string) {
    n.kind == kind && exists i :: 0 <= i < |n.events| && n.events[i].path == path
  }

  /** When a group is sent: spaced from its last notice, and quiet or gathered for long enough. */
  predicate Due(g: Group, now: int, s: Spacing) {
    && g.pending != []
    && (g.lastSent.Some? ==> now - g.lastSent.value >= s.every)
    && (now - g.lastAt >= s.quiet || now - g.firstAt >= s.maxGather)
  }

  function Told(notified: map<string, int>, events: seq<Event>, now: int): map<string, int> {
    if events == [] then notified
    else Told(notified, events[..|events| - 1], now)[events[|events| - 1].path := now]
  }

  function Cleared(g: Group, now: int): Group {
    g.(pending := [], notified := Told(g.notified, g.pending, now), lastSent := Some(now))
  }

  /** A group after an event: a path told less than `every` ago, or pending, is left as it is. */
  function AddedTo(g: Group, ev: Event, now: int, every: int): Group {
    if (ev.path in g.notified && now - g.notified[ev.path] < every) || Pending(g, ev.path) then g
    else g.(firstAt := if g.pending == [] then now else g.firstAt, lastAt := now, pending := g.pending + [ev])
  }

  type Groups = map<Kind, Group>

  function GroupOf(groups: Groups, kind: Kind): Group {
    if kind in groups then groups[kind] else NEW_GROUP
  }

  //
  // What every call keeps
  //

  /** An event that was added, and when. */
  datatype Added = Added(kind: Kind, path: string, at: int)

  ghost predicate Spaced(sent: seq<Notice>, every: int) {
    forall i, j :: 0 <= i < j < |sent| && sent[i].kind == sent[j].kind && Gathered(sent[i].kind) ==>
                     sent[i].at + every <= sent[j].at
  }

  /** What a group remembers of the notices of its kind. */
  ghost predicate Remembers(g: Group, kind: Kind, sent: seq<Notice>) {
    && (forall i :: 0 <= i < |sent| && sent[i].kind == kind ==> g.lastSent.Some? && sent[i].at <= g.lastSent.value)
    && (forall path :: path in g.notified ==>
          exists i :: 0 <= i < |sent| && Names(sent[i], kind, path) && sent[i].at == g.notified[path])
  }

  ghost predicate InNotice(sent: seq<Notice>, kind: Kind, path: string, after: int) {
    exists i :: 0 <= i < |sent| && Names(sent[i], kind, path) && sent[i].at > after
  }

  /** An added path is pending, or was told less than `every` before it was added, or later. */
  ghost predicate Kept(a: Added, groups: Groups, sent: seq<Notice>, every: int) {
    Pending(GroupOf(groups, a.kind), a.path) || InNotice(sent, a.kind, a.path, a.at - every)
  }

  predicate EachOnce(events: seq<Event>, kind: Kind) {
    (forall i :: 0 <= i < |events| ==> events[i].kind == kind)
    && forall i, j :: 0 <= i < j < |events| ==> events[i].path != events[j].path
  }

  ghost predicate Inv(groups: Groups, sent: seq<Notice>, added: seq<Added>, clock: int, every: int) {
    && Spaced(sent, every)
    && (forall kind :: Gathered(kind) ==> Remembers(GroupOf(groups, kind), kind, sent))
    && (forall kind :: kind in groups ==> Gathered(kind) && EachOnce(groups[kind].pending, kind))
    && (forall i :: 0 <= i < |sent| ==> EachOnce(sent[i].events, sent[i].kind))
    && (forall i :: 0 <= i < |added| ==> added[i].at <= clock && Kept(added[i], groups, sent, every))
  }

  lemma {:induction false} ToldMeans(notified: map<string, int>, events: seq<Event>, now: int, path: string)
    ensures var named := exists i :: 0 <= i < |events| && events[i].path == path;
            && (path in Told(notified, events, now) <==> path in notified || named)
            && (path in Told(notified, events, now) ==>
                  Told(notified, events, now)[path] == if named then now else notified[path])
  {
    if events != [] {
      var n := |events| - 1;
      ToldMeans(notified, events[..n], now, path);
      if i :| 0 <= i < |events| && events[i].path == path {
        assert i < n ==> events[..n][i].path == path;
      }
    }
  }

  /** Sending a due group keeps its kind spaced and loses nothing. */
  lemma SendKeeps(groups: Groups, sent: seq<Notice>, added: seq<Added>, now: int, s: Spacing, kind: Kind)
    requires Inv(groups, sent, added, now, s.every) && s.every > 0
    requires kind in groups && Due(groups[kind], now, s)
    ensures Inv(groups[kind := Cleared(groups[kind], now)], sent + [Notice(kind, now, groups[kind].pending)], added, now, s.every)
  {
    assert groups[kind].lastSent.Some? ==> groups[kind].lastSent.value <= now;
    hide Told, Due;
    var g := groups[kind];
    var next, sent' := groups[kind := Cleared(g, now)], sent + [Notice(kind, now, g.pending)];
    SendSpaced(sent, Notice(kind, now, g.pending), g, s);
    forall k | Gathered(k) ensures Remembers(GroupOf(next, k), k, sent') {
      SendRemembered(groups, sent, k, kind, now);
    }
    forall i | 0 <= i < |added| ensures Kept(added[i], next, sent', s.every) {
      StillKept(added[i], groups, sent, now, s.every, kind);
    }
  }

  lemma SendSpaced(sent: seq<Notice>, n: Notice, g: Group, s: Spacing)
    requires Spaced(sent, s.every) && Remembers(g, n.kind, sent) && Due(g, n.at, s)
    ensures Spaced(sent + [n], s.every)
  {
  }

  lemma SendRemembered(groups: Groups, sent: seq<Notice>, k: Kind, kind: Kind, now: int)
    requires kind in groups && Remembers(GroupOf(groups, k), k, sent)
    requires k == kind && groups[kind].lastSent.Some? ==> groups[kind].lastSent.value <= now
    ensures Remembers(GroupOf(groups[kind := Cleared(groups[kind], now)], k), k,
                      sent + [Notice(kind, now, groups[kind].pending)])
  {
    hide Told, Names;
    var g := GroupOf(groups, k);
    var n := Notice(kind, now, groups[kind].pending);
    var sent' := sent + [n];
    forall path | path in g.notified
      ensures exists i :: 0 <= i < |sent'| && Names(sent'[i], k, path) && sent'[i].at == g.notified[path]
    {
      var i :| 0 <= i < |sent| && Names(sent[i], k, path) && sent[i].at == g.notified[path];
      assert sent'[i] == sent[i];
    }
    if k == kind {
      forall path | path in Told(g.notified, g.pending, now)
        ensures exists i :: 0 <= i < |sent'| && Names(sent'[i], k, path) && sent'[i].at == Told(g.notified, g.pending, now)[path]
      {
        ToldMeans(g.notified, g.pending, now, path);
        NoticeNames(n, path);
        assert sent'[|sent|] == n;
      }
    }
  }

  lemma NoticeNames(n: Notice, path: string)
    ensures Names(n, n.kind, path) <==> exists i :: 0 <= i < |n.events| && n.events[i].path == path
  {
  }

  lemma StillKept(a: Added, groups: Groups, sent: seq<Notice>, now: int, every: int, kind: Kind)
    requires every > 0 && kind in groups && a.at <= now && Kept(a, groups, sent, every)
    ensures Kept(a, groups[kind := Cleared(groups[kind], now)], sent + [Notice(kind, now, groups[kind].pending)], every)
  {
    hide Told, Names;
    var n := Notice(kind, now, groups[kind].pending);
    var sent' := sent + [n];
    if InNotice(sent, a.kind, a.path, a.at - every) {
      var i :| 0 <= i < |sent| && Names(sent[i], a.kind, a.path) && sent[i].at > a.at - every;
      assert sent'[i] == sent[i];
    } else if a.kind == kind {
      NoticeNames(n, a.path);
      assert sent'[|sent|] == n;
    }
  }

  //
  // What was told when, from the calls alone
  //

  /** What happened, in order: an event was accepted or not, a notice was sent, `Flush` was done. */
  datatype Entry = Accepted(ev: Event, at: int) | Ignored(ev: Event, at: int) | Said(n: Notice) | Flushed(at: int)

  /** What was accepted of a kind since its last notice, and when. */
  function Waiting(log: seq<Entry>, kind: Kind): seq<(Event, int)> {
    if log == [] then []
    else
      var before, last := Waiting(log[..|log| - 1], kind), log[|log| - 1];
      match last
      case Accepted(ev, at) => if ev.kind == kind then before + [(ev, at)] else before
      case Said(n) => if n.kind == kind then [] else before
      case _ => before
  }

  function EventsOf(waiting: seq<(Event, int)>): (events: seq<Event>)
    ensures |events| == |waiting| && forall i :: 0 <= i < |events| ==> events[i] == waiting[i].0
  {
    if waiting == [] then [] else EventsOf(waiting[..|waiting| - 1]) + [waiting[|waiting| - 1].0]
  }

  /** When the last notice of a kind was sent. */
  function LastSaid(log: seq<Entry>, kind: Kind): Option<int> {
    if log == [] then None
    else
      match log[|log| - 1]
      case Said(n) => if n.kind == kind then Some(n.at) else LastSaid(log[..|log| - 1], kind)
      case _ => LastSaid(log[..|log| - 1], kind)
  }

  predicate Speaks(n: Notice, path: string) {
    exists i :: 0 <= i < |n.events| && n.events[i].path == path
  }

  /** When a path was last named in a notice of the kind. */
  function LastTold(log: seq<Entry>, kind: Kind, path: string): Option<int> {
    if log == [] then None
    else
      match log[|log| - 1]
      case Said(n) => if n.kind == kind && Speaks(n, path) then Some(n.at) else LastTold(log[..|log| - 1], kind, path)
      case _ => LastTold(log[..|log| - 1], kind, path)
  }

  /** The event says nothing new: its path was told less than `every` ago, or waits to be. */
  predicate Repeats(log: seq<Entry>, ev: Event, at: int, every: int) {
    var told, waiting := LastTold(log, ev.kind, ev.path), EventsOf(Waiting(log, ev.kind));
    (told.Some? && at - told.value < every) || exists i :: 0 <= i < |waiting| && waiting[i].path == ev.path
  }

  /** A kind is to be told of: something waits, the last notice is `every` ago or more, and either nothing was
    * accepted for `quiet` or the first was `maxGather` ago. */
  predicate ToBeTold(log: seq<Entry>, kind: Kind, at: int, s: Spacing) {
    var waiting, last := Waiting(log, kind), LastSaid(log, kind);
    && waiting != []
    && (last.None? || at - last.value >= s.every)
    && (at - waiting[|waiting| - 1].1 >= s.quiet || at - waiting[0].1 >= s.maxGather)
  }

  predicate IsGathered(entry: Entry) {
    entry.Said? && Gathered(entry.n.kind)
  }

  /** The gathered notices at the end were sent at this time. */
  predicate SentNow(log: seq<Entry>, at: int) {
    log == [] || !IsGathered(log[|log| - 1]) || (log[|log| - 1].n.at == at && SentNow(log[..|log| - 1], at))
  }

  /** What may come next. */
  predicate Right(log: seq<Entry>, entry: Entry, s: Spacing) {
    match entry
    case Accepted(ev, at) => Gathered(ev.kind) && !Repeats(log, ev, at, s.every) && Complete(log)
    case Ignored(ev, at) => Gathered(ev.kind) && Repeats(log, ev, at, s.every) && Complete(log)
    case Said(n) =>
      if Gathered(n.kind) then n.events == EventsOf(Waiting(log, n.kind)) && ToBeTold(log, n.kind, n.at, s)
      else |n.events| == 1 && n.events[0].kind == n.kind && Complete(log)
    case Flushed(at) => SentNow(log, at) && forall kind :: Gathered(kind) ==> !ToBeTold(log, kind, at, s)
  }

  /** No `Flush` is under way. */
  predicate Complete(log: seq<Entry>) {
    log == [] || !IsGathered(log[|log| - 1])
  }

  ghost predicate RightAt(log: seq<Entry>, i: int, s: Spacing)
    requires 0 <= i < |log|
  {
    Right(log[..i], log[i], s)
  }

  ghost predicate AllRight(log: seq<Entry>, s: Spacing) {
    forall i :: 0 <= i < |log| ==> RightAt(log, i, s)
  }

  function Notices(log: seq<Entry>): seq<Notice> {
    if log == [] then []
    else Notices(log[..|log| - 1]) + if log[|log| - 1].Said? then [log[|log| - 1].n] else []
  }

  /** The calls that made it. */
  function CallsOf(log: seq<Entry>): seq<Call> {
    if log == [] then []
    else
      CallsOf(log[..|log| - 1]) +
      match log[|log| - 1]
      case Accepted(ev, at) => [AddCall(ev, at)]
      case Ignored(ev, at) => [AddCall(ev, at)]
      case Said(n) => if Gathered(n.kind) || n.events == [] then [] else [AddCall(n.events[0], n.at)]
      case Flushed(at) => [FlushCall(at)]
  }

  /** What a group remembers is what happened. */
  ghost predicate Matches(g: Group, log: seq<Entry>, kind: Kind) {
    var waiting := Waiting(log, kind);
    && g.pending == EventsOf(waiting)
    && (waiting != [] ==> g.firstAt == waiting[0].1 && g.lastAt == waiting[|waiting| - 1].1)
    && g.lastSent == LastSaid(log, kind)
    && forall path :: LastTold(log, kind, path) == if path in g.notified then Some(g.notified[path]) else None
  }

  ghost predicate AllMatch(groups: Groups, log: seq<Entry>) {
    forall kind :: Gathered(kind) ==> Matches(GroupOf(groups, kind), log, kind)
  }

  ghost predicate Logged(groups: Groups, sent: seq<Notice>, log: seq<Entry>, s: Spacing) {
    AllMatch(groups, log) && AllRight(log, s) && Notices(log) == sent
  }

  lemma LogMore(log: seq<Entry>, entry: Entry, s: Spacing)
    requires AllRight(log, s) && Right(log, entry, s)
    ensures AllRight(log + [entry], s) && (log + [entry])[..|log|] == log
  {
    hide Right;
    var more := log + [entry];
    assert more[..|log|] == log;
    forall i | 0 <= i < |more| ensures RightAt(more, i, s) {
      if i < |log| {
        assert RightAt(log, i, s) && more[..i] == log[..i];
      }
    }
  }

  /** The group waits for its time exactly when the kind is to be told of. */
  lemma DueIff(g: Group, log: seq<Entry>, kind: Kind, now: int, s: Spacing)
    requires Matches(g, log, kind)
    ensures Due(g, now, s) <==> ToBeTold(log, kind, now, s)
  {
    hide Waiting, LastTold, LastSaid;
  }

  lemma RepeatsIff(g: Group, log: seq<Entry>, ev: Event, now: int, every: int)
    requires Matches(g, log, ev.kind)
    ensures Repeats(log, ev, now, every) <==> (ev.path in g.notified && now - g.notified[ev.path] < every) || Pending(g, ev.path)
  {
    hide Waiting, LastTold, LastSaid;
    assert LastTold(log, ev.kind, ev.path) == if ev.path in g.notified then Some(g.notified[ev.path]) else None;
  }

  predicate Concerns(entry: Entry, kind: Kind) {
    (entry.Accepted? && entry.ev.kind == kind) || (entry.Said? && entry.n.kind == kind)
  }

  lemma MatchesStill(g: Group, log: seq<Entry>, kind: Kind, entry: Entry)
    requires Matches(g, log, kind) && !Concerns(entry, kind)
    ensures Matches(g, log + [entry], kind)
  {
    hide Speaks;
    assert (log + [entry])[..|log|] == log;
    forall path ensures LastTold(log + [entry], kind, path) == LastTold(log, kind, path) {
    }
  }

  lemma AllMatchStill(groups: Groups, groups': Groups, log: seq<Entry>, kind: Kind, entry: Entry)
    requires AllMatch(groups, log) && forall k :: k != kind ==> GroupOf(groups', k) == GroupOf(groups, k)
    requires forall k :: k != kind ==> !Concerns(entry, k)
    requires Gathered(kind) ==> Matches(GroupOf(groups', kind), log + [entry], kind)
    ensures AllMatch(groups', log + [entry])
  {
    hide Matches, Concerns;
    forall k | Gathered(k) ensures Matches(GroupOf(groups', k), log + [entry], k) {
      if k != kind {
        MatchesStill(GroupOf(groups, k), log, k, entry);
      }
    }
  }

  lemma MatchesAdded(g: Group, log: seq<Entry>, ev: Event, now: int)
    requires Matches(g, log, ev.kind)
    ensures Matches(g.(firstAt := if g.pending == [] then now else g.firstAt, lastAt := now, pending := g.pending + [ev]),
                    log + [Accepted(ev, now)], ev.kind)
  {
    hide Speaks;
    var more := log + [Accepted(ev, now)];
    assert more[..|log|] == log;
    var waiting := Waiting(log, ev.kind);
    assert Waiting(more, ev.kind) == waiting + [(ev, now)];
    assert (waiting + [(ev, now)])[..|waiting|] == waiting;
    forall path ensures LastTold(more, ev.kind, path) == LastTold(log, ev.kind, path) {
    }
  }

  lemma MatchesSaid(g: Group, log: seq<Entry>, kind: Kind, now: int)
    requires Matches(g, log, kind)
    ensures Matches(Cleared(g, now), log + [Said(Notice(kind, now, g.pending))], kind)
  {
    hide Told;
    var n := Notice(kind, now, g.pending);
    var more := log + [Said(n)];
    assert more[..|log|] == log;
    forall path ensures LastTold(more, kind, path) == if path in Cleared(g, now).notified then Some(Cleared(g, now).notified[path]) else None {
      ToldMeans(g.notified, g.pending, now, path);
      assert LastTold(log, kind, path) == if path in g.notified then Some(g.notified[path]) else None;
    }
  }

  /** What one event adds to what happened. */
  lemma NextLogged(groups: Groups, sent: seq<Notice>, log: seq<Entry>, s: Spacing, ev: Event, now: int)
    requires Logged(groups, sent, log, s) && Complete(log)
    ensures var g := GroupOf(groups, ev.kind);
            var skipped := (ev.path in g.notified && now - g.notified[ev.path] < s.every) || Pending(g, ev.path);
            var entry := if !Gathered(ev.kind) then Said(Notice(ev.kind, now, [ev])) else if skipped then Ignored(ev, now)
                         else Accepted(ev, now);
            && Logged(if !Gathered(ev.kind) then groups else groups[ev.kind := AddedTo(g, ev, now, s.every)],
                      if Gathered(ev.kind) then sent else sent + [Notice(ev.kind, now, [ev])], log + [entry], s)
            && Complete(log + [entry]) && CallsOf(log + [entry]) == CallsOf(log) + [AddCall(ev, now)]
  {
    hide Matches, Repeats, Pending, Waiting;
    var g := GroupOf(groups, ev.kind);
    var skipped := (ev.path in g.notified && now - g.notified[ev.path] < s.every) || Pending(g, ev.path);
    var entry := if !Gathered(ev.kind) then Said(Notice(ev.kind, now, [ev])) else if skipped then Ignored(ev, now)
                 else Accepted(ev, now);
    var groups' := if !Gathered(ev.kind) then groups else groups[ev.kind := AddedTo(g, ev, now, s.every)];
    if Gathered(ev.kind) {
      RepeatsIff(g, log, ev, now, s.every);
      if skipped {
        MatchesStill(g, log, ev.kind, entry);
      } else {
        MatchesAdded(g, log, ev, now);
      }
    }
    LogMore(log, entry, s);
    AllMatchStill(groups, groups', log, ev.kind, entry);
  }

  /** A notice of a kind that is to be told of. */
  lemma SaidLogged(groups: Groups, sent: seq<Notice>, log: seq<Entry>, s: Spacing, kind: Kind, now: int)
    requires Logged(groups, sent, log, s) && SentNow(log, now) && Gathered(kind) && kind in groups && Due(groups[kind], now, s)
    ensures var n := Notice(kind, now, groups[kind].pending);
            && Logged(groups[kind := Cleared(groups[kind], now)], sent + [n], log + [Said(n)], s)
            && SentNow(log + [Said(n)], now) && CallsOf(log + [Said(n)]) == CallsOf(log)
  {
    hide Waiting, Due;
    var n := Notice(kind, now, groups[kind].pending);
    assert Matches(groups[kind], log, kind);
    DueIff(groups[kind], log, kind, now, s);
    MatchesSaid(groups[kind], log, kind, now);
    hide Matches, ToBeTold;
    LogMore(log, Said(n), s);
    AllMatchStill(groups, groups[kind := Cleared(groups[kind], now)], log, kind, Said(n));
  }

  /** Once no group is due, nothing is to be told of. */
  lemma FlushLogged(groups: Groups, sent: seq<Notice>, log: seq<Entry>, s: Spacing, now: int)
    requires Logged(groups, sent, log, s) && SentNow(log, now)
    requires forall kind :: kind in groups ==> !Due(groups[kind], now, s)
    ensures Logged(groups, sent, log + [Flushed(now)], s) && Complete(log + [Flushed(now)])
    ensures CallsOf(log + [Flushed(now)]) == CallsOf(log) + [FlushCall(now)]
  {
    hide Waiting, ToBeTold, SentNow;
    forall kind | Gathered(kind) ensures !ToBeTold(log, kind, now, s) {
      DueIff(GroupOf(groups, kind), log, kind, now, s);
    }
    hide Matches, Due;
    LogMore(log, Flushed(now), s);
    forall kind | Gathered(kind) ensures Matches(GroupOf(groups, kind), log + [Flushed(now)], kind) {
      MatchesStill(GroupOf(groups, kind), log, kind, Flushed(now));
    }
  }

  /** These groups are cleared if they were due, and the others are as they were. */
  ghost predicate ClearedBut(groups: Groups, groups': Groups, todo: set<Kind>, now: int, s: Spacing) {
    groups'.Keys == groups.Keys
    && forall kind :: kind in groups ==>
                        groups'[kind] == if kind !in todo && Due(groups[kind], now, s) then Cleared(groups[kind], now) else groups[kind]
  }

  ghost predicate AllTold(groups: Groups, todo: set<Kind>, out: seq<Notice>, now: int, s: Spacing) {
    forall kind :: kind in groups && kind !in todo && Due(groups[kind], now, s) ==> Notice(kind, now, groups[kind].pending) in out
  }

  lemma NoneCleared(groups: Groups, now: int, s: Spacing)
    ensures ClearedBut(groups, groups, groups.Keys, now, s) && AllTold(groups, groups.Keys, [], now, s)
  {
  }

  lemma OneCleared(groups: Groups, groups': Groups, todo: set<Kind>, out: seq<Notice>, kind: Kind, now: int, s: Spacing)
    requires ClearedBut(groups, groups', todo, now, s) && AllTold(groups, todo, out, now, s) && kind in todo && kind in groups
    ensures kind in groups' && groups'[kind] == groups[kind]
    ensures Due(groups[kind], now, s) ==>
              && ClearedBut(groups, groups'[kind := Cleared(groups[kind], now)], todo - {kind}, now, s)
              && AllTold(groups, todo - {kind}, out + [Notice(kind, now, groups[kind].pending)], now, s)
    ensures !Due(groups[kind], now, s) ==>
              ClearedBut(groups, groups', todo - {kind}, now, s) && AllTold(groups, todo - {kind}, out, now, s)
  {
    hide Due, Cleared;
  }

  lemma NotDueOnceCleared(g: Group, now: int, s: Spacing)
    ensures !Due(Cleared(g, now), now, s)
  {
  }

  class Alerts {
    const spacing: Spacing

    var groups: Groups
    /** What `Send` was given, in order. */
    var sent: seq<Notice>

    ghost var added: seq<Added>
    ghost var log: seq<Entry>
    ghost var clock: int

    ghost predicate Valid()
      reads this
    {
      spacing.every > 0 && Inv(groups, sent, added, clock, spacing.every) && Logged(groups, sent, log, spacing) && Complete(log)
    }

    constructor (spacing: Spacing, now: int)
      requires spacing.every > 0
      ensures Valid() && sent == [] && added == [] && log == [] && clock == now && this.spacing == spacing
    {
      this.spacing := spacing;
      groups, sent, added, log, clock := map[], [], [], [], now;
    }

    /** `Add`. */
    method Add(ev: Event, now: int)
      requires Valid() && clock <= now
      modifies this
      ensures Valid() && clock == now
      ensures !Gathered(ev.kind) ==> sent == old(sent) + [Notice(ev.kind, now, [ev])]
                                     && groups == old(groups) && added == old(added)
      ensures Gathered(ev.kind) ==>
                sent == old(sent) && added == old(added) + [Added(ev.kind, ev.path, now)]
                && groups == old(groups)[ev.kind := AddedTo(GroupOf(old(groups), ev.kind), ev, now, spacing.every)]
      ensures Gathered(ev.kind) ==> Pending(GroupOf(groups, ev.kind), ev.path)
                                    || InNotice(sent, ev.kind, ev.path, now - spacing.every)
      ensures CallsOf(log) == old(CallsOf(log)) + [AddCall(ev, now)]
    {
      hide Inv, InNotice, Logged, Right, Pending;
      LaterClock(groups, sent, added, clock, now, spacing.every);
      clock := now;
      NextLogged(groups, sent, log, spacing, ev, now);
      if !Gathered(ev.kind) {
        log := log + [Said(Notice(ev.kind, now, [ev]))];
        SingleEvent(ev);
        SaidAtOnce(groups, sent, added, now, spacing.every, Notice(ev.kind, now, [ev]));
        sent := sent + [Notice(ev.kind, now, [ev])];
        return;
      }
      var g := GroupOf(groups, ev.kind);
      ghost var a := Added(ev.kind, ev.path, now);
      if ev.path in g.notified && now - g.notified[ev.path] < spacing.every {
        log := log + [Ignored(ev, now)];
        ToldAlready(groups, sent, added, now, spacing.every, a);
        added := added + [a];
        groups := groups[ev.kind := g];
        return;
      }
      if Pending(g, ev.path) {
        log := log + [Ignored(ev, now)];
        PendingAlready(groups, sent, added, now, spacing.every, a);
        added := added + [a];
        groups := groups[ev.kind := g];
        return;
      }
      log := log + [Accepted(ev, now)];
      GatheredOnce(groups, sent, added, now, spacing.every, ev);
      g := g.(firstAt := if |g.pending| == 0 then now else g.firstAt, lastAt := now, pending := g.pending + [ev]);
      groups := groups[ev.kind := g];
      added := added + [a];
    }

    /** `Flush`: every due kind is sent, and no other; the kinds come in any order. */
    method Flush(now: int)
      requires Valid() && clock <= now
      modifies this
      ensures Valid() && clock == now && added == old(added)
      ensures old(sent) <= sent && groups.Keys == old(groups).Keys
      ensures forall kind :: kind in old(groups) ==>
                groups[kind] == if Due(old(groups)[kind], now, spacing) then Cleared(old(groups)[kind], now) else old(groups)[kind]
      ensures forall kind :: kind in old(groups) && Due(old(groups)[kind], now, spacing) ==>
                Notice(kind, now, old(groups)[kind].pending) in sent[|old(sent)|..]
      ensures forall kind :: kind in old(groups) && Overdue(old(groups)[kind], now, spacing) ==>
                groups[kind].pending == [] && Notice(kind, now, old(groups)[kind].pending) in sent
      ensures CallsOf(log) == old(CallsOf(log)) + [FlushCall(now)]
    {
      hide Inv, Due, Cleared, Overdue, Logged, CallsOf, SentNow, Complete, Gathered;
      LaterClock(groups, sent, added, clock, now, spacing.every);
      OnlyGathered(groups, sent, added, now, spacing.every);
      NothingSentNow(log, now);
      clock := now;
      var out := Collect(now);
      sent := sent + out;
      forall kind | kind in groups ensures !Due(groups[kind], now, spacing) {
        NotDueOnceCleared(old(groups)[kind], now, spacing);
      }
      FlushLogged(groups, sent, log, spacing, now);
      log := log + [Flushed(now)];
      assert sent[|old(sent)|..] == out;
      forall kind | kind in old(groups) && Overdue(old(groups)[kind], now, spacing)
        ensures Due(old(groups)[kind], now, spacing) && Cleared(old(groups)[kind], now).pending == []
      {
        OverdueIsSent(old(groups)[kind], now, spacing);
      }
    }

    /** The notices of the kinds that are due, whose groups are cleared. */
    method Collect(now: int) returns (out: seq<Notice>)
      requires spacing.every > 0 && Inv(groups, sent, added, now, spacing.every)
      requires Logged(groups, sent, log, spacing) && SentNow(log, now)
      requires forall kind :: kind in groups ==> Gathered(kind)
      modifies this`groups, this`log
      ensures Inv(groups, sent + out, added, now, spacing.every) && groups.Keys == old(groups).Keys
      ensures Logged(groups, sent + out, log, spacing) && SentNow(log, now) && CallsOf(log) == old(CallsOf(log))
      ensures ClearedBut(old(groups), groups, {}, now, spacing) && AllTold(old(groups), {}, out, now, spacing)
    {
      hide Inv, Due, Cleared, Logged, CallsOf, SentNow, Gathered, ClearedBut, AllTold;
      out := [];
      var kinds := groups.Keys;
      NoneCleared(groups, now, spacing);
      assert sent + [] == sent;
      while kinds != {}
        invariant kinds <= old(groups).Keys == groups.Keys
        invariant Inv(groups, sent + out, added, now, spacing.every)
        invariant Logged(groups, sent + out, log, spacing) && SentNow(log, now) && CallsOf(log) == old(CallsOf(log))
        invariant ClearedBut(old(groups), groups, kinds, now, spacing) && AllTold(old(groups), kinds, out, now, spacing)
        decreases |kinds|
      {
        var kind :| kind in kinds;
        OneCleared(old(groups), groups, kinds, out, kind, now, spacing);
        kinds := kinds - {kind};
        if Due(groups[kind], now, spacing) {
          var n := CollectOne(kind, now, sent + out);
          assert sent + out + [n] == sent + (out + [n]);
          out := out + [n];
        }
      }
    }

    /** The notice of one kind that is due. */
    method CollectOne(kind: Kind, now: int, ghost told: seq<Notice>) returns (n: Notice)
      requires spacing.every > 0 && Inv(groups, told, added, now, spacing.every) && Logged(groups, told, log, spacing)
      requires SentNow(log, now) && kind in groups && Gathered(kind) && Due(groups[kind], now, spacing)
      modifies this`groups, this`log
      ensures n == Notice(kind, now, old(groups)[kind].pending)
      ensures groups == old(groups)[kind := Cleared(old(groups)[kind], now)]
      ensures Inv(groups, told + [n], added, now, spacing.every) && Logged(groups, told + [n], log, spacing)
      ensures SentNow(log, now) && CallsOf(log) == old(CallsOf(log))
    {
      hide Inv, Due, Cleared, Logged, CallsOf, SentNow, Gathered;
      n := Notice(kind, now, groups[kind].pending);
      SendKeeps(groups, told, added, now, spacing, kind);
      SaidLogged(groups, told, log, spacing, kind, now);
      log := log + [Said(n)];
      groups := groups[kind := Cleared(groups[kind], now)];
    }
  }

  /** Gathering time and spacing are over. */
  predicate Overdue(g: Group, now: int, s: Spacing) {
    g.pending != [] && now >= g.firstAt + s.maxGather && (g.lastSent.Some? ==> now >= g.lastSent.value + s.every)
  }

  lemma OverdueIsSent(g: Group, now: int, s: Spacing)
    requires Overdue(g, now, s)
    ensures Due(g, now, s) && Cleared(g, now).pending == []
  {
  }

  lemma OnlyGathered(groups: Groups, sent: seq<Notice>, added: seq<Added>, clock: int, every: int)
    requires Inv(groups, sent, added, clock, every)
    ensures forall kind :: kind in groups ==> Gathered(kind)
  {
  }

  lemma NothingSentNow(log: seq<Entry>, at: int)
    requires Complete(log)
    ensures SentNow(log, at)
  {
  }

  lemma LaterClock(groups: Groups, sent: seq<Notice>, added: seq<Added>, clock: int, now: int, every: int)
    requires Inv(groups, sent, added, clock, every) && clock <= now
    ensures Inv(groups, sent, added, now, every)
  {
  }

  lemma SaidAtOnce(groups: Groups, sent: seq<Notice>, added: seq<Added>, now: int, every: int, n: Notice)
    requires Inv(groups, sent, added, now, every) && !Gathered(n.kind) && EachOnce(n.events, n.kind)
    ensures Inv(groups, sent + [n], added, now, every)
  {
    hide Names;
    var sent' := sent + [n];
    assert forall i :: 0 <= i < |sent| ==> sent'[i] == sent[i];
    forall kind | Gathered(kind) ensures Remembers(GroupOf(groups, kind), kind, sent') {
      assert Remembers(GroupOf(groups, kind), kind, sent);
    }
    forall i | 0 <= i < |added| ensures Kept(added[i], groups, sent', every) {
      assert Kept(added[i], groups, sent, every);
    }
  }

  lemma SingleEvent(ev: Event)
    ensures EachOnce([ev], ev.kind)
  {
  }

  lemma SameGroups(groups: Groups, kind: Kind)
    ensures forall k :: GroupOf(groups[kind := GroupOf(groups, kind)], k) == GroupOf(groups, k)
  {
  }

  lemma ToldAlready(groups: Groups, sent: seq<Notice>, added: seq<Added>, now: int, every: int, a: Added)
    requires Inv(groups, sent, added, now, every) && Gathered(a.kind) && a.at == now
    requires var g := GroupOf(groups, a.kind); a.path in g.notified && now - g.notified[a.path] < every
    ensures InNotice(sent, a.kind, a.path, now - every)
    ensures Inv(groups[a.kind := GroupOf(groups, a.kind)], sent, added + [a], now, every)
  {
    hide Names, Pending;
    SameGroups(groups, a.kind);
    assert Remembers(GroupOf(groups, a.kind), a.kind, sent);
  }

  lemma PendingAlready(groups: Groups, sent: seq<Notice>, added: seq<Added>, now: int, every: int, a: Added)
    requires Inv(groups, sent, added, now, every) && Gathered(a.kind) && a.at == now
    requires Pending(GroupOf(groups, a.kind), a.path)
    ensures Inv(groups[a.kind := GroupOf(groups, a.kind)], sent, added + [a], now, every)
  {
    hide Names, Pending;
    SameGroups(groups, a.kind);
  }

  /** One more pending event. */
  lemma GatheredOnce(groups: Groups, sent: seq<Notice>, added: seq<Added>, now: int, every: int, ev: Event)
    requires Inv(groups, sent, added, now, every) && Gathered(ev.kind)
    requires !Pending(GroupOf(groups, ev.kind), ev.path)
    ensures var g := GroupOf(groups, ev.kind);
            var g' := g.(firstAt := if |g.pending| == 0 then now else g.firstAt, lastAt := now, pending := g.pending + [ev]);
            Pending(g', ev.path)
            && Inv(groups[ev.kind := g'], sent, added + [Added(ev.kind, ev.path, now)], now, every)
  {
    hide Names, InNotice, EachOnce;
    PendingNot(GroupOf(groups, ev.kind), ev);
    var g := GroupOf(groups, ev.kind);
    var g' := g.(firstAt := if |g.pending| == 0 then now else g.firstAt, lastAt := now, pending := g.pending + [ev]);
    assert g'.pending[|g.pending|] == ev;
    forall path | Pending(g, path) ensures Pending(g', path) {
      var i :| 0 <= i < |g.pending| && g.pending[i].path == path;
      assert g'.pending[i] == g.pending[i];
    }
    forall kind | Gathered(kind) ensures Remembers(GroupOf(groups[ev.kind := g'], kind), kind, sent) {
      assert Remembers(GroupOf(groups, kind), kind, sent);
    }
    StillKeptAfterAdd(groups, sent, added, now, every, ev.kind, g');
  }

  lemma PendingNot(g: Group, ev: Event)
    requires !Pending(g, ev.path) && (g.pending == [] || EachOnce(g.pending, ev.kind))
    ensures EachOnce(g.pending + [ev], ev.kind)
  {
    if g.pending == [] {
      SingleEvent(ev);
      assert g.pending + [ev] == [ev];
    } else {
      OneMoreOnce(g.pending, ev);
    }
  }

  lemma OneMoreOnce(events: seq<Event>, ev: Event)
    requires EachOnce(events, ev.kind) && forall i :: 0 <= i < |events| ==> events[i].path != ev.path
    ensures EachOnce(events + [ev], ev.kind)
  {
  }

  lemma StillKeptAfterAdd(groups: Groups, sent: seq<Notice>, added: seq<Added>, now: int, every: int, kind: Kind, g: Group)
    requires Inv(groups, sent, added, now, every)
    requires forall path :: Pending(GroupOf(groups, kind), path) ==> Pending(g, path)
    ensures forall i :: 0 <= i < |added| ==> Kept(added[i], groups[kind := g], sent, every)
  {
    hide Pending, InNotice, Remembers, EachOnce;
    forall i | 0 <= i < |added| ensures Kept(added[i], groups[kind := g], sent, every) {
      assert Kept(added[i], groups, sent, every);
    }
  }

  //
  // Whole runs
  //

  datatype Call = AddCall(ev: Event, at: int) | FlushCall(at: int)

  /** In every run under a clock that does not go back, notices of one gathered kind are at least `every`
    * apart, and every added path is pending at the end or in a notice sent less than `every` before it was
    * added, or later. What was said, and when, is what the calls alone ask for: `log` accounts for each call,
    * and each of its entries is the right one after those before it. */
  method Run(spacing: Spacing, start: int, calls: seq<Call>)
    returns (sent: seq<Notice>, groups: Groups, ghost log: seq<Entry>)
    requires spacing.every > 0
    requires forall i :: 0 <= i < |calls| ==> start <= calls[i].at
    requires forall i, j :: 0 <= i < j < |calls| ==> calls[i].at <= calls[j].at
    ensures Spaced(sent, spacing.every)
    ensures forall i :: 0 <= i < |sent| ==> EachOnce(sent[i].events, sent[i].kind)
    ensures forall i :: 0 <= i < |calls| && calls[i].AddCall? && Gathered(calls[i].ev.kind) ==>
              Kept(Added(calls[i].ev.kind, calls[i].ev.path, calls[i].at), groups, sent, spacing.every)
    ensures CallsOf(log) == calls && Notices(log) == sent && AllRight(log, spacing) && Complete(log)
  {
    hide Kept, Spaced, Remembers, Due, Cleared, AllMatch, AllRight;
    var alerts := new Alerts(spacing, start);
    for i := 0 to |calls|
      invariant fresh(alerts) && alerts.Valid() && alerts.spacing == spacing
      invariant alerts.clock <= if i == 0 then start else calls[i - 1].at
      invariant CallsOf(alerts.log) == calls[..i]
      invariant forall k :: 0 <= k < i && calls[k].AddCall? && Gathered(calls[k].ev.kind) ==>
                  Added(calls[k].ev.kind, calls[k].ev.path, calls[k].at) in alerts.added
    {
      match calls[i]
      case AddCall(ev, at) => alerts.Add(ev, at);
      case FlushCall(at) => alerts.Flush(at);
    }
    assert calls[..|calls|] == calls;
    sent, groups, log := alerts.sent, alerts.groups, alerts.log;
  }
}
