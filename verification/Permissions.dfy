/** Requests waiting on a subject are woken by a permissions violation that names it (client.go).
 *
 * The table is shared by the bus's error callback and every request. Each of their critical sections
 * is one step, each cancel fired outside the lock is another, and the steps of any number of running
 * calls interleave.
 */
module Permissions {
  import opened Common

  function IndexOf(s: string, c: char): (i: Option<nat>)
    ensures i.Some? ==> i.value < |s| && s[i.value] == c && c !in s[..i.value]
    ensures i.None? ==> c !in s
  {
    if s == "" then None
    else if s[0] == c then Some(0)
    else
      var rest := IndexOf(s[1..], c);
      assert rest.Some? ==> s[..rest.value + 1] == [s[0]] + s[1..][..rest.value];
      if rest.None? then None else Some(rest.value + 1)
  }

  /** strings.Contains. */
  predicate Contains(s: string, part: string) {
    part <= s || (s != "" && Contains(s[1..], part))
  }

  /** The text between the first two quotation marks, or "". */
  function SubjectFrom(msg: string): string {
    var start := IndexOf(msg, '"');
    if start.None? then ""
    else
      var rest := msg[start.value + 1..];
      var end := IndexOf(rest, '"');
      if end.None? then "" else rest[..end.value]
  }

  const VIOLATION := "Permissions Violation"

  /** A call still running: the waiters it has yet to cancel, outside the lock. */
  datatype Table = Table(errs: map<string, string>, waiters: map<nat, string>, nextID: nat,
                         owed: map<nat, set<nat>>, cancelled: set<nat>, history: History)

  /** A record of what happened: the subject each waiter was registered for, the waiters unregistered, and
    * those that were registered when a violation came that named no subject. */
  datatype History = History(subjects: map<nat, string>, gone: set<nat>, unnamed: set<nat>)

  datatype Step = Note(t: nat, msg: string) | Watch(t: nat, subject: string) | Fire(t: nat, id: nat) | Unregister(id: nat)

  const EMPTY := Table(map[], map[], 0, map[], {}, History(map[], {}, {}))

  /** `t` stands for one call, so no call begins twice. */
  predicate Possible(s: Table, step: Step) {
    match step
    case Note(t, _) => t !in s.owed
    case Watch(t, _) => t !in s.owed
    case Fire(t, id) => t in s.owed && id in s.owed[t]
    case Unregister(id) => id < s.nextID
  }

  /** The waiters a violation wakes: those of its subject, or all when it names none. */
  function Woken(waiters: map<nat, string>, subject: string): set<nat> {
    set id | id in waiters && (subject == "" || waiters[id] == subject)
  }

  function Next(s: Table, step: Step): Table
    requires Possible(s, step)
  {
    match step
    case Note(t, msg) =>
      if !Contains(msg, VIOLATION) then s
      else
        var subject := SubjectFrom(msg);
        s.(errs := if subject == "" then s.errs else s.errs[subject := msg],
        owed := s.owed[t := Woken(s.waiters, subject)],
        history := s.history.(unnamed := s.history.unnamed + if subject == "" then s.waiters.Keys else {}))
    case Watch(t, subject) =>
      s.(waiters := s.waiters[s.nextID := subject], nextID := s.nextID + 1,
      owed := s.owed[t := if subject in s.errs then {s.nextID} else {}],
      history := s.history.(subjects := s.history.subjects[s.nextID := subject]))
    case Fire(t, id) => s.(owed := s.owed[t := s.owed[t] - {id}], cancelled := s.cancelled + {id})
    case Unregister(id) => s.(waiters := s.waiters - {id}, history := s.history.(gone := s.history.gone + {id}))
  }

  class Client {
    var errs: map<string, string>
    var waiters: map<nat, string>
    var nextID: nat
    var owed: map<nat, set<nat>>
    var cancelled: set<nat>
    ghost var history: History

    ghost function State(): Table
      reads this
    {
      Table(errs, waiters, nextID, owed, cancelled, history)
    }

    constructor ()
      ensures State() == EMPTY
    {
      errs, waiters, nextID, owed, cancelled, history := map[], map[], 0, map[], {}, History(map[], {}, {});
    }

    /** The waiters a violation of the subject wakes. */
    method Wake(subject: string) returns (woken: set<nat>)
      ensures woken == Woken(waiters, subject)
    {
      woken := {};
      var ids := waiters.Keys;
      while ids != {}
        invariant ids <= waiters.Keys
        invariant woken == Woken(waiters, subject) - ids
        decreases |ids|
      {
        var id :| id in ids;
        if subject == "" || waiters[id] == subject {
          woken := woken + {id};
        }
        ids := ids - {id};
      }
      assert woken == Woken(waiters, subject);
    }

    /** The critical section of `notePermissionError`. */
    method NotePermissionError(t: nat, msg: string)
      requires Possible(State(), Note(t, msg))
      modifies this
      ensures State() == Next(old(State()), Note(t, msg))
    {
      hide SubjectFrom, Contains, Woken;
      if !Contains(msg, VIOLATION) {
        return;
      }
      var subject := SubjectFrom(msg);
      if subject != "" {
        errs := errs[subject := msg];
      }
      var woken := Wake(subject);
      owed := owed[t := woken];
      history := history.(unnamed := history.unnamed + if subject == "" then waiters.Keys else {});
    }

    /** The critical section of `watchPermission`. */
    method WatchPermission(t: nat, subject: string) returns (id: nat)
      requires Possible(State(), Watch(t, subject))
      modifies this
      ensures State() == Next(old(State()), Watch(t, subject)) && id == old(nextID)
    {
      id := nextID;
      nextID := nextID + 1;
      waiters := waiters[id := subject];
      var prior := subject in errs;
      owed := owed[t := if prior then {id} else {}];
      history := history.(subjects := history.subjects[id := subject]);
    }

    /** One cancel, outside the lock. */
    method Cancel(t: nat, id: nat)
      requires Possible(State(), Fire(t, id))
      modifies this
      ensures State() == Next(old(State()), Fire(t, id))
    {
      owed := owed[t := owed[t] - {id}];
      cancelled := cancelled + {id};
    }

    /** The function `watchPermission` returns. */
    method Done(id: nat, subject: string) returns (violation: Option<string>)
      requires Possible(State(), Unregister(id))
      modifies this
      ensures State() == Next(old(State()), Unregister(id))
      ensures violation == if subject in errs then Some(errs[subject]) else None
    {
      waiters := waiters - {id};
      history := history.(gone := history.gone + {id});
      violation := if subject in errs then Some(errs[subject]) else None;
    }
  }

  //
  // What every step keeps
  //

  ghost predicate Owed(s: Table, id: nat) {
    exists t :: t in s.owed && id in s.owed[t]
  }

  /** Every waiter still registered on a subject with a violation is cancelled, or a running call will
    * cancel it. */
  ghost predicate NoneForgotten(s: Table) {
    forall id :: id in s.waiters && s.waiters[id] in s.errs ==> id in s.cancelled || Owed(s, id)
  }

  /** A waiter is cancelled only for its own subject, or for a violation that named none and came while it
    * was registered. */
  ghost predicate OnlyNamed(s: Table) {
    forall id :: id in s.cancelled || Owed(s, id) ==>
                   id in s.history.subjects && (id in s.history.unnamed || s.history.subjects[id] in s.errs)
  }

  /** The table holds exactly the waiters registered and not unregistered, each under its own number. */
  ghost predicate Registered(s: Table) {
    && (forall id: nat :: id in s.history.subjects <==> id < s.nextID)
    && (forall id: nat :: id in s.waiters <==> id in s.history.subjects && id !in s.history.gone)
    && (forall id: nat :: id in s.waiters ==> s.waiters[id] == s.history.subjects[id])
    && "" !in s.errs
    && (forall id: nat :: id in s.history.gone ==> id < s.nextID)
  }

  ghost predicate Inv(s: Table) {
    NoneForgotten(s) && OnlyNamed(s) && Registered(s)
  }

  lemma OwedMeans(s: Table, id: nat, t: nat)
    requires t in s.owed && id in s.owed[t]
    ensures Owed(s, id)
  {
  }

  /** Who owes whom after a step. */
  lemma OwedAfter(s: Table, step: Step)
    requires Possible(s, step)
    ensures step.Note? ==> forall id: nat ::
              Owed(Next(s, step), id) <==> Owed(s, id) || (Contains(step.msg, VIOLATION) && id in Woken(s.waiters, SubjectFrom(step.msg)))
    ensures step.Watch? ==> forall id: nat ::
              Owed(Next(s, step), id) <==> Owed(s, id) || (step.subject in s.errs && id == s.nextID)
    ensures step.Fire? ==> forall id: nat :: Owed(s, id) ==> Owed(Next(s, step), id) || id == step.id
    ensures step.Fire? ==> forall id: nat :: Owed(Next(s, step), id) ==> Owed(s, id)
    ensures step.Unregister? ==> forall id: nat :: Owed(Next(s, step), id) <==> Owed(s, id)
  {
    hide Contains, SubjectFrom, Woken;
    var next := Next(s, step);
    forall id: nat | Owed(s, id) ensures Owed(next, id) || (step.Fire? && id == step.id) {
      var t :| t in s.owed && id in s.owed[t];
      assert t in next.owed;
    }
    forall id: nat | Owed(next, id)
      ensures Owed(s, id)
              || (step.Note? && Contains(step.msg, VIOLATION) && id in Woken(s.waiters, SubjectFrom(step.msg)))
              || (step.Watch? && step.subject in s.errs && id == s.nextID)
    {
      var t :| t in next.owed && id in next.owed[t];
      if t in s.owed && id in s.owed[t] {
        OwedMeans(s, id, t);
      }
    }
    if step.Note? && Contains(step.msg, VIOLATION) {
      assert step.t in next.owed;
    }
    if step.Watch? {
      assert step.t in next.owed;
    }
  }

  lemma StepForgetsNone(s: Table, step: Step)
    requires Inv(s) && Possible(s, step)
    ensures NoneForgotten(Next(s, step))
  {
    OwedAfter(s, step);
    hide Owed, Contains, SubjectFrom, OnlyNamed;
    var next := Next(s, step);
    forall id | id in next.waiters && next.waiters[id] in next.errs ensures id in next.cancelled || Owed(next, id) {
      if id in s.waiters && s.waiters[id] in s.errs {
        assert id in s.cancelled || Owed(s, id);
      } else if step.Note? {
        assert id in Woken(s.waiters, SubjectFrom(step.msg));
      }
    }
  }

  lemma StepCancelsOnlyNamed(s: Table, step: Step)
    requires Inv(s) && Possible(s, step)
    ensures OnlyNamed(Next(s, step))
  {
    OwedAfter(s, step);
    if step.Fire? {
      OwedMeans(s, step.id, step.t);
    }
    hide Owed, Contains, SubjectFrom, NoneForgotten;
    var next := Next(s, step);
    forall id | id in next.cancelled || Owed(next, id)
      ensures id in next.history.subjects && (id in next.history.unnamed || next.history.subjects[id] in next.errs)
    {
      if id in s.cancelled || Owed(s, id) {
        assert id in s.history.subjects;
      }
    }
  }

  lemma StepRegisters(s: Table, step: Step)
    requires Registered(s) && Possible(s, step)
    ensures Registered(Next(s, step))
  {
    hide Contains, SubjectFrom, Woken;
  }

  lemma StepKeeps(s: Table, step: Step)
    requires Inv(s) && Possible(s, step)
    ensures Inv(Next(s, step))
  {
    hide NoneForgotten, OnlyNamed, Registered;
    StepForgetsNone(s, step);
    StepCancelsOnlyNamed(s, step);
    StepRegisters(s, step);
  }

  //
  // Whole runs
  //

  ghost predicate IsRun(steps: seq<Step>)
    decreases |steps|, 0
  {
    |steps| > 0 ==>
      var init := steps[..|steps| - 1];
      IsRun(init) && Possible(After(init), steps[|steps| - 1])
  }

  ghost function After(steps: seq<Step>): Table
    requires IsRun(steps)
    decreases |steps|, 1
  {
    if steps == [] then EMPTY else Next(After(steps[..|steps| - 1]), steps[|steps| - 1])
  }

  lemma {:induction false} RunKeeps(steps: seq<Step>)
    requires IsRun(steps)
    ensures Inv(After(steps))
    decreases |steps|
  {
    if steps != [] {
      RunKeeps(steps[..|steps| - 1]);
      StepKeeps(After(steps[..|steps| - 1]), steps[|steps| - 1]);
    }
  }

  /** No wake-up is lost, in any interleaving: once a violation on a subject is recorded, a waiter
    * registered on it is cancelled as soon as no call is running that still has to cancel it. */
  lemma NoLostWakeUp(steps: seq<Step>, id: nat)
    requires IsRun(steps)
    requires var s := After(steps); id in s.waiters && s.waiters[id] in s.errs
    ensures id in After(steps).cancelled || Owed(After(steps), id)
  {
    RunKeeps(steps);
  }

  /** A waiter that was registered under no violation without a subject is cancelled only for a violation of
    * its own subject, which it finds when it unregisters. */
  lemma OnlyItsOwnSubject(steps: seq<Step>, id: nat)
    requires IsRun(steps) && id !in After(steps).history.unnamed && id in After(steps).cancelled
    ensures var s := After(steps); id in s.history.subjects && s.history.subjects[id] in s.errs
  {
    RunKeeps(steps);
  }

  /** Once every waiter is unregistered the table is empty, and not before. */
  lemma EmptyOnceAllGone(steps: seq<Step>)
    requires IsRun(steps)
    ensures After(steps).waiters == map[] <==> forall id: nat :: id in After(steps).history.subjects ==> id in After(steps).history.gone
  {
    RunKeeps(steps);
    var s := After(steps);
    if forall id: nat :: id in s.history.subjects ==> id in s.history.gone {
      assert forall id: nat :: id !in s.waiters;
    } else {
      var id: nat :| id in s.history.subjects && id !in s.history.gone;
      assert id in s.waiters;
    }
  }

  /** Any run of the steps, made by the client's own critical sections and cancels. */
  method Drive(steps: seq<Step>) returns (client: Client)
    requires IsRun(steps)
    ensures fresh(client) && client.State() == After(steps)
  {
    client := new Client();
    NoSteps();
    for i := 0 to |steps|
      invariant fresh(client) && IsRun(steps[..i]) && client.State() == After(steps[..i])
    {
      hide IsRun, After, Next, Possible;
      RunPrefix(steps, i);
      match steps[i]
      case Note(t, msg) => client.NotePermissionError(t, msg);
      case Watch(t, subject) => var _ := client.WatchPermission(t, subject);
      case Fire(t, id) => client.Cancel(t, id);
      case Unregister(id) => var _ := client.Done(id, if id in client.waiters then client.waiters[id] else "");
    }
    assert steps[..|steps|] == steps;
  }

  lemma NoSteps()
    ensures IsRun([]) && After([]) == EMPTY
  {
  }

  /** What comes next in a run is possible, and leads to what the run is after it. */
  lemma {:induction false} RunPrefix(steps: seq<Step>, i: nat)
    requires IsRun(steps) && i < |steps|
    ensures IsRun(steps[..i]) && Possible(After(steps[..i]), steps[i])
    ensures IsRun(steps[..i + 1]) && After(steps[..i + 1]) == Next(After(steps[..i]), steps[i])
    decreases |steps|
  {
    hide Next, Possible;
    if i < |steps| - 1 {
      var init := steps[..|steps| - 1];
      RunPrefix(init, i);
      assert init[..i] == steps[..i] && init[..i + 1] == steps[..i + 1];
    } else {
      assert steps[..i + 1] == steps && steps[..|steps| - 1] == steps[..i];
    }
  }

  lemma {:induction false} IndexOfFirst(before: string, c: char, rest: string)
    requires c !in before
    ensures IndexOf(before + [c] + rest, c) == Some(|before|)
  {
    var s := before + [c] + rest;
    if before != "" {
      assert s[1..] == before[1..] + [c] + rest;
      IndexOfFirst(before[1..], c, rest);
    }
  }

  /** The subject of a message is what it quotes first. */
  lemma QuotedSubject(before: string, subject: string, behind: string)
    requires '"' !in before && '"' !in subject
    ensures SubjectFrom(before + ['"'] + (subject + ['"'] + behind)) == subject
  {
    hide IndexOf;
    IndexOfFirst(before, '"', subject + ['"'] + behind);
    IndexOfFirst(subject, '"', behind);
    var msg := before + ['"'] + (subject + ['"'] + behind);
    assert msg[|before| + 1..] == subject + ['"'] + behind;
  }
}
