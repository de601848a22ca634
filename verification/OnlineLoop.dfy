/** The debounce of the online loop of internal/docsync/engine.go: disk events start timers, fired timers
 * queue their path, and the loop takes the queue's paths one by one. `flush` collects what still waits at
 * a stop. */
module OnlineLoop {

  const DUE_CAPACITY := 64

  /** What the loop did: took a disk event of a file, or handled the file with `localChanged`. */
  datatype Entry = Took(path: string) | Handled(path: string)

  /** The file's last event was taken after it was last handled. */
  predicate Waits(log: seq<Entry>, p: string) {
    log != [] &&
    var last := log[|log| - 1];
    last == Took(p) || (last != Handled(p) && Waits(log[..|log| - 1], p))
  }

  /** Entry i is an event of p and nothing after it handles p. */
  predicate UnhandledAt(log: seq<Entry>, p: string, i: int) {
    0 <= i < |log| && log[i] == Took(p) && forall j :: i < j < |log| ==> log[j] != Handled(p)
  }

  lemma {:induction false} UnhandledWaits(log: seq<Entry>, p: string, i: int)
    requires UnhandledAt(log, p, i)
    ensures Waits(log, p)
  {
    if i < |log| - 1 {
      UnhandledWaits(log[..|log| - 1], p, i);
    }
  }

  lemma {:induction false} WaitsUnhandled(log: seq<Entry>, p: string) returns (i: int)
    requires Waits(log, p)
    ensures UnhandledAt(log, p, i)
  {
    if log[|log| - 1] == Took(p) {
      i := |log| - 1;
    } else {
      i := WaitsUnhandled(log[..|log| - 1], p);
    }
  }

  /** `Waits`, told without recursion. */
  lemma WaitsMeans(log: seq<Entry>, p: string)
    ensures Waits(log, p) <==> exists i :: UnhandledAt(log, p, i)
  {
    if Waits(log, p) {
      var i := WaitsUnhandled(log, p);
    }
    if i :| UnhandledAt(log, p, i) {
      UnhandledWaits(log, p, i);
    }
  }

  lemma WaitsAfter(log: seq<Entry>, e: Entry, p: string)
    ensures Waits(log + [e], p) <==> e == Took(p) || (e != Handled(p) && Waits(log, p))
  {
    assert (log + [e])[..|log|] == log;
  }

  /** What can happen to the loop: a file's disk event, a new directory's, a timer that fires, a
    * blocked send that finds room, a path taken from the queue. */
  datatype Step = FileEvent(path: string) | DirEvent(files: seq<string>) | Fire(timer: nat) | Enqueue(path: string) | TakeDue

  function TookEach(files: seq<string>): (log: seq<Entry>)
    ensures |log| == |files| && forall i :: 0 <= i < |files| ==> log[i] == Took(files[i])
  {
    seq(|files|, i requires 0 <= i < |files| => Took(files[i]))
  }

  /** What a step takes and handles: each event's files in order, and the path at the queue's front. */
  function Entries(step: Step, due: seq<string>): seq<Entry> {
    match step
    case FileEvent(p) => [Took(p)]
    case DirEvent(files) => TookEach(files)
    case Fire(_) => []
    case Enqueue(_) => []
    case TakeDue => if due == [] then [] else [Handled(due[0])]
  }

  function Events(steps: seq<Step>): seq<string> {
    if steps == [] then []
    else
      var before, last := Events(steps[..|steps| - 1]), steps[|steps| - 1];
      if last.FileEvent? then before + [last.path] else if last.DirEvent? then before + last.files else before
  }

  /** The paths of the events taken. */
  function Taken(log: seq<Entry>): seq<string> {
    if log == [] then []
    else
      var before, last := Taken(log[..|log| - 1]), log[|log| - 1];
      if last.Took? then before + [last.path] else before
  }

  lemma {:induction false} TakenAppend(log: seq<Entry>, more: seq<Entry>)
    ensures Taken(log + more) == Taken(log) + Taken(more)
  {
    if more == [] {
      assert log + more == log;
    } else {
      var init := more[..|more| - 1];
      TakenAppend(log, init);
      assert (log + more)[..|log + more| - 1] == log + init;
    }
  }

  lemma {:induction false} TakenEach(files: seq<string>)
    ensures Taken(TookEach(files)) == files
  {
    if files != [] {
      var init := files[..|files| - 1];
      TakenEach(init);
      assert TookEach(files)[..|files| - 1] == TookEach(init);
    }
  }

  lemma TakenByStep(log: seq<Entry>, steps: seq<Step>, step: Step, due: seq<string>)
    requires Taken(log) == Events(steps)
    ensures Taken(log + Entries(step, due)) == Events(steps + [step])
  {
    TakenAppend(log, Entries(step, due));
    assert (steps + [step])[..|steps|] == steps;
    if step.DirEvent? {
      TakenEach(step.files);
    }
  }

  class Loop {
    /** The newest timer of each path, the timers that have not fired, the fired ones still blocked
      * on the queue, and the queue. */
    var timers: map<string, nat>
    var armed: map<nat, string>
    var sending: multiset<string>
    var due: seq<string>
    var nextTimer: nat

    ghost var log: seq<Entry>

    ghost predicate Valid()
      reads this
    {
      && |due| <= DUE_CAPACITY
      && (forall t :: t in armed ==> t < nextTimer)
      && (forall p :: p in timers ==> timers[p] < nextTimer && (timers[p] in armed ==> armed[timers[p]] == p))
      && (forall p, q :: p in timers && q in timers && timers[p] == timers[q] ==> p == q)
      // Nothing that waits is forgotten: its path is in timers, and so is on its way to the queue.
      && (forall p :: Waits(log, p) ==> p in timers)
      && (forall p :: p in timers ==> timers[p] in armed || p in sending || p in due)
    }

    constructor ()
      ensures Valid() && timers == map[] && due == [] && log == []
    {
      timers, armed, sending, due, nextTimer, log := map[], map[], multiset{}, [], 0, [];
    }

    /** Debounces a disk event: an armed or fired timer of the path starts again. */
    method Schedule(p: string)
      requires Valid()
      modifies this
      ensures Valid() && log == old(log) + [Took(p)]
      ensures timers.Keys == old(timers).Keys + {p} && timers[p] in armed && armed[timers[p]] == p
      ensures forall q :: q in old(timers) ==> timers[q] == old(timers)[q]
      ensures due == old(due) && sending == old(sending)
    {
      forall q ensures Waits(log + [Took(p)], q) <==> q == p || Waits(log, q) {
        WaitsAfter(log, Took(p), q);
      }
      log := log + [Took(p)];
      if p in timers {
        armed := armed[timers[p] := p];
      } else {
        timers := timers[p := nextTimer];
        armed := armed[nextTimer := p];
        nextTimer := nextTimer + 1;
      }
    }

    method Do(step: Step)
      requires Valid()
      modifies this
      ensures Valid() && log == old(log) + Entries(step, old(due))
    {
      hide Waits;
      match step
      case FileEvent(p) =>
        Schedule(p);
      case DirEvent(files) =>
        for i := 0 to |files|
          invariant Valid() && log == old(log) + TookEach(files)[..i]
        {
          Schedule(files[i]);
        }
      case Fire(t) =>
        if t in armed {
          sending := sending + multiset{armed[t]};
          armed := armed - {t};
        }
      case Enqueue(p) =>
        if p in sending && |due| < DUE_CAPACITY {
          sending := sending - multiset{p};
          due := due + [p];
        }
      case TakeDue =>
        if due != [] {
          HandleNext();
        }
    }

    /** Takes the next path of the queue and handles it. */
    method HandleNext()
      requires Valid() && due != []
      modifies this
      ensures Valid() && log == old(log) + [Handled(old(due)[0])]
      ensures timers == old(timers) - {old(due)[0]} && due == old(due)[1..]
    {
      var p := due[0];
      forall q ensures Waits(log + [Handled(p)], q) <==> q != p && Waits(log, q) {
        WaitsAfter(log, Handled(p), q);
      }
      assert due == [p] + due[1..];
      due := due[1..];
      timers := timers - {p};
      log := log + [Handled(p)];
    }

    /** The paths a stop uploads first: every one with a timer, in the queue, or with a file event
      * that was not taken yet. */
    method Flush(events: seq<string>, files: set<string>) returns (paths: set<string>)
      requires Valid()
      ensures forall p :: Waits(log, p) ==> p in paths
      ensures forall p :: p in events && p in files ==> p in paths
      ensures forall p :: p in paths ==> p in timers || p in due || p in sending || (p in events && p in files)
    {
      paths := timers.Keys;
      for i := 0 to |due|
        invariant timers.Keys <= paths
        invariant forall p :: p in paths ==> p in timers || p in due
        invariant forall k :: 0 <= k < i ==> due[k] in paths
      {
        paths := paths + {due[i]};
      }
      // Every receive makes room for a sender still blocked on the queue.
      paths := paths + (set p | p in sending);
      for i := 0 to |events|
        invariant timers.Keys <= paths
        invariant forall p :: p in paths ==> p in timers || p in due || p in sending || (p in events && p in files)
        invariant forall k :: 0 <= k < i && events[k] in files ==> events[k] in paths
      {
        if events[i] in files {
          paths := paths + {events[i]};
        }
      }
    }
  }

  /** Nothing pending is forgotten at a stop: after any run of the loop, the paths `Flush` collects
    * hold every file whose last event came after it was last handled. */
  method RunThenStop(steps: seq<Step>, events: seq<string>, files: set<string>)
    returns (paths: set<string>, ghost log: seq<Entry>)
    ensures Taken(log) == Events(steps)
    ensures forall p, i :: UnhandledAt(log, p, i) ==> p in paths
    ensures forall p :: p in events && p in files ==> p in paths
  {
    var loop := new Loop();
    for i := 0 to |steps|
      invariant fresh(loop) && loop.Valid() && Taken(loop.log) == Events(steps[..i])
    {
      TakenByStep(loop.log, steps[..i], steps[i], loop.due);
      assert steps[..i + 1] == steps[..i] + [steps[i]];
      loop.Do(steps[i]);
    }
    assert steps[..|steps|] == steps;
    paths := loop.Flush(events, files);
    log := loop.log;
    forall p, i | UnhandledAt(log, p, i)
      ensures p in paths
    {
      WaitsMeans(log, p);
    }
  }
}
