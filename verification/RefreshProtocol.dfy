/** Refresh-token rotation shared by processes, after auth/device.go and auth/store.go: all of them hold the
 * same token file, the server accepts only the latest refresh token, and each process re-reads the
 * file under the lock before it exchanges.
 *
 * The server is the refresh grant of section 6 of RFC 6749: it answers the latest refresh token of
 * the session and refuses every earlier one. Each process goes through `Token`, `refreshShared` and
 * `refresh` one step at a time, and the steps of any number of processes interleave. A process may
 * die at any step, a save may fail and an answer may be lost on its way.
 */
module RefreshProtocol {
  import opened Common

  /** What a token endpoint answered; without an expiry the token counts as valid. */
  datatype Tokens = Tokens(access: string, refresh: string, expiry: Option<int>)

  const NO_TOKENS := Tokens("", "", None)

  const REFRESH_SKEW := 60

  predicate ValidAt(t: Tokens, now: int) {
    t.access != "" && (t.expiry.None? || now + REFRESH_SKEW < t.expiry.value)
  }

  /** Where a process is: not asking, waiting for the lock, holding it, having re-read the file, or
    * with the server's answer still to save. */
  datatype Pc = Idle | Waiting | Holding | Ready | Saving(answer: Tokens)

  datatype Process = Process(tokens: Tokens, loaded: bool, pc: Pc)

  const STARTED := Process(NO_TOKENS, false, Idle)

  /** The token file, the lock beside it, the processes, and the server with every refresh token it
    * issued and the answer that came with it. */
  datatype System = System(store: Tokens, lock: Option<nat>, procs: map<nat, Process>,
                           latest: string, issued: map<string, Tokens>, now: int)

  /** Whether the request reached the server, what the server answers when it accepts it, with a new
    * refresh token when it rotates, and whether that answer arrives. */
  datatype Reply = Unreached | Reached(access: string, expiry: Option<int>, rotated: Option<string>, arrives: bool)

  datatype Step = Start(p: nat) | Acquire(p: nat) | GiveUp(p: nat) | Reread(p: nat)
    | Exchange(p: nat, reply: Reply) | Save(p: nat) | SaveFails(p: nat) | Die(p: nat) | Tick(seconds: nat)

  function Proc(s: System, p: nat): Process {
    if p in s.procs then s.procs[p] else STARTED
  }

  /** Process `p` stops asking with these tokens, and the lock it held is free. */
  function Leave(s: System, p: nat, tokens: Tokens): System {
    s.(lock := None, procs := s.procs[p := Proc(s, p).(tokens := tokens, pc := Idle)])
  }

  function At(s: System, p: nat, tokens: Tokens, pc: Pc): System {
    s.(procs := s.procs[p := Proc(s, p).(tokens := tokens, pc := pc)])
  }

  /** Load once, answer what is valid, go for the lock when there is something to refresh. */
  function Started(s: System, p: nat): System {
    var tokens := if Proc(s, p).loaded then Proc(s, p).tokens else s.store;
    var pc := if !ValidAt(tokens, s.now) && tokens.refresh != "" then Waiting else Idle;
    s.(procs := s.procs[p := Process(tokens, true, pc)])
  }

  /** Under the lock, what another process saved meanwhile wins, and may already be enough. */
  function Reloaded(s: System, p: nat): System {
    var mine := Proc(s, p).tokens;
    if s.store.refresh != "" && s.store.refresh != mine.refresh then
      if ValidAt(s.store, s.now) then Leave(s, p, s.store) else At(s, p, s.store, Ready)
    else
      At(s, p, mine, Ready)
  }

  /** The server's answer, which keeps the refresh token that was presented when it carries none. */
  function AnswerTo(presented: string, reply: Reply): Tokens
    requires reply.Reached?
  {
    Tokens(reply.access, if reply.rotated.Some? then reply.rotated.value else presented, reply.expiry)
  }

  function Exchanged(s: System, p: nat, reply: Reply): System {
    var mine := Proc(s, p).tokens;
    if reply.Unreached? || mine.refresh != s.latest then
      Leave(s, p, mine)
    else
      var answer := AnswerTo(mine.refresh, reply);
      var answered := s.(latest := answer.refresh, issued := s.issued[answer.refresh := answer]);
      if reply.arrives then At(answered, p, mine, Saving(answer)) else Leave(answered, p, mine)
  }

  /** A step is possible when it is its process's next, and a refresh token the server makes is new. */
  predicate Possible(s: System, step: Step) {
    match step
    case Start(p) => Proc(s, p).pc.Idle?
    case Acquire(p) => Proc(s, p).pc.Waiting? && s.lock.None?
    case GiveUp(p) => Proc(s, p).pc.Waiting?
    case Reread(p) => Proc(s, p).pc.Holding?
    case Exchange(p, reply) =>
      Proc(s, p).pc.Ready?
      && (reply.Reached? && reply.rotated.Some? ==> reply.rotated.value !in s.issued && reply.rotated.value != "")
    case Save(p) => Proc(s, p).pc.Saving?
    case SaveFails(p) => Proc(s, p).pc.Saving?
    case Die(p) => true
    case Tick(_) => true
  }

  function Next(s: System, step: Step): System
    requires Possible(s, step)
  {
    match step
    case Start(p) => Started(s, p)
    case Acquire(p) => At(s, p, Proc(s, p).tokens, Holding).(lock := Some(p))
    case GiveUp(p) => At(s, p, Proc(s, p).tokens, Idle)
    case Reread(p) => Reloaded(s, p)
    case Exchange(p, reply) => Exchanged(s, p, reply)
    case Save(p) => Leave(s, p, Proc(s, p).pc.answer).(store := Proc(s, p).pc.answer)
    case SaveFails(p) => Leave(s, p, Proc(s, p).pc.answer)
    case Die(p) => s.(procs := s.procs[p := STARTED], lock := if s.lock == Some(p) then None else s.lock)
    case Tick(seconds) => s.(now := s.now + seconds)
  }

  /** The same steps as each process takes them, on the file, the lock, the memory of the process and
    * the server. */
  class Host {
    var store: Tokens
    var lock: Option<nat>
    var procs: map<nat, Process>
    var latest: string
    var issued: map<string, Tokens>
    var now: int

    function State(): System
      reads this
    {
      System(store, lock, procs, latest, issued, now)
    }

    constructor (s: System)
      ensures State() == s
    {
      store, lock, procs, latest, issued, now := s.store, s.lock, s.procs, s.latest, s.issued, s.now;
    }

    /** The head of `Token`. */
    method Token(p: nat)
      requires Possible(State(), Start(p))
      modifies this
      ensures State() == Next(old(State()), Start(p))
    {
      var me := Proc(State(), p);
      if !me.loaded {
        me := me.(loaded := true);
        me := me.(tokens := store);
      }
      if !ValidAt(me.tokens, now) {
        if me.tokens.refresh != "" {
          me := me.(pc := Waiting);
        }
      }
      procs := procs[p := me];
    }

    /** One turn of the polling loop in `lockRefresh`: `ok` once the lock is taken. */
    method TryLock(p: nat) returns (ok: bool)
      requires Proc(State(), p).pc.Waiting?
      modifies this
      ensures ok == Possible(old(State()), Acquire(p))
      ensures State() == if ok then Next(old(State()), Acquire(p)) else old(State())
    {
      if lock.Some? {
        return false;
      }
      lock := Some(p);
      procs := procs[p := Proc(State(), p).(pc := Holding)];
      ok := true;
    }

    /** A wait for the lock that is cancelled. */
    method Cancel(p: nat)
      requires Possible(State(), GiveUp(p))
      modifies this
      ensures State() == Next(old(State()), GiveUp(p))
    {
      procs := procs[p := Proc(State(), p).(pc := Idle)];
    }

    /** A process that dies forgets everything, and the system releases its lock. */
    method Kill(p: nat)
      modifies this
      ensures State() == Next(old(State()), Die(p))
    {
      if lock == Some(p) {
        lock := None;
      }
      procs := procs[p := STARTED];
    }

    method Wait(seconds: nat)
      modifies this
      ensures State() == Next(old(State()), Tick(seconds))
    {
      now := now + seconds;
    }

    method Unlock(p: nat)
      modifies this
      ensures State() == Leave(old(State()), p, Proc(old(State()), p).tokens)
    {
      lock := None;
      procs := procs[p := Proc(State(), p).(pc := Idle)];
    }

    /** `refreshShared` between the lock and the exchange. */
    method RereadStore(p: nat)
      requires Possible(State(), Reread(p))
      modifies this
      ensures State() == Next(old(State()), Reread(p))
    {
      var me := Proc(State(), p);
      if store.refresh != "" && store.refresh != me.tokens.refresh {
        procs := procs[p := me.(tokens := store)];
        if ValidAt(store, now) {
          Unlock(p);
          return;
        }
        me := Proc(State(), p);
      }
      procs := procs[p := me.(pc := Ready)];
    }

    /** `refresh` up to the server's answer. */
    method PostRefresh(p: nat, reply: Reply)
      requires Possible(State(), Exchange(p, reply))
      modifies this
      ensures State() == Next(old(State()), Exchange(p, reply))
    {
      var me := Proc(State(), p);
      if reply.Unreached? || me.tokens.refresh != latest {
        Unlock(p);
        return;
      }
      var answer := Tokens(reply.access, "", reply.expiry);
      if reply.rotated.Some? {
        answer := answer.(refresh := reply.rotated.value);
      }
      if answer.refresh == "" {
        answer := answer.(refresh := me.tokens.refresh);
      }
      latest := answer.refresh;
      issued := issued[latest := answer];
      if reply.arrives {
        procs := procs[p := me.(pc := Saving(answer))];
      } else {
        Unlock(p);
      }
    }

    /** The end of `refresh`: the answer is kept in memory and saved, and the lock released. */
    method KeepAnswer(p: nat, saved: bool)
      requires Possible(State(), Save(p))
      modifies this
      ensures State() == Next(old(State()), if saved then Save(p) else SaveFails(p))
    {
      var me := Proc(State(), p);
      procs := procs[p := me.(tokens := me.pc.answer)];
      if saved {
        store := me.pc.answer;
      }
      Unlock(p);
    }
  }

  //
  // What every step keeps
  //

  predicate Critical(s: System, p: nat) {
    var pc := Proc(s, p).pc;
    pc.Holding? || pc.Ready? || pc.Saving?
  }

  /** Mutual exclusion: the lock is held by exactly the process between taking and releasing it. */
  ghost predicate Exclusive(s: System) {
    forall p: nat :: Critical(s, p) <==> s.lock == Some(p)
  }

  /** Tokens with a refresh token are an answer of the server, and the only one with that refresh token
    * as long as the server rotates. */
  predicate Known(s: System, t: Tokens, rotating: bool) {
    t.refresh != "" ==> t.refresh in s.issued && (rotating ==> s.issued[t.refresh] == t)
  }

  /** What a process remembers, and why it asks. */
  predicate Remembers(s: System, p: nat, rotating: bool) {
    var me := Proc(s, p);
    && Known(s, me.tokens, rotating)
    && (me.tokens.refresh != "" ==> s.store.refresh != "")
    && (!me.pc.Idle? ==> me.tokens.refresh != "")
    && (me.pc.Waiting? || me.pc.Holding? || me.pc.Ready? ==> !ValidAt(me.tokens, s.now))
    && (me.pc.Ready? ==> me.tokens.refresh == s.store.refresh && (rotating ==> me.tokens == s.store))
    && (me.pc.Saving? ==> me.pc.answer.refresh == s.latest && s.latest != "" && Known(s, me.pc.answer, rotating))
  }

  ghost predicate Inv(s: System, rotating: bool) {
    && Exclusive(s)
    && (forall p: nat :: Remembers(s, p, rotating))
    && Known(s, s.store, rotating)
  }

  predicate SavingNow(s: System) {
    s.lock.Some? && Proc(s, s.lock.value).pc.Saving?
  }

  /** The file holds the server's latest refresh token, or an answer with it is about to be saved. */
  predicate Sound(s: System) {
    s.store.refresh != "" && !SavingNow(s) ==> s.store.refresh == s.latest
  }

  /** The server's latest refresh token is in no file and will be in none. */
  predicate Stranded(s: System) {
    s.store.refresh != "" && s.store.refresh != s.latest && !SavingNow(s)
  }

  predicate Rotates(step: Step) {
    step.Exchange? && step.reply.Reached? ==> step.reply.rotated.Some?
  }

  /** A refresh token reaches the server. */
  predicate Exchanges(s: System, step: Step) {
    step.Exchange? && Possible(s, step) && step.reply.Reached?
  }

  /** The refresh token presented is the one the server takes. */
  predicate Accepted(s: System, step: Step)
    requires step.Exchange?
  {
    Proc(s, step.p).tokens.refresh == s.latest
  }

  /** A new refresh token is lost between the server and the file: the answer does not arrive, or its
    * process dies before saving it, or the save fails. */
  predicate Loses(s: System, step: Step) {
    match step
    case Exchange(p, reply) =>
      Exchanges(s, step) && Accepted(s, step) && reply.rotated.Some? && !reply.arrives
    case SaveFails(p) => Proc(s, p).pc.Saving? && Proc(s, p).pc.answer.refresh != s.store.refresh
    case Die(p) => Proc(s, p).pc.Saving? && Proc(s, p).pc.answer.refresh != s.store.refresh
    case _ => false
  }

  /** Any processes not started yet, over a token file whose refresh token, if it holds one, is the
    * server's latest. */
  function Initial(store: Tokens, now: int): System {
    System(store, None, map[], store.refresh, map[store.refresh := store], now)
  }

  lemma InitialSound(store: Tokens, now: int, rotating: bool)
    ensures Inv(Initial(store, now), rotating) && Sound(Initial(store, now))
  {
  }

  lemma StepExclusive(s: System, step: Step)
    requires Exclusive(s) && Possible(s, step)
    ensures Exclusive(Next(s, step))
  {
    var next := Next(s, step);
    hide ValidAt;
    forall q: nat ensures Critical(next, q) <==> next.lock == Some(q) {
      assert Critical(s, q) <==> s.lock == Some(q);
      assert !step.Tick? ==> (Critical(s, step.p) <==> s.lock == Some(step.p));
    }
  }

  /** What the process of the step knows afterwards. */
  lemma StepRemembered(s: System, step: Step, rotating: bool)
    requires Inv(s, rotating) && Possible(s, step) && !step.Tick? && (rotating ==> Rotates(step))
    ensures Remembers(Next(s, step), step.p, rotating)
  {
    assert Remembers(s, step.p, rotating) && (Critical(s, step.p) <==> s.lock == Some(step.p));
    hide ValidAt, Exclusive;
  }

  /** What another process knows is untouched: it is not inside when the file or the server changes. */
  lemma OthersRemember(s: System, step: Step, rotating: bool, q: nat)
    requires Inv(s, rotating) && Possible(s, step) && !step.Tick? && q != step.p && (rotating ==> Rotates(step))
    ensures Remembers(Next(s, step), q, rotating)
  {
    assert Remembers(s, q, rotating) && Remembers(s, step.p, rotating);
    assert Critical(s, q) <==> s.lock == Some(q);
    assert Critical(s, step.p) <==> s.lock == Some(step.p);
    hide ValidAt, Exclusive;
    assert Proc(Next(s, step), q) == Proc(s, q);
  }

  /** Every step keeps mutual exclusion and what each process knows. */
  lemma StepKeepsInv(s: System, step: Step, rotating: bool)
    requires Inv(s, rotating) && Possible(s, step) && (rotating ==> Rotates(step))
    ensures Inv(Next(s, step), rotating)
  {
    var next := Next(s, step);
    StepExclusive(s, step);
    if step.Tick? {
      forall q: nat ensures Remembers(next, q, rotating) {
        assert Remembers(s, q, rotating);
      }
    } else {
      assert Remembers(s, step.p, rotating);
      StepKnowsStore(s, step, rotating);
      hide Next, Exclusive, Remembers, Known;
      forall q: nat ensures Remembers(next, q, rotating) {
        if q == step.p {
          StepRemembered(s, step, rotating);
        } else {
          OthersRemember(s, step, rotating, q);
        }
      }
    }
  }

  lemma StepKnowsStore(s: System, step: Step, rotating: bool)
    requires Inv(s, rotating) && Possible(s, step) && !step.Tick? && (rotating ==> Rotates(step))
    ensures Known(Next(s, step), Next(s, step).store, rotating)
  {
    assert Remembers(s, step.p, rotating);
    hide ValidAt, Exclusive;
  }

  /** A sound system stays sound until a new refresh token is lost, and is stranded from then on. */
  lemma StepKeepsSound(s: System, step: Step)
    requires Inv(s, false) && Possible(s, step) && Sound(s)
    ensures if Loses(s, step) then Stranded(Next(s, step)) else Sound(Next(s, step))
  {
    if !step.Tick? {
      assert Remembers(s, step.p, false) && (Critical(s, step.p) <==> s.lock == Some(step.p));
      assert forall q: nat :: q != step.p ==> Proc(Next(s, step), q) == Proc(s, q);
    }
  }

  lemma StepKeepsStranded(s: System, step: Step)
    requires Inv(s, false) && Possible(s, step) && Stranded(s)
    ensures Stranded(Next(s, step))
  {
    if !step.Tick? {
      assert Remembers(s, step.p, false) && (Critical(s, step.p) <==> s.lock == Some(step.p));
      assert forall q: nat :: q != step.p ==> Proc(Next(s, step), q) == Proc(s, q);
    }
  }

  //
  // Whole runs
  //

  /** Steps that are each possible when they are taken. */
  ghost predicate IsRun(s: System, steps: seq<Step>)
    decreases |steps|, 0
  {
    |steps| > 0 ==>
      var init := steps[..|steps| - 1];
      IsRun(s, init) && Possible(After(s, init), steps[|steps| - 1])
  }

  ghost function After(s: System, steps: seq<Step>): System
    requires IsRun(s, steps)
    decreases |steps|, 1
  {
    if steps == [] then s
    else Next(After(s, steps[..|steps| - 1]), steps[|steps| - 1])
  }

  /** Some new refresh token was lost in this run. */
  ghost predicate LostBy(s: System, steps: seq<Step>)
    requires IsRun(s, steps)
    decreases |steps|
  {
    |steps| > 0 && (var init := steps[..|steps| - 1]; LostBy(s, init) || Loses(After(s, init), steps[|steps| - 1]))
  }

  lemma {:induction false} RunKeeps(store: Tokens, now: int, steps: seq<Step>, rotating: bool)
    requires IsRun(Initial(store, now), steps)
    requires rotating ==> forall i :: 0 <= i < |steps| ==> Rotates(steps[i])
    ensures Inv(After(Initial(store, now), steps), rotating)
    decreases |steps|
  {
    if steps == [] {
      InitialSound(store, now, rotating);
    } else {
      var init := steps[..|steps| - 1];
      RunKeeps(store, now, init, rotating);
      StepKeepsInv(After(Initial(store, now), init), steps[|steps| - 1], rotating);
    }
  }

  /** In every run the file holds the latest refresh token, or an answer with it is being saved, until a
    * new one is lost; afterwards it never does again. */
  lemma {:induction false} SoundUntilLost(store: Tokens, now: int, steps: seq<Step>)
    requires IsRun(Initial(store, now), steps)
    ensures var s := After(Initial(store, now), steps);
            if LostBy(Initial(store, now), steps) then Stranded(s) else Sound(s)
    decreases |steps|
  {
    if steps == [] {
      InitialSound(store, now, false);
    } else {
      var init, step := steps[..|steps| - 1], steps[|steps| - 1];
      SoundUntilLost(store, now, init);
      RunKeeps(store, now, init, false);
      var s := After(Initial(store, now), init);
      if LostBy(Initial(store, now), init) {
        StepKeepsStranded(s, step);
      } else {
        StepKeepsSound(s, step);
      }
    }
  }

  /** For any number of processes, in any interleaving and whether or not the server rotates, an exchange
    * that follows a run presents the server's latest refresh token exactly when the run lost none. */
  lemma AcceptedUnlessLost(store: Tokens, now: int, steps: seq<Step>, step: Step)
    requires IsRun(Initial(store, now), steps) && Exchanges(After(Initial(store, now), steps), step)
    ensures Accepted(After(Initial(store, now), steps), step) <==> !LostBy(Initial(store, now), steps)
  {
    var s := After(Initial(store, now), steps);
    SoundUntilLost(store, now, steps);
    RunKeeps(store, now, steps, false);
    assert Remembers(s, step.p, false) && (Critical(s, step.p) <==> s.lock == Some(step.p));
  }

  /** When the server rotates every time, a refresh token is spent only once the stored access token is
    * no longer valid, lost answers or not. */
  lemma ExchangedOnlyWhenExpired(store: Tokens, now: int, steps: seq<Step>, step: Step)
    requires IsRun(Initial(store, now), steps) && Exchanges(After(Initial(store, now), steps), step)
    requires forall i :: 0 <= i < |steps| ==> Rotates(steps[i])
    ensures var s := After(Initial(store, now), steps);
            !ValidAt(s.store, s.now)
  {
    RunKeeps(store, now, steps, true);
    assert Remembers(After(Initial(store, now), steps), step.p, true);
  }

  /** Two processes are never between taking and releasing the lock at once. */
  lemma NeverTwoInside(store: Tokens, now: int, steps: seq<Step>, p: nat, q: nat)
    requires IsRun(Initial(store, now), steps)
    requires Critical(After(Initial(store, now), steps), p) && Critical(After(Initial(store, now), steps), q)
    ensures p == q
  {
    RunKeeps(store, now, steps, false);
  }

  /** Any run of the steps, made by the processes' own code. */
  method Drive(s: System, steps: seq<Step>) returns (host: Host)
    requires IsRun(s, steps)
    ensures fresh(host) && host.State() == After(s, steps)
  {
    host := new Host(s);
    NoSteps(s);
    for i := 0 to |steps|
      invariant fresh(host) && IsRun(s, steps[..i]) && host.State() == After(s, steps[..i])
    {
      hide IsRun, After, Next;
      RunPrefix(s, steps, i);
      match steps[i]
      case Start(p) => host.Token(p);
      case Acquire(p) => var _ := host.TryLock(p);
      case GiveUp(p) => host.Cancel(p);
      case Reread(p) => host.RereadStore(p);
      case Exchange(p, reply) => host.PostRefresh(p, reply);
      case Save(p) => host.KeepAnswer(p, true);
      case SaveFails(p) => host.KeepAnswer(p, false);
      case Die(p) => host.Kill(p);
      case Tick(seconds) => host.Wait(seconds);
    }
    assert steps[..|steps|] == steps;
  }

  /** What comes next in a run is possible, and leads to what the run is after it. */
  lemma {:induction false} RunPrefix(s: System, steps: seq<Step>, i: nat)
    requires IsRun(s, steps) && i < |steps|
    ensures IsRun(s, steps[..i]) && Possible(After(s, steps[..i]), steps[i])
    ensures IsRun(s, steps[..i + 1]) && After(s, steps[..i + 1]) == Next(After(s, steps[..i]), steps[i])
    decreases |steps|
  {
    hide Next, Possible;
    if i < |steps| - 1 {
      var init := steps[..|steps| - 1];
      RunPrefix(s, init, i);
      assert init[..i] == steps[..i] && init[..i + 1] == steps[..i + 1];
    } else {
      assert steps[..i + 1] == steps && steps[..|steps| - 1] == steps[..i];
    }
  }

  lemma ExtendRun(s: System, steps: seq<Step>, step: Step)
    requires IsRun(s, steps) && Possible(After(s, steps), step)
    ensures IsRun(s, steps + [step]) && After(s, steps + [step]) == Next(After(s, steps), step)
  {
    assert (steps + [step])[..|steps|] == steps;
  }

  /** A step that loses nothing makes the run longer. */
  lemma ExtendSafely(s: System, steps: seq<Step>, step: Step) returns (longer: seq<Step>)
    requires IsRun(s, steps) && !LostBy(s, steps)
    requires Possible(After(s, steps), step) && !Loses(After(s, steps), step)
    ensures IsRun(s, longer) && !LostBy(s, longer) && After(s, longer) == Next(After(s, steps), step)
  {
    longer := steps + [step];
    ExtendRun(s, steps, step);
    assert longer[..|steps|] == steps;
  }

  /** Two processes with an expired token, of which one has the server's answer still to save. */
  lemma OneExchanges(store: Tokens, reply: Reply) returns (steps: seq<Step>)
    requires store == Tokens("a", "r", Some(0)) && reply == Reached("b", None, None, true)
    ensures var s := Initial(store, 0);
            IsRun(s, steps) && !LostBy(s, steps)
            && (var end := After(s, steps);
                Proc(end, 1) == Process(store, true, Saving(Tokens("b", "r", None)))
                && Proc(end, 2) == Process(store, true, Waiting) && end.latest == "r" && end.now == 0)
  {
    hide IsRun, After, LostBy;
    var s := Initial(store, 0);
    NoSteps(s);
    steps := ExtendSafely(s, [], Start(1));
    steps := ExtendSafely(s, steps, Start(2));
    steps := ExtendSafely(s, steps, Acquire(1));
    steps := ExtendSafely(s, steps, Reread(1));
    steps := ExtendSafely(s, steps, Exchange(1, reply));
  }

  lemma NoSteps(s: System)
    ensures IsRun(s, []) && After(s, []) == s && !LostBy(s, [])
  {
  }

  /** Rotation is needed for that: a server that answers without a new refresh token makes the second of
    * two waiting processes exchange again, over a stored token that is valid. */
  lemma WithoutRotationSpendsAgain() returns (store: Tokens, steps: seq<Step>, step: Step)
    ensures IsRun(Initial(store, 0), steps) && !LostBy(Initial(store, 0), steps)
    ensures var s := After(Initial(store, 0), steps);
            Exchanges(s, step) && Accepted(s, step) && ValidAt(s.store, s.now)
  {
    hide IsRun, After, LostBy;
    store := Tokens("a", "r", Some(0));
    var reply := Reached("b", None, None, true);
    var s := Initial(store, 0);
    steps := OneExchanges(store, reply);
    steps := ExtendSafely(s, steps, Save(1));
    steps := ExtendSafely(s, steps, Acquire(2));
    steps := ExtendSafely(s, steps, Reread(2));
    step := Exchange(2, reply);
  }
}
