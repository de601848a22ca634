/** Any number of lives of the daemon of internal/docsync, one after another: whatever it is asked to do, whatever the person,
 * the module and the network do meanwhile, and wherever each life is cut short. */
module SyncLives {
  import opened DocModel
  import opened DocRuns
  import opened StateDb
  import opened Remote
  import opened SyncEngine

  /** One life: how it was configured and what ids its state had reserved, what happened while nothing ran,
    * what surrounds its requests, what it does, and after how many steps it is cut short. */
  datatype Life = Life(cfg: Config, reserved: map<string, Id>, meanwhile: seq<Move>, plan: seq<Turn>, once: bool,
                       inputs: seq<Input>, fullDue: bool, stop: nat)

  /** How often the daemon started. */
  function Starts(t: seq<Event>): nat {
    if t == [] then 0 else Starts(t[..|t| - 1]) + if t[|t| - 1].who.Restarted? then 1 else 0
  }

  /** How many lives came as far as starting. */
  function Begun(lives: seq<Life>): nat {
    if lives == [] then 0 else Begun(lives[..|lives| - 1]) + if lives[|lives| - 1].stop > 0 then 1 else 0
  }

  lemma {:induction false} StartsGrow(t: seq<Event>, u: seq<Event>)
    requires t <= u
    ensures Starts(t) <= Starts(u)
    ensures |t| < |u| && u[|t|].who.Restarted? ==> Starts(t) < Starts(u)
    decreases |u|
  {
    if |t| < |u| {
      var v := u[..|u| - 1];
      StartsGrow(t, v);
      assert |t| < |v| ==> v[|t|] == u[|t|];
      assert |t| == |v| ==> v == t;
    } else {
      assert t == u;
    }
  }

  /** A life starts on what the run before it left, and the run goes on up to where the life is cut, if it is. */
  method RunLife(run: seq<Event>, life: Life) returns (after: seq<Event>, e: Err, done: bool)
    requires IsRun(run)
    ensures IsRun(after) && run <= after && |after| <= |run| + life.stop
    ensures life.stop > 0 ==> |run| < |after| && after[|run|].who == Restarted(life.cfg)
    ensures done && e.Fine? ==> Last(after).lastFull && !Last(after).busy
    ensures !done ==> |after| == |run| + life.stop
  {
    hide IsRun, Inv, ModuleOK, TableOK;
    LastInv(run);
    var w := Last(run);
    var state := new State(w.docs, life.reserved, w.lastSeq, w.lastFull);
    var engine := new Engine(life.cfg, life.plan, w.disk, w.mod, state, run);
    ghost var started := engine.trace;
    assert started[|run|].who == Restarted(life.cfg);
    engine.Play(life.meanwhile);
    if life.once {
      e := engine.RunOnce();
    } else {
      ghost var marks;
      e, marks := engine.Online(life.inputs, life.fullDue);
    }
    var cut := Min(|run| + life.stop, |engine.trace|);
    done := cut == |engine.trace|;
    assert engine.trace[|run|] == started[|run|];
    CrashAnywhere(engine.trace, cut);
    after := engine.trace[..cut];
    assert done ==> after == engine.trace;
  }

  /** No life loses work, sends an edit over a version that was not shown, moves the cursor past an entry that is
    * not accounted for, or forgets a record but on the module's word, each as far as DocRuns says, from any
    * folder, module and empty state on. */
  method RunLives(start: World, lives: seq<Life>) returns (run: seq<Event>)
    requires Begins(start)
    ensures run != [] && run[0] == Event(Begin, start) && Starts(run) >= Begun(lives)
    ensures WorkIsKept(run) && WorkIsSafe(run) && OverwritesAreSeen(run) && CursorIsSafe(run) && ForgetsOnTheWord(run)
  {
    hide IsRun, Inv, Begins, WorkIsKept, WorkIsSafe, OverwritesAreSeen, CursorIsSafe, ForgetsOnTheWord;
    run := [Event(Begin, start)];
    assert IsRun(run) by { BeginningIsRun(start); }
    for i := 0 to |lives|
      invariant IsRun(run) && run != [] && run[0] == Event(Begin, start)
      invariant Starts(run) >= Begun(lives[..i])
    {
      var after, _, _ := RunLife(run, lives[i]);
      StartsGrow(run, after);
      assert lives[..i + 1][..i] == lives[..i];
      run := after;
    }
    assert lives[..|lives|] == lives;
    RunsKeepAll(run);
  }

  lemma BeginningIsRun(start: World)
    requires Begins(start)
    ensures IsRun([Event(Begin, start)])
  {
    BeginsInv(start);
  }
}
