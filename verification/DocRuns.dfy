/** What holds over whole runs of the sync daemon (internal/docsync), whoever interferes and wherever it crashes.
 *
 * A run is any sequence of worlds whose steps are those of DocModel; SyncEngine proves that its
 * methods make no others, and SyncLives that no run of them makes others. The theorems speak of the
 * events of the run alone: the history kept in each world is only the bridge.
 */
module DocRuns {
  import opened Common
  import opened Text
  import opened Files
  import opened DocModel

  // ---- the history tells the truth ---------------------------------------------

  predicate OnDisk(e: Event, f: string, c: Content) {
    f in e.w.disk && e.w.disk[f] == c
  }

  predicate Recorded(e: Event, r: DocRecord) {
    r.id in e.w.docs && e.w.docs[r.id] == r
  }

  predicate RecordedGone(e: Event, r: DocRecord) {
    Recorded(e, r) && CopyGone(e.w.disk, r)
  }

  /** What a run says about one of its events and the one before it. */
  lemma Unroll(t: seq<Event>, i: nat)
    requires IsRun(t) && i < |t|
    ensures Inv(t[i].w) && TableOK(t[i].w.docs)
    ensures i == 0 ==> Begins(t[0].w) && t[0].who == Begin
    ensures i > 0 ==> StepOK(t[i - 1].w, t[i].who, t[i].w) && t[i].w.h == After(t[i - 1].w.h, t[i].who, t[i].w)
  {
    assert InvAt(t, i);
    if i > 0 {
      assert StepAt(t, i);
    }
  }

  lemma {:induction false} HeldWasOnDisk(t: seq<Event>, i: nat, f: string, c: Content)
    requires IsRun(t) && i < |t| && (f, c) in t[i].w.h.held
    ensures exists j :: 0 <= j <= i && OnDisk(t[j], f, c)
  {
    hide IsRun, Inv, StepOK;
    Unroll(t, i);
    if OnDisk(t[i], f, c) {
    } else if i > 0 {
      HeldWasOnDisk(t, i - 1, f, c);
    }
  }

  lemma {:induction false} PastWasRecorded(t: seq<Event>, i: nat, r: DocRecord)
    requires IsRun(t) && i < |t| && r in t[i].w.h.past
    ensures exists j :: 0 <= j <= i && Recorded(t[j], r)
  {
    hide IsRun, Inv, StepOK;
    Unroll(t, i);
    if Recorded(t[i], r) {
    } else if i > 0 {
      PastWasRecorded(t, i - 1, r);
    }
  }

  lemma {:induction false} ResolvedWasGone(t: seq<Event>, i: nat, r: DocRecord)
    requires IsRun(t) && i < |t| && r in t[i].w.h.resolved
    ensures exists j :: 0 <= j <= i && RecordedGone(t[j], r)
  {
    hide IsRun, Inv, StepOK;
    Unroll(t, i);
    if RecordedGone(t[i], r) {
    } else if i > 0 {
      ResolvedWasGone(t, i - 1, r);
    }
  }

  lemma {:induction false} FiledWasFiled(t: seq<Event>, i: nat, id: Id, v: nat, f: string)
    requires IsRun(t) && i < |t| && (id, v, f) in t[i].w.h.filed
    ensures exists j :: 0 <= j <= i && t[j].who == Filed(id, v, f)
  {
    hide IsRun, Inv, StepOK;
    Unroll(t, i);
    if t[i].who == Filed(id, v, f) {
    } else if i > 0 {
      FiledWasFiled(t, i - 1, id, v, f);
    }
  }

  lemma {:induction false} UnnamedWasUnnamed(t: seq<Event>, i: nat, id: Id, v: nat)
    requires IsRun(t) && i < |t| && (id, v) in t[i].w.h.unnamed
    ensures exists j :: 0 <= j <= i && t[j].who == Unnamed(id, v)
  {
    hide IsRun, Inv, StepOK;
    Unroll(t, i);
    if t[i].who == Unnamed(id, v) {
    } else if i > 0 {
      UnnamedWasUnnamed(t, i - 1, id, v);
    }
  }

  lemma {:induction false} HandedWasHanded(t: seq<Event>, i: nat, c: Change)
    requires IsRun(t) && i < |t| && c in t[i].w.h.handed
    ensures exists j :: 0 < j <= i && t[j].who == Handed(c)
  {
    hide IsRun, Inv, StepOK, HeardAfter;
    Unroll(t, i);
    if t[i].who == Handed(c) {
    } else if i > 0 {
      HandedWasHanded(t, i - 1, c);
    }
  }

  /** The entry was taken up at event a, and none was since, nor did the daemon restart. */
  ghost predicate TakenAt(t: seq<Event>, a: nat, i: nat, c: Change)
    requires i < |t|
  {
    a <= i && t[a].who == Taken(c) && forall k :: a < k <= i ==> !t[k].who.Taken? && !t[k].who.Restarted?
  }

  lemma {:induction false} TakenWasTaken(t: seq<Event>, i: nat, c: Change)
    requires IsRun(t) && i < |t| && t[i].w.h.heard.taken == Some(c)
    ensures exists a :: TakenAt(t, a, i, c)
  {
    hide IsRun, Inv, StepOK, ShownTo, DeletionApplies;
    Unroll(t, i);
    if t[i].who == Taken(c) {
      assert TakenAt(t, i, i, c);
    } else if i > 0 {
      TakenWasTaken(t, i - 1, c);
      var a :| TakenAt(t, a, i - 1, c);
      assert TakenAt(t, a, i, c);
    }
  }

  ghost predicate AnsweredAt(t: seq<Event>, k: nat, id: Id)
    requires k < |t|
  {
    t[k].who.Answered? && t[k].who.doc == id
  }

  lemma {:induction false} AnsweredWasAnswered(t: seq<Event>, a: nat, i: nat, c: Change, id: Id)
    requires IsRun(t) && i < |t| && TakenAt(t, a, i, c) && id in t[i].w.h.heard.answered
    ensures exists k :: a < k <= i && AnsweredAt(t, k, id)
  {
    hide IsRun, Inv, StepOK, ShownTo, DeletionApplies;
    Unroll(t, i);
    if AnsweredAt(t, i, id) {
      assert a < i;
    } else if a < i {
      AnsweredWasAnswered(t, a, i - 1, c, id);
    }
  }

  lemma {:induction false} ReconciledWasReconciled(t: seq<Event>, i: nat)
    requires IsRun(t) && i < |t| && t[i].w.h.reconciled > 0
    ensures exists j :: 0 <= j <= i && t[j].who == Reconciled && t[j].w.mod.floor == t[i].w.h.reconciled
  {
    hide IsRun, Inv, StepOK;
    Unroll(t, i);
    if t[i].who == Reconciled {
    } else if i > 0 {
      ReconciledWasReconciled(t, i - 1);
    }
  }

  lemma {:induction false} TrimmedWasTrimmed(t: seq<Event>, i: nat)
    requires IsRun(t) && i < |t| && t[i].w.h.trimmed
    ensures exists j :: 0 <= j <= i && t[j].who == Trims
  {
    hide IsRun, Inv, StepOK;
    Unroll(t, i);
    if t[i].who == Trims {
    } else if i > 0 {
      TrimmedWasTrimmed(t, i - 1);
    }
  }

  // ---- no unseen overwrite ------------------------------------------------------

  /** The record of the document said that its file f is based on version v. */
  predicate OwnFile(e: Event, id: Id, v: nat, f: string) {
    id in e.w.docs && e.w.docs[id].version == v && (f == e.w.docs[id].path || IsFileOf(e.w.docs[id].path, f))
  }

  /** The record said that version v waits in the copy f, and the copy was gone. */
  predicate MergedCopy(e: Event, id: Id, v: nat, f: string) {
    id in e.w.docs && e.w.docs[id].version == v && e.w.docs[id].conflict != ""
    && IsFileOf(e.w.docs[id].conflict, f) && f !in e.w.disk
  }

  /** Version v had been shown: its content was on the disk in f, which was the document's own file as
    * of that version, or the tracked conflict copy of that version and then gone, or the file the
    * module created the document from. */
  ghost predicate Shown(t: seq<Event>, i: nat, id: Id, v: nat, f: string)
    requires i < |t|
  {
    && (id, v) in t[i].w.mod.held
    && (exists j :: 0 <= j <= i && OnDisk(t[j], f, t[i].w.mod.held[(id, v)]))
    && (|| (exists k :: 0 <= k <= i && OwnFile(t[k], id, v, f))
        || (exists k :: 0 <= k <= i && MergedCopy(t[k], id, v, f))
        || (exists k :: 0 <= k <= i && t[k].who == Filed(id, v, f)))
  }

  /** A conflict copy of version v had been written at a name that `remotePath` refuses. */
  ghost predicate CopyNotNamed(t: seq<Event>, i: nat, id: Id, v: nat)
    requires i < |t|
  {
    exists j :: 0 <= j <= i && t[j].who == Unnamed(id, v)
  }

  /** No unseen overwrite: in every run, whenever an update leaves with base version v, v's content had
    * been shown to the person, unless its conflict copy got a name that `remotePath` refuses. */
  lemma NoUnseenOverwrite(t: seq<Event>, i: nat, id: Id, base: nat)
    requires IsRun(t) && i < |t| && t[i].who == Sent(id, base)
    ensures id in t[i].w.docs && t[i].w.docs[id].version == base && t[i].w.docs[id].conflict == ""
    ensures !t[i].w.docs[id].readOnly
    ensures (exists f :: Shown(t, i, id, base, f)) || CopyNotNamed(t, i, id, base)
  {
    hide IsRun, Inv, LocalPath;
    Unroll(t, i);
    var w := t[i - 1].w;
    if Seen(w, id, base) {
      SeenGrows(w, t[i].w, id, base);
      SeenIsShown(t, i, id, base);
    } else {
      UnnamedWasUnnamed(t, i, id, base);
    }
  }

  lemma SeenIsShown(t: seq<Event>, i: nat, id: Id, v: nat)
    requires IsRun(t) && i < |t| && Seen(t[i].w, id, v)
    ensures exists f :: Shown(t, i, id, v, f)
  {
    hide IsRun, Inv, LocalPath;
    var f :| SeenIn(t[i].w, id, v, f);
    HeldWasOnDisk(t, i, f, t[i].w.mod.held[(id, v)]);
    if (id, v, f) in t[i].w.h.filed {
      FiledWasFiled(t, i, id, v, f);
    } else {
      var r :| r in t[i].w.h.past && RecordShows(t[i].w.h, id, v, f, r);
      if f == r.path || IsFileOf(r.path, f) {
        PastWasRecorded(t, i, r);
        var k :| 0 <= k <= i && Recorded(t[k], r);
        assert OwnFile(t[k], id, v, f);
      } else {
        ResolvedWasGone(t, i, r);
        var k :| 0 <= k <= i && RecordedGone(t[k], r);
        assert MergedCopy(t[k], id, v, f);
      }
    }
    assert Shown(t, i, id, v, f);
  }

  /** Such a name is one whose first segment starts with "..". */
  lemma NotNamedIsDotted(t: seq<Event>, i: nat, id: Id, v: nat)
    requires IsRun(t) && i < |t| && t[i].who == Unnamed(id, v)
    ensures exists local :: UnnamedCopy(t[i].w, id, v, local) && DotDot(ConflictName(local, v))
  {
    hide IsRun, Inv, ConflictName;
    Unroll(t, i);
    var local :| UnnamedCopy(t[i - 1].w, id, v, local);
    assert UnnamedCopy(t[i].w, id, v, local);
  }

  // ---- the feed cursor ------------------------------------------------------------

  /** The feed's start did not move while it was being read, nor between a full reconciliation and the
    * first read. */
  predicate StartHeld(t: seq<Event>, i: nat)
    requires i < |t|
  {
    forall j :: 0 <= j <= i ==> t[j].who != Trims
  }

  /** The entry was taken up and done with: it needed nothing, or the module answered about its document in
    * between. */
  ghost predicate DoneWith(t: seq<Event>, j: nat, c: Change)
    requires 0 < j < |t|
  {
    && t[j].who == Handed(c)
    && exists a :: TakenAt(t, a, j - 1, c) && SettledSince(t, a, j, c)
  }

  ghost predicate SettledSince(t: seq<Event>, a: nat, j: nat, c: Change)
    requires 0 < j < |t|
  {
    NeedsNothing(t[j - 1].w, c) || exists k :: a < k < j && AnsweredAt(t, k, c.documentId)
  }

  lemma HandedIsDone(t: seq<Event>, j: nat, c: Change)
    requires IsRun(t) && 0 < j < |t| && t[j].who == Handed(c)
    ensures DoneWith(t, j, c)
  {
    hide IsRun, Inv, NeedsNothing;
    Unroll(t, j);
    TakenWasTaken(t, j - 1, c);
    var a :| TakenAt(t, a, j - 1, c);
    if !NeedsNothing(t[j - 1].w, c) {
      AnsweredWasAnswered(t, a, j - 1, c, c.documentId);
    }
    assert SettledSince(t, a, j, c);
  }

  /** Entry n of the feed was handed to `applyChange` and done with, or had left the feed before a full
    * reconciliation that finished. */
  ghost predicate HandedOrGone(t: seq<Event>, i: nat, n: nat)
    requires i < |t| && n < |t[i].w.mod.log|
  {
    || (exists j :: 0 < j <= i && DoneWith(t, j, t[i].w.mod.log[n]))
    || (exists j :: 0 <= j <= i && t[j].who == Reconciled && n < t[j].w.mod.floor)
  }

  /** Cursor safety: in every run, every entry of the feed at or before the stored cursor is accounted
    * for. */
  lemma CursorSafety(t: seq<Event>, i: nat, n: nat)
    requires IsRun(t) && i < |t| && n < |t[i].w.mod.log| && StartHeld(t, i)
    requires t[i].w.mod.log[n].sequence <= t[i].w.lastSeq
    ensures HandedOrGone(t, i, n)
  {
    hide IsRun, StepOK, DoneWith;
    Unroll(t, i);
    if t[i].w.h.trimmed {
      TrimmedWasTrimmed(t, i);
    }
    var c := t[i].w.mod.log[n];
    if c in t[i].w.h.handed {
      HandedWasHanded(t, i, c);
      var j :| 0 < j <= i && t[j].who == Handed(c);
      HandedIsDone(t, j, c);
    } else {
      ReconciledWasReconciled(t, i);
    }
  }

  /** The stored cursor never goes back. */
  lemma {:induction false} CursorNeverGoesBack(t: seq<Event>, i: nat, j: nat)
    requires IsRun(t) && i <= j < |t|
    ensures t[i].w.lastSeq <= t[j].w.lastSeq
  {
    hide IsRun, Inv;
    if i < j {
      CursorNeverGoesBack(t, i, j - 1);
      Unroll(t, j);
    }
  }

  // ---- no local work is lost ------------------------------------------------------

  /** No step but the person's own loses what a file that is not ignored holds: it is still there, or
    * went on under `.sin-acceso` or to where its document went in the module, or is a version the
    * module held of it. */
  lemma EveryStepKeepsWork(t: seq<Event>, i: nat, f: string)
    requires IsRun(t) && 0 < i < |t| && t[i].who != Person
    requires f in t[i - 1].w.disk && !HiddenPath(f)
    ensures Kept(t[i - 1].w, t[i].w, f)
  {
    hide IsRun, Inv, HiddenPath, IsCopyName, Explained;
    Unroll(t, i);
    if IsCopyName(f) {
      CopiesAreHidden(f);
    }
  }

  /** The content is on the disk at a name that is not a conflict copy's, or the module held it. */
  ghost predicate Safe(w: World, c: Content) {
    || (exists f :: f in w.disk && !IsCopyName(f) && w.disk[f] == c)
    || (exists k :: k in w.mod.held && w.mod.held[k] == c)
  }

  /** No document of the module was ever at a path whose file has the name of a conflict copy. */
  predicate NoneAtCopyName(m: Module) {
    forall p :: p in m.placed && LocalPath(p.1).Some? ==> !IsCopyName(LocalPath(p.1).value)
  }

  lemma StepKeepsSafe(w: World, who: Actor, v: World, c: Content)
    requires StepOK(w, who, v) && Safe(w, c) && NoneAtCopyName(w.mod)
    requires who == Person ==> Safe(v, c)
    ensures Safe(v, c)
  {
    hide IsCopyName, LocalPath, SendOK, ModuleOK, After, Explained, InNoAccess, LeavesOnWord, Applied, UnnamedCopy;
    if who != Person {
      if k :| k in w.mod.held && w.mod.held[k] == c {
        assert k in v.mod.held && v.mod.held[k] == c;
      } else {
        var f :| f in w.disk && !IsCopyName(f) && w.disk[f] == c;
        if who == Daemon {
          assert Kept(w, v, f);
          if g :| MovedTo(w, v, f, g) {
            assert !IsCopyName(g);
          }
        } else {
          assert f in v.disk;
        }
      }
    }
  }

  /** No work is lost: in every run, what is safe at one moment is safe at every later one, as long as
    * the module puts no document at the name of a conflict copy, unless the person is who removes it. */
  lemma {:induction false} NoWorkLost(t: seq<Event>, i: nat, j: nat, c: Content)
    requires IsRun(t) && i <= j < |t| && Safe(t[i].w, c) && NoneAtCopyName(t[j].w.mod)
    requires forall n :: i < n <= j && t[n].who == Person ==> (Safe(t[n - 1].w, c) ==> Safe(t[n].w, c))
    ensures Safe(t[j].w, c)
  {
    hide IsRun, Inv, Safe, StepOK, ModuleGrows;
    if i < j {
      Unroll(t, j);
      PlacedStays(t, j);
      NoWorkLost(t, i, j - 1, c);
      StepKeepsSafe(t[j - 1].w, t[j].who, t[j].w, c);
    }
  }

  lemma PlacedStays(t: seq<Event>, j: nat)
    requires IsRun(t) && 0 < j < |t|
    ensures t[j - 1].w.mod.placed <= t[j].w.mod.placed
  {
    hide IsRun, Inv, KeepsWork, SendOK, ModuleOK;
    Unroll(t, j);
  }

  // ---- nothing is forgotten but on the module's word ---------------------------------

  /** The daemon was told that the document is gone from its sight: by an answer, or by news of a deletion its
    * record is not past. */
  predicate ToldGone(e: Event, id: Id) {
    || (e.who == Answered(id, true) && !ShownTo(e.w.h.heard.cfg, e.w.mod, id))
    || (e.who.Announced? && e.who.doc == id && DeletionApplies(e.w.docs, id, e.who.version))
  }

  /** The module answered with the document, at a path in scope. */
  predicate Shows(e: Event, id: Id) {
    e.who == Answered(id, true) && ShownTo(e.w.h.heard.cfg, e.w.mod, id)
  }

  /** The daemon was told so, and was not shown the document since. */
  ghost predicate LastToldGone(t: seq<Event>, i: nat, id: Id)
    requires i < |t|
  {
    exists j :: 0 <= j <= i && ToldGone(t[j], id) && forall k :: j < k <= i ==> !Shows(t[k], id)
  }

  lemma {:induction false} UnseenWasTold(t: seq<Event>, i: nat, id: Id)
    requires IsRun(t) && i < |t| && id in t[i].w.h.heard.unseen
    ensures LastToldGone(t, i, id)
  {
    hide IsRun, Inv, StepOK, ShownTo, DeletionApplies;
    Unroll(t, i);
    if !ToldGone(t[i], id) && i > 0 {
      UnseenWasTold(t, i - 1, id);
      var j :| 0 <= j <= i - 1 && ToldGone(t[j], id) && forall k :: j < k <= i - 1 ==> !Shows(t[k], id);
      assert !Shows(t[i], id);
    }
  }

  /** A listing under the prefix did not list the document, and none has begun since. */
  ghost predicate LastNotListed(t: seq<Event>, i: nat, prefix: string, id: Id)
    requires i < |t|
  {
    exists j :: 0 <= j <= i && t[j].who == ListedUnder(prefix) && id !in Under(t[j].w.mod, prefix)
                && forall k :: j < k <= i ==> t[k].who != Lists
  }

  lemma {:induction false} UnlistedWasNotListed(t: seq<Event>, i: nat, prefix: string, id: Id)
    requires IsRun(t) && i < |t| && prefix in t[i].w.h.heard.listed && id !in t[i].w.h.heard.listed[prefix]
    ensures LastNotListed(t, i, prefix, id)
  {
    hide IsRun, Inv, StepOK, ShownTo, DeletionApplies, Under;
    Unroll(t, i);
    if t[i].who != ListedUnder(prefix) && i > 0 {
      UnlistedWasNotListed(t, i - 1, prefix, id);
      var j :| 0 <= j <= i - 1 && t[j].who == ListedUnder(prefix) && id !in Under(t[j].w.mod, prefix)
               && forall k :: j < k <= i - 1 ==> t[k].who != Lists;
      assert t[i].who != Lists;
    }
  }

  /** The module's word, as the daemon heard it, is that the document is gone: it was told so, or the last
    * listing did not list it under any of the prefixes synced. */
  ghost predicate OnTheWord(t: seq<Event>, i: nat, id: Id)
    requires i < |t|
  {
    || LastToldGone(t, i, id)
    || forall n :: 0 <= n < |Prefixes(t[i].w.h.heard.cfg)| ==> LastNotListed(t, i, Prefixes(t[i].w.h.heard.cfg)[n], id)
  }

  lemma GoneOnTheWord(t: seq<Event>, i: nat, id: Id)
    requires IsRun(t) && i < |t| && Gone(t[i].w.h.heard, id)
    ensures OnTheWord(t, i, id)
  {
    hide IsRun, Prefixes, LastNotListed, LastToldGone;
    if id in t[i].w.h.heard.unseen {
      UnseenWasTold(t, i, id);
    } else {
      forall n | 0 <= n < |Prefixes(t[i].w.h.heard.cfg)|
        ensures LastNotListed(t, i, Prefixes(t[i].w.h.heard.cfg)[n], id)
      {
        UnlistedWasNotListed(t, i, Prefixes(t[i].w.h.heard.cfg)[n], id);
      }
    }
  }

  /** No record is forgotten but on the module's word, or for another document recorded at its path. */
  lemma ForgottenOnTheWord(t: seq<Event>, i: nat, id: Id)
    requires IsRun(t) && 0 < i < |t| && id in t[i - 1].w.docs && id !in t[i].w.docs
    ensures OnTheWord(t, i - 1, id) || PathTaken(t[i].w.docs, t[i - 1].w.docs[id].path)
  {
    hide IsRun, Inv, Gone, OnTheWord, KeepsWork;
    Unroll(t, i);
    if !PathTaken(t[i].w.docs, t[i - 1].w.docs[id].path) {
      GoneOnTheWord(t, i - 1, id);
    }
  }

  /** The file is that of a document that is gone on the module's word, or went to where its document went. */
  ghost predicate LeftOnTheWord(t: seq<Event>, i: nat, f: string, id: Id)
    requires 0 < i < |t|
  {
    && id in t[i - 1].w.docs && IsFileOf(t[i - 1].w.docs[id].path, f)
    && (OnTheWord(t, i - 1, id) || GoesAlong(t[i - 1].w, t[i].w.disk, f, id))
  }

  /** No file leaves its name, unless the person takes it away, but on the module's word. */
  lemma FilesLeaveOnTheWord(t: seq<Event>, i: nat, f: string)
    requires IsRun(t) && 0 < i < |t| && t[i].who != Person && f in t[i - 1].w.disk && f !in t[i].w.disk
    ensures exists id :: LeftOnTheWord(t, i, f, id)
  {
    hide IsRun, Inv, Gone, OnTheWord, KeepsWork, GoesAlong, ModuleGrows, After, SendOK, Applied, UnnamedCopy, LocalPath;
    Unroll(t, i);
    var id :| LeftFor(t[i - 1].w, t[i].w.disk, f, id);
    if Gone(t[i - 1].w.h.heard, id) {
      GoneOnTheWord(t, i - 1, id);
    }
    assert LeftOnTheWord(t, i, f, id);
  }

  /** The module shows the document under a prefix that is synced, and in scope. */
  predicate SeenUnder(e: Event, prefix: string, id: Id) {
    prefix in Prefixes(e.w.h.heard.cfg) && ShownTo(e.w.h.heard.cfg, e.w.mod, id)
    && HasPrefix(e.w.mod.docs[id].path, prefix)
  }

  /** The document is shown all the way from one event to another, and no deletion of it is announced. */
  ghost predicate SeenAllAlong(t: seq<Event>, a: nat, i: nat, prefix: string, id: Id)
    requires i < |t|
  {
    forall k :: a <= k <= i ==> SeenUnder(t[k], prefix, id) && !(t[k].who.Announced? && t[k].who.doc == id)
  }

  predicate NotGone(k: Heard, prefix: string, id: Id) {
    id !in k.unseen && (prefix in k.listed ==> id in k.listed[prefix])
  }

  lemma {:induction false} StaysNotGone(t: seq<Event>, a: nat, i: nat, prefix: string, id: Id)
    requires IsRun(t) && a <= i < |t| && SeenAllAlong(t, a, i, prefix, id) && NotGone(t[a].w.h.heard, prefix, id)
    ensures NotGone(t[i].w.h.heard, prefix, id)
  {
    hide IsRun, Inv, StepOK, InScope, Prefixes;
    Unroll(t, i);
    if a < i {
      StaysNotGone(t, a, i - 1, prefix, id);
      assert SeenUnder(t[i], prefix, id);
    }
  }

  /** A document that the module shows all along is not forgotten, whatever is lost, refused or listed
    * meanwhile, unless another document is recorded at its path. */
  lemma SeenIsNotForgotten(t: seq<Event>, a: nat, i: nat, prefix: string, id: Id)
    requires IsRun(t) && a < i < |t| && SeenAllAlong(t, a, i - 1, prefix, id) && NotGone(t[a].w.h.heard, prefix, id)
    requires id in t[i - 1].w.docs
    ensures id in t[i].w.docs || PathTaken(t[i].w.docs, t[i - 1].w.docs[id].path)
  {
    hide IsRun, Inv, KeepsWork, InScope, Prefixes;
    StaysNotGone(t, a, i - 1, prefix, id);
    assert SeenUnder(t[i - 1], prefix, id);
    Unroll(t, i);
  }

  // ---- all of it -------------------------------------------------------------------

  /** Every step but the person's keeps what every synced file holds. */
  ghost predicate WorkIsKept(t: seq<Event>) {
    forall i, f :: 0 < i < |t| && t[i].who != Person && f in t[i - 1].w.disk && !HiddenPath(f) ==>
                     Kept(t[i - 1].w, t[i].w, f)
  }

  ghost predicate WorkIsSafe(t: seq<Event>) {
    forall i: nat, j: nat, c ::
      i <= j < |t| && Safe(t[i].w, c) && NoneAtCopyName(t[j].w.mod)
      && (forall n :: i < n <= j && t[n].who == Person ==> (Safe(t[n - 1].w, c) ==> Safe(t[n].w, c)))
      ==> Safe(t[j].w, c)
  }

  ghost predicate OverwritesAreSeen(t: seq<Event>) {
    forall i: nat, id, base :: i < |t| && t[i].who == Sent(id, base) ==>
                                 && id in t[i].w.docs && !t[i].w.docs[id].readOnly
                                 && ((exists f :: Shown(t, i, id, base, f)) || CopyNotNamed(t, i, id, base))
  }

  ghost predicate CursorIsSafe(t: seq<Event>) {
    && (forall i: nat, n: nat ::
          i < |t| && StartHeld(t, i) && n < |t[i].w.mod.log| && t[i].w.mod.log[n].sequence <= t[i].w.lastSeq
          ==> HandedOrGone(t, i, n))
    && (forall i: nat, j: nat :: i <= j < |t| ==> t[i].w.lastSeq <= t[j].w.lastSeq)
  }

  ghost predicate RecordKept(t: seq<Event>, i: nat, id: Id)
    requires 0 < i < |t|
  {
    id in t[i - 1].w.docs && id !in t[i].w.docs ==>
      OnTheWord(t, i - 1, id) || PathTaken(t[i].w.docs, t[i - 1].w.docs[id].path)
  }

  ghost predicate FileStays(t: seq<Event>, i: nat, f: string)
    requires 0 < i < |t|
  {
    t[i].who != Person && f in t[i - 1].w.disk && f !in t[i].w.disk ==> exists id :: LeftOnTheWord(t, i, f, id)
  }

  ghost predicate ForgetsOnTheWord(t: seq<Event>) {
    && (forall i: nat, id :: 0 < i < |t| ==> RecordKept(t, i, id))
    && (forall i: nat, f :: 0 < i < |t| ==> FileStays(t, i, f))
  }

  lemma RunForgetsOnTheWord(t: seq<Event>)
    requires IsRun(t)
    ensures ForgetsOnTheWord(t)
  {
    hide IsRun, OnTheWord, PathTaken, LeftOnTheWord;
    forall i: nat, id | 0 < i < |t| ensures RecordKept(t, i, id) {
      if id in t[i - 1].w.docs && id !in t[i].w.docs {
        ForgottenOnTheWord(t, i, id);
      }
    }
    forall i: nat, f | 0 < i < |t| ensures FileStays(t, i, f) {
      if t[i].who != Person && f in t[i - 1].w.disk && f !in t[i].w.disk {
        FilesLeaveOnTheWord(t, i, f);
      }
    }
  }

  lemma RunsKeepAll(t: seq<Event>)
    requires IsRun(t)
    ensures WorkIsKept(t) && WorkIsSafe(t) && OverwritesAreSeen(t) && CursorIsSafe(t) && ForgetsOnTheWord(t)
  {
    hide IsRun, Kept, Safe, Shown, CopyNotNamed, HandedOrGone, HiddenPath, NoneAtCopyName, StartHeld, ForgetsOnTheWord;
    RunForgetsOnTheWord(t);
    forall i, f | 0 < i < |t| && t[i].who != Person && f in t[i - 1].w.disk && !HiddenPath(f)
      ensures Kept(t[i - 1].w, t[i].w, f)
    {
      EveryStepKeepsWork(t, i, f);
    }
    forall i: nat, j: nat, c |
      i <= j < |t| && Safe(t[i].w, c) && NoneAtCopyName(t[j].w.mod)
      && (forall n :: i < n <= j && t[n].who == Person ==> (Safe(t[n - 1].w, c) ==> Safe(t[n].w, c)))
      ensures Safe(t[j].w, c)
    {
      NoWorkLost(t, i, j, c);
    }
    forall i: nat, id, base | i < |t| && t[i].who == Sent(id, base)
      ensures id in t[i].w.docs && !t[i].w.docs[id].readOnly
      ensures (exists f :: Shown(t, i, id, base, f)) || CopyNotNamed(t, i, id, base)
    {
      NoUnseenOverwrite(t, i, id, base);
    }
    forall i: nat, n: nat |
      i < |t| && StartHeld(t, i) && n < |t[i].w.mod.log| && t[i].w.mod.log[n].sequence <= t[i].w.lastSeq
      ensures HandedOrGone(t, i, n)
    {
      CursorSafety(t, i, n);
    }
    forall i: nat, j: nat | i <= j < |t| ensures t[i].w.lastSeq <= t[j].w.lastSeq {
      CursorNeverGoesBack(t, i, j);
    }
  }
}
