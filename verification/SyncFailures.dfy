/** Two runs of internal/docsync/engine.go that break a promise, each where the condition of its theorem fails. */
module SyncFailures {
  import opened Common
  import opened Text
  import opened Files
  import opened DocModel
  import opened DocRuns
  import opened StateDb
  import opened Remote
  import opened SyncEngine
  import opened SyncSession

  // ---- an edit that is lost -------------------------------------------------------

  const OTHER := "2"

  /** A module that holds two documents and lists folders to admins only. */
  function TwoDocuments(pa: string, a: Content, pb: string, b: Content): Module {
    Module(map[(ID, 1) := a, (OTHER, 1) := b], {(ID, pa), (OTHER, pb)},
           map[ID := Doc(pa, "f", 1, 1, false, true), OTHER := Doc(pb, "f", 1, 1, false, true)],
           [Change(1, Created, ID, 1, pa), Change(2, Created, OTHER, 1, pb)], 0, 2, map[], true, false)
  }

  /** The first was moved to the name of the second's conflict copy, and the second has a new version. */
  function MovedOntoCopy(pa: string, a: Content, pb: string, b: Content, theirs: Content): Module {
    var m, cp := TwoDocuments(pa, a, pb, b), ConflictName(pb, 2);
    m.(held := m.held[(OTHER, 2) := theirs], placed := m.placed + {(ID, cp)},
       docs := map[ID := Doc(cp, "f", 1, 1, false, true), OTHER := Doc(pb, "f", 2, 1, false, true)],
       log := m.log + [Change(3, Moved, ID, 1, cp), Change(4, Updated, OTHER, 2, pb)], head := 4)
  }

  function Synchronized(id: Id, path: string, content: Content): DocRecord {
    DocRecord(id, path, "f", 1, Checksum(content), false, "")
  }

  lemma TwoAreOK(pa: string, a: Content, pb: string, b: Content)
    ensures ModuleOK(TwoDocuments(pa, a, pb, b))
  {
  }

  lemma MovedDocs(pa: string, a: Content, pb: string, b: Content, theirs: Content)
    ensures DocsOK(MovedOntoCopy(pa, a, pb, b, theirs))
  {
    hide ConflictName;
    var n := MovedOntoCopy(pa, a, pb, b, theirs);
    assert forall k :: k in n.held ==> k in {(ID, 1), (OTHER, 1), (OTHER, 2)};
  }

  lemma MovedFeed(pa: string, a: Content, pb: string, b: Content, theirs: Content)
    ensures FeedOK(MovedOntoCopy(pa, a, pb, b, theirs))
  {
    hide ConflictName;
  }

  lemma ModulesAreOK(pa: string, a: Content, pb: string, b: Content, theirs: Content)
    ensures ModuleOK(TwoDocuments(pa, a, pb, b))
    ensures ModuleGrows(TwoDocuments(pa, a, pb, b), MovedOntoCopy(pa, a, pb, b, theirs))
  {
    hide ConflictName, DocsOK, FeedOK;
    TwoAreOK(pa, a, pb, b);
    MovedDocs(pa, a, pb, b, theirs);
    MovedFeed(pa, a, pb, b, theirs);
    var m, n := TwoDocuments(pa, a, pb, b), MovedOntoCopy(pa, a, pb, b, theirs);
    assert n.log[..|m.log|] == m.log;
  }

  lemma TwoListed(pa: string, a: Content, pb: string, b: Content)
    requires ModuleOK(TwoDocuments(pa, a, pb, b))
    ensures var m := TwoDocuments(pa, a, pb, b);
            Listing(m, Prefixes(ALL)) == map[ID := RemoteOf(m, ID), OTHER := RemoteOf(m, OTHER)]
  {
    hide ModuleOK, RemoteOf;
    var m := TwoDocuments(pa, a, pb, b);
    assert HasPrefix(pa, Prefixes(ALL)[0]) && HasPrefix(pb, Prefixes(ALL)[0]);
    assert Selected(m, Prefixes(ALL), ID) && Selected(m, Prefixes(ALL), OTHER);
  }

  lemma TwoSettleable(pa: string, a: Content, pb: string, b: Content)
    requires Synced(pa) && Synced(pb) && pa != pb && ModuleOK(TwoDocuments(pa, a, pb, b))
    ensures Settleable(ALL, map[], map[], TwoDocuments(pa, a, pb, b)) && EditsOf(map[], map[]) == map[]
  {
    hide ModuleOK, Plain, HiddenPath, LocalPath, Lower, Listing;
    TwoListed(pa, a, pb, b);
    assert EditsOf(map[], map[]) == map[];
  }

  lemma TwoRecords(disk: map<string, Content>, docs: map<Id, DocRecord>, mod: Module, known: map<string, string>,
                   pa: string, a: Content, pb: string, b: Content)
    requires ModuleOK(mod) && ModuleOK(TwoDocuments(pa, a, pb, b))
    requires Converged(ALL, TwoDocuments(pa, a, pb, b), map[], disk, docs, mod, known)
    requires PermissionsKnown(TwoDocuments(pa, a, pb, b), Prefixes(ALL), known)
    ensures mod == TwoDocuments(pa, a, pb, b)
    ensures docs == map[ID := Synchronized(ID, pa, a), OTHER := Synchronized(OTHER, pb, b)]
  {
    hide ModuleOK, Listing;
    TwoListed(pa, a, pb, b);
    assert ID in docs && OTHER in docs;
  }

  /** The two files and their edits. */
  predicate Edited(pa: string, a: Content, ea: Content, pb: string, b: Content, eb: Content, theirs: Content) {
    && Synced(pa) && Synced(pb) && pa != pb
    && ea != a && eb != b && eb != theirs
  }

  lemma NotCopies(path: string)
    requires Synced(path)
    ensures Plain(path) && !IsCopyName(path)
  {
    hide HiddenPath, Plain, Uploadable;
    if IsCopyName(path) {
      CopiesAreHidden(path);
    }
  }

  /** Following the first document's move takes its edited file to the copy's name. */
  lemma FirstFetch(pa: string, a: Content, ea: Content, pb: string, b: Content, eb: Content, theirs: Content)
    requires Edited(pa, a, ea, pb, b, eb, theirs) && ModuleOK(MovedOntoCopy(pa, a, pb, b, theirs))
    ensures var m, cp := MovedOntoCopy(pa, a, pb, b, theirs), ConflictName(pb, 2);
            var disk, rec := map[pa := ea, pb := eb], Synchronized(ID, pa, a);
            var docs := map[ID := rec, OTHER := Synchronized(OTHER, pb, b)];
            && ID in m.docs && m.docs[ID].readable && !Known(ALL, docs, ID, cp, 0)
            && Fetchable(ALL, disk, RemoteOf(m, ID), Some(rec))
            && FetchedDisk(disk, RemoteOf(m, ID), CurrentContent(m, ID), Some(rec))
               == map[cp := ea, pb := eb][ConflictName(cp, 1) := a]
            && var docs' := Put(docs, FetchedRecord(disk, RemoteOf(m, ID), CurrentContent(m, ID), map[], Some(rec)));
            OTHER in docs' && docs'[OTHER] == Synchronized(OTHER, pb, b)
  {
    hide ModuleOK, Plain, LocalPath, IsCopyName, ConflictName, HiddenPath, Uploadable, TrackedCopy;
    var cp := ConflictName(pb, 2);
    NotCopies(pa);
    NotCopies(pb);
    ConflictNameIsCopy(pb, 2);
    ConflictNameIsPlain(pb, 2);
    if Checksum(ea) == Checksum(a) {
      ChecksumInjective(ea, a);
    }
    assert Followed(map[pa := ea, pb := eb], Some(Synchronized(ID, pa, a)), cp) == map[cp := ea, pb := eb];
  }

  /** The second document's conflict copy then takes that name. */
  lemma SecondFetch(pa: string, a: Content, ea: Content, pb: string, b: Content, eb: Content, theirs: Content)
    requires Edited(pa, a, ea, pb, b, eb, theirs) && ModuleOK(MovedOntoCopy(pa, a, pb, b, theirs))
    ensures var m, cp, rec := MovedOntoCopy(pa, a, pb, b, theirs), ConflictName(pb, 2), Synchronized(OTHER, pb, b);
            var disk := map[cp := ea, pb := eb][ConflictName(cp, 1) := a];
            && OTHER in m.docs && m.docs[OTHER].readable
            && (forall docs' :: OTHER in docs' && docs'[OTHER] == rec ==> !Known(ALL, docs', OTHER, pb, 2))
            && Fetchable(ALL, disk, RemoteOf(m, OTHER), Some(rec))
            && FetchedDisk(disk, RemoteOf(m, OTHER), CurrentContent(m, OTHER), Some(rec)) == disk[cp := theirs]
  {
    hide ModuleOK, Plain, LocalPath, IsCopyName, ConflictName, HiddenPath, Uploadable, TrackedCopy;
    var cp := ConflictName(pb, 2);
    NotCopies(pb);
    ConflictNameIsCopy(pb, 2);
    ConflictNameIsCopy(cp, 1);
    if Checksum(eb) == Checksum(b) {
      ChecksumInjective(eb, b);
    }
  }

  /** What is left of the three texts. */
  lemma EditIsGone(w: World, pa: string, a: Content, ea: Content, pb: string, b: Content, eb: Content, theirs: Content)
    requires ea !in [a, b, eb, theirs] && w.mod == MovedOntoCopy(pa, a, pb, b, theirs)
    requires var cp := ConflictName(pb, 2);
             w.disk == map[cp := ea, pb := eb][ConflictName(cp, 1) := a][cp := theirs]
    ensures !Safe(w, ea) && forall f :: f in w.disk ==> w.disk[f] != ea
  {
    hide ConflictName, IsCopyName;
  }

  lemma PlacedAtCopy(pa: string, a: Content, pb: string, b: Content, theirs: Content)
    requires Synced(pb)
    ensures !NoneAtCopyName(MovedOntoCopy(pa, a, pb, b, theirs))
  {
    hide ConflictName, IsCopyName, LocalPath, HiddenPath, Uploadable;
    var cp := ConflictName(pb, 2);
    ConflictNameIsCopy(pb, 2);
    ConflictNameIsPlain(pb, 2);
    assert (ID, cp) in MovedOntoCopy(pa, a, pb, b, theirs).placed;
  }

  lemma SafeInFile(w: World, path: string, c: Content)
    requires Synced(path) && path in w.disk && w.disk[path] == c
    ensures Safe(w, c)
  {
    hide Synced, IsCopyName;
    NotCopies(path);
  }

  /** A first reconciliation of both documents. */
  method SyncBoth(pa: string, a: Content, pb: string, b: Content) returns (engine: Engine)
    requires Synced(pa) && Synced(pb) && pa != pb && ModuleOK(TwoDocuments(pa, a, pb, b))
    ensures fresh(engine) && fresh(engine.state) && engine.Valid() && engine.cfg == ALL && engine.plan == []
    ensures engine.mod == TwoDocuments(pa, a, pb, b) && engine.permissions == map[] && engine.trace != []
    ensures engine.state.docs == map[ID := Synchronized(ID, pa, a), OTHER := Synchronized(OTHER, pb, b)]
  {
    hide IsRun, Inv, ModuleOK, TableOK, Settleable, Listing, ModuleGrows, Agrees, Synced;
    var m := TwoDocuments(pa, a, pb, b);
    TwoSettleable(pa, a, pb, b);
    UnsyncedBegins(map[], m);
    var state := new State(map[], map[], 0, false);
    engine := new Engine(ALL, [], map[], m, state, [Event(Begin, Unsynced(map[], m))]);
    ghost var calls, known, all;
    var e;
    e, calls, known, all := engine.FullReconcile();
    TwoRecords(engine.disk, state.docs, engine.mod, known, pa, a, pb, b);
  }

  /** The daemon follows the move, and then the new version. */
  method FollowBoth(engine: Engine, pa: string, a: Content, ea: Content, pb: string, b: Content, eb: Content,
                    theirs: Content)
    requires Edited(pa, a, ea, pb, b, eb, theirs)
    requires engine.Valid() && engine.cfg == ALL && engine.plan == [] && engine.permissions == map[]
    requires engine.mod == MovedOntoCopy(pa, a, pb, b, theirs) && engine.disk == map[pa := ea, pb := eb]
    requires engine.state.docs == map[ID := Synchronized(ID, pa, a), OTHER := Synchronized(OTHER, pb, b)]
    modifies engine, engine.state
    ensures engine.Valid() && engine.mod == old(engine.mod)
    ensures var cp := ConflictName(pb, 2);
            engine.disk == map[cp := ea, pb := eb][ConflictName(cp, 1) := a][cp := theirs]
    ensures old(engine.trace) <= engine.trace
    ensures forall n :: |old(engine.trace)| <= n < |engine.trace| ==> !engine.trace[n].who.Person?
  {
    hide IsRun, Inv, TableOK, ModuleGrows, Fetchable, Known, ConflictName, FetchedDisk, FetchedRecord, Put;
    hide Edited, MovedOntoCopy, CurrentContent, RemoteOf, Followed, FollowedDocs, ModuleOK;
    FirstFetch(pa, a, ea, pb, b, eb, theirs);
    SecondFetch(pa, a, ea, pb, b, eb, theirs);
    var e := engine.ApplyNotification(ChangedDoc(ID, ConflictName(pb, 2), 0));
    ghost var u := engine.trace;
    e := engine.ApplyNotification(ChangedDoc(OTHER, pb, 2));
    forall n | |old(engine.trace)| <= n < |engine.trace| ensures !engine.trace[n].who.Person? {
      if n < |u| {
        assert engine.trace[n] == u[n];
      }
    }
  }

  /** An edit is lost, and not by the person: two synced files are edited, the first's document is moved to the
    * name of the second's conflict copy, the second gets a new version, and the daemon follows both. */
  method CopyOverwritesMovedEdit(pa: string, a: Content, ea: Content, pb: string, b: Content, eb: Content, theirs: Content)
    returns (run: seq<Event>, i: nat)
    requires Edited(pa, a, ea, pb, b, eb, theirs) && ea !in [b, eb, theirs]
    ensures IsRun(run) && i < |run| && run[i].who == Person && Safe(run[i].w, ea)
    ensures forall n :: i < n < |run| ==> !run[n].who.Person?
    ensures !Safe(Last(run), ea) && forall f :: f in Last(run).disk ==> Last(run).disk[f] != ea
    ensures !NoneAtCopyName(Last(run).mod)
  {
    hide IsRun, Inv, ModuleOK, TableOK, ModuleGrows, Synced, ConflictName, Safe, NoneAtCopyName, TwoDocuments, MovedOntoCopy;
    var n := MovedOntoCopy(pa, a, pb, b, theirs);
    ModulesAreOK(pa, a, pb, b, theirs);
    SameFloor(pa, a, pb, b, theirs);
    var engine := SyncBoth(pa, a, pb, b);
    engine.Play([PersonMakes(map[pa := ea, pb := eb])]);
    i := |engine.trace| - 1;
    SafeInFile(engine.trace[i].w, pa, ea);
    ghost var s := engine.trace;
    engine.Play([OthersMake(n)]);
    ghost var t := engine.trace;
    FollowBoth(engine, pa, a, ea, pb, b, eb, theirs);
    run := engine.trace;
    assert run[i] == t[i] == s[i];
    assert forall k :: i < k < |t| ==> !t[k].who.Person?;
    assert forall k :: i < k < |t| ==> run[k] == t[k];
    EditIsGone(Last(run), pa, a, ea, pb, b, eb, theirs);
    PlacedAtCopy(pa, a, pb, b, theirs);
  }

  lemma SameFloor(pa: string, a: Content, pb: string, b: Content, theirs: Content)
    ensures TwoDocuments(pa, a, pb, b).floor == MovedOntoCopy(pa, a, pb, b, theirs).floor
  {
  }

  // ---- a version that is overwritten unseen ---------------------------------------

  /** A document whose path is such that its conflict copy cannot be named, and the plain path it goes to. */
  predicate Dotted(src: string, dst: string) {
    Plain(src) && DotDot(src) && !IsCopyName(src) && Synced(dst)
  }

  /** The document was moved, without a new version. */
  function MovedFrom(src: string, dst: string, theirs: Content, stated: bool): Module {
    var m := OneDocument(src, theirs, stated);
    m.(placed := m.placed + {(ID, dst)}, docs := map[ID := Doc(dst, "f", 1, 1, false, true)],
       log := m.log + [Change(2, Moved, ID, 1, dst)], head := 2)
  }

  lemma MovedFromDocs(src: string, dst: string, theirs: Content, stated: bool)
    ensures DocsOK(MovedFrom(src, dst, theirs, stated))
  {
  }

  lemma MovedFromFeed(src: string, dst: string, theirs: Content, stated: bool)
    ensures FeedOK(MovedFrom(src, dst, theirs, stated))
  {
  }

  lemma MovedFromGrows(src: string, dst: string, theirs: Content, stated: bool)
    ensures var m, n := OneDocument(src, theirs, stated), MovedFrom(src, dst, theirs, stated);
            ModuleOK(m) && ModuleOK(n) && ModuleGrows(m, n) && m.floor == n.floor
  {
    hide DocsOK, FeedOK;
    OneIsOK(src, theirs, stated);
    MovedFromDocs(src, dst, theirs, stated);
    MovedFromFeed(src, dst, theirs, stated);
    var m, n := OneDocument(src, theirs, stated), MovedFrom(src, dst, theirs, stated);
    assert n.log[..|m.log|] == m.log;
  }

  lemma MovedListed(src: string, dst: string, theirs: Content, stated: bool)
    requires ModuleOK(MovedFrom(src, dst, theirs, stated))
    ensures var m := MovedFrom(src, dst, theirs, stated);
            && Listing(m, Prefixes(ALL)) == map[ID := RemoteOf(m, ID)]
            && RemoteOf(m, ID).id == ID && RemoteOf(m, ID).path == dst && RemoteOf(m, ID).version == 1
  {
    hide ModuleOK;
    var m := MovedFrom(src, dst, theirs, stated);
    assert HasPrefix(m.docs[ID].path, Prefixes(ALL)[0]);
    assert Selected(m, Prefixes(ALL), ID);
  }

  /** Version 1 is on the disk only in the copy `cp`, and nothing says that a file is based on that copy. */
  predicate OnlyInCopy(disk: map<string, Content>, docs: map<Id, DocRecord>, theirs: Content, src: string, dst: string,
                       cp: string)
  {
    && (forall f :: f in disk && disk[f] == theirs ==> f == cp)
    && (forall id :: id in docs ==> docs[id].path in [src, dst] && docs[id].conflict == "")
  }

  predicate UnseenUntil(t: seq<Event>, n: nat, theirs: Content, src: string, dst: string, cp: string)
    requires n <= |t|
  {
    forall i :: 0 <= i < n ==> OnlyInCopy(t[i].w.disk, t[i].w.docs, theirs, src, dst, cp) && !t[i].who.Filed?
  }

  lemma UnseenOn(t: seq<Event>, u: seq<Event>, disks: seq<map<string, Content>>, tables: seq<map<Id, DocRecord>>,
                 theirs: Content, src: string, dst: string, cp: string)
    requires Passes(t, u, disks, tables) && UnseenUntil(t, |t|, theirs, src, dst, cp)
    requires forall d, x :: d in disks && x in tables ==> OnlyInCopy(d, x, theirs, src, dst, cp)
    ensures UnseenUntil(u, |u|, theirs, src, dst, cp)
  {
    hide OnlyInCopy;
    forall i | 0 <= i < |u|
      ensures OnlyInCopy(u[i].w.disk, u[i].w.docs, theirs, src, dst, cp) && !u[i].who.Filed?
    {
      if i < |t| {
        assert u[i] == t[i];
      }
    }
  }

  lemma UnseenIsNotShown(t: seq<Event>, i: nat, theirs: Content, src: string, dst: string, cp: string)
    requires i < |t| && UnseenUntil(t, i + 1, theirs, src, dst, cp)
    requires Plain(src) && Plain(dst) && cp !in [src, dst]
    requires IsVersion(t[i].w.mod, ID, 1, theirs)
    ensures forall f :: !Shown(t, i, ID, 1, f)
  {
    hide LocalPath;
    forall j, f | 0 <= j <= i
      ensures OnDisk(t[j], f, theirs) ==> f == cp
      ensures f == cp ==> !OwnFile(t[j], ID, 1, f) && !MergedCopy(t[j], ID, 1, f) && t[j].who != Filed(ID, 1, f)
    {
      assert OnlyInCopy(t[j].w.disk, t[j].w.docs, theirs, src, dst, cp);
    }
  }

  /** Fetching the document beside the file it does not match leaves a copy that the record does not name. */
  lemma DottedFetch(src: string, dst: string, mine: Content, theirs: Content, stated: bool)
    requires Dotted(src, dst) && mine != theirs && ModuleOK(OneDocument(src, theirs, stated))
    ensures var m, disk := OneDocument(src, theirs, stated), map[src := mine];
            var d, c := RemoteOf(m, ID), CurrentContent(m, ID);
            && !Known(ALL, map[], ID, src, 1) && Fetchable(ALL, disk, d, None)
            && FetchedDisk(disk, d, c, None) == disk[ConflictName(src, 1) := theirs]
            && FetchedRecord(disk, d, c, map[], None) == Synchronized(ID, src, theirs)
  {
    hide ModuleOK, LocalPath, IsCopyName, ConflictName, HiddenPath, Uploadable;
    ConflictIsRemembered(src, 1);
  }

  lemma ConflictIsRemembered(src: string, v: nat)
    requires Plain(src) && DotDot(src)
    ensures TrackedCopy(src, v) == ""
  {
    hide ConflictName;
    CopyIsTracked(src, v);
  }

  /** Once the move was followed, the file waits for nothing. */
  lemma DottedMoved(src: string, dst: string, mine: Content, theirs: Content, stated: bool)
    requires Dotted(src, dst) && mine != theirs && ModuleOK(MovedFrom(src, dst, theirs, stated))
    ensures var m, disk := MovedFrom(src, dst, theirs, stated), map[src := mine][ConflictName(src, 1) := theirs];
            var d, rec := RemoteOf(m, ID), Synchronized(ID, src, theirs);
            && InScope(ALL, dst) && !HiddenPath(dst) && OnlyMoved(disk, d, rec)
            && MoveFile(disk, LocalPath(src).value, LocalPath(dst).value) == map[dst := mine][ConflictName(src, 1) := theirs]
            && Put(map[ID := rec], Relocated(d, rec, map[])) == map[ID := Synchronized(ID, dst, theirs)]
            && Put(map[ID := rec], rec.(path := dst)) == map[ID := Synchronized(ID, dst, theirs)]
  {
    hide ModuleOK, LocalPath, IsCopyName, ConflictName, HiddenPath, Uploadable, Synced;
    NotCopies(dst);
    ConflictNameIsCopy(src, 1);
    SyncedIsVisible(dst);
    DottedIsOther(src, dst);
  }

  lemma SyncedIsVisible(path: string)
    requires Synced(path)
    ensures InScope(ALL, path) && !HiddenPath(path) && !DotDot(path) && Uploadable(ALL, path)
  {
    hide HiddenPath, LocalPath, Lower, Ext;
  }

  lemma DottedIsOther(src: string, dst: string)
    requires Dotted(src, dst)
    ensures src != dst
  {
    hide Synced, Plain;
    SyncedIsVisible(dst);
  }

  lemma DottedReady(src: string, dst: string, mine: Content, theirs: Content, stated: bool)
    requires Dotted(src, dst) && mine != theirs && ModuleOK(MovedFrom(src, dst, theirs, stated))
    ensures ReadyToUpload(ALL, map[dst := mine][ConflictName(src, 1) := theirs], map[ID := Synchronized(ID, dst, theirs)],
                          MovedFrom(src, dst, theirs, stated), ID)
  {
    hide ModuleOK, LocalPath, IsCopyName, ConflictName, HiddenPath, Uploadable, Synced;
    NotCopies(dst);
    ConflictNameIsCopy(src, 1);
    SyncedIsVisible(dst);
    if Checksum(mine) == Checksum(theirs) {
      ChecksumInjective(mine, theirs);
    }
  }

  lemma UnseenMore(t: seq<Event>, e: Event, theirs: Content, src: string, dst: string, cp: string)
    requires UnseenUntil(t, |t|, theirs, src, dst, cp)
    requires OnlyInCopy(e.w.disk, e.w.docs, theirs, src, dst, cp) && !e.who.Filed?
    ensures UnseenUntil(t + [e], |t| + 1, theirs, src, dst, cp)
  {
    hide OnlyInCopy;
  }

  lemma DottedWorlds(src: string, dst: string, mine: Content, theirs: Content)
    requires mine != theirs
    ensures var cp, disk := ConflictName(src, 1), map[src := mine];
            && OnlyInCopy(disk, map[], theirs, src, dst, cp) && OnlyInCopy(disk[cp := theirs], map[], theirs, src, dst, cp)
            && forall d, r :: d in [disk, disk[cp := theirs], map[dst := mine][cp := theirs]]
                              && r in [Synchronized(ID, src, theirs), Synchronized(ID, dst, theirs)] ==>
                                OnlyInCopy(d, map[ID := r], theirs, src, dst, cp)
  {
    hide ConflictName;
  }

  /** What the module's version was brought to its file by. */
  lemma BroughtBeside(cfg: Config, permissions: map<string, string>, m: Module, id: Id, disk: map<string, Content>,
                      t: seq<Event>, disk': map<string, Content>, docs': map<Id, DocRecord>, u: seq<Event>, e: Err)
    requires ModuleOK(m) && QuietFetch(cfg, permissions, m, id, None, disk, map[], t, disk', docs', u, e)
    requires id in m.docs && m.docs[id].readable && Fetchable(cfg, disk, RemoteOf(m, id), None)
    ensures disk' == FetchedDisk(disk, RemoteOf(m, id), CurrentContent(m, id), None)
    ensures docs' == Put(map[], FetchedRecord(disk, RemoteOf(m, id), CurrentContent(m, id), permissions, None))
    ensures Passes(t, u, [disk, disk, disk'], [map[], map[], docs'])
  {
    hide ModuleOK, Fetchable, FetchedDisk, FetchedRecord, Put, Passes, Blocked, MovedAside, DeletionFollowed, InScope, LocalPath;
  }

  /** The daemon fetches the document beside the file. */
  method FetchDotted(src: string, dst: string, mine: Content, theirs: Content, stated: bool) returns (engine: Engine)
    requires Dotted(src, dst) && mine != theirs && ModuleOK(OneDocument(src, theirs, stated))
    ensures fresh(engine) && fresh(engine.state) && engine.Valid() && engine.cfg == ALL && engine.plan == []
    ensures engine.mod == OneDocument(src, theirs, stated) && engine.permissions == map[] && engine.trace != []
    ensures engine.disk == map[src := mine][ConflictName(src, 1) := theirs]
    ensures engine.state.docs == map[ID := Synchronized(ID, src, theirs)]
    ensures UnseenUntil(engine.trace, |engine.trace|, theirs, src, dst, ConflictName(src, 1))
  {
    hide IsRun, Inv, ModuleOK, TableOK, ModuleGrows, Dotted, ConflictName, Known, Fetchable, FetchedDisk, FetchedRecord, OnlyInCopy;
    hide QuietFetch, Passes;
    var m, w := OneDocument(src, theirs, stated), Unsynced(map[src := mine], OneDocument(src, theirs, stated));
    UnsyncedBegins(map[src := mine], m);
    DottedWorlds(src, dst, mine, theirs);
    DottedFetch(src, dst, mine, theirs, stated);
    var state := new State(map[], map[], 0, false);
    engine := new Engine(ALL, [], map[src := mine], m, state, [Event(Begin, w)]);
    ghost var t := engine.trace;
    assert UnseenUntil(t, |t|, theirs, src, dst, ConflictName(src, 1));
    var e := engine.ApplyNotification(ChangedDoc(ID, src, 1));
    BroughtBeside(ALL, map[], m, ID, map[src := mine], t, engine.disk, state.docs, engine.trace, e);
    assert state.docs == map[ID := Synchronized(ID, src, theirs)];
    UnseenOn(t, engine.trace, [map[src := mine], map[src := mine], engine.disk], [map[], map[], state.docs],
             theirs, src, dst, ConflictName(src, 1));
  }

  /** What a full reconciliation does about the document after its move. */
  method FollowDotted(engine: Engine, src: string, dst: string, mine: Content, theirs: Content, stated: bool)
    requires Dotted(src, dst) && mine != theirs
    requires engine.Valid() && engine.cfg == ALL && engine.plan == [] && engine.permissions == map[]
    requires engine.mod == MovedFrom(src, dst, theirs, stated)
    requires engine.disk == map[src := mine][ConflictName(src, 1) := theirs]
    requires engine.state.docs == map[ID := Synchronized(ID, src, theirs)]
    requires UnseenUntil(engine.trace, |engine.trace|, theirs, src, dst, ConflictName(src, 1))
    modifies engine, engine.state
    ensures engine.Valid() && engine.mod == old(engine.mod)
    ensures engine.disk == map[dst := mine][ConflictName(src, 1) := theirs]
    ensures engine.state.docs == map[ID := Synchronized(ID, dst, theirs)]
    ensures UnseenUntil(engine.trace, |engine.trace|, theirs, src, dst, ConflictName(src, 1))
  {
    hide IsRun, Inv, TableOK, ModuleGrows, Dotted, ConflictName, MoveFile, Put, OnlyInCopy, Listing, OnlyMoved;
    hide HiddenPath, LocalPath, ModuleOK, RemoteOf, QuietFetch, RefreshedQuietly, MovedAndRefreshed, Attended, ListedSince;
    var m := MovedFrom(src, dst, theirs, stated);
    MovedListed(src, dst, theirs, stated);
    DottedMoved(src, dst, mine, theirs, stated);
    DottedWorlds(src, dst, mine, theirs);
    var e, listed := engine.ListAll();
    e := engine.ReconcileDoc(listed[ID]);
    ghost var before, between := map[ID := Synchronized(ID, src, theirs)], map[ID := Synchronized(ID, dst, theirs)];
    UnseenOn(old(engine.trace), engine.trace, [old(engine.disk), engine.disk, engine.disk], [before, between, between],
             theirs, src, dst, ConflictName(src, 1));
  }

  /** An update leaves over a version that was never shown: a file stands where a document with an unnameable
    * copy comes to be, the document moves to a plain path, and a full reconciliation follows the move and
    * sends the file. */
  method UnseenVersionIsOverwritten(src: string, dst: string, mine: Content, theirs: Content, stated: bool)
    returns (run: seq<Event>, i: nat, mod: Module)
    requires Dotted(src, dst) && mine != theirs
    ensures IsRun(run) && i < |run| && run[i].who == Sent(ID, 1)
    ensures IsVersion(run[i].w.mod, ID, 1, theirs) && forall f :: !Shown(run, i, ID, 1, f)
    ensures CopyNotNamed(run, i, ID, 1)
    ensures ModuleOK(mod) && Last(run).mod == mod && Live(mod, ID) && CurrentContent(mod, ID) == mine
  {
    hide IsRun, Inv, ModuleOK, TableOK, ModuleGrows, Dotted, ConflictName, Shown, CopyNotNamed, UnseenUntil;
    hide ReadyToUpload, Live, CurrentContent, OutdatedFetched, NothingSent, SameButConflicts;
    hide NewFileTried, NewFileDone, IsNew, MarkedReadOnly;
    MovedFromGrows(src, dst, theirs, stated);
    var engine := FetchDotted(src, dst, mine, theirs, stated);
    ghost var s := engine.trace;
    engine.Play([OthersMake(MovedFrom(src, dst, theirs, stated))]);
    DottedWorlds(src, dst, mine, theirs);
    UnseenMore(s, engine.trace[|s|], theirs, src, dst, ConflictName(src, 1));
    FollowDotted(engine, src, dst, mine, theirs, stated);
    DottedReady(src, dst, mine, theirs, stated);
    i := |engine.trace|;
    ghost var t := engine.trace;
    var e := engine.LocalChanged(dst);
    run, mod := engine.trace, engine.mod;
    SentUnseen(t, run, src, dst, mine, theirs, stated);
  }

  lemma SentUnseen(t: seq<Event>, run: seq<Event>, src: string, dst: string, mine: Content, theirs: Content, stated: bool)
    requires IsRun(t) && IsRun(run) && Dotted(src, dst) && mine != theirs
    requires Last(t).mod == MovedFrom(src, dst, theirs, stated)
    requires UnseenUntil(t, |t|, theirs, src, dst, ConflictName(src, 1))
    requires SendsFirst(t, run, ID, 1, map[dst := mine][ConflictName(src, 1) := theirs], map[ID := Synchronized(ID, dst, theirs)])
    ensures IsVersion(run[|t|].w.mod, ID, 1, theirs) && forall f :: !Shown(run, |t|, ID, 1, f)
    ensures CopyNotNamed(run, |t|, ID, 1)
  {
    hide IsRun, Inv, ConflictName, Shown, CopyNotNamed, OnlyInCopy, Plain, Synced, IsCopyName, SendOK;
    var i, cp := |t|, ConflictName(src, 1);
    DottedWorlds(src, dst, mine, theirs);
    assert UnseenUntil(run, i + 1, theirs, src, dst, cp) by {
      forall j | 0 <= j < i ensures run[j] == t[j] {
      }
    }
    Unroll(run, i);
    assert run[i - 1] == t[i - 1];
    NotCopies(dst);
    ConflictNameIsCopy(src, 1);
    UnseenIsNotShown(run, i, theirs, src, dst, cp);
    NoUnseenOverwrite(run, i, ID, 1);
  }

  // ---- such names exist ------------------------------------------------------------

  lemma SyncedName(c: char)
    requires 'a' <= c <= 'z'
    ensures Synced("/" + [c] + ".md")
  {
    hide LocalPath, HiddenPath, IgnoredName, TrimSlashes, Split, Ext, Lower;
    var name := [c] + ".md";
    assert "/" + [c] + ".md" == "/" + name;
    assert |name| == 4 && name[0] == c && name[1..] == ".md";
    PlainName(name);
    PlainlyNamed(c);
    VisibleName(name);
    ExtensionOf(c);
    assert !DotDot("/" + name) by { assert ("/" + name)[1] == c; }
  }

  lemma VisibleName(name: string)
    requires !IgnoredName(name) && TrimSlashes("/" + name) == name && Split(name, '/') == [name]
    ensures !HiddenPath("/" + name)
  {
    hide IgnoredName, TrimSlashes, Split;
  }

  lemma PlainlyNamed(c: char)
    requires 'a' <= c <= 'z'
    ensures !IgnoredName([c] + ".md")
  {
    var name := [c] + ".md";
    assert name[..|name| - 3] == [c] && !IsDigit(c);
    assert name[0] == c && name[3] == 'd';
  }

  lemma ExtensionOf(c: char)
    ensures Lower(Ext("/" + [c] + ".md")) == ".md"
  {
    var p := "/" + [c] + ".md";
    assert p[..|p| - 1] == "/" + [c] + ".m" && p[|p| - 1] == 'd';
    assert ("/" + [c] + ".m")[..3] == "/" + [c] + ".";
    assert Ext("/" + [c] + ".") == ".";
    assert Ext("/" + [c] + ".m") == ".m" && Ext(p) == ".md";
    assert ".md"[1..] == "md" && "md"[1..] == "d" && "d"[1..] == "";
  }

  /** Files and texts of both runs. */
  lemma Examples()
    ensures Edited("/a.md", "one", "my one", "/b.md", "two", "my two", "new two")
    ensures Dotted("/..a.md", "/b.md")
  {
    hide Plain, IsCopyName, Synced;
    SyncedName('a');
    SyncedName('b');
    assert "/" + ['a'] + ".md" == "/a.md" && "/" + ['b'] + ".md" == "/b.md";
    assert |"one"| == 3 && |"my one"| == 6 && |"two"| == 3 && |"my two"| == 6 && |"new two"| == 7;
    assert "/a.md"[1] != "/b.md"[1];
    DottedName();
  }

  lemma DottedName()
    ensures Plain("/..a.md") && DotDot("/..a.md") && !IsCopyName("/..a.md")
  {
    hide LocalPath, TrimSlashes, Split;
    PlainName("..a.md");
    assert "/" + "..a.md" == "/..a.md";
    assert "/..a.md"[..4] == "/..a";
  }
}
