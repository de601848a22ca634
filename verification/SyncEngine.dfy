/** The two-way sync engine: it mirrors the module into the folder and uploads edits back.
 *
 * The methods follow internal/docsync/engine.go. Every change of the disk, the state or the module
 * is one step, and every step is added to `trace`: `Valid()` says that the trace is a run, so each
 * method that keeps it proves its own steps safe wherever a crash may cut them.
 */
module SyncEngine {
  import opened Common
  import opened Text
  import opened Files
  import opened DocModel
  import opened StateDb
  import opened Remote

  function FolderKey(p: string): string {
    if p == "" || p == "/" then "/" else Lower(TrimSuffix(p, "/"))
  }

  /** A folder of the list is known by this key. */
  predicate ByPath(fs: map<string, RemoteFolder>, key: string, f: RemoteFolder) {
    exists k :: k in fs && FolderKey(fs[k].path) == key && fs[k] == f
  }

  /** The permission of a folder of the list with this id. */
  predicate ById(fs: map<string, RemoteFolder>, id: string, permission: string) {
    exists k :: k in fs && fs[k].id == id && fs[k].permission == permission
  }

  /** Folder `k` of a list is known: by its path's key and by its id, as it or another of the list with the
    * same key or id was. */
  predicate Learned(folders: map<string, RemoteFolder>, permissions: map<string, string>,
                    fs: map<string, RemoteFolder>, k: string)
    requires k in fs
  {
    && FolderKey(fs[k].path) in folders && fs[k].id in permissions
    && ByPath(fs, FolderKey(fs[k].path), folders[FolderKey(fs[k].path)])
    && ById(fs, fs[k].id, permissions[fs[k].id])
  }

  lemma LearnOne(folders: map<string, RemoteFolder>, permissions: map<string, string>, fs: map<string, RemoteFolder>,
                 j: string, k: string)
    requires k in fs && j in fs && (j == k || Learned(folders, permissions, fs, j))
    ensures Learned(folders[FolderKey(fs[k].path) := fs[k]], permissions[fs[k].id := fs[k].permission], fs, j)
  {
    hide FolderKey;
    assert ByPath(fs, FolderKey(fs[k].path), fs[k]) && ById(fs, fs[k].id, fs[k].permission);
  }

  /** Every folder of the list is known, and nothing else has changed. */
  ghost predicate LearnedAll(folders: map<string, RemoteFolder>, permissions: map<string, string>,
                             folders': map<string, RemoteFolder>, permissions': map<string, string>,
                             fs: map<string, RemoteFolder>)
  {
    && (forall k :: k in fs ==> Learned(folders', permissions', fs, k))
    && folders.Keys <= folders'.Keys && permissions.Keys <= permissions'.Keys
    && (forall key :: key in folders' ==> (key in folders && folders'[key] == folders[key]) || ByPath(fs, key, folders'[key]))
    && (forall id :: id in permissions' ==>
          (id in permissions && permissions'[id] == permissions[id]) || ById(fs, id, permissions'[id]))
  }

  /** Only folders of the list are known, and all of them. */
  ghost predicate KnownExactly(folders: map<string, RemoteFolder>, permissions: map<string, string>, fs: map<string, RemoteFolder>) {
    && (forall k :: k in fs ==> FolderKey(fs[k].path) in folders && fs[k].id in permissions)
    && (forall key :: key in folders ==> ByPath(fs, key, folders[key]))
    && (forall id :: id in permissions ==> ById(fs, id, permissions[id]))
  }

  /** The readable folders under any of the prefixes. */
  function FoldersListed(m: Module, prefixes: seq<string>): map<string, RemoteFolder> {
    map k | k in m.folders && (exists i :: 0 <= i < |prefixes| && HasPrefix(m.folders[k].path, prefixes[i])) :: m.folders[k]
  }

  lemma FoldersListedGrow(m: Module, prefixes: seq<string>, i: nat)
    requires i < |prefixes|
    ensures FoldersListed(m, prefixes[..i + 1]) == FoldersListed(m, prefixes[..i]) + FoldersUnder(m, prefixes[i])
  {
    var ps, qs := prefixes[..i], prefixes[..i + 1];
    forall k | k in m.folders
      ensures (exists j :: 0 <= j < |qs| && HasPrefix(m.folders[k].path, qs[j]))
              <==> (exists j :: 0 <= j < |ps| && HasPrefix(m.folders[k].path, ps[j])) || HasPrefix(m.folders[k].path, prefixes[i])
    {
      if j :| 0 <= j < |qs| && HasPrefix(m.folders[k].path, qs[j]) {
        assert j < i ==> ps[j] == qs[j];
      }
      if j :| 0 <= j < |ps| && HasPrefix(m.folders[k].path, ps[j]) {
        assert qs[j] == ps[j];
      }
      assert qs[i] == prefixes[i];
    }
  }

  lemma SameFolders(m: Module, prefixes: seq<string>, prefix: string)
    ensures forall k :: k in FoldersListed(m, prefixes) && k in FoldersUnder(m, prefix) ==>
                          FoldersListed(m, prefixes)[k] == FoldersUnder(m, prefix)[k]
  {
  }

  lemma KnowsNothing(m: Module)
    ensures KnownExactly(map[], map[], FoldersListed(m, []))
    ensures forall prefixes: seq<string> :: prefixes[..0] == []
  {
  }

  /** What is learned list after list is what is learned from all of them. */
  lemma LearnedMore(folders: map<string, RemoteFolder>, permissions: map<string, string>,
                    folders': map<string, RemoteFolder>, permissions': map<string, string>,
                    all: map<string, RemoteFolder>, fs: map<string, RemoteFolder>)
    requires KnownExactly(folders, permissions, all) && LearnedAll(folders, permissions, folders', permissions', fs)
    requires forall k :: k in all && k in fs ==> all[k] == fs[k]
    ensures KnownExactly(folders', permissions', all + fs)
  {
    hide FolderKey, ByPath, ById;
    forall key | key in folders' ensures ByPath(all + fs, key, folders'[key]) {
      ByPathOfBoth(all, fs, key, folders'[key]);
    }
    forall id | id in permissions' ensures ById(all + fs, id, permissions'[id]) {
      ByIdOfBoth(all, fs, id, permissions'[id]);
    }
    forall k | k in all + fs ensures FolderKey((all + fs)[k].path) in folders' && (all + fs)[k].id in permissions' {
      if k in fs {
        assert Learned(folders', permissions', fs, k);
      }
    }
  }

  lemma ByPathOfBoth(all: map<string, RemoteFolder>, fs: map<string, RemoteFolder>, key: string, f: RemoteFolder)
    requires forall k :: k in all && k in fs ==> all[k] == fs[k]
    ensures ByPath(all, key, f) || ByPath(fs, key, f) ==> ByPath(all + fs, key, f)
  {
    hide FolderKey;
    if k :| k in all && FolderKey(all[k].path) == key && all[k] == f {
      assert (all + fs)[k] == f;
    } else if k :| k in fs && FolderKey(fs[k].path) == key && fs[k] == f {
      assert (all + fs)[k] == f;
    }
  }

  lemma ByIdOfBoth(all: map<string, RemoteFolder>, fs: map<string, RemoteFolder>, id: string, permission: string)
    requires forall k :: k in all && k in fs ==> all[k] == fs[k]
    ensures ById(all, id, permission) || ById(fs, id, permission) ==> ById(all + fs, id, permission)
  {
    if k :| k in all && all[k].id == id && all[k].permission == permission {
      assert (all + fs)[k] == all[k];
    } else if k :| k in fs && fs[k].id == id && fs[k].permission == permission {
      assert (all + fs)[k] == fs[k];
    }
  }

  /** path.Split: the directory, with its slash, and the name. */
  function SplitName(p: string): (r: (string, string))
    ensures r.0 + r.1 == p
  {
    if p == "" || p[|p| - 1] == '/' then (p, "")
    else
      var r := SplitName(p[..|p| - 1]);
      (r.0, r.1 + [p[|p| - 1]])
  }

  /** The folder of each of these documents is known. */
  predicate FoldersKnown(folders: map<string, RemoteFolder>, ds: map<Id, RemoteDoc>) {
    forall id :: id in ds && ds[id].folderId != "" && ds[id].path != "" ==>
                   FolderKey(TrimSuffix(SplitName(ds[id].path).0, "/")) in folders
  }

  lemma FoldersKnownMore(folders: map<string, RemoteFolder>, folders': map<string, RemoteFolder>,
                         listed: map<Id, RemoteDoc>, ds: map<Id, RemoteDoc>)
    requires FoldersKnown(folders, listed) && FoldersKnown(folders', ds) && folders.Keys <= folders'.Keys
    ensures FoldersKnown(folders', listed + ds)
  {
    hide FolderKey, TrimSuffix, SplitName;
  }

  /** A document of which the engine's record, its file and the module are to agree. */
  function FreshRecord(m: Module, permissions: map<string, string>, id: Id): DocRecord
    requires ModuleOK(m) && id in m.docs
  {
    NextRecord(RemoteOf(m, id), CurrentContent(m, id), permissions)
  }

  predicate ReadOnly(permissions: map<string, string>, folderId: string) {
    folderId in permissions && permissions[folderId] == "read"
  }

  function MoveFile(disk: map<string, Content>, from: string, to: string): map<string, Content> {
    if from in disk then (disk - {from})[to := disk[from]] else disk
  }

  /** A live notification: what it says of a document, with version 0 or path "" when it does not
    * say. */
  datatype Notification = AccessChanged | Unlocked(id: Id) | RemovedDoc(id: Id, version: nat)
    | ChangedDoc(id: Id, path: string, version: nat) | Unreadable

  /** What the online loop wakes up for. */
  datatype Input = Note(n: Notification) | Due(file: string) | Reconnected | CatchUpTick | FullTick

  /** The module was asked to create a document from the file in the folder, under the id reserved for the
    * file if there is one, and did as it answers. */
  ghost predicate Asked(m: Module, pending: map<string, Id>, m': Module, f: string, folderId: string, content: Content)
    requires ModuleOK(m)
  {
    exists id :: (f in pending ==> id == pending[f]) && m' == CreateAnswer(m, id, folderId, SplitName(f).1, content, 0, None).2
  }

  /** The refusals only the person can do something about. */
  predicate IsRefusal(code: Code) {
    code.FrontmatterInvalid? || code.PermissionDenied? || code.ContentTooLarge? || code.FileNameInvalid?
  }

  /** A creation the module has decided: made, refused for its name, or refused for what only the person can
    * change. */
  predicate Final(answer: Err) {
    answer.Fine? || (answer.Refused? && (answer.code.AlreadyExists? || IsRefusal(answer.code)))
  }

  /** The base of a record about to be stored is one the person was shown, or its copy could not be named. */
  ghost predicate BaseGiven(w: World, r: DocRecord) {
    (r.id, r.version) in w.mod.held &&
    var c := w.mod.held[(r.id, r.version)];
    if r.conflict == "" then
      || Seen(w, r.id, r.version) || (r.id, r.version) in w.h.unnamed
      || (exists f :: (f, c) in w.h.held && (f == r.path || IsFileOf(r.path, f)))
    else LocalPath(r.conflict).Some? && (LocalPath(r.conflict).value, c) in w.h.held
  }

  lemma BaseKnownAfterPut(w: World, r: DocRecord)
    requires Inv(w) && BaseGiven(w, r)
    ensures BaseKnown(Next(w.(docs := Put(w.docs, r)), Daemon), r)
  {
    hide Inv, Observed, LocalPath;
    var n := Next(w.(docs := Put(w.docs, r)), Daemon);
    assert n.docs[r.id] == r && r in n.h.past;
    if r.conflict == "" {
      if Seen(w, r.id, r.version) {
        SeenGrows(w, n, r.id, r.version);
      } else if (r.id, r.version) !in w.h.unnamed {
        var f :| (f, w.mod.held[(r.id, r.version)]) in w.h.held && (f == r.path || IsFileOf(r.path, f));
        assert RecordShows(n.h, r.id, r.version, f, r);
        assert SeenIn(n, r.id, r.version, f);
      }
    }
  }

  lemma PutTakesPath(docs: map<Id, DocRecord>, r: DocRecord)
    ensures forall id :: id in docs && id !in Put(docs, r) ==> PathTaken(Put(docs, r), docs[id].path)
  {
    assert Put(docs, r)[r.id] == r;
  }

  lemma PutStep(w: World, r: DocRecord)
    requires Inv(w) && TableOK(w.docs) && TrueRecord(w.mod, r) && BaseGiven(w, r) && ModuleGrows(w.mod, w.mod)
    ensures var n := Next(w.(docs := Put(w.docs, r)), Daemon);
            Inv(n) && StepOK(w, Daemon, n) && TableOK(n.docs)
  {
    hide BaseKnown, BaseGiven, Inv, StepOK, Gone;
    BaseKnownAfterPut(w, r);
    PutKeepsUnique(w.docs, r);
    PutTakesPath(w.docs, r);
    TableStep(w, Put(w.docs, r));
  }

  /** A record is forgotten when its document is gone. */
  lemma DropStep(w: World, id: Id)
    requires Inv(w) && ModuleGrows(w.mod, w.mod) && (id in w.docs ==> Gone(w.h.heard, id))
    ensures var n := Next(w.(docs := w.docs - {id}), Daemon);
            Inv(n) && StepOK(w, Daemon, n) && TableOK(n.docs)
  {
    TableStep(w, w.docs - {id});
  }

  /** Writing a version of the module over what the module held. */
  lemma WriteStep(w: World, f: string, c: Content, id: Id, n: nat, source: (Id, nat))
    requires Inv(w) && ModuleGrows(w.mod, w.mod)
    requires f in w.disk && !IsCopyName(f) ==> HeldByModule(w, f, id, n)
    requires source in w.mod.held && w.mod.held[source] == c
    ensures var v := Next(w.(disk := w.disk[f := c]), Daemon); Inv(v) && StepOK(w, Daemon, v)
  {
    hide IsCopyName, Inv, StepOK, ModuleGrows;
    var v := w.(disk := w.disk[f := c]);
    assert KeepsWork(w, v) by {
      forall g | g in v.disk ensures Explained(w, v, g) {
        assert g == f ==> v.mod.held[source] == v.disk[g];
      }
    }
    DiskStep(w, v.disk);
  }

  lemma RemoveStep(w: World, f: string, id: Id, n: nat)
    requires Inv(w) && ModuleGrows(w.mod, w.mod)
    requires f in w.disk ==> HeldByModule(w, f, id, n) && Gone(w.h.heard, id)
    ensures var v := Next(w.(disk := w.disk - {f}), Daemon); Inv(v) && StepOK(w, Daemon, v)
  {
    hide IsCopyName, Inv, StepOK, ModuleGrows, Gone, LocalPath;
    assert f in w.disk ==> LeftFor(w, w.disk - {f}, f, id);
    assert KeepsWork(w, w.(disk := w.disk - {f}));
    DiskStep(w, w.disk - {f});
  }

  /** A file may go where `RenameFile` takes it: under `.sin-acceso` when its document is gone, or to where its
    * document went. */
  predicate MayGo(w: World, from: string, to: string, id: Id, path: string) {
    && id in w.docs && IsFileOf(w.docs[id].path, from)
    && (|| (Gone(w.h.heard, id) && InNoAccess(to) && (IsCopyName(to) ==> IsCopyName(from)))
        || ((id, path) in w.mod.placed && IsFileOf(path, to)))
  }

  lemma RenameStep(w: World, from: string, to: string, id: Id, path: string)
    requires Inv(w) && ModuleGrows(w.mod, w.mod)
    requires from in w.disk && to !in w.disk && MayGo(w, from, to, id, path)
    ensures var v := Next(w.(disk := MoveFile(w.disk, from, to)), Daemon); Inv(v) && StepOK(w, Daemon, v)
  {
    hide IsCopyName, Inv, StepOK, ModuleGrows, InNoAccess, LocalPath, Gone;
    var v := w.(disk := MoveFile(w.disk, from, to));
    assert WentTo(w, from, to, id, path) || (InNoAccess(to) && Gone(w.h.heard, id));
    assert MovedTo(w, v, from, to);
    assert LeftFor(w, v.disk, from, id);
    assert KeepsWork(w, v) by {
      forall f | f in w.disk && !IsCopyName(f) ensures Kept(w, v, f) {
        assert f != from ==> f in v.disk && v.disk[f] == w.disk[f];
      }
      forall g | g in v.disk ensures Explained(w, v, g) {
        assert g != to ==> g in w.disk && w.disk[g] == v.disk[g];
      }
    }
    DiskStep(w, v.disk);
  }

  /** What is recorded of a document the module created from the file f. */
  function CreatedRecord(d: RemoteDoc, f: string, folderId: string, content: Content): DocRecord {
    DocRecord(d.id, if d.path == "" then f else d.path, folderId, d.version, Checksum(content), false, "")
  }

  /** The record's path once a move was followed. */
  function FollowedDocs(docs: map<Id, DocRecord>, rec: Option<DocRecord>, path: string): map<Id, DocRecord> {
    if rec.Some? && rec.value.path != path then Put(docs, rec.value.(path := path)) else docs
  }

  /** A move from one path to another can be followed: both are plain, and not both have a file. */
  predicate Movable(disk: map<string, Content>, from: string, to: string) {
    LocalPath(from).Some? && LocalPath(to).Some?
    && !(LocalPath(from).value in disk && LocalPath(to).value in disk)
  }

  /** What the module listed under the prefix at an event of the run. */
  ghost predicate ListedAt(t: seq<Event>, at: nat, prefix: string, ds: map<Id, RemoteDoc>)
    requires at < |t|
  {
    t[at].who == ListedUnder(prefix) && ModuleOK(t[at].w.mod) && ds == ListAnswer(t[at].w.mod, prefix)
  }

  /** Each document of an answer was at the path the answer says. */
  predicate AllPlaced(m: Module, ds: map<Id, RemoteDoc>) {
    forall id :: id in ds ==> (ds[id].id, ds[id].path) in m.placed
  }

  lemma StillPlaced(m: Module, n: Module, ds: map<Id, RemoteDoc>)
    requires AllPlaced(m, ds) && m.placed <= n.placed
    ensures AllPlaced(n, ds)
    ensures forall id :: id in ds ==> (ds[id].id, ds[id].path) in n.placed
    ensures forall more :: AllPlaced(n, more) ==> AllPlaced(n, ds + more)
  {
  }

  predicate Blocked(disk: map<string, Content>, rec: Option<DocRecord>, path: string) {
    rec.Some? && rec.value.path != path && !Movable(disk, rec.value.path, path)
  }

  lemma NoSteps(t: seq<Event>, disk: map<string, Content>, docs: map<Id, DocRecord>)
    ensures Passes(t, t, [disk, disk], [docs, docs])
  {
  }

  lemma OneStep(t: seq<Event>, e: Event, disks: seq<map<string, Content>>, tables: seq<map<Id, DocRecord>>)
    requires !e.who.Person? && !e.who.Others? && !e.who.Trims? && !e.who.Filed?
    requires e.w.disk in disks && e.w.docs in tables
    ensures Passes(t, t + [e], disks, tables)
  {
  }

  lemma PassesOn(t: seq<Event>, u: seq<Event>, v: seq<Event>, a: map<string, Content>, b: map<string, Content>,
                 c: map<string, Content>, x: map<Id, DocRecord>, y: map<Id, DocRecord>, z: map<Id, DocRecord>)
    requires Passes(t, u, [a, b], [x, y]) && Passes(u, v, [b, c], [y, z])
    ensures Passes(t, v, [a, b, c], [x, y, z])
  {
    forall i | |t| <= i < |v|
      ensures !v[i].who.Person? && !v[i].who.Others? && !v[i].who.Trims? && !v[i].who.Filed?
      ensures v[i].w.disk in [a, b, c] && v[i].w.docs in [x, y, z]
    {
      if i < |u| {
        assert v[i] == u[i];
      }
    }
  }

  lemma PassesMore(t: seq<Event>, u: seq<Event>, v: seq<Event>, disks: seq<map<string, Content>>,
                   tables: seq<map<Id, DocRecord>>, disks': seq<map<string, Content>>, tables': seq<map<Id, DocRecord>>)
    requires Passes(t, u, disks, tables) && Passes(u, v, disks', tables')
    requires (forall d :: d in disks' ==> d in disks) && (forall x :: x in tables' ==> x in tables)
    ensures Passes(t, v, disks, tables)
  {
    forall i | |t| <= i < |v|
      ensures !v[i].who.Person? && !v[i].who.Others? && !v[i].who.Trims? && !v[i].who.Filed?
      ensures v[i].w.disk in disks && v[i].w.docs in tables
    {
      if i < |u| {
        assert v[i] == u[i];
      }
    }
  }

  lemma PassesOne(t: seq<Event>, u: seq<Event>, e: Event, d: map<string, Content>, x: map<Id, DocRecord>)
    requires Passes(t, u, [d], [x]) && e.w.disk == d && e.w.docs == x
    requires !e.who.Person? && !e.who.Others? && !e.who.Trims? && !e.who.Filed?
    ensures Passes(t, u + [e], [d], [x])
  {
    OneStep(u, e, [d], [x]);
    PassesMore(t, u, u + [e], [d], [x], [d], [x]);
  }

  /** The first event of a run since `t` is an update that leaves, in a world with this folder and these
    * records. */
  ghost predicate SendsFirst(t: seq<Event>, u: seq<Event>, id: Id, base: nat, disk: map<string, Content>,
                             docs: map<Id, DocRecord>)
  {
    t < u && u[|t|].who == Sent(id, base) && u[|t|].w.disk == disk && u[|t|].w.docs == docs
  }

  /** From one run to a longer one there were only the daemon's own steps, through these contents of the
    * folder and these records. */
  ghost predicate Passes(t: seq<Event>, u: seq<Event>, disks: seq<map<string, Content>>, tables: seq<map<Id, DocRecord>>) {
    t <= u && forall i :: |t| <= i < |u| ==>
                            !u[i].who.Person? && !u[i].who.Others? && !u[i].who.Trims? && !u[i].who.Filed?
                            && u[i].w.disk in disks && u[i].w.docs in tables
  }

  /** Meanwhile the daemon did nothing but ask. */
  ghost predicate Idle(t: seq<Event>, u: seq<Event>) {
    t <= u && forall i :: |t| <= i < |u| ==>
                            u[i].who.Person? || u[i].who.Others? || u[i].who.Trims? || IsHearing(u[i].who)
  }

  lemma IdleAtFirst(t: seq<Event>)
    ensures Idle(t, t)
  {
  }

  lemma IdleOne(t: seq<Event>, e: Event)
    requires e.who.Person? || e.who.Others? || e.who.Trims? || IsHearing(e.who)
    ensures Idle(t, t + [e])
  {
  }

  lemma IdleOn(t: seq<Event>, u: seq<Event>, v: seq<Event>)
    requires Idle(t, u) && Idle(u, v)
    ensures Idle(t, v)
  {
    forall i | |t| <= i < |v| ensures v[i].who.Person? || v[i].who.Others? || v[i].who.Trims? || IsHearing(v[i].who) {
      if i < |u| {
        assert v[i] == u[i];
      }
    }
  }

  // ---- what becomes of requests ---------------------------------------------------

  function TurnAt(plan: seq<Turn>, k: nat): Turn {
    if k < |plan| then plan[k] else QUIET
  }

  /** The request is lost on its way, or its reply is. */
  predicate IsLost(fault: Fault) {
    fault.RequestLost? || fault.ReplyLost?
  }

  /** One of the requests from a up to b is lost. */
  ghost predicate LostIn(plan: seq<Turn>, a: nat, b: nat) {
    exists k :: a <= k < b && IsLost(TurnAt(plan, k).fault)
  }

  /** All requests from a up to b are answered, none with a refusal of the module's own. */
  ghost predicate AllAnswered(plan: seq<Turn>, a: nat, b: nat) {
    forall k :: a <= k < b ==> TurnAt(plan, k).fault.NoFault?
  }

  lemma NoneLost(plan: seq<Turn>, a: nat)
    ensures !LostIn(plan, a, a)
  {
  }

  lemma OneLost(plan: seq<Turn>, a: nat)
    ensures LostIn(plan, a, a + 1) <==> IsLost(TurnAt(plan, a).fault)
  {
  }

  lemma LostOn(plan: seq<Turn>, a: nat, b: nat, c: nat)
    requires a <= b <= c
    ensures LostIn(plan, a, c) <==> LostIn(plan, a, b) || LostIn(plan, b, c)
  {
    if k :| a <= k < c && IsLost(TurnAt(plan, k).fault) {
      assert k < b || b <= k;
    }
  }

  lemma AnsweredOn(plan: seq<Turn>, a: nat, b: nat, c: nat)
    requires a <= b <= c
    ensures AllAnswered(plan, a, c) <==> AllAnswered(plan, a, b) && AllAnswered(plan, b, c)
  {
  }

  lemma QuietAnswers(plan: seq<Turn>, a: nat)
    ensures |plan| <= a ==> forall b :: AllAnswered(plan, a, b) && !LostIn(plan, a, b)
  {
  }

  lemma AnsweredLast(plan: seq<Turn>, a: nat)
    ensures forall b :: a < b && AllAnswered(plan, a, b) ==> TurnAt(plan, b - 1).fault.NoFault?
  {
  }

  lemma OneAnswered(plan: seq<Turn>, a: nat)
    ensures AllAnswered(plan, a, a + 1) <==> TurnAt(plan, a).fault.NoFault?
  {
  }

  lemma AnsweredLosesNone(plan: seq<Turn>, a: nat)
    ensures forall b :: AllAnswered(plan, a, b) ==> !LostIn(plan, a, b)
  {
  }

  lemma QuietLosesNoneAfter(plan: seq<Turn>, a: nat)
    ensures |plan| <= a ==> forall b :: !LostIn(plan, a, b)
  {
  }

  /** A refusal for the module's own reasons is never that it does not find the document: that it says when
    * it does not. */
  function Reason(code: Code): (r: Code)
    ensures !r.DocumentNotFound?
  {
    if code.DocumentNotFound? then OtherCode else code
  }

  /** The last event is the end of a full reconciliation. */
  predicate Finished(t: seq<Event>, u: seq<Event>) {
    |t| < |u| && u[|u| - 1].who == Reconciled
  }

  lemma FoldersSurveyed(plan: seq<Turn>, a: nat, b: nat, n: nat)
    requires a < b <= a + n
    ensures IsLost(TurnAt(plan, b - 1).fault) ==> !Surveyed(plan, a, b - a, n)
    ensures TurnAt(plan, b - 1).fault.Refuses? && !RefusesFolders(TurnAt(plan, b - 1).fault.code) ==> !Surveyed(plan, a, b - a, n)
  {
    assert a + (b - a) - 1 == b - 1;
  }

  lemma ListsSurveyed(plan: seq<Turn>, a: nat, calls: nat, b: nat, n: nat)
    requires 1 <= calls <= n && a + calls < b <= a + calls + n
    requires forall k :: a <= k < a + calls - 1 ==> TurnAt(plan, k).fault.NoFault?
    requires var last := TurnAt(plan, a + calls - 1).fault; last.NoFault? || (last.Refuses? && RefusesFolders(last.code))
    ensures b == a + calls + n && (forall k :: a + calls <= k < b ==> TurnAt(plan, k).fault.NoFault?) ==>
              Surveyed(plan, a, calls, n)
    ensures !(forall k :: a + calls <= k < b ==> TurnAt(plan, k).fault.NoFault?) ==> !Surveyed(plan, a, calls, n)
  {
  }

  /** The module lists folders to admins only. */
  predicate RefusesFolders(code: Code) {
    code.PermissionDenied? || code.CallerNotAuthorized?
  }

  /** All n listings from request a on are answered, after `calls` folder requests that are answered too, or
    * of which the last is refused because the module lists folders to admins only. */
  ghost predicate Surveyed(plan: seq<Turn>, a: nat, calls: nat, n: nat) {
    && 1 <= calls <= n
    && (forall k :: a <= k < a + calls - 1 ==> TurnAt(plan, k).fault.NoFault?)
    && (var last := TurnAt(plan, a + calls - 1).fault;
        last.NoFault? || (last.Refuses? && RefusesFolders(last.code)))
    && (forall k :: a + calls <= k < a + calls + n ==> TurnAt(plan, k).fault.NoFault?)
  }

  /** What was listed is, for each prefix, all the module listed under it at some event since, and nothing else. */
  ghost predicate ListedSince(prefixes: seq<string>, t: seq<Event>, u: seq<Event>, listed: map<Id, RemoteDoc>) {
    && (forall i :: 0 <= i < |prefixes| ==> PrefixListed(t, u, prefixes[i], listed))
    && (forall id :: id in listed ==> exists at :: |t| <= at < |u| && ListedFrom(u, at, id, listed))
  }

  ghost predicate PrefixListed(t: seq<Event>, u: seq<Event>, prefix: string, listed: map<Id, RemoteDoc>) {
    exists at :: |t| <= at < |u| && ListsInto(u, at, prefix, listed)
  }

  ghost predicate ListsInto(u: seq<Event>, at: nat, prefix: string, listed: map<Id, RemoteDoc>)
    requires at < |u|
  {
    u[at].who == ListedUnder(prefix) && Under(u[at].w.mod, prefix) <= listed.Keys
  }

  ghost predicate ListedFrom(u: seq<Event>, at: nat, id: Id, listed: map<Id, RemoteDoc>)
    requires at < |u| && id in listed
  {
    && u[at].who.ListedUnder? && ModuleOK(u[at].w.mod) && Live(u[at].w.mod, id) && listed[id] == RemoteOf(u[at].w.mod, id)
  }

  /** The document is live under the prefix at every event since. */
  ghost predicate LiveUnder(t: seq<Event>, u: seq<Event>, prefix: string, id: Id) {
    forall at :: |t| <= at < |u| ==> id in Under(u[at].w.mod, prefix)
  }

  /** A document that stays live under a prefix while it is listed is listed. */
  lemma LiveIsListed(prefixes: seq<string>, t: seq<Event>, u: seq<Event>, listed: map<Id, RemoteDoc>, i: nat, id: Id)
    requires ListedSince(prefixes, t, u, listed) && i < |prefixes| && LiveUnder(t, u, prefixes[i], id)
    ensures id in listed
  {
    hide Under;
    assert PrefixListed(t, u, prefixes[i], listed);
    var at :| |t| <= at < |u| && ListsInto(u, at, prefixes[i], listed);
  }

  /** What the listing in hand has listed is in `ids`. */
  predicate ListedWithin(k: Heard, prefixes: seq<string>, ids: set<Id>) {
    forall i :: 0 <= i < |prefixes| ==> prefixes[i] in k.listed && k.listed[prefixes[i]] <= ids
  }

  lemma NotWithin(k: Heard, ids: set<Id>, id: Id)
    requires ListedWithin(k, Prefixes(k.cfg), ids) && id !in ids
    ensures Unlisted(k, id)
  {
  }

  lemma NothingListed(prefixes: seq<string>, t: seq<Event>, u: seq<Event>)
    ensures ListedSince(prefixes[..0], t, u, map[])
  {
  }

  lemma NothingSelected(m: Module, prefixes: seq<string>, k: Heard, folders: map<string, RemoteFolder>, none: map<Id, RemoteDoc>)
    requires ModuleOK(m) && none == map[]
    ensures Listing(m, prefixes[..0]) == none && AllPlaced(m, none)
    ensures ListedWithin(k, prefixes[..0], none.Keys) && FoldersKnown(folders, none)
  {
    hide ModuleOK;
  }

  /** One more prefix is listed. */
  lemma WithinMore(k: Heard, prefixes: seq<string>, i: nat, ids: set<Id>, more: set<Id>)
    requires i < |prefixes| && ListedWithin(k, prefixes[..i], ids)
    ensures ListedWithin(k.(listed := k.listed[prefixes[i] := more]), prefixes[..i + 1], ids + more)
  {
    var qs := prefixes[..i + 1];
    forall n | 0 <= n < |qs| && qs[n] != prefixes[i] ensures qs[n] in k.listed && k.listed[qs[n]] <= ids {
      assert prefixes[..i][n] == qs[n];
    }
  }

  lemma ListMore(prefixes: seq<string>, t: seq<Event>, u: seq<Event>, v: seq<Event>, listed: map<Id, RemoteDoc>,
                 ds: map<Id, RemoteDoc>, i: nat, at: nat)
    requires i < |prefixes| && t <= u <= v && |u| <= at < |v|
    requires ListedSince(prefixes[..i], t, u, listed) && ListedAt(v, at, prefixes[i], ds)
    ensures ListedSince(prefixes[..i + 1], t, v, listed + ds)
  {
    hide ListsInto, ListedFrom, ListedAt;
    var qs, all := prefixes[..i + 1], listed + ds;
    forall n | 0 <= n < |qs| ensures PrefixListed(t, v, qs[n], all) {
      if n < i {
        assert prefixes[..i][n] == qs[n];
        assert PrefixListed(t, u, qs[n], listed);
        var k :| |t| <= k < |u| && ListsInto(u, k, qs[n], listed);
        StillListsInto(u, v, k, qs[n], listed, ds);
      } else {
        NowListed(v, at, prefixes[i], listed, ds);
      }
    }
    forall id | id in all ensures exists k :: |t| <= k < |v| && ListedFrom(v, k, id, all) {
      if id in ds {
        NowListed(v, at, prefixes[i], listed, ds);
      } else {
        var k :| |t| <= k < |u| && ListedFrom(u, k, id, listed);
        StillListedFrom(u, v, k, id, listed, ds);
      }
    }
  }

  lemma ListedSinceStays(prefixes: seq<string>, s: seq<Event>, t: seq<Event>, u: seq<Event>, v: seq<Event>,
                         listed: map<Id, RemoteDoc>)
    requires s <= t && u <= v && ListedSince(prefixes, t, u, listed)
    ensures ListedSince(prefixes, s, v, listed)
  {
    hide ListsInto, ListedFrom;
    forall n | 0 <= n < |prefixes| ensures PrefixListed(s, v, prefixes[n], listed) {
      assert PrefixListed(t, u, prefixes[n], listed);
      var k :| |t| <= k < |u| && ListsInto(u, k, prefixes[n], listed);
      StillListsInto(u, v, k, prefixes[n], listed, map[]);
      assert listed + map[] == listed;
    }
    forall id | id in listed ensures exists k :: |s| <= k < |v| && ListedFrom(v, k, id, listed) {
      var k :| |t| <= k < |u| && ListedFrom(u, k, id, listed);
      StillListedFrom(u, v, k, id, listed, map[]);
      assert listed + map[] == listed;
    }
  }

  lemma NowListed(v: seq<Event>, at: nat, prefix: string, listed: map<Id, RemoteDoc>, ds: map<Id, RemoteDoc>)
    requires at < |v| && ListedAt(v, at, prefix, ds)
    ensures ListsInto(v, at, prefix, listed + ds)
    ensures forall id :: id in ds ==> ListedFrom(v, at, id, listed + ds)
  {
    hide Under;
    ListKeys(v[at].w.mod, prefix);
  }

  lemma StillListsInto(u: seq<Event>, v: seq<Event>, k: nat, prefix: string, listed: map<Id, RemoteDoc>, ds: map<Id, RemoteDoc>)
    requires u <= v && k < |u| && ListsInto(u, k, prefix, listed)
    ensures ListsInto(v, k, prefix, listed + ds)
  {
    hide Under;
    assert v[k] == u[k];
  }

  lemma StillListedFrom(u: seq<Event>, v: seq<Event>, k: nat, id: Id, listed: map<Id, RemoteDoc>, ds: map<Id, RemoteDoc>)
    requires u <= v && k < |u| && id in listed && id !in ds && ListedFrom(u, k, id, listed)
    ensures ListedFrom(v, k, id, listed + ds)
  {
    assert v[k] == u[k];
  }

  lemma ListKeys(m: Module, prefix: string)
    requires ModuleOK(m)
    ensures ListAnswer(m, prefix).Keys == Under(m, prefix)
    ensures forall id :: id in ListAnswer(m, prefix) ==> Live(m, id) && ListAnswer(m, prefix)[id] == RemoteOf(m, id)
  {
    hide ModuleOK, RemoteOf;
  }

  lemma ListPlaced(m: Module, prefix: string)
    requires ModuleOK(m)
    ensures AllPlaced(m, ListAnswer(m, prefix)) && AllPlaced(m, map[])
  {
  }

  // ---- what a quiet fetch does ---------------------------------------------------

  /** A document the module answers with, at a plain path in scope, that a move made in the module
    * can be followed to. */
  predicate Fetchable(cfg: Config, disk: map<string, Content>, d: RemoteDoc, rec: Option<DocRecord>) {
    && !d.deleted && InScope(cfg, d.path) && Plain(d.path)
    && (rec.Some? && rec.value.path != d.path ==>
          Plain(rec.value.path) && !(rec.value.path in disk && d.path in disk))
  }

  function Followed(disk: map<string, Content>, rec: Option<DocRecord>, path: string): map<string, Content> {
    if rec.Some? && rec.value.path != path then MoveFile(disk, rec.value.path, path) else disk
  }

  /** The file of a path went under `.sin-acceso`, to a name that was free; nothing else changed. */
  ghost predicate MovedAside(before: map<string, Content>, after: map<string, Content>, path: string) {
    match LocalPath(path)
    case None => after == before
    case Some(f) =>
      if f in before then exists dest :: InNoAccess(dest) && dest !in before && after == MoveFile(before, f, dest)
      else after == before
  }

  /** A deletion of version `version`, 0 if unknown, was followed: a record already past it is left alone;
    * any other goes, with its unchanged file, or with its changed one moved aside. */
  ghost predicate DeletionFollowed(disk: map<string, Content>, docs: map<Id, DocRecord>, disk': map<string, Content>,
                                   docs': map<Id, DocRecord>, id: Id, version: nat)
  {
    if id !in docs || (version > 0 && docs[id].version > version) then disk' == disk && docs' == docs
    else
      && docs' == docs - {id}
      && match LocalPath(docs[id].path)
         case None => disk' == disk
         case Some(f) =>
           if f in disk && Checksum(disk[f]) == docs[id].checksum then disk' == disk - {f}
           else MovedAside(disk, disk', docs[id].path)
  }

  /** A file equal to what the document's record says. */
  predicate Unedited(disk: map<string, Content>, docs: map<Id, DocRecord>, id: Id, f: string) {
    id in docs && f in disk && Checksum(disk[f]) == docs[id].checksum
  }

  /** The file holds something the module did not put there. */
  predicate HasLocalChanges(disk: map<string, Content>, path: string, rec: Option<DocRecord>) {
    path in disk && (rec.None? || Checksum(disk[path]) != rec.value.checksum)
  }

  /** The disk after a version was put in place: the file becomes it, or, when it has changes of its
    * own, stays as it is beside a conflict copy. */
  function PlacedDisk(disk: map<string, Content>, local: string, v: nat, c: Content, rec: Option<DocRecord>)
    : map<string, Content>
  {
    if HasLocalChanges(disk, local, rec) && disk[local] != c then disk[ConflictName(local, v) := c]
    else disk[local := c]
  }

  function PlacedRecord(disk: map<string, Content>, local: string, next: DocRecord, c: Content,
                        rec: Option<DocRecord>): DocRecord
  {
    if HasLocalChanges(disk, local, rec) && disk[local] != c
    then next.(conflict := TrackedCopy(local, next.version)) else next
  }

  function NextRecord(d: RemoteDoc, c: Content, permissions: map<string, string>): DocRecord {
    DocRecord(d.id, d.path, d.folderId, d.version, Checksum(c), ReadOnly(permissions, d.folderId), "")
  }

  /** The disk and the record after a fetch that follows a move first. */
  function FetchedDisk(disk: map<string, Content>, d: RemoteDoc, c: Content, rec: Option<DocRecord>)
    : map<string, Content>
  {
    PlacedDisk(Followed(disk, rec, d.path), d.path, d.version, c, rec)
  }

  function FetchedRecord(disk: map<string, Content>, d: RemoteDoc, c: Content, permissions: map<string, string>,
                         rec: Option<DocRecord>): DocRecord
  {
    PlacedRecord(Followed(disk, rec, d.path), d.path, NextRecord(d, c, permissions), c, rec)
  }

  /** What a fetch of document d leaves, and what a crash on the way can leave. */
  ghost predicate Fetched(disk: map<string, Content>, docs: map<Id, DocRecord>, t: seq<Event>,
                          disk': map<string, Content>, docs': map<Id, DocRecord>, u: seq<Event>,
                          d: RemoteDoc, c: Content, permissions: map<string, string>, rec: Option<DocRecord>)
  {
    && disk' == FetchedDisk(disk, d, c, rec)
    && docs' == Put(docs, FetchedRecord(disk, d, c, permissions, rec))
    && Passes(t, u, [disk, Followed(disk, rec, d.path), disk'], [docs, FollowedDocs(docs, rec, d.path), docs'])
  }

  /** The document's version is in place, at whatever file its path names. */
  ghost predicate PlacedAs(disk: map<string, Content>, docs: map<Id, DocRecord>, d: RemoteDoc, c: Content,
                           permissions: map<string, string>, rec: Option<DocRecord>,
                           disk': map<string, Content>, docs': map<Id, DocRecord>)
    requires LocalPath(d.path).Some? && (rec.Some? && rec.value.path != d.path ==> LocalPath(rec.value.path).Some?)
  {
    var f := LocalPath(d.path).value;
    var mid := if rec.Some? && rec.value.path != d.path then MoveFile(disk, LocalPath(rec.value.path).value, f) else disk;
    && disk' == PlacedDisk(mid, f, d.version, c, rec)
    && docs' == Put(docs, PlacedRecord(mid, f, NextRecord(d, c, permissions), c, rec))
  }

  /** What was done with a live document in scope that no file is in the way of. */
  ghost predicate PlacedSomewhere(disk: map<string, Content>, docs: map<Id, DocRecord>, d: RemoteDoc, c: Content,
                                  permissions: map<string, string>, rec: Option<DocRecord>,
                                  disk': map<string, Content>, docs': map<Id, DocRecord>, e: Err)
    requires !Blocked(disk, rec, d.path)
  {
    e.Fine? && if LocalPath(d.path).None? then disk' == disk && docs' == docs
               else PlacedAs(disk, docs, d, c, permissions, rec, disk', docs')
  }

  /** What was done with the module's answer about document d. */
  ghost predicate FollowedAs(cfg: Config, permissions: map<string, string>, d: RemoteDoc, c: Content,
                             rec: Option<DocRecord>, disk: map<string, Content>, docs: map<Id, DocRecord>, t: seq<Event>,
                             disk': map<string, Content>, docs': map<Id, DocRecord>, u: seq<Event>, e: Err)
  {
    && (Fetchable(cfg, disk, d, rec) ==> e.Fine? && Fetched(disk, docs, t, disk', docs', u, d, c, permissions, rec))
    && (!d.deleted && InScope(cfg, d.path) && Blocked(disk, rec, d.path) ==> e.Failed? && disk' == disk && docs' == docs)
    && (!d.deleted && InScope(cfg, d.path) && !Blocked(disk, rec, d.path) ==>
          PlacedSomewhere(disk, docs, d, c, permissions, rec, disk', docs', e))
    && (rec.None? && (d.deleted || !InScope(cfg, d.path) || LocalPath(d.path).None?) ==>
          e.Fine? && disk' == disk && docs' == docs)
    && (rec.Some? && d.deleted ==> e.Fine? && DeletionFollowed(disk, docs, disk', docs', d.id, 0))
    && (rec.Some? && !d.deleted && !InScope(cfg, d.path) ==>
          e.Fine? && docs' == docs - {d.id} && MovedAside(disk, disk', rec.value.path))
  }

  /** What an undisturbed fetch does, by what the module holds of the document. */
  ghost predicate QuietFetch(cfg: Config, permissions: map<string, string>, m: Module, id: Id,
                             rec: Option<DocRecord>, disk: map<string, Content>, docs: map<Id, DocRecord>, t: seq<Event>,
                             disk': map<string, Content>, docs': map<Id, DocRecord>, u: seq<Event>, e: Err)
    requires ModuleOK(m)
  {
    && (id in m.docs && m.docs[id].readable && Fetchable(cfg, disk, RemoteOf(m, id), rec) ==>
          e.Fine? && Fetched(disk, docs, t, disk', docs', u, RemoteOf(m, id), CurrentContent(m, id), permissions, rec))
    && (Live(m, id) && InScope(cfg, m.docs[id].path) && Blocked(disk, rec, m.docs[id].path) ==>
          e.Failed? && disk' == disk && docs' == docs)
    && (Live(m, id) && InScope(cfg, m.docs[id].path) && !Blocked(disk, rec, m.docs[id].path) ==>
          PlacedSomewhere(disk, docs, RemoteOf(m, id), CurrentContent(m, id), permissions, rec, disk', docs', e))
    && (rec.None? && !(Live(m, id) && InScope(cfg, m.docs[id].path) && LocalPath(m.docs[id].path).Some?) ==>
          e.Fine? && disk' == disk && docs' == docs)
    && (rec.Some? && !(id in m.docs && m.docs[id].readable && (m.docs[id].deleted || InScope(cfg, m.docs[id].path))) ==>
          e.Fine? && docs' == docs - {id} && MovedAside(disk, disk', rec.value.path))
    && (rec.Some? && id in m.docs && m.docs[id].readable && m.docs[id].deleted ==>
          e.Fine? && DeletionFollowed(disk, docs, disk', docs', id, 0))
  }

  lemma FollowedQuietly(cfg: Config, permissions: map<string, string>, m: Module, id: Id,
                        rec: Option<DocRecord>, disk: map<string, Content>, docs: map<Id, DocRecord>, t: seq<Event>,
                        disk': map<string, Content>, docs': map<Id, DocRecord>, u: seq<Event>, e: Err, ev: Event)
    requires ModuleOK(m) && id in m.docs && m.docs[id].readable
    requires ev.w.disk == disk && ev.w.docs == docs && ev.who == Answered(id, true)
    requires FollowedAs(cfg, permissions, RemoteOf(m, id), CurrentContent(m, id), rec, disk, docs, t + [ev], disk', docs', u, e)
    ensures QuietFetch(cfg, permissions, m, id, rec, disk, docs, t, disk', docs', u, e)
  {
    hide LocalPath, InScope, Fetchable, Blocked, MovedAside, DeletionFollowed, ModuleOK, CurrentContent, PlacedSomewhere;
    hide FetchedDisk, FetchedRecord, Passes, Put, Followed, FollowedDocs;
    var d, c := RemoteOf(m, id), CurrentContent(m, id);
    if Fetchable(cfg, disk, d, rec) {
      var disks := [disk, Followed(disk, rec, d.path), disk'];
      var tables := [docs, FollowedDocs(docs, rec, d.path), docs'];
      OneStep(t, ev, disks, tables);
      PassesMore(t, t + [ev], u, disks, tables, disks, tables);
    }
  }

  lemma NotFoundQuietly(cfg: Config, permissions: map<string, string>, m: Module, id: Id,
                        rec: Option<DocRecord>, disk: map<string, Content>, docs: map<Id, DocRecord>, t: seq<Event>,
                        disk': map<string, Content>, docs': map<Id, DocRecord>, u: seq<Event>, e: Err)
    requires ModuleOK(m) && !(id in m.docs && m.docs[id].readable) && e.Fine?
    requires if rec.None? then disk' == disk && docs' == docs
             else docs' == docs - {id} && MovedAside(disk, disk', rec.value.path)
    ensures QuietFetch(cfg, permissions, m, id, rec, disk, docs, t, disk', docs', u, e)
  {
    hide ModuleOK, MovedAside, Fetchable, Blocked, InScope, LocalPath;
  }

  /** A record that followed its document to another path, with the folder and the marking it has there. */
  function Relocated(d: RemoteDoc, rec: DocRecord, permissions: map<string, string>): DocRecord {
    rec.(path := d.path, folderId := d.folderId, readOnly := ReadOnly(permissions, d.folderId))
  }

  /** A move without a new version was followed: the file and its record are where the document is, whatever
    * the file holds. */
  ghost predicate MoveFollowed(disk: map<string, Content>, docs: map<Id, DocRecord>, t: seq<Event>,
                               disk': map<string, Content>, docs': map<Id, DocRecord>, u: seq<Event>,
                               d: RemoteDoc, rec: DocRecord, permissions: map<string, string>)
    requires LocalPath(rec.path).Some? && LocalPath(d.path).Some?
  {
    && disk' == MoveFile(disk, LocalPath(rec.path).value, LocalPath(d.path).value)
    && docs' == Put(docs, Relocated(d, rec, permissions))
    && Passes(t, u, [disk, disk', disk'], [docs, Put(docs, rec.(path := d.path)), docs'])
  }

  /** A listed document that was moved and has no version the state does not know, its file being there. */
  predicate OnlyMoved(disk: map<string, Content>, d: RemoteDoc, rec: DocRecord) {
    rec.path != d.path && Movable(disk, rec.path, d.path) && LocalPath(rec.path).value in disk && d.version <= rec.version
  }

  /** A document at its place that has a newer version, or whose file is gone, is fetched. */
  ghost predicate RefreshedQuietly(cfg: Config, permissions: map<string, string>, m: Module, d: RemoteDoc, rec: DocRecord,
                                   disk: map<string, Content>, docs: map<Id, DocRecord>, t: seq<Event>,
                                   disk': map<string, Content>, docs': map<Id, DocRecord>, u: seq<Event>, e: Err)
    requires ModuleOK(m) && LocalPath(d.path).Some?
  {
    && (d.version > rec.version ==>
          QuietFetch(cfg, permissions, m, d.id, Some(rec), disk, docs, t, disk', docs', u, e))
    && (d.version <= rec.version && LocalPath(d.path).value !in disk && rec.conflict == "" ==>
          QuietFetch(cfg, permissions, m, d.id, None, disk, docs, t, disk', docs', u, e))
  }

  /** The same for a document that was moved, once its file and its record are where it is. */
  ghost predicate MovedAndRefreshed(cfg: Config, permissions: map<string, string>, m: Module, d: RemoteDoc, rec: DocRecord,
                                    disk: map<string, Content>, docs: map<Id, DocRecord>,
                                    disk': map<string, Content>, docs': map<Id, DocRecord>, u: seq<Event>, e: Err)
    requires ModuleOK(m) && LocalPath(d.path).Some? && LocalPath(rec.path).Some?
  {
    exists t :: RefreshedQuietly(cfg, permissions, m, d, rec.(path := d.path),
                                 MoveFile(disk, LocalPath(rec.path).value, LocalPath(d.path).value),
                                 Put(docs, rec.(path := d.path)), t, disk', docs', u, e)
  }

  /** A listed document the daemon does not sync. */
  predicate NotSynced(cfg: Config, d: RemoteDoc) {
    !InScope(cfg, d.path) || HiddenPath(d.path) || LocalPath(d.path).None?
  }

  /** The listed version is recorded at its place, and its file is there or waits for a merge; or the document
    * was moved where its file cannot go. */
  predicate NeedsNoFetch(w: World, d: RemoteDoc) {
    && d.id in w.docs
    && var rec := w.docs[d.id];
       if rec.path == d.path then
         d.version <= rec.version && LocalPath(d.path).Some? && (LocalPath(d.path).value in w.disk || rec.conflict != "")
       else !Movable(w.disk, rec.path, d.path)
  }

  ghost predicate NeededNoFetch(u: seq<Event>, n: nat, d: RemoteDoc)
    requires 0 < n <= |u|
  {
    NeedsNoFetch(u[n - 1].w, d)
  }

  /** The daemon saw to a listed document: it asked the module for it, or found that it need not. */
  ghost predicate Attended(cfg: Config, t: seq<Event>, u: seq<Event>, d: RemoteDoc) {
    || NotSynced(cfg, d) || AnswerIn(t, u, d.id)
    || exists n :: 0 < n && |t| <= n <= |u| && NeededNoFetch(u, n, d)
  }

  lemma AttendedStays(cfg: Config, s: seq<Event>, t: seq<Event>, u: seq<Event>, v: seq<Event>, d: RemoteDoc)
    requires s <= t && u <= v && Attended(cfg, t, u, d)
    ensures Attended(cfg, s, v, d)
  {
    hide NeedsNoFetch, NotSynced;
    if !NotSynced(cfg, d) && !AnswerIn(t, u, d.id) {
      var n :| 0 < n && |t| <= n <= |u| && NeededNoFetch(u, n, d);
      assert v[n - 1] == u[n - 1];
      assert NeededNoFetch(v, n, d);
    } else if AnswerIn(t, u, d.id) {
      var k :| |t| <= k < |u| && u[k].who.Answered? && u[k].who.doc == d.id;
      assert v[k] == u[k];
    }
  }

  /** The daemon saw to these documents of the list. */
  ghost predicate AllAttended(cfg: Config, t: seq<Event>, u: seq<Event>, listed: map<Id, RemoteDoc>, todo: set<Id>) {
    forall id :: id in listed && id !in todo ==> Attended(cfg, t, u, listed[id])
  }

  /** Every record at a path in scope is that of a listed document. */
  predicate OnlyListedLeft(cfg: Config, docs: map<Id, DocRecord>, listed: map<Id, RemoteDoc>) {
    forall id :: id in docs && InScope(cfg, docs[id].path) ==> id in listed
  }

  /** At some moment since, no other record was left. */
  ghost predicate UnlistedDropped(cfg: Config, t: seq<Event>, u: seq<Event>, listed: map<Id, RemoteDoc>) {
    exists n :: 0 < n && |t| <= n <= |u| && OnlyListedAt(cfg, u, n, listed)
  }

  ghost predicate OnlyListedAt(cfg: Config, u: seq<Event>, n: nat, listed: map<Id, RemoteDoc>)
    requires 0 < n <= |u|
  {
    OnlyListedLeft(cfg, u[n - 1].w.docs, listed)
  }

  ghost predicate LeavesOnlyListed(cfg: Config, t: seq<Event>, listed: map<Id, RemoteDoc>) {
    t != [] && OnlyListedLeft(cfg, Last(t).docs, listed)
  }

  /** What a full reconciliation that finished has done about the documents listed and the files there were,
    * whatever happened meanwhile: each document was seen to, every other record in scope dropped, and then
    * every file looked at. */
  ghost predicate SeenTo(cfg: Config, t: seq<Event>, u: seq<Event>, listed: map<Id, RemoteDoc>) {
    AllAttended(cfg, t, u, listed, {}) && UnlistedDropped(cfg, t, u, listed) && FolderScanned(cfg, t, u)
  }

  lemma NowSeenTo(cfg: Config, s: seq<Event>, t: seq<Event>, u: seq<Event>, listed: map<Id, RemoteDoc>)
    requires s <= t <= u && AllAttended(cfg, s, t, listed, {}) && LeavesOnlyListed(cfg, t, listed)
    requires FolderScanned(cfg, t, u)
    ensures SeenTo(cfg, s, u, listed)
  {
    hide AllAttended, OnlyListedLeft, FolderScanned;
    AllStayAttended(cfg, s, s, t, u, listed);
    assert u[|t| - 1] == t[|t| - 1];
    assert OnlyListedAt(cfg, u, |t|, listed);
    ScannedStays(cfg, s, t, u, u);
  }

  lemma SeenToSince(cfg: Config, s: seq<Event>, t: seq<Event>, u: seq<Event>, listed: map<Id, RemoteDoc>)
    requires s <= t && SeenTo(cfg, t, u, listed)
    ensures SeenTo(cfg, s, u, listed)
  {
    hide AllAttended, OnlyListedLeft, FolderScanned;
    AllStayAttended(cfg, s, t, u, u, listed);
    ScannedStays(cfg, s, t, u, u);
  }

  lemma OnlyListedStay(cfg: Config, docs: map<Id, DocRecord>, docs': map<Id, DocRecord>, listed: map<Id, RemoteDoc>)
    requires docs' == docs - (set id | id in docs && id !in listed && InScope(cfg, docs[id].path))
    ensures OnlyListedLeft(cfg, docs', listed)
  {
    hide InScope;
  }

  lemma NoneAttended(cfg: Config, t: seq<Event>, u: seq<Event>, listed: map<Id, RemoteDoc>)
    ensures AllAttended(cfg, t, u, listed, listed.Keys)
  {
    hide Attended;
  }

  lemma OneMoreAttended(cfg: Config, s: seq<Event>, t: seq<Event>, u: seq<Event>, listed: map<Id, RemoteDoc>, todo: set<Id>, id: Id)
    requires s <= t <= u && AllAttended(cfg, s, t, listed, todo) && id in listed && Attended(cfg, t, u, listed[id])
    ensures AllAttended(cfg, s, u, listed, todo - {id})
  {
    hide Attended;
    AttendedStays(cfg, s, t, u, u, listed[id]);
    forall k | k in listed && k !in todo ensures Attended(cfg, s, u, listed[k]) {
      AttendedStays(cfg, s, s, t, u, listed[k]);
    }
  }

  lemma AllStayAttended(cfg: Config, s: seq<Event>, t: seq<Event>, u: seq<Event>, v: seq<Event>, listed: map<Id, RemoteDoc>)
    requires s <= t && u <= v && AllAttended(cfg, t, u, listed, {})
    ensures AllAttended(cfg, s, v, listed, {})
  {
    hide Attended;
    forall k | k in listed ensures Attended(cfg, s, v, listed[k]) {
      AttendedStays(cfg, s, t, u, v, listed[k]);
    }
  }

  lemma AttendedNow(cfg: Config, t: seq<Event>, u: seq<Event>, d: RemoteDoc)
    requires t <= u && u != [] && NeedsNoFetch(Last(u), d)
    ensures Attended(cfg, t, u, d)
  {
    hide NeedsNoFetch;
    assert NeededNoFetch(u, |u|, d);
  }

  lemma MoveIsFollowed(disk: map<string, Content>, docs: map<Id, DocRecord>, t: seq<Event>,
                       disk': map<string, Content>, mid: map<Id, DocRecord>, u: seq<Event>,
                       docs': map<Id, DocRecord>, v: seq<Event>,
                       d: RemoteDoc, rec: DocRecord, permissions: map<string, string>)
    requires OnlyMoved(disk, d, rec)
    requires disk' == MoveFile(disk, LocalPath(rec.path).value, LocalPath(d.path).value)
    requires mid == Put(docs, rec.(path := d.path)) && docs' == Put(mid, Relocated(d, rec.(path := d.path), permissions))
    requires Passes(t, u, [disk, disk'], [docs, mid]) && Passes(u, v, [disk', disk'], [mid, docs'])
    ensures MoveFollowed(disk, docs, t, disk', docs', v, d, rec, permissions)
  {
    hide LocalPath, MoveFile, Passes;
    PutTwice(docs, rec.(path := d.path), Relocated(d, rec, permissions));
    PassesOn(t, u, v, disk, disk', disk', docs, mid, docs');
  }

  /** The record of a document that is at its path. */
  predicate AtPlace(docs: map<Id, DocRecord>, d: RemoteDoc, rec: DocRecord) {
    d.id in docs && docs[d.id] == rec && rec.id == d.id && rec.path == d.path
  }

  /** What the module answers of the document now. */
  predicate CurrentAnswer(m: Module, d: RemoteDoc)
    requires ModuleOK(m)
  {
    d.id in m.docs && m.docs[d.id].readable && d == RemoteOf(m, d.id)
  }

  /** A live document in scope whose file has no edit and waits for no merge. */
  predicate Unchanged(cfg: Config, disk: map<string, Content>, d: RemoteDoc, rec: DocRecord) {
    && !d.deleted && InScope(cfg, d.path) && Plain(d.path) && rec.conflict == ""
    && (d.path in disk ==> Checksum(disk[d.path]) == rec.checksum)
  }

  /** What the record keeps of a conflict copy: its path, or nothing when it cannot be named. */
  function TrackedCopy(local: string, v: nat): string {
    var r := RemotePath(ConflictName(local, v));
    if r.Some? then r.value else ""
  }

  lemma MovedIsThere(disk: map<string, Content>, from: string, to: string)
    ensures from in disk ==> to in MoveFile(disk, from, to)
  {
  }

  lemma PutFinds(docs: map<Id, DocRecord>, r: DocRecord)
    ensures r.id in Put(docs, r) && Put(docs, r)[r.id] == r
  {
  }

  lemma PutTwice(docs: map<Id, DocRecord>, r: DocRecord, s: DocRecord)
    requires r.id == s.id && r.path == s.path
    ensures Put(Put(docs, r), s) == Put(docs, s)
  {
  }

  // ---- convergence ---------------------------------------------------------------

  predicate Selected(m: Module, prefixes: seq<string>, id: Id) {
    Live(m, id) && exists i :: 0 <= i < |prefixes| && HasPrefix(m.docs[id].path, prefixes[i])
  }

  /** The documents a full reconciliation lists. */
  function Listing(m: Module, prefixes: seq<string>): map<Id, RemoteDoc>
    requires ModuleOK(m)
  {
    map id | id in m.docs && Selected(m, prefixes, id) :: RemoteOf(m, id)
  }

  /** What the person wrote over the files of records. */
  function EditsOf(disk: map<string, Content>, docs: map<Id, DocRecord>): map<Id, Content> {
    map id | id in docs && docs[id].path in disk && Checksum(disk[docs[id].path]) != docs[id].checksum :: disk[docs[id].path]
  }

  /** What is to be in the file of a document: the person's edit, or the module's version. */
  function Wanted(m: Module, edits: map<Id, Content>, id: Id): Content
    requires ModuleOK(m) && id in m.docs
  {
    if id in edits then edits[id] else CurrentContent(m, id)
  }

  /** No pending conflict, no untracked file, no edit but these: every file the daemon syncs is the file of a
    * record, and equal to it or edited. */
  predicate Tidy(disk: map<string, Content>, docs: map<Id, DocRecord>, edits: map<Id, Content>) {
    && (forall f :: f in disk && !HiddenPath(f) ==> exists id :: id in docs && docs[id].path == f)
    && (forall id :: id in docs ==>
          && Plain(docs[id].path) && docs[id].conflict == ""
          && (id !in edits && docs[id].path in disk ==> Checksum(disk[docs[id].path]) == docs[id].checksum))
  }

  /** The person may write to the documents of the folder. */
  predicate WritableFolder(m: Module, folderId: string) {
    m.refusesFolders || forall k :: k in m.folders && m.folders[k].id == folderId ==> m.folders[k].permission != "read"
  }

  /** The edits were made on the module's current versions, of documents that were not moved. */
  predicate EditsReady(cfg: Config, disk: map<string, Content>, docs: map<Id, DocRecord>, m: Module, edits: map<Id, Content>) {
    forall id :: id in edits ==>
      && id in docs && docs[id].path in disk && disk[docs[id].path] == edits[id] && Uploadable(cfg, docs[id].path)
      && Selected(m, Prefixes(cfg), id) && m.docs[id].path == docs[id].path && m.docs[id].version == docs[id].version
      && Checksum(edits[id]) != docs[id].checksum && WritableFolder(m, m.docs[id].folderId)
  }

  /** Every listed document is at a plain path of its own that the daemon syncs, and that no other
    * document is recorded at. */
  predicate WellPlaced(cfg: Config, docs: map<Id, DocRecord>, listed: map<Id, RemoteDoc>) {
    && (forall id :: id in listed ==> Plain(listed[id].path) && !HiddenPath(listed[id].path)
                                      && InScope(cfg, listed[id].path) && listed[id].id == id)
    && (forall a, b :: a in listed && b in listed && listed[a].path == listed[b].path ==> a == b)
    && (forall a, b :: a in listed && b in docs && docs[b].path == listed[a].path ==> a == b)
  }

  /** The record, the file and the module agree about a document. */
  predicate Agrees(disk: map<string, Content>, docs: map<Id, DocRecord>, m: Module, permissions: map<string, string>,
                   id: Id)
    requires ModuleOK(m)
  {
    && id in m.docs && id in docs
    && docs[id] == FreshRecord(m, permissions, id)
    && m.docs[id].path in disk && disk[m.docs[id].path] == CurrentContent(m, id)
  }

  /** The same, for a file that is to hold the person's edit where there is one. */
  predicate AgreesBut(disk: map<string, Content>, docs: map<Id, DocRecord>, m: Module, permissions: map<string, string>,
                      edits: map<Id, Content>, id: Id)
    requires ModuleOK(m)
  {
    && id in m.docs && id in docs
    && docs[id] == FreshRecord(m, permissions, id)
    && m.docs[id].path in disk && disk[m.docs[id].path] == Wanted(m, edits, id)
  }

  /** Everything in the folder is accounted for, edits can be sent, and everything the module lists has its
    * place. */
  predicate Settleable(cfg: Config, disk: map<string, Content>, docs: map<Id, DocRecord>, m: Module)
    requires ModuleOK(m)
  {
    && Tidy(disk, docs, EditsOf(disk, docs)) && EditsReady(cfg, disk, docs, m, EditsOf(disk, docs))
    && (forall id :: id in docs ==> InScope(cfg, docs[id].path))
    && WellPlaced(cfg, docs, Listing(m, Prefixes(cfg)))
  }

  /** One listed document is ready to be brought in line. */
  predicate Ready(cfg: Config, disk: map<string, Content>, docs: map<Id, DocRecord>, d: RemoteDoc) {
    && !d.deleted && InScope(cfg, d.path) && !HiddenPath(d.path) && Plain(d.path)
    && (forall id :: id in docs && docs[id].path == d.path ==> id == d.id)
    && (if d.id in docs then
          var r := docs[d.id];
          && Plain(r.path) && r.conflict == ""
          && (r.path in disk ==> Checksum(disk[r.path]) == r.checksum)
          && (r.path != d.path ==> d.path !in disk)
        else d.path !in disk)
  }

  /** The disk once a document is at its place, and no longer where it was. */
  function Settled(disk: map<string, Content>, docs: map<Id, DocRecord>, d: RemoteDoc, c: Content): map<string, Content>
  {
    (if d.id in docs && docs[d.id].path != d.path then disk - {docs[d.id].path} else disk)[d.path := c]
  }

  /** What waits in a tidy folder for a listed document that was not edited is ready. */
  lemma TidyIsReady(cfg: Config, disk: map<string, Content>, docs: map<Id, DocRecord>, edits: map<Id, Content>,
                    listed: map<Id, RemoteDoc>, id: Id)
    requires Tidy(disk, docs, edits) && WellPlaced(cfg, docs, listed) && id in listed && !listed[id].deleted && id !in edits
    ensures Ready(cfg, disk, docs, listed[id])
  {
    hide HiddenPath, Plain, InScope;
    var d := listed[id];
    if d.path in disk {
      var k :| k in docs && docs[k].path == d.path;
    }
  }

  /** Bringing one document in line keeps the folder tidy, and every document already in line. */
  lemma SettledKeepsTidy(cfg: Config, disk: map<string, Content>, docs: map<Id, DocRecord>, edits: map<Id, Content>,
                         listed: map<Id, RemoteDoc>, m: Module, permissions: map<string, string>, id: Id, done: set<Id>)
    requires ModuleOK(m) && TableOK(docs)
    requires Tidy(disk, docs, edits) && WellPlaced(cfg, docs, listed) && id in listed && id in m.docs
    requires listed[id] == RemoteOf(m, id)
    requires forall k :: k in done ==> AgreesBut(disk, docs, m, permissions, edits, k)
    ensures var disk', docs' := Settled(disk, docs, listed[id], Wanted(m, edits, id)),
                                docs[id := FreshRecord(m, permissions, id)];
            && Tidy(disk', docs', edits) && WellPlaced(cfg, docs', listed) && TableOK(docs')
            && (forall k :: k in done + {id} ==> AgreesBut(disk', docs', m, permissions, edits, k))
  {
    hide HiddenPath, Plain, InScope, ModuleOK, Tidy, TableOK, WellPlaced, Settled, AgreesBut, Wanted, FreshRecord;
    var d, c := listed[id], Wanted(m, edits, id);
    var disk', docs' := Settled(disk, docs, d, c), docs[id := FreshRecord(m, permissions, id)];
    StillPlacedApart(cfg, docs, listed, m, permissions, id);
    StillTidy(cfg, disk, docs, edits, listed, m, permissions, id);
    forall k | k in done + {id} ensures AgreesBut(disk', docs', m, permissions, edits, k) {
      StillAgrees(cfg, disk, docs, edits, listed, m, permissions, id, k);
    }
  }

  lemma StillPlacedApart(cfg: Config, docs: map<Id, DocRecord>, listed: map<Id, RemoteDoc>, m: Module,
                         permissions: map<string, string>, id: Id)
    requires ModuleOK(m) && TableOK(docs) && WellPlaced(cfg, docs, listed) && id in listed && id in m.docs
    requires listed[id] == RemoteOf(m, id)
    ensures var docs' := docs[id := FreshRecord(m, permissions, id)]; WellPlaced(cfg, docs', listed) && TableOK(docs')
  {
    hide HiddenPath, Plain, InScope, ModuleOK, CurrentContent;
  }

  lemma StillTidy(cfg: Config, disk: map<string, Content>, docs: map<Id, DocRecord>, edits: map<Id, Content>,
                  listed: map<Id, RemoteDoc>, m: Module, permissions: map<string, string>, id: Id)
    requires ModuleOK(m) && TableOK(docs)
    requires Tidy(disk, docs, edits) && WellPlaced(cfg, docs, listed) && id in listed && id in m.docs
    requires listed[id] == RemoteOf(m, id)
    ensures Tidy(Settled(disk, docs, listed[id], Wanted(m, edits, id)), docs[id := FreshRecord(m, permissions, id)], edits)
  {
    hide HiddenPath, Plain, InScope, ModuleOK, CurrentContent;
    var d, c := listed[id], Wanted(m, edits, id);
    var disk', docs' := Settled(disk, docs, d, c), docs[id := FreshRecord(m, permissions, id)];
    forall f | f in disk' && !HiddenPath(f)
      ensures exists k :: k in docs' && docs'[k].path == f
    {
      if f == d.path {
        assert docs'[id].path == f;
      } else {
        var k :| k in docs && docs[k].path == f;
        assert k != id;
        assert docs'[k].path == f;
      }
    }
    forall k | k in docs' && k != id
      ensures docs'[k].path != d.path
      ensures docs'[k].path in disk' <==> docs'[k].path in disk
      ensures docs'[k].path in disk ==> disk'[docs'[k].path] == disk[docs'[k].path]
    {
      assert docs'[k] == docs[k];
    }
  }

  lemma StillAgrees(cfg: Config, disk: map<string, Content>, docs: map<Id, DocRecord>, edits: map<Id, Content>,
                    listed: map<Id, RemoteDoc>, m: Module, permissions: map<string, string>, id: Id, k: Id)
    requires ModuleOK(m) && TableOK(docs) && WellPlaced(cfg, docs, listed) && id in listed && id in m.docs
    requires listed[id] == RemoteOf(m, id) && (k == id || AgreesBut(disk, docs, m, permissions, edits, k))
    ensures AgreesBut(Settled(disk, docs, listed[id], Wanted(m, edits, id)), docs[id := FreshRecord(m, permissions, id)],
                      m, permissions, edits, k)
  {
    hide HiddenPath, Plain, InScope, ModuleOK, CurrentContent;
    if k != id {
      assert docs[k].path == m.docs[k].path && docs[k].path != listed[id].path;
      assert id in docs ==> docs[id].path != docs[k].path;
    }
  }

  /** Bringing another document in line leaves the edits as they were. */
  lemma SettledKeepsEdits(cfg: Config, disk: map<string, Content>, docs: map<Id, DocRecord>, edits: map<Id, Content>,
                          listed: map<Id, RemoteDoc>, m: Module, permissions: map<string, string>, id: Id)
    requires ModuleOK(m) && TableOK(docs) && WellPlaced(cfg, docs, listed) && id in listed && id in m.docs
    requires listed[id] == RemoteOf(m, id) && EditsReady(cfg, disk, docs, m, edits)
    requires id in docs ==> TrueRecord(m, docs[id])
    ensures EditsReady(cfg, Settled(disk, docs, listed[id], Wanted(m, edits, id)), docs[id := FreshRecord(m, permissions, id)],
                       m, edits)
  {
    hide HiddenPath, Plain, InScope, ModuleOK, Uploadable, Selected, WritableFolder;
    var d, c := listed[id], Wanted(m, edits, id);
    var disk', docs' := Settled(disk, docs, d, c), docs[id := FreshRecord(m, permissions, id)];
    EditsAreDocs(cfg, disk, docs, m, edits);
    forall k | k in edits
      ensures k in docs' && docs'[k].path in disk' && disk'[docs'[k].path] == edits[k]
      ensures m.docs[k].path == docs'[k].path && m.docs[k].version == docs'[k].version
      ensures Checksum(edits[k]) != docs'[k].checksum
    {
      if k == id {
        Level(m, docs[id]);
        assert Selected(m, Prefixes(cfg), id);
        SelectedIsDoc(m, Prefixes(cfg), id);
      } else {
        assert docs'[k] == docs[k] && docs[k].path != d.path;
        assert id in docs ==> docs[id].path != docs[k].path;
      }
    }
  }

  lemma EditsAreDocs(cfg: Config, disk: map<string, Content>, docs: map<Id, DocRecord>, m: Module, edits: map<Id, Content>)
    requires EditsReady(cfg, disk, docs, m, edits)
    ensures forall id :: id in edits ==> id in m.docs && Live(m, id)
  {
    hide Uploadable, WritableFolder;
  }

  lemma SelectedIsDoc(m: Module, prefixes: seq<string>, id: Id)
    requires Selected(m, prefixes, id)
    ensures id in m.docs && Live(m, id)
  {
  }

  /** How far a reconciliation has come: the folder is tidy but for the edits, which are as ready as they were,
    * the documents done agree, and the records of documents that are not listed are as they were. */
  ghost predicate Brought(cfg: Config, disk: map<string, Content>, docs: map<Id, DocRecord>, docs0: map<Id, DocRecord>,
                          edits: map<Id, Content>, listed: map<Id, RemoteDoc>, m: Module, permissions: map<string, string>,
                          done: set<Id>)
    requires ModuleOK(m)
  {
    && Tidy(disk, docs, edits) && WellPlaced(cfg, docs, listed) && EditsReady(cfg, disk, docs, m, edits)
    && (forall id :: id in done ==> AgreesBut(disk, docs, m, permissions, edits, id))
    && (forall id :: id in docs && id !in listed ==> id in docs0 && docs[id] == docs0[id])
  }

  lemma BroughtNothing(cfg: Config, disk: map<string, Content>, docs: map<Id, DocRecord>, edits: map<Id, Content>,
                       listed: map<Id, RemoteDoc>, m: Module, permissions: map<string, string>)
    requires ModuleOK(m)
    ensures Tidy(disk, docs, edits) && WellPlaced(cfg, docs, listed) && EditsReady(cfg, disk, docs, m, edits) ==>
              Brought(cfg, disk, docs, docs, edits, listed, m, permissions, listed.Keys - listed.Keys)
  {
    hide Tidy, WellPlaced, ModuleOK, EditsReady;
  }

  /** A document whose edit is not sent yet is at its place. */
  predicate EditedInPlace(disk: map<string, Content>, docs: map<Id, DocRecord>, d: RemoteDoc, edit: Content) {
    && d.id in docs && docs[d.id].id == d.id && docs[d.id].path == d.path && docs[d.id].version == d.version
    && Plain(d.path) && d.path in disk && disk[d.path] == edit
  }

  lemma BroughtMore(cfg: Config, disk: map<string, Content>, docs: map<Id, DocRecord>, docs0: map<Id, DocRecord>,
                    edits: map<Id, Content>, listed: map<Id, RemoteDoc>, m: Module, permissions: map<string, string>,
                    todo: set<Id>, id: Id)
    requires ModuleOK(m) && TableOK(docs) && id in todo && todo <= listed.Keys && listed == Listing(m, Prefixes(cfg))
    requires Brought(cfg, disk, docs, docs0, edits, listed, m, permissions, listed.Keys - todo)
    requires id in docs ==> TrueRecord(m, docs[id])
    ensures id in m.docs && m.docs[id].readable && listed[id] == RemoteOf(m, id) && listed[id].id == id
    ensures if id in edits then EditedInPlace(disk, docs, listed[id], edits[id]) else Ready(cfg, disk, docs, listed[id])
    ensures Brought(cfg, Settled(disk, docs, listed[id], Wanted(m, edits, id)), docs[id := FreshRecord(m, permissions, id)],
                    docs0, edits, listed, m, permissions, listed.Keys - (todo - {id}))
  {
    hide ModuleOK, TableOK, Tidy, WellPlaced, AgreesBut, Ready, Settled, FreshRecord, CurrentContent, EditsReady, Wanted;
    if id in edits {
      EditIsInPlace(cfg, disk, docs, edits, listed, m, id);
    } else {
      TidyIsReady(cfg, disk, docs, edits, listed, id);
    }
    SettledKeepsTidy(cfg, disk, docs, edits, listed, m, permissions, id, listed.Keys - todo);
    SettledKeepsEdits(cfg, disk, docs, edits, listed, m, permissions, id);
    assert listed.Keys - (todo - {id}) == listed.Keys - todo + {id};
  }

  lemma BroughtRecord(cfg: Config, disk: map<string, Content>, docs: map<Id, DocRecord>, docs0: map<Id, DocRecord>,
                      edits: map<Id, Content>, listed: map<Id, RemoteDoc>, m: Module, permissions: map<string, string>,
                      done: set<Id>, id: Id)
    requires ModuleOK(m) && Brought(cfg, disk, docs, docs0, edits, listed, m, permissions, done) && id in edits
    requires id in listed && listed[id].id == id && EditedInPlace(disk, docs, listed[id], edits[id])
    ensures id in docs && docs[id].conflict == "" && InScope(cfg, listed[id].path) && !HiddenPath(listed[id].path)
    ensures AtPlace(docs, listed[id], docs[id]) && listed[id].version == docs[id].version
    ensures LocalPath(listed[id].path) == Some(listed[id].path) && listed[id].path in disk
  {
    hide ModuleOK, LocalPath, HiddenPath, InScope, Uploadable, AgreesBut;
  }

  lemma EditIsInPlace(cfg: Config, disk: map<string, Content>, docs: map<Id, DocRecord>, edits: map<Id, Content>,
                      listed: map<Id, RemoteDoc>, m: Module, id: Id)
    requires ModuleOK(m) && TableOK(docs) && WellPlaced(cfg, docs, listed) && EditsReady(cfg, disk, docs, m, edits)
    requires id in edits && id in m.docs && id in listed && listed[id] == RemoteOf(m, id)
    ensures EditedInPlace(disk, docs, listed[id], edits[id])
  {
    hide ModuleOK, HiddenPath, InScope, Plain, Uploadable, Selected, WritableFolder;
  }

  /** What `Mark` leaves of an edited file's record is the record of a fetch, and the file is as it was. */
  lemma MarkedIsFresh(disk: map<string, Content>, docs: map<Id, DocRecord>, m: Module, permissions: map<string, string>,
                      id: Id, edit: Content)
    requires ModuleOK(m) && TableOK(docs) && id in m.docs && id in docs && TrueRecord(m, docs[id]) && docs[id].conflict == ""
    requires EditedInPlace(disk, docs, RemoteOf(m, id), edit)
    ensures Put(docs, Relocated(RemoteOf(m, id), docs[id], permissions)) == docs[id := FreshRecord(m, permissions, id)]
    ensures Settled(disk, docs, RemoteOf(m, id), edit) == disk
  {
    Level(m, docs[id]);
    hide ModuleOK, Plain;
    PutFree(docs, Relocated(RemoteOf(m, id), docs[id], permissions));
  }

  lemma MinusOne(docs: map<Id, DocRecord>, gone: set<Id>, todo: set<Id>, id: Id)
    requires id in todo && todo <= gone
    ensures (docs - (gone - todo)) - {id} == docs - (gone - (todo - {id}))
  {
  }

  function RemoteAt(m: Module, id: Id): RemoteDoc
    requires ModuleOK(m)
  {
    if id in m.docs then RemoteOf(m, id) else NO_DOC
  }

  lemma TidyIsTracked(disk: map<string, Content>, docs: map<Id, DocRecord>, edits: map<Id, Content>)
    requires Tidy(disk, docs, edits)
    ensures Tracked(disk, docs)
  {
    hide HiddenPath, Plain;
  }

  lemma DroppedPath(cfg: Config, disk: map<string, Content>, docs: map<Id, DocRecord>, listed: map<Id, RemoteDoc>,
                    m: Module, permissions: map<string, string>, edits: map<Id, Content>, id: Id)
    requires ModuleOK(m) && Dropping(cfg, disk, docs, listed, m, permissions, edits) && id in docs
    ensures LocalPath(docs[id].path) == Some(docs[id].path)
  {
    hide ModuleOK, WellPlaced, AgreesBut, LocalPath, HiddenPath;
    TrackedPaths(disk, docs, id);
  }

  lemma TrackedPaths(disk: map<string, Content>, docs: map<Id, DocRecord>, id: Id)
    requires Tracked(disk, docs) && id in docs
    ensures LocalPath(docs[id].path) == Some(docs[id].path)
  {
    hide HiddenPath, LocalPath;
  }

  lemma ListedAreRemote(m: Module, prefixes: seq<string>)
    requires ModuleOK(m)
    ensures forall id :: id in Listing(m, prefixes) ==> Listing(m, prefixes)[id] == RemoteAt(m, id)
  {
    hide ModuleOK, Selected;
  }

  /** Once what is not listed is dropped, what is left is what is listed. */
  lemma OnlyListed(cfg: Config, before: map<Id, DocRecord>, docs0: map<Id, DocRecord>, listed: map<Id, RemoteDoc>,
                   disk: map<string, Content>, docs: map<Id, DocRecord>, m: Module, permissions: map<string, string>,
                   edits: map<Id, Content>)
    requires ModuleOK(m)
    requires forall id :: id in before ==> InScope(cfg, before[id].path)
    requires forall id :: id in docs0 && id !in listed ==> id in before && docs0[id] == before[id]
    requires docs == docs0 - (set id | id in docs0 && id !in listed && InScope(cfg, docs0[id].path))
    requires forall id :: id in listed ==> AgreesBut(disk, docs, m, permissions, edits, id)
    ensures docs.Keys == listed.Keys
  {
    hide InScope, ModuleOK;
  }

  /** A record is never past the module, and one that is level with it has its content. */
  lemma Level(m: Module, r: DocRecord)
    requires ModuleOK(m) && TrueRecord(m, r)
    ensures r.id in m.docs && r.version <= m.docs[r.id].version
    ensures r.version == m.docs[r.id].version ==> r.checksum == Checksum(CurrentContent(m, r.id))
  {
  }

  /** Fetching over a file without changes of its own puts the version in place. */
  lemma CleanFetch(disk: map<string, Content>, d: RemoteDoc, c: Content, permissions: map<string, string>,
                   rec: Option<DocRecord>)
    requires rec.Some? ==> rec.value.path == d.path
    requires d.path in disk ==> rec.Some? && Checksum(disk[d.path]) == rec.value.checksum
    ensures FetchedDisk(disk, d, c, rec) == disk[d.path := c]
    ensures FetchedRecord(disk, d, c, permissions, rec) == NextRecord(d, c, permissions)
  {
  }

  /** The same of a fetch that nothing disturbs. */
  lemma QuietlyClean(cfg: Config, permissions: map<string, string>, m: Module, d: RemoteDoc, rec: DocRecord,
                     known: Option<DocRecord>, disk: map<string, Content>, docs: map<Id, DocRecord>, t: seq<Event>,
                     disk': map<string, Content>, docs': map<Id, DocRecord>, u: seq<Event>, e: Err)
    requires ModuleOK(m) && rec.path == d.path && (known == Some(rec) || (known.None? && d.path !in disk) || !Plain(d.path))
    ensures QuietFetch(cfg, permissions, m, d.id, known, disk, docs, t, disk', docs', u, e)
            && CurrentAnswer(m, d) && Unchanged(cfg, disk, d, rec) ==>
              && e.Fine? && disk' == disk[d.path := CurrentContent(m, d.id)]
              && docs' == Put(docs, FreshRecord(m, permissions, d.id))
  {
    hide ModuleOK, LocalPath, InScope, Put, Passes, Blocked, MovedAside, DeletionFollowed, Followed, FollowedDocs, CurrentContent;
    if CurrentAnswer(m, d) && Unchanged(cfg, disk, d, rec) {
      CleanFetch(disk, d, CurrentContent(m, d.id), permissions, known);
      hide FetchedDisk, FetchedRecord;
    }
  }

  /** When no other record claims the path, `PutDoc` is a plain update. */
  lemma PutFree(docs: map<Id, DocRecord>, r: DocRecord)
    requires forall id :: id in docs && docs[id].path == r.path ==> id == r.id
    ensures Put(docs, r) == docs[r.id := r]
  {
  }

  lemma CleanFetchIf(disk: map<string, Content>, d: RemoteDoc, c: Content, permissions: map<string, string>,
                     rec: Option<DocRecord>)
    requires rec.Some? ==> rec.value.path == d.path
    ensures (d.path in disk ==> rec.Some? && Checksum(disk[d.path]) == rec.value.checksum) ==>
              && FetchedDisk(disk, d, c, rec) == disk[d.path := c]
              && FetchedRecord(disk, d, c, permissions, rec) == NextRecord(d, c, permissions)
  {
  }

  /** A record that keeps its path is simply replaced. */
  lemma RecordKeepsPath(docs: map<Id, DocRecord>, found: DocRecord, r: DocRecord)
    requires TableOK(docs) && found.id in docs && docs[found.id] == found && r.id == found.id && r.path == found.path
    ensures Put(docs, r) == docs[r.id := r]
  {
    PutFree(docs, r);
  }

  lemma RecordsSavedAs(docs: map<Id, DocRecord>, mid: map<Id, DocRecord>, found: DocRecord, rec: DocRecord,
                       after: map<Id, DocRecord>)
    requires TableOK(docs) && found.id in docs && docs[found.id] == found
    requires rec.id == found.id && rec.path == found.path && mid == docs[rec.id := rec]
    ensures forall v: nat, sum: string :: after == Put(mid, rec.(version := v, checksum := sum)) ==>
              after == docs[found.id := rec.(version := v, checksum := sum)]
  {
    forall v: nat, sum: string | after == Put(mid, rec.(version := v, checksum := sum))
      ensures after == docs[found.id := rec.(version := v, checksum := sum)]
    {
      var next := rec.(version := v, checksum := sum);
      assert forall id :: id in mid && mid[id].path == next.path ==> id == next.id;
      PutFree(mid, next);
    }
  }

  lemma PutFreeIf(docs: map<Id, DocRecord>, r: DocRecord)
    ensures (forall id :: id in docs && docs[id].path == r.path ==> id == r.id) ==> Put(docs, r) == docs[r.id := r]
  {
  }

  lemma PutSame(docs: map<Id, DocRecord>, id: Id)
    requires TableOK(docs) && id in docs
    ensures Put(docs, docs[id]) == docs
  {
  }

  lemma UnchangedIf(disk: map<string, Content>, d: RemoteDoc, c: Content, r: DocRecord)
    ensures d.path in disk && Checksum(disk[d.path]) == r.checksum == Checksum(c) ==> disk == disk[d.path := c]
  {
    if d.path in disk && Checksum(disk[d.path]) == Checksum(c) {
      ChecksumInjective(disk[d.path], c);
    }
  }

  /** What a document that is ready was moved by can be followed. */
  lemma ReadyMoves(cfg: Config, disk: map<string, Content>, docs: map<Id, DocRecord>, d: RemoteDoc)
    requires Ready(cfg, disk, docs, d) && d.id in docs && docs[d.id].path != d.path
    ensures Movable(disk, docs[d.id].path, d.path)
  {
    hide HiddenPath, InScope, LocalPath;
  }

  /** After a move is followed the document is where it belongs, and what is left is a refresh. */
  lemma MovedReady(cfg: Config, disk: map<string, Content>, docs: map<Id, DocRecord>, d: RemoteDoc, c: Content,
                   next: DocRecord, mid: map<string, Content>, docs': map<Id, DocRecord>)
    requires TableOK(docs) && d.id in docs && next.id == d.id && next.path == d.path
    requires Ready(cfg, disk, docs, d)
    requires var p := docs[d.id].path;
             if p == d.path then mid == disk && docs' == docs
             else && LocalPath(p).Some? && LocalPath(d.path).Some?
                  && mid == MoveFile(disk, LocalPath(p).value, LocalPath(d.path).value)
                  && docs' == Put(docs, docs[d.id].(path := d.path))
    ensures Unchanged(cfg, mid, d, docs[d.id].(path := d.path))
    ensures Put(docs', next) == docs[d.id := next] && mid[d.path := c] == Settled(disk, docs, d, c)
  {
    hide HiddenPath, InScope, LocalPath;
    PutFree(docs, next);
    PutTwice(docs, docs[d.id].(path := d.path), next);
  }

  lemma ListingGrows(m: Module, prefixes: seq<string>, i: nat)
    requires i < |prefixes| && ModuleOK(m)
    ensures Listing(m, prefixes[..i]) + ListAnswer(m, prefixes[i]) == Listing(m, prefixes[..i + 1])
  {
    hide ModuleOK;
    forall id | id in m.docs && Live(m, id)
      ensures Selected(m, prefixes[..i + 1], id) <==>
                Selected(m, prefixes[..i], id) || HasPrefix(m.docs[id].path, prefixes[i])
    {
      if Selected(m, prefixes[..i + 1], id) && !HasPrefix(m.docs[id].path, prefixes[i]) {
        var j :| 0 <= j < i + 1 && HasPrefix(m.docs[id].path, prefixes[..i + 1][j]);
        assert prefixes[..i][j] == prefixes[..i + 1][j];
      }
      if Selected(m, prefixes[..i], id) {
        var j :| 0 <= j < i && HasPrefix(m.docs[id].path, prefixes[..i][j]);
        assert prefixes[..i + 1][j] == prefixes[..i][j];
      }
      assert prefixes[..i + 1][i] == prefixes[i];
    }
  }

  /** What stays true while the documents that are gone are moved aside. */
  predicate Tracked(disk: map<string, Content>, docs: map<Id, DocRecord>) {
    && (forall f :: f in disk && !HiddenPath(f) ==> exists id :: id in docs && docs[id].path == f)
    && (forall id :: id in docs ==> Plain(docs[id].path))
  }

  /** What stays true of the listed documents meanwhile. */
  predicate Dropping(cfg: Config, disk: map<string, Content>, docs: map<Id, DocRecord>, listed: map<Id, RemoteDoc>,
                     m: Module, permissions: map<string, string>, edits: map<Id, Content>)
    requires ModuleOK(m)
  {
    && Tracked(disk, docs) && WellPlaced(cfg, docs, listed)
    && (forall id :: id in listed ==> listed[id] == RemoteAt(m, id) && AgreesBut(disk, docs, m, permissions, edits, id))
  }

  lemma DroppedKeepsTracked(cfg: Config, disk: map<string, Content>, docs: map<Id, DocRecord>,
                            listed: map<Id, RemoteDoc>, m: Module, permissions: map<string, string>,
                            edits: map<Id, Content>, id: Id, dest: string, disk': map<string, Content>)
    requires ModuleOK(m) && TableOK(docs)
    requires Dropping(cfg, disk, docs, listed, m, permissions, edits) && id in docs && id !in listed
    requires if docs[id].path in disk
             then InNoAccess(dest) && dest !in disk && disk' == MoveFile(disk, docs[id].path, dest)
             else disk' == disk
    ensures Dropping(cfg, disk', docs - {id}, listed, m, permissions, edits)
  {
    hide HiddenPath, Plain, InScope, ModuleOK, InNoAccess, RemoteAt, WellPlaced, AgreesBut, Tracked;
    if docs[id].path in disk {
      NoAccessIsHidden(dest);
    }
    StillTracked(disk, docs, id, disk');
    PlacedWithout(cfg, docs, listed, id);
    forall k | k in listed
      ensures AgreesBut(disk', docs - {id}, m, permissions, edits, k)
    {
      AgreedPath(cfg, disk, docs, listed, m, permissions, edits, k, id);
      AgreesElsewhere(disk, docs, m, permissions, edits, k, id, disk');
    }
  }

  lemma PlacedWithout(cfg: Config, docs: map<Id, DocRecord>, listed: map<Id, RemoteDoc>, id: Id)
    requires WellPlaced(cfg, docs, listed)
    ensures WellPlaced(cfg, docs - {id}, listed)
  {
    hide HiddenPath, Plain, InScope;
  }

  /** An agreed document is at its own path, which no record of another document claims. */
  lemma AgreedPath(cfg: Config, disk: map<string, Content>, docs: map<Id, DocRecord>, listed: map<Id, RemoteDoc>,
                   m: Module, permissions: map<string, string>, edits: map<Id, Content>, k: Id, id: Id)
    requires ModuleOK(m) && WellPlaced(cfg, docs, listed) && k in listed && id in docs && id != k
    requires listed[k] == RemoteAt(m, k) && AgreesBut(disk, docs, m, permissions, edits, k)
    ensures k in m.docs && m.docs[k].path in disk && m.docs[k].path != docs[id].path
  {
    hide HiddenPath, Plain, InScope, ModuleOK;
    assert listed[k].path == m.docs[k].path;
  }

  lemma StillTracked(disk: map<string, Content>, docs: map<Id, DocRecord>, id: Id, disk': map<string, Content>)
    requires Tracked(disk, docs) && id in docs
    requires docs[id].path !in disk' && forall f :: f in disk' && !HiddenPath(f) ==> f in disk
    ensures Tracked(disk', docs - {id})
  {
    hide HiddenPath, Plain;
    var docs' := docs - {id};
    forall f | f in disk' && !HiddenPath(f)
      ensures exists k :: k in docs' && docs'[k].path == f
    {
      var k :| k in docs && docs[k].path == f;
      assert k in docs' && docs'[k].path == f;
    }
  }

  lemma AgreesElsewhere(disk: map<string, Content>, docs: map<Id, DocRecord>, m: Module,
                        permissions: map<string, string>, edits: map<Id, Content>, k: Id, id: Id, disk': map<string, Content>)
    requires ModuleOK(m) && AgreesBut(disk, docs, m, permissions, edits, k) && k != id
    requires m.docs[k].path in disk' && disk'[m.docs[k].path] == disk[m.docs[k].path]
    ensures AgreesBut(disk', docs - {id}, m, permissions, edits, k)
  {
  }

  // ---- replay --------------------------------------------------------------------

  /** File, record and module agree for every tracked document, and every document that belongs in
    * the folder is tracked. */
  predicate InStep(cfg: Config, disk: map<string, Content>, docs: map<Id, DocRecord>, m: Module,
                   permissions: map<string, string>)
    requires ModuleOK(m)
  {
    && (forall id :: id in docs ==>
          Agrees(disk, docs, m, permissions, id) && Live(m, id) && Belongs(cfg, m.docs[id].path) && Plain(m.docs[id].path))
    && (forall id :: id in m.docs && Live(m, id) && Belongs(cfg, m.docs[id].path) ==> id in docs)
  }

  function RecordOf(docs: map<Id, DocRecord>, id: Id): Option<DocRecord> {
    if id in docs then Some(docs[id]) else None
  }

  predicate Belongs(cfg: Config, path: string) {
    InScope(cfg, path) && LocalPath(path).Some?
  }

  /** A past entry of the feed; a deletion carries the version it deleted. */
  predicate PastEntry(m: Module, c: Change) {
    c in m.log && (c.kind.Deleted? ==> c.version > 0)
  }

  /** Fetching a document that is in step changes nothing. */
  lemma FetchInStep(cfg: Config, disk: map<string, Content>, docs: map<Id, DocRecord>, m: Module,
                    permissions: map<string, string>, id: Id)
    requires ModuleOK(m) && TableOK(docs) && InStep(cfg, disk, docs, m, permissions) && id in docs
    ensures id in m.docs && m.docs[id].readable
    ensures var d, c, rec := RemoteOf(m, id), CurrentContent(m, id), Some(docs[id]);
            && Fetchable(cfg, disk, d, rec)
            && FetchedDisk(disk, d, c, rec) == disk
            && Put(docs, FetchedRecord(disk, d, c, permissions, rec)) == docs
  {
    hide ModuleOK, InScope, Plain, LocalPath;
    var d, c := RemoteOf(m, id), CurrentContent(m, id);
    assert Agrees(disk, docs, m, permissions, id);
    CleanFetch(disk, d, c, permissions, Some(docs[id]));
    assert disk[d.path := c] == disk;
    PutSame(docs, id);
  }

  /** A past deletion of a document that is live again is older than its record. */
  lemma PastDeletionIsOlder(cfg: Config, disk: map<string, Content>, docs: map<Id, DocRecord>, m: Module,
                            permissions: map<string, string>, c: Change)
    requires ModuleOK(m) && InStep(cfg, disk, docs, m, permissions)
    requires PastEntry(m, c) && c.kind.Deleted? && c.documentId in docs
    ensures 0 < c.version < docs[c.documentId].version
  {
    hide InScope, Plain, LocalPath;
    assert Agrees(disk, docs, m, permissions, c.documentId);
  }

  /** Where everything is in step, a deletion that is followed changes nothing exactly when it is older than
    * the document's record. */
  lemma StaysInStep(cfg: Config, disk: map<string, Content>, docs: map<Id, DocRecord>, m: Module,
                    permissions: map<string, string>, c: Change)
    requires ModuleOK(m) && TableOK(docs)
    ensures forall disk', docs' ::
              (InStep(cfg, disk, docs, m, permissions) && DeletionFollowed(disk, docs, disk', docs', c.documentId, c.version)) ==>
                && (c.documentId !in docs ==> disk' == disk && docs' == docs)
                && (c.documentId in docs ==> (disk' == disk && docs' == docs <==> 0 < c.version < docs[c.documentId].version))
  {
    hide InScope, LocalPath, ModuleOK, InStep, MovedAside;
  }

  // ---- the feed ------------------------------------------------------------------

  lemma Positions(log: seq<Change>, since: int)
    requires Increasing(log)
    ensures forall i :: 0 <= i < |log| ==> (i < Position(log, since) <==> log[i].sequence <= since)
  {
  }

  /** Once a page has been handed over, everything up to its `nextSeq` is covered. */
  lemma PageCovers(w: World, v: World, asked: Module, since: int, page: Page)
    requires ModuleOK(asked) && ModuleGrows(asked, v.mod)
    requires ModuleOK(w.mod) && ModuleGrows(w.mod, asked) && HistoryGrows(w.h, v.h)
    requires PageOK(asked, since, page) && 0 <= since <= w.mod.head && Covered(w, since)
    requires since == 0 ==> w.h.reconciled == asked.floor
    requires forall i :: 0 <= i < |page.items| ==> page.items[i] in v.h.handed
    ensures Covered(v, page.nextSeq)
    ensures page.nextSeq <= Max(since, asked.head)
  {
    hide ModuleOK, PageOK, HistoryGrows;
    forall i | 0 <= i < |v.mod.log| && v.mod.log[i].sequence <= page.nextSeq
      ensures v.mod.log[i] in v.h.handed || i < v.h.reconciled
    {
      NextSeqInside(asked, since, page);
      SameEntry(asked, v.mod, i, page.nextSeq);
      EntryCovered(w, v, asked, since, page, i);
    }
    NextSeqInside(asked, since, page);
  }

  lemma NextSeqInside(m: Module, since: int, page: Page)
    requires ModuleOK(m) && PageOK(m, since, page)
    ensures page.nextSeq <= Max(since, m.head)
  {
  }

  lemma EntryCovered(w: World, v: World, asked: Module, since: int, page: Page, i: nat)
    requires ModuleOK(asked) && ModuleOK(w.mod) && ModuleGrows(w.mod, asked) && HistoryGrows(w.h, v.h)
    requires PageOK(asked, since, page) && 0 <= since <= w.mod.head && Covered(w, since)
    requires since == 0 ==> w.h.reconciled == asked.floor
    requires forall k :: 0 <= k < |page.items| ==> page.items[k] in v.h.handed
    requires i < |asked.log| && asked.log[i].sequence <= page.nextSeq
    ensures asked.log[i] in v.h.handed || i < v.h.reconciled
  {
    hide ModuleGrows;
    var start := PageStart(asked, since);
    var end := start + |page.items|;
    Positions(asked.log, since);
    if end < |asked.log| {
      assert forall k :: end <= k < |asked.log| ==> asked.log[end].sequence <= asked.log[k].sequence;
    }
    if i >= start {
      assert asked.log[i] == page.items[i - start];
    } else if i < Position(asked.log, since) {
      SameEntry(w.mod, asked, i, since);
    } else {
      assert i < asked.floor;
      assert i < asked.floor - 1 ==> asked.log[i].sequence < asked.log[asked.floor - 1].sequence;
    }
  }

  lemma SameEntry(m: Module, n: Module, i: nat, since: int)
    requires ModuleOK(m) && ModuleGrows(m, n) && i < |n.log| && n.log[i].sequence <= since <= m.head
    ensures i < |m.log| && m.log[i] == n.log[i]
  {
    if i < |m.log| {
      assert n.log[i] == n.log[..|m.log|][i];
    }
  }

  lemma CoveredGrows(w: World, v: World, upTo: int)
    requires ModuleOK(w.mod) && ModuleGrows(w.mod, v.mod) && HistoryGrows(w.h, v.h)
    requires Covered(w, upTo) && upTo <= w.mod.head
    ensures Covered(v, upTo)
  {
    forall i | 0 <= i < |v.mod.log| && v.mod.log[i].sequence <= upTo
      ensures v.mod.log[i] in v.h.handed || i < v.h.reconciled
    {
      SameEntry(w.mod, v.mod, i, upTo);
    }
  }

  lemma ReadingStarts(w: World)
    requires Inv(w)
    ensures 0 <= w.lastSeq <= w.mod.head && (!w.h.trimmed ==> Covered(w, w.lastSeq))
    ensures !w.h.trimmed && w.lastFull && w.lastSeq == 0 ==> w.h.reconciled == w.mod.floor
  {
  }

  lemma SinceThen(t: seq<Event>, u: seq<Event>, asked: Module)
    requires IsRun(t) && IsRun(u) && t <= u && ModuleOK(asked) && ModuleGrows(asked, Last(t).mod)
    ensures ModuleGrows(asked, Last(u).mod) && ModuleOK(Last(u).mod)
    ensures LastTrimmed(asked) <= LastTrimmed(Last(u).mod)
  {
    hide IsRun, HistoryGrows, LastTrimmed;
    LastInv(t);
    LastInv(u);
    AllHandedStay(t, u);
    ModuleGrowsTrans(asked, Last(t).mod, Last(u).mod);
    TrimmedGrows(asked, Last(u).mod);
  }

  lemma SinceNow(m: Module, asked: Module)
    requires ModuleOK(m) && ModuleGrows(m, asked)
    ensures ModuleOK(asked) && LastTrimmed(m) <= LastTrimmed(asked)
  {
    hide LastTrimmed;
    TrimmedGrows(m, asked);
  }

  lemma NothingBefore(w: World)
    requires Inv(w)
    ensures Covered(w, 0) && 0 <= w.mod.head
  {
  }

  lemma PageEnds(asked: Module, m: Module, since: int, page: Page)
    requires ModuleOK(asked) && ModuleGrows(asked, m) && PageOK(asked, since, page)
    ensures LastTrimmed(asked) <= page.nextSeq && page.nextSeq <= Max(since, asked.head)
    ensures asked.head <= m.head
    ensures page.items != [] ==> page.nextSeq > since && Position(asked.log, page.nextSeq) > Position(asked.log, since)
    ensures !page.hasMore ==> forall i :: 0 <= i < |asked.log| ==> asked.log[i].sequence <= Max(since, page.nextSeq)
    ensures page.hasMore ==> page.items != []
  {
    if page.items != [] {
      PageAdvances(asked, since, page);
    }
    if !page.hasMore {
      PageReachesEnd(asked, since, page);
    }
  }

  lemma StillReading(w: World, v: World, since: int)
    requires Inv(w) && Inv(v) && ModuleGrows(w.mod, v.mod) && HistoryGrows(w.h, v.h)
    requires 0 <= since <= w.mod.head
    requires !v.h.trimmed ==>
               w.mod.floor == v.mod.floor && Covered(w, since) && (since == 0 ==> w.h.reconciled == w.mod.floor)
    ensures 0 <= since <= v.mod.head
    ensures !v.h.trimmed ==> Covered(v, since) && (since == 0 ==> v.h.reconciled == v.mod.floor)
    ensures LastTrimmed(w.mod) <= LastTrimmed(v.mod)
  {
    hide LastTrimmed;
    if !v.h.trimmed {
      CoveredGrows(w, v, since);
    }
    TrimmedGrows(w.mod, v.mod);
  }

  lemma HistoryGrowsTrans(a: History, b: History, c: History)
    requires HistoryGrows(a, b) && HistoryGrows(b, c)
    ensures HistoryGrows(a, c)
  {
  }

  /** A page moves the reading forward. */
  lemma PageAdvances(m: Module, since: int, page: Page)
    requires ModuleOK(m) && PageOK(m, since, page) && page.items != []
    ensures page.nextSeq > since && Position(m.log, page.nextSeq) > Position(m.log, since)
  {
    Positions(m.log, since);
    Positions(m.log, page.nextSeq);
    var start := PageStart(m, since);
    var end := start + |page.items|;
    assert m.log[end - 1].sequence <= page.nextSeq;
  }

  lemma PageReachesEnd(m: Module, since: int, page: Page)
    requires ModuleOK(m) && PageOK(m, since, page) && !page.hasMore
    ensures forall i :: 0 <= i < |m.log| ==> m.log[i].sequence <= Max(since, page.nextSeq)
  {
    Positions(m.log, since);
    var start := PageStart(m, since);
    var end := start + |page.items|;
    forall i | 0 <= i < |m.log|
      ensures m.log[i].sequence <= Max(since, page.nextSeq)
    {
      if i >= start {
        assert m.log[i].sequence <= m.log[end - 1].sequence;
      } else if i >= Position(m.log, since) {
        assert m.log[i].sequence <= LastTrimmed(m);
      }
    }
  }

  lemma TrimmedGrows(m: Module, n: Module)
    requires ModuleOK(m) && ModuleGrows(m, n)
    ensures LastTrimmed(m) <= LastTrimmed(n)
  {
    if m.floor > 0 {
      assert n.log[m.floor - 1] == n.log[..|m.log|][m.floor - 1];
      assert m.floor - 1 < n.floor - 1 ==> n.log[m.floor - 1].sequence < n.log[n.floor - 1].sequence;
    } else if n.floor > 0 {
      assert 0 < n.log[n.floor - 1].sequence;
    }
  }

  // ---- what a local change needs -------------------------------------------------

  /** A file there is nothing to do about: not a document's, gone, or equal to its record. */
  predicate Unremarkable(cfg: Config, disk: map<string, Content>, docs: map<Id, DocRecord>, f: string) {
    || f !in disk || !Uploadable(cfg, f)
    || exists id :: id in docs && docs[id].path == f && docs[id].conflict == "" && Checksum(disk[f]) == docs[id].checksum
  }

  predicate Uploadable(cfg: Config, f: string) {
    RemotePath(f).Some? && !HiddenPath(f) && InScope(cfg, f) && Lower(Ext(f)) == ".md"
  }

  /** The conflict copy of a record is there to be merged. */
  predicate CopyWaits(disk: map<string, Content>, r: DocRecord) {
    r.conflict != "" && LocalPath(r.conflict).Some? && LocalPath(r.conflict).value in disk
  }

  /** The same records, but for copies that were gone. */
  predicate SameButConflicts(docs: map<Id, DocRecord>, docs': map<Id, DocRecord>) {
    docs'.Keys == docs.Keys && forall id :: id in docs ==> docs'[id] == docs[id] || docs'[id] == docs[id].(conflict := "")
  }

  /** An edit made on top of the module's current version, free to be sent. */
  predicate ReadyToUpload(cfg: Config, disk: map<string, Content>, docs: map<Id, DocRecord>, m: Module, id: Id)
  {
    && id in docs && Uploadable(cfg, docs[id].path)
    && docs[id].path in disk && Checksum(disk[docs[id].path]) != docs[id].checksum
    && !docs[id].readOnly && (docs[id].conflict == "" || CopyGone(disk, docs[id]))
    && Live(m, id) && m.docs[id].version == docs[id].version
  }

  /** An edit made on a version that is no longer the module's, which is other than the edit. */
  predicate Outdated(cfg: Config, disk: map<string, Content>, docs: map<Id, DocRecord>, m: Module, id: Id)
    requires ModuleOK(m)
  {
    && id in docs && Uploadable(cfg, docs[id].path)
    && docs[id].path in disk && Checksum(disk[docs[id].path]) != docs[id].checksum
    && !docs[id].readOnly && docs[id].conflict == ""
    && Live(m, id) && m.docs[id].version != docs[id].version && CurrentContent(m, id) != disk[docs[id].path]
    && Fetchable(cfg, disk, RemoteOf(m, id), Some(docs[id]))
  }

  ghost function ReadyOnes(cfg: Config, disk: map<string, Content>, docs: map<Id, DocRecord>, m: Module): set<Id> {
    set id | id in docs && ReadyToUpload(cfg, disk, docs, m, id)
  }

  /** An update on version `base` left since the run was `t`. */
  ghost predicate SentSince(t: seq<Event>, u: seq<Event>, id: Id, base: nat) {
    exists i :: |t| <= i < |u| && u[i].who == Sent(id, base)
  }

  /** A file whose record waits for the person to merge and delete the conflict copy. */
  predicate Waiting(disk: map<string, Content>, docs: map<Id, DocRecord>, f: string) {
    exists id :: id in docs && docs[id].path == f
                 && exists cp :: cp in disk && docs[id].conflict != "" && LocalPath(docs[id].conflict) == Some(cp)
  }

  /** A file that waits for nobody else: there is nothing to do about it, it waits for a merge, or its edit
    * can be sent. */
  ghost predicate Answerable(cfg: Config, disk: map<string, Content>, docs: map<Id, DocRecord>, m: Module, f: string) {
    || Unremarkable(cfg, disk, docs, f) || Waiting(disk, docs, f)
    || exists id :: ReadyToUpload(cfg, disk, docs, m, id) && docs[id].path == f
  }

  /** File, record and module agree on an edit that was sent. */
  predicate Saved(disk: map<string, Content>, docs: map<Id, DocRecord>, m: Module, id: Id)
    requires ModuleOK(m)
  {
    && id in docs && docs[id].path in disk && docs[id].conflict == "" && Live(m, id)
    && docs[id].version == m.docs[id].version && docs[id].checksum == Checksum(disk[docs[id].path])
    && CurrentContent(m, id) == disk[docs[id].path]
  }

  lemma ReadyExcludes(cfg: Config, disk: map<string, Content>, docs: map<Id, DocRecord>, m: Module, id: Id)
    requires TableOK(docs) && ReadyToUpload(cfg, disk, docs, m, id)
    ensures !Unremarkable(cfg, disk, docs, docs[id].path) && !Waiting(disk, docs, docs[id].path)
  {
    hide Uploadable, LocalPath;
  }

  /** An edit that is sent leaves every other file as answerable, every other edit as ready, and every other
    * saved edit as saved. */
  lemma SendingKeepsOthers(cfg: Config, disk: map<string, Content>, docs: map<Id, DocRecord>, m: Module,
                           docs': map<Id, DocRecord>, m': Module, id: Id)
    requires TableOK(docs) && ModuleOK(m) && ModuleOK(m') && SameOthers(m, m', id) && id in docs
    requires id in docs' && docs' == docs[id := docs'[id]] && docs'[id].path == docs[id].path
    ensures forall k :: k != id && ReadyToUpload(cfg, disk, docs, m, k) ==> ReadyToUpload(cfg, disk, docs', m', k)
    ensures forall k :: k != id && Saved(disk, docs, m, k) ==> Saved(disk, docs', m', k)
    ensures forall g :: g != docs[id].path && Answerable(cfg, disk, docs, m, g) ==> Answerable(cfg, disk, docs', m', g)
  {
    hide Uploadable, LocalPath, ModuleOK;
    forall k | k != id && ReadyToUpload(cfg, disk, docs, m, k) ensures ReadyToUpload(cfg, disk, docs', m', k) {
      assert docs'[k] == docs[k];
    }
    forall k | k != id && Saved(disk, docs, m, k) ensures Saved(disk, docs', m', k) {
      assert docs'[k] == docs[k];
      HeldNow(m, k);
    }
    forall g | g != docs[id].path && Answerable(cfg, disk, docs, m, g) ensures Answerable(cfg, disk, docs', m', g) {
      if Unremarkable(cfg, disk, docs, g) {
        StillUnremarkable(cfg, disk, docs, docs', id, g);
      } else if Waiting(disk, docs, g) {
        var k :| k in docs && docs[k].path == g && exists cp :: cp in disk && docs[k].conflict != "" && LocalPath(docs[k].conflict) == Some(cp);
        assert docs'[k] == docs[k];
      } else {
        var k :| ReadyToUpload(cfg, disk, docs, m, k) && docs[k].path == g;
        assert ReadyToUpload(cfg, disk, docs', m', k) && docs'[k].path == g;
      }
    }
  }

  /** The same record of a document whose edit was sent. */
  predicate LikeSent(r: DocRecord, s: DocRecord) {
    s == r.(version := s.version, conflict := s.conflict, checksum := s.checksum)
  }

  /** Only edits of these documents were sent. */
  predicate SentOnly(docs: map<Id, DocRecord>, m: Module, docs': map<Id, DocRecord>, m': Module, ready: set<Id>) {
    && docs'.Keys == docs.Keys && Keeps(m.held, m'.held) && m'.docs.Keys == m.docs.Keys
    && (forall id :: id in docs ==> LikeSent(docs[id], docs'[id]) && (id !in ready ==> docs'[id] == docs[id]))
    && (forall id :: id in m.docs ==>
          && m'.docs[id] == m.docs[id].(version := m'.docs[id].version)
          && (id !in ready ==> m'.docs[id] == m.docs[id]))
  }

  lemma SentNothing(docs: map<Id, DocRecord>, m: Module, ready: set<Id>)
    ensures SentOnly(docs, m, docs, m, ready)
  {
  }

  lemma SentOneMore(docs0: map<Id, DocRecord>, m0: Module, docs: map<Id, DocRecord>, m: Module,
                    docs': map<Id, DocRecord>, m': Module, ready: set<Id>, id: Id)
    requires SentOnly(docs0, m0, docs, m, ready) && SameOthers(m, m', id) && id in ready && id in docs
    requires id in docs' && docs' == docs[id := docs'[id]] && LikeSent(docs[id], docs'[id])
    ensures SentOnly(docs0, m0, docs', m', ready)
  {
    assert forall k :: k in m0.held ==> k in m.held && m.held[k] == m0.held[k];
    forall k | k in m0.docs
      ensures m'.docs[k] == m0.docs[k].(version := m'.docs[k].version)
      ensures k !in ready ==> m'.docs[k] == m0.docs[k]
    {
      assert k in m.docs;
    }
  }

  /** What was not ready to be sent is not ready because others were. */
  lemma ReadyWasReady(cfg: Config, disk: map<string, Content>, docs0: map<Id, DocRecord>, m0: Module,
                      docs: map<Id, DocRecord>, m: Module, ready: set<Id>, id: Id)
    requires SentOnly(docs0, m0, docs, m, ready) && ReadyToUpload(cfg, disk, docs, m, id)
    requires forall k :: ReadyToUpload(cfg, disk, docs0, m0, k) ==> k in ready
    ensures id in ready
  {
    hide ReadyToUpload;
    ReadyAlike(cfg, disk, docs0, m0, docs, m, id);
  }

  lemma ReadyAlike(cfg: Config, disk: map<string, Content>, docs0: map<Id, DocRecord>, m0: Module,
                   docs: map<Id, DocRecord>, m: Module, id: Id)
    requires ReadyToUpload(cfg, disk, docs, m, id)
    ensures id in docs && id in m.docs
    ensures id in docs0 && docs[id] == docs0[id] && id in m0.docs && m.docs[id] == m0.docs[id] ==>
              ReadyToUpload(cfg, disk, docs0, m0, id)
  {
    hide Uploadable, LocalPath;
  }

  /** How far a scan has come: the files still to do are answerable, of the edits that were ready the rest
    * are saved, and nothing else was sent. */
  ghost predicate Progress(cfg: Config, disk: map<string, Content>, docs: map<Id, DocRecord>, m: Module,
                     docs0: map<Id, DocRecord>, m0: Module, ready: set<Id>, todo: set<string>)
    requires ModuleOK(m)
  {
    && (forall f :: f in todo ==> Answerable(cfg, disk, docs, m, f))
    && (forall id :: ReadyToUpload(cfg, disk, docs0, m0, id) ==> id in ready)
    && (forall id :: id in ready ==>
          && id in docs0 && id in docs && docs[id].path == docs0[id].path
          && if docs[id].path in todo then ReadyToUpload(cfg, disk, docs, m, id) else Saved(disk, docs, m, id))
    && SentOnly(docs0, m0, docs, m, ready)
  }

  lemma ScanBegins(cfg: Config, disk: map<string, Content>, docs: map<Id, DocRecord>, m: Module, ready: set<Id>)
    requires ModuleOK(m)
    requires ready == set id | id in docs && ReadyToUpload(cfg, disk, docs, m, id)
    ensures (forall f :: f in disk ==> Answerable(cfg, disk, docs, m, f)) ==>
              Progress(cfg, disk, docs, m, docs, m, ready, disk.Keys)
  {
    hide Answerable, ModuleOK, Uploadable, SentOnly;
    SentNothing(docs, m, ready);
  }

  /** The record of the file is marked read-only. */
  predicate MarkedReadOnly(docs: map<Id, DocRecord>, f: string) {
    exists id :: id in docs && docs[id].path == f && docs[id].readOnly
  }

  /** The daemon did nothing since but change records. */
  ghost predicate NothingSent(t: seq<Event>, u: seq<Event>) {
    t <= u && forall i :: |t| <= i < |u| ==> u[i].who == Daemon
  }

  /** A file the daemon syncs and has no record of. */
  predicate IsNew(cfg: Config, disk: map<string, Content>, docs: map<Id, DocRecord>, f: string) {
    f in disk && Uploadable(cfg, f) && forall id :: id in docs ==> docs[id].path != f
  }

  /** Whatever happens meanwhile: a file in a folder that is known to be read-only is left alone, and any other
    * costs a request. */
  predicate NewFileTried(folders: map<string, RemoteFolder>, pending: map<string, Id>, pending': map<string, Id>, f: string,
                         a: nat, b: nat)
  {
    var key := FolderKey(SplitName(f).0);
    if key in folders && folders[key].permission == "read" then b == a && pending' == pending else b > a
  }

  /** A new file is created in its folder: the one the daemon knows, or else one the module lists under that
    * name, unless it is read-only; without a folder it is left alone. */
  ghost predicate NewFileDone(folders: map<string, RemoteFolder>, m: Module, pending: map<string, Id>,
                              m': Module, pending': map<string, Id>, f: string, content: Content)
    requires ModuleOK(m)
  {
    var dir := SplitName(f).0;
    if FolderKey(dir) in folders then CreatedIn(folders[FolderKey(dir)], m, pending, m', pending', f, content)
    else if !m.refusesFolders && FolderNamed(m, dir) then
      exists folder :: ByPath(FoldersUnder(m, TrimSuffix(dir, "/")), FolderKey(dir), folder)
                       && CreatedIn(folder, m, pending, m', pending', f, content)
    else m' == m && pending' == pending
  }

  /** The module lists a folder under this name. */
  predicate FolderNamed(m: Module, dir: string) {
    exists k :: k in FoldersUnder(m, TrimSuffix(dir, "/")) && FolderKey(m.folders[k].path) == FolderKey(dir)
  }

  ghost predicate CreatedIn(folder: RemoteFolder, m: Module, pending: map<string, Id>, m': Module, pending': map<string, Id>,
                            f: string, content: Content)
    requires ModuleOK(m)
  {
    if folder.permission == "read" then m' == m && pending' == pending else Asked(m, pending, m', f, folder.id, content)
  }

  /** An edit that is ready to be sent leaves, over the version its record says, before anything else is done
    * unless the record's conflict is to be forgotten first. */
  ghost predicate EditsLeave(cfg: Config, disk: map<string, Content>, docs: map<Id, DocRecord>, m: Module, f: string,
                             t: seq<Event>, u: seq<Event>)
  {
    forall id :: ReadyToUpload(cfg, disk, docs, m, id) && docs[id].path == f ==>
                   && SentSince(t, u, id, docs[id].version)
                   && (docs[id].conflict == "" ==> SendsFirst(t, u, id, docs[id].version, disk, docs))
  }

  /** The module's version was fetched for an edit that was made on an older one. */
  ghost predicate OutdatedFetched(cfg: Config, permissions: map<string, string>, disk: map<string, Content>,
                                  docs: map<Id, DocRecord>, m: Module, f: string,
                                  disk': map<string, Content>, docs': map<Id, DocRecord>, m': Module, e: Err)
    requires ModuleOK(m)
  {
    forall id :: Outdated(cfg, disk, docs, m, id) && docs[id].path == f ==>
                   OneFetched(permissions, disk, docs, m, id, disk', docs', m', e)
  }

  predicate OneFetched(permissions: map<string, string>, disk: map<string, Content>, docs: map<Id, DocRecord>, m: Module, id: Id,
                       disk': map<string, Content>, docs': map<Id, DocRecord>, m': Module, e: Err)
    requires ModuleOK(m) && id in m.docs && id in docs
  {
    var d, c, rec := RemoteOf(m, id), CurrentContent(m, id), Some(docs[id]);
    && e.Fine? && m' == m && disk' == FetchedDisk(disk, d, c, rec)
    && docs' == Put(docs, FetchedRecord(disk, d, c, permissions, rec))
  }

  /** The edit in a file became the module's current version, and its record says so. */
  predicate EditSaved(disk: map<string, Content>, docs: map<Id, DocRecord>, m: Module, rec: DocRecord, f: string,
                      disk': map<string, Content>, docs': map<Id, DocRecord>, m': Module, e: Err)
    requires ModuleOK(m')
  {
    && e.Fine? && disk' == disk && f in disk
    && Live(m', rec.id) && CurrentContent(m', rec.id) == disk[f] && SameOthers(m, m', rec.id)
    && docs' == docs[rec.id := rec.(version := m'.docs[rec.id].version, conflict := "", checksum := Checksum(disk[f]))]
  }

  /** The document of the record was fetched, undisturbed. */
  ghost predicate Refetched(cfg: Config, permissions: map<string, string>, m: Module, rec: DocRecord,
                            disk: map<string, Content>, docs: map<Id, DocRecord>,
                            disk': map<string, Content>, docs': map<Id, DocRecord>, u: seq<Event>, e: Err)
    requires ModuleOK(m)
  {
    exists s :: QuietFetch(cfg, permissions, m, rec.id, Some(rec), disk, docs, s, disk', docs', u, e)
  }

  lemma OutdatedRefetched(cfg: Config, permissions: map<string, string>, m: Module, rec: DocRecord,
                          disk: map<string, Content>, docs: map<Id, DocRecord>,
                          disk': map<string, Content>, docs': map<Id, DocRecord>, u: seq<Event>, e: Err)
    requires ModuleOK(m) && Refetched(cfg, permissions, m, rec, disk, docs, disk', docs', u, e)
    requires Outdated(cfg, disk, docs, m, rec.id) && docs[rec.id] == rec
    ensures OneFetched(permissions, disk, docs, m, rec.id, disk', docs', m, e)
  {
    hide ModuleOK, Uploadable, Fetchable, FetchedDisk, FetchedRecord, Put, Passes, Followed, FollowedDocs, CurrentContent;
    hide MovedAside, DeletionFollowed, Blocked, PlacedSomewhere, InScope, LocalPath;
  }

  lemma FetchedAgain(cfg: Config, permissions: map<string, string>, m: Module, rec: DocRecord,
                     disk: map<string, Content>, docs: map<Id, DocRecord>, s: seq<Event>,
                     disk': map<string, Content>, docs': map<Id, DocRecord>, u: seq<Event>, e: Err)
    requires ModuleOK(m) && QuietFetch(cfg, permissions, m, rec.id, Some(rec), disk, docs, s, disk', docs', u, e)
    ensures Refetched(cfg, permissions, m, rec, disk, docs, disk', docs', u, e)
  {
    hide QuietFetch;
  }

  lemma UploadOutcome(cfg: Config, permissions: map<string, string>, disk: map<string, Content>, docs: map<Id, DocRecord>,
                      m: Module, rec: DocRecord, f: string, t: seq<Event>, answer: Err, v: nat, mid: Module,
                      disk': map<string, Content>, docs': map<Id, DocRecord>, m': Module, u: seq<Event>, e: Err, quiet: bool)
    requires ModuleOK(m) && ModuleOK(m') && f in disk && rec.id in docs && docs[rec.id] == rec && rec.path == f
    requires SendsFirst(t, u, rec.id, rec.version, disk, docs)
    requires quiet ==> (answer, v, mid) == UpdateAnswer(m, rec.id, rec.version, disk[f], 0) && ModuleOK(mid)
    requires quiet && answer.Fine? ==>
               e.Fine? && disk' == disk && m' == mid && docs' == Put(docs, rec.(version := v, checksum := Checksum(disk[f])))
    requires quiet && answer == Refused(VersionConflict) && mid == m ==>
               m' == m && Refetched(cfg, permissions, m, rec, disk, docs, disk', docs', u, e)
    requires quiet && answer == Refused(DocumentNotFound) ==>
               e.Fine? && m' == mid && docs' == docs - {rec.id} && MovedAside(disk, disk', rec.path)
    ensures Uploaded(cfg, permissions, disk, docs, m, rec, f, t, disk', docs', m', u, e, quiet)
  {
    hide ModuleOK, UpdateAnswer, Refetched, MovedAside, SendsFirst, CurrentContent, Put, SameOthers, OneFetched, Fetchable;
    SavedOnCurrent(m, rec.id, rec.version, disk[f]);
    RefusedOnOutdated(m, rec.id, rec.version, disk[f]);
    if quiet && Outdated(cfg, disk, docs, m, rec.id) {
      OutdatedRefetched(cfg, permissions, m, rec, disk, docs, disk', docs', u, e);
    }
  }

  /** What is done about the file of a record. */
  ghost predicate TrackedDone(cfg: Config, permissions: map<string, string>, disk: map<string, Content>,
                              docs: map<Id, DocRecord>, m: Module, found: DocRecord, f: string, t: seq<Event>,
                              disk': map<string, Content>, docs': map<Id, DocRecord>, m': Module, u: seq<Event>, e: Err,
                              quiet: bool)
    requires ModuleOK(m) && ModuleOK(m') && f in disk
  {
    if CopyWaits(disk, found) then e.Fine? && disk' == disk && docs' == docs && m' == m && u == t
    else if found.readOnly || Checksum(disk[f]) == found.checksum then
      && e.Fine? && disk' == disk && m' == m && NothingSent(t, u)
      && docs' == docs[found.id := found.(conflict := "")] && (found.conflict == "" ==> u == t)
    else
      && SentSince(t, u, found.id, found.version)
      && (found.conflict == "" ==> SendsFirst(t, u, found.id, found.version, disk, docs))
      && (quiet && Live(m, found.id) && (m.docs[found.id].version == found.version || CurrentContent(m, found.id) == disk[f]) ==>
            EditSaved(disk, docs, m, found, f, disk', docs', m', e))
      && (quiet && !Live(m, found.id) ==>
            e.Fine? && m' == m && docs' == docs - {found.id} && MovedAside(disk, disk', found.path))
      && (quiet && Live(m, found.id) && m.docs[found.id].version != found.version && CurrentContent(m, found.id) != disk[f] ==>
            m' == m && Refetched(cfg, permissions, m, found.(conflict := ""), disk, docs[found.id := found.(conflict := "")],
                                 disk', docs', u, e))
      && (quiet && Outdated(cfg, disk, docs, m, found.id) ==> OneFetched(permissions, disk, docs, m, found.id, disk', docs', m', e))
  }

  /** What sending an edit over the version of its record leads to. */
  ghost predicate Uploaded(cfg: Config, permissions: map<string, string>, disk: map<string, Content>,
                           docs: map<Id, DocRecord>, m: Module, rec: DocRecord, f: string, t: seq<Event>,
                           disk': map<string, Content>, docs': map<Id, DocRecord>, m': Module, u: seq<Event>, e: Err,
                           quiet: bool)
    requires ModuleOK(m) && ModuleOK(m') && f in disk
  {
    && SendsFirst(t, u, rec.id, rec.version, disk, docs)
    && (quiet && Live(m, rec.id) && (m.docs[rec.id].version == rec.version || CurrentContent(m, rec.id) == disk[f]) ==>
          && e.Fine? && disk' == disk && Live(m', rec.id) && SameOthers(m, m', rec.id) && CurrentContent(m', rec.id) == disk[f]
          && docs' == Put(docs, rec.(version := m'.docs[rec.id].version, checksum := Checksum(disk[f]))))
    && (quiet && Live(m, rec.id) && m.docs[rec.id].version != rec.version && CurrentContent(m, rec.id) != disk[f] ==>
          m' == m && Refetched(cfg, permissions, m, rec, disk, docs, disk', docs', u, e))
    && (quiet && !Live(m, rec.id) ==> e.Fine? && m' == m && docs' == docs - {rec.id} && MovedAside(disk, disk', rec.path))
    && (quiet && Outdated(cfg, disk, docs, m, rec.id) && rec == docs[rec.id] ==>
          OneFetched(permissions, disk, docs, m, rec.id, disk', docs', m', e))
  }

  lemma UploadedIsDone(cfg: Config, permissions: map<string, string>, disk: map<string, Content>,
                       docs0: map<Id, DocRecord>, docs: map<Id, DocRecord>, m: Module, found: DocRecord, f: string,
                       s: seq<Event>, t: seq<Event>,
                       disk': map<string, Content>, docs': map<Id, DocRecord>, m': Module, u: seq<Event>, e: Err, quiet: bool)
    requires TableOK(docs0) && ModuleOK(m) && ModuleOK(m') && f in disk && found.path == f
    requires found.id in docs0 && docs0[found.id] == found && docs == docs0[found.id := found.(conflict := "")]
    requires !CopyWaits(disk, found) && !found.readOnly && Checksum(disk[f]) != found.checksum
    requires s <= t && (found.conflict == "" ==> s == t && docs == docs0)
    requires Uploaded(cfg, permissions, disk, docs, m, found.(conflict := ""), f, t, disk', docs', m', u, e, quiet)
    ensures TrackedDone(cfg, permissions, disk, docs0, m, found, f, s, disk', docs', m', u, e, quiet)
  {
    hide ModuleOK, LocalPath, CurrentContent, QuietFetch, MovedAside, SameOthers, Uploadable, OneFetched, Put, Fetchable;
    var rec := found.(conflict := "");
    RecordsSavedAs(docs0, docs, found, rec, docs');
    assert u[|t|].who == Sent(found.id, found.version);
    assert docs - {found.id} == docs0 - {found.id};
  }

  lemma TrackedOutcome(cfg: Config, permissions: map<string, string>, disk: map<string, Content>,
                       docs: map<Id, DocRecord>, m: Module, found: DocRecord, f: string, t: seq<Event>,
                       disk': map<string, Content>, docs': map<Id, DocRecord>, m': Module, u: seq<Event>, e: Err, quiet: bool)
    requires TableOK(docs) && ModuleOK(m) && ModuleOK(m') && f in disk && Uploadable(cfg, f)
    requires found.id in docs && docs[found.id] == found && found.path == f
    requires TrackedDone(cfg, permissions, disk, docs, m, found, f, t, disk', docs', m', u, e, quiet)
    ensures Unremarkable(cfg, disk, docs, f) || Waiting(disk, docs, f)
            ==> e.Fine? && disk' == disk && docs' == docs && m' == m && u == t
                && (CopyWaits(disk, found) || Checksum(disk[f]) == found.checksum)
    ensures MarkedReadOnly(docs, f) ==>
              found.readOnly && e.Fine? && disk' == disk && m' == m && SameButConflicts(docs, docs') && NothingSent(t, u)
    ensures EditsLeave(cfg, disk, docs, m, f, t, u)
    ensures quiet ==>
              && Scanned(cfg, disk, docs, m, f, disk', docs', m', e)
              && OutdatedFetched(cfg, permissions, disk, docs, m, f, disk', docs', m', e)
    ensures !IsNew(cfg, disk, docs, f)
  {
    hide ModuleOK, Uploadable, LocalPath, TrackedDone, Unremarkable, Waiting, ReadyToUpload, Outdated, EditsLeave;
    hide Scanned, OutdatedFetched, SameButConflicts, NothingSent, CopyWaits;
    OnePath(docs, found.id, f);
    UnremarkableOutcome(cfg, permissions, disk, docs, m, found, f, t, disk', docs', m', u, e, quiet);
    ReadyOutcome(cfg, permissions, disk, docs, m, found, f, t, disk', docs', m', u, e, quiet);
  }

  lemma UnremarkableOutcome(cfg: Config, permissions: map<string, string>, disk: map<string, Content>,
                            docs: map<Id, DocRecord>, m: Module, found: DocRecord, f: string, t: seq<Event>,
                            disk': map<string, Content>, docs': map<Id, DocRecord>, m': Module, u: seq<Event>, e: Err, quiet: bool)
    requires TableOK(docs) && ModuleOK(m) && ModuleOK(m') && f in disk && Uploadable(cfg, f)
    requires found.id in docs && docs[found.id] == found && found.path == f
    requires TrackedDone(cfg, permissions, disk, docs, m, found, f, t, disk', docs', m', u, e, quiet)
    ensures Unremarkable(cfg, disk, docs, f) || Waiting(disk, docs, f)
            ==> e.Fine? && disk' == disk && docs' == docs && m' == m && u == t
                && (CopyWaits(disk, found) || Checksum(disk[f]) == found.checksum)
    ensures found.readOnly ==>
              e.Fine? && disk' == disk && m' == m && SameButConflicts(docs, docs') && NothingSent(t, u)
  {
    hide ModuleOK, Uploadable, LocalPath, OneFetched, SentSince, SendsFirst, QuietFetch, MovedAside, CurrentContent;
    hide EditSaved, Outdated, Live, ReadyToUpload, Fetchable;
    TrackedIsIt(cfg, disk, docs, m, found, f);
    hide Unremarkable, Waiting;
    assert docs[found.id := found] == docs;
  }

  lemma ReadyOutcome(cfg: Config, permissions: map<string, string>, disk: map<string, Content>,
                     docs: map<Id, DocRecord>, m: Module, found: DocRecord, f: string, t: seq<Event>,
                     disk': map<string, Content>, docs': map<Id, DocRecord>, m': Module, u: seq<Event>, e: Err, quiet: bool)
    requires TableOK(docs) && ModuleOK(m) && ModuleOK(m') && f in disk && Uploadable(cfg, f)
    requires found.id in docs && docs[found.id] == found && found.path == f
    requires TrackedDone(cfg, permissions, disk, docs, m, found, f, t, disk', docs', m', u, e, quiet)
    ensures EditsLeave(cfg, disk, docs, m, f, t, u)
    ensures quiet ==>
              && Scanned(cfg, disk, docs, m, f, disk', docs', m', e)
              && OutdatedFetched(cfg, permissions, disk, docs, m, f, disk', docs', m', e)
  {
    hide ModuleOK, Uploadable, LocalPath, OneFetched, SentSince, SendsFirst, QuietFetch, MovedAside, CurrentContent;
    hide EditSaved, Unremarkable, Waiting, Fetchable, Live, NothingSent;
    TrackedIsIt(cfg, disk, docs, m, found, f);
    UnremarkableOutcome(cfg, permissions, disk, docs, m, found, f, t, disk', docs', m', u, e, quiet);
  }

  /** A file there is nothing to send of. */
  lemma NothingToDo(cfg: Config, permissions: map<string, string>, disk: map<string, Content>, docs: map<Id, DocRecord>,
                    m: Module, f: string, t: seq<Event>)
    requires ModuleOK(m)
    ensures f !in disk || !Uploadable(cfg, f) ==>
              && EditsLeave(cfg, disk, docs, m, f, t, t) && !IsNew(cfg, disk, docs, f)
              && Scanned(cfg, disk, docs, m, f, disk, docs, m, Fine)
              && OutdatedFetched(cfg, permissions, disk, docs, m, f, disk, docs, m, Fine)
    ensures SameButConflicts(docs, docs) && NothingSent(t, t)
  {
    hide ModuleOK, Uploadable, Fetchable, Waiting;
    if f !in disk || !Uploadable(cfg, f) {
      if f !in disk {
        NothingOnDisk(cfg, disk, docs, m, f);
      } else {
        NotUploadable(cfg, disk, docs, m, f);
      }
      hide ReadyToUpload, Outdated;
    }
  }

  lemma NotRecorded(cfg: Config, disk: map<string, Content>, docs: map<Id, DocRecord>, m: Module, f: string)
    requires f in disk && Uploadable(cfg, f) && forall id :: id in docs ==> docs[id].path != f
    ensures IsNew(cfg, disk, docs, f) && !Unremarkable(cfg, disk, docs, f) && !Waiting(disk, docs, f) && !MarkedReadOnly(docs, f)
  {
    hide Uploadable, LocalPath;
  }

  lemma NewIsNone(cfg: Config, permissions: map<string, string>, disk: map<string, Content>, docs: map<Id, DocRecord>,
                  m: Module, f: string, disk': map<string, Content>, docs': map<Id, DocRecord>, m': Module,
                  t: seq<Event>, u: seq<Event>, e: Err)
    requires ModuleOK(m) && ModuleOK(m') && IsNew(cfg, disk, docs, f)
    ensures EditsLeave(cfg, disk, docs, m, f, t, u)
    ensures Scanned(cfg, disk, docs, m, f, disk', docs', m', e)
    ensures OutdatedFetched(cfg, permissions, disk, docs, m, f, disk', docs', m', e)
  {
    hide Uploadable, ModuleOK, LocalPath;
    NotRecorded(cfg, disk, docs, m, f);
    Untracked(cfg, disk, docs, m, f);
    hide ReadyToUpload, Outdated, Unremarkable, Waiting;
  }

  /** What the scan of one file left, when there was nothing to do about it or its edit was sent. */
  ghost predicate Scanned(cfg: Config, disk: map<string, Content>, docs: map<Id, DocRecord>, m: Module, f: string,
                    disk': map<string, Content>, docs': map<Id, DocRecord>, m': Module, e: Err)
    requires ModuleOK(m) && ModuleOK(m')
  {
    && (Unremarkable(cfg, disk, docs, f) || Waiting(disk, docs, f) ==> e.Fine? && disk' == disk && docs' == docs && m' == m)
    && (forall id :: ReadyToUpload(cfg, disk, docs, m, id) && docs[id].path == f ==>
          docs[id].id == id && EditSaved(disk, docs, m, docs[id], f, disk', docs', m', e))
  }

  lemma ScanStep(cfg: Config, disk: map<string, Content>, docs: map<Id, DocRecord>, m: Module,
                 docs0: map<Id, DocRecord>, m0: Module, ready: set<Id>, todo: set<string>, f: string,
                 disk': map<string, Content>, docs': map<Id, DocRecord>, m': Module, e: Err)
    requires TableOK(docs) && ModuleOK(m) && ModuleOK(m') && f in todo
    requires Progress(cfg, disk, docs, m, docs0, m0, ready, todo) && Scanned(cfg, disk, docs, m, f, disk', docs', m', e)
    ensures e.Fine? && disk' == disk && Progress(cfg, disk, docs', m', docs0, m0, ready, todo - {f})
  {
    hide Unremarkable, Waiting, ModuleOK, TableOK, Answerable, SentOnly;
    if Unremarkable(cfg, disk, docs, f) || Waiting(disk, docs, f) {
      NothingScanned(cfg, disk, docs, m, docs0, m0, ready, todo, f);
    } else {
      var id := SentBy(cfg, disk, docs, m, f);
      assert Scanned(cfg, disk, docs, m, f, disk', docs', m', e);
      SendingKeepsOthers(cfg, disk, docs, m, docs', m', id);
      SentIsSaved(cfg, disk, docs, m, id, docs', m');
      OnePath(docs, id, f);
      ReadyWasReady(cfg, disk, docs0, m0, docs, m, ready, id);
      SentOneMore(docs0, m0, docs, m, docs', m', ready, id);
    }
  }

  lemma ScanEnds(cfg: Config, disk: map<string, Content>, docs: map<Id, DocRecord>, m: Module,
                 docs0: map<Id, DocRecord>, m0: Module, ready: set<Id>)
    requires ModuleOK(m) && Progress(cfg, disk, docs, m, docs0, m0, ready, {})
    ensures forall id :: ReadyToUpload(cfg, disk, docs0, m0, id) ==> Saved(disk, docs, m, id)
    ensures SentOnly(docs0, m0, docs, m, ready)
  {
    hide ModuleOK, Saved, SentOnly, ReadyToUpload;
  }

  lemma OnePath(docs: map<Id, DocRecord>, id: Id, f: string)
    requires TableOK(docs) && id in docs && docs[id].path == f
    ensures forall k :: k in docs && docs[k].path == f ==> k == id
  {
  }

  lemma SentBy(cfg: Config, disk: map<string, Content>, docs: map<Id, DocRecord>, m: Module, f: string) returns (id: Id)
    requires Answerable(cfg, disk, docs, m, f) && !Unremarkable(cfg, disk, docs, f) && !Waiting(disk, docs, f)
    ensures ReadyToUpload(cfg, disk, docs, m, id) && docs[id].path == f
  {
    hide Unremarkable, Waiting;
    id :| ReadyToUpload(cfg, disk, docs, m, id) && docs[id].path == f;
  }

  lemma SentIsSaved(cfg: Config, disk: map<string, Content>, docs: map<Id, DocRecord>, m: Module, id: Id,
                    docs': map<Id, DocRecord>, m': Module)
    requires ModuleOK(m') && ReadyToUpload(cfg, disk, docs, m, id) && Live(m', id)
    requires id in docs && docs[id].path in disk && CurrentContent(m', id) == disk[docs[id].path]
    requires docs' == docs[id := docs[id].(version := m'.docs[id].version, conflict := "", checksum := Checksum(disk[docs[id].path]))]
    ensures Saved(disk, docs', m', id)
  {
    hide ModuleOK, Uploadable;
  }

  lemma NothingScanned(cfg: Config, disk: map<string, Content>, docs: map<Id, DocRecord>, m: Module,
                       docs0: map<Id, DocRecord>, m0: Module, ready: set<Id>, todo: set<string>, f: string)
    requires TableOK(docs) && ModuleOK(m) && Progress(cfg, disk, docs, m, docs0, m0, ready, todo) && f in todo
    requires Unremarkable(cfg, disk, docs, f) || Waiting(disk, docs, f)
    ensures Progress(cfg, disk, docs, m, docs0, m0, ready, todo - {f})
  {
    hide Unremarkable, Waiting, ModuleOK, TableOK, Answerable, ReadyToUpload, Saved, SentOnly;
    forall id | id in ready ensures docs[id].path != f {
      if docs[id].path == f {
        ReadyExcludes(cfg, disk, docs, m, id);
      }
    }
  }

  lemma HeldNow(m: Module, id: Id)
    requires ModuleOK(m) && id in m.docs
    ensures (id, m.docs[id].version) in m.held
  {
  }

  lemma StillUnremarkable(cfg: Config, disk: map<string, Content>, docs: map<Id, DocRecord>, docs': map<Id, DocRecord>,
                          id: Id, g: string)
    requires Unremarkable(cfg, disk, docs, g) && id in docs && g != docs[id].path
    requires id in docs' && docs' == docs[id := docs'[id]]
    ensures Unremarkable(cfg, disk, docs', g)
  {
    hide Uploadable;
    if g in disk && Uploadable(cfg, g) {
      var k :| k in docs && docs[k].path == g && docs[k].conflict == "" && Checksum(disk[g]) == docs[k].checksum;
      assert docs'[k] == docs[k];
    }
  }

  // ---- what the loop does ---------------------------------------------------------

  /** The module answered about the document since. */
  ghost predicate AnswerIn(t: seq<Event>, u: seq<Event>, id: Id) {
    exists k :: |t| <= k < |u| && u[k].who.Answered? && u[k].who.doc == id
  }

  lemma AnswerNoted(t: seq<Event>, u: seq<Event>, v: seq<Event>, z: seq<Event>, id: Id)
    requires t <= u && |v| == |u| + 1 && u <= v <= z && v[|u|].who.Answered? && v[|u|].who.doc == id
    ensures AnswerIn(t, z, id)
  {
    assert z[|u|] == v[|u|];
  }

  lemma AnswerSince(s: seq<Event>, t: seq<Event>, u: seq<Event>, id: Id)
    requires s <= t && AnswerIn(t, u, id)
    ensures AnswerIn(s, u, id)
  {
    var k :| |t| <= k < |u| && u[k].who.Answered? && u[k].who.doc == id;
  }

  lemma AnswerStays(t: seq<Event>, u: seq<Event>, v: seq<Event>, id: Id)
    requires t <= u <= v && AnswerIn(t, u, id)
    ensures AnswerIn(t, v, id)
  {
    var k :| |t| <= k < |u| && u[k].who.Answered? && u[k].who.doc == id;
    assert v[k] == u[k];
  }

  /** What was ready to be sent of the file after n events was sent since. */
  ghost predicate SentFrom(cfg: Config, u: seq<Event>, n: nat, f: string)
    requires 0 < n <= |u|
  {
    var w := u[n - 1].w;
    forall id :: ReadyToUpload(cfg, w.disk, w.docs, w.mod, id) && w.docs[id].path == f ==> SentSince(u[..n], u, id, w.docs[id].version)
  }

  /** At some moment since, the file was looked at: what of it was ready to be sent then was sent. */
  ghost predicate LookedAt(cfg: Config, t: seq<Event>, u: seq<Event>, f: string) {
    exists n :: 0 < n && |t| <= n <= |u| && SentFrom(cfg, u, n, f)
  }

  ghost predicate AllLookedAt(cfg: Config, t: seq<Event>, u: seq<Event>, files: set<string>) {
    forall f :: f in files ==> LookedAt(cfg, t, u, f)
  }

  /** Every file that was in the folder at some moment since was looked at. */
  ghost predicate FolderScanned(cfg: Config, t: seq<Event>, u: seq<Event>) {
    exists n :: 0 < n && |t| <= n <= |u| && AllLookedAt(cfg, u[..n], u, u[n - 1].w.disk.Keys)
  }

  lemma SentFromStays(cfg: Config, u: seq<Event>, v: seq<Event>, n: nat, f: string)
    requires 0 < n <= |u| && u <= v && SentFrom(cfg, u, n, f)
    ensures SentFrom(cfg, v, n, f)
  {
    hide Uploadable, LocalPath;
    var w := u[n - 1].w;
    assert v[n - 1] == u[n - 1] && v[..n] == u[..n];
    forall id | ReadyToUpload(cfg, w.disk, w.docs, w.mod, id) && w.docs[id].path == f
      ensures SentSince(v[..n], v, id, w.docs[id].version)
    {
      var i :| |u[..n]| <= i < |u| && u[i].who == Sent(id, w.docs[id].version);
      assert v[i] == u[i];
    }
  }

  lemma LookedStays(cfg: Config, s: seq<Event>, t: seq<Event>, u: seq<Event>, v: seq<Event>, files: set<string>)
    requires s <= t && u <= v && AllLookedAt(cfg, t, u, files)
    ensures AllLookedAt(cfg, s, v, files)
  {
    hide SentFrom;
    forall f | f in files ensures LookedAt(cfg, s, v, f) {
      assert LookedAt(cfg, t, u, f);
      var n :| 0 < n && |t| <= n <= |u| && SentFrom(cfg, u, n, f);
      SentFromStays(cfg, u, v, n, f);
    }
  }

  lemma LookedNow(cfg: Config, t: seq<Event>, u: seq<Event>, f: string)
    requires t != [] && t <= u
    requires var w := Last(t); EditsLeave(cfg, w.disk, w.docs, w.mod, f, t, u)
    ensures LookedAt(cfg, t, u, f)
  {
    hide ReadyToUpload;
    assert u[..|t|] == t && u[|t| - 1] == t[|t| - 1];
    assert SentFrom(cfg, u, |t|, f);
  }

  lemma NothingLookedAt(cfg: Config, t: seq<Event>)
    ensures AllLookedAt(cfg, t, t, {})
  {
    hide LookedAt;
  }

  lemma LookedMore(cfg: Config, s: seq<Event>, t: seq<Event>, u: seq<Event>, files: set<string>, f: string)
    requires s <= t <= u && AllLookedAt(cfg, s, t, files) && LookedAt(cfg, t, u, f)
    ensures AllLookedAt(cfg, s, u, files + {f})
  {
    hide SentFrom;
    LookedStays(cfg, s, s, t, u, files);
  }

  lemma ScannedNow(cfg: Config, t: seq<Event>, u: seq<Event>)
    requires t != [] && t <= u && AllLookedAt(cfg, t, u, Last(t).disk.Keys)
    ensures FolderScanned(cfg, t, u)
  {
    hide AllLookedAt;
    assert u[..|t|] == t && u[|t| - 1] == t[|t| - 1];
  }

  lemma ScannedStays(cfg: Config, s: seq<Event>, t: seq<Event>, u: seq<Event>, v: seq<Event>)
    requires s <= t && u <= v
    ensures FolderScanned(cfg, t, u) ==> FolderScanned(cfg, s, v)
  {
    hide AllLookedAt;
    if FolderScanned(cfg, t, u) {
      var n :| 0 < n && |t| <= n <= |u| && AllLookedAt(cfg, u[..n], u, u[n - 1].w.disk.Keys);
      assert v[..n] == u[..n] && v[n - 1] == u[n - 1];
      LookedStays(cfg, u[..n], u[..n], u, v, u[n - 1].w.disk.Keys);
    }
  }

  /** The first entries of a page were taken up in their order. */
  ghost predicate TakenInOrder(t: seq<Event>, u: seq<Event>, items: seq<Change>, at: seq<nat>) {
    && t <= u && |at| <= |items|
    && (forall k :: 0 <= k < |at| ==> |t| <= at[k] < |u| && u[at[k]].who == Taken(items[k]))
    && (forall j, k :: 0 <= j < k < |at| ==> at[j] < at[k])
  }

  lemma NoneTaken(t: seq<Event>, items: seq<Change>)
    ensures TakenInOrder(t, t, items, [])
  {
  }

  lemma NextTaken(s: seq<Event>, t: seq<Event>, u: seq<Event>, items: seq<Change>, at: seq<nat>)
    requires TakenInOrder(s, t, items, at) && |at| < |items| && t < u && u[|t|].who == Taken(items[|at|])
    ensures TakenInOrder(s, u, items, at + [|t|])
  {
    forall k | 0 <= k < |at| ensures u[at[k]] == t[at[k]] {
    }
  }

  /** From the nth event on, every edit that was ready was sent, if there was nothing else to do about any file. */
  ghost predicate ScanFrom(cfg: Config, u: seq<Event>, n: nat)
    requires 0 < n <= |u|
  {
    var w, v := u[n - 1].w, u[|u| - 1].w;
    ModuleOK(v.mod)
    && ((forall f :: f in w.disk ==> Answerable(cfg, w.disk, w.docs, w.mod, f)) ==>
          forall id :: ReadyToUpload(cfg, w.disk, w.docs, w.mod, id) ==> Saved(v.disk, v.docs, v.mod, id))
  }

  /** A scan of the folder was the last thing done since. */
  ghost predicate ScanSends(cfg: Config, t: seq<Event>, u: seq<Event>) {
    exists n :: |t| <= n <= |u| && 0 < n && ScanFrom(cfg, u, n)
  }

  lemma ScanSince(cfg: Config, t: seq<Event>, u: seq<Event>, v: seq<Event>)
    requires t <= u
    ensures ScanSends(cfg, u, v) ==> ScanSends(cfg, t, v)
  {
    hide ScanFrom;
  }

  /** The cursor is at or past every entry of the feed. */
  predicate ReadToEnd(w: World) {
    PassedBy(w.mod, w.lastSeq)
  }

  predicate PassedBy(m: Module, cursor: int) {
    forall i :: 0 <= i < |m.log| ==> m.log[i].sequence <= cursor
  }

  lemma PassedBefore(m: Module, n: Module, at: int, cursor: int)
    requires ModuleGrows(m, n) && PassedBy(n, at) && at <= cursor
    ensures PassedBy(m, cursor)
  {
    hide ModuleOK;
    forall i | 0 <= i < |m.log| ensures m.log[i].sequence <= cursor {
      assert m.log[i] == n.log[..|m.log|][i];
    }
  }

  /** The feed as it was was read to its end, and then every file looked at, if every request was answered. */
  ghost predicate CaughtUp(cfg: Config, plan: seq<Turn>, m: Module, cursor: int, t: seq<Event>, u: seq<Event>, a: nat, b: nat) {
    && (AllAnswered(plan, a, b) ==> PassedBy(m, cursor) && FolderScanned(cfg, t, u))
    && (|plan| <= a ==> ScanSends(cfg, t, u))
  }

  /** What an input makes the daemon do, between the runs t and u and the requests a and b. */
  ghost predicate Woken(cfg: Config, plan: seq<Turn>, input: Input, t: seq<Event>, u: seq<Event>, a: nat, b: nat) {
    && t != [] && t <= u && a <= b
    && var w, v := Last(t), Last(u);
    match input
    case Due(f) =>
      forall id :: ReadyToUpload(cfg, w.disk, w.docs, w.mod, id) && w.docs[id].path == f ==>
                     SentSince(t, u, id, w.docs[id].version)
    case Note(n) =>
      (match n
       case AccessChanged => AllAnswered(plan, a, b) ==> Finished(t, u)
       case Unlocked(_) => true
       case RemovedDoc(id, version) => DeletionFollowed(w.disk, w.docs, v.disk, v.docs, id, version)
       case ChangedDoc(id, path, version) =>
         if Known(cfg, w.docs, id, path, version) then u == t else LostIn(plan, a, b) || AnswerIn(t, u, id)
       case Unreadable => u == t)
    case Reconnected => a < b && CaughtUp(cfg, plan, w.mod, v.lastSeq, t, u, a, b)
    case CatchUpTick => a < b && (|plan| <= a ==> ReadToEnd(v)) && (AllAnswered(plan, a, b) ==> PassedBy(w.mod, v.lastSeq))
    case FullTick => AllAnswered(plan, a, b) ==> Finished(t, u)
  }

  /** The loop is entered once a full reconciliation has finished, or the feed and the folder were read. */
  ghost predicate Entered(cfg: Config, plan: seq<Turn>, t: seq<Event>, u: seq<Event>, a: nat, b: nat, full: bool) {
    if full then Finished(t, u)
    else t != [] && u != [] && a <= b && CaughtUp(cfg, plan, Last(t).mod, Last(u).lastSeq, t, u, a, b)
  }

  predicate MarksOK(marks: seq<(nat, nat)>, from: nat, to: nat) {
    && (forall k :: 0 <= k < |marks| ==> from <= marks[k].0 <= to)
    && (forall j, k :: 0 <= j < k < |marks| ==> marks[j].0 <= marks[k].0)
  }

  ghost predicate WokenAt(cfg: Config, plan: seq<Turn>, input: Input, u: seq<Event>, marks: seq<(nat, nat)>, k: nat)
    requires k + 1 < |marks| && MarksOK(marks, 0, |u|)
  {
    Woken(cfg, plan, input, u[..marks[k].0], u[..marks[k + 1].0], marks[k].1, marks[k + 1].1)
  }

  /** Each input but the last so far made the daemon do, between two marks, what it is for. */
  ghost predicate AllWoken(cfg: Config, plan: seq<Turn>, inputs: seq<Input>, u: seq<Event>, marks: seq<(nat, nat)>, from: nat) {
    && |marks| <= |inputs| + 1 && MarksOK(marks, from, |u|) && MarksOK(marks, 0, |u|)
    && forall k :: 0 <= k < |marks| - 1 ==> WokenAt(cfg, plan, inputs[k], u, marks, k)
  }

  /** The first mark is where the loop was entered. */
  ghost predicate EnteredAt(cfg: Config, plan: seq<Turn>, t: seq<Event>, u: seq<Event>, marks: seq<(nat, nat)>, a: nat, full: bool) {
    marks != [] && marks[0].0 <= |u| && Entered(cfg, plan, t, u[..marks[0].0], a, marks[0].1, full)
  }

  lemma NoMarks(cfg: Config, plan: seq<Turn>, inputs: seq<Input>, u: seq<Event>, from: nat)
    ensures AllWoken(cfg, plan, inputs, u, [], from)
  {
  }

  lemma FirstMark(cfg: Config, plan: seq<Turn>, inputs: seq<Input>, t: seq<Event>, u: seq<Event>, a: nat, b: nat, full: bool)
    requires t <= u && Entered(cfg, plan, t, u, a, b, full)
    ensures AllWoken(cfg, plan, inputs, u, [(|u|, b)], |t|) && EnteredAt(cfg, plan, t, u, [(|u|, b)], a, full)
  {
    assert u[..|u|] == u;
  }

  lemma MoreMarks(cfg: Config, plan: seq<Turn>, inputs: seq<Input>, s: seq<Event>, t: seq<Event>, u: seq<Event>,
                  marks: seq<(nat, nat)>, a: nat, b: nat, first: nat, full: bool)
    requires t <= u && marks != [] && |marks| <= |inputs| && marks[|marks| - 1] == (|t|, a)
    requires AllWoken(cfg, plan, inputs, t, marks, |s|) && EnteredAt(cfg, plan, s, t, marks, first, full)
    requires Woken(cfg, plan, inputs[|marks| - 1], t, u, a, b)
    ensures var more := marks + [(|u|, b)];
            AllWoken(cfg, plan, inputs, u, more, |s|) && EnteredAt(cfg, plan, s, u, more, first, full)
  {
    hide Woken, Entered;
    var more := marks + [(|u|, b)];
    assert u[..more[0].0] == t[..marks[0].0];
    forall k | 0 <= k < |more| - 1 ensures WokenAt(cfg, plan, inputs[k], u, more, k) {
      assert u[..more[k].0] == t[..more[k].0];
      if k < |marks| - 1 {
        assert WokenAt(cfg, plan, inputs[k], t, marks, k);
        assert u[..more[k + 1].0] == t[..more[k + 1].0];
      } else {
        assert t[..|t|] == t && u[..|u|] == u;
      }
    }
  }

  // ---- both sides agree ----------------------------------------------------------

  /** Edits that can be sent over what the module holds. */
  predicate EditsOpen(cfg: Config, m: Module, edits: map<Id, Content>)
    requires ModuleOK(m)
  {
    forall id :: id in edits ==>
      && Selected(m, Prefixes(cfg), id) && Uploadable(cfg, m.docs[id].path)
      && Checksum(edits[id]) != Checksum(CurrentContent(m, id)) && WritableFolder(m, m.docs[id].folderId)
  }

  lemma EditsAreOpen(cfg: Config, disk: map<string, Content>, docs: map<Id, DocRecord>, m: Module, edits: map<Id, Content>)
    requires ModuleOK(m) && EditsReady(cfg, disk, docs, m, edits)
    requires forall id :: id in docs ==> docs[id].id == id && TrueRecord(m, docs[id])
    ensures EditsOpen(cfg, m, edits)
  {
    hide ModuleOK, Uploadable, Selected, WritableFolder;
    EditsAreDocs(cfg, disk, docs, m, edits);
    forall id | id in edits ensures Checksum(edits[id]) != Checksum(CurrentContent(m, id)) {
      Level(m, docs[id]);
    }
  }

  /** What the daemon knows of permissions lets it write where the person may. */
  ghost predicate Allows(m: Module, permissions: map<string, string>) {
    forall folderId :: WritableFolder(m, folderId) ==> !ReadOnly(permissions, folderId)
  }

  /** What a module that was asked for its folders lets the daemon know of permissions. */
  predicate PermissionsKnown(m: Module, prefixes: seq<string>, permissions: map<string, string>) {
    if m.refusesFolders then permissions == map[]
    else
      var fs := FoldersListed(m, prefixes);
      && (forall k :: k in fs ==> fs[k].id in permissions)
      && (forall id :: id in permissions ==> ById(fs, id, permissions[id]))
  }

  lemma KnownAllows(m: Module, folders: map<string, RemoteFolder>, permissions: map<string, string>, prefixes: seq<string>)
    requires if m.refusesFolders then permissions == map[]
             else KnownExactly(folders, permissions, FoldersListed(m, prefixes))
    ensures Allows(m, permissions) && PermissionsKnown(m, prefixes, permissions)
  {
    hide FolderKey, ByPath;
    forall folderId | WritableFolder(m, folderId) ensures !ReadOnly(permissions, folderId) {
      if folderId in permissions {
        assert ById(FoldersListed(m, prefixes), folderId, permissions[folderId]);
      }
    }
  }

  /** After a reconciliation, what is left to do about each file is to send its edit. */
  lemma BroughtIsAnswerable(cfg: Config, disk: map<string, Content>, docs: map<Id, DocRecord>, m: Module,
                            permissions: map<string, string>, edits: map<Id, Content>, f: string)
    requires ModuleOK(m) && Tracked(disk, docs) && EditsOpen(cfg, m, edits) && Allows(m, permissions) && f in disk
    requires forall id :: id in docs ==> AgreesBut(disk, docs, m, permissions, edits, id)
    ensures Answerable(cfg, disk, docs, m, f) && (edits == map[] ==> Unremarkable(cfg, disk, docs, f))
  {
    hide HiddenPath, InScope, ModuleOK, Plain, Selected, WritableFolder, Waiting, RemotePath, Lower, Ext;
    if Uploadable(cfg, f) {
      var id :| id in docs && docs[id].path == f;
      assert AgreesBut(disk, docs, m, permissions, edits, id);
      if id in edits {
        EditIsReady(cfg, disk, docs, m, permissions, edits, id);
      }
    }
  }

  lemma EditIsReady(cfg: Config, disk: map<string, Content>, docs: map<Id, DocRecord>, m: Module,
                    permissions: map<string, string>, edits: map<Id, Content>, id: Id)
    requires ModuleOK(m) && EditsOpen(cfg, m, edits) && Allows(m, permissions) && id in edits
    requires AgreesBut(disk, docs, m, permissions, edits, id)
    ensures ReadyToUpload(cfg, disk, docs, m, id)
  {
    hide InScope, ModuleOK, Plain, WritableFolder, Uploadable, ReadOnly;
    SelectedIsDoc(m, Prefixes(cfg), id);
  }

  lemma OnlyEditsAreReady(cfg: Config, disk: map<string, Content>, docs: map<Id, DocRecord>, m: Module,
                          permissions: map<string, string>, edits: map<Id, Content>, id: Id)
    requires ModuleOK(m) && AgreesBut(disk, docs, m, permissions, edits, id) && ReadyToUpload(cfg, disk, docs, m, id)
    ensures id in edits
  {
    hide ModuleOK, Uploadable;
  }

  /** Everything agrees: the records are those of the documents listed, each file holds the module's current
    * version, and that is the person's edit where there was one, and what it was elsewhere. */
  predicate Converged(cfg: Config, m0: Module, edits: map<Id, Content>, disk: map<string, Content>,
                      docs: map<Id, DocRecord>, m: Module, permissions: map<string, string>)
    requires ModuleOK(m0) && ModuleOK(m)
  {
    && docs.Keys == Listing(m0, Prefixes(cfg)).Keys
    && (forall id :: id in docs ==>
          && Agrees(disk, docs, m, permissions, id) && id in m0.docs
          && m.docs[id] == m0.docs[id].(version := m.docs[id].version)
          && CurrentContent(m, id) == Wanted(m0, edits, id))
    && (edits == map[] ==> m == m0)
  }

  /** The records are those of the documents listed, and agree with the module but for the edits. */
  predicate AllBrought(disk: map<string, Content>, docs: map<Id, DocRecord>, m: Module, permissions: map<string, string>,
                       edits: map<Id, Content>, listed: map<Id, RemoteDoc>)
    requires ModuleOK(m)
  {
    && Tracked(disk, docs) && docs.Keys == listed.Keys
    && (forall id :: id in docs ==> AgreesBut(disk, docs, m, permissions, edits, id))
  }

  lemma SameWithin(k: Heard, k': Heard, prefixes: seq<string>, ids: set<Id>)
    requires ListedWithin(k, prefixes, ids) && k'.listed == k.listed
    ensures ListedWithin(k', prefixes, ids)
  {
  }

  lemma BroughtIsDropping(cfg: Config, disk: map<string, Content>, docs: map<Id, DocRecord>, docs0: map<Id, DocRecord>,
                          edits: map<Id, Content>, listed: map<Id, RemoteDoc>, m: Module, permissions: map<string, string>)
    requires ModuleOK(m) && listed == Listing(m, Prefixes(cfg))
    requires Brought(cfg, disk, docs, docs0, edits, listed, m, permissions, listed.Keys)
    ensures Dropping(cfg, disk, docs, listed, m, permissions, edits)
  {
    hide ModuleOK, AgreesBut, Tidy, WellPlaced, Tracked, EditsReady, Listing, RemoteAt;
    TidyIsTracked(disk, docs, edits);
    ListedAreRemote(m, Prefixes(cfg));
  }

  lemma DroppedIsBrought(cfg: Config, before: map<Id, DocRecord>, disk0: map<string, Content>, docs0: map<Id, DocRecord>,
                         disk: map<string, Content>, docs: map<Id, DocRecord>,
                         edits: map<Id, Content>, listed: map<Id, RemoteDoc>, m: Module, permissions: map<string, string>)
    requires ModuleOK(m) && Dropping(cfg, disk, docs, listed, m, permissions, edits)
    requires Brought(cfg, disk0, docs0, before, edits, listed, m, permissions, listed.Keys)
    requires forall id :: id in before ==> InScope(cfg, before[id].path)
    requires docs == docs0 - (set id | id in docs0 && id !in listed && InScope(cfg, docs0[id].path))
    ensures AllBrought(disk, docs, m, permissions, edits, listed)
  {
    hide ModuleOK, AgreesBut, Tidy, WellPlaced, Tracked, EditsReady, InScope, RemoteAt;
    OnlyListed(cfg, before, docs0, listed, disk, docs, m, permissions, edits);
  }

  lemma AllAnswerable(cfg: Config, disk: map<string, Content>, docs: map<Id, DocRecord>, m: Module,
                      permissions: map<string, string>, edits: map<Id, Content>, listed: map<Id, RemoteDoc>)
    requires ModuleOK(m) && AllBrought(disk, docs, m, permissions, edits, listed) && EditsOpen(cfg, m, edits)
    requires Allows(m, permissions)
    ensures forall f :: f in disk ==> Answerable(cfg, disk, docs, m, f)
    ensures edits == map[] ==> forall f :: f in disk ==> Unremarkable(cfg, disk, docs, f)
    ensures docs.Keys == listed.Keys && forall id :: id in docs ==> AgreesBut(disk, docs, m, permissions, edits, id)
  {
    hide ModuleOK, AgreesBut, Tracked, EditsOpen, Allows, Unremarkable, Answerable;
    forall f | f in disk
      ensures Answerable(cfg, disk, docs, m, f) && (edits == map[] ==> Unremarkable(cfg, disk, docs, f))
    {
      BroughtIsAnswerable(cfg, disk, docs, m, permissions, edits, f);
    }
  }

  lemma SettleableIsOpen(cfg: Config, disk: map<string, Content>, docs: map<Id, DocRecord>, m: Module)
    requires ModuleOK(m) && Settleable(cfg, disk, docs, m)
    requires forall id :: id in docs ==> docs[id].id == id && TrueRecord(m, docs[id])
    ensures EditsOpen(cfg, m, EditsOf(disk, docs))
  {
    hide ModuleOK, Tidy, WellPlaced, EditsReady, EditsOpen, TrueRecord, InScope, EditsOf, Listing;
    EditsAreOpen(cfg, disk, docs, m, EditsOf(disk, docs));
  }

  lemma ScanConverges(cfg: Config, disk: map<string, Content>, docs: map<Id, DocRecord>, m: Module,
                      permissions: map<string, string>, edits: map<Id, Content>, docs': map<Id, DocRecord>, m': Module)
    requires ModuleOK(m) && ModuleOK(m') && EditsOpen(cfg, m, edits) && Allows(m, permissions)
    requires docs.Keys == Listing(m, Prefixes(cfg)).Keys && (edits == map[] ==> m' == m)
    requires forall id :: id in docs ==> AgreesBut(disk, docs, m, permissions, edits, id)
    requires SentOnly(docs, m, docs', m', ReadyOnes(cfg, disk, docs, m))
    requires forall id :: ReadyToUpload(cfg, disk, docs, m, id) ==> Saved(disk, docs', m', id)
    ensures Converged(cfg, m, edits, disk, docs', m', permissions)
  {
    hide ModuleOK, ReadyToUpload, Saved, Listing, EditsOpen, FreshRecord, Allows, Agrees, Wanted, CurrentContent;
    forall id | id in docs'
      ensures id in m.docs && Agrees(disk, docs', m', permissions, id) && CurrentContent(m', id) == Wanted(m, edits, id)
    {
      assert AgreesBut(disk, docs, m, permissions, edits, id);
      if id in edits {
        EditIsReady(cfg, disk, docs, m, permissions, edits, id);
        SavedAgrees(cfg, disk, docs, m, permissions, edits, docs', m', id);
      } else {
        if ReadyToUpload(cfg, disk, docs, m, id) {
          OnlyEditsAreReady(cfg, disk, docs, m, permissions, edits, id);
        }
        UnsentAgrees(disk, docs, m, permissions, edits, docs', m', id);
      }
    }
  }

  lemma SavedAgrees(cfg: Config, disk: map<string, Content>, docs: map<Id, DocRecord>, m: Module,
                    permissions: map<string, string>, edits: map<Id, Content>, docs': map<Id, DocRecord>, m': Module, id: Id)
    requires ModuleOK(m) && ModuleOK(m') && id in edits && AgreesBut(disk, docs, m, permissions, edits, id)
    requires SentOnly(docs, m, docs', m', ReadyOnes(cfg, disk, docs, m)) && Saved(disk, docs', m', id)
    ensures id in m.docs && Agrees(disk, docs', m', permissions, id) && CurrentContent(m', id) == Wanted(m, edits, id)
  {
    hide ModuleOK, ReadyToUpload;
    assert LikeSent(docs[id], docs'[id]);
  }

  lemma UnsentAgrees(disk: map<string, Content>, docs: map<Id, DocRecord>, m: Module,
                     permissions: map<string, string>, edits: map<Id, Content>, docs': map<Id, DocRecord>, m': Module, id: Id)
    requires ModuleOK(m) && ModuleOK(m') && id !in edits && AgreesBut(disk, docs, m, permissions, edits, id)
    requires id in docs' && docs'[id] == docs[id] && id in m'.docs && m'.docs[id] == m.docs[id] && Keeps(m.held, m'.held)
    ensures id in m.docs && Agrees(disk, docs', m', permissions, id) && CurrentContent(m', id) == Wanted(m, edits, id)
  {
    HeldNow(m, id);
    hide ModuleOK;
  }

  // ---- what the invariant gives ------------------------------------------------

  lemma RecordFacts(w: World, id: Id)
    requires Inv(w) && id in w.docs
    ensures TrueRecord(w.mod, w.docs[id]) && w.docs[id].id == id
  {
  }

  lemma RecordsAreTrue(w: World)
    requires Inv(w)
    ensures forall id :: id in w.docs ==> w.docs[id].id == id && TrueRecord(w.mod, w.docs[id])
  {
    hide Inv, TrueRecord;
    forall id | id in w.docs ensures w.docs[id].id == id && TrueRecord(w.mod, w.docs[id]) {
      RecordFacts(w, id);
    }
  }

  lemma SameTruth(m: Module, r: DocRecord, s: DocRecord)
    requires TrueRecord(m, r) && s.id == r.id && s.version == r.version && s.checksum == r.checksum
    ensures TrueRecord(m, s)
  {
  }

  lemma DiskHeld(w: World, f: string)
    requires Inv(w) && f in w.disk
    ensures (f, w.disk[f]) in w.h.held
  {
  }

  /** A record's base stays known when only its path, folder or marking change. */
  lemma SameBase(w: World, id: Id, r: DocRecord)
    requires Inv(w) && id in w.docs
    requires r.id == id && r.version == w.docs[id].version && r.conflict == w.docs[id].conflict
    ensures BaseGiven(w, r)
  {
    assert BaseKnown(w, w.docs[id]) && TrueRecord(w.mod, w.docs[id]);
  }

  /** Once the conflict copy is gone, the person has been shown the version it held. */
  lemma ResolvedBase(w: World, id: Id)
    requires Inv(w) && id in w.docs && w.docs[id].conflict != ""
    requires LocalPath(w.docs[id].conflict).Some? ==> LocalPath(w.docs[id].conflict).value !in w.disk
    ensures BaseGiven(w, w.docs[id].(conflict := ""))
  {
    var r := w.docs[id];
    assert BaseKnown(w, r);
    assert CopyGone(w.disk, r);
    var f := LocalPath(r.conflict).value;
    assert RecordShows(w.h, id, r.version, f, r);
    assert SeenIn(w, id, r.version, f);
  }

  lemma FileBase(w: World, r: DocRecord, f: string, c: Content)
    requires r.conflict == "" && (f, c) in w.h.held && (f == r.path || IsFileOf(r.path, f))
    requires (r.id, r.version) in w.mod.held && w.mod.held[(r.id, r.version)] == c
    ensures BaseGiven(w, r)
  {
  }

  lemma CopyBase(w: World, r: DocRecord, c: Content)
    requires IsFileOf(r.conflict, r.conflict) && r.conflict != "" && (r.conflict, c) in w.h.held
    requires (r.id, r.version) in w.mod.held && w.mod.held[(r.id, r.version)] == c
    ensures BaseGiven(w, r)
  {
  }

  /** The record of a conflict has its base in the copy just written. */
  lemma CopyGiven(w: World, r: DocRecord, local: string, c: Content)
    requires Inv(w) && IsFileOf(r.path, local) && RemotePath(ConflictName(local, r.version)).Some?
    requires ConflictName(local, r.version) in w.disk && w.disk[ConflictName(local, r.version)] == c
    requires (r.id, r.version) in w.mod.held && w.mod.held[(r.id, r.version)] == c
    requires r.conflict == TrackedCopy(local, r.version)
    ensures BaseGiven(w, r)
  {
    hide IsCopyName, ConflictName, Inv, Plain, LocalPath;
    LocalPathIsPlain(r.path);
    ConflictNameIsPlain(local, r.version);
    DiskHeld(w, ConflictName(local, r.version));
    PlainIsFile(ConflictName(local, r.version));
    CopyBase(w, r, c);
  }

  lemma PlainIsFile(f: string)
    requires Plain(f)
    ensures IsFileOf(f, f) && f != ""
  {
  }

  lemma UnnamedBase(w: World, r: DocRecord)
    requires r.conflict == "" && (r.id, r.version) in w.h.unnamed && (r.id, r.version) in w.mod.held
    ensures BaseGiven(w, r)
  {
  }

  /** A document created from the file f, wherever it was filed, is based on what f held. */
  lemma FiledBase(w: World, r: DocRecord, f: string)
    requires r.conflict == "" && (r.id, r.version, f) in w.h.filed
    requires (r.id, r.version) in w.mod.held && (f, w.mod.held[(r.id, r.version)]) in w.h.held
    ensures BaseGiven(w, r)
  {
    assert SeenIn(w, r.id, r.version, f);
  }

  /** A file equal to what its record says is a version the module held. */
  lemma RecordHeld(w: World, id: Id, f: string)
    requires Inv(w) && id in w.docs && IsFileOf(w.docs[id].path, f)
    requires f in w.disk && Checksum(w.disk[f]) == w.docs[id].checksum
    ensures HeldByModule(w, f, id, w.docs[id].version)
  {
    RecordFacts(w, id);
    ChecksumInjective(w.disk[f], w.mod.held[(id, w.docs[id].version)]);
  }

  lemma SendBase(w: World, id: Id)
    requires Inv(w) && id in w.docs && w.docs[id].conflict == "" && !w.docs[id].readOnly
    ensures SendOK(w, id, w.docs[id].version)
  {
    assert BaseKnown(w, w.docs[id]);
  }

  lemma KeepsHeld(t: seq<Event>, n: nat, f: string, c: Content)
    requires IsRun(t) && 0 < n <= |t| && (f, c) in t[n - 1].w.h.held
    ensures (f, c) in Last(t).h.held
  {
    hide IsRun;
    RunGrows(t, n);
  }

  lemma NotUploadable(cfg: Config, disk: map<string, Content>, docs: map<Id, DocRecord>, m: Module, f: string)
    requires !Uploadable(cfg, f)
    ensures forall id :: ReadyToUpload(cfg, disk, docs, m, id) ==> docs[id].path != f
    ensures ModuleOK(m) ==> forall id :: Outdated(cfg, disk, docs, m, id) ==> docs[id].path != f
  {
    hide Fetchable;
  }

  lemma NothingOnDisk(cfg: Config, disk: map<string, Content>, docs: map<Id, DocRecord>, m: Module, f: string)
    requires f !in disk
    ensures forall id :: ReadyToUpload(cfg, disk, docs, m, id) ==> docs[id].path != f
    ensures ModuleOK(m) ==> forall id :: Outdated(cfg, disk, docs, m, id) ==> docs[id].path != f
  {
    hide Fetchable;
  }

  /** The record found at a path is the only one the conditions on that file can be about. */
  lemma TrackedIsIt(cfg: Config, disk: map<string, Content>, docs: map<Id, DocRecord>, m: Module, found: DocRecord,
                    f: string)
    requires TableOK(docs) && found.id in docs && docs[found.id] == found && found.path == f
    requires f in disk && Uploadable(cfg, f)
    ensures Unremarkable(cfg, disk, docs, f) ==> found.conflict == "" && Checksum(disk[f]) == found.checksum
    ensures Waiting(disk, docs, f) ==>
              found.conflict != "" && LocalPath(found.conflict).Some? && LocalPath(found.conflict).value in disk
    ensures forall id :: (ReadyToUpload(cfg, disk, docs, m, id) && docs[id].path == f) ==>
                && id == found.id && Live(m, id) && m.docs[id].version == found.version && !found.readOnly
                && (found.conflict == "" || CopyGone(disk, found)) && Checksum(disk[f]) != found.checksum
    ensures ModuleOK(m) ==> forall id :: Outdated(cfg, disk, docs, m, id) && docs[id].path == f ==> id == found.id
  {
    hide Fetchable;
  }

  lemma Untracked(cfg: Config, disk: map<string, Content>, docs: map<Id, DocRecord>, m: Module, f: string)
    requires forall id :: id in docs ==> docs[id].path != f
    ensures forall id :: ReadyToUpload(cfg, disk, docs, m, id) ==> docs[id].path != f
    ensures ModuleOK(m) ==> forall id :: Outdated(cfg, disk, docs, m, id) ==> docs[id].path != f
    ensures !Waiting(disk, docs, f)
  {
    hide Fetchable;
  }

  lemma AllHandedStay(t: seq<Event>, u: seq<Event>)
    requires IsRun(t) && IsRun(u) && t <= u
    ensures HistoryGrows(Last(t).h, Last(u).h) && ModuleGrows(Last(t).mod, Last(u).mod)
  {
    hide IsRun;
    LastInv(t);
    RunGrows(u, |t|);
    assert u[|t| - 1] == t[|t| - 1];
  }

  lemma HandedStays(t: seq<Event>, u: seq<Event>)
    requires IsRun(t) && IsRun(u) && t <= u
    ensures Last(t).h.handed <= Last(u).h.handed
  {
    AllHandedStay(t, u);
  }

  lemma NotTracked(cfg: Config, disk: map<string, Content>, docs: map<Id, DocRecord>, m: Module,
                   permissions: map<string, string>, id: Id)
    requires ModuleOK(m) && InStep(cfg, disk, docs, m, permissions) && id !in docs
    ensures !(Live(m, id) && InScope(cfg, m.docs[id].path) && LocalPath(m.docs[id].path).Some?)
  {
  }

  lemma HeldGrows(m: Module, n: Module)
    requires ModuleGrows(m, n)
    ensures Keeps(m.held, n.held)
  {
  }

  /** What an answer about a document tells. */
  lemma GetTells(cfg: Config, m: Module, id: Id)
    requires ModuleOK(m)
    ensures var (e, d, c) := GetAnswer(m, id);
            && (e.Fine? || e == Refused(DocumentNotFound))
            && (e.Fine? ==> d.id == id && IsVersion(m, id, d.version, c) && d.checksum in {"", Checksum(c)}
                            && (id, d.path) in m.placed)
            && (ShownTo(cfg, m, id) <==> e.Fine? && !d.deleted && InScope(cfg, d.path))
  {
    hide InScope;
  }

  lemma AnswerHeard(k: Heard, id: Id, told: bool, w: World)
    ensures var n := HeardAfter(k, Answered(id, told), w);
            && n.cfg == k.cfg && n.taken == k.taken && n.listed == k.listed && id in n.answered
            && (told && !ShownTo(k.cfg, w.mod, id) ==> id in n.unseen)
  {
    hide ShownTo;
  }

  lemma ListHeard(k: Heard, prefix: string, w: World)
    ensures HeardAfter(k, ListedUnder(prefix), w) == k.(listed := k.listed[prefix := Under(w.mod, prefix)])
  {
  }

  lemma TakenUp(k: Heard, c: Change, w: World)
    ensures var n := HeardAfter(k, Taken(c), w); n.taken == Some(c) && n.cfg == k.cfg
  {
  }

  lemma DeletionHeard(k: Heard, id: Id, version: nat, w: World)
    ensures var n := HeardAfter(k, Announced(id, version), w);
            n.taken == k.taken && n.cfg == k.cfg && (DeletionApplies(w.docs, id, version) ==> Gone(n, id))
  {
    hide DeletionApplies, Unlisted;
  }

  lemma NotLiveNotShown(cfg: Config, m: Module, id: Id)
    ensures !Live(m, id) ==> !ShownTo(cfg, m, id)
  {
  }

  lemma UpdateFinds(m: Module, id: Id, base: nat, content: Content, bump: nat)
    requires ModuleOK(m)
    ensures var e := UpdateAnswer(m, id, base, content, bump).0;
            && (e.Fine? || e in {Refused(DocumentNotFound), Refused(VersionConflict)})
            && (e == Refused(DocumentNotFound) <==> !Live(m, id))
  {
    hide ModuleOK;
  }

  lemma CreateAnswers(m: Module, id: Id, folderId: string, name: string, content: Content, bump: nat, filed: Option<string>)
    requires ModuleOK(m)
    ensures var e := CreateAnswer(m, id, folderId, name, content, bump, filed).0; e.Fine? || e == Refused(AlreadyExists)
  {
    if id in m.docs {
      CurrentIsHeld(m, id);
    }
    hide ModuleOK;
  }

  /** The name `moveAside` falls back to: the clock is read when its name is free. */
  method FreeStamp(dest: string, disk: map<string, Content>) returns (time: nat)
    ensures StampedPath(dest, time) !in disk
  {
    time := 0;
    ghost var tried: set<string> := {};
    while StampedPath(dest, time) in disk
      invariant tried <= disk.Keys && |tried| == time
      invariant forall k: nat :: StampedPath(dest, k) in tried ==> k < time
      decreases |disk.Keys| - |tried|
    {
      forall k: nat | StampedPath(dest, k) in tried + {StampedPath(dest, time)}
        ensures k < time + 1
      {
        if StampedPath(dest, k) !in tried {
          StampedInjective(dest, k, time);
        }
      }
      FewerThan(tried + {StampedPath(dest, time)}, disk.Keys);
      tried := tried + {StampedPath(dest, time)};
      time := time + 1;
    }
  }

  lemma FewerThan(a: set<string>, b: set<string>)
    requires a <= b
    ensures |a| <= |b|
  {
    assert b == a + (b - a);
  }

  class Engine {
    const cfg: Config
    const plan: seq<Turn>
    const state: State

    var disk: map<string, Content>
    var mod: Module
    var folders: map<string, RemoteFolder>
    var permissions: map<string, string>
    var lockedRetry: set<Id>
    var turn: nat
    var busy: bool

    /** The record of the run so far: every change of the disk, the state or the module adds an event. */
    var h: History
    var trace: seq<Event>

    function Now(): World
      reads this, state
    {
      World(disk, state.docs, state.lastSeq, state.lastFull, mod, busy, h)
    }

    ghost predicate Valid()
      reads this, state
    {
      IsRun(trace) && Last(trace) == Now() && Inv(Now()) && ModuleOK(mod) && TableOK(state.docs)
      && h.heard.cfg == cfg
    }

    /** Nothing else happens and every request succeeds, from here on. */
    predicate Quiet()
      reads this
    {
      turn >= |plan|
    }

    /** What every method may do: go on. */
    twostate predicate Onward()
      reads this, state
    {
      && old(trace) <= trace && old(turn) <= turn && busy == old(busy)
      && (busy && !h.trimmed ==> mod.floor == old(mod.floor)) && (old(h.trimmed) ==> h.trimmed)
      && (old(state.lastFull) ==> state.lastFull) && old(mod.placed) <= mod.placed
    }

    /** The daemon's memory, and how far the feed has been read. */
    twostate predicate SameMemory()
      reads this, state
    {
      && folders == old(folders) && permissions == old(permissions) && lockedRetry == old(lockedRetry)
      && state.lastSeq == old(state.lastSeq) && state.lastFull == old(state.lastFull)
    }

    /** What a local step leaves alone. */
    twostate predicate Local()
      reads this, state
    {
      Onward() && SameMemory() && turn == old(turn) && mod == old(mod) && h.heard == old(h.heard)
    }

    /** What waiting for the module leaves alone. */
    twostate predicate Waited()
      reads this, state
    {
      && Onward() && SameMemory() && turn == old(turn) + 1
      && state.docs == old(state.docs)
      && (old(Quiet()) ==> disk == old(disk))
    }

    /** What the listing in hand has listed. */
    twostate predicate SameLists()
      reads this
    {
      h.heard.listed == old(h.heard.listed)
    }

    /** A daemon that starts on what an earlier one left, at whatever point that one stopped. */
    constructor (cfg: Config, plan: seq<Turn>, disk: map<string, Content>, mod: Module, state: State,
                 run: seq<Event>)
      requires IsRun(run)
      requires var w := Last(run);
               disk == w.disk && mod == w.mod && state.docs == w.docs
               && state.lastSeq == w.lastSeq && state.lastFull == w.lastFull
      ensures Valid() && this.cfg == cfg && this.plan == plan && this.state == state
      ensures this.disk == disk && this.mod == mod && turn == 0 && !busy
      ensures folders == map[] && permissions == map[] && lockedRetry == {}
      ensures trace == run + [Event(Restarted(cfg), Now())] && h.heard == Deaf(cfg)
    {
      hide StepOK, ModuleOK, TableOK, After;
      this.cfg, this.plan, this.state, this.disk, this.mod := cfg, plan, state, disk, mod;
      folders, permissions, lockedRetry, turn, busy := map[], map[], {}, 0, false;
      h, trace := Last(run).h, run;
      new;
      LastInv(run);
      RestartStep(Last(run), cfg);
      Note(Restarted(cfg));
    }

    method Note(who: Actor)
      requires IsRun(trace) && h == Last(trace).h
      requires var w := Next(Now(), who); Inv(w) && StepOK(Last(trace), who, w)
      requires if who.Restarted? then who.cfg == cfg else h.heard.cfg == cfg
      modifies this`h, this`trace
      ensures Valid() && Now() == old(Next(Now(), who))
      ensures trace == old(trace) + [Event(who, Now())]
      ensures HistoryGrows(old(h), h) && h.trimmed == (old(h.trimmed) || who.Trims?)
      ensures h.heard == HeardAfter(old(h.heard), who, Now())
    {
      hide ShownTo, DeletionApplies, Under;
      hide StepOK, Observed, RecordsTrue, BasesKnown, CursorOK, ModuleOK, TableOK, HistoryGrows;
      h := After(h, who, Now());
      LastInv(trace);
      StepHistory(Last(trace), who, Now());
      ExtendRun(trace, Event(who, Now()));
      trace := trace + [Event(who, Now())];
    }

    // ---- local steps ---------------------------------------------------------

    method WriteFile(f: string, c: Content, ghost id: Id, ghost n: nat, ghost source: (Id, nat))
      requires Valid()
      requires f in disk && !IsCopyName(f) ==> HeldByModule(Now(), f, id, n)
      requires source in mod.held && mod.held[source] == c
      modifies this
      ensures Valid() && Local() && trace == old(trace) + [Event(Daemon, Now())]
      ensures disk == old(disk)[f := c] && state.docs == old(state.docs)
    {
      hide IsRun, Inv, StepOK, After, Gone, ModuleOK, ModuleGrows, TableOK, HistoryGrows, HeldByModule;
      ModuleGrowsRefl(mod);
      WriteStep(Now(), f, c, id, n, source);
      disk := disk[f := c];
      Note(Daemon);
    }

    method RemoveFile(f: string, ghost id: Id, ghost n: nat)
      requires Valid()
      requires f in disk ==> HeldByModule(Now(), f, id, n) && Gone(h.heard, id)
      modifies this
      ensures Valid() && Local() && trace == old(trace) + [Event(Daemon, Now())]
      ensures disk == old(disk) - {f} && state.docs == old(state.docs)
    {
      hide IsRun, Inv, StepOK, After, Gone, ModuleOK, ModuleGrows, TableOK, HistoryGrows, HeldByModule;
      ModuleGrowsRefl(mod);
      RemoveStep(Now(), f, id, n);
      disk := disk - {f};
      Note(Daemon);
    }

    method RenameFile(from: string, to: string, ghost id: Id, ghost path: string)
      requires Valid()
      requires from in disk && to !in disk && MayGo(Now(), from, to, id, path)
      modifies this
      ensures Valid() && Local() && trace == old(trace) + [Event(Daemon, Now())]
      ensures disk == MoveFile(old(disk), from, to) && state.docs == old(state.docs)
    {
      hide IsRun, Inv, StepOK, After, Gone, ModuleOK, ModuleGrows, TableOK, HistoryGrows, MayGo;
      ModuleGrowsRefl(mod);
      RenameStep(Now(), from, to, id, path);
      disk := (disk - {from})[to := disk[from]];
      Note(Daemon);
    }

    method PutDoc(r: DocRecord)
      requires Valid()
      requires TrueRecord(mod, r) && BaseGiven(Now(), r)
      modifies this, state
      ensures Valid() && Local() && trace == old(trace) + [Event(Daemon, Now())]
      ensures state.pendingNew == old(state.pendingNew)
      ensures disk == old(disk) && state.docs == Put(old(state.docs), r)
    {
      hide IsRun, Inv, StepOK, After, Gone, ModuleOK, ModuleGrows, TableOK, HistoryGrows, BaseGiven, Put;
      ModuleGrowsRefl(mod);
      PutStep(Now(), r);
      state.PutDoc(r);
      Note(Daemon);
    }

    method DeleteDoc(id: Id)
      requires Valid() && (id in state.docs ==> Gone(h.heard, id))
      modifies this, state
      ensures Valid() && Local() && trace == old(trace) + [Event(Daemon, Now())]
      ensures disk == old(disk) && state.docs == old(state.docs) - {id}
    {
      hide IsRun, Inv, StepOK, After, Gone, ModuleOK, ModuleGrows, TableOK, HistoryGrows;
      ModuleGrowsRefl(mod);
      DropStep(Now(), id);
      state.DeleteDoc(id);
      Note(Daemon);
    }

    // ---- waiting for the module ----------------------------------------------

    /** What the person and everybody else do in the meantime. A move the module's contract does not
      * allow does not happen. */
    method Play(moves: seq<Move>)
      requires Valid()
      modifies this
      ensures Valid() && Onward() && SameMemory() && turn == old(turn) && h.heard == old(h.heard)
      ensures state.docs == old(state.docs) && Idle(old(trace), trace)
      ensures moves == [] ==> disk == old(disk) && mod == old(mod) && trace == old(trace)
      ensures |moves| == 1 && moves[0].PersonMakes? ==>
                disk == moves[0].disk && mod == old(mod) && trace == old(trace) + [Event(Person, Now())]
      ensures |moves| == 1 && moves[0].OthersMake? && ModuleGrows(old(mod), moves[0].mod) && moves[0].mod.floor == old(mod.floor)
              ==> disk == old(disk) && mod == moves[0].mod && trace == old(trace) + [Event(Others, Now())]
    {
      hide IsRun, Inv, StepOK, After, ModuleOK, ModuleGrows, TableOK, HistoryGrows, Idle;
      IdleAtFirst(trace);
      for i := 0 to |moves|
        invariant Valid() && Onward() && SameMemory() && turn == old(turn) && h.heard == old(h.heard)
        invariant state.docs == old(state.docs) && Idle(old(trace), trace)
        invariant i == 0 ==> disk == old(disk) && mod == old(mod) && trace == old(trace)
        invariant i == |moves| == 1 && moves[0].PersonMakes? ==>
                    disk == moves[0].disk && mod == old(mod) && trace == old(trace) + [Event(Person, Now())]
        invariant i == |moves| == 1 && moves[0].OthersMake? && ModuleGrows(old(mod), moves[0].mod)
                  && moves[0].mod.floor == old(mod.floor) ==>
                    disk == old(disk) && mod == moves[0].mod && trace == old(trace) + [Event(Others, Now())]
      {
        ghost var t := trace;
        match moves[i] {
          case PersonMakes(d) => Edit(d);
          case OthersMake(m) =>
            if ModuleGrows(mod, m) {
              Change(m);
            } else {
              IdleAtFirst(trace);
            }
        }
        IdleOn(old(trace), t, trace);
      }
    }

    /** The person leaves the folder as they like. */
    method Edit(d: map<string, Content>)
      requires Valid()
      modifies this
      ensures Valid() && Onward() && SameMemory() && turn == old(turn)
      ensures state.docs == old(state.docs) && disk == d && mod == old(mod) && h.heard == old(h.heard)
      ensures trace == old(trace) + [Event(Person, Now())] && Idle(old(trace), trace)
    {
      hide IsRun, Inv, StepOK, After, ModuleOK, ModuleGrows, TableOK, HistoryGrows, Idle;
      PersonStep(Now(), d);
      disk := d;
      Note(Person);
      IdleOne(old(trace), Event(Person, Now()));
    }

    /** Others change the module. */
    method Change(m: Module)
      requires Valid() && ModuleGrows(mod, m)
      modifies this
      ensures Valid() && Onward() && SameMemory() && turn == old(turn)
      ensures state.docs == old(state.docs) && disk == old(disk) && mod == m && h.heard == old(h.heard)
      ensures trace == old(trace) + [Event(OtherActor(old(Now()), m), Now())] && Idle(old(trace), trace)
    {
      hide IsRun, Inv, StepOK, ModuleOK, TableOK, KeepsWork, Idle;
      OthersStep(Now(), m);
      var actor := OtherActor(Now(), m);
      mod := m;
      Note(actor);
      IdleOne(old(trace), Event(actor, Now()));
    }

    /** The daemon hears something. */
    method Hear(who: Actor)
      requires Valid() && IsHearing(who)
      modifies this
      ensures Valid() && Onward() && SameMemory() && turn == old(turn)
      ensures state.docs == old(state.docs) && disk == old(disk) && mod == old(mod)
      ensures trace == old(trace) + [Event(who, Now())] && Idle(old(trace), trace)
      ensures h.heard == HeardAfter(old(h.heard), who, Now())
    {
      hide IsRun, Inv, StepOK, After, ModuleOK, TableOK, HistoryGrows, HeardAfter, Idle;
      HearingStep(Now(), who);
      Note(who);
      IdleOne(old(trace), Event(who, Now()));
    }

    method BeginCall() returns (t: Turn)
      requires Valid()
      modifies this
      ensures Valid() && Waited() && h.heard == old(h.heard) && Idle(old(trace), trace)
      ensures t == TurnAt(plan, old(turn))
      ensures old(Quiet()) ==> t == QUIET && mod == old(mod) && trace == old(trace)
    {
      hide IsRun, Inv, ModuleOK, TableOK, Idle;
      t := TurnAt(plan, turn);
      turn := turn + 1;
      Play(t.before);
    }

    /** The current version of a document, or the module's refusal. */
    method Get(id: Id) returns (e: Err, d: RemoteDoc, content: Content)
      requires Valid()
      modifies this
      ensures Valid() && Waited() && SameLists() && Idle(old(trace), trace)
      ensures e.Unreachable? <==> LostIn(plan, old(turn), turn)
      ensures match TurnAt(plan, old(turn)).fault
              case Refuses(code) => e == Refused(Reason(code))
              case NoFault => e.Fine? || e == Refused(DocumentNotFound)
              case _ => e.Unreachable?
      ensures !e.Unreachable? ==> id in h.heard.answered && AnswerIn(old(trace), trace, id)
      ensures h.heard.taken == old(h.heard.taken)
      ensures e == Refused(DocumentNotFound) ==> id in h.heard.unseen
      ensures e.Fine? ==> (d.deleted || !InScope(cfg, d.path) ==> id in h.heard.unseen)
      ensures e.Fine? ==> d.id == id && IsVersion(mod, id, d.version, content)
      ensures e.Fine? ==> d.checksum in {"", Checksum(content)} && (d.id, d.path) in mod.placed
      ensures old(Quiet()) ==>
                && mod == old(mod) && (e, d, content) == GetAnswer(mod, id)
                && trace == old(trace) + [Event(Answered(id, true), Now())]
    {
      hide IsRun, Inv, TableOK, Idle, LostIn, InScope, HeardAfter, GetAnswer, ModuleOK, ModuleGrows, ShownTo, AnswerIn;
      var t := BeginCall();
      OneLost(plan, old(turn));
      e, d, content := Unreachable, NO_DOC, "";
      ghost var asked := trace;
      IdleAtFirst(trace);
      match t.fault {
        case NoFault =>
          var a := GetAnswer(mod, id);
          e, d, content := a.0, a.1, a.2;
          GetTells(cfg, mod, id);
          ghost var k := h.heard;
          Hear(Answered(id, true));
          AnswerHeard(k, id, true, Now());
        case Refuses(code) =>
          e := Refused(Reason(code));
          ghost var k := h.heard;
          Hear(Answered(id, false));
          AnswerHeard(k, id, false, Now());
        case _ =>
      }
      IdleOn(old(trace), asked, trace);
      ghost var heard := trace;
      EndCall(t);
      if !e.Unreachable? {
        AnswerNoted(old(trace), asked, heard, trace, id);
      }
      IdleOn(old(trace), heard, trace);
    }

    /** Every readable live document under a prefix. */
    method ListDocuments(prefix: string) returns (e: Err, ds: map<Id, RemoteDoc>)
      requires Valid()
      modifies this
      ensures Valid() && Waited() && Idle(old(trace), trace)
      ensures e.Unreachable? <==> LostIn(plan, old(turn), turn)
      ensures e.Fine? <==> TurnAt(plan, old(turn)).fault.NoFault?
      ensures e.Refused? ==> TurnAt(plan, old(turn)).fault == Refuses(e.code)
      ensures !e.Failed?
      ensures AllPlaced(mod, ds)
      ensures if e.Fine? then
                && h.heard == old(h.heard).(listed := old(h.heard).listed[prefix := ds.Keys])
                && exists at :: |old(trace)| <= at < |trace| && ListedAt(trace, at, prefix, ds)
              else h.heard == old(h.heard)
      ensures old(Quiet()) ==>
                && mod == old(mod) && e.Fine? && ds == ListAnswer(mod, prefix)
                && trace == old(trace) + [Event(ListedUnder(prefix), Now())]
    {
      hide IsRun, Inv, TableOK, ModuleGrows, Idle, LostIn, HeardAfter, Under, ModuleOK, Live, AllPlaced, ListAnswer;
      var t := BeginCall();
      OneLost(plan, old(turn));
      ghost var asked := trace;
      IdleAtFirst(trace);
      e, ds := Unreachable, map[];
      match t.fault {
        case NoFault =>
          e, ds := Fine, ListAnswer(mod, prefix);
          ListKeys(mod, prefix);
          ListPlaced(mod, prefix);
          Hear(ListedUnder(prefix));
          ListHeard(old(h.heard), prefix, Now());
        case Refuses(code) => e := Refused(code);
        case _ =>
      }
      IdleOn(old(trace), asked, trace);
      ghost var heard, placed := trace, mod;
      Play(t.after);
      StillPlaced(placed, mod, ds);
      IdleOn(old(trace), heard, trace);
      if e.Fine? {
        assert trace[|asked|] == heard[|asked|];
        assert ListedAt(trace, |asked|, prefix, ds);
      }
    }

    /** Every readable folder under a prefix, which a module may refuse to a person. */
    method ListFolders(prefix: string) returns (e: Err, fs: map<string, RemoteFolder>)
      requires Valid()
      modifies this
      ensures Valid() && Waited() && h.heard == old(h.heard) && Idle(old(trace), trace)
      ensures e.Unreachable? <==> LostIn(plan, old(turn), turn)
      ensures match TurnAt(plan, old(turn)).fault
              case Refuses(code) => e == Refused(code)
              case NoFault => e.Fine? || e == Refused(PermissionDenied)
              case _ => e.Unreachable?
      ensures old(Quiet()) ==>
                && mod == old(mod) && trace == old(trace)
                && if mod.refusesFolders then e == Refused(PermissionDenied) else e.Fine? && fs == FoldersUnder(mod, prefix)
    {
      hide IsRun, Inv, TableOK, ModuleGrows, ModuleOK, Idle, LostIn;
      var t := BeginCall();
      OneLost(plan, old(turn));
      fs := map[];
      match t.fault {
        case NoFault =>
          if mod.refusesFolders {
            e := Refused(PermissionDenied);
          } else {
            e, fs := Fine, FoldersUnder(mod, prefix);
          }
        case Refuses(code) => e := Refused(code);
        case _ => e := Unreachable;
      }
      ghost var asked := trace;
      Play(t.after);
      IdleOn(old(trace), asked, trace);
    }

    /** The module takes what the daemon sent. */
    method Take(m: Module)
      requires Valid() && ModuleGrows(mod, m) && m.floor == mod.floor
      modifies this
      ensures Valid() && Onward() && SameMemory() && turn == old(turn) && h.heard == old(h.heard)
      ensures state.docs == old(state.docs) && disk == old(disk) && mod == m
    {
      hide IsRun, Inv, StepOK, After, TableOK, HistoryGrows, KeepsWork;
      SaveStep(Now(), m);
      mod := m;
      Note(Daemon);
    }

    method EndCall(t: Turn)
      requires Valid()
      modifies this
      ensures Valid() && Onward() && SameMemory() && turn == old(turn) && h.heard == old(h.heard)
      ensures state.docs == old(state.docs) && Idle(old(trace), trace)
      ensures t == QUIET ==> disk == old(disk) && mod == old(mod) && trace == old(trace)
      ensures ModuleGrows(old(mod), mod) && Keeps(old(mod.held), mod.held)
    {
      hide IsRun, Inv, StepOK, After, ModuleGrows, ModuleOK, TableOK, HistoryGrows, Idle;
      LastInv(trace);
      ghost var n := |trace|;
      Play(t.after);
      RunGrows(trace, n);
      HeldGrows(trace[n - 1].w.mod, mod);
    }

    method Send(id: Id, base: nat)
      requires Valid() && SendOK(Now(), id, base)
      modifies this
      ensures Valid() && Local() && disk == old(disk) && state.docs == old(state.docs)
      ensures trace == old(trace) + [Event(Sent(id, base), Now())]
    {
      hide IsRun, Inv, StepOK, After, ModuleGrows, ModuleOK, TableOK, HistoryGrows, SendOK;
      SentStep(Now(), id, base);
      Note(Sent(id, base));
    }

    /** Saves content over a version. A lost reply may or may not have been a save. */
    method Update(id: Id, base: nat, content: Content) returns (e: Err, v: nat)
      requires Valid() && SendOK(Now(), id, base)
      modifies this
      ensures Valid() && Waited() && SameLists() && h.heard.taken == old(h.heard.taken)
      ensures e.Unreachable? <==> LostIn(plan, old(turn), turn)
      ensures match TurnAt(plan, old(turn)).fault
              case Refuses(code) => e == Refused(Reason(code))
              case NoFault => e.Fine? || e in {Refused(DocumentNotFound), Refused(VersionConflict)}
              case _ => e.Unreachable?
      ensures e == Refused(DocumentNotFound) ==> id in h.heard.unseen
      ensures e.Fine? ==> IsVersion(mod, id, v, content)
      ensures SendsFirst(old(trace), trace, id, base, old(disk), old(state.docs))
      ensures old(Quiet()) ==> (e, v, mod) == UpdateAnswer(old(mod), id, base, content, 0)
    {
      hide IsRun, Inv, ModuleGrows, ModuleOK, TableOK, HistoryGrows, SendOK, UpdateAnswer, LostIn;
      Send(id, base);
      ghost var t := trace;
      e, v := RequestUpdate(id, base, content);
      assert trace[|old(trace)|] == t[|old(trace)|];
    }

    method RequestUpdate(id: Id, base: nat, content: Content) returns (e: Err, v: nat)
      requires Valid()
      modifies this
      ensures Valid() && Waited() && SameLists() && h.heard.taken == old(h.heard.taken)
      ensures e.Unreachable? <==> LostIn(plan, old(turn), turn)
      ensures match TurnAt(plan, old(turn)).fault
              case Refuses(code) => e == Refused(Reason(code))
              case NoFault => e.Fine? || e in {Refused(DocumentNotFound), Refused(VersionConflict)}
              case _ => e.Unreachable?
      ensures e == Refused(DocumentNotFound) ==> id in h.heard.unseen
      ensures e.Fine? ==> IsVersion(mod, id, v, content)
      ensures old(Quiet()) ==> (e, v, mod) == UpdateAnswer(old(mod), id, base, content, 0)
    {
      hide IsRun, Inv, ModuleGrows, ModuleOK, TableOK, HistoryGrows, UpdateAnswer, LostIn, InScope, HeardAfter, ShownTo;
      var t := BeginCall();
      OneLost(plan, old(turn));
      e, v := Unreachable, 0;
      if t.fault.Refuses? {
        e := Refused(Reason(t.fault.code));
      } else if !t.fault.RequestLost? {
        UpdateGrows(mod, id, base, content, t.bump);
        UpdateFinds(mod, id, base, content, t.bump);
        var a := UpdateAnswer(mod, id, base, content, t.bump);
        if t.fault.NoFault? {
          e, v := a.0, a.1;
          NotLiveNotShown(cfg, mod, id);
          ghost var k := h.heard;
          Hear(Answered(id, true));
          AnswerHeard(k, id, true, Now());
        }
        Take(a.2);
      }
      EndCall(t);
    }

    method Create(id: Id, folderId: string, name: string, content: Content) returns (e: Err, d: RemoteDoc)
      requires Valid()
      modifies this
      ensures Valid() && Waited() && SameLists() && h.heard.taken == old(h.heard.taken)
      ensures e.Unreachable? <==> LostIn(plan, old(turn), turn)
      ensures match TurnAt(plan, old(turn)).fault
              case Refuses(code) => e == Refused(code)
              case NoFault => e.Fine? || e == Refused(AlreadyExists)
              case _ => e.Unreachable?
      ensures e.Fine? ==> d.id == id && IsVersion(mod, id, d.version, content)
      ensures old(Quiet()) ==> (e, d, mod) == CreateAnswer(old(mod), id, folderId, name, content, 0, None)
    {
      hide IsRun, Inv, ModuleGrows, ModuleOK, TableOK, HistoryGrows, CreateAnswer, LostIn;
      var t := BeginCall();
      OneLost(plan, old(turn));
      e, d := Unreachable, NO_DOC;
      match t.fault {
        case Refuses(code) => e := Refused(code);
        case RequestLost =>
        case _ =>
          CreateGrows(mod, id, folderId, name, content, t.bump, t.filed);
          CreateAnswers(mod, id, folderId, name, content, t.bump, t.filed);
          var a := CreateAnswer(mod, id, folderId, name, content, t.bump, t.filed);
          Take(a.2);
          if t.fault.NoFault? {
            e, d := a.0, a.1;
          }
      }
      EndCall(t);
    }

    /** One page of the feed; `asked` is the module at the moment it answered. */
    method Changes(since: int) returns (e: Err, page: Page, ghost asked: Module)
      requires Valid() && 0 <= since
      modifies this
      ensures Valid() && Waited() && h.heard == old(h.heard)
      ensures e.Unreachable? <==> LostIn(plan, old(turn), turn)
      ensures ModuleOK(asked) && ModuleGrows(old(mod), asked) && ModuleGrows(asked, mod)
      ensures busy && !h.trimmed ==> asked.floor == mod.floor && asked.floor == old(mod.floor)
      ensures e.Fine? ==> PageOK(asked, since, page)
      ensures e == Refused(InvalidCursor) ==> since == 0 || since < LastTrimmed(asked)
      ensures TurnAt(plan, old(turn)).fault.NoFault? ==> e.Fine? || (e == Refused(InvalidCursor) && 0 < since)
      ensures old(Quiet()) ==> mod == old(mod) == asked && (e, page) == ChangesAnswer(mod, since, 499, 0)
    {
      hide IsRun, Inv, ModuleGrows, TableOK, HistoryGrows, ChangesAnswer, PageOK, LostIn;
      var t := BeginCall();
      OneLost(plan, old(turn));
      AllHandedStay(old(trace), trace);
      e, page := Unreachable, Page([], 0, false);
      asked := mod;
      match t.fault {
        case NoFault =>
          ChangesContract(mod, since, t.size, t.upTo);
          var a := ChangesAnswer(mod, since, t.size, t.upTo);
          e, page := a.0, a.1;
        case Refuses(code) =>
          // A cursor is refused as invalid only when it is, or at the very start.
          e := Refused(if code.InvalidCursor? && since != 0 then OtherCode else code);
        case _ =>
      }
      EndCall(t);
    }

    // ---- following the module ------------------------------------------------

    /** Moves a file under `.sin-acceso`, never overwriting. */
    method MoveAside(f: string, ghost id: Id) returns (dest: string)
      requires Valid() && f in disk && HasPrefix(f, "/")
      requires id in state.docs && IsFileOf(state.docs[id].path, f) && Gone(h.heard, id)
      modifies this
      ensures Valid() && Local() && state.docs == old(state.docs)
      ensures InNoAccess(dest) && dest !in old(disk) && disk == MoveFile(old(disk), f, dest)
    {
      hide IsRun, Inv, ModuleOK, ModuleGrows, TableOK, HistoryGrows, IsCopyName, StampedPath, Gone, LocalPath;
      dest := AsidePath(f);
      AsideIsNoAccess(f);
      if dest in disk {
        var time := FreeStamp(dest, disk);
        StampedIsNoAccess(dest, time);
        StampedKeepsName(dest, time);
        dest := StampedPath(dest, time);
      } else if !IsCopyName(f) {
        AsideKeepsName(f);
      }
      RenameFile(f, dest, id, "");
    }

    /** A document that left the person's sight: its file goes aside, its record goes. */
    method NoLongerReadable(rec: DocRecord) returns (ghost dest: string)
      requires Valid() && rec.id in state.docs && state.docs[rec.id] == rec && Gone(h.heard, rec.id)
      modifies this, state
      ensures Valid() && Local()
      ensures state.docs == old(state.docs) - {rec.id}
      ensures match LocalPath(rec.path)
              case None => disk == old(disk)
              case Some(f) =>
                if f in old(disk)
                then InNoAccess(dest) && dest !in old(disk) && disk == MoveFile(old(disk), f, dest)
                else disk == old(disk)
      ensures MovedAside(old(disk), disk, rec.path)
    {
      hide IsRun, Inv, ModuleOK, ModuleGrows, TableOK, HistoryGrows, InNoAccess, Gone;
      dest := "";
      match LocalPath(rec.path) {
        case Some(f) =>
          if f in disk {
            dest := MoveAside(f, rec.id);
          }
        case None =>
      }
      DeleteDoc(rec.id);
    }

    /** A document was deleted: its file goes with it if it is as recorded, and aside if it is not.
      * A record already past the deleted version means the deletion was undone. */
    method RemoteDeleted(id: Id, version: nat)
      requires Valid() && (DeletionApplies(state.docs, id, version) ==> Gone(h.heard, id))
      modifies this, state
      ensures Valid() && Local() && !DeletionApplies(state.docs, id, version)
      ensures DeletionFollowed(old(disk), old(state.docs), disk, state.docs, id, version)
    {
      hide IsRun, Inv, ModuleOK, ModuleGrows, TableOK, HistoryGrows, InNoAccess, HeldByModule, LocalPath, Gone;
      if id !in state.docs {
        return;
      }
      var rec := state.docs[id];
      RecordFacts(Now(), id);
      if version > 0 && rec.version > version {
        return;
      }
      match LocalPath(rec.path) {
        case None =>
        case Some(f) =>
          if f in disk {
            if Checksum(disk[f]) == rec.checksum {
              RecordHeld(Now(), id, f);
              RemoveFile(f, id, rec.version);
            } else {
              var _ := NoLongerReadable(rec);
              return;
            }
          }
      }
      DeleteDoc(id);
    }

    /** A document was moved: its file and its record go along, unless the name is taken. */
    method MoveLocal(rec: DocRecord, to: string) returns (e: Err, moved: DocRecord)
      requires Valid() && rec.id in state.docs && state.docs[rec.id] == rec && (rec.id, to) in mod.placed
      modifies this, state
      ensures Valid() && Local() && Passes(old(trace), trace, [old(disk), disk], [old(state.docs), state.docs])
      ensures if Movable(old(disk), rec.path, to) then
                && e.Fine? && moved == rec.(path := to)
                && disk == MoveFile(old(disk), LocalPath(rec.path).value, LocalPath(to).value)
                && state.docs == Put(old(state.docs), moved)
              else e.Failed? && disk == old(disk) && state.docs == old(state.docs)
    {
      hide IsRun, Inv, ModuleOK, ModuleGrows, TableOK, HistoryGrows, BaseGiven, TrueRecord, LocalPath, Put;
      moved := rec;
      var from, dest := LocalPath(rec.path), LocalPath(to);
      if from.None? || dest.None? {
        return Failed, moved;
      }
      RecordFacts(Now(), rec.id);
      if from.value in disk {
        if dest.value in disk {
          return Failed, moved;
        }
        RenameFile(from.value, dest.value, rec.id, to);
      }
      moved := rec.(path := to);
      RecordFacts(Now(), rec.id);
      SameBase(Now(), rec.id, moved);
      assert TrueRecord(mod, moved) by { SameTruth(mod, rec, moved); }
      PutDoc(moved);
      e := Fine;
    }

    /** Brings a document's version of now to its file, or beside an edited one; `rec` is its record, if it
      * has one. `answer` is what the module said, and `mid` how long the run was when it was acted on: until
      * then the daemon only asked. */
    method Fetch(id: Id, rec: Option<DocRecord>)
      returns (e: Err, ghost answer: (Err, RemoteDoc, Content), ghost mid: nat)
      requires Valid()
      requires rec.Some? ==> rec.value.id == id && id in state.docs && state.docs[id] == rec.value
      modifies this, state
      ensures Valid() && Onward() && SameMemory() && SameLists() && turn == old(turn) + 1
      ensures e.Unreachable? <==> LostIn(plan, old(turn), turn)
      ensures match TurnAt(plan, old(turn)).fault
              case Refuses(code) => answer.0 == Refused(Reason(code))
              case NoFault => answer.0.Fine? || answer.0 == Refused(DocumentNotFound)
              case _ => answer.0.Unreachable?
      ensures 0 < mid <= |trace| && Idle(old(trace), trace[..mid])
      ensures !answer.0.Fine? && answer.0 != Refused(DocumentNotFound) ==>
                e == answer.0 && mid == |trace| && state.docs == old(state.docs)
      ensures answer.0 == Refused(DocumentNotFound) ==>
                && e.Fine? && (rec.None? ==> mid == |trace| && state.docs == old(state.docs))
                && (rec.Some? ==> state.docs == old(state.docs) - {id} && MovedAside(trace[mid - 1].w.disk, disk, rec.value.path))
      ensures answer.0.Fine? ==>
                && answer.1.id == id && IsVersion(mod, id, answer.1.version, answer.2)
                && FollowedAs(cfg, permissions, answer.1, answer.2, rec, trace[mid - 1].w.disk, old(state.docs), trace[..mid],
                              disk, state.docs, trace, e)
      ensures answer.0.Unreachable? <==> e.Unreachable?
      ensures !e.Unreachable? ==> id in h.heard.answered && AnswerIn(old(trace), trace, id)
      ensures h.heard.taken == old(h.heard.taken)
      ensures old(Quiet()) ==>
                && mod == old(mod) && answer == GetAnswer(mod, id)
                && QuietFetch(cfg, permissions, mod, id, rec, old(disk), old(state.docs), old(trace),
                              disk, state.docs, trace, e)
    {
      hide IsRun, Inv, ModuleGrows, TableOK, HistoryGrows, LocalPath, InScope, Put, Plain, Idle, LostIn, Unlisted;
      hide FollowedAs, MovedAside, Blocked, Fetchable, Fetched, DeletionFollowed, CurrentContent, QuietFetch, AnswerIn;
      var d, content;
      e, d, content := Get(id);
      answer := (e, d, content);
      LastInv(trace);
      ghost var t := trace;
      mid := |t|;
      if e.Fine? {
        e := Follow(d, content, rec);
      } else if e == Refused(DocumentNotFound) {
        if rec.Some? {
          var _ := NoLongerReadable(rec.value);
        }
        e := Fine;
      }
      assert trace[..mid] == t;
      if !e.Unreachable? {
        AnswerStays(old(trace), t, trace, id);
      }
      if old(Quiet()) {
        if answer.0.Fine? {
          FollowedQuietly(cfg, permissions, mod, id, rec, old(disk), old(state.docs), old(trace), disk, state.docs, trace, e,
                          t[|old(trace)|]);
        } else {
          NotFoundQuietly(cfg, permissions, mod, id, rec, old(disk), old(state.docs), old(trace), disk, state.docs, trace, e);
        }
      }
    }

    /** Does with the module's answer what the file and the record ask for. */
    method Follow(d: RemoteDoc, content: Content, rec: Option<DocRecord>) returns (e: Err)
      requires Valid() && (d.id, d.path) in mod.placed
      requires IsVersion(mod, d.id, d.version, content) && d.checksum in {"", Checksum(content)}
      requires rec.Some? ==> rec.value.id == d.id && d.id in state.docs && state.docs[d.id] == rec.value
      requires d.deleted || !InScope(cfg, d.path) ==> Gone(h.heard, d.id)
      modifies this, state
      ensures Valid() && Local() && (e.Fine? || e.Failed?)
      ensures FollowedAs(cfg, permissions, d, content, rec, old(disk), old(state.docs), old(trace), disk, state.docs, trace, e)
    {
      hide IsRun, Inv, ModuleOK, ModuleGrows, TableOK, HistoryGrows, InScope, PlacedDisk, PlacedRecord, Put;
      hide DeletionFollowed, MovedAside, Fetched, Plain, Blocked, Gone, PlacedSomewhere;
      if d.deleted {
        if rec.Some? {
          RemoteDeleted(d.id, 0);
        }
        return Fine;
      }
      if !InScope(cfg, d.path) {
        if rec.Some? {
          var _ := NoLongerReadable(rec.value);
        }
        return Fine;
      }
      e := FollowInScope(d, content, rec);
    }

    method FollowInScope(d: RemoteDoc, content: Content, rec: Option<DocRecord>) returns (e: Err)
      requires Valid() && InScope(cfg, d.path) && !d.deleted && (d.id, d.path) in mod.placed
      requires IsVersion(mod, d.id, d.version, content)
      requires d.checksum in {"", Checksum(content)}
      requires rec.Some? ==> rec.value.id == d.id && d.id in state.docs && state.docs[d.id] == rec.value
      modifies this, state
      ensures Valid() && Local() && (e.Fine? || e.Failed?)
      ensures Fetchable(cfg, old(disk), d, rec) ==>
                e.Fine? && Fetched(old(disk), old(state.docs), old(trace), disk, state.docs, trace, d, content, permissions, rec)
      ensures Blocked(old(disk), rec, d.path) ==> e.Failed? && disk == old(disk) && state.docs == old(state.docs)
      ensures rec.None? && LocalPath(d.path).None?
              ==> e.Fine? && disk == old(disk) && state.docs == old(state.docs)
      ensures !Blocked(old(disk), rec, d.path) ==>
                PlacedSomewhere(old(disk), old(state.docs), d, content, permissions, rec, disk, state.docs, e)
    {
      hide IsRun, Inv, ModuleOK, ModuleGrows, TableOK, HistoryGrows, InScope, LocalPath, ConflictName, Put, Passes;
      var known := rec;
      ghost var t := trace;
      NoSteps(t, disk, state.docs);
      if rec.Some? && rec.value.path != d.path {
        var moved;
        e, moved := MoveLocal(rec.value, d.path);
        if !e.Fine? {
          return;
        }
        known := Some(moved);
        PutFinds(old(state.docs), moved);
        PutTwice(old(state.docs), moved, FetchedRecord(old(disk), d, content, permissions, rec));
        if LocalPath(d.path).Some? {
          PutTwice(old(state.docs), moved, PlacedRecord(disk, LocalPath(d.path).value, NextRecord(d, content, permissions), content, rec));
        }
      }
      ghost var u, mid, table := trace, disk, state.docs;
      var local := LocalPath(d.path);
      if local.Some? {
        Place(d, content, local.value, known);
      } else {
        NoSteps(u, mid, table);
      }
      PassesOn(t, u, trace, old(disk), mid, disk, old(state.docs), table, state.docs);
      e := Fine;
    }

    /** Puts a version where its file is, or beside it. */
    method Place(d: RemoteDoc, content: Content, local: string, rec: Option<DocRecord>)
      requires Valid()
      requires IsFileOf(d.path, local)
      requires IsVersion(mod, d.id, d.version, content)
      requires d.checksum in {"", Checksum(content)}
      requires rec.Some? ==> rec.value.id == d.id && d.id in state.docs && state.docs[d.id] == rec.value
                             && rec.value.path == d.path
      modifies this, state
      ensures Valid() && Local() && Passes(old(trace), trace, [old(disk), disk], [old(state.docs), state.docs])
      ensures disk == PlacedDisk(old(disk), local, d.version, content, rec)
      ensures state.docs == Put(old(state.docs), PlacedRecord(old(disk), local, NextRecord(d, content, permissions),
                                                              content, rec))
    {
      hide IsRun, Inv, ModuleOK, ModuleGrows, TableOK, HistoryGrows, BaseGiven, HeldByModule, IsCopyName, ConflictName;
      hide LocalPath, Put, Passes;
      var next := DocRecord(d.id, d.path, d.folderId, d.version, d.checksum, ReadOnly(permissions, d.folderId), "");
      if next.checksum == "" {
        next := next.(checksum := Checksum(content));
      }
      if local in disk && Checksum(disk[local]) == next.checksum {
        // The file is that version already.
        ChecksumInjective(disk[local], content);
        Adopt(next, local, content);
      } else if local in disk && (rec.None? || Checksum(disk[local]) != rec.value.checksum) {
        PlaceCopy(next, local, content);
      } else {
        PlaceFile(next, local, content);
      }
    }

    method Adopt(next: DocRecord, local: string, content: Content)
      requires Valid() && IsFileOf(next.path, local) && next.conflict == ""
      requires IsVersion(mod, next.id, next.version, content)
      requires next.checksum == Checksum(content)
      requires local in disk && disk[local] == content
      modifies this, state
      ensures Valid() && Local() && Passes(old(trace), trace, [old(disk), disk], [old(state.docs), state.docs])
      ensures disk == old(disk) && state.docs == Put(old(state.docs), next)
    {
      hide IsRun, Inv, ModuleOK, ModuleGrows, TableOK, HistoryGrows, BaseGiven, Put, LocalPath, Passes;
      DiskHeld(Now(), local);
      FileBase(Now(), next, local, content);
      PutDoc(next);
      OneStep(old(trace), Event(Daemon, Now()), [old(disk), disk], [old(state.docs), state.docs]);
    }

    method PlaceFile(next: DocRecord, local: string, content: Content)
      requires Valid() && IsFileOf(next.path, local) && next.conflict == ""
      requires IsVersion(mod, next.id, next.version, content)
      requires next.checksum == Checksum(content)
      requires local in disk ==> Unedited(disk, state.docs, next.id, local) && state.docs[next.id].path == next.path
      modifies this, state
      ensures Valid() && Local() && Passes(old(trace), trace, [old(disk), disk], [old(state.docs), state.docs])
      ensures disk == old(disk)[local := content] && state.docs == Put(old(state.docs), next)
    {
      hide IsRun, Inv, ModuleOK, ModuleGrows, TableOK, HistoryGrows, Put, LocalPath, HeldByModule, IsCopyName, Passes;
      if local in disk {
        RecordHeld(Now(), next.id, local);
      }
      WriteFile(local, content, next.id, if local in disk then state.docs[next.id].version else 0, (next.id, next.version));
      ghost var t, mid, docs := trace, disk, state.docs;
      Adopt(next, local, content);
      OneStep(old(trace), Event(Daemon, t[|t| - 1].w), [old(disk), mid], [docs, state.docs]);
      PassesMore(old(trace), t, trace, [old(disk), mid], [docs, state.docs], [mid, disk], [docs, state.docs]);
    }

    /** The version goes beside the file. A copy that the record cannot name is noted as such. */
    method PlaceCopy(next: DocRecord, local: string, content: Content)
      requires Valid() && IsFileOf(next.path, local) && next.conflict == ""
      requires IsVersion(mod, next.id, next.version, content)
      requires next.checksum == Checksum(content)
      modifies this, state
      ensures Valid() && Local() && Passes(old(trace), trace, [old(disk), disk], [old(state.docs), state.docs])
      ensures disk == old(disk)[ConflictName(local, next.version) := content]
      ensures state.docs == Put(old(state.docs), next.(conflict := TrackedCopy(local, next.version)))
    {
      hide IsRun, Inv, ModuleOK, ModuleGrows, TableOK, HistoryGrows, BaseGiven, Put, LocalPath, IsCopyName, ConflictName;
      var cp := ConflictName(local, next.version);
      ConflictNameIsCopy(local, next.version);
      WriteFile(cp, content, "", 0, (next.id, next.version));
      var conflict := RemotePath(cp);
      var tracked := next.(conflict := if conflict.Some? then conflict.value else "");
      if conflict.Some? {
        CopyGiven(Now(), tracked, local, content);
      } else {
        NoteUnnamed(next.id, next.version, local);
        UnnamedBase(Now(), tracked);
      }
      PutDoc(tracked);
    }

    method NoteUnnamed(id: Id, version: nat, ghost local: string)
      requires Valid() && UnnamedCopy(Now(), id, version, local)
      modifies this
      ensures Valid() && Local() && disk == old(disk) && state.docs == old(state.docs)
      ensures trace == old(trace) + [Event(Unnamed(id, version), Now())] && (id, version) in h.unnamed
    {
      hide IsRun, Inv, StepOK, ModuleOK, ModuleGrows, TableOK, HistoryGrows, UnnamedCopy;
      UnnamedStep(Now(), id, version, local);
      Note(Unnamed(id, version));
    }

    // ---- folders -------------------------------------------------------------

    /** Each listed folder is known by its path, with its permission; what was known of others stays. */
    method LearnFolders(fs: map<string, RemoteFolder>)
      modifies this`folders, this`permissions
      ensures LearnedAll(old(folders), old(permissions), folders, permissions, fs)
    {
      hide FolderKey, Learned;
      var todo := fs.Keys;
      while todo != {}
        invariant todo <= fs.Keys
        invariant forall k :: k in fs && k !in todo ==> Learned(folders, permissions, fs, k)
        invariant old(folders).Keys <= folders.Keys && old(permissions).Keys <= permissions.Keys
        invariant forall key :: key in folders ==>
                    (key in old(folders) && folders[key] == old(folders)[key]) || ByPath(fs, key, folders[key])
        invariant forall id :: id in permissions ==>
                    (id in old(permissions) && permissions[id] == old(permissions)[id]) || ById(fs, id, permissions[id])
        decreases |todo|
      {
        var k :| k in todo;
        forall j | j in fs && (j == k || j !in todo)
          ensures Learned(folders[FolderKey(fs[k].path) := fs[k]], permissions[fs[k].id := fs[k].permission], fs, j)
        {
          LearnOne(folders, permissions, fs, j, k);
        }
        assert ByPath(fs, FolderKey(fs[k].path), fs[k]) && ById(fs, fs[k].id, fs[k].permission);
        todo := todo - {k};
        folders := folders[FolderKey(fs[k].path) := fs[k]];
        permissions := permissions[fs[k].id := fs[k].permission];
      }
    }

    /** A document tells of its folder, unless that is known already. */
    method LearnFromDocument(d: RemoteDoc)
      modifies this`folders
      ensures forall key :: key in old(folders) ==> key in folders && folders[key] == old(folders)[key]
      ensures d.folderId != "" && d.path != "" ==> FolderKey(TrimSuffix(SplitName(d.path).0, "/")) in folders
      ensures forall key :: key in folders && key !in old(folders) ==>
                var dir := TrimSuffix(SplitName(d.path).0, "/");
                d.folderId != "" && d.path != "" && key == FolderKey(dir) && folders[key] == RemoteFolder(d.folderId, dir + "/", "")
    {
      hide FolderKey;
      if d.folderId == "" || d.path == "" {
        return;
      }
      var dir := TrimSuffix(SplitName(d.path).0, "/");
      if FolderKey(dir) !in folders {
        folders := folders[FolderKey(dir) := RemoteFolder(d.folderId, dir + "/", "")];
      }
    }

    method LearnFromDocuments(ds: map<Id, RemoteDoc>)
      modifies this`folders
      ensures forall key :: key in old(folders) ==> key in folders && folders[key] == old(folders)[key]
      ensures FoldersKnown(folders, ds)
    {
      hide FolderKey;
      var todo := ds.Keys;
      while todo != {}
        invariant todo <= ds.Keys
        invariant forall id :: id in ds && id !in todo && ds[id].folderId != "" && ds[id].path != "" ==>
                    FolderKey(TrimSuffix(SplitName(ds[id].path).0, "/")) in folders
        invariant forall key :: key in old(folders) ==> key in folders && folders[key] == old(folders)[key]
        decreases |todo|
      {
        var id :| id in todo;
        todo := todo - {id};
        LearnFromDocument(ds[id]);
      }
    }

    // ---- local changes -------------------------------------------------------

    /** Handles one file after the debounce. */
    method LocalChanged(f: string) returns (e: Err)
      requires Valid()
      modifies this, state
      ensures Valid() && Onward() && state.lastSeq == old(state.lastSeq) && state.lastFull == old(state.lastFull)
      ensures e.Unreachable? <==> LostIn(plan, old(turn), turn)
      ensures Unremarkable(cfg, old(disk), old(state.docs), f) || Waiting(old(disk), old(state.docs), f)
              ==> e.Fine? && disk == old(disk) && state.docs == old(state.docs) && mod == old(mod) && SameMemory()
                  && trace == old(trace)
      ensures MarkedReadOnly(old(state.docs), f) ==>
                && e.Fine? && disk == old(disk) && mod == old(mod) && turn == old(turn) && SameMemory()
                && SameButConflicts(old(state.docs), state.docs) && NothingSent(old(trace), trace)
      ensures EditsLeave(cfg, old(disk), old(state.docs), old(mod), f, old(trace), trace)
      ensures old(Quiet()) ==>
                && Scanned(cfg, old(disk), old(state.docs), old(mod), f, disk, state.docs, mod, e)
                && OutdatedFetched(cfg, permissions, old(disk), old(state.docs), old(mod), f, disk, state.docs, mod, e)
      ensures f in old(disk) && Uploadable(cfg, f) ==>
                forall id :: id in old(state.docs) && old(state.docs)[id].path == f ==>
                               TrackedDone(cfg, permissions, old(disk), old(state.docs), old(mod), old(state.docs)[id], f, old(trace),
                                           disk, state.docs, mod, trace, e, old(Quiet()))
      ensures IsNew(cfg, old(disk), old(state.docs), f) ==>
                && NewFileTried(old(folders), old(state.pendingNew), state.pendingNew, f, old(turn), turn)
                && (old(Quiet()) ==> NewFileDone(old(folders), old(mod), old(state.pendingNew), mod, state.pendingNew, f,
                                                 old(disk)[f]))
    {
      hide IsRun, Inv, ModuleOK, ModuleGrows, TableOK, HistoryGrows, InScope, LocalPath, HiddenPath, Lower;
      hide ReadyToUpload, Waiting, Outdated, LostIn, NewFileTried, NewFileDone, TrackedDone, Scanned, OutdatedFetched;
      hide EditsLeave, Unremarkable, SameButConflicts, NothingSent;
      NoneLost(plan, turn);
      NothingToDo(cfg, permissions, disk, state.docs, mod, f, trace);
      var p := RemotePath(f);
      e := Fine;
      if p.None? || HiddenPath(f) || !InScope(cfg, f) || Lower(Ext(f)) != ".md" {
        return;
      }
      var found := state.DocByPath(f);
      if f !in disk {
        return;
      }
      if found.None? {
        NotRecorded(cfg, disk, state.docs, mod, f);
        e := CreateLocal(f, disk[f]);
        NewIsNone(cfg, permissions, old(disk), old(state.docs), old(mod), f, disk, state.docs, mod, old(trace), trace, e);
        return;
      }
      e := TrackedChanged(f, found.value);
      OnePath(old(state.docs), found.value.id, f);
      TrackedOutcome(cfg, permissions, old(disk), old(state.docs), old(mod), found.value, f, old(trace), disk, state.docs, mod,
                     trace, e, old(Quiet()));
    }

    method TrackedChanged(f: string, found: DocRecord) returns (e: Err)
      requires Valid() && found.id in state.docs && state.docs[found.id] == found && found.path == f && f in disk
      modifies this, state
      ensures Valid() && Onward() && state.lastSeq == old(state.lastSeq) && state.lastFull == old(state.lastFull)
      ensures e.Unreachable? <==> LostIn(plan, old(turn), turn)
      ensures found.readOnly || CopyWaits(old(disk), found) || Checksum(old(disk)[f]) == found.checksum ==>
                turn == old(turn) && SameMemory()
      ensures TrackedDone(cfg, permissions, old(disk), old(state.docs), old(mod), found, f, old(trace), disk, state.docs, mod,
                          trace, e, old(Quiet()))
    {
      hide IsRun, Inv, ModuleOK, ModuleGrows, TableOK, HistoryGrows, LocalPath, Put, BaseGiven, TrueRecord;
      hide FetchedDisk, FetchedRecord, Fetchable, MovedAside, LostIn, AnswerIn, SameOthers, CurrentContent, Uploaded, Outdated;
      NoneLost(plan, turn);
      e := Fine;
      if found.conflict != "" {
        var cp := LocalPath(found.conflict);
        if cp.Some? && cp.value in disk {
          return;
        }
      }
      var rec := ForgetConflict(found);
      if Checksum(disk[f]) == rec.checksum || rec.readOnly {
        return;
      }
      ghost var t, docs := trace, state.docs;
      ghost var answer;
      e, answer := Upload(rec, f);
      UploadedIsDone(cfg, permissions, old(disk), old(state.docs), docs, old(mod), found, f, old(trace), t, disk, state.docs, mod,
                     trace, e, old(Quiet()));
    }

    /** A conflict copy that is gone was merged: the record waits for it no longer. */
    method ForgetConflict(found: DocRecord) returns (rec: DocRecord)
      requires Valid() && found.id in state.docs && state.docs[found.id] == found && !CopyWaits(disk, found)
      modifies this, state
      ensures Valid() && Local() && disk == old(disk) && state.pendingNew == old(state.pendingNew)
      ensures rec == found.(conflict := "") && state.docs == old(state.docs)[found.id := rec]
      ensures NothingSent(old(trace), trace)
      ensures found.conflict == "" ==> trace == old(trace) && state.docs == old(state.docs)
    {
      hide IsRun, Inv, ModuleOK, ModuleGrows, TableOK, HistoryGrows, LocalPath, Put, BaseGiven, TrueRecord;
      rec := found;
      if rec.conflict != "" {
        RecordFacts(Now(), rec.id);
        ResolvedBase(Now(), rec.id);
        rec := rec.(conflict := "");
        SameTruth(mod, found, rec);
        PutDoc(rec);
        RecordKeepsPath(old(state.docs), found, rec);
      } else {
        PutSame(state.docs, found.id);
      }
    }

    /** Sends an edit over the version its record says, and does with the module's answer what it asks
      * for: an outdated edit is never sent over, it is fetched beside. */
    method Upload(rec: DocRecord, f: string) returns (e: Err, ghost answer: Err)
      requires Valid() && rec.id in state.docs && state.docs[rec.id] == rec
      requires rec.path == f && f in disk && rec.conflict == "" && !rec.readOnly
      modifies this, state
      ensures Valid() && Onward() && state.lastSeq == old(state.lastSeq) && state.lastFull == old(state.lastFull)
      ensures e.Unreachable? <==> LostIn(plan, old(turn), turn)
      ensures match TurnAt(plan, old(turn)).fault
              case Refuses(code) => answer == Refused(Reason(code))
              case NoFault => answer.Fine? || answer in {Refused(DocumentNotFound), Refused(VersionConflict)}
              case _ => answer.Unreachable?
      ensures Uploaded(cfg, permissions, old(disk), old(state.docs), old(mod), rec, f, old(trace), disk, state.docs, mod, trace, e,
                       old(Quiet()))
      ensures answer == Refused(VersionConflict) && !e.Unreachable? ==> AnswerIn(old(trace), trace, rec.id)
      ensures lockedRetry == old(lockedRetry) + if answer == Refused(DocumentLocked) then {rec.id} else {}
      ensures answer == Refused(DocumentLocked) || (answer.Refused? && IsRefusal(answer.code))
              ==> e.Fine? && state.docs == old(state.docs)
      ensures answer.Unreachable? ==> e.Unreachable? && state.docs == old(state.docs)
    {
      hide IsRun, Inv, ModuleGrows, ModuleOK, TableOK, HistoryGrows, Put, BaseGiven, SendOK, LocalPath;
      hide UpdateAnswer, CurrentContent, Live, Fetchable, FetchedDisk, FetchedRecord, MovedAside, SameOthers, LostIn, Unlisted, AnswerIn;
      hide Uploaded, Refetched, QuietFetch;
      var content := disk[f];
      SendBase(Now(), rec.id);
      DiskHeld(Now(), f);
      LastInv(trace);
      ghost var n := |trace|;
      var v;
      e, v := Update(rec.id, rec.version, content);
      answer := e;
      KeepsHeld(trace, n, f, content);
      ghost var t, asked, mid := trace, turn, mod;
      e := SaveAnswered(rec, f, content, e, v);
      if answer == Refused(VersionConflict) && !e.Unreachable? {
        AnswerSince(old(trace), t, trace, rec.id);
      }
      assert trace[n] == t[n];
      LostOn(plan, old(turn), asked, turn);
      if answer == Refused(VersionConflict) && old(Quiet()) && mid == old(mod) {
        FetchedAgain(cfg, permissions, mod, rec, old(disk), old(state.docs), t, disk, state.docs, trace, e);
      }
      UploadOutcome(cfg, permissions, old(disk), old(state.docs), old(mod), rec, f, old(trace), answer, v, mid,
                    disk, state.docs, mod, trace, e, old(Quiet()));
    }

    /** What a save's answer asks for. */
    method SaveAnswered(rec: DocRecord, f: string, content: Content, answer: Err, v: nat) returns (e: Err)
      requires Valid() && rec.id in state.docs && state.docs[rec.id] == rec
      requires rec.path == f && (f, content) in h.held && rec.conflict == ""
      requires answer.Fine? ==> IsVersion(mod, rec.id, v, content)
      requires answer == Refused(DocumentNotFound) ==> Gone(h.heard, rec.id)
      modifies this, state
      ensures Valid() && Onward() && state.lastSeq == old(state.lastSeq) && state.lastFull == old(state.lastFull)
      ensures answer.Fine? ==> e.Fine? && disk == old(disk) && mod == old(mod)
                               && state.docs == Put(old(state.docs), rec.(version := v, checksum := Checksum(content)))
      ensures answer == Refused(VersionConflict) && old(Quiet()) && Live(old(mod), rec.id)
              && Fetchable(cfg, old(disk), RemoteOf(old(mod), rec.id), Some(rec)) ==>
                var d, c := RemoteOf(old(mod), rec.id), CurrentContent(old(mod), rec.id);
                && e.Fine? && mod == old(mod) && disk == FetchedDisk(old(disk), d, c, Some(rec))
                && state.docs == Put(old(state.docs), FetchedRecord(old(disk), d, c, permissions, Some(rec)))
      ensures answer == Refused(VersionConflict) && old(Quiet()) ==>
                mod == old(mod) && QuietFetch(cfg, permissions, mod, rec.id, Some(rec), old(disk), old(state.docs), old(trace),
                                              disk, state.docs, trace, e)
      ensures answer == Refused(DocumentNotFound)
              ==> e.Fine? && mod == old(mod) && state.docs == old(state.docs) - {rec.id} && MovedAside(old(disk), disk, rec.path)
      ensures lockedRetry == old(lockedRetry) + if answer == Refused(DocumentLocked) then {rec.id} else {}
      ensures answer == Refused(DocumentLocked) || (answer.Refused? && IsRefusal(answer.code))
              ==> e.Fine? && state.docs == old(state.docs)
      ensures answer == Refused(VersionConflict) && !e.Unreachable? ==> AnswerIn(old(trace), trace, rec.id)
      ensures answer.Unreachable? ==> e.Unreachable? && turn == old(turn)
      ensures !answer.Unreachable? ==> (e.Unreachable? <==> LostIn(plan, old(turn), turn))
      ensures !answer.Fine? && answer !in [Refused(VersionConflict), Refused(DocumentLocked), Refused(DocumentNotFound)]
              && !(answer.Refused? && IsRefusal(answer.code))
              ==> e == answer && disk == old(disk) && state.docs == old(state.docs) && trace == old(trace)
      ensures permissions == old(permissions)
    {
      hide IsRun, Inv, ModuleGrows, ModuleOK, TableOK, HistoryGrows, Put, BaseGiven, LocalPath, LostIn, Unlisted, FollowedAs, Idle;
      hide CurrentContent, Fetchable, FetchedDisk, FetchedRecord, MovedAside, DeletionFollowed, AnswerIn;
      e := answer;
      NoneLost(plan, turn);
      match answer
      case Fine =>
        var next := rec.(version := v, checksum := Checksum(content));
        FileBase(Now(), next, f, content);
        PutDoc(next);
        PutFinds(old(state.docs), next);
      case Refused(VersionConflict) =>
        ghost var said, mid;
        e, said, mid := Fetch(rec.id, Some(rec));
      case Refused(DocumentLocked) =>
        lockedRetry := lockedRetry + {rec.id};
        e := Fine;
      case Refused(DocumentNotFound) =>
        var _ := NoLongerReadable(rec);
        e := Fine;
      case Refused(code) =>
        if IsRefusal(code) {
          e := Fine;
        }
      case _ =>
    }

    /** The folder a new file goes into, asking the module when it is not known. */
    method FolderFor(dir: string) returns (e: Err, folder: Option<RemoteFolder>)
      requires Valid()
      modifies this
      ensures Valid() && Onward() && state.docs == old(state.docs)
      ensures state.lastSeq == old(state.lastSeq) && state.lastFull == old(state.lastFull)
      ensures e.Unreachable? <==> LostIn(plan, old(turn), turn)
      ensures FolderKey(dir) in old(folders) ==>
                e.Fine? && folder == Some(old(folders)[FolderKey(dir)]) && trace == old(trace) && turn == old(turn) && mod == old(mod)
      ensures FolderKey(dir) !in old(folders) ==> turn > old(turn)
      ensures !e.Unreachable? ==>
                e.Fine? && folder == if FolderKey(dir) in folders then Some(folders[FolderKey(dir)]) else None
      ensures old(Quiet()) ==> e.Fine? && disk == old(disk) && mod == old(mod)
      ensures old(Quiet()) && FolderKey(dir) !in old(folders) ==>
                var fs := FoldersUnder(mod, TrimSuffix(dir, "/"));
                if mod.refusesFolders then folder.None?
                else if folder.Some? then ByPath(fs, FolderKey(dir), folder.value)
                else forall k :: k in fs ==> FolderKey(fs[k].path) != FolderKey(dir)
    {
      hide IsRun, Inv, ModuleOK, ModuleGrows, TableOK, HistoryGrows, FolderKey, ByPath, FoldersUnder, LostIn;
      NoneLost(plan, turn);
      e, folder := Fine, None;
      if FolderKey(dir) !in folders {
        var fs;
        e, fs := ListFolders(TrimSuffix(dir, "/"));
        if e.Fine? {
          LearnFolders(fs);
        } else if e.Unreachable? {
          return;
        }
      }
      e := Fine;
      if FolderKey(dir) in folders {
        folder := Some(folders[FolderKey(dir)]);
      }
    }

    /** A file without a document becomes one, in a folder that is known and may be written to. */
    method CreateLocal(f: string, content: Content) returns (e: Err)
      requires Valid() && f in disk && disk[f] == content
      modifies this, state
      ensures Valid() && Onward() && state.lastSeq == old(state.lastSeq) && state.lastFull == old(state.lastFull)
      ensures e.Unreachable? <==> LostIn(plan, old(turn), turn)
      ensures NewFileTried(old(folders), old(state.pendingNew), state.pendingNew, f, old(turn), turn)
      ensures old(Quiet()) ==> NewFileDone(old(folders), old(mod), old(state.pendingNew), mod, state.pendingNew, f, content)
      ensures f in old(state.pendingNew) && f in state.pendingNew ==> state.pendingNew[f] == old(state.pendingNew)[f]
    {
      hide IsRun, Inv, ModuleOK, ModuleGrows, TableOK, HistoryGrows, FolderKey, LostIn;
      DiskHeld(Now(), f);
      LastInv(trace);
      ghost var n := |trace|;
      var r := SplitName(f);
      var folder;
      e, folder := FolderFor(r.0);
      if e.Unreachable? || folder.None? || folder.value.permission == "read" {
        return;
      }
      KeepsHeld(trace, n, f, content);
      ghost var answer, d, id;
      ghost var asked := turn;
      e, answer, d, id := CreateIn(folder.value, f, r.1, content);
      LostOn(plan, old(turn), asked, turn);
    }

    /** Asks for the creation under the id reserved for the path. The id outlives an attempt whose answer
      * was lost, so that a retry is the same creation; any final answer frees it. */
    method CreateIn(folder: RemoteFolder, f: string, name: string, content: Content)
      returns (e: Err, ghost answer: Err, ghost d: RemoteDoc, ghost id: Id)
      requires Valid() && (f, content) in h.held
      modifies this, state
      ensures Valid() && Onward() && state.lastSeq == old(state.lastSeq) && state.lastFull == old(state.lastFull)
      ensures answer.Fine? ==>
                && d.id == id && IsVersion(mod, d.id, d.version, content)
                && state.docs == Put(old(state.docs), CreatedRecord(d, f, folder.id, content))
      ensures f in old(state.pendingNew) ==> id == old(state.pendingNew)[f]
      ensures answer.Refused? && (answer.code.AlreadyExists? || IsRefusal(answer.code)) ==> e.Fine?
      ensures if Final(answer) then state.pendingNew == old(state.pendingNew) - {f}
              else e == answer && state.pendingNew == old(state.pendingNew)[f := id] && state.docs == old(state.docs)
      ensures turn == old(turn) + 1
      ensures match TurnAt(plan, old(turn)).fault
              case Refuses(code) => answer == Refused(code)
              case NoFault => answer.Fine? || answer == Refused(AlreadyExists)
              case _ => answer.Unreachable?
      ensures answer.Unreachable? <==> LostIn(plan, old(turn), turn)
      ensures e.Unreachable? <==> LostIn(plan, old(turn), turn)
      ensures old(Quiet()) ==> (answer, d, mod) == CreateAnswer(old(mod), id, folder.id, name, content, 0, None)
    {
      hide IsRun, Inv, ModuleOK, ModuleGrows, TableOK, HistoryGrows, Put, CreateAnswer, LostIn;
      LastInv(trace);
      ghost var n := |trace|;
      var reserved := state.PendingID(f, if turn < |plan| then plan[turn].newID else "");
      var made;
      e, made := Create(reserved, folder.id, name, content);
      answer, d, id := e, made, reserved;
      KeepsHeld(trace, n, f, content);
      e := CreationAnswered(f, folder.id, content, e, made);
    }

    /** What a creation's answer asks for. */
    method CreationAnswered(f: string, folderId: string, content: Content, answer: Err, d: RemoteDoc) returns (e: Err)
      requires Valid() && (f, content) in h.held
      requires answer.Fine? ==> IsVersion(mod, d.id, d.version, content)
      modifies this, state
      ensures Valid() && Local() && mod == old(mod) && disk == old(disk)
      ensures answer.Fine? ==> e.Fine? && state.docs == Put(old(state.docs), CreatedRecord(d, f, folderId, content))
      ensures answer.Refused? && (answer.code.AlreadyExists? || IsRefusal(answer.code)) ==> e.Fine?
      ensures !answer.Fine? ==> state.docs == old(state.docs)
      ensures e.Unreachable? <==> answer.Unreachable?
      ensures if Final(answer) then state.pendingNew == old(state.pendingNew) - {f}
              else e == answer && state.pendingNew == old(state.pendingNew)
    {
      hide IsRun, Inv, ModuleOK, ModuleGrows, TableOK, HistoryGrows, Put;
      e := answer;
      match answer
      case Fine =>
        state.ClearPending(f);
        Created(d, f, folderId, content);
      case Refused(code) =>
        if code.AlreadyExists? || IsRefusal(code) {
          state.ClearPending(f);
          e := Fine;
        }
      case _ =>
    }

    /** Records a document the module created from the file f, wherever the module filed it. */
    method Created(d: RemoteDoc, f: string, folderId: string, content: Content)
      requires Valid() && (f, content) in h.held
      requires IsVersion(mod, d.id, d.version, content)
      modifies this, state
      ensures Valid() && Local() && disk == old(disk) && mod == old(mod) && state.pendingNew == old(state.pendingNew)
      ensures state.docs == Put(old(state.docs), CreatedRecord(d, f, folderId, content))
      ensures |trace| > |old(trace)| && trace[|old(trace)|].who == Filed(d.id, d.version, f)
    {
      hide IsRun, Inv, ModuleOK, ModuleGrows, TableOK, HistoryGrows, Put, BaseGiven, LocalPath, StepOK;
      FiledStep(Now(), d.id, d.version, f);
      Note(Filed(d.id, d.version, f));
      var rec := CreatedRecord(d, f, folderId, content);
      FiledBase(Now(), rec, f);
      PutDoc(rec);
    }

    // ---- reconciliation ------------------------------------------------------

    /** Brings one listed document in line. */
    method ReconcileDoc(d: RemoteDoc) returns (e: Err)
      requires Valid() && (d.id, d.path) in mod.placed
      modifies this, state
      ensures Valid() && Onward() && SameMemory() && SameLists()
      ensures e.Unreachable? <==> LostIn(plan, old(turn), turn)
      ensures old(Quiet()) ==> mod == old(mod)
      ensures !InScope(cfg, d.path) || HiddenPath(d.path) || LocalPath(d.path).None? ==> trace == old(trace)
      ensures old(Quiet()) && CurrentAnswer(mod, d) && Ready(cfg, old(disk), old(state.docs), d) ==>
                && e.Fine? && disk == Settled(old(disk), old(state.docs), d, CurrentContent(mod, d.id))
                && state.docs == old(state.docs)[d.id := FreshRecord(mod, permissions, d.id)]
      ensures InScope(cfg, d.path) && !HiddenPath(d.path) && d.id in old(state.docs)
              && AtPlace(old(state.docs), d, old(state.docs)[d.id])
              && d.version <= old(state.docs)[d.id].version && LocalPath(d.path).Some? && LocalPath(d.path).value in old(disk)
              ==> && e.Fine? && disk == old(disk) && mod == old(mod)
                  && state.docs == Put(old(state.docs), Relocated(d, old(state.docs)[d.id], permissions))
      ensures InScope(cfg, d.path) && !HiddenPath(d.path) && d.id in old(state.docs)
              && OnlyMoved(old(disk), d, old(state.docs)[d.id]) ==>
                && e.Fine? && mod == old(mod)
                && MoveFollowed(old(disk), old(state.docs), old(trace), disk, state.docs, trace, d, old(state.docs)[d.id],
                                permissions)
      ensures !NotSynced(cfg, d) && d.id in old(state.docs) && old(state.docs)[d.id].path != d.path
              && !Movable(old(disk), old(state.docs)[d.id].path, d.path) ==>
                e.Failed? && disk == old(disk) && mod == old(mod) && state.docs == old(state.docs)
      ensures old(Quiet()) && !NotSynced(cfg, d) ==>
                if d.id !in old(state.docs) then
                  QuietFetch(cfg, permissions, mod, d.id, None, old(disk), old(state.docs), old(trace), disk, state.docs, trace, e)
                else if old(state.docs)[d.id].path == d.path then
                  RefreshedQuietly(cfg, permissions, mod, d, old(state.docs)[d.id], old(disk), old(state.docs), old(trace),
                                   disk, state.docs, trace, e)
                else
                  Movable(old(disk), old(state.docs)[d.id].path, d.path) ==>
                    MovedAndRefreshed(cfg, permissions, mod, d, old(state.docs)[d.id], old(disk), old(state.docs),
                                      disk, state.docs, trace, e)
      ensures !e.Unreachable? ==> Attended(cfg, old(trace), trace, d)
    {
      hide IsRun, Inv, ModuleGrows, ModuleOK, TableOK, HistoryGrows, InScope, HiddenPath, Put, BaseGiven, AnswerIn;
      hide FetchedDisk, FetchedRecord, LocalPath, MoveFile, Passes, MovedAndRefreshed, RefreshedQuietly;
      e := Fine;
      if !InScope(cfg, d.path) || HiddenPath(d.path) || LocalPath(d.path).None? {
        return;
      }
      if d.id !in state.docs {
        if d.id in mod.docs {
          CleanFetchIf(disk, d, CurrentContent(mod, d.id), permissions, None);
          PutFreeIf(state.docs, FreshRecord(mod, permissions, d.id));
        }
        ghost var said, mid;
        e, said, mid := Fetch(d.id, None);
        return;
      }
      e := ReconcileKnown(d);
    }

    /** Brings in line a listed document that has a record. */
    method ReconcileKnown(d: RemoteDoc) returns (e: Err)
      requires Valid() && (d.id, d.path) in mod.placed && d.id in state.docs && LocalPath(d.path).Some?
      modifies this, state
      ensures Valid() && Onward() && SameMemory() && SameLists()
      ensures e.Unreachable? <==> LostIn(plan, old(turn), turn)
      ensures old(Quiet()) ==> mod == old(mod)
      ensures old(Quiet()) && CurrentAnswer(mod, d) && Ready(cfg, old(disk), old(state.docs), d) ==>
                && e.Fine? && disk == Settled(old(disk), old(state.docs), d, CurrentContent(mod, d.id))
                && state.docs == old(state.docs)[d.id := FreshRecord(mod, permissions, d.id)]
      ensures d.id in old(state.docs) && AtPlace(old(state.docs), d, old(state.docs)[d.id])
              && d.version <= old(state.docs)[d.id].version && LocalPath(d.path).Some? && LocalPath(d.path).value in old(disk)
              ==> && e.Fine? && disk == old(disk) && mod == old(mod)
                  && state.docs == Put(old(state.docs), Relocated(d, old(state.docs)[d.id], permissions))
      ensures OnlyMoved(old(disk), d, old(state.docs)[d.id]) ==>
                && e.Fine? && mod == old(mod)
                && MoveFollowed(old(disk), old(state.docs), old(trace), disk, state.docs, trace, d, old(state.docs)[d.id],
                                permissions)
      ensures old(state.docs)[d.id].path != d.path && !Movable(old(disk), old(state.docs)[d.id].path, d.path) ==>
                e.Failed? && disk == old(disk) && mod == old(mod) && state.docs == old(state.docs)
      ensures old(Quiet()) ==>
                if old(state.docs)[d.id].path == d.path then
                  RefreshedQuietly(cfg, permissions, mod, d, old(state.docs)[d.id], old(disk), old(state.docs), old(trace),
                                   disk, state.docs, trace, e)
                else
                  Movable(old(disk), old(state.docs)[d.id].path, d.path) ==>
                    MovedAndRefreshed(cfg, permissions, mod, d, old(state.docs)[d.id], old(disk), old(state.docs),
                                      disk, state.docs, trace, e)
      ensures !e.Unreachable? ==> Attended(cfg, old(trace), trace, d)
    {
      hide IsRun, Inv, ModuleGrows, ModuleOK, TableOK, HistoryGrows, Put, MovedAndRefreshed, RefreshedQuietly, Attended;
      hide LocalPath, MoveFile, Ready, Unchanged, Settled, CurrentContent, MoveFollowed;
      RecordFacts(Now(), d.id);
      if state.docs[d.id].path == d.path {
        if Ready(cfg, disk, state.docs, d) && CurrentAnswer(mod, d) {
          MovedReady(cfg, disk, state.docs, d, CurrentContent(mod, d.id), FreshRecord(mod, permissions, d.id), disk, state.docs);
        }
        e := Refresh(d, state.docs[d.id]);
      } else {
        e := ReconcileMoved(d);
      }
    }

    /** Brings in line a listed document that was moved. */
    method ReconcileMoved(d: RemoteDoc) returns (e: Err)
      requires Valid() && (d.id, d.path) in mod.placed && d.id in state.docs && LocalPath(d.path).Some?
      requires state.docs[d.id].id == d.id && state.docs[d.id].path != d.path
      modifies this, state
      ensures Valid() && Onward() && SameMemory() && SameLists()
      ensures e.Unreachable? <==> LostIn(plan, old(turn), turn)
      ensures old(Quiet()) ==> mod == old(mod)
      ensures old(Quiet()) && CurrentAnswer(mod, d) && Ready(cfg, old(disk), old(state.docs), d) ==>
                && e.Fine? && disk == Settled(old(disk), old(state.docs), d, CurrentContent(mod, d.id))
                && state.docs == old(state.docs)[d.id := FreshRecord(mod, permissions, d.id)]
      ensures OnlyMoved(old(disk), d, old(state.docs)[d.id]) ==>
                && e.Fine? && mod == old(mod)
                && MoveFollowed(old(disk), old(state.docs), old(trace), disk, state.docs, trace, d, old(state.docs)[d.id],
                                permissions)
      ensures !Movable(old(disk), old(state.docs)[d.id].path, d.path) ==>
                e.Failed? && disk == old(disk) && mod == old(mod) && state.docs == old(state.docs)
      ensures old(Quiet()) && Movable(old(disk), old(state.docs)[d.id].path, d.path) ==>
                MovedAndRefreshed(cfg, permissions, mod, d, old(state.docs)[d.id], old(disk), old(state.docs),
                                  disk, state.docs, trace, e)
      ensures !e.Unreachable? ==> Attended(cfg, old(trace), trace, d)
    {
      hide IsRun, Inv, ModuleGrows, ModuleOK, TableOK, HistoryGrows, Put, RefreshedQuietly, Attended;
      hide LocalPath, MoveFile, Ready, Unchanged, Settled, CurrentContent, MoveFollowed, Passes, Relocated;
      var rec := state.docs[d.id];
      if Ready(cfg, disk, state.docs, d) {
        ReadyMoves(cfg, disk, state.docs, d);
      }
      var moved;
      e, moved := MoveLocal(rec, d.path);
      LastInv(trace);
      if !e.Fine? {
        AttendedNow(cfg, old(trace), trace, d);
        return;
      }
      PutFinds(old(state.docs), moved);
      MovedIsThere(old(disk), LocalPath(rec.path).value, LocalPath(d.path).value);
      ghost var t, mid, docs := trace, disk, state.docs;
      if Ready(cfg, old(disk), old(state.docs), d) && CurrentAnswer(mod, d) {
        MovedReady(cfg, old(disk), old(state.docs), d, CurrentContent(mod, d.id), FreshRecord(mod, permissions, d.id),
                   mid, docs);
      }
      e := Refresh(d, moved);
      if !e.Unreachable? {
        AttendedStays(cfg, old(trace), t, trace, trace, d);
      }
      if OnlyMoved(old(disk), d, rec) {
        MoveIsFollowed(old(disk), old(state.docs), old(trace), mid, docs, t, state.docs, trace, d, rec, permissions);
      }
    }

    /** Brings in line a document whose record is at its place. */
    method Refresh(d: RemoteDoc, rec: DocRecord) returns (e: Err)
      requires Valid() && LocalPath(d.path).Some? && AtPlace(state.docs, d, rec)
      modifies this, state
      ensures Valid() && Onward() && SameMemory() && SameLists()
      ensures e.Unreachable? <==> LostIn(plan, old(turn), turn)
      ensures old(Quiet()) ==> mod == old(mod)
      ensures old(Quiet()) && CurrentAnswer(mod, d) && Unchanged(cfg, old(disk), d, rec) ==>
                && e.Fine? && disk == old(disk)[d.path := CurrentContent(mod, d.id)]
                && state.docs == Put(old(state.docs), FreshRecord(mod, permissions, d.id))
      ensures d.version <= rec.version && (LocalPath(d.path).value in old(disk) || rec.conflict != "") ==>
                && e.Fine? && disk == old(disk) && mod == old(mod)
                && state.docs == Put(old(state.docs), Relocated(d, rec, permissions))
                && Passes(old(trace), trace, [old(disk), disk], [old(state.docs), state.docs])
      ensures old(Quiet()) ==>
                RefreshedQuietly(cfg, permissions, mod, d, rec, old(disk), old(state.docs), old(trace), disk, state.docs, trace, e)
      ensures !e.Unreachable? ==> Attended(cfg, old(trace), trace, d)
    {
      hide IsRun, Inv, ModuleGrows, ModuleOK, HistoryGrows, InScope, HiddenPath, Put, BaseGiven, AnswerIn, NeededNoFetch;
      hide FetchedDisk, FetchedRecord, LocalPath, Passes, NotSynced, QuietFetch, FollowedAs, Idle, LostIn;
      NoneLost(plan, turn);
      RecordFacts(Now(), d.id);
      Level(mod, rec);
      var local := LocalPath(d.path).value;
      if d.version > rec.version {
        ghost var said, mid;
        e, said, mid := Fetch(d.id, Some(rec));
        QuietlyClean(cfg, permissions, mod, d, rec, Some(rec), old(disk), old(state.docs), old(trace), disk, state.docs, trace, e);
        return;
      }
      if local !in disk && rec.conflict == "" {
        // A file the person removed is fetched again.
        ghost var said, mid;
        e, said, mid := Fetch(d.id, None);
        QuietlyClean(cfg, permissions, mod, d, rec, None, old(disk), old(state.docs), old(trace), disk, state.docs, trace, e);
        return;
      }
      e := Fine;
      LastInv(trace);
      AttendedNow(cfg, old(trace), trace, d);
      ghost var t := trace;
      Mark(d, rec);
      AttendedStays(cfg, old(trace), old(trace), t, trace, d);
      UnchangedIf(old(disk), d, CurrentContent(old(mod), d.id), rec);
    }

    /** Records the folder of a document and whether it may be written to. */
    method Mark(d: RemoteDoc, rec: DocRecord)
      requires Valid() && AtPlace(state.docs, d, rec)
      modifies this, state
      ensures Valid() && Local() && disk == old(disk)
      ensures Passes(old(trace), trace, [old(disk), disk], [old(state.docs), state.docs])
      ensures state.docs == Put(old(state.docs), Relocated(d, rec, permissions))
    {
      hide IsRun, Inv, ModuleGrows, ModuleOK, HistoryGrows, Put, BaseGiven, Passes;
      var ro := ReadOnly(permissions, d.folderId);
      if rec.readOnly != ro || rec.folderId != d.folderId {
        var next := rec.(readOnly := ro, folderId := d.folderId);
        RecordFacts(Now(), d.id);
        SameBase(Now(), d.id, next);
        PutDoc(next);
        OneStep(old(trace), Event(Daemon, Now()), [old(disk), disk], [old(state.docs), state.docs]);
      } else {
        PutSame(state.docs, d.id);
        NoSteps(trace, disk, state.docs);
      }
    }

    /** Learns every folder and permission anew. A module that refuses the list leaves both empty. */
    method RefreshFolders() returns (e: Err)
      requires Valid()
      modifies this
      ensures Valid() && Onward() && state.docs == old(state.docs) && h.heard == old(h.heard) && Idle(old(trace), trace)
      ensures e.Unreachable? <==> LostIn(plan, old(turn), turn)
      ensures old(turn) < turn <= old(turn) + |Prefixes(cfg)| && !e.Failed?
      ensures forall k :: old(turn) <= k < turn - 1 ==> TurnAt(plan, k).fault.NoFault?
      ensures match TurnAt(plan, turn - 1).fault
              case Refuses(code) => e == if RefusesFolders(code) then Fine else Refused(code)
              case NoFault => e.Fine?
              case _ => e.Unreachable?
      ensures state.lastSeq == old(state.lastSeq) && state.lastFull == old(state.lastFull)
      ensures old(Quiet()) ==> e.Fine? && disk == old(disk) && mod == old(mod)
      ensures old(Quiet()) ==> trace == old(trace)
      ensures old(Quiet()) ==>
                if mod.refusesFolders then folders == map[] && permissions == map[]
                else KnownExactly(folders, permissions, FoldersListed(mod, Prefixes(cfg)))
    {
      hide IsRun, Inv, ModuleGrows, ModuleOK, TableOK, HistoryGrows, KnownExactly, LearnedAll, FoldersListed, FoldersUnder, Idle, LostIn;
      IdleAtFirst(trace);
      NoneLost(plan, turn);
      folders, permissions := map[], map[];
      var prefixes := Prefixes(cfg);
      KnowsNothing(mod);
      for i := 0 to |prefixes|
        invariant Valid() && Onward() && state.docs == old(state.docs) && h.heard == old(h.heard) && Idle(old(trace), trace)
        invariant turn == old(turn) + i && !LostIn(plan, old(turn), turn)
        invariant forall k :: old(turn) <= k < turn ==> TurnAt(plan, k).fault.NoFault?
        invariant state.lastSeq == old(state.lastSeq) && state.lastFull == old(state.lastFull)
        invariant old(Quiet()) ==> disk == old(disk) && mod == old(mod)
        invariant old(Quiet()) ==> trace == old(trace)
        invariant old(Quiet()) && mod.refusesFolders ==> i == 0 && folders == map[] && permissions == map[]
        invariant old(Quiet()) && !mod.refusesFolders ==> KnownExactly(folders, permissions, FoldersListed(mod, prefixes[..i]))
      {
        var fs;
        ghost var known, allowed := folders, permissions;
        ghost var t, asked := trace, turn;
        e, fs := ListFolders(prefixes[i]);
        IdleOn(old(trace), t, trace);
        LostOn(plan, old(turn), asked, turn);
        if e.Refused? && RefusesFolders(e.code) {
          return Fine;
        }
        if !e.Fine? {
          return;
        }
        LearnFolders(fs);
        if old(Quiet()) {
          FoldersListedGrow(mod, prefixes, i);
          SameFolders(mod, prefixes[..i], prefixes[i]);
          LearnedMore(known, allowed, folders, permissions, FoldersListed(mod, prefixes[..i]), fs);
        }
      }
      assert prefixes[..|prefixes|] == prefixes;
      e := Fine;
    }

    /** Lists the documents under one prefix, in addition to those listed. */
    method ListOne(prefixes: seq<string>, i: nat, listed: map<Id, RemoteDoc>, ghost start: seq<Event>)
      returns (e: Err, more: map<Id, RemoteDoc>)
      requires Valid() && i < |prefixes| && AllPlaced(mod, listed) && start <= trace
      requires ListedSince(prefixes[..i], start, trace, listed) && ListedWithin(h.heard, prefixes[..i], listed.Keys)
      requires FoldersKnown(folders, listed) && Idle(start, trace)
      modifies this
      ensures Valid() && Onward() && state.docs == old(state.docs) && Idle(start, trace)
      ensures permissions == old(permissions) && AllPlaced(mod, more)
      ensures state.lastSeq == old(state.lastSeq) && state.lastFull == old(state.lastFull) && turn == old(turn) + 1
      ensures e.Unreachable? <==> LostIn(plan, old(turn), turn)
      ensures e.Fine? <==> TurnAt(plan, old(turn)).fault.NoFault?
      ensures e.Refused? ==> TurnAt(plan, old(turn)).fault == Refuses(e.code)
      ensures !e.Failed?
      ensures e.Fine? ==> ListedSince(prefixes[..i + 1], start, trace, more)
      ensures e.Fine? ==> ListedWithin(h.heard, prefixes[..i + 1], more.Keys)
      ensures e.Fine? ==> FoldersKnown(folders, more)
      ensures old(Quiet()) ==> e.Fine? && disk == old(disk) && mod == old(mod) && more == listed + ListAnswer(mod, prefixes[i])
      ensures old(Quiet()) ==> trace == old(trace) + [Event(ListedUnder(prefixes[i]), Now())]
    {
      hide IsRun, Inv, ModuleGrows, ModuleOK, TableOK, HistoryGrows, ListAnswer, Idle, LostIn, ListedSince, FolderKey;
      hide ListedAt, FoldersKnown, AllPlaced, ListedWithin;
      more := listed;
      var ds;
      ghost var t, m, k := trace, mod, h.heard;
      e, ds := ListDocuments(prefixes[i]);
      StillPlaced(m, mod, listed);
      IdleOn(start, t, trace);
      if !e.Fine? {
        return;
      }
      ghost var at :| |t| <= at < |trace| && ListedAt(trace, at, prefixes[i], ds);
      ListMore(prefixes, start, t, trace, listed, ds, i, at);
      ghost var known := folders;
      LearnFromDocuments(ds);
      FoldersKnownMore(known, folders, listed, ds);
      WithinMore(k, prefixes, i, listed.Keys, ds.Keys);
      more := listed + ds;
      assert more.Keys == listed.Keys + ds.Keys;
    }

    /** Lists every document under the synced prefixes. One request that is not answered means no listing. */
    method ListAll() returns (e: Err, listed: map<Id, RemoteDoc>)
      requires Valid()
      modifies this
      ensures Valid() && Onward() && state.docs == old(state.docs) && Idle(old(trace), trace)
      ensures permissions == old(permissions) && AllPlaced(mod, listed)
      ensures state.lastSeq == old(state.lastSeq) && state.lastFull == old(state.lastFull)
      ensures e.Unreachable? <==> LostIn(plan, old(turn), turn)
      ensures old(turn) < turn <= old(turn) + |Prefixes(cfg)|
      ensures e.Fine? ==> turn == old(turn) + |Prefixes(cfg)|
      ensures e.Fine? <==> forall k :: old(turn) <= k < turn ==> TurnAt(plan, k).fault.NoFault?
      ensures e.Refused? ==> TurnAt(plan, turn - 1).fault == Refuses(e.code)
      ensures !e.Failed?
      ensures e.Fine? ==> ListedSince(Prefixes(cfg), old(trace), trace, listed)
      ensures e.Fine? ==> ListedWithin(h.heard, Prefixes(cfg), listed.Keys)
      ensures e.Fine? ==> FoldersKnown(folders, listed)
      ensures old(Quiet()) ==>
                && e.Fine? && disk == old(disk) && mod == old(mod) && listed == Listing(mod, Prefixes(cfg))
                && Passes(old(trace), trace, [disk], [state.docs])
    {
      hide IsRun, Inv, ModuleGrows, ModuleOK, TableOK, HistoryGrows, ListAnswer, Idle, LostIn, ListedSince, Passes, FolderKey;
      hide ListedAt, FoldersKnown, Listing, AllPlaced, Prefixes, ListedWithin;
      listed := map[];
      var prefixes := Prefixes(cfg);
      NoneLost(plan, turn);
      Hear(Lists);
      NothingListed(prefixes, old(trace), trace);
      NothingSelected(mod, prefixes, h.heard, folders, listed);
      OneStep(old(trace), Event(Lists, Now()), [disk], [state.docs]);
      for i := 0 to |prefixes|
        invariant Valid() && Onward() && state.docs == old(state.docs) && Idle(old(trace), trace)
        invariant permissions == old(permissions) && AllPlaced(mod, listed)
        invariant state.lastSeq == old(state.lastSeq) && state.lastFull == old(state.lastFull)
        invariant turn == old(turn) + i && !LostIn(plan, old(turn), turn)
        invariant forall k :: old(turn) <= k < turn ==> TurnAt(plan, k).fault.NoFault?
        invariant ListedSince(prefixes[..i], old(trace), trace, listed)
        invariant ListedWithin(h.heard, prefixes[..i], listed.Keys)
        invariant FoldersKnown(folders, listed)
        invariant old(Quiet()) ==>
                    && disk == old(disk) && mod == old(mod) && listed == Listing(mod, prefixes[..i])
                    && Passes(old(trace), trace, [disk], [state.docs])
      {
        ghost var t, asked := trace, turn;
        e, listed := ListOne(prefixes, i, listed, old(trace));
        if old(Quiet()) {
          ListingGrows(mod, prefixes, i);
          PassesOne(old(trace), t, Event(ListedUnder(prefixes[i]), Now()), disk, state.docs);
        }
        LostOn(plan, old(turn), asked, turn);
        if !e.Fine? {
          return;
        }
      }
      assert prefixes[..|prefixes|] == prefixes;
      e := Fine;
    }

    /** One file of the scan. */
    method ScanOne(f: string, ghost docs0: map<Id, DocRecord>, ghost m0: Module, ghost ready: set<Id>,
                   ghost todo: set<string>)
      returns (e: Err)
      requires Valid()
      modifies this, state
      ensures Valid() && Onward() && state.lastSeq == old(state.lastSeq) && state.lastFull == old(state.lastFull)
      ensures e.Unreachable? <==> LostIn(plan, old(turn), turn)
      ensures Unremarkable(cfg, old(disk), old(state.docs), f)
              ==> e.Fine? && disk == old(disk) && state.docs == old(state.docs) && mod == old(mod) && SameMemory()
      ensures old(Quiet()) && f in todo && Progress(cfg, old(disk), old(state.docs), old(mod), docs0, m0, ready, todo)
              ==> e.Fine? && disk == old(disk) && Progress(cfg, disk, state.docs, mod, docs0, m0, ready, todo - {f})
      ensures LookedAt(cfg, old(trace), trace, f)
    {
      hide IsRun, Inv, ModuleGrows, ModuleOK, TableOK, HistoryGrows, Unremarkable, ReadyToUpload, Waiting, Saved, EditsLeave, LookedAt;
      hide Answerable, Progress, SameOthers, Live, CurrentContent, Outdated, FetchedDisk, FetchedRecord, SentSince, LostIn;
      ghost var easy := Quiet() && f in todo && Progress(cfg, disk, state.docs, mod, docs0, m0, ready, todo);
      e := LocalChanged(f);
      LastInv(old(trace));
      LookedNow(cfg, old(trace), trace, f);
      if easy {
        ScanStep(cfg, old(disk), old(state.docs), old(mod), docs0, m0, ready, todo, f, disk, state.docs, mod, e);
      }
    }

    /** Looks at every file. Undisturbed, and when every file is
      * answerable, one scan sends every edit made while nobody was listening, and changes no file. */
    method ScanLocal() returns (e: Err)
      requires Valid()
      modifies this, state
      ensures Valid() && Onward() && state.lastSeq == old(state.lastSeq) && state.lastFull == old(state.lastFull)
      ensures e.Unreachable? <==> LostIn(plan, old(turn), turn)
      ensures e.Fine? || e.Unreachable?
      ensures (forall f :: f in old(disk) ==> Unremarkable(cfg, old(disk), old(state.docs), f))
              ==> e.Fine? && disk == old(disk) && state.docs == old(state.docs) && mod == old(mod) && SameMemory()
      ensures old(Quiet()) && (forall f :: f in old(disk) ==> Answerable(cfg, old(disk), old(state.docs), old(mod), f))
              ==> && e.Fine? && disk == old(disk)
                  && forall id :: ReadyToUpload(cfg, old(disk), old(state.docs), old(mod), id) ==>
                                    Saved(disk, state.docs, mod, id)
      ensures old(Quiet()) && (forall f :: f in old(disk) ==> Answerable(cfg, old(disk), old(state.docs), old(mod), f))
              ==> SentOnly(old(state.docs), old(mod), state.docs, mod, ReadyOnes(cfg, old(disk), old(state.docs), old(mod)))
      ensures old(Quiet()) ==> e.Fine?
      ensures e.Fine? ==> AllLookedAt(cfg, old(trace), trace, old(disk).Keys)
    {
      hide IsRun, Inv, ModuleGrows, ModuleOK, TableOK, HistoryGrows, Unremarkable, ReadyToUpload, Waiting, Saved;
      hide Answerable, Progress, LostIn, SentOnly, AllLookedAt, LookedAt;
      QuietLosesNoneAfter(plan, turn);
      ghost var still := forall f :: f in disk ==> Unremarkable(cfg, disk, state.docs, f);
      ghost var easy := Quiet() && forall f :: f in disk ==> Answerable(cfg, disk, state.docs, mod, f);
      ghost var ready := ReadyOnes(cfg, disk, state.docs, mod);
      ScanBegins(cfg, disk, state.docs, mod, ready);
      e := ScanFiles(disk.Keys, still, easy, ready);
      if e.Fine? && easy {
        ScanEnds(cfg, disk, state.docs, mod, old(state.docs), old(mod), ready);
      }
    }

    /** Looks at these files. */
    method ScanFiles(files: set<string>, ghost still: bool, ghost easy: bool, ghost ready: set<Id>) returns (e: Err)
      requires Valid()
      requires still ==> forall f :: f in files ==> Unremarkable(cfg, disk, state.docs, f)
      requires easy ==> Quiet() && Progress(cfg, disk, state.docs, mod, state.docs, mod, ready, files)
      modifies this, state
      ensures Valid() && Onward() && state.lastSeq == old(state.lastSeq) && state.lastFull == old(state.lastFull)
      ensures e.Unreachable? <==> LostIn(plan, old(turn), turn)
      ensures e.Fine? || e.Unreachable?
      ensures still ==> e.Fine? && disk == old(disk) && state.docs == old(state.docs) && mod == old(mod) && SameMemory()
      ensures easy && e.Fine? ==> disk == old(disk) && Progress(cfg, disk, state.docs, mod, old(state.docs), old(mod), ready, {})
      ensures e.Fine? ==> AllLookedAt(cfg, old(trace), trace, files)
    {
      hide IsRun, Inv, ModuleGrows, ModuleOK, TableOK, HistoryGrows, Unremarkable, ReadyToUpload, Waiting, Saved;
      hide Answerable, Progress, LostIn, SentOnly, AllLookedAt, LookedAt;
      NoneLost(plan, turn);
      NothingLookedAt(cfg, trace);
      var todo := files;
      ghost var looked := {};
      while todo != {}
        invariant todo <= files && looked + todo == files
        invariant Valid() && Onward() && state.lastSeq == old(state.lastSeq) && state.lastFull == old(state.lastFull)
        invariant !LostIn(plan, old(turn), turn)
        invariant still ==> disk == old(disk) && state.docs == old(state.docs) && mod == old(mod) && SameMemory()
        invariant easy ==> disk == old(disk) && Progress(cfg, disk, state.docs, mod, old(state.docs), old(mod), ready, todo)
        invariant AllLookedAt(cfg, old(trace), trace, looked)
        decreases |todo|
      {
        var f :| f in todo;
        ghost var t, asked := trace, turn;
        e := ScanOne(f, old(state.docs), old(mod), ready, todo);
        LostOn(plan, old(turn), asked, turn);
        LookedMore(cfg, old(trace), t, trace, looked, f);
        looked := looked + {f};
        todo := todo - {f};
        if e.Unreachable? {
          return;
        }
      }
      e := Fine;
    }

    method ReconcileListed(listed: map<Id, RemoteDoc>, ghost edits: map<Id, Content>) returns (e: Err)
      requires Valid() && AllPlaced(mod, listed)
      modifies this, state
      ensures Valid() && Onward() && SameMemory() && SameLists()
      ensures e.Unreachable? <==> LostIn(plan, old(turn), turn)
      ensures e.Fine? || e.Unreachable?
      ensures e.Fine? ==> AllAttended(cfg, old(trace), trace, listed, {})
      ensures old(Quiet()) && listed == Listing(old(mod), Prefixes(cfg)) && Tidy(old(disk), old(state.docs), edits)
              && WellPlaced(cfg, old(state.docs), listed) && EditsReady(cfg, old(disk), old(state.docs), old(mod), edits) ==>
                && e.Fine? && mod == old(mod)
                && Brought(cfg, disk, state.docs, old(state.docs), edits, listed, mod, permissions, listed.Keys)
    {
      hide IsRun, Inv, ModuleGrows, ModuleOK, TableOK, HistoryGrows, Tidy, WellPlaced, Ready, Settled, AllPlaced, Brought;
      hide Listing, RemoteOf, CurrentContent, FreshRecord, LostIn, EditsReady, EditedInPlace, Wanted, Relocated, Put, Attended;
      hide AllAttended;
      ghost var easy := old(Quiet()) && listed == Listing(old(mod), Prefixes(cfg)) && Tidy(old(disk), old(state.docs), edits)
      && WellPlaced(cfg, old(state.docs), listed) && EditsReady(cfg, old(disk), old(state.docs), old(mod), edits);
      NoneLost(plan, turn);
      QuietLosesNoneAfter(plan, turn);
      BroughtNothing(cfg, disk, state.docs, edits, listed, mod, permissions);
      NoneAttended(cfg, trace, trace, listed);
      var todo := listed.Keys;
      while todo != {}
        invariant todo <= listed.Keys && Valid() && Onward() && SameMemory() && SameLists()
        invariant AllAttended(cfg, old(trace), trace, listed, todo)
        invariant !LostIn(plan, old(turn), turn)
        invariant easy ==>
                    mod == old(mod)
                    && Brought(cfg, disk, state.docs, old(state.docs), edits, listed, mod, permissions, listed.Keys - todo)
        decreases |todo|
      {
        var id :| id in todo;
        StillPlaced(old(mod), mod, listed);
        ghost var t, asked := trace, turn;
        e := BringOne(listed, id, old(state.docs), edits, todo, easy);
        LostOn(plan, old(turn), asked, turn);
        if e.Unreachable? {
          return;
        }
        OneMoreAttended(cfg, old(trace), t, trace, listed, todo, id);
        todo := todo - {id};
      }
      assert listed.Keys - {} == listed.Keys;
      e := Fine;
    }

    /** One document of the listing. */
    method BringOne(listed: map<Id, RemoteDoc>, id: Id, ghost docs0: map<Id, DocRecord>, ghost edits: map<Id, Content>,
                    ghost todo: set<Id>, ghost easy: bool)
      returns (e: Err)
      requires Valid() && id in todo && todo <= listed.Keys && (listed[id].id, listed[id].path) in mod.placed
      requires easy ==> Quiet() && listed == Listing(mod, Prefixes(cfg))
                        && Brought(cfg, disk, state.docs, docs0, edits, listed, mod, permissions, listed.Keys - todo)
      modifies this, state
      ensures Valid() && Onward() && SameMemory() && SameLists()
      ensures e.Unreachable? <==> LostIn(plan, old(turn), turn)
      ensures easy ==>
                mod == old(mod)
                && Brought(cfg, disk, state.docs, docs0, edits, listed, mod, permissions, listed.Keys - (todo - {id}))
      ensures !e.Unreachable? ==> Attended(cfg, old(trace), trace, listed[id])
    {
      hide Attended, QuietFetch, RefreshedQuietly, MovedAndRefreshed;
      hide IsRun, Inv, ModuleGrows, ModuleOK, TableOK, HistoryGrows, Tidy, WellPlaced, Ready, Settled, Brought;
      hide Listing, RemoteOf, CurrentContent, FreshRecord, LostIn, EditsReady, EditedInPlace, Relocated, Put, LocalPath;
      if easy {
        if id in state.docs {
          RecordFacts(Now(), id);
        }
        BroughtMore(cfg, disk, state.docs, docs0, edits, listed, mod, permissions, todo, id);
        if id in edits {
          BroughtRecord(cfg, disk, state.docs, docs0, edits, listed, mod, permissions, listed.Keys - todo, id);
          MarkedIsFresh(disk, state.docs, mod, permissions, id, edits[id]);
        }
      }
      e := ReconcileDoc(listed[id]);
    }

    /** Moves aside and forgets one document that is not listed. */
    method DropOne(id: Id, listed: map<Id, RemoteDoc>, ghost edits: map<Id, Content>)
      requires Valid() && id in state.docs && id !in listed && ListedWithin(h.heard, Prefixes(cfg), listed.Keys)
      modifies this, state
      ensures Valid() && Local() && state.docs == old(state.docs) - {id}
      ensures Dropping(cfg, old(disk), old(state.docs), listed, mod, permissions, edits) ==>
                Dropping(cfg, disk, state.docs, listed, mod, permissions, edits)
    {
      hide IsRun, Inv, ModuleGrows, ModuleOK, TableOK, HistoryGrows, Dropping, LocalPath, InNoAccess, MoveFile, Unlisted;
      NotWithin(h.heard, listed.Keys, id);
      ghost var easy := Dropping(cfg, disk, state.docs, listed, mod, permissions, edits);
      RecordFacts(Now(), id);
      var dest := NoLongerReadable(state.docs[id]);
      if easy {
        DroppedPath(cfg, old(disk), old(state.docs), listed, mod, permissions, edits, id);
        DroppedKeepsTracked(cfg, old(disk), old(state.docs), listed, mod, permissions, edits, id, dest, disk);
      }
    }

    /** Every record in scope without a listed document goes, its file aside. */
    method DropUnlisted(listed: map<Id, RemoteDoc>, ghost edits: map<Id, Content>)
      requires Valid() && ListedWithin(h.heard, Prefixes(cfg), listed.Keys)
      modifies this, state
      ensures Valid() && Local()
      ensures Dropping(cfg, old(disk), old(state.docs), listed, mod, permissions, edits) ==>
                Dropping(cfg, disk, state.docs, listed, mod, permissions, edits)
      ensures state.docs == old(state.docs) - (set id | id in old(state.docs) && id !in listed
                                                         && InScope(cfg, old(state.docs)[id].path))
      ensures LeavesOnlyListed(cfg, trace, listed)
    {
      hide IsRun, Inv, ModuleGrows, ModuleOK, TableOK, HistoryGrows, Dropping, InScope, OnlyListedLeft;
      ghost var gone := set id | id in state.docs && id !in listed && InScope(cfg, state.docs[id].path);
      var todo := set id | id in state.docs && id !in listed && InScope(cfg, state.docs[id].path);
      while todo != {}
        invariant todo <= gone && Valid() && Local()
        invariant state.docs == old(state.docs) - (gone - todo)
        invariant Dropping(cfg, old(disk), old(state.docs), listed, mod, permissions, edits) ==>
                    Dropping(cfg, disk, state.docs, listed, mod, permissions, edits)
        decreases |todo|
      {
        var id :| id in todo;
        DropOne(id, listed, edits);
        MinusOne(old(state.docs), gone, todo, id);
        todo := todo - {id};
      }
      OnlyListedStay(cfg, old(state.docs), state.docs, listed);
      LastInv(trace);
    }

    /** Marks a full reconciliation as finished. */
    method FinishFull()
      requires Valid()
      modifies this, state
      ensures Valid() && Onward() && disk == old(disk) && state.docs == old(state.docs) && mod == old(mod)
      ensures folders == old(folders) && permissions == old(permissions) && lockedRetry == old(lockedRetry)
      ensures turn == old(turn) && trace == old(trace) + [Event(Reconciled, Now())]
      ensures state.lastFull && h.reconciled == mod.floor && state.lastSeq == old(state.lastSeq)
    {
      hide IsRun, Inv, StepOK, ModuleGrows, ModuleOK, TableOK, HistoryGrows;
      ReconciledStep(Now());
      state.SetLastFull();
      Note(Reconciled);
    }

    /** A full reconciliation. When nothing interferes and everything is accounted for, it ends with the records
      * exactly the listed documents and every file and the module's version equal — the person's edit where
      * there was one — whatever the order the documents are visited in. A request for a list that is not
      * answered means that nothing is done. `calls` is how many requests for folders were made, and `known` the
      * permissions they told of. */
    method FullReconcile()
      returns (e: Err, ghost calls: nat, ghost known: map<string, string>, ghost listed: map<Id, RemoteDoc>)
      requires Valid()
      modifies this, state
      ensures Valid() && Onward() && state.lastSeq == old(state.lastSeq)
      ensures e.Unreachable? <==> LostIn(plan, old(turn), turn)
      ensures e.Fine? ==> state.lastFull && h.reconciled == mod.floor && Finished(old(trace), trace)
      ensures e.Fine? ==> Surveyed(plan, old(turn), calls, |Prefixes(cfg)|) && turn >= old(turn) + calls + |Prefixes(cfg)|
      ensures Surveyed(plan, old(turn), calls, |Prefixes(cfg)|) ==> e.Fine? || e.Unreachable?
      ensures !Surveyed(plan, old(turn), calls, |Prefixes(cfg)|) || turn < old(turn) + calls + |Prefixes(cfg)| ==>
                && !e.Fine? && state.docs == old(state.docs) && state.lastFull == old(state.lastFull)
                && Idle(old(trace), trace)
      ensures AllAnswered(plan, old(turn), turn) ==> e.Fine?
      ensures e.Fine? ==>
                ListedSince(Prefixes(cfg), old(trace), trace, listed) && SeenTo(cfg, old(trace), trace, listed)
      ensures old(Quiet()) && Settleable(cfg, old(disk), old(state.docs), old(mod)) ==>
                && Converged(cfg, old(mod), EditsOf(old(disk), old(state.docs)), disk, state.docs, mod, known)
                && PermissionsKnown(old(mod), Prefixes(cfg), known)
                && (EditsOf(old(disk), old(state.docs)) == map[] ==> permissions == known)
    {
      hide IsRun, Inv, ModuleGrows, ModuleOK, TableOK, HistoryGrows, Settleable, Converged, Surveyed;
      hide Listing, Idle, LostIn, ListedSince, ListedWithin, Passes, KnownExactly, Allows, PermissionsKnown, EditsOf, AllPlaced;
      hide SeenTo;
      e := RefreshFolders();
      calls, known, listed := turn - old(turn), permissions, map[];
      FoldersSurveyed(plan, old(turn), turn, |Prefixes(cfg)|);
      QuietLosesNoneAfter(plan, old(turn));
      AnsweredLosesNone(plan, old(turn));
      if !e.Fine? {
        return;
      }
      ghost var t := trace;
      if old(Quiet()) {
        KnownAllows(mod, folders, permissions, Prefixes(cfg));
      }
      var all;
      e, all := ListAll();
      listed := all;
      ghost var listedAt, u := turn, trace;
      LostOn(plan, old(turn), old(turn) + calls, turn);
      IdleOn(old(trace), t, trace);
      ListsSurveyed(plan, old(turn), calls, turn, |Prefixes(cfg)|);
      if !e.Fine? {
        return;
      }
      e := BringAll(all, EditsOf(disk, state.docs));
      LostOn(plan, old(turn), listedAt, turn);
      if e.Fine? {
        ListedSinceStays(Prefixes(cfg), old(trace), t, u, trace, listed);
        SeenToSince(cfg, old(trace), u, trace, listed);
      }
    }

    /** Brings everything listed in line, and drops what is not listed. */
    method SettleListed(listed: map<Id, RemoteDoc>, ghost edits: map<Id, Content>) returns (e: Err)
      requires Valid() && AllPlaced(mod, listed) && ListedWithin(h.heard, Prefixes(cfg), listed.Keys)
      modifies this, state
      ensures Valid() && Onward() && SameMemory()
      ensures e.Unreachable? <==> LostIn(plan, old(turn), turn)
      ensures e.Fine? || e.Unreachable?
      ensures e.Fine? ==> AllAttended(cfg, old(trace), trace, listed, {}) && LeavesOnlyListed(cfg, trace, listed)
      ensures old(Quiet()) && listed == Listing(old(mod), Prefixes(cfg)) && Settleable(cfg, old(disk), old(state.docs), old(mod))
              && edits == EditsOf(old(disk), old(state.docs)) ==>
                e.Fine? && mod == old(mod) && AllBrought(disk, state.docs, mod, permissions, edits, listed)
    {
      hide IsRun, Inv, ModuleGrows, ModuleOK, TableOK, HistoryGrows, Tidy, WellPlaced, AgreesBut, InScope, Tracked;
      hide Listing, LostIn, ListedWithin, Dropping, EditsReady, EditsOf, AllBrought, AllPlaced, AllAttended, LeavesOnlyListed;
      ghost var easy := Quiet() && listed == Listing(mod, Prefixes(cfg)) && Settleable(cfg, disk, state.docs, mod)
      && edits == EditsOf(disk, state.docs);
      ghost var told := h.heard;
      e := ReconcileListed(listed, edits);
      SameWithin(told, h.heard, Prefixes(cfg), listed.Keys);
      if !e.Fine? {
        return;
      }
      ghost var docs0, before, t := state.docs, disk, trace;
      if easy {
        BroughtIsDropping(cfg, disk, state.docs, old(state.docs), edits, listed, mod, permissions);
      }
      DropUnlisted(listed, edits);
      AllStayAttended(cfg, old(trace), old(trace), t, trace, listed);
      if easy {
        DroppedIsBrought(cfg, old(state.docs), before, docs0, disk, state.docs, edits, listed, mod, permissions);
      }
    }

    /** Brings everything listed in line, drops what is not listed, and sends the edits. */
    method BringAll(listed: map<Id, RemoteDoc>, ghost edits: map<Id, Content>) returns (e: Err)
      requires Valid() && AllPlaced(mod, listed) && ListedWithin(h.heard, Prefixes(cfg), listed.Keys)
      modifies this, state
      ensures Valid() && Onward() && state.lastSeq == old(state.lastSeq)
      ensures e.Unreachable? <==> LostIn(plan, old(turn), turn)
      ensures e.Fine? || e.Unreachable?
      ensures e.Fine? ==> state.lastFull && h.reconciled == mod.floor && Finished(old(trace), trace)
      ensures e.Fine? ==> SeenTo(cfg, old(trace), trace, listed)
      ensures !e.Fine? ==> state.lastFull == old(state.lastFull)
      ensures old(Quiet()) && listed == Listing(old(mod), Prefixes(cfg)) && Settleable(cfg, old(disk), old(state.docs), old(mod))
              && edits == EditsOf(old(disk), old(state.docs)) && Allows(old(mod), old(permissions)) ==>
                && Converged(cfg, old(mod), edits, disk, state.docs, mod, old(permissions))
                && (edits == map[] ==> permissions == old(permissions))
    {
      hide IsRun, Inv, ModuleGrows, ModuleOK, TableOK, HistoryGrows, AgreesBut, AllBrought, ReadyToUpload, Saved, Settleable;
      hide Unremarkable, Answerable, Listing, LostIn, ListedWithin, EditsOpen, Allows, Converged, SentOnly, EditsOf, AllPlaced;
      hide AllAttended, FolderScanned, LeavesOnlyListed, SeenTo;
      ghost var easy := Quiet() && listed == Listing(mod, Prefixes(cfg)) && Settleable(cfg, disk, state.docs, mod)
      && edits == EditsOf(disk, state.docs) && Allows(mod, permissions);
      if easy {
        RecordsAreTrue(Now());
        SettleableIsOpen(cfg, disk, state.docs, mod);
      }
      e := SettleListed(listed, edits);
      ghost var asked, t := turn, trace;
      if !e.Fine? {
        return;
      }
      e := ScanAndFinish(listed, edits);
      if e.Fine? {
        NowSeenTo(cfg, old(trace), t, trace, listed);
      }
      LostOn(plan, old(turn), asked, turn);
    }

    /** Sends the edits once everything listed is in line, and finishes. */
    method ScanAndFinish(ghost listed: map<Id, RemoteDoc>, ghost edits: map<Id, Content>) returns (e: Err)
      requires Valid()
      modifies this, state
      ensures Valid() && Onward() && state.lastSeq == old(state.lastSeq)
      ensures e.Unreachable? <==> LostIn(plan, old(turn), turn)
      ensures e.Fine? || e.Unreachable?
      ensures e.Fine? ==> state.lastFull && h.reconciled == mod.floor && Finished(old(trace), trace)
      ensures e.Fine? ==> FolderScanned(cfg, old(trace), trace)
      ensures !e.Fine? ==> state.lastFull == old(state.lastFull)
      ensures old(Quiet()) && AllBrought(old(disk), old(state.docs), old(mod), old(permissions), edits, listed)
              && EditsOpen(cfg, old(mod), edits) && Allows(old(mod), old(permissions))
              && listed == Listing(old(mod), Prefixes(cfg)) ==>
                && Converged(cfg, old(mod), edits, disk, state.docs, mod, old(permissions))
                && (edits == map[] ==> permissions == old(permissions))
    {
      hide IsRun, Inv, ModuleGrows, ModuleOK, TableOK, HistoryGrows, AllBrought, Listing, LostIn, EditsOpen, Allows, Converged;
      hide FolderScanned, AllLookedAt;
      Hear(Lists);
      ghost var t := trace;
      LastInv(t);
      e := SendEdits(listed, edits);
      if !e.Fine? {
        return;
      }
      ghost var u := trace;
      ScannedNow(cfg, t, u);
      FinishFull();
      ScannedStays(cfg, old(trace), t, u, trace);
    }

    /** Scans the folder once everything listed is in line but for the edits. */
    method SendEdits(ghost listed: map<Id, RemoteDoc>, ghost edits: map<Id, Content>) returns (e: Err)
      requires Valid()
      modifies this, state
      ensures Valid() && Onward() && state.lastSeq == old(state.lastSeq) && state.lastFull == old(state.lastFull)
      ensures e.Unreachable? <==> LostIn(plan, old(turn), turn)
      ensures e.Fine? || e.Unreachable?
      ensures e.Fine? ==> AllLookedAt(cfg, old(trace), trace, old(disk).Keys)
      ensures old(Quiet()) && AllBrought(old(disk), old(state.docs), old(mod), old(permissions), edits, listed)
              && EditsOpen(cfg, old(mod), edits) && Allows(old(mod), old(permissions))
              && listed == Listing(old(mod), Prefixes(cfg)) ==>
                && Converged(cfg, old(mod), edits, disk, state.docs, mod, old(permissions))
                && (edits == map[] ==> permissions == old(permissions))
    {
      hide IsRun, Inv, ModuleGrows, ModuleOK, TableOK, HistoryGrows, AgreesBut, AllBrought, ReadyToUpload, Saved;
      hide Unremarkable, Answerable, Listing, LostIn, EditsOpen, Allows, Converged, SentOnly, ReadyOnes, AllLookedAt;
      ghost var easy := Quiet() && AllBrought(disk, state.docs, mod, permissions, edits, listed)
      && EditsOpen(cfg, mod, edits) && Allows(mod, permissions) && listed == Listing(mod, Prefixes(cfg));
      if easy {
        AllAnswerable(cfg, disk, state.docs, mod, permissions, edits, listed);
      }
      e := ScanLocal();
      if easy {
        ScanConverges(cfg, old(disk), old(state.docs), old(mod), old(permissions), edits, state.docs, mod);
      }
    }

    // ---- the change feed -----------------------------------------------------

    /** Follows a change, unless it is known: a version already held
      * at that path, or a path out of scope, costs no request. */
    method RemoteChanged(id: Id, p: string, version: nat) returns (e: Err)
      requires Valid()
      modifies this, state
      ensures Valid() && Onward() && SameMemory()
      ensures e.Unreachable? <==> LostIn(plan, old(turn), turn)
      ensures e.Unreachable? ==> state.docs == old(state.docs) && Idle(old(trace), trace)
      ensures Known(cfg, old(state.docs), id, p, version) ==> e.Fine? && trace == old(trace) && turn == old(turn)
      ensures !Known(cfg, old(state.docs), id, p, version) ==>
                turn == old(turn) + 1 && (!e.Unreachable? ==> id in h.heard.answered && AnswerIn(old(trace), trace, id))
      ensures h.heard.taken == old(h.heard.taken)
      ensures old(Quiet()) ==> mod == old(mod)
      ensures !Known(cfg, old(state.docs), id, p, version) && old(Quiet()) ==>
                QuietFetch(cfg, permissions, mod, id, RecordOf(old(state.docs), id), old(disk), old(state.docs), old(trace),
                           disk, state.docs, trace, e)
      ensures old(Quiet()) && InStep(cfg, old(disk), old(state.docs), old(mod), permissions)
              ==> e.Fine? && disk == old(disk) && state.docs == old(state.docs)
    {
      hide IsRun, Inv, ModuleGrows, ModuleOK, HistoryGrows, InScope, LocalPath, InStep, FetchedDisk, FetchedRecord;
      hide Put, Fetchable, Passes, Followed, FollowedDocs, LostIn, Idle, FollowedAs, MovedAside, DeletionFollowed, Blocked, AnswerIn;
      e := Fine;
      NoneLost(plan, turn);
      IdleAtFirst(trace);
      ghost var easy := Quiet() && InStep(cfg, disk, state.docs, mod, permissions);
      ghost var said, mid;
      if id !in state.docs {
        if p != "" && !InScope(cfg, p) {
          return;
        }
        if easy {
          NotTracked(cfg, disk, state.docs, mod, permissions, id);
        }
        e, said, mid := Fetch(id, None);
      } else {
        RecordFacts(Now(), id);
        var rec := state.docs[id];
        if version > 0 && version <= rec.version && (p == "" || p == rec.path) {
          return;
        }
        if easy {
          FetchInStep(cfg, disk, state.docs, mod, permissions, id);
        }
        e, said, mid := Fetch(id, Some(rec));
      }
      assert mid == |trace| ==> trace[..mid] == trace;
    }

    method Hand(c: Change)
      requires Valid() && Applied(Now(), c)
      modifies this
      ensures Valid() && Local() && disk == old(disk) && state.docs == old(state.docs)
      ensures trace == old(trace) + [Event(Handed(c), Now())] && c in h.handed
    {
      hide IsRun, Inv, StepOK, ModuleGrows, ModuleOK, TableOK, HistoryGrows, Applied;
      HandedStep(Now(), c);
      Note(Handed(c));
    }

    /** Takes up one entry of the feed, applies it, and is done with it unless its request was lost. Where
      * everything is in step a past entry changes nothing; a deletion of a tracked document is the one kind
      * that must carry a version for that, and one the document has since passed. */
    method ApplyChange(c: Change) returns (e: Err)
      requires Valid()
      modifies this, state
      ensures Valid() && Onward() && SameMemory()
      ensures e.Unreachable? <==> LostIn(plan, old(turn), turn)
      ensures e.Unreachable? ==> state.docs == old(state.docs)
      ensures |trace| > |old(trace)| && trace[|old(trace)|].who == Taken(c)
      ensures !e.Unreachable? ==> c in h.handed && trace[|trace| - 1].who == Handed(c)
      ensures old(Quiet()) ==> mod == old(mod)
      ensures c.documentId == "" || c.kind.OtherChange? || (!c.kind.Deleted? && Known(cfg, old(state.docs), c.documentId, c.path, c.version))
              ==> e.Fine? && disk == old(disk) && state.docs == old(state.docs) && turn == old(turn)
      ensures c.documentId != "" && c.kind.Deleted? ==>
                e.Fine? && DeletionFollowed(old(disk), old(state.docs), disk, state.docs, c.documentId, c.version)
      ensures c.documentId != "" && !c.kind.OtherChange? && !c.kind.Deleted?
              && !Known(cfg, old(state.docs), c.documentId, c.path, c.version) ==>
                && turn == old(turn) + 1
                && (old(Quiet()) ==>
                      QuietFetch(cfg, permissions, mod, c.documentId, RecordOf(old(state.docs), c.documentId),
                                 old(disk), old(state.docs), trace[..|old(trace)| + 1], disk, state.docs,
                                 trace[..|trace| - if e.Unreachable? then 0 else 1], e))
      ensures old(Quiet()) && InStep(cfg, old(disk), old(state.docs), old(mod), permissions)
              && (c.kind.Deleted? && c.documentId != "" && c.documentId in old(state.docs) ==>
                    0 < c.version < old(state.docs)[c.documentId].version)
              ==> e.Fine? && disk == old(disk) && state.docs == old(state.docs)
      ensures InStep(cfg, old(disk), old(state.docs), old(mod), permissions)
              && c.kind.Deleted? && c.documentId != "" && c.documentId in old(state.docs) ==>
                (disk == old(disk) && state.docs == old(state.docs)
                 <==> 0 < c.version < old(state.docs)[c.documentId].version)
    {
      hide IsRun, Inv, ModuleGrows, ModuleOK, TableOK, HistoryGrows, InScope, LocalPath, InStep, DeletionFollowed, Known;
      hide LostIn, Idle, QuietFetch, Applied, RecordOf, HeardAfter;
      Hear(Taken(c));
      TakenUp(old(h.heard), c, Now());
      ghost var t := trace;
      e := Apply(c);
      assert trace[|old(trace)|] == t[|old(trace)|];
      ghost var u := trace;
      if !e.Unreachable? {
        Hand(c);
      }
      assert trace[|old(trace)|] == u[|old(trace)|];
      assert trace[..|t|] == t && trace[..|u|] == u;
    }

    /** Does what an entry taken up asks for. */
    method Apply(c: Change) returns (e: Err)
      requires Valid() && h.heard.taken == Some(c)
      modifies this, state
      ensures Valid() && Onward() && SameMemory()
      ensures e.Unreachable? <==> LostIn(plan, old(turn), turn)
      ensures e.Unreachable? ==> state.docs == old(state.docs)
      ensures !e.Unreachable? ==> Applied(Now(), c)
      ensures old(Quiet()) ==> mod == old(mod)
      ensures c.documentId == "" || c.kind.OtherChange? || (!c.kind.Deleted? && Known(cfg, old(state.docs), c.documentId, c.path, c.version))
              ==> e.Fine? && disk == old(disk) && state.docs == old(state.docs) && turn == old(turn)
      ensures c.documentId != "" && c.kind.Deleted? ==>
                e.Fine? && DeletionFollowed(old(disk), old(state.docs), disk, state.docs, c.documentId, c.version)
      ensures c.documentId != "" && !c.kind.OtherChange? && !c.kind.Deleted?
              && !Known(cfg, old(state.docs), c.documentId, c.path, c.version) ==>
                && turn == old(turn) + 1
                && (old(Quiet()) ==>
                      QuietFetch(cfg, permissions, mod, c.documentId, RecordOf(old(state.docs), c.documentId),
                                 old(disk), old(state.docs), old(trace), disk, state.docs, trace, e))
      ensures old(Quiet()) && InStep(cfg, old(disk), old(state.docs), old(mod), permissions)
              && (c.kind.Deleted? && c.documentId != "" && c.documentId in old(state.docs) ==>
                    0 < c.version < old(state.docs)[c.documentId].version)
              ==> e.Fine? && disk == old(disk) && state.docs == old(state.docs)
      ensures InStep(cfg, old(disk), old(state.docs), old(mod), permissions)
              && c.kind.Deleted? && c.documentId != "" && c.documentId in old(state.docs) ==>
                (disk == old(disk) && state.docs == old(state.docs)
                 <==> 0 < c.version < old(state.docs)[c.documentId].version)
    {
      hide IsRun, Inv, ModuleGrows, ModuleOK, TableOK, HistoryGrows, InScope, LocalPath, InStep, DeletionFollowed, Known;
      hide LostIn, Idle, QuietFetch, RecordOf, DeletionApplies, AnswerIn, HeardAfter, Gone;
      NoneLost(plan, turn);
      e := Fine;
      StaysInStep(cfg, disk, state.docs, mod, permissions, c);
      if c.documentId != "" {
        match c.kind {
          case Deleted =>
            Hear(Announced(c.documentId, c.version));
            DeletionHeard(old(h.heard), c.documentId, c.version, Now());
            RemoteDeleted(c.documentId, c.version);
          case Created | Updated | Moved | Restored =>
            e := RemoteChanged(c.documentId, c.path, c.version);
          case OtherChange =>
        }
      }
    }

    /** Applies the entries of a page, or any others, in the order given, up to one whose request is lost. `at`
      * says where in the run each was taken up. */
    method ApplyPage(items: seq<Change>) returns (e: Err, ghost at: seq<nat>)
      requires Valid()
      modifies this, state
      ensures Valid() && Onward() && SameMemory()
      ensures e.Unreachable? <==> LostIn(plan, old(turn), turn)
      ensures e.Fine? || e.Unreachable?
      ensures old(Quiet()) ==> mod == old(mod) && e.Fine?
      ensures TakenInOrder(old(trace), trace, items, at) && (e.Fine? ==> |at| == |items|)
      ensures e.Fine? ==> forall i :: 0 <= i < |items| ==> items[i] in h.handed
      ensures old(Quiet()) && InStep(cfg, old(disk), old(state.docs), old(mod), permissions)
              && (forall i :: 0 <= i < |items| ==> PastEntry(old(mod), items[i]))
              ==> disk == old(disk) && state.docs == old(state.docs)
    {
      hide IsRun, Inv, StepOK, ModuleGrows, ModuleOK, TableOK, InStep, PastEntry, LostIn, Known, DeletionFollowed, QuietFetch;
      hide TakenInOrder, RecordOf, HistoryGrows;
      ghost var easy := Quiet() && InStep(cfg, disk, state.docs, mod, permissions)
      && (forall i :: 0 <= i < |items| ==> PastEntry(mod, items[i]));
      NoneLost(plan, turn);
      QuietLosesNoneAfter(plan, turn);
      at := [];
      NoneTaken(trace, items);
      for k := 0 to |items|
        invariant Valid() && Onward() && SameMemory()
        invariant !LostIn(plan, old(turn), turn)
        invariant old(Quiet()) ==> mod == old(mod)
        invariant forall i :: 0 <= i < k ==> items[i] in h.handed
        invariant TakenInOrder(old(trace), trace, items, at) && |at| == k
        invariant easy ==> disk == old(disk) && state.docs == old(state.docs)
      {
        ghost var t, asked := trace, turn;
        e := ApplyNext(items, k, at, old(trace), easy);
        at := at + [|t|];
        LostOn(plan, old(turn), asked, turn);
        if e.Unreachable? {
          return;
        }
      }
      e := Fine;
    }

    /** Applies the entry of a page that is next. Where everything is in step, a past one changes nothing. */
    method ApplyNext(items: seq<Change>, k: nat, ghost at: seq<nat>, ghost start: seq<Event>, ghost easy: bool) returns (e: Err)
      requires Valid() && k == |at| < |items| && TakenInOrder(start, trace, items, at)
      requires easy ==> Quiet() && InStep(cfg, disk, state.docs, mod, permissions) && PastEntry(mod, items[k])
      modifies this, state
      ensures Valid() && Onward() && SameMemory()
      ensures e.Unreachable? <==> LostIn(plan, old(turn), turn)
      ensures old(Quiet()) ==> mod == old(mod)
      ensures TakenInOrder(start, trace, items, at + [|old(trace)|])
      ensures old(h.handed) <= h.handed && (!e.Unreachable? ==> items[k] in h.handed)
      ensures easy ==> disk == old(disk) && state.docs == old(state.docs)
    {
      hide IsRun, Inv, StepOK, ModuleGrows, ModuleOK, TableOK, InStep, PastEntry, LostIn, Known, DeletionFollowed, QuietFetch;
      hide TakenInOrder, RecordOf, HistoryGrows;
      var c := items[k];
      if easy && c.kind.Deleted? && c.documentId in state.docs {
        PastDeletionIsOlder(cfg, disk, state.docs, mod, permissions, c);
      }
      e := ApplyChange(c);
      NextTaken(start, old(trace), trace, items, at);
      HandedStays(old(trace), trace);
    }

    /** Reads on from the stored cursor to the feed's end; when the feed no longer reaches back that far,
      * everything is reconciled and the feed read from its start. It ends because each turn of the loop
      * uses up a request of the plan, or the one restart, or entries of the feed. */
    method CatchUp() returns (e: Err)
      requires Valid() && state.lastFull && !busy
      modifies this, state
      ensures Valid() && old(trace) <= trace && old(turn) <= turn && !busy
      ensures state.lastFull && state.lastSeq >= old(state.lastSeq)
      ensures e.Unreachable? <==> LostIn(plan, old(turn), turn)
      ensures turn > old(turn) && (AllAnswered(plan, old(turn), turn) ==> e.Fine?)
      ensures old(Quiet()) ==> e.Fine? && ReadToEnd(Now())
      ensures e.Fine? ==> PassedBy(old(mod), state.lastSeq)
    {
      hide IsRun, Inv, ModuleGrows, ModuleOK, TableOK, HistoryGrows, LostIn, AllAnswered, PassedBy;
      QuietAnswers(plan, turn);
      SetBusy(true);
      e := ReadFeed();
      SetBusy(false);
    }

    method SetBusy(b: bool)
      requires Valid()
      modifies this
      ensures Valid() && old(trace) <= trace && busy == b && turn == old(turn)
      ensures SameMemory() && disk == old(disk) && mod == old(mod) && state.docs == old(state.docs)
    {
      hide IsRun, Inv, StepOK, After, ModuleGrows, ModuleOK, TableOK, HistoryGrows;
      ModuleGrowsRefl(mod);
      CursorStep(Now(), state.lastSeq, b);
      busy := b;
      Note(Daemon);
    }

    method SetLastSeq(n: int)
      requires Valid() && (!h.trimmed ==> Covered(Now(), n)) && state.lastSeq <= n <= mod.head && 0 < n
      modifies this, state
      ensures Valid() && Onward() && disk == old(disk) && mod == old(mod) && state.docs == old(state.docs)
      ensures folders == old(folders) && permissions == old(permissions) && lockedRetry == old(lockedRetry)
      ensures turn == old(turn) && state.lastFull == old(state.lastFull) && state.lastSeq == n
      ensures h.reconciled == old(h).reconciled && h.trimmed == old(h).trimmed
    {
      hide IsRun, Inv, StepOK, ModuleGrows, ModuleOK, TableOK, HistoryGrows, Covered;
      ModuleGrowsRefl(mod);
      CursorStep(Now(), n, busy);
      state.SetLastSeq(n);
      Note(Daemon);
    }

    /** What the loop of `CatchUp` holds between pages. */
    ghost predicate Reading(since: int)
      reads this, state
      requires ModuleOK(mod)
    {
      && busy && state.lastFull && 0 <= since <= mod.head
      && (!h.trimmed ==> Covered(Now(), since) && (since == 0 ==> h.reconciled == mod.floor))
      && (since == state.lastSeq || (since == 0 && state.lastSeq <= LastTrimmed(mod)))
    }

    method ReadFeed() returns (e: Err)
      requires Valid() && state.lastFull && busy
      modifies this, state
      ensures Valid() && Onward() && state.lastSeq >= old(state.lastSeq)
      ensures e.Unreachable? <==> LostIn(plan, old(turn), turn)
      ensures turn > old(turn) && (AllAnswered(plan, old(turn), turn) ==> e.Fine?)
      ensures old(Quiet()) ==> ReadToEnd(Now())
      ensures e.Fine? ==> PassedBy(old(mod), state.lastSeq)
    {
      hide IsRun, Inv, StepOK, ModuleGrows, ModuleOK, TableOK, HistoryGrows, Covered, LastTrimmed, LostIn, AllAnswered, PassedBy;
      NoneLost(plan, turn);
      QuietAnswers(plan, turn);
      var since := state.lastSeq;
      ReadingStarts(Now());
      while true
        invariant Valid() && Onward() && state.lastSeq >= old(state.lastSeq)
        invariant Reading(since) && !LostIn(plan, old(turn), turn)
        decreases |plan| - Min(turn, |plan|),
                  if since != 0 && since < LastTrimmed(mod) then 1 else 0,
                  |mod.log| - Position(mod.log, since)
      {
        var next, more;
        ghost var t, m, asked := trace, mod, turn;
        e, next, more := NextPage(since);
        LostOn(plan, old(turn), asked, turn);
        AnsweredOn(plan, old(turn), asked, turn);
        if !e.Fine? || !more {
          if e.Fine? {
            AllHandedStay(old(trace), t);
            PassedBefore(old(mod), m, state.lastSeq, state.lastSeq);
          }
          return;
        }
        since := next;
      }
    }

    /** One turn of the loop: a page, or the restart after an invalid cursor. */
    method NextPage(since: int) returns (e: Err, next: int, more: bool)
      requires Valid() && Reading(since)
      modifies this, state
      ensures Valid() && Onward() && state.lastSeq >= old(state.lastSeq) && turn > old(turn)
      ensures e.Unreachable? <==> LostIn(plan, old(turn), turn)
      ensures e.Fine? ==> Reading(next)
      ensures !e.Fine? ==> state.lastSeq == old(state.lastSeq)
      ensures old(Quiet()) ==> e.Fine?
      ensures e.Fine? && more && old(Quiet()) ==>
                || (next == 0 && since != 0 && since < LastTrimmed(old(mod)))
                || (mod == old(mod) && next >= LastTrimmed(mod) && Position(mod.log, next) > Position(mod.log, since))
      ensures e.Fine? && !more && old(Quiet()) ==> ReadToEnd(Now())
      ensures e.Fine? && !more ==> PassedBy(old(mod), state.lastSeq)
      ensures AllAnswered(plan, old(turn), turn) ==> e.Fine?
    {
      hide IsRun, Inv, StepOK, ModuleGrows, ModuleOK, TableOK, HistoryGrows, Covered, LastTrimmed, PageOK, LostIn, AllAnswered;
      OneAnswered(plan, turn);
      AnsweredLosesNone(plan, turn);
      QuietAnswers(plan, turn);
      if Quiet() {
        ChangesContract(mod, since, 499, 0);
      }
      next, more := since, false;
      var page;
      ghost var asked;
      e, page, asked := Changes(since);
      ghost var sent := turn;
      AllHandedStay(old(trace), trace);
      StillReading(old(Now()), Now(), since);
      if e == Refused(InvalidCursor) {
        if since == 0 {
          // A module that refuses even the start is not asked again.
          e := Failed;
          return;
        }
        SinceNow(old(mod), asked);
        e := Restart(since, asked);
        LostOn(plan, old(turn), sent, turn);
        AnsweredOn(plan, old(turn), sent, turn);
        next, more := 0, true;
      } else if e.Fine? {
        SinceNow(old(mod), asked);
        e, next := ReadPage(since, page, asked, old(Now()));
        LostOn(plan, old(turn), sent, turn);
        AnsweredOn(plan, old(turn), sent, turn);
        more := page.hasMore && page.items != [];
        PageEnds(asked, mod, since, page);
        if e.Fine? && !more {
          PassedBefore(old(mod), asked, Max(since, page.nextSeq), state.lastSeq);
        }
      }
    }

    /** The feed no longer reaches back: everything is compared instead, and the feed read anew. */
    method Restart(since: int, ghost asked: Module) returns (e: Err)
      requires Valid() && Reading(since) && 0 < since
      requires ModuleOK(asked) && ModuleGrows(asked, mod) && since < LastTrimmed(asked)
      modifies this, state
      ensures Valid() && Onward() && state.lastSeq == old(state.lastSeq)
      ensures e.Unreachable? <==> LostIn(plan, old(turn), turn)
      ensures e.Fine? ==> Reading(0)
      ensures AllAnswered(plan, old(turn), turn) ==> e.Fine?
    {
      hide IsRun, Inv, StepOK, ModuleGrows, ModuleOK, TableOK, HistoryGrows, Covered, LastTrimmed, LostIn, AllAnswered;
      hide ListedSince, SeenTo, Surveyed, Converged, Settleable, Idle;
      ghost var calls, known, all;
      e, calls, known, all := FullReconcile();
      if e.Fine? {
        SinceThen(old(trace), trace, asked);
        NothingBefore(Now());
      }
    }

    /** Applies a page and moves the stored cursor past it. `w` is the world it was asked in. */
    method ReadPage(since: int, page: Page, ghost asked: Module, ghost w: World) returns (e: Err, next: int)
      requires Valid() && Reading(since)
      requires ModuleOK(w.mod) && ModuleGrows(w.mod, asked) && HistoryGrows(w.h, h)
      requires 0 <= since <= w.mod.head
      requires !h.trimmed ==> Covered(w, since) && (since == 0 ==> w.h.reconciled == asked.floor)
      requires ModuleOK(asked) && ModuleGrows(asked, mod) && PageOK(asked, since, page)
      requires since == state.lastSeq || state.lastSeq <= LastTrimmed(asked)
      modifies this, state
      ensures Valid() && Onward() && state.lastSeq >= old(state.lastSeq)
      ensures e.Fine? ==> Reading(next) && next == Max(since, page.nextSeq) && state.lastSeq >= next
      ensures e.Unreachable? <==> LostIn(plan, old(turn), turn)
      ensures e.Fine? || e.Unreachable?
      ensures !e.Fine? ==> state.lastSeq == old(state.lastSeq)
      ensures ModuleGrows(asked, mod)
      ensures old(Quiet()) ==> mod == old(mod) && e.Fine?
    {
      hide IsRun, Inv, StepOK, ModuleGrows, ModuleOK, TableOK, HistoryGrows, Covered, LastTrimmed, PageOK, LostIn;
      next := since;
      ghost var at;
      e, at := ApplyPage(page.items);
      SinceThen(old(trace), trace, asked);
      if !e.Fine? {
        return;
      }
      AllHandedStay(old(trace), trace);
      HistoryGrowsTrans(w.h, old(h), h);
      if !h.trimmed {
        PageCovers(w, Now(), asked, since, page);
      }
      PageEnds(asked, mod, since, page);
      StillReading(old(Now()), Now(), since);
      ReadingStarts(Now());
      if page.nextSeq > since {
        next := page.nextSeq;
        SetLastSeq(next);
        ReadingStarts(Now());
      }
    }

    // ---- the daemon ----------------------------------------------------------

    /** Applies one live notification. It never moves the cursor: a notification lost before this one
      * is still ahead of it. */
    method ApplyNotification(n: Notification) returns (e: Err)
      requires Valid()
      modifies this, state
      ensures Valid() && Onward() && state.lastSeq == old(state.lastSeq)
      ensures e.Unreachable? <==> LostIn(plan, old(turn), turn)
      ensures n.Unreadable? || (n.Unlocked? && n.id !in old(lockedRetry)) ==> e.Fine? && trace == old(trace)
      ensures n.ChangedDoc? && Known(cfg, old(state.docs), n.id, n.path, n.version) ==> e.Fine? && trace == old(trace)
      ensures n.ChangedDoc? && old(Quiet()) ==> mod == old(mod) && permissions == old(permissions)
      ensures n.ChangedDoc? && !Known(cfg, old(state.docs), n.id, n.path, n.version) ==>
                && turn == old(turn) + 1 && (e.Unreachable? || AnswerIn(old(trace), trace, n.id))
                && (old(Quiet()) ==>
                      QuietFetch(cfg, permissions, mod, n.id, RecordOf(old(state.docs), n.id), old(disk), old(state.docs),
                                 old(trace), disk, state.docs, trace, e))
      ensures n.RemovedDoc? ==>
                e.Fine? && DeletionFollowed(old(disk), old(state.docs), disk, state.docs, n.id, n.version)
      ensures n.AccessChanged? ==>
                && (e.Fine? ==> Finished(old(trace), trace) && h.reconciled == mod.floor)
                && (AllAnswered(plan, old(turn), turn) ==> e.Fine?)
      ensures n.Unlocked? && n.id in old(lockedRetry)
              && (n.id in old(state.docs) && LocalPath(old(state.docs)[n.id].path).Some? ==>
                    Unremarkable(cfg, old(disk), old(state.docs), LocalPath(old(state.docs)[n.id].path).value)) ==>
                e.Fine? && trace == old(trace) && lockedRetry == old(lockedRetry) - {n.id}
      ensures n.Unlocked? && n.id in old(lockedRetry) && Plain(if n.id in old(state.docs) then old(state.docs)[n.id].path else "")
              && ReadyToUpload(cfg, old(disk), old(state.docs), old(mod), n.id) ==>
                && SentSince(old(trace), trace, n.id, old(state.docs)[n.id].version)
                && (old(Quiet()) ==>
                      e.Fine? && Live(mod, n.id) && CurrentContent(mod, n.id) == old(disk)[old(state.docs)[n.id].path])
    {
      hide IsRun, Inv, StepOK, ModuleGrows, ModuleOK, TableOK, HistoryGrows, LocalPath, LostIn, QuietFetch;
      hide Known, RecordOf, DeletionFollowed, InStep, Idle, AllAnswered, Finished, Surveyed, Settleable, Converged;
      hide SentSince, CurrentContent, Live;
      e := Fine;
      NoneLost(plan, turn);
      match n
      case AccessChanged =>
        ghost var calls, known, all;
        e, calls, known, all := FullReconcile();
      case Unlocked(id) =>
        if id in lockedRetry {
          e := RetryLocked(id);
        }
      case RemovedDoc(id, version) =>
        Hear(Announced(id, version));
        RemoteDeleted(id, version);
      case ChangedDoc(id, path, version) =>
        e := RemoteChanged(id, path, version);
      case Unreadable =>
    }

    /** An edit that waited for a lock is handled anew. */
    method RetryLocked(id: Id) returns (e: Err)
      requires Valid() && id in lockedRetry
      modifies this, state
      ensures Valid() && Onward() && state.lastSeq == old(state.lastSeq)
      ensures e.Unreachable? <==> LostIn(plan, old(turn), turn)
      ensures (id in old(state.docs) && LocalPath(old(state.docs)[id].path).Some? ==>
                 Unremarkable(cfg, old(disk), old(state.docs), LocalPath(old(state.docs)[id].path).value)) ==>
                e.Fine? && trace == old(trace) && lockedRetry == old(lockedRetry) - {id}
      ensures Plain(if id in old(state.docs) then old(state.docs)[id].path else "")
              && ReadyToUpload(cfg, old(disk), old(state.docs), old(mod), id) ==>
                && SentSince(old(trace), trace, id, old(state.docs)[id].version)
                && (old(Quiet()) ==>
                      e.Fine? && Live(mod, id) && CurrentContent(mod, id) == old(disk)[old(state.docs)[id].path])
    {
      hide IsRun, Inv, StepOK, ModuleGrows, ModuleOK, TableOK, HistoryGrows, LocalPath, LostIn, SentSince, CurrentContent, Live;
      hide OutdatedFetched, TrackedDone, NewFileTried, NewFileDone, NothingSent, SameButConflicts, IsNew, MarkedReadOnly, Waiting;
      NoneLost(plan, turn);
      e := Fine;
      lockedRetry := lockedRetry - {id};
      if id in state.docs && LocalPath(state.docs[id].path).Some? {
        e := LocalChanged(LocalPath(state.docs[id].path).value);
      }
    }

    /** Reconciles in full and reads the feed, once. */
    method RunOnce() returns (e: Err)
      requires Valid() && !busy
      modifies this, state
      ensures Valid() && old(trace) <= trace && !busy && state.lastSeq >= old(state.lastSeq)
      ensures e.Unreachable? <==> LostIn(plan, old(turn), turn)
      ensures e.Fine? ==> state.lastFull && exists n :: |old(trace)| < n <= |trace| && Finished(old(trace), trace[..n])
      ensures e.Fine? ==> PassedBy(old(mod), state.lastSeq)
      ensures AllAnswered(plan, old(turn), turn) ==> e.Fine?
      ensures old(Quiet()) ==> e.Fine? && ReadToEnd(Now())
    {
      hide IsRun, Inv, StepOK, ModuleGrows, ModuleOK, TableOK, HistoryGrows, LostIn, AllAnswered, Surveyed, Settleable;
      hide Converged, Idle, PassedBy, ListedSince, SeenTo;
      QuietAnswers(plan, turn);
      ghost var calls, known, all;
      e, calls, known, all := FullReconcile();
      ghost var t, m, asked := trace, mod, turn;
      if e.Fine? {
        e := CatchUp();
        LostOn(plan, old(turn), asked, turn);
        AnsweredOn(plan, old(turn), asked, turn);
        assert trace[..|t|] == t;
        if e.Fine? {
          AllHandedStay(old(trace), t);
          PassedBefore(old(mod), m, state.lastSeq, state.lastSeq);
        }
      }
    }

    /** Does what the loop wakes up for. */
    method Wake(input: Input) returns (e: Err)
      requires Valid() && !busy && state.lastFull
      modifies this, state
      ensures Valid() && old(trace) <= trace && old(turn) <= turn && !busy && state.lastFull
      ensures state.lastSeq >= old(state.lastSeq)
      ensures e.Unreachable? <==> LostIn(plan, old(turn), turn)
      ensures Woken(cfg, plan, input, old(trace), trace, old(turn), turn)
    {
      hide IsRun, Inv, StepOK, ModuleGrows, ModuleOK, TableOK, HistoryGrows, LostIn, QuietFetch, Known, RecordOf;
      hide DeletionFollowed, AllAnswered, Finished, Surveyed, Settleable, Converged, SentSince, ReadyToUpload, Idle;
      hide AnswerIn, ScanSends, Unremarkable, Waiting, Outdated, Asked, FolderKey, FetchedDisk, FetchedRecord, FolderScanned, PassedBy;
      hide SeenTo, ListedSince, Scanned, OutdatedFetched, NewFileTried, NewFileDone, NothingSent, SameButConflicts, SendsFirst;
      LastInv(trace);
      match input
      case Note(n) => e := ApplyNotification(n);
      case Due(f) => e := LocalChanged(f);
      case Reconnected => e := CatchUpAndScan();
      case CatchUpTick => e := CatchUp();
      case FullTick =>
        ghost var calls, known, all;
        e, calls, known, all := FullReconcile();
    }

    /** Reads what was missed, and then looks at every file. */
    method CatchUpAndScan() returns (e: Err)
      requires Valid() && !busy && state.lastFull
      modifies this, state
      ensures Valid() && old(trace) <= trace && old(turn) < turn && !busy && state.lastFull
      ensures state.lastSeq >= old(state.lastSeq)
      ensures e.Unreachable? <==> LostIn(plan, old(turn), turn)
      ensures e.Fine? ==> PassedBy(old(mod), state.lastSeq) && FolderScanned(cfg, old(trace), trace)
      ensures AllAnswered(plan, old(turn), turn) ==> e.Fine?
      ensures old(Quiet()) ==> e.Fine? && ScanSends(cfg, old(trace), trace)
    {
      QuietAnswers(plan, turn);
      AnsweredLosesNone(plan, turn);
      hide IsRun, Inv, StepOK, ModuleGrows, ModuleOK, TableOK, HistoryGrows, LostIn, Answerable, ReadyToUpload, Saved;
      hide SentOnly, Unremarkable, FolderScanned, AllLookedAt, AllAnswered, PassedBy;
      e := CatchUp();
      if e.Fine? {
        ghost var t, asked := trace, turn;
        LastInv(t);
        e := ScanLocal();
        LastInv(trace);
        LostOn(plan, old(turn), asked, turn);
        AnsweredOn(plan, old(turn), asked, turn);
        if e.Fine? {
          ScannedNow(cfg, t, trace);
          ScannedStays(cfg, old(trace), t, trace, trace);
        }
        if old(Quiet()) {
          assert trace[|t| - 1] == t[|t| - 1];
          assert ScanFrom(cfg, trace, |t|);
        }
      }
    }

    /** What comes before the loop: everything, or what was missed. */
    method Enter(full: bool) returns (e: Err)
      requires Valid() && !busy && (full || state.lastFull)
      modifies this, state
      ensures Valid() && old(trace) <= trace && !busy && state.lastSeq >= old(state.lastSeq) && old(turn) <= turn
      ensures e.Unreachable? <==> LostIn(plan, old(turn), turn)
      ensures AllAnswered(plan, old(turn), turn) ==> e.Fine?
      ensures e.Fine? ==> state.lastFull && Entered(cfg, plan, old(trace), trace, old(turn), turn, full)
    {
      AnsweredLast(plan, turn);
      hide IsRun, Inv, StepOK, ModuleGrows, ModuleOK, TableOK, HistoryGrows, LostIn, AllAnswered, Surveyed, Settleable;
      hide Converged, Idle, Finished, ScanSends, KnownExactly, FoldersListed, FolderScanned, SeenTo, ListedSince, PassedBy;
      QuietAnswers(plan, turn);
      LastInv(trace);
      if full {
        ghost var calls, known, all;
        e, calls, known, all := FullReconcile();
        return;
      }
      e := RefreshFolders();
      if e.Fine? {
        ghost var asked, m, t := turn, mod, trace;
        e := CatchUpAndScan();
        LostOn(plan, old(turn), asked, turn);
        AnsweredOn(plan, old(turn), asked, turn);
        AllHandedStay(old(trace), t);
        LastInv(trace);
        ScanSince(cfg, old(trace), t, trace);
        ScannedStays(cfg, old(trace), t, trace, trace);
        if e.Fine? {
          PassedBefore(old(mod), m, state.lastSeq, state.lastSeq);
        }
      }
    }

    /** One session with a reachable module: what was missed first — everything, when no full
      * reconciliation ever finished or the last is too old — then whatever the loop wakes up for, in
      * any order, until the module stops answering. `marks` says how long the run was, and how many
      * requests were made, when the loop was entered and after each input. */
    method Online(inputs: seq<Input>, fullDue: bool) returns (e: Err, ghost marks: seq<(nat, nat)>)
      requires Valid() && !busy
      modifies this, state
      ensures Valid() && old(trace) <= trace && !busy && state.lastSeq >= old(state.lastSeq)
      ensures e.Unreachable? <==> LostIn(plan, old(turn), turn)
      ensures e.Fine? ==> state.lastFull
      ensures marks == [] ==> !e.Fine?
      ensures marks != [] && !e.Unreachable? ==> |marks| == |inputs| + 1
      ensures AllAnswered(plan, old(turn), turn) ==> |marks| == |inputs| + 1
      ensures AllWoken(cfg, plan, inputs, trace, marks, |old(trace)|)
      ensures marks != [] ==> EnteredAt(cfg, plan, old(trace), trace, marks, old(turn), !old(state.lastFull) || fullDue)
    {
      hide IsRun, Inv, StepOK, ModuleGrows, ModuleOK, TableOK, HistoryGrows, LostIn, AllAnswered, Surveyed, Settleable;
      hide Converged, Idle, Finished, ScanSends, Woken, MarksOK, KnownExactly, FoldersListed, AllWoken, EnteredAt, FolderScanned;
      hide SeenTo, ListedSince, PassedBy;
      marks := [];
      NoneLost(plan, turn);
      AnsweredLosesNone(plan, turn);
      ghost var full := !state.lastFull || fullDue;
      if !state.lastFull || fullDue {
        e := Enter(true);
      } else {
        e := Enter(false);
      }
      if !e.Fine? {
        NoMarks(cfg, plan, inputs, trace, |old(trace)|);
        return;
      }
      marks := [(|trace|, turn)];
      FirstMark(cfg, plan, inputs, old(trace), trace, old(turn), turn, full);
      for i := 0 to |inputs|
        invariant Valid() && old(trace) <= trace && !busy && state.lastFull && state.lastSeq >= old(state.lastSeq)
        invariant old(turn) <= turn && |marks| == i + 1 && marks[i] == (|trace|, turn)
        invariant !LostIn(plan, old(turn), turn) && !e.Unreachable?
        invariant AllWoken(cfg, plan, inputs, trace, marks, |old(trace)|)
        invariant EnteredAt(cfg, plan, old(trace), trace, marks, old(turn), full)
      {
        ghost var t, asked := trace, turn;
        e := Wake(inputs[i]);
        LostOn(plan, old(turn), asked, turn);
        MoreMarks(cfg, plan, inputs, old(trace), t, trace, marks, asked, turn, old(turn), full);
        marks := marks + [(|trace|, turn)];
        if e.Unreachable? {
          return;
        }
      }
    }
  }
}
