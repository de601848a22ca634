/** The four worlds the sync daemon works between, and what a run of them is (internal/docsync).
 *
 * A `World` is everything that outlives a crash — the synced folder, the state database and the
 * module — together with a history of what they have held. A run is the sequence of worlds the
 * daemon, the person and everybody else produce, one atomic change at a time. The theorems at the
 * end are about every run; SyncEngine proves that the engine's methods only make such runs.
 */
module DocModel {
  import opened Common
  import opened Text
  import opened Files

  type Id = string
  type Content = string

  /** SHA-256 as an injective function of the content. */
  function Checksum(content: Content): (sum: string)
    ensures sum != ""
  {
    "sha256:" + content
  }

  lemma ChecksumInjective(a: Content, b: Content)
    requires Checksum(a) == Checksum(b)
    ensures a == b
  {
    assert Checksum(a)[7..] == a;
    assert Checksum(b)[7..] == b;
  }

  // ---- entities --------------------------------------------------------------

  datatype DocRecord = DocRecord(id: Id, path: string, folderId: string, version: nat, checksum: string,
                                 readOnly: bool, conflict: string)

  datatype RemoteDoc = RemoteDoc(id: Id, path: string, folderId: string, version: nat, checksum: string,
                                 deleted: bool)

  datatype RemoteFolder = RemoteFolder(id: string, path: string, permission: string)

  datatype ChangeType = Created | Updated | Moved | Restored | Deleted | OtherChange

  datatype Change = Change(sequence: int, kind: ChangeType, documentId: Id, version: nat, path: string)

  /** A document as the module keeps it; `born` is the version it was created with. */
  datatype Doc = Doc(path: string, folderId: string, version: nat, born: nat, deleted: bool, readable: bool)

  /** The module: every version it ever held, every path a document of it ever had, its documents, and its
    * change feed, of which the first `floor` entries are no longer kept. */
  datatype Module = Module(held: map<(Id, nat), Content>, placed: set<(Id, string)>, docs: map<Id, Doc>,
                           log: seq<Change>, floor: nat, head: int,
                           folders: map<string, RemoteFolder>, refusesFolders: bool, statesChecksums: bool)

  predicate Live(m: Module, id: Id) {
    id in m.docs && m.docs[id].readable && !m.docs[id].deleted
  }

  /** The live documents whose path starts with a prefix. */
  function Under(m: Module, prefix: string): set<Id> {
    set id | id in m.docs && Live(m, id) && HasPrefix(m.docs[id].path, prefix)
  }

  predicate Increasing(log: seq<Change>) {
    forall i, j :: 0 <= i < j < |log| ==> log[i].sequence < log[j].sequence
  }

  /** Deleting keeps the version and restoring makes a new one: a live document is past each of its deletions. */
  predicate DeletionsAreOlder(m: Module) {
    forall i :: 0 <= i < |m.log| && m.log[i].kind == Deleted ==>
                  && m.log[i].documentId in m.docs
                  && (m.docs[m.log[i].documentId].deleted || m.log[i].version < m.docs[m.log[i].documentId].version)
  }

  predicate DocsOK(m: Module) {
    && (forall id :: id in m.docs ==> (id, m.docs[id].version) in m.held && (id, m.docs[id].born) in m.held)
    && (forall k :: k in m.held ==> k.0 in m.docs && k.1 <= m.docs[k.0].version)
    && (forall id :: id in m.docs ==> (id, m.docs[id].path) in m.placed)
  }

  predicate FeedOK(m: Module) {
    && m.floor <= |m.log| && 0 <= m.head
    && Increasing(m.log)
    && (forall i :: 0 <= i < |m.log| ==> 0 < m.log[i].sequence <= m.head)
    && DeletionsAreOlder(m)
  }

  predicate ModuleOK(m: Module) {
    DocsOK(m) && FeedOK(m)
  }

  predicate IsVersion(m: Module, id: Id, v: nat, c: Content) {
    (id, v) in m.held && m.held[(id, v)] == c
  }

  predicate Keeps<K(==), V(==)>(m: map<K, V>, n: map<K, V>) {
    forall k :: k in m ==> k in n && n[k] == m[k]
  }

  /** Versions only grow, nothing held or placed is forgotten, and the feed only grows at its end and is only
    * trimmed at its start. */
  predicate ModuleGrows(m: Module, n: Module) {
    && ModuleOK(n)
    && Keeps(m.held, n.held) && m.placed <= n.placed
    && (forall id :: id in m.docs ==> id in n.docs && m.docs[id].version <= n.docs[id].version && m.docs[id].born == n.docs[id].born)
    && |m.log| <= |n.log| && n.log[..|m.log|] == m.log
    && m.floor <= n.floor && m.head <= n.head
    && (forall i :: |m.log| <= i < |n.log| ==> m.head < n.log[i].sequence)
  }

  // ---- what is synced --------------------------------------------------------

  datatype Config = Config(only: seq<string>, exclude: seq<string>)

  predicate HasPrefixFold(p: string, prefix: string) {
    HasPrefix(Lower(p), Lower(prefix))
  }

  predicate InScope(cfg: Config, p: string) {
    && (forall i :: 0 <= i < |cfg.exclude| ==> !HasPrefixFold(p, cfg.exclude[i]))
    && (cfg.only == [] || exists i :: 0 <= i < |cfg.only| && HasPrefixFold(p, cfg.only[i]))
  }

  function Prefixes(cfg: Config): (prefixes: seq<string>)
    ensures prefixes != []
  {
    if cfg.only == [] then [""] else cfg.only
  }

  /** What a change says that the state need not be told. */
  predicate Known(cfg: Config, docs: map<Id, DocRecord>, id: Id, p: string, version: nat) {
    if id in docs then 0 < version <= docs[id].version && (p == "" || p == docs[id].path)
    else p != "" && !InScope(cfg, p)
  }

  /** The module shows the document to the daemon, at a path it syncs. */
  predicate ShownTo(cfg: Config, m: Module, id: Id) {
    Live(m, id) && InScope(cfg, m.docs[id].path)
  }

  /** A deletion of version `version`, 0 if unknown, is news of a recorded document. */
  predicate DeletionApplies(docs: map<Id, DocRecord>, id: Id, version: nat) {
    id in docs && (version == 0 || docs[id].version <= version)
  }

  // ---- worlds ----------------------------------------------------------------

  /** What the daemon was told in this life: its configuration, the feed entry it is at and the documents it
    * was answered about since, the documents the module's last word on was that they are gone from the
    * daemon's sight, and what each prefix of the listing in hand listed. */
  datatype Heard = Heard(cfg: Config, taken: Option<Change>, answered: set<Id>, unseen: set<Id>,
                         listed: map<string, set<Id>>)

  function Deaf(cfg: Config): Heard {
    Heard(cfg, None, {}, {}, map[])
  }

  /** What has been: every (file, content) the disk held, every record the state held, the records
    * seen with their conflict copy gone, the version and the file each document was created from, the
    * versions whose conflict copy could not be named, the feed entries handed to `applyChange` and done
    * with, how much of the feed was gone at the last full reconciliation, whether the feed's start moved
    * while it was being read or before it was first read, and what the daemon was told in this life. */
  datatype History = History(held: set<(string, Content)>, past: set<DocRecord>, resolved: set<DocRecord>,
                             filed: set<(Id, nat, string)>, unnamed: set<(Id, nat)>,
                             handed: set<Change>, reconciled: nat, trimmed: bool, heard: Heard)

  datatype World = World(disk: map<string, Content>, docs: map<Id, DocRecord>, lastSeq: int, lastFull: bool,
                         mod: Module, busy: bool, h: History)

  /** Who made a step. `Trims` is a step of others that moves the feed's start while it is being read or
    * before it was first read. `Sent` is the moment an update leaves, `Taken` and `Handed` the beginning and
    * the end of what `applyChange` does about a feed entry, `Reconciled` the end of a full reconciliation,
    * `Filed` the answer that a document was created from a file, `Unnamed` a conflict copy that cannot be
    * named in the record, `Answered` the module's answer to a request about one document, which tells of it
    * or only refuses, `Announced` a deletion that the feed or a notification tells of, `Lists` the
    * beginning and the end of a listing, `ListedUnder` the answer for one prefix of it, `Restarted` a
    * daemon that starts again after a crash or a stop. */
  datatype Actor = Begin | Person | Others | Trims | Daemon | Restarted(cfg: Config)
    | Sent(id: Id, base: nat) | Taken(entry: Change) | Handed(entry: Change) | Reconciled
    | Filed(doc: Id, version: nat, file: string) | Unnamed(doc: Id, version: nat)
    | Answered(doc: Id, told: bool) | Announced(doc: Id, version: nat) | Lists | ListedUnder(prefix: string)

  /** What has been heard once world w has been reached by `who`. */
  function HeardAfter(k: Heard, who: Actor, w: World): Heard {
    match who
    case Restarted(cfg) => Deaf(cfg)
    case Taken(c) => k.(taken := Some(c), answered := {})
    case Answered(id, told) =>
      k.(answered := k.answered + {id},
         unseen := if !told then k.unseen else if ShownTo(k.cfg, w.mod, id) then k.unseen - {id} else k.unseen + {id})
    case Announced(id, v) => k.(unseen := if DeletionApplies(w.docs, id, v) then k.unseen + {id} else k.unseen)
    case Lists => k.(listed := map[])
    case ListedUnder(p) => k.(listed := k.listed[p := Under(w.mod, p)])
    case _ => k
  }

  predicate IsFileOf(path: string, file: string) {
    LocalPath(path) == Some(file)
  }

  /** The conflict copy of a record is gone from the disk. */
  predicate CopyGone(disk: map<string, Content>, r: DocRecord) {
    r.conflict != "" && LocalPath(r.conflict).Some? && LocalPath(r.conflict).value !in disk
  }

  /** The history once world w has been reached by `who`. */
  function After(h: History, who: Actor, w: World): History {
    History(h.held + (set f | f in w.disk :: (f, w.disk[f])),
            h.past + (set id | id in w.docs :: w.docs[id]),
            h.resolved + (set id | id in w.docs && CopyGone(w.disk, w.docs[id]) :: w.docs[id]),
            if who.Filed? then h.filed + {(who.doc, who.version, who.file)} else h.filed,
            if who.Unnamed? then h.unnamed + {(who.doc, who.version)} else h.unnamed,
            if who.Handed? then h.handed + {who.entry} else h.handed,
            if who.Reconciled? then w.mod.floor else h.reconciled,
            h.trimmed || who.Trims?,
            HeardAfter(h.heard, who, w))
  }

  function Next(w: World, who: Actor): World {
    w.(h := After(w.h, who, w))
  }

  const NO_HISTORY := History({}, {}, {}, {}, {}, {}, 0, false, Deaf(Config([], [])))

  // ---- invariants ------------------------------------------------------------

  /** Records are unique by id and by path. */
  predicate TableOK(docs: map<Id, DocRecord>) {
    && (forall id :: id in docs ==> docs[id].id == id)
    && (forall a, b :: a in docs && b in docs && docs[a].path == docs[b].path ==> a == b)
  }

  predicate Observed(w: World) {
    && (forall f :: f in w.disk ==> (f, w.disk[f]) in w.h.held)
    && (forall id :: id in w.docs ==> w.docs[id] in w.h.past)
    && (forall id :: id in w.docs && CopyGone(w.disk, w.docs[id]) ==> w.docs[id] in w.h.resolved)
  }

  predicate TrueRecord(m: Module, r: DocRecord) {
    (r.id, r.version) in m.held && Checksum(m.held[(r.id, r.version)]) == r.checksum
  }

  predicate RecordsTrue(w: World) {
    forall r :: r in w.h.past ==> TrueRecord(w.mod, r)
  }

  /** Version v was recorded as what the file f is based on: f is the file of that record, or the conflict
    * copy that waited for it and was then gone. */
  predicate RecordShows(h: History, id: Id, v: nat, f: string, r: DocRecord) {
    && r in h.past && r.id == id && r.version == v
    && (f == r.path || IsFileOf(r.path, f) || (r in h.resolved && IsFileOf(r.conflict, f)))
  }

  /** The content of version v was on the disk in the file f, which was recorded for that version or is the
    * file the document was created from. */
  predicate SeenIn(w: World, id: Id, v: nat, f: string) {
    && (id, v) in w.mod.held && (f, w.mod.held[(id, v)]) in w.h.held
    && ((id, v, f) in w.h.filed || exists r :: r in w.h.past && RecordShows(w.h, id, v, f, r))
  }

  ghost predicate Seen(w: World, id: Id, v: nat) {
    exists f :: SeenIn(w, id, v, f)
  }

  /** What a record says its version is based on has been shown to the person, unless its conflict copy
    * could not be named. */
  ghost predicate BaseKnown(w: World, r: DocRecord) {
    if r.conflict == "" then Seen(w, r.id, r.version) || (r.id, r.version) in w.h.unnamed
    else
      && LocalPath(r.conflict).Some?
      && (r.id, r.version) in w.mod.held
      && (LocalPath(r.conflict).value, w.mod.held[(r.id, r.version)]) in w.h.held
  }

  ghost predicate BasesKnown(w: World) {
    forall id :: id in w.docs ==> BaseKnown(w, w.docs[id])
  }

  /** An entry of the feed at or before `upTo` was handed over and done with, or had left the feed before a full
    * reconciliation. */
  predicate Covered(w: World, upTo: int) {
    forall i :: 0 <= i < |w.mod.log| && w.mod.log[i].sequence <= upTo ==>
                  w.mod.log[i] in w.h.handed || i < w.h.reconciled
  }

  predicate CursorOK(w: World) {
    && 0 <= w.lastSeq <= w.mod.head
    && w.h.reconciled <= w.mod.floor
    && (!w.h.trimmed ==> Covered(w, w.lastSeq))
    && (!w.h.trimmed && w.lastFull && w.lastSeq == 0 ==> w.h.reconciled == w.mod.floor)
  }

  ghost predicate Inv(w: World) {
    && ModuleOK(w.mod) && TableOK(w.docs)
    && Observed(w) && RecordsTrue(w) && BasesKnown(w)
    && CursorOK(w)
  }

  // ---- steps -----------------------------------------------------------------

  predicate SameState(w: World, v: World) {
    w.docs == v.docs && w.lastSeq == v.lastSeq && w.lastFull == v.lastFull
  }

  /** The file `f` is that of a document, and `g` that of a path the document had in the module. */
  ghost predicate WentTo(w: World, f: string, g: string, id: Id, path: string) {
    && id in w.docs && IsFileOf(w.docs[id].path, f)
    && (id, path) in w.mod.placed && IsFileOf(path, g)
  }

  /** The content of `f` went on to a name that was free: under `.sin-acceso`, where no file but one that
    * already was takes the name of a conflict copy, or where its document went. */
  ghost predicate MovedTo(w: World, v: World, f: string, g: string) {
    && f in w.disk && g !in w.disk && g in v.disk && v.disk[g] == w.disk[f]
    && ((InNoAccess(g) && (IsCopyName(g) ==> IsCopyName(f))) || exists id, path :: WentTo(w, f, g, id, path))
  }

  /** The content of `f` is a version the module held of the document the file is. */
  ghost predicate HeldByModule(w: World, f: string, id: Id, v: nat) {
    && id in w.docs && IsFileOf(w.docs[id].path, f)
    && f in w.disk && (id, v) in w.mod.held && w.mod.held[(id, v)] == w.disk[f]
  }

  ghost predicate Kept(w: World, v: World, f: string)
    requires f in w.disk
  {
    || (f in v.disk && v.disk[f] == w.disk[f])
    || (exists g :: MovedTo(w, v, f, g))
    || (exists id, n :: HeldByModule(w, f, id, n))
  }

  /** What the file `g` holds was there, is a version of the module, or was moved there. */
  ghost predicate Explained(w: World, v: World, g: string)
    requires g in v.disk
  {
    || (g in w.disk && w.disk[g] == v.disk[g])
    || (exists k :: k in v.mod.held && v.mod.held[k] == v.disk[g])
    || (exists f :: MovedTo(w, v, f, g))
  }

  /** No local work is lost by one step, and nothing is made up. A file that may be overwritten freely is
    * named like one of the daemon's own conflict copies, which `CopiesAreHidden` shows is an ignored
    * name. */
  ghost predicate KeepsWork(w: World, v: World) {
    && (forall f :: f in w.disk && !IsCopyName(f) ==> Kept(w, v, f))
    && (forall g :: g in v.disk ==> Explained(w, v, g))
  }

  /** No prefix of the listing in hand listed the document. */
  predicate Unlisted(k: Heard, id: Id) {
    forall i :: 0 <= i < |Prefixes(k.cfg)| ==>
                  Prefixes(k.cfg)[i] in k.listed && id !in k.listed[Prefixes(k.cfg)[i]]
  }

  /** The module's word is that the document is gone from the daemon's sight. */
  predicate Gone(k: Heard, id: Id) {
    id in k.unseen || Unlisted(k, id)
  }

  predicate PathTaken(docs: map<Id, DocRecord>, path: string) {
    exists id :: id in docs && docs[id].path == path
  }

  /** The file is that of a document that is gone, or went where its document went. */
  ghost predicate LeftFor(w: World, disk: map<string, Content>, f: string, id: Id) {
    && id in w.docs && IsFileOf(w.docs[id].path, f)
    && (Gone(w.h.heard, id) || GoesAlong(w, disk, f, id))
  }

  /** The file went to where its document went in the module. */
  ghost predicate GoesAlong(w: World, disk: map<string, Content>, f: string, id: Id) {
    exists g, path :: WentTo(w, f, g, id, path) && g in disk
  }

  /** No record is forgotten and no file leaves its name but on the module's word: a record when its document
    * is gone or another's takes its path, a file when its document is gone or was moved. */
  ghost predicate LeavesOnWord(w: World, disk: map<string, Content>, docs: map<Id, DocRecord>) {
    && (forall id :: id in w.docs && id !in docs ==> Gone(w.h.heard, id) || PathTaken(docs, w.docs[id].path))
    && (forall f :: f in w.disk && f !in disk ==> exists id :: LeftFor(w, disk, f, id))
  }

  /** What a feed entry asks for that needs no answer: nothing, a deletion that was followed or is past, or a
    * change the state knows. */
  predicate NeedsNothing(w: World, c: Change) {
    || c.documentId == "" || c.kind.OtherChange?
    || (c.kind.Deleted? && !DeletionApplies(w.docs, c.documentId, c.version))
    || (!c.kind.Deleted? && Known(w.h.heard.cfg, w.docs, c.documentId, c.path, c.version))
  }

  /** A feed entry was done with: it needs nothing, or the module answered about its document since it was
    * taken up. */
  predicate Applied(w: World, c: Change) {
    w.h.heard.taken == Some(c)
    && (NeedsNothing(w, c) || (!c.kind.Deleted? && c.documentId in w.h.heard.answered))
  }

  /** When an update leaves: its base is what the record says, which is not marked read-only, nothing waits
    * for a merge, and the person has been shown the base, unless its copy could not be named. */
  ghost predicate SendOK(w: World, id: Id, base: nat) {
    && id in w.docs && w.docs[id].version == base
    && w.docs[id].conflict == "" && !w.docs[id].readOnly
    && (Seen(w, id, base) || (id, base) in w.h.unnamed)
  }

  /** A conflict copy of version v stands beside `local`, at a name the record cannot hold. */
  predicate UnnamedCopy(w: World, id: Id, v: nat, local: string) {
    var cp := ConflictName(local, v);
    && RemotePath(cp).None? && (id, v) in w.mod.held
    && cp in w.disk && w.disk[cp] == w.mod.held[(id, v)]
  }

  /** The feed is being read, or a full reconciliation has finished and nothing of it was read yet. */
  predicate FloorHeld(w: World) {
    w.busy || (w.lastFull && w.lastSeq == 0)
  }

  ghost predicate StepOK(w: World, who: Actor, v: World) {
    && v.h == After(w.h, who, v)
    && match who
       case Begin => false
       case Person => SameState(w, v) && v.mod == w.mod && v.busy == w.busy
       case Others =>
         && SameState(w, v) && v.disk == w.disk && v.busy == w.busy && ModuleGrows(w.mod, v.mod)
         && (FloorHeld(w) ==> v.mod.floor == w.mod.floor)
       case Trims =>
         && SameState(w, v) && v.disk == w.disk && v.busy == w.busy && ModuleGrows(w.mod, v.mod)
         && FloorHeld(w) && v.mod.floor != w.mod.floor
       case Daemon => KeepsWork(w, v) && LeavesOnWord(w, v.disk, v.docs)
                      && ModuleGrows(w.mod, v.mod) && v.mod.floor == w.mod.floor
                      && w.lastFull == v.lastFull && w.lastSeq <= v.lastSeq
       case Restarted(_) => SameState(w, v) && v.disk == w.disk && v.mod == w.mod && !v.busy
       case Sent(id, base) => v == w.(h := v.h) && SendOK(w, id, base)
       case Handed(c) => v == w.(h := v.h) && Applied(w, c)
       case Taken(_) => v == w.(h := v.h)
       case Answered(_, _) => v == w.(h := v.h)
       case Announced(_, _) => v == w.(h := v.h)
       case Lists => v == w.(h := v.h)
       case ListedUnder(_) => v == w.(h := v.h)
       case Reconciled => v == w.(h := v.h, lastFull := true)
       case Filed(id, n, f) =>
         v == w.(h := v.h) && (id, n) in w.mod.held && (f, w.mod.held[(id, n)]) in w.h.held
       case Unnamed(id, n) => v == w.(h := v.h) && exists local :: UnnamedCopy(w, id, n, local)
  }

  datatype Event = Event(who: Actor, w: World)

  /** A world in which the daemon never ran. */
  predicate Begins(w: World) {
    && w.docs == map[] && w.lastSeq == 0 && !w.lastFull && !w.busy
    && ModuleOK(w.mod)
    && w.h == After(NO_HISTORY, Begin, w)
  }

  ghost predicate InvAt(t: seq<Event>, i: int)
    requires 0 <= i < |t|
  {
    Inv(t[i].w)
  }

  ghost predicate StepAt(t: seq<Event>, i: int)
    requires 0 < i < |t|
  {
    StepOK(t[i - 1].w, t[i].who, t[i].w)
  }

  ghost predicate IsRun(t: seq<Event>) {
    && |t| > 0 && t[0].who == Begin && Begins(t[0].w)
    && (forall i :: 0 <= i < |t| ==> InvAt(t, i))
    && (forall i :: 0 < i < |t| ==> StepAt(t, i))
  }

  function Last(t: seq<Event>): World
    requires |t| > 0
  {
    t[|t| - 1].w
  }

  /** What has been shown is not forgotten. */
  predicate ShownGrows(h: History, k: History) {
    && h.held <= k.held && h.past <= k.past && h.resolved <= k.resolved
    && h.filed <= k.filed && h.unnamed <= k.unnamed
  }

  predicate HistoryGrows(h: History, k: History) {
    ShownGrows(h, k) && h.handed <= k.handed && h.reconciled <= k.reconciled && (h.trimmed ==> k.trimmed)
  }

  // ---- keeping the invariant --------------------------------------------------

  lemma SeenGrows(w: World, v: World, id: Id, n: nat)
    requires Seen(w, id, n)
    requires Keeps(w.mod.held, v.mod.held)
    requires ShownGrows(w.h, v.h)
    ensures Seen(v, id, n)
  {
    var f :| SeenIn(w, id, n, f);
    assert (id, n) in v.mod.held && v.mod.held[(id, n)] == w.mod.held[(id, n)];
    if (id, n, f) !in w.h.filed {
      var r :| r in w.h.past && RecordShows(w.h, id, n, f, r);
      assert RecordShows(v.h, id, n, f, r);
    }
    assert SeenIn(v, id, n, f);
  }

  lemma BaseKnownGrows(w: World, v: World, r: DocRecord)
    requires BaseKnown(w, r)
    requires Keeps(w.mod.held, v.mod.held)
    requires ShownGrows(w.h, v.h)
    ensures BaseKnown(v, r)
  {
    if r.conflict == "" {
      if Seen(w, r.id, r.version) {
        SeenGrows(w, v, r.id, r.version);
      }
    } else {
      assert (r.id, r.version) in w.mod.held;
    }
  }

  /** The invariant after a step that changes the disk, the module, the cursor and any number of
    * records, each new record being true and its base known. `v` is the new world with the old
    * history. */
  lemma InvAfter(w: World, who: Actor, v: World)
    requires Inv(w) && v.h == w.h
    requires ModuleOK(v.mod) && Keeps(w.mod.held, v.mod.held)
    requires TableOK(v.docs)
    requires forall id :: id in v.docs ==> (id in w.docs && w.docs[id] == v.docs[id]) || TrueRecord(v.mod, v.docs[id])
    requires forall id ::
               (id in v.docs && !(id in w.docs && w.docs[id] == v.docs[id])) ==> BaseKnown(Next(v, who), v.docs[id])
    requires CursorOK(Next(v, who))
    ensures Inv(Next(v, who))
  {
    hide CursorOK, ModuleOK, TableOK, BaseKnown, Observed, RecordsTrue, BasesKnown;
    var n := Next(v, who);
    ObservedNow(v, who);
    TrueAfter(w, who, v);
    hide After;
    KnownAfter(w, who, v);
  }

  lemma ObservedNow(v: World, who: Actor)
    ensures Observed(Next(v, who))
  {
  }

  lemma TrueAfter(w: World, who: Actor, v: World)
    requires RecordsTrue(w) && v.h == w.h && Keeps(w.mod.held, v.mod.held)
    requires forall id :: id in v.docs ==> (id in w.docs && w.docs[id] == v.docs[id]) || TrueRecord(v.mod, v.docs[id])
    requires Observed(w)
    ensures RecordsTrue(Next(v, who))
  {
    var n := Next(v, who);
    forall r | r in n.h.past
      ensures TrueRecord(n.mod, r)
    {
      if r in w.h.past {
        assert TrueRecord(w.mod, r);
        assert (r.id, r.version) in w.mod.held;
      }
    }
  }

  lemma KnownAfter(w: World, who: Actor, v: World)
    requires BasesKnown(w) && v.h == w.h && Keeps(w.mod.held, v.mod.held)
    requires forall id ::
               (id in v.docs && !(id in w.docs && w.docs[id] == v.docs[id])) ==> BaseKnown(Next(v, who), v.docs[id])
    ensures BasesKnown(Next(v, who))
  {
    var n := Next(v, who);
    forall id | id in n.docs
      ensures BaseKnown(n, n.docs[id])
    {
      if id in w.docs && w.docs[id] == n.docs[id] {
        BaseKnownGrows(w, n, n.docs[id]);
      }
    }
  }

  /** The cursor's part of the invariant while the module grows under it. */
  lemma CursorGrows(w: World, who: Actor, v: World)
    requires Inv(w) && v.h == w.h && !who.Reconciled?
    requires ModuleGrows(w.mod, v.mod)
    requires w.lastSeq == v.lastSeq && w.lastFull == v.lastFull
    requires FloorHeld(w) && v.mod.floor != w.mod.floor ==> who.Trims?
    ensures CursorOK(Next(v, who))
  {
    if !w.h.trimmed {
      forall i | 0 <= i < |v.mod.log| && v.mod.log[i].sequence <= v.lastSeq
        ensures v.mod.log[i] in w.h.handed || i < w.h.reconciled
      {
        if i < |w.mod.log| {
          assert v.mod.log[i] == v.mod.log[..|w.mod.log|][i] == w.mod.log[i];
        }
      }
    }
  }

  lemma BeginsInv(w: World)
    requires Begins(w)
    ensures Inv(w)
  {
  }

  // ---- the steps, one lemma each ----------------------------------------------

  lemma RestartStep(w: World, cfg: Config)
    requires Inv(w)
    ensures var n := Next(w.(busy := false), Restarted(cfg)); Inv(n) && StepOK(w, Restarted(cfg), n)
  {
    InvAfter(w, Restarted(cfg), w.(busy := false));
  }

  lemma PersonStep(w: World, disk: map<string, Content>)
    requires Inv(w)
    ensures var n := Next(w.(disk := disk), Person); Inv(n) && StepOK(w, Person, n)
  {
    InvAfter(w, Person, w.(disk := disk));
  }

  /** Who makes a step of others. */
  function OtherActor(w: World, mod: Module): Actor {
    if FloorHeld(w) && mod.floor != w.mod.floor then Trims else Others
  }

  lemma OthersStep(w: World, mod: Module)
    requires Inv(w) && ModuleGrows(w.mod, mod)
    ensures var who := OtherActor(w, mod);
            var n := Next(w.(mod := mod), who); Inv(n) && StepOK(w, who, n)
  {
    hide KeepsWork, LeavesOnWord, SendOK, Applied, UnnamedCopy, Observed, RecordsTrue, BasesKnown, DocsOK, FeedOK;
    CursorGrows(w, OtherActor(w, mod), w.(mod := mod));
    InvAfter(w, OtherActor(w, mod), w.(mod := mod));
  }

  lemma DiskStep(w: World, disk: map<string, Content>)
    requires Inv(w) && KeepsWork(w, w.(disk := disk)) && ModuleGrows(w.mod, w.mod)
    requires LeavesOnWord(w, disk, w.docs)
    ensures var n := Next(w.(disk := disk), Daemon); Inv(n) && StepOK(w, Daemon, n)
  {
    var v := w.(disk := disk);
    var n := Next(v, Daemon);
    InvAfter(w, Daemon, v);
    SameDisksKeepWork(w, v, n);
  }

  /** Whether work is kept is a matter of the disk alone. */
  lemma SameDisksKeepWork(w: World, v: World, n: World)
    requires KeepsWork(w, v) && n.disk == v.disk && n.mod == v.mod
    ensures KeepsWork(w, n)
  {
    hide IsCopyName, InNoAccess, WentTo;
    forall f | f in w.disk && !IsCopyName(f)
      ensures Kept(w, n, f)
    {
      assert Kept(w, v, f);
      if g :| MovedTo(w, v, f, g) {
        assert MovedTo(w, n, f, g);
      }
    }
    forall g | g in n.disk
      ensures Explained(w, n, g)
    {
      assert Explained(w, v, g);
      if f :| MovedTo(w, v, f, g) {
        assert MovedTo(w, n, f, g);
      }
    }
  }

  lemma TableStep(w: World, docs: map<Id, DocRecord>)
    requires Inv(w) && TableOK(docs) && ModuleGrows(w.mod, w.mod) && LeavesOnWord(w, w.disk, docs)
    requires forall id :: id in docs ==> (id in w.docs && w.docs[id] == docs[id]) || TrueRecord(w.mod, docs[id])
    requires forall id ::
               (id in docs && !(id in w.docs && w.docs[id] == docs[id])) ==> BaseKnown(Next(w.(docs := docs), Daemon), docs[id])
    ensures var n := Next(w.(docs := docs), Daemon); Inv(n) && StepOK(w, Daemon, n)
  {
    var n := Next(w.(docs := docs), Daemon);
    InvAfter(w, Daemon, w.(docs := docs));
    assert KeepsWork(w, n);
  }

  /** A save or a creation by the daemon. */
  lemma SaveStep(w: World, mod: Module)
    requires Inv(w) && ModuleGrows(w.mod, mod) && mod.floor == w.mod.floor
    ensures var n := Next(w.(mod := mod), Daemon); Inv(n) && StepOK(w, Daemon, n)
  {
    var n := Next(w.(mod := mod), Daemon);
    hide SendOK, Applied, UnnamedCopy, Observed, RecordsTrue, BasesKnown, DocsOK, FeedOK;
    CursorGrows(w, Daemon, w.(mod := mod));
    InvAfter(w, Daemon, w.(mod := mod));
    assert KeepsWork(w, n);
  }

  lemma CursorStep(w: World, upTo: int, busy: bool)
    requires Inv(w) && ModuleGrows(w.mod, w.mod)
    requires upTo == w.lastSeq
             || (w.lastSeq <= upTo <= w.mod.head && 0 < upTo && (!w.h.trimmed ==> Covered(w, upTo)))
    ensures var n := Next(w.(lastSeq := upTo, busy := busy), Daemon); Inv(n) && StepOK(w, Daemon, n)
  {
    var v := w.(lastSeq := upTo, busy := busy);
    assert TableOK(w.docs) && ModuleOK(w.mod) && CursorOK(Next(v, Daemon));
    hide Inv, ModuleGrows, CursorOK, TableOK, ModuleOK, After;
    InvAfter(w, Daemon, v);
    assert KeepsWork(w, Next(v, Daemon));
  }

  lemma SentStep(w: World, id: Id, base: nat)
    requires Inv(w) && SendOK(w, id, base)
    ensures var n := Next(w, Sent(id, base)); Inv(n) && StepOK(w, Sent(id, base), n)
  {
    InvAfter(w, Sent(id, base), w);
  }

  lemma HandedStep(w: World, c: Change)
    requires Inv(w) && Applied(w, c)
    ensures var n := Next(w, Handed(c)); Inv(n) && StepOK(w, Handed(c), n)
  {
    InvAfter(w, Handed(c), w);
  }

  /** What the daemon hears changes only what it has heard. */
  predicate IsHearing(who: Actor) {
    who.Taken? || who.Answered? || who.Announced? || who.Lists? || who.ListedUnder?
  }

  lemma HearingStep(w: World, who: Actor)
    requires Inv(w) && IsHearing(who)
    ensures var n := Next(w, who); Inv(n) && StepOK(w, who, n)
  {
    InvAfter(w, who, w);
  }

  lemma FiledStep(w: World, id: Id, version: nat, f: string)
    requires Inv(w) && (id, version) in w.mod.held && (f, w.mod.held[(id, version)]) in w.h.held
    ensures var who := Filed(id, version, f);
            var n := Next(w, who); Inv(n) && StepOK(w, who, n)
  {
    InvAfter(w, Filed(id, version, f), w);
  }

  lemma UnnamedStep(w: World, id: Id, version: nat, local: string)
    requires Inv(w) && UnnamedCopy(w, id, version, local)
    ensures var who := Unnamed(id, version);
            var n := Next(w, who); Inv(n) && StepOK(w, who, n)
  {
    InvAfter(w, Unnamed(id, version), w);
  }

  lemma ReconciledStep(w: World)
    requires Inv(w)
    ensures var n := Next(w.(lastFull := true), Reconciled); Inv(n) && StepOK(w, Reconciled, n)
  {
    InvAfter(w, Reconciled, w.(lastFull := true));
  }

  lemma StepHistory(w: World, who: Actor, v: World)
    requires Inv(w) && StepOK(w, who, v)
    ensures HistoryGrows(w.h, v.h)
  {
  }

  // ---- runs ------------------------------------------------------------------

  lemma LastInv(t: seq<Event>)
    requires IsRun(t)
    ensures |t| > 0 && Inv(Last(t)) && ModuleOK(Last(t).mod) && TableOK(Last(t).docs)
  {
    assert InvAt(t, |t| - 1);
  }

  lemma ExtendRun(t: seq<Event>, e: Event)
    requires IsRun(t) && Inv(e.w) && StepOK(Last(t), e.who, e.w)
    ensures IsRun(t + [e])
  {
    hide Inv, StepOK, Begins;
    var u := t + [e];
    forall i | 0 <= i < |u|
      ensures InvAt(u, i)
    {
      if i < |t| {
        assert InvAt(t, i) && u[i] == t[i];
      }
    }
    forall i | 0 < i < |u|
      ensures StepAt(u, i)
    {
      if i < |t| {
        assert StepAt(t, i) && u[i] == t[i] && u[i - 1] == t[i - 1];
      } else {
        assert u[i - 1] == t[|t| - 1];
      }
    }
  }

  /** A crash can come after any step: what has happened by then is a run. */
  lemma CrashAnywhere(t: seq<Event>, n: nat)
    requires IsRun(t) && 0 < n <= |t|
    ensures IsRun(t[..n])
  {
    hide Inv, StepOK, Begins;
    var u := t[..n];
    forall i | 0 <= i < |u|
      ensures InvAt(u, i)
      ensures i > 0 ==> StepAt(u, i)
    {
      assert InvAt(t, i) && u[i] == t[i];
      assert i > 0 ==> StepAt(t, i) && u[i - 1] == t[i - 1];
    }
  }

  lemma LastStep(t: seq<Event>)
    requires IsRun(t) && |t| > 1
    ensures StepOK(t[|t| - 2].w, t[|t| - 1].who, Last(t))
  {
    assert StepAt(t, |t| - 1);
  }

  /** From any point of a run to its end the module and the history have only grown. */
  lemma {:induction false} RunGrows(t: seq<Event>, n: nat)
    requires IsRun(t) && 0 < n <= |t|
    ensures ModuleGrows(t[n - 1].w.mod, Last(t).mod)
    ensures HistoryGrows(t[n - 1].w.h, Last(t).h)
    decreases |t|
  {
    hide IsRun, Inv, StepOK, ModuleGrows, ModuleOK, TableOK;
    LastInv(t);
    if n == |t| {
      ModuleGrowsRefl(Last(t).mod);
    } else {
      var u := t[..|t| - 1];
      CrashAnywhere(t, |t| - 1);
      RunGrows(u, n);
      assert u[n - 1] == t[n - 1] && Last(u) == t[|t| - 2].w;
      LastInv(u);
      LastStep(t);
      StepGrows(Last(u), t[|t| - 1].who, Last(t));
      ModuleGrowsTrans(t[n - 1].w.mod, Last(u).mod, Last(t).mod);
    }
  }

  lemma StepGrows(w: World, who: Actor, v: World)
    requires Inv(w) && Inv(v) && StepOK(w, who, v)
    ensures ModuleGrows(w.mod, v.mod) && HistoryGrows(w.h, v.h)
  {
    if v.mod == w.mod {
      ModuleGrowsRefl(w.mod);
    }
  }

  lemma ModuleGrowsRefl(m: Module)
    requires ModuleOK(m)
    ensures ModuleGrows(m, m)
  {
  }

  lemma ModuleGrowsTrans(a: Module, b: Module, c: Module)
    requires ModuleGrows(a, b) && ModuleGrows(b, c)
    ensures ModuleGrows(a, c)
  {
    assert c.log[..|a.log|] == c.log[..|b.log|][..|a.log|];
    forall i | |a.log| <= i < |c.log|
      ensures a.head < c.log[i].sequence
    {
      if i < |b.log| {
        assert c.log[i] == c.log[..|b.log|][i] == b.log[i];
      }
    }
    forall k | k in a.held
      ensures k in c.held && c.held[k] == a.held[k]
    {
      assert k in b.held;
    }
  }
}
