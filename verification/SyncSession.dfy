/** One whole session of internal/docsync/engine.go, from an empty folder to a saved edit: the engine's
 * contracts composed. */
module SyncSession {
  import opened Common
  import opened Text
  import opened Files
  import opened DocModel
  import opened StateDb
  import opened Remote
  import opened SyncEngine

  const ID := "1"
  const ALL := Config([], [])

  /** A module that holds one document and lists folders to admins only. */
  function OneDocument(path: string, content: Content, stated: bool): Module {
    Module(map[(ID, 1) := content], {(ID, path)}, map[ID := Doc(path, "f", 1, 1, false, true)],
           [Change(1, Created, ID, 1, path)], 0, 1, map[], true, stated)
  }

  /** A folder the daemon never synced, beside a module. */
  function Unsynced(disk: map<string, Content>, m: Module): World {
    var w := World(disk, map[], 0, false, m, false, NO_HISTORY);
    w.(h := After(NO_HISTORY, Begin, w))
  }

  lemma UnsyncedBegins(disk: map<string, Content>, m: Module)
    requires ModuleOK(m)
    ensures Begins(Unsynced(disk, m)) && IsRun([Event(Begin, Unsynced(disk, m))])
  {
    hide ModuleOK;
    BeginsInv(Unsynced(disk, m));
  }

  /** A path whose file the daemon syncs and uploads. */
  predicate Synced(path: string) {
    Plain(path) && !HiddenPath(path) && Uploadable(ALL, path)
  }

  lemma OneIsOK(path: string, content: Content, stated: bool)
    ensures ModuleOK(OneDocument(path, content, stated))
  {
  }

  lemma OneListed(path: string, content: Content, stated: bool)
    requires ModuleOK(OneDocument(path, content, stated))
    ensures var m := OneDocument(path, content, stated);
            Listing(m, Prefixes(ALL)) == map[ID := RemoteOf(m, ID)]
  {
    hide ModuleOK, RemoteOf;
    var m := OneDocument(path, content, stated);
    assert HasPrefix(m.docs[ID].path, Prefixes(ALL)[0]);
    assert Selected(m, Prefixes(ALL), ID);
  }

  lemma EmptyIsSettleable(path: string, content: Content, stated: bool)
    requires Synced(path) && ModuleOK(OneDocument(path, content, stated))
    ensures Settleable(ALL, map[], map[], OneDocument(path, content, stated)) && EditsOf(map[], map[]) == map[]
  {
    hide ModuleOK, Plain, HiddenPath, LocalPath, Lower, Listing;
    OneListed(path, content, stated);
    assert EditsOf(map[], map[]) == map[];
    var m := OneDocument(path, content, stated);
    assert RemoteOf(m, ID).path == path && RemoteOf(m, ID).id == ID;
  }

  /** A first reconciliation brings the document into the folder; the person edits the file; the edit is
    * sent and is the module's version, the file's content and what the record says. */
  method EditReachesModule(path: string, content: Content, edit: Content, stated: bool)
    returns (disk: map<string, Content>, mod: Module, ghost run: seq<Event>)
    requires Synced(path) && edit != content
    ensures path in disk && disk[path] == edit
    ensures ModuleOK(mod) && Live(mod, ID) && CurrentContent(mod, ID) == edit
    ensures (ID, 1) in mod.held && mod.held[(ID, 1)] == content
    ensures IsRun(run) && Last(run).disk == disk && Last(run).mod == mod
    ensures ID in Last(run).docs && Last(run).docs[ID].checksum == Checksum(edit)
            && Last(run).docs[ID].version == mod.docs[ID].version
    ensures SentSince([], run, ID, 1)
  {
    hide IsRun, Inv, ModuleOK, TableOK, Plain, HiddenPath, InScope, LocalPath, Lower, Settleable, Listing, ModuleGrows;
    hide ReadyToUpload, Agrees, Synced, Unremarkable, Waiting, Uploadable;
    var m := OneDocument(path, content, stated);
    OneIsOK(path, content, stated);
    OneListed(path, content, stated);
    EmptyIsSettleable(path, content, stated);
    UnsyncedBegins(map[], m);
    var state := new State(map[], map[], 0, false);
    var engine := new Engine(ALL, [], map[], m, state, [Event(Begin, Unsynced(map[], m))]);
    ghost var calls, known, all;
    var e;
    e, calls, known, all := engine.FullReconcile();
    ConvergedOne(engine.disk, state.docs, engine.mod, known, m, path, content, stated);
    AgreedOne(engine.disk, state.docs, m, path, content);
    var edited := engine.disk[path := edit];
    engine.Play([PersonMakes(edited)]);
    Editable(engine.disk, state.docs, m, path, content, edit);
    ghost var before := engine.trace;
    LastInv(before);
    e := engine.LocalChanged(path);
    disk, mod, run := engine.disk, engine.mod, engine.trace;
    HeldAtLast(before, run, m);
    assert (ID, 1) in m.held;
  }

  lemma ConvergedOne(disk: map<string, Content>, docs: map<Id, DocRecord>, mod: Module, known: map<string, string>,
                     m: Module, path: string, content: Content, stated: bool)
    requires ModuleOK(m) && ModuleOK(mod) && m == OneDocument(path, content, stated)
    requires Converged(ALL, m, map[], disk, docs, mod, known) && PermissionsKnown(m, Prefixes(ALL), known)
    ensures mod == m && known == map[] && ID in docs && Agrees(disk, docs, m, map[], ID)
  {
    hide ModuleOK, Agrees, Listing;
    OneListed(path, content, stated);
  }

  lemma Editable(disk: map<string, Content>, docs: map<Id, DocRecord>, m: Module, path: string, content: Content, edit: Content)
    requires ModuleOK(m) && Synced(path) && edit != content && m.docs == map[ID := Doc(path, "f", 1, 1, false, true)]
    requires m.held == map[(ID, 1) := content] && path in disk && disk[path] == edit
    requires ID in docs && docs[ID] == FreshRecord(m, map[], ID)
    ensures ReadyToUpload(ALL, disk, docs, m, ID) && docs[ID].path == path && docs[ID].version == 1
  {
    hide Plain, HiddenPath, InScope, LocalPath, Lower, ModuleOK;
    if Checksum(edit) == Checksum(content) {
      ChecksumInjective(edit, content);
    }
  }

  lemma AgreedOne(disk: map<string, Content>, docs: map<Id, DocRecord>, m: Module, path: string, content: Content)
    requires ModuleOK(m) && m.docs == map[ID := Doc(path, "f", 1, 1, false, true)] && m.held == map[(ID, 1) := content]
    requires Agrees(disk, docs, m, map[], ID)
    ensures path in disk && disk[path] == content && ID in docs && docs[ID] == FreshRecord(m, map[], ID)
  {
    hide ModuleOK;
  }

  lemma HeldAtLast(before: seq<Event>, run: seq<Event>, m: Module)
    requires IsRun(before) && IsRun(run) && before != [] && before <= run && Last(before).mod == m
    ensures Keeps(m.held, Last(run).mod.held)
  {
    hide IsRun, ModuleGrows;
    AllHandedStay(before, run);
    HeldGrows(m, Last(run).mod);
  }
}
