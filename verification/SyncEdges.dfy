/** Where internal/docsync/engine.go keeps its promises and where it does not: the exact conditions, and an
 * input that fails each. */
module SyncEdges {
  import opened Common
  import opened Text
  import opened Files
  import opened DocModel
  import opened Remote
  import opened SyncEngine
  import opened DocRuns

  /** A conflict is remembered — so that nothing is uploaded before it is merged — exactly when the
    * file's first segment does not start with "..". */
  lemma ConflictIsRememberedIff(disk: map<string, Content>, d: RemoteDoc, c: Content, rec: Option<DocRecord>,
                                permissions: map<string, string>)
    requires Plain(d.path) && HasLocalChanges(disk, d.path, rec) && disk[d.path] != c
    ensures var r := PlacedRecord(disk, d.path, NextRecord(d, c, permissions), c, rec);
            r.conflict != "" <==> !DotDot(d.path)
    ensures var r := PlacedRecord(disk, d.path, NextRecord(d, c, permissions), c, rec);
            !DotDot(d.path) ==> IsFileOf(r.conflict, ConflictName(d.path, d.version))
  {
    hide Plain, LocalPath, ConflictName;
    CopyIsTracked(d.path, d.version);
    ConflictNameIsPlain(d.path, d.version);
    PlainIsFile(ConflictName(d.path, d.version));
  }

  /** An edit on an outdated version stays where it is, the module's version goes beside it, and the record
    * waits for that copy. */
  lemma OutdatedEditStays(cfg: Config, disk: map<string, Content>, docs: map<Id, DocRecord>, m: Module,
                          permissions: map<string, string>, id: Id)
    requires ModuleOK(m) && TableOK(docs) && Outdated(cfg, disk, docs, m, id) && docs[id].path == m.docs[id].path
    ensures var p, d, c, rec := docs[id].path, RemoteOf(m, id), CurrentContent(m, id), Some(docs[id]);
            var cp, after := ConflictName(p, d.version), FetchedDisk(disk, d, c, rec);
            && after == disk[cp := c] && after[p] == disk[p]
            && IsFileOf(FetchedRecord(disk, d, c, permissions, rec).conflict, cp)
  {
    hide ModuleOK, LocalPath, Plain, ConflictName, IsCopyName, HiddenPath, InScope, Lower;
    var p, d, c, rec := docs[id].path, RemoteOf(m, id), CurrentContent(m, id), Some(docs[id]);
    ConflictNameIsCopy(p, d.version);
    if IsCopyName(p) {
      CopiesAreHidden(p);
    }
    ConflictIsRememberedIff(disk, d, c, rec, permissions);
  }

  /** The content is in some file, or is a version of the module. */
  ghost predicate Survives(disk: map<string, Content>, m: Module, x: Content) {
    (exists f :: f in disk && disk[f] == x) || (exists k :: k in m.held && m.held[k] == x)
  }

  /** Putting a version beside an edited file keeps everything the folder held exactly when a file that stands
    * at the copy's name holds nothing that is only there. */
  lemma CopyKeepsWorkIff(disk: map<string, Content>, d: RemoteDoc, c: Content, rec: Option<DocRecord>, m: Module)
    requires HasLocalChanges(disk, d.path, rec) && disk[d.path] != c && IsVersion(m, d.id, d.version, c)
    ensures var cp := ConflictName(d.path, d.version);
            (forall f :: f in disk ==> Survives(PlacedDisk(disk, d.path, d.version, c, rec), m, disk[f]))
            <==> (cp in disk ==> Survives(disk - {cp}, m, disk[cp]))
  {
    hide ConflictName;
    var cp := ConflictName(d.path, d.version);
    var after := PlacedDisk(disk, d.path, d.version, c, rec);
    forall f | f in disk && f != cp
      ensures Survives(after, m, disk[f])
    {
      assert f in after && after[f] == disk[f];
    }
    if cp in disk {
      if f :| f in after && after[f] == disk[cp] {
        assert f != cp ==> f in disk - {cp} && (disk - {cp})[f] == disk[cp];
      }
      if f :| f in disk - {cp} && (disk - {cp})[f] == disk[cp] {
        assert f in after && after[f] == disk[cp];
      }
    }
  }

  /** When a new document is filed by its folder, its record is at the file it was made from exactly
    * when the folder's own path is the file's directory. */
  lemma FiledAtItsFileIff(m: Module, id: Id, folderId: string, f: string, content: Content, bump: nat)
    requires ModuleOK(m) && id !in m.docs && folderId in m.folders
    ensures var r, where := CreateAnswer(m, id, folderId, SplitName(f).1, content, bump, None), m.folders[folderId].path;
            r.0.Fine?
            && (CreatedRecord(r.1, f, folderId, content).path == f <==>
                where == SplitName(f).0 || where + SplitName(f).1 == "")
  {
    hide ModuleOK;
    var where, s := m.folders[folderId].path, SplitName(f);
    if where + s.1 == f {
      assert |where| == |s.0|;
      assert where == (where + s.1)[..|where|] && s.0 == (s.0 + s.1)[..|s.0|];
    }
  }

  /** Folders are looked up without regard to case and files are not: a new file in "/Infra/" is
    * created in the folder "/infra/" and filed there, so its record is not at the file's path. */
  lemma FiledUnderAnotherCase(m: Module, content: Content)
    requires ModuleOK(m) && "9" !in m.docs
    requires m.folders == map["f" := RemoteFolder("f", "/infra/", "write")]
    ensures FolderKey(SplitName("/Infra/a.md").0) == FolderKey(m.folders["f"].path)
    ensures var r := CreateAnswer(m, "9", "f", SplitName("/Infra/a.md").1, content, 0, None);
            r.0.Fine? && CreatedRecord(r.1, "/Infra/a.md", "f", content).path == "/infra/a.md" != "/Infra/a.md"
  {
    hide ModuleOK;
    LowerInfra();
    assert TrimSuffix("/Infra/", "/") == "/Infra" && TrimSuffix("/infra/", "/") == "/infra";
    SplitNameOf("/Infra/", "a.md");
    assert "/Infra/" + "a.md" == "/Infra/a.md" && "/infra/" + "a.md" == "/infra/a.md";
    assert "/infra/a.md"[1] != "/Infra/a.md"[1];
  }

  lemma {:induction false} SplitNameOf(dir: string, name: string)
    requires dir != "" && dir[|dir| - 1] == '/' && '/' !in name
    ensures SplitName(dir + name) == (dir, name)
  {
    if name == "" {
      assert dir + name == dir;
    } else {
      var front := name[..|name| - 1];
      SplitNameOf(dir, front);
      assert (dir + name)[..|dir + name| - 1] == dir + front;
      assert front + [name[|name| - 1]] == name;
    }
  }

  lemma LowerInfra()
    ensures Lower("/Infra") == Lower("/infra")
  {
    assert "/Infra"[1..] == "Infra" && "/infra"[1..] == "infra";
    assert "Infra"[1..] == "nfra" == "infra"[1..];
  }

  /** The window the cursor does not guard: a full reconciliation has finished, nothing of the feed was read
    * yet, and the feed's start moves past an entry that was never handed over. Whatever page is answered
    * first, it does not hold the entry, and its cursor is past it. */
  lemma TrimmedBeforeFirstRead(w: World, m: Module, i: nat, size: nat, upTo: int)
    requires Inv(w) && w.lastFull && w.lastSeq == 0 && !w.h.trimmed
    requires ModuleGrows(w.mod, m) && w.mod.floor <= i < m.floor && m.log[i] !in w.h.handed
    ensures OtherActor(w, m) == Trims
    ensures var r := ChangesAnswer(m, 0, size, upTo);
            var read := set c | c in r.1.items;
            && r.0.Fine? && m.log[i] !in r.1.items && m.log[i].sequence <= r.1.nextSeq
            && !Covered(w.(mod := m, h := w.h.(handed := w.h.handed + read)), r.1.nextSeq)
  {
    hide ModuleGrows, RecordsTrue, BasesKnown, Observed, PageStart, DeletionsAreOlder;
    assert ModuleOK(m) by { ModuleGrowsOK(w.mod, m); }
    var start := PageStart(m, 0);
    var page := PageAt(m, 0, start, size, upTo);
    ChangesContract(m, 0, size, upTo);
    assert start >= m.floor by { StartIsKept(m); }
    forall c | c in page.items ensures c.sequence > m.log[i].sequence {
      var k :| 0 <= k < |page.items| && page.items[k] == c;
      assert c == m.log[start + k];
    }
    assert m.log[i].sequence <= m.log[m.floor - 1].sequence;
  }

  lemma ModuleGrowsOK(m: Module, n: Module)
    requires ModuleGrows(m, n)
    ensures ModuleOK(n)
  {
  }

  lemma StartIsKept(m: Module)
    requires ModuleOK(m)
    ensures PageStart(m, 0) >= m.floor
  {
    hide ModuleOK;
  }
}
