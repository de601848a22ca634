/** The docs module behind internal/docsync/remote.go: its answer to each request, and what can go wrong on
 * the way. The answers are the contract the engine relies on. */
module Remote {
  import opened Common
  import opened Text
  import opened Files
  import opened DocModel

  datatype Code = DocumentNotFound | VersionConflict | DocumentLocked | AlreadyExists | InvalidCursor
    | PermissionDenied | CallerNotAuthorized | FrontmatterInvalid | ContentTooLarge | FileNameInvalid | OtherCode

  /** How a call ended. `Failed` is a failure on this side, such as a move onto an existing file. */
  datatype Err = Fine | Unreachable | Refused(code: Code) | Failed

  /** A request can be lost before the module sees it, or answered into the void; and the module can
    * refuse any request for reasons of its own. */
  datatype Fault = NoFault | RequestLost | ReplyLost | Refuses(code: Code)

  /** What happens in the world while the engine waits: the person leaves the folder in any state,
    * others leave the module in any state its contract allows. */
  datatype Move = PersonMakes(disk: map<string, Content>) | OthersMake(mod: Module)

  /** One request's share of the environment: what happens before the module answers and before the
    * engine goes on, and what the module was free to choose. */
  datatype Turn = Turn(before: seq<Move>, fault: Fault, after: seq<Move>,
                       bump: nat, size: nat, upTo: int, filed: Option<string>, newID: Id)

  /** Nothing happens and the request succeeds. */
  const QUIET := Turn([], NoFault, [], 0, 499, 0, None, "")

  function CurrentContent(m: Module, id: Id): Content
    requires ModuleOK(m) && id in m.docs
  {
    m.held[(id, m.docs[id].version)]
  }

  function RemoteOf(m: Module, id: Id): RemoteDoc
    requires ModuleOK(m) && id in m.docs
  {
    var d := m.docs[id];
    RemoteDoc(id, d.path, d.folderId, d.version,
              if m.statesChecksums then Checksum(CurrentContent(m, id)) else "", d.deleted)
  }

  const NO_DOC := RemoteDoc("", "", "", 0, "", false)

  /** Asking by id answers deleted documents too; one that is not readable is not found. */
  function GetAnswer(m: Module, id: Id): (Err, RemoteDoc, Content)
    requires ModuleOK(m)
  {
    if id in m.docs && m.docs[id].readable then (Fine, RemoteOf(m, id), CurrentContent(m, id))
    else (Refused(DocumentNotFound), NO_DOC, "")
  }

  function ListAnswer(m: Module, prefix: string): map<Id, RemoteDoc>
    requires ModuleOK(m)
  {
    map id | id in m.docs && Live(m, id) && HasPrefix(m.docs[id].path, prefix) :: RemoteOf(m, id)
  }

  function FoldersUnder(m: Module, prefix: string): map<string, RemoteFolder> {
    map k | k in m.folders && HasPrefix(m.folders[k].path, prefix) :: m.folders[k]
  }

  /** A save is accepted on the current version, or when it changes nothing. */
  function UpdateAnswer(m: Module, id: Id, base: nat, content: Content, bump: nat): (Err, nat, Module)
    requires ModuleOK(m)
  {
    if !Live(m, id) then (Refused(DocumentNotFound), 0, m)
    else if CurrentContent(m, id) == content then (Fine, m.docs[id].version, m)
    else if base != m.docs[id].version then (Refused(VersionConflict), 0, m)
    else
      var v := base + 1 + bump;
      (Fine, v, m.(held := m.held[(id, v) := content],
                   docs := m.docs[id := m.docs[id].(version := v)],
                   log := m.log + [Change(m.head + 1, Updated, id, v, m.docs[id].path)],
                   head := m.head + 1))
  }

  /** A creation repeated with its id and content makes nothing new. The module files the document where it
    * sees fit: `filed`, or the folder's own path and the name. */
  function CreateAnswer(m: Module, id: Id, folderId: string, name: string, content: Content,
                        bump: nat, filed: Option<string>): (Err, RemoteDoc, Module)
    requires ModuleOK(m)
  {
    if id in m.docs then
      var d := m.docs[id];
      if m.held[(id, d.born)] == content
      then (Fine, RemoteDoc(id, d.path, folderId, d.born, Checksum(content), false), m)
      else (Refused(AlreadyExists), NO_DOC, m)
    else
      var v := 1 + bump;
      var path := if filed.Some? then filed.value
                  else if folderId in m.folders then m.folders[folderId].path + name else name;
      (Fine, RemoteDoc(id, path, folderId, v, Checksum(content), false),
       m.(held := m.held[(id, v) := content], placed := m.placed + {(id, path)},
          docs := m.docs[id := Doc(path, folderId, v, v, false, true)],
          log := m.log + [Change(m.head + 1, Created, id, v, path)],
          head := m.head + 1))
  }

  /** The sequence of the last entry the feed no longer keeps, 0 when it keeps everything. */
  function LastTrimmed(m: Module): int
    requires ModuleOK(m)
  {
    if m.floor == 0 then 0 else m.log[m.floor - 1].sequence
  }

  /** How many entries, from the start of the log, are at or before `since`. */
  function Position(log: seq<Change>, since: int): (n: nat)
    ensures n <= |log|
    ensures n > 0 ==> log[n - 1].sequence <= since
    ensures n < |log| && Increasing(log) ==> log[n].sequence > since
  {
    if log == [] then 0
    else if log[|log| - 1].sequence <= since then |log|
    else Position(log[..|log| - 1], since)
  }

  function Min(a: int, b: int): int {
    if a < b then a else b
  }

  function Max(a: int, b: int): int {
    if a < b then b else a
  }

  datatype Page = Page(items: seq<Change>, nextSeq: int, hasMore: bool)

  /** One page of the feed after `since`. A cursor the feed no longer reaches back to is invalid; 0
    * is always valid. */
  function ChangesAnswer(m: Module, since: int, size: nat, upTo: int): (Err, Page)
    requires ModuleOK(m)
  {
    if since != 0 && since < LastTrimmed(m) then (Refused(InvalidCursor), Page([], 0, false))
    else
      (Fine, PageAt(m, since, PageStart(m, since), size, upTo))
  }

  function PageStart(m: Module, since: int): (start: nat)
    requires ModuleOK(m)
    ensures start <= |m.log|
  {
    Max(m.floor, Position(m.log, since))
  }

  /** A page is the next stretch of the feed; `nextSeq` is at or past it and everything no longer
    * kept, and before the first entry not in it. */
  predicate PageFrom(m: Module, since: int, start: nat, page: Page)
    requires ModuleOK(m)
  {
    var end := start + |page.items|;
    && end <= |m.log| && page.items == m.log[start..end]
    && (since == 0 || LastTrimmed(m) <= since)
    && (page.hasMore <==> end < |m.log|)
    && (end < |m.log| ==> end > start && page.nextSeq < m.log[end].sequence)
    && LastTrimmed(m) <= page.nextSeq
    && (end > start ==> m.log[end - 1].sequence <= page.nextSeq)
    && page.nextSeq <= Max(since, m.head)
  }

  predicate PageOK(m: Module, since: int, page: Page)
    requires ModuleOK(m)
  {
    PageFrom(m, since, PageStart(m, since), page)
  }

  lemma ChangesContract(m: Module, since: int, size: nat, upTo: int)
    requires ModuleOK(m) && 0 <= since
    ensures var r := ChangesAnswer(m, since, size, upTo);
            if r.0.Fine? then PageOK(m, since, r.1)
            else r.0 == Refused(InvalidCursor) && 0 < since < LastTrimmed(m)
  {
    if since == 0 || LastTrimmed(m) <= since {
      PageContract(m, since, PageStart(m, since), size, upTo);
    }
  }

  function PageAt(m: Module, since: int, start: nat, size: nat, upTo: int): Page
    requires ModuleOK(m) && start <= |m.log|
  {
    var end := Min(|m.log|, start + 1 + size);
    var low := if end > start then m.log[end - 1].sequence else Max(since, LastTrimmed(m));
    var high := if end < |m.log| then m.log[end].sequence - 1 else Max(low, m.head);
    Page(m.log[start..end], Max(low, Min(upTo, high)), end < |m.log|)
  }

  lemma PageContract(m: Module, since: int, start: nat, size: nat, upTo: int)
    requires ModuleOK(m) && 0 <= since && (since == 0 || LastTrimmed(m) <= since)
    requires m.floor <= start <= |m.log|
    ensures PageFrom(m, since, start, PageAt(m, since, start, size, upTo))
  {
    var end := Min(|m.log|, start + 1 + size);
    assert |m.log[start..end]| == end - start;
    NextSeqBounds(m, since, start, end, upTo);
  }

  lemma NextSeqBounds(m: Module, since: int, start: nat, end: nat, upTo: int)
    requires ModuleOK(m) && 0 <= since && (since == 0 || LastTrimmed(m) <= since)
    requires m.floor <= start <= end <= |m.log|
    requires end < |m.log| ==> start < end
    ensures var low := if end > start then m.log[end - 1].sequence else Max(since, LastTrimmed(m));
            var high := if end < |m.log| then m.log[end].sequence - 1 else Max(low, m.head);
            LastTrimmed(m) <= low <= high <= Max(since, m.head)
  {
    assert end > start && m.floor > 0 ==> m.log[m.floor - 1].sequence < m.log[end - 1].sequence;
    assert end > start ==> 0 < m.log[end - 1].sequence <= m.head;
    assert end < |m.log| ==> m.log[end - 1].sequence < m.log[end].sequence <= m.head;
  }

  // ---- the answers keep the contract -----------------------------------------

  function Appended(m: Module, id: Id, d: Doc, content: Content, kind: ChangeType): Module {
    m.(held := m.held[(id, d.version) := content], placed := m.placed + {(id, d.path)}, docs := m.docs[id := d],
       log := m.log + [Change(m.head + 1, kind, id, d.version, d.path)],
       head := m.head + 1)
  }

  /** A new version, and its entry at the end of the feed. */
  lemma AppendGrows(m: Module, id: Id, d: Doc, content: Content, kind: ChangeType)
    requires ModuleOK(m) && !kind.Deleted?
    requires id in m.docs ==> m.docs[id].version < d.version && d.born == m.docs[id].born && !m.docs[id].deleted
    requires id !in m.docs ==> d.born == d.version
    ensures ModuleGrows(m, Appended(m, id, d, content, kind))
  {
    assert (id, d.version) !in m.held && m.floor <= |m.log| && 0 <= m.head;
    AppendFeed(m, id, d, content, kind);
    AppendDocs(m, id, d, content, kind);
    hide DocsOK, FeedOK;
  }

  lemma AppendDocs(m: Module, id: Id, d: Doc, content: Content, kind: ChangeType)
    requires DocsOK(m) && (id, d.version) !in m.held
    requires id in m.docs ==> m.docs[id].version < d.version && d.born == m.docs[id].born
    requires id !in m.docs ==> d.born == d.version
    ensures var n := Appended(m, id, d, content, kind);
            DocsOK(n) && Keeps(m.held, n.held)
  {
    assert id in m.docs ==> (id, m.docs[id].born) in m.held;
    var n := Appended(m, id, d, content, kind);
    assert forall k :: k in n.held ==> k == (id, d.version) || k in m.held;
  }

  lemma AppendFeed(m: Module, id: Id, d: Doc, content: Content, kind: ChangeType)
    requires FeedOK(m) && !kind.Deleted?
    requires id in m.docs ==> m.docs[id].version < d.version && !m.docs[id].deleted
    ensures var n := Appended(m, id, d, content, kind);
            && FeedOK(n) && n.log[..|m.log|] == m.log
            && (forall i :: |m.log| <= i < |n.log| ==> m.head < n.log[i].sequence)
  {
    var n := Appended(m, id, d, content, kind);
    assert forall i :: 0 <= i < |n.log| && n.log[i].kind == Deleted ==> i < |m.log| && n.log[i] == m.log[i];
  }

  lemma CurrentIsPlaced(m: Module, id: Id)
    requires ModuleOK(m) && id in m.docs
    ensures (id, m.docs[id].path) in m.placed
  {
  }

  lemma CurrentIsHeld(m: Module, id: Id)
    requires ModuleOK(m) && id in m.docs
    ensures (id, m.docs[id].version) in m.held && (id, m.docs[id].born) in m.held
  {
  }

  /** What a save leaves: the module has only grown, and the answered version holds the content. */
  lemma UpdateGrows(m: Module, id: Id, base: nat, content: Content, bump: nat)
    requires ModuleOK(m)
    ensures var r := UpdateAnswer(m, id, base, content, bump);
            && ModuleGrows(m, r.2) && r.2.floor == m.floor
            && (r.0.Fine? ==> (id, r.1) in r.2.held && r.2.held[(id, r.1)] == content)
  {
    hide ModuleGrows, ModuleOK;
    ModuleGrowsRefl(m);
    if id in m.docs {
      CurrentIsHeld(m, id);
    }
    if Live(m, id) && CurrentContent(m, id) != content && base == m.docs[id].version {
      var d := m.docs[id].(version := base + 1 + bump);
      AppendGrows(m, id, d, content, Updated);
      assert m.placed + {(id, d.path)} == m.placed by { CurrentIsPlaced(m, id); }
      assert UpdateAnswer(m, id, base, content, bump).2 == Appended(m, id, d, content, Updated);
    }
  }

  /** What a creation leaves: the answered version of the answered document holds the content. */
  lemma CreateGrows(m: Module, id: Id, folderId: string, name: string, content: Content, bump: nat,
                    filed: Option<string>)
    requires ModuleOK(m)
    ensures var r := CreateAnswer(m, id, folderId, name, content, bump, filed);
            && ModuleGrows(m, r.2) && r.2.floor == m.floor
            && (r.0.Fine? ==> r.1.id == id && (id, r.1.version) in r.2.held && r.2.held[(id, r.1.version)] == content)
  {
    hide ModuleGrows, ModuleOK;
    ModuleGrowsRefl(m);
    if id in m.docs {
      CurrentIsHeld(m, id);
    } else {
      var r := CreateAnswer(m, id, folderId, name, content, bump, filed);
      var d := Doc(r.1.path, folderId, r.1.version, r.1.version, false, true);
      AppendGrows(m, id, d, content, Created);
      assert r.2 == Appended(m, id, d, content, Created);
    }
  }

  /** Every version held and every document is as it was, but for the version of this one. */
  predicate SameOthers(m: Module, n: Module, id: Id) {
    && Keeps(m.held, n.held) && n.docs.Keys == m.docs.Keys
    && (forall k :: k in m.docs && k != id ==> n.docs[k] == m.docs[k])
    && (id in m.docs ==> n.docs[id] == m.docs[id].(version := n.docs[id].version))
  }

  /** A save on the current version, or of its content, is accepted, and is the current version from then on. */
  lemma SavedOnCurrent(m: Module, id: Id, base: nat, content: Content)
    requires ModuleOK(m)
    ensures var r := UpdateAnswer(m, id, base, content, 0);
            Live(m, id) && (m.docs[id].version == base || CurrentContent(m, id) == content) && ModuleOK(r.2) ==>
              && r.0.Fine? && Live(r.2, id)
              && r.2.docs[id].version == r.1 && CurrentContent(r.2, id) == content
              && SameOthers(m, r.2, id)
  {
    hide ModuleOK;
    if Live(m, id) && m.docs[id].version == base {
      NewVersionIsNew(m, id, base + 1);
    }
  }

  lemma NewVersionIsNew(m: Module, id: Id, v: nat)
    requires ModuleOK(m) && id in m.docs && m.docs[id].version < v
    ensures (id, v) !in m.held
  {
  }

  /** A save over a version that is not current, of content that is not the current one's, is a conflict, and
    * one of a document that is not live is not found; neither changes the module. */
  lemma RefusedOnOutdated(m: Module, id: Id, base: nat, content: Content)
    requires ModuleOK(m)
    ensures var r := UpdateAnswer(m, id, base, content, 0);
            && (!Live(m, id) ==> r.0 == Refused(DocumentNotFound) && r.2 == m)
            && (Live(m, id) && CurrentContent(m, id) != content && m.docs[id].version != base ==>
                  r.0 == Refused(VersionConflict) && r.2 == m)
  {
    hide ModuleOK;
  }

  /** A creation under an id that is taken answers its document when the content is the one it was made with. */
  lemma TakenAnswers(m: Module, id: Id, folderId: string, name: string, content: Content, bump: nat, filed: Option<string>)
    requires ModuleOK(m) && id in m.docs && IsVersion(m, id, m.docs[id].born, content)
    ensures var r := CreateAnswer(m, id, folderId, name, content, bump, filed);
            r.0.Fine? && r.1.id == id && r.1.version == m.docs[id].born && r.2 == m
  {
    hide ModuleOK;
  }

  /** What a creation that was accepted left. */
  lemma CreatedIsBorn(m: Module, id: Id, folderId: string, name: string, content: Content, bump: nat, filed: Option<string>)
    requires ModuleOK(m) && CreateAnswer(m, id, folderId, name, content, bump, filed).0.Fine?
    ensures var r := CreateAnswer(m, id, folderId, name, content, bump, filed);
            r.1.id == id && id in r.2.docs && r.1.version == r.2.docs[id].born && IsVersion(r.2, id, r.1.version, content)
  {
    if id in m.docs {
      CurrentIsHeld(m, id);
    }
    hide ModuleOK;
  }

  /** Repeating a creation with the same id and content, whatever happened to the module since, answers the
    * document it made and makes no other. */
  lemma RetryIsSame(m: Module, later: Module, id: Id, folderId: string, name: string, content: Content,
                    bump: nat, filed: Option<string>, bump': nat, filed': Option<string>)
    requires ModuleOK(m) && CreateAnswer(m, id, folderId, name, content, bump, filed).0.Fine?
    requires ModuleGrows(CreateAnswer(m, id, folderId, name, content, bump, filed).2, later)
    ensures var first := CreateAnswer(m, id, folderId, name, content, bump, filed).1;
            var again := CreateAnswer(later, id, folderId, name, content, bump', filed');
            again.0.Fine? && again.1.id == first.id && again.1.version == first.version && again.2 == later
  {
    hide ModuleOK, CreateAnswer;
    CreatedIsBorn(m, id, folderId, name, content, bump, filed);
    var made := CreateAnswer(m, id, folderId, name, content, bump, filed).2;
    assert id in later.docs && later.docs[id].born == made.docs[id].born;
    TakenAnswers(later, id, folderId, name, content, bump', filed');
  }
}
