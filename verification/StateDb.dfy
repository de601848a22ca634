/** The state database of internal/docsync/state.go: the records of documents, the ids reserved for new
 * files, and the feed cursor. Its tables outlive the daemon. */
module StateDb {
  import opened Common
  import opened Files
  import opened DocModel

  /** The table after `PutDoc`. */
  function Put(docs: map<Id, DocRecord>, r: DocRecord): (after: map<Id, DocRecord>) {
    (map id | id in docs && !(docs[id].path == r.path && id != r.id) :: docs[id])[r.id := r]
  }

  /** `PutDoc` keeps the table unique by id and by path: it replaces the record with that id, it
    * drops the stale record of another document that still claims the path, and nothing else. */
  lemma PutKeepsUnique(docs: map<Id, DocRecord>, r: DocRecord)
    requires TableOK(docs)
    ensures TableOK(Put(docs, r))
    ensures forall id :: id in Put(docs, r) <==> id == r.id || (id in docs && docs[id].path != r.path)
    ensures forall id :: id in Put(docs, r) && id != r.id ==> Put(docs, r)[id] == docs[id]
  {
    var after := Put(docs, r);
    assert forall id :: id in after && id != r.id ==> id in docs && after[id] == docs[id];
  }

  class State {
    var docs: map<Id, DocRecord>
    var pendingNew: map<string, Id>
    var lastSeq: int
    var lastFull: bool

    constructor (docs: map<Id, DocRecord>, pendingNew: map<string, Id>, lastSeq: int, lastFull: bool)
      ensures this.docs == docs && this.pendingNew == pendingNew
      ensures this.lastSeq == lastSeq && this.lastFull == lastFull
    {
      this.docs, this.pendingNew, this.lastSeq, this.lastFull := docs, pendingNew, lastSeq, lastFull;
    }

    method DocByPath(path: string) returns (r: Option<DocRecord>)
      requires TableOK(docs)
      ensures r.Some? ==> r.value.path == path && r.value.id in docs && docs[r.value.id] == r.value
      ensures r.None? ==> forall id :: id in docs ==> docs[id].path != path
    {
      var todo := docs.Keys;
      while todo != {}
        invariant todo <= docs.Keys
        invariant forall id :: id in docs && id !in todo ==> docs[id].path != path
        decreases |todo|
      {
        var id :| id in todo;
        if docs[id].path == path {
          return Some(docs[id]);
        }
        todo := todo - {id};
      }
      return None;
    }

    method PutDoc(r: DocRecord)
      requires TableOK(docs)
      modifies this`docs
      ensures docs == Put(old(docs), r)
      ensures TableOK(docs)
    {
      PutKeepsUnique(docs, r);
      docs := map id | id in docs && !(docs[id].path == r.path && id != r.id) :: docs[id];
      docs := docs[r.id := r];
    }

    method DeleteDoc(id: Id)
      modifies this`docs
      ensures docs == old(docs) - {id}
    {
      docs := docs - {id};
    }

    /** Reserves an id for a file that has no document. It outlives a failed attempt: asking again, whatever
      * new id is offered, answers the one reserved first. */
    method PendingID(path: string, newID: Id) returns (id: Id)
      modifies this`pendingNew
      ensures id == if path in old(pendingNew) then old(pendingNew)[path] else newID
      ensures pendingNew == old(pendingNew)[path := id]
    {
      if path in pendingNew {
        id := pendingNew[path];
      } else {
        id := newID;
        pendingNew := pendingNew[path := id];
      }
    }

    method ClearPending(path: string)
      modifies this`pendingNew
      ensures pendingNew == old(pendingNew) - {path}
    {
      pendingNew := pendingNew - {path};
    }

    method SetLastSeq(n: int)
      modifies this`lastSeq
      ensures lastSeq == n
    {
      lastSeq := n;
    }

    method SetLastFull()
      modifies this`lastFull
      ensures lastFull
    {
      lastFull := true;
    }
  }
}
