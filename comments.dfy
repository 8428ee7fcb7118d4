/** The comment service: the records and patches it builds for the
    per-post comment sub-collections, the view it makes of a fetched
    document, and the writes it issues to the document database. */
module Comments {
  import opened Values

  /** The fields the service sets itself when it stores a new comment. */
  const ServiceKeys: set<string> := {"id", "createdAt", "updatedAt"}

  /** The fields of the comment view a fetch by id returns. */
  const ViewKeys: set<string> := {"id", "content", "author", "createdAt", "updatedAt"}

  /** The same record without its undefined entries. */
  function FilterUndefinedFields(f: Fields): (r: Fields)
    ensures forall k :: k in r <==> k in f && f[k] != Undefined
    ensures forall k :: k in r ==> r[k] == f[k]
    ensures Undefined !in r.Values
  {
    map k | k in f && f[k] != Undefined :: f[k]
  }

  /** Filtering is idempotent. */
  lemma FilterUndefinedIdempotent(f: Fields)
    ensures FilterUndefinedFields(FilterUndefinedFields(f)) == FilterUndefinedFields(f)
  {
  }

  /** The record `addComment` stores under a new document: the caller's
      fields, overridden by the generated id and two service-set instants,
      with the undefined entries dropped. */
  function NewCommentRecord(comment: Fields, id: string, now: Time): (r: Fields)
    ensures "id" in r && r["id"] == Text(id)
    ensures "createdAt" in r && r["createdAt"] == Instant(now)
    ensures "updatedAt" in r && r["updatedAt"] == Instant(now)
    ensures forall k :: k !in ServiceKeys ==> (k in r <==> k in comment && comment[k] != Undefined)
    ensures forall k :: k in r && k !in ServiceKeys ==> r[k] == comment[k]
  {
    FilterUndefinedFields(comment + map["id" := Text(id), "createdAt" := Instant(now), "updatedAt" := Instant(now)])
  }

  /** The patch `updateComment` writes: the caller's fields with `updatedAt`
      set by the service, undefined entries dropped. */
  function UpdateCommentPatch(comment: Fields, now: Time): (r: Fields)
    ensures "updatedAt" in r && r["updatedAt"] == Instant(now)
    ensures forall k :: k != "updatedAt" ==> (k in r <==> k in comment && comment[k] != Undefined)
    ensures forall k :: k in r && k != "updatedAt" ==> r[k] == comment[k]
    ensures Undefined !in r.Values
  {
    FilterUndefinedFields(comment["updatedAt" := Instant(now)])
  }

  /** `v.toDate()`: only a stored timestamp has that method; on anything
      else the call throws a type error. */
  function ToDate(v: Value): (r: Result<Value>)
    ensures r.Ok? <==> v.Instant?
    ensures r.Ok? ==> r.value == v
  {
    match v
    case Instant(_) => Ok(v)
    case _ => Err("TypeError")
  }

  /** What a fetch by id makes of the document snapshot: nothing when the
      document is absent, otherwise a view with only id, content, author
      and the two converted timestamps. A stored `createdAt` that is not a
      timestamp, or a truthy `updatedAt` that is not one, makes the
      conversion throw. */
  function CommentFromSnapshot(docId: string, snapshot: Option<Fields>): (r: Result<Option<Fields>>)
    ensures snapshot.None? ==> r == Ok(None)
    ensures snapshot.Some? ==>
      var d := snapshot.value;
      (r.Ok? <==> Get(d, "createdAt").Instant? && (Get(d, "updatedAt").Instant? || !Truthy(Get(d, "updatedAt"))))
    ensures snapshot.Some? && r.Ok? ==>
      var d := snapshot.value;
      r.value.Some? && r.value.value.Keys == ViewKeys &&
      r.value.value["id"] == Text(docId) &&
      r.value.value["content"] == Get(d, "content") &&
      r.value.value["author"] == Get(d, "author") &&
      r.value.value["createdAt"] == Get(d, "createdAt") &&
      r.value.value["updatedAt"] == (if Truthy(Get(d, "updatedAt")) then Get(d, "updatedAt") else Undefined)
  {
    match snapshot
    case None => Ok(None)
    case Some(d) =>
      match ToDate(Get(d, "createdAt"))
      case Err(e) => Err(e)
      case Ok(created) =>
        var updated := if Truthy(Get(d, "updatedAt")) then ToDate(Get(d, "updatedAt")) else Ok(Undefined);
        match updated
        case Err(e) => Err(e)
        case Ok(u) =>
          Ok(Some(map["id" := Text(docId), "content" := Get(d, "content"), "author" := Get(d, "author"),
                      "createdAt" := created, "updatedAt" := u]))
  }

  /** Reading back a comment the service stored gives the caller's content
      and author, the document id and the two service instants; the stored
      `authorId` is not part of the view. */
  lemma AddedCommentReadsBack(comment: Fields, id: string, now: Time)
    ensures CommentFromSnapshot(id, Some(NewCommentRecord(comment, id, now))) ==
      Ok(Some(map["id" := Text(id), "content" := Get(comment, "content"), "author" := Get(comment, "author"),
                  "createdAt" := Instant(now), "updatedAt" := Instant(now)]))
  {
  }

  /** The comment sub-collections of the document database, and the writes
      the service issues to them. */
  class CommentService {
    /** `post/{postId}/comments`: post id to comment id to stored record. */
    var docs: map<string, map<string, Fields>>

    constructor ()
      ensures docs == map[]
    {
      docs := map[];
    }

    /** The comments stored under one post. */
    function Collection(postId: string): map<string, Fields>
      reads this
    {
      if postId in docs then docs[postId] else map[]
    }

    /** The snapshot of one comment document: its record, or nothing. */
    function Snapshot(postId: string, commentId: string): Option<Fields>
      reads this
    {
      if commentId in Collection(postId) then Some(Collection(postId)[commentId]) else None
    }

    /** Stores a new comment under the generated id `newId` and returns that
        id, unless the backend refuses the write (`backend`: security rules,
        the network), in which case nothing is stored. */
    method AddComment(postId: string, comment: Fields, newId: string, now: Time, backend: Outcome)
      returns (r: Result<string>)
      modifies this
      ensures r.Ok? <==> backend.Pass?
      ensures r.Ok? ==> r.value == newId
      ensures r.Ok? ==> docs == old(docs)[postId := old(Collection(postId))[newId := NewCommentRecord(comment, newId, now)]]
      ensures r.Ok? ==> Snapshot(postId, newId) == Some(NewCommentRecord(comment, newId, now))
      ensures r.Err? ==> r.message == backend.message && docs == old(docs)
    {
      var commentId := newId;
      var commentData := NewCommentRecord(comment, commentId, now);
      if backend.Fail? {
        return Err(backend.message);
      }
      docs := docs[postId := Collection(postId)[commentId := commentData]];
      r := Ok(commentId);
    }

    /** Fetches one comment and maps the snapshot to its view; a read the
        backend refuses fails with its message. */
    method GetCommentById(postId: string, commentId: string, backend: Outcome) returns (r: Result<Option<Fields>>)
      ensures backend.Fail? ==> r == Err(backend.message)
      ensures backend.Pass? ==> r == CommentFromSnapshot(commentId, Snapshot(postId, commentId))
      ensures backend.Pass? && Snapshot(postId, commentId).None? ==> r == Ok(None)
    {
      if backend.Fail? {
        return Err(backend.message);
      }
      r := CommentFromSnapshot(commentId, Snapshot(postId, commentId));
    }

    /** Merges the update patch into an existing comment. The backend may
        refuse the write, and the database refuses an update of a document
        that does not exist; a refused update changes nothing. */
    method UpdateComment(postId: string, commentId: string, comment: Fields, now: Time, backend: Outcome)
      returns (r: Outcome)
      modifies this
      ensures r.Pass? <==> backend.Pass? && old(Snapshot(postId, commentId)).Some?
      ensures backend.Fail? ==> r == backend
      ensures backend.Pass? && old(Snapshot(postId, commentId)).None? ==> r == Fail("not-found")
      ensures r.Pass? ==>
        docs == old(docs)[postId := old(Collection(postId))[commentId := old(Collection(postId))[commentId] + UpdateCommentPatch(comment, now)]]
      ensures r.Fail? ==> docs == old(docs)
    {
      var existing := Collection(postId);
      if backend.Fail? {
        r := backend;
      } else if commentId in existing {
        var patch := UpdateCommentPatch(comment, now);
        docs := docs[postId := existing[commentId := existing[commentId] + patch]];
        r := Pass;
      } else {
        r := Fail("not-found");
      }
    }

    /** Deletes one comment unless the backend refuses; deleting an absent
        document changes nothing. */
    method DeleteComment(postId: string, commentId: string, backend: Outcome) returns (r: Outcome)
      modifies this
      ensures r == backend
      ensures r.Pass? ==> Snapshot(postId, commentId).None?
      ensures r.Pass? ==> docs == if postId in old(docs) then old(docs)[postId := old(docs)[postId] - {commentId}] else old(docs)
      ensures r.Fail? ==> docs == old(docs)
    {
      r := backend;
      if backend.Pass? && postId in docs {
        docs := docs[postId := docs[postId] - {commentId}];
      }
    }
  }
}
