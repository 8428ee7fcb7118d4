/** The post service: the record it stores for a new post, the patch it
    writes on an update, the view it makes of a fetched document, and the
    writes it issues to the `post` collection. */
module Posts {
  import opened Values
  import Comments

  /** The fields the service sets itself when it stores a new post. */
  const ServiceKeys: set<string> := {"id", "createdAt", "updatedAt"}

  /** The record `createPost` stores: the caller's fields, overridden by the
      generated id and two locale date strings of the service's clock.
      Undefined entries are kept, and the database then refuses the record. */
  function NewPostRecord(post: Fields, id: string, now: Time): (r: Fields)
    ensures "id" in r && r["id"] == Text(id)
    ensures "createdAt" in r && r["createdAt"] == DayText(now)
    ensures "updatedAt" in r && r["updatedAt"] == DayText(now)
    ensures forall k :: k !in ServiceKeys ==> (k in r <==> k in post)
    ensures forall k :: k in r && k !in ServiceKeys ==> r[k] == post[k]
  {
    post + map["id" := Text(id), "createdAt" := DayText(now), "updatedAt" := DayText(now)]
  }

  /** The patch `updatePost` sends: every supplied field, undefined ones
      included, with `updatedAt` set to a date object of the service's clock. */
  function UpdatePostPatch(post: Fields, now: Time): (r: Fields)
    ensures "updatedAt" in r && r["updatedAt"] == Instant(now)
    ensures forall k :: k != "updatedAt" ==> (k in r <==> k in post)
    ensures forall k :: k in r && k != "updatedAt" ==> r[k] == post[k]
  {
    post["updatedAt" := Instant(now)]
  }

  /** The comment service's patch is the post service's patch with the
      undefined entries dropped: the two differ exactly there. */
  lemma CommentPatchFiltersPostPatch(fields: Fields, now: Time)
    ensures Comments.UpdateCommentPatch(fields, now) == Comments.FilterUndefinedFields(UpdatePostPatch(fields, now))
    ensures UpdatePostPatch(fields, now) == Comments.UpdateCommentPatch(fields, now) <==>
              Undefined !in (fields - {"updatedAt"}).Values
  {
    var p := UpdatePostPatch(fields, now);
    if Undefined in (fields - {"updatedAt"}).Values {
      var k :| k in fields - {"updatedAt"} && fields[k] == Undefined;
      assert k in p && k !in Comments.UpdateCommentPatch(fields, now);
    } else {
      forall k | k in p
        ensures p[k] != Undefined
      {
        if k != "updatedAt" {
          var rest := fields - {"updatedAt"};
          assert k in rest && rest[k] in rest.Values;
        }
      }
      assert Comments.FilterUndefinedFields(p).Keys == p.Keys;
    }
  }

  /** The database accepts an update patch exactly when none of the
      caller's fields, other than the overridden `updatedAt`, is undefined. */
  lemma {:induction false} UpdatePostPatchWritable(post: Fields, now: Time)
    ensures Writable(UpdatePostPatch(post, now)) <==> Writable(post - {"updatedAt"})
  {
    var p := UpdatePostPatch(post, now);
    var rest := post - {"updatedAt"};
    if Undefined in rest.Values {
      var k :| k in rest && rest[k] == Undefined;
      assert k in p && p[k] in p.Values;
    }
    if Undefined in p.Values {
      var k :| k in p && p[k] == Undefined;
      assert k in rest && rest[k] in rest.Values;
    }
  }

  /** What a fetch by id makes of the document snapshot: nothing when the
      document is absent, otherwise the document id followed by the stored
      fields, so that a stored `id` field wins over the document id. */
  function PostFromSnapshot(docId: string, snapshot: Option<Fields>): (r: Option<Fields>)
    ensures r.Some? <==> snapshot.Some?
    ensures snapshot.Some? ==>
      "id" in r.value && r.value["id"] == (if "id" in snapshot.value then snapshot.value["id"] else Text(docId))
    ensures snapshot.Some? ==> forall k :: k != "id" ==> (k in r.value <==> k in snapshot.value)
    ensures snapshot.Some? ==> forall k :: k in snapshot.value ==> r.value[k] == snapshot.value[k]
  {
    match snapshot
    case None => None
    case Some(data) => Some(map["id" := Text(docId)] + data)
  }

  /** Reading back a post the service stored gives exactly the stored record. */
  lemma CreatedPostReadsBack(post: Fields, id: string, now: Time)
    ensures PostFromSnapshot(id, Some(NewPostRecord(post, id, now))) == Some(NewPostRecord(post, id, now))
  {
    var stored := NewPostRecord(post, id, now);
    var view := PostFromSnapshot(id, Some(stored)).value;
    assert "id" in stored && stored["id"] == Text(id);
    assert view.Keys == stored.Keys;
    assert forall k :: k in view ==> view[k] == stored[k];
    assert view == stored;
  }

  /** The `post` collection of the document database, and the writes the
      service issues to it. */
  class PostService {
    /** Document id to stored record. */
    var docs: map<string, Fields>

    constructor ()
      ensures docs == map[]
    {
      docs := map[];
    }

    /** The snapshot of one post document: its record, or nothing. */
    function Snapshot(postId: string): Option<Fields>
      reads this
    {
      if postId in docs then Some(docs[postId]) else None
    }

    /** Stores a new post under the generated id `newId` and returns that
        id. The database refuses a record with an undefined field, and the
        backend may refuse the write (`backend`: security rules, the
        network); a refused write stores nothing. */
    method CreatePost(post: Fields, newId: string, now: Time, backend: Outcome) returns (r: Result<string>)
      modifies this
      ensures r.Ok? <==> Writable(NewPostRecord(post, newId, now)) && backend.Pass?
      ensures !Writable(NewPostRecord(post, newId, now)) ==> r == Err("invalid-argument")
      ensures Writable(NewPostRecord(post, newId, now)) && backend.Fail? ==> r == Err(backend.message)
      ensures r.Ok? ==> r.value == newId && docs == old(docs)[newId := NewPostRecord(post, newId, now)]
      ensures r.Ok? ==> PostFromSnapshot(newId, Snapshot(newId)) == Some(NewPostRecord(post, newId, now))
      ensures r.Err? ==> docs == old(docs)
    {
      var id := newId;
      var postData := NewPostRecord(post, id, now);
      if !Writable(postData) {
        return Err("invalid-argument");
      }
      if backend.Fail? {
        return Err(backend.message);
      }
      docs := docs[id := postData];
      CreatedPostReadsBack(post, id, now);
      r := Ok(id);
    }

    /** Fetches one post: nothing when absent, otherwise its view; a read the
        backend refuses fails with its message. */
    method GetPostById(postId: string, backend: Outcome) returns (r: Result<Option<Fields>>)
      ensures backend.Fail? ==> r == Err(backend.message)
      ensures backend.Pass? ==> r == Ok(PostFromSnapshot(postId, Snapshot(postId)))
      ensures backend.Pass? ==> (r.value.None? <==> postId !in docs)
    {
      if backend.Fail? {
        return Err(backend.message);
      }
      r := Ok(PostFromSnapshot(postId, Snapshot(postId)));
    }

    /** Merges the update patch into an existing post. The database refuses
        a patch with an undefined field before it sends anything; then the
        backend may refuse the write, and the database refuses an update of
        a document that does not exist. A refused update changes nothing. */
    method UpdatePost(postId: string, post: Fields, now: Time, backend: Outcome) returns (r: Outcome)
      modifies this
      ensures r.Pass? <==> Writable(UpdatePostPatch(post, now)) && backend.Pass? && postId in old(docs)
      ensures !Writable(UpdatePostPatch(post, now)) ==> r == Fail("invalid-argument")
      ensures Writable(UpdatePostPatch(post, now)) && backend.Fail? ==> r == backend
      ensures Writable(UpdatePostPatch(post, now)) && backend.Pass? && postId !in old(docs) ==> r == Fail("not-found")
      ensures r.Pass? ==> docs == old(docs)[postId := old(docs)[postId] + UpdatePostPatch(post, now)]
      ensures r.Fail? ==> docs == old(docs)
    {
      var updateData := UpdatePostPatch(post, now);
      if !Writable(updateData) {
        r := Fail("invalid-argument");
      } else if backend.Fail? {
        r := backend;
      } else if postId in docs {
        docs := docs[postId := docs[postId] + updateData];
        r := Pass;
      } else {
        r := Fail("not-found");
      }
    }

    /** Deletes one post unless the backend refuses; deleting an absent
        document changes nothing. */
    method DeletePost(postId: string, backend: Outcome) returns (r: Outcome)
      modifies this
      ensures r == backend
      ensures r.Pass? ==> docs == old(docs) - {postId}
      ensures r.Fail? ==> docs == old(docs)
    {
      r := backend;
      if backend.Pass? {
        docs := docs - {postId};
      }
    }
  }
}
