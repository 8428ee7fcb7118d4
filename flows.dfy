/** How the forms' submissions reach the services, and what the stored
    records look like afterwards. */
module Flows {
  import opened Values
  import Posts
  import Comments
  import CreatePost
  import CreateComment

  /** Carries out a post form's decision on the post service: nothing for
      an invalid form, a new record under the generated id for a creation,
      a merged patch for an update. `backend` is the backend's answer to the
      write; a write the database or the backend refuses changes nothing. */
  method DispatchPost(service: Posts.PostService, action: CreatePost.PostAction, newId: string, now: Time,
                      backend: Outcome)
    returns (createdId: Option<string>, outcome: Outcome)
    modifies service
    ensures action.NoAction? ==> service.docs == old(service.docs) && createdId == None && outcome == Pass
    ensures action.Create? ==>
      (outcome.Pass? <==> Writable(Posts.NewPostRecord(action.data, newId, now)) && backend.Pass?) &&
      createdId == (if outcome.Pass? then Some(newId) else None)
    ensures action.Create? && !Writable(Posts.NewPostRecord(action.data, newId, now)) ==>
      outcome == Fail("invalid-argument")
    ensures action.Create? && outcome.Pass? ==>
      service.docs == old(service.docs)[newId := Posts.NewPostRecord(action.data, newId, now)]
    ensures action.Update? ==>
      createdId == None &&
      (outcome.Pass? <==>
         Writable(Posts.UpdatePostPatch(action.data, now)) && backend.Pass? && action.postId in old(service.docs))
    ensures action.Update? && !Writable(Posts.UpdatePostPatch(action.data, now)) ==> outcome == Fail("invalid-argument")
    ensures action.Update? && outcome.Pass? ==>
      service.docs == old(service.docs)[action.postId := old(service.docs)[action.postId] + Posts.UpdatePostPatch(action.data, now)]
    ensures outcome.Fail? ==> service.docs == old(service.docs)
  {
    createdId, outcome := None, Pass;
    match action
    case NoAction =>
    case Create(data) =>
      var created := service.CreatePost(data, newId, now, backend);
      if created.Ok? {
        createdId := Some(created.value);
      } else {
        outcome := Fail(created.message);
      }
    case Update(postId, data) =>
      outcome := service.UpdatePost(postId, data, now, backend);
  }

  /** Carries out a comment form's decision on the comment service, given
      the backend's answer to the write; every other comment, under this
      post or any other, is left as it was, and a refused write changes
      nothing. */
  method DispatchComment(service: Comments.CommentService, action: CreateComment.CommentAction, newId: string,
                         now: Time, backend: Outcome)
    returns (createdId: Option<string>, outcome: Outcome)
    modifies service
    ensures action.NoAction? ==> service.docs == old(service.docs) && createdId == None && outcome == Pass
    ensures action.Add? ==>
      (outcome.Pass? <==> backend.Pass?) && createdId == (if outcome.Pass? then Some(newId) else None)
    ensures action.Add? && outcome.Pass? ==>
      service.docs == old(service.docs)[action.postId :=
        old(service.Collection(action.postId))[newId := Comments.NewCommentRecord(action.data, newId, now)]]
    ensures action.Add? && outcome.Pass? ==>
      service.Snapshot(action.postId, newId) == Some(Comments.NewCommentRecord(action.data, newId, now))
    ensures action.Update? ==>
      createdId == None &&
      (outcome.Pass? <==> backend.Pass? && old(service.Snapshot(action.postId, action.commentId)).Some?)
    ensures action.Update? && outcome.Pass? ==>
      service.docs == old(service.docs)[action.postId :=
        old(service.Collection(action.postId))[action.commentId :=
          old(service.Collection(action.postId))[action.commentId] + Comments.UpdateCommentPatch(action.data, now)]]
    ensures action != CreateComment.NoAction && backend.Fail? ==> outcome == backend
    ensures outcome.Fail? ==> service.docs == old(service.docs)
  {
    createdId, outcome := None, Pass;
    match action
    case NoAction =>
    case Add(postId, data) =>
      var added := service.AddComment(postId, data, newId, now, backend);
      if added.Ok? {
        createdId := Some(added.value);
      } else {
        outcome := Fail(added.message);
      }
    case Update(postId, commentId, data) =>
      outcome := service.UpdateComment(postId, commentId, data, now, backend);
  }

  /** Creating a post titled "A" with content "B" under the generated id
      "p1" and reading it back gives the id, the form's fields, the author's
      id and the service's two stamps; the form's own date is overridden. */
  lemma CreatedPostScenario(userId: string, author: Value, today: Time, now: Time)
    ensures
      var form := map["title" := Text("A"), "content" := Text("B"), "author" := author];
      var action := CreatePost.PostSubmission(true, false, None, userId, form, None, today);
      action.Create? &&
      Posts.PostFromSnapshot("p1", Some(Posts.NewPostRecord(action.data, "p1", now))) ==
        Some(map["id" := Text("p1"), "title" := Text("A"), "content" := Text("B"), "author" := author,
                 "authorId" := Text(userId), "createdAt" := DayText(now), "updatedAt" := DayText(now)])
  {
    var form := map["title" := Text("A"), "content" := Text("B"), "author" := author];
    var action := CreatePost.PostSubmission(true, false, None, userId, form, None, today);
    var record := Posts.NewPostRecord(action.data, "p1", now);
    Posts.CreatedPostReadsBack(action.data, "p1", now);
    var expected := map["id" := Text("p1"), "title" := Text("A"), "content" := Text("B"), "author" := author,
                        "authorId" := Text(userId), "createdAt" := DayText(now), "updatedAt" := DayText(now)];
    assert record.Keys == expected.Keys;
    assert record == expected;
  }

  /** Editing a post that was loaded for its owner sends back its stored
      `createdAt`, so the stored record keeps it, and stamps `updatedAt`;
      the database accepts the patch exactly when the stored post has a
      `createdAt` and no control of the form is undefined. */
  lemma EditedPostKeepsCreatedAt(stored: Fields, postId: string, userId: string, form: Fields, today: Time, now: Time)
    requires postId != ""
    requires CreatePost.MayEdit(Posts.PostFromSnapshot(postId, Some(stored)), userId)
    ensures
      var action := CreatePost.PostSubmission(true, true, Some(postId), userId, form,
                                              Posts.PostFromSnapshot(postId, Some(stored)), today);
      action.Update? &&
      Get(stored + Posts.UpdatePostPatch(action.data, now), "createdAt") == Get(stored, "createdAt") &&
      Get(stored + Posts.UpdatePostPatch(action.data, now), "updatedAt") == Instant(now) &&
      (Writable(Posts.UpdatePostPatch(action.data, now)) <==>
         Get(stored, "createdAt") != Undefined && Writable(form - CreatePost.PayloadKeys))
  {
    var action := CreatePost.PostSubmission(true, true, Some(postId), userId, form,
                                            Posts.PostFromSnapshot(postId, Some(stored)), today);
    var data := action.data;
    Posts.UpdatePostPatchWritable(data, now);
    var rest := data - {"updatedAt"};
    var own := form - CreatePost.PayloadKeys;
    if Writable(rest) {
      assert "createdAt" in rest && rest["createdAt"] in rest.Values;
      forall k | k in own
        ensures own[k] != Undefined
      {
        assert k in rest && rest[k] in rest.Values;
      }
    } else {
      var k :| k in rest && rest[k] == Undefined;
      if k != "createdAt" {
        assert k in own && own[k] in own.Values;
      }
    }
  }

  /** Editing a post that was not loaded, because it was refused or has not
      arrived yet, still asks for an update, but its patch carries an
      undefined `createdAt`, so the database refuses it. */
  lemma UnloadedEditIsRefused(postId: string, userId: string, form: Fields, today: Time, now: Time)
    requires postId != ""
    ensures
      var action := CreatePost.PostSubmission(true, true, Some(postId), userId, form, None, today);
      action.Update? && !Writable(Posts.UpdatePostPatch(action.data, now))
  {
    var action := CreatePost.PostSubmission(true, true, Some(postId), userId, form, None, today);
    var patch := Posts.UpdatePostPatch(action.data, now);
    assert "createdAt" in patch && patch["createdAt"] == Undefined;
  }

  /** Submitting an edit of a post that was never loaded, and carrying it
      to the service, is refused whatever the backend would answer, and
      leaves every stored post unchanged. */
  method UnloadedEditChangesNothing(service: Posts.PostService, postId: string, userId: string, form: Fields,
                                    today: Time, newId: string, now: Time, backend: Outcome)
    returns (outcome: Outcome)
    requires postId != ""
    modifies service
    ensures outcome == Fail("invalid-argument")
    ensures service.docs == old(service.docs)
  {
    var action := CreatePost.PostSubmission(true, true, Some(postId), userId, form, None, today);
    UnloadedEditIsRefused(postId, userId, form, today, now);
    var createdId;
    createdId, outcome := DispatchPost(service, action, newId, now, backend);
  }

  /** Editing a comment through the form replaces its stored `createdAt`
      with today's date string. */
  lemma EditedCommentReplacesCreatedAt(stored: Fields, postId: string, commentId: string, authorId: Option<string>,
                                       form: Fields, today: Time, now: Time)
    requires commentId != ""
    ensures
      var action := CreateComment.CommentSubmission(true, true, postId, Some(commentId), authorId, form, today);
      action.Update? &&
      Get(stored + Comments.UpdateCommentPatch(action.data, now), "createdAt") == DayText(today) &&
      Get(stored + Comments.UpdateCommentPatch(action.data, now), "updatedAt") == Instant(now)
  {
  }

  /** A comment edited through the form can no longer be fetched by id:
      its `createdAt` is now a string, which has no `toDate`, so reopening
      it in edit mode does not prefill the form. */
  lemma EditedCommentFailsToReload(stored: Fields, postId: string, commentId: string, authorId: Option<string>,
                                   form: Fields, today: Time, now: Time)
    requires commentId != ""
    ensures
      var action := CreateComment.CommentSubmission(true, true, postId, Some(commentId), authorId, form, today);
      Comments.CommentFromSnapshot(commentId, Some(stored + Comments.UpdateCommentPatch(action.data, now))).Err?
  {
    var action := CreateComment.CommentSubmission(true, true, postId, Some(commentId), authorId, form, today);
    EditedCommentReplacesCreatedAt(stored, postId, commentId, authorId, form, today, now);
    assert !Get(stored + Comments.UpdateCommentPatch(action.data, now), "createdAt").Instant?;
  }

  /** A comment added through the form is stored with the service's two
      instants in place of the form's stamps, keeps its author id, and reads
      back without error. */
  lemma AddedCommentScenario(postId: string, authorId: Option<string>, form: Fields, newId: string, today: Time, now: Time)
    ensures
      var action := CreateComment.CommentSubmission(true, false, postId, None, authorId, form, today);
      var record := Comments.NewCommentRecord(action.data, newId, now);
      action.Add? &&
      record["createdAt"] == Instant(now) && record["updatedAt"] == Instant(now) &&
      "authorId" in record && record["authorId"] == NullableText(authorId) &&
      Comments.CommentFromSnapshot(newId, Some(record)).Ok?
  {
    var action := CreateComment.CommentSubmission(true, false, postId, None, authorId, form, today);
    Comments.AddedCommentReadsBack(action.data, newId, now);
  }
}
