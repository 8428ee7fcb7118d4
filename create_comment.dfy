/** The comment form: taking the author from the first auth state,
    prefilling a comment in edit mode, and the payload and service call a
    submit makes. */
module CreateComment {
  import opened Values

  /** What a submit asks of the comment service. */
  datatype CommentAction =
    | NoAction
    | Add(postId: string, data: Fields)
    | Update(postId: string, commentId: string, data: Fields)

  /** The payload fields the form sets over the form's own values. */
  const PayloadKeys: set<string> := {"authorId", "createdAt", "updatedAt"}

  /** The controls as first built: content and the disabled author, both empty. */
  const InitialForm: Fields := map["content" := Text(""), "author" := Text("")]

  /** The decision a submit makes: nothing on an invalid form; otherwise a
      payload of the form's values, the author id, `createdAt` of today and,
      in edit mode only, `updatedAt` of today, sent as an update in edit mode
      with a comment id and as an addition in every other case. */
  function CommentSubmission(valid: bool, isEditMode: bool, postId: string, commentId: Option<string>,
                             authorId: Option<string>, form: Fields, today: Time): (r: CommentAction)
    ensures r.NoAction? <==> !valid
    ensures r.Update? <==> valid && isEditMode && PresentId(commentId)
    ensures r.Update? ==> r.postId == postId && r.commentId == commentId.value
    ensures r.Add? ==> r.postId == postId
    ensures !r.NoAction? ==>
      "authorId" in r.data && r.data["authorId"] == NullableText(authorId) &&
      "createdAt" in r.data && r.data["createdAt"] == DayText(today) &&
      "updatedAt" in r.data && r.data["updatedAt"] == (if isEditMode then DayText(today) else Undefined)
    ensures !r.NoAction? ==> forall k :: k !in PayloadKeys ==> (k in r.data <==> k in form)
    ensures !r.NoAction? ==> forall k :: k in form && k !in PayloadKeys ==> r.data[k] == form[k]
  {
    if !valid then NoAction
    else
      var commentData := form + map["authorId" := NullableText(authorId),
                                    "createdAt" := DayText(today),
                                    "updatedAt" := if isEditMode then DayText(today) else Undefined];
      if isEditMode && PresentId(commentId) then Update(postId, commentId.value, commentData)
      else Add(postId, commentData)
  }

  /** Edit mode without a comment id still adds a new comment. */
  lemma EditWithoutIdAdds(postId: string, form: Fields, authorId: Option<string>, today: Time)
    ensures CommentSubmission(true, true, postId, None, authorId, form, today).Add?
    ensures CommentSubmission(true, true, postId, Some(""), authorId, form, today).Add?
  {
  }

  /** A user qualifies as author only with a non-empty display name. */
  predicate NamedUser(authUser: Option<AuthUser>)
  {
    authUser.Some? && authUser.value.displayName.Some? && authUser.value.displayName.value != ""
  }

  /** The form component's state. */
  class CreateCommentForm {
    var postId: string
    var isEditMode: bool
    var commentId: Option<string>
    var form: Fields
    var displayName: Option<string>
    var authorId: Option<string>
    /** Whether the auth stream's first value was taken; later ones are ignored. */
    var authTaken: bool

    constructor (postId: string, isEditMode: bool, commentId: Option<string>)
      ensures this.postId == postId && this.isEditMode == isEditMode && this.commentId == commentId
      ensures form == map[] && displayName == Some("") && authorId == None && !authTaken
    {
      this.postId := postId;
      this.isEditMode := isEditMode;
      this.commentId := commentId;
      form := map[];
      displayName := Some("");
      authorId := None;
      authTaken := false;
    }

    /** Builds the controls; the existing comment is fetched only in edit
        mode with a comment id. */
    method NgOnInit() returns (fetchRequested: bool)
      modifies this`form
      ensures form == InitialForm
      ensures fetchRequested == (isEditMode && PresentId(commentId))
    {
      form := InitialForm;
      fetchRequested := isEditMode && commentId.Some? && commentId.value != "";
    }

    /** The auth stream reported: its first value is taken, and a user with a
        non-empty display name becomes the author. */
    method OnAuthUser(authUser: Option<AuthUser>)
      modifies this`displayName, this`authorId, this`form, this`authTaken
      ensures authTaken
      ensures !old(authTaken) && NamedUser(authUser) ==>
        displayName == authUser.value.displayName && authorId == Some(authUser.value.uid) &&
        form == Patch(old(form), "author", NullableText(authUser.value.displayName))
      ensures old(authTaken) || !NamedUser(authUser) ==>
        displayName == old(displayName) && authorId == old(authorId) && form == old(form)
    {
      if !authTaken {
        authTaken := true;
        if authUser.Some? && authUser.value.displayName.Some? && authUser.value.displayName.value != "" {
          displayName := authUser.value.displayName;
          authorId := Some(authUser.value.uid);
          form := Patch(form, "author", NullableText(displayName));
        }
      }
    }

    /** The fetched comment arrived: an existing one fills the content, and
        the author shows the user's name. An absent comment, or a fetch
        that failed, changes nothing. */
    method OnCommentLoaded(fetched: Result<Option<Fields>>) returns (prefilled: bool)
      modifies this`form
      ensures prefilled <==> fetched.Ok? && fetched.value.Some?
      ensures prefilled ==> form == Patch(Patch(old(form), "content", Get(fetched.value.value, "content")),
                                          "author", NullableText(displayName))
      ensures !prefilled ==> form == old(form)
    {
      prefilled := false;
      if fetched.Ok? && fetched.value.Some? {
        var comment := fetched.value.value;
        form := Patch(form, "content", Get(comment, "content"));
        form := Patch(form, "author", NullableText(displayName));
        prefilled := true;
      }
    }

    /** Submits the form: an invalid form does nothing; a valid one sends
        the payload to the service, emits the close event and resets. */
    method Submit(valid: bool, today: Time) returns (action: CommentAction, closed: bool)
      modifies this`form
      ensures action == CommentSubmission(valid, isEditMode, postId, commentId, authorId, old(form), today)
      ensures closed == valid
      ensures form == if valid then ResetForm(old(form)) else old(form)
    {
      if !valid {
        return NoAction, false;
      }
      var commentData := form + map["authorId" := NullableText(authorId),
                                    "createdAt" := DayText(today),
                                    "updatedAt" := if isEditMode then DayText(today) else Undefined];
      if isEditMode && commentId.Some? && commentId.value != "" {
        action := Update(postId, commentId.value, commentData);
        closed := true;
      } else {
        action := Add(postId, commentData);
        closed := true;
      }
      form := ResetForm(form);
    }
  }
}
