/** The post form: entering edit mode, prefilling an owned post, and the
    payload and service call a submit makes. */
module CreatePost {
  import opened Values

  /** What a submit asks of the post service. */
  datatype PostAction = NoAction | Create(data: Fields) | Update(postId: string, data: Fields)

  /** The payload fields the form sets over the form's own values. */
  const PayloadKeys: set<string> := {"authorId", "createdAt", "updatedAt"}

  /** The controls as first built: title, content and the disabled author, all empty. */
  const InitialForm: Fields := map["title" := Text(""), "content" := Text(""), "author" := Text("")]

  /** The `createdAt` a submit sends: the loaded post's in edit mode
      (undefined when none was loaded), today otherwise. */
  function SubmittedCreatedAt(isEditMode: bool, postToEdit: Option<Fields>, today: Time): Value
  {
    if isEditMode then (if postToEdit.Some? then Get(postToEdit.value, "createdAt") else Undefined)
    else DayText(today)
  }

  /** The decision a submit makes: nothing on an invalid form; otherwise a
      payload of the form's values, the user's id and the two stamps, sent
      as an update in edit mode with a post id and as a creation otherwise. */
  function PostSubmission(valid: bool, isEditMode: bool, postId: Option<string>, userId: string,
                          form: Fields, postToEdit: Option<Fields>, today: Time): (r: PostAction)
    ensures r.NoAction? <==> !valid
    ensures r.Update? <==> valid && isEditMode && PresentId(postId)
    ensures r.Update? ==> r.postId == postId.value
    ensures !r.NoAction? ==>
      "authorId" in r.data && r.data["authorId"] == Text(userId) &&
      "updatedAt" in r.data && r.data["updatedAt"] == DayText(today) &&
      "createdAt" in r.data && r.data["createdAt"] == SubmittedCreatedAt(isEditMode, postToEdit, today)
    ensures !r.NoAction? ==> forall k :: k !in PayloadKeys ==> (k in r.data <==> k in form)
    ensures !r.NoAction? ==> forall k :: k in form && k !in PayloadKeys ==> r.data[k] == form[k]
  {
    if !valid then NoAction
    else
      var postData := form + map["authorId" := Text(userId),
                                 "createdAt" := SubmittedCreatedAt(isEditMode, postToEdit, today),
                                 "updatedAt" := DayText(today)];
      if isEditMode && PresentId(postId) then Update(postId.value, postData) else Create(postData)
  }

  /** The prefill applies only to a post that exists and belongs to the user. */
  predicate MayEdit(post: Option<Fields>, userId: string)
  {
    post.Some? && Get(post.value, "authorId") == Text(userId)
  }

  /** The ownership check gates the prefill, not the submit: a valid edit
      with a post id updates even when no post was loaded, and then sends an
      undefined `createdAt`. */
  lemma OwnershipDoesNotGateSubmit(postId: string, userId: string, form: Fields, today: Time)
    requires postId != ""
    ensures PostSubmission(true, true, Some(postId), userId, form, None, today).Update?
    ensures PostSubmission(true, true, Some(postId), userId, form, None, today).data["createdAt"] == Undefined
  {
  }

  /** The form component's state. */
  class CreatePostForm {
    /** The id of the post to edit, when the form was opened on one. */
    var postId: Option<string>
    var form: Fields
    var displayName: Option<string>
    var userId: string
    var isEditMode: bool
    var postToEdit: Option<Fields>

    constructor (postId: Option<string>)
      ensures this.postId == postId && form == map[]
      ensures displayName == Some("") && userId == ""
      ensures !isEditMode && postToEdit == None
    {
      this.postId := postId;
      form := map[];
      displayName := Some("");
      userId := "";
      isEditMode := false;
      postToEdit := None;
    }

    /** Builds the controls and enters edit mode exactly when a post id was
        given, in which case the post is fetched. */
    method NgOnInit() returns (fetchRequested: bool)
      modifies this`form, this`isEditMode
      ensures form == InitialForm
      ensures isEditMode == (old(isEditMode) || PresentId(postId))
      ensures fetchRequested == PresentId(postId)
    {
      form := InitialForm;
      fetchRequested := false;
      if postId.Some? && postId.value != "" {
        isEditMode := true;
        fetchRequested := true;
      }
    }

    /** The auth stream reported a user: take its name and uid and show the
        name as author; no user changes nothing. */
    method OnAuthUser(authUser: Option<AuthUser>)
      modifies this`displayName, this`userId, this`form
      ensures authUser.None? ==> displayName == old(displayName) && userId == old(userId) && form == old(form)
      ensures authUser.Some? ==> displayName == authUser.value.displayName && userId == authUser.value.uid
      ensures authUser.Some? ==> form == Patch(old(form), "author", NullableText(authUser.value.displayName))
    {
      if authUser.Some? {
        displayName := authUser.value.displayName;
        userId := authUser.value.uid;
        form := Patch(form, "author", NullableText(displayName));
      }
    }

    /** The fetched post arrived: a post of this user becomes the post to
        edit and fills title, content and author; anything else is refused
        and changes nothing. */
    method OnPostLoaded(post: Option<Fields>) returns (authorized: bool)
      modifies this`postToEdit, this`form
      ensures authorized == MayEdit(post, userId)
      ensures authorized ==> postToEdit == post
      ensures authorized ==> form == Patch(Patch(Patch(old(form), "title", Get(post.value, "title")),
                                                  "content", Get(post.value, "content")),
                                            "author", Get(post.value, "author"))
      ensures !authorized ==> postToEdit == old(postToEdit) && form == old(form)
    {
      authorized := false;
      if post.Some? && Get(post.value, "authorId") == Text(userId) {
        authorized := true;
        postToEdit := post;
        form := Patch(form, "title", Get(post.value, "title"));
        form := Patch(form, "content", Get(post.value, "content"));
        form := Patch(form, "author", Get(post.value, "author"));
      }
    }

    /** Submits the form: an invalid form does nothing; a valid one sends
        the payload to the service, emits the close event and resets. */
    method Submit(valid: bool, today: Time) returns (action: PostAction, closed: bool)
      modifies this`form
      ensures action == PostSubmission(valid, isEditMode, postId, userId, old(form), postToEdit, today)
      ensures closed == valid
      ensures form == if valid then ResetForm(old(form)) else old(form)
    {
      if !valid {
        return NoAction, false;
      }
      var createdAt := if isEditMode then (if postToEdit.Some? then Get(postToEdit.value, "createdAt") else Undefined)
                       else DayText(today);
      var postData := form + map["authorId" := Text(userId), "createdAt" := createdAt, "updatedAt" := DayText(today)];
      if isEditMode && postId.Some? && postId.value != "" {
        action := Update(postId.value, postData);
        closed := true;
      } else {
        action := Create(postData);
        closed := true;
      }
      form := ResetForm(form);
    }
  }
}
