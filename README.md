# Firebase blog: a Dafny model of its view state, forms and services

This project models the self-contained logic of a single-page blog whose
persistence, sign-in and file storage go through a hosted backend's client SDK.
It covers:

- **Feed view state** (`BlogPost`). A class holds the listed posts and three
  per-post tables: comments, "comments shown" and "comment form shown". It also
  holds the global post-form flag and the current post id. The model covers the
  toggles, the closes, the positional merge of the per-post comment fetches
  once their join emits (a failed fetch degrades to no comments), when that
  join emits at all (see Findings), and the filter applied after a delete.
- **Profile-picture check** (`Register`). It is an ordered decision: size limit
  of 1048576 bytes first, then the MIME type. It also models the choice between
  uploading the picture before the profile update or updating without a photo.
- **Comment and post services** (`Comments`, `Posts`). These build the stored
  records and the update patches, and map a fetched snapshot to a view. Each
  database collection is a `map` field of a service class. The database
  refuses a write that holds an undefined field (`Values.Writable`). The
  comment service filters such fields out; the post service does not. The
  generated id, the clock and the backend's answer to each call (refused by
  security rules or the network, or not) are parameters.
- **Post and comment forms** (`CreatePost`, `CreateComment`). The model covers
  edit-mode entry, the prefill guards, the author guards, and the submit
  decision: nothing, create/add, or update, with the payload's stamps.
- **Session cache** (`Auth`). It covers set, get, clear, logout order, the
  cache refresh on sign-in, the profile-picture path and `isAuthenticated`.
- **Flows** (`Flows`). These lemmas carry a form's decision through a service
  and state what ends up stored.

Documents, forms and patches are field maps (`Values.Fields`), so an object
spread `{...a, ...b}` is the map union `a + b`. Field values distinguish
`undefined`, `null`, strings, date objects (`Instant`) and locale date strings
(`DayText`). The services mix these: a new post is stamped with date strings,
while post updates and comments get date objects.

Where the code departs from the system's documented design, the model follows
the code:

- The documentation says updating a comment never touches `createdAt`. The
  comment form sends a fresh `createdAt` date string on every edit, and the
  service passes it through (`Flows.EditedCommentReplacesCreatedAt`). A fetch by
  id then calls `toDate()` on that string and throws. So a comment edited once
  can no longer be loaded into the edit form
  (`Flows.EditedCommentFailsToReload`).
- The documentation says creation rejects empty required fields. The services
  do not check; only the form's validity gates a submit.
- The ownership check on a post only gates the prefill. A valid edit submit
  sends an update whether or not the post was loaded. Without a loaded post
  the patch carries an undefined `createdAt`, so the database refuses it and
  the post stays as it was, while the form still closes
  (`CreatePost.OwnershipDoesNotGateSubmit`, `Flows.UnloadedEditIsRefused`,
  `Flows.UnloadedEditChangesNothing`).
- The forms react to asynchronous callbacks (the signed-in user, the fetched
  post or comment). Each callback is a separate method, so the caller picks the
  order. If the post arrives before the user, the user id is still empty and
  the prefill is refused.
- No route guard exists in the code. `isAuthenticated` always answers yes (see
  Findings).

## Model

| member | source | states |
|---|---|---|
| `Comments.FilterUndefinedFields` | src/app/services/comment/comment.service.ts:22-26 | keeps exactly the entries whose value is not undefined, with their values unchanged; the result holds no undefined value |
| `Comments.FilterUndefinedIdempotent` | src/app/services/comment/comment.service.ts:22-26 | filtering twice equals filtering once |
| `Comments.NewCommentRecord` | src/app/services/comment/comment.service.ts:36-43 | the stored comment has `id` = the generated id and `createdAt` = `updatedAt` = the service's instant, whatever the caller sent; every other caller field is kept unless undefined |
| `Comments.UpdateCommentPatch` | src/app/services/comment/comment.service.ts:98-101 | the patch always carries `updatedAt` = the service's instant, overriding the caller; every other caller field passes through unless undefined; no undefined value is written |
| `Comments.ToDate` | src/app/services/comment/comment.service.ts:79-80 | converting a stored value succeeds exactly on a timestamp and returns it |
| `Comments.CommentFromSnapshot` | src/app/services/comment/comment.service.ts:65-84 | an absent document gives nothing; otherwise the fetch succeeds iff `createdAt` is a timestamp and `updatedAt` is a timestamp or falsy; the view has exactly id, content, author, createdAt and updatedAt (`authorId` is dropped), with `updatedAt` undefined when not stored |
| `Comments.AddedCommentReadsBack` | src/app/services/comment/comment.service.ts:36-83 | reading back a stored new comment gives the document id, the caller's content and author, and the service's instant for both stamps |
| `Comments.CommentService.AddComment` | src/app/services/comment/comment.service.ts:28-45 | succeeds iff the backend accepts the write; then the new record is stored under the generated id in the post's sub-collection, every other comment is kept, and the id is returned; a refusal stores nothing |
| `Comments.CommentService.GetCommentById` | src/app/services/comment/comment.service.ts:57-86 | a refused read fails with the backend's message; otherwise the view of the stored comment's snapshot, and nothing for an absent comment |
| `Comments.CommentService.UpdateComment` | src/app/services/comment/comment.service.ts:88-102 | succeeds iff the backend accepts and the comment exists, and then merges the patch into it; otherwise it fails with the backend's message or `not-found` and changes nothing |
| `Comments.CommentService.DeleteComment` | src/app/services/comment/comment.service.ts:104-110 | answers as the backend does; on success exactly that comment is removed and is absent afterwards; a refusal changes nothing |
| `Posts.NewPostRecord` | src/app/services/post/post.service.ts:28-33 | the stored post has `id` = the generated id and `createdAt` = `updatedAt` = the service's date string, whatever the caller sent; every other caller field is kept, undefined ones included |
| `Posts.UpdatePostPatch` | src/app/services/post/post.service.ts:58-62 | the patch always carries `updatedAt` = the service's instant, overriding the caller; every other supplied field passes through, undefined ones included |
| `Posts.UpdatePostPatchWritable` | src/app/services/post/post.service.ts:58-62 | the database accepts the update patch iff no caller field other than `updatedAt` is undefined |
| `Posts.CommentPatchFiltersPostPatch` | src/app/services/post/post.service.ts:58-62 | the comment service's patch is the post service's patch without undefined entries; they coincide iff no field other than `updatedAt` is undefined |
| `Posts.PostFromSnapshot` | src/app/services/post/post.service.ts:48-52 | an absent document gives nothing; otherwise the view has the document id followed by the stored fields, so a stored `id` field wins |
| `Posts.CreatedPostReadsBack` | src/app/services/post/post.service.ts:28-52 | reading back a stored new post gives exactly the stored record |
| `Posts.PostService.CreatePost` | src/app/services/post/post.service.ts:24-37 | succeeds iff the record has no undefined field and the backend accepts; then it is stored under the generated id, that id is returned, and reading it back gives the record; an undefined field fails with `invalid-argument`, a backend refusal with its message, and neither stores anything |
| `Posts.PostService.GetPostById` | src/app/services/post/post.service.ts:45-54 | a refused read fails with the backend's message; otherwise nothing iff the post is absent, else the view of its snapshot |
| `Posts.PostService.UpdatePost` | src/app/services/post/post.service.ts:56-63 | succeeds iff the patch has no undefined field, the backend accepts and the post exists, and then merges the patch into it; otherwise it fails with `invalid-argument`, the backend's message or `not-found`, in that order, and changes nothing |
| `Posts.PostService.DeletePost` | src/app/services/post/post.service.ts:65-68 | answers as the backend does; on success exactly that post is removed; a refusal changes nothing |
| `Auth.UploadPath` | src/app/services/auth/auth.service.ts:93 | the path is `profilePictures/`, then the uid, then `/`, then the file name, each at its exact offset |
| `Auth.UploadPathRoundTrip` | src/app/services/auth/auth.service.ts:93 | the path `profilePictures/{uid}/{fileName}` splits back into the uid and the file name, given a uid without `/` |
| `Auth.UploadPathsDistinct` | src/app/services/auth/auth.service.ts:93 | different (uid, file name) pairs get different upload paths |
| `Auth.IsAuthenticated` | src/app/services/auth/auth.service.ts:24-27 | as written: answers true for every session, signed in or not |
| `Auth.IsSignedIn` | src/app/services/auth/auth.service.ts:24-27 | corrected: true iff a user is signed in |
| `Auth.IsAuthenticatedWithoutUser` | src/app/services/auth/auth.service.ts:24-27 | with nobody signed in, the code answers yes while the intended test answers no |
| `Auth.AuthService.SetUserData` | src/app/services/auth/auth.service.ts:81-90 | a null user changes nothing; a user is cached as its email, display name and photo URL only |
| `Auth.AuthService.GetUserData` | src/app/services/auth/auth.service.ts:76-79 | gives the cached fields, or nothing when none are stored |
| `Auth.AuthService.ClearUserData` | src/app/services/auth/auth.service.ts:64-66 | removes the cache entry |
| `Auth.AuthService.Logout` | src/app/services/auth/auth.service.ts:59-62 | removes the cache entry and then signs out, in that order; the cache is empty whatever the sign-out's outcome |
| `Auth.AuthService.Register` | src/app/services/auth/auth.service.ts:29-38 | a successful registration caches the new user's three fields; a failure changes nothing |
| `Auth.AuthService.Login` | src/app/services/auth/auth.service.ts:40-47 | a successful sign-in caches the user's three fields; a failure changes nothing |
| `Auth.AuthService.GoogleSignIn` | src/app/services/auth/auth.service.ts:49-57 | a successful popup sign-in caches the user's three fields; a failure changes nothing |
| `Auth.AuthService.GetCurrentUser` | src/app/services/auth/auth.service.ts:68-74 | returns the current user and refreshes the cache only when there is one |
| `Auth.AuthService.UploadProfilePicture` | src/app/services/auth/auth.service.ts:92-104 | uploads under `profilePictures/{uid}/{fileName}`; on success returns the URL and caches the user object as it stands |
| `Auth.AuthService.UpdateUserProfile` | src/app/services/auth/auth.service.ts:106-116 | on success caches the user with the new display name and, when given, the new photo URL |
| `Auth.CacheReadsBack` | src/app/services/auth/auth.service.ts:76-90 | after caching a user, reading the cache gives exactly its email, display name and photo URL |
| `Auth.LogoutEmptiesCache` | src/app/services/auth/auth.service.ts:59-79 | after a logout, reading the cache gives nothing, whether or not the sign-out succeeded |
| `BlogPost.Toggled` | src/app/components/blog-post/blog-post.component.ts:114-116 | flips one post's flag, reading a post never toggled as false, and leaves every other post's flag as it was |
| `BlogPost.ToggleTwiceRestores` | src/app/components/blog-post/blog-post.component.ts:114-116 | two toggles restore the flag; from a post never toggled, the first shows and the second hides |
| `BlogPost.Recover` | src/app/components/blog-post/blog-post.component.ts:86-89 | a failed fetch degrades to no comments; a successful one keeps its comments |
| `BlogPost.Degraded` | src/app/components/blog-post/blog-post.component.ts:79-91 | the joined array has one entry per fetch, each failure caught on its own |
| `BlogPost.Merged` | src/app/components/blog-post/blog-post.component.ts:97-98 | the table after writing each listed post's entry of the joined array, a missing entry read as `[]`, in list order: every old key stays, every listed post becomes a key, and when every entry is empty each listed post maps to `[]` |
| `BlogPost.MergedKeys` | src/app/components/blog-post/blog-post.component.ts:97-98 | after the merge every listed post's id is a key, and every other key keeps its comments |
| `BlogPost.MergedAt` | src/app/components/blog-post/blog-post.component.ts:97-98 | a post's id maps to the joined entry at its position, or to no comments when that entry is missing; with repeated ids the last position wins |
| `BlogPost.FailureIsolated` | src/app/components/blog-post/blog-post.component.ts:86-98 | once the join emits, with one fetch per post, each post gets its own fetch's comments, and a failed fetch gives that post alone no comments |
| `BlogPost.TwoPostScenario` | src/app/components/blog-post/blog-post.component.ts:86-98 | posts p1 (fetch gives [c1]) and p2 (fetch fails) yield p1 to [c1] and p2 to [] |
| `BlogPost.Tapped` | src/app/components/blog-post/blog-post.component.ts:81-85 | the table after the per-fetch writes, each delivered list under its post's id in list order: every old key stays and every delivering post becomes a key |
| `BlogPost.LoadedAsWritten` | src/app/components/blog-post/blog-post.component.ts:79-98 | the table once loading settles as the code is written: the merge of all-`[]` entries when every query failed (each listed post then maps to `[]`), otherwise only the per-fetch writes; every old key stays and every delivering post becomes a key |
| `BlogPost.TappedKeys` | src/app/components/blog-post/blog-post.component.ts:81-85 | the per-fetch writes add exactly the ids of the posts whose query delivered a list, and keep every other key |
| `BlogPost.AsWrittenFailureListedOnlyIfAllFail` | src/app/components/blog-post/blog-post.component.ts:79-98 | as written, a post whose query failed gets a table entry iff every query failed, since only then does the join emit |
| `BlogPost.PartialFailureNotIsolated` | src/app/components/blog-post/blog-post.component.ts:79-98 | p1 delivering [c1] and p2 failing leaves the table as {p1: [c1]} with no entry for p2, where the merge of completed queries gives p2 [] |
| `BlogPost.Without` | src/app/components/blog-post/blog-post.component.ts:143 | the list after a delete: no longer, and no remaining post has the deleted id |
| `BlogPost.WithoutRemovesExactly` | src/app/components/blog-post/blog-post.component.ts:143 | after a delete, a post is listed iff it was listed and its id differs; each kept post keeps its multiplicity |
| `BlogPost.WithoutKeepsOrder` | src/app/components/blog-post/blog-post.component.ts:143 | filtering distributes over concatenation, so the kept posts stay in their original order |
| `BlogPost.WithoutAbsent` | src/app/components/blog-post/blog-post.component.ts:143 | deleting an id no listed post has leaves the list unchanged |
| `BlogPost.BlogPostView.constructor` | src/app/components/blog-post/blog-post.component.ts:26-32 | no posts, empty tables, forms hidden, no current post or user |
| `BlogPost.BlogPostView.OnCurrentUser` | src/app/components/blog-post/blog-post.component.ts:51-55 | the current user id is the user's uid, or nothing |
| `BlogPost.BlogPostView.OnPostsLoaded` | src/app/components/blog-post/blog-post.component.ts:56-63 | keeps the new list and merges its comments (the corrected load; see Findings) |
| `BlogPost.BlogPostView.OnCommentsFetched` | src/app/components/blog-post/blog-post.component.ts:82-85 | one post's fetched comments are stored under its id |
| `BlogPost.BlogPostView.LoadCommentsForPosts` | src/app/components/blog-post/blog-post.component.ts:71-111 | an empty list leaves the comment table unchanged; otherwise the table becomes the merge of the degraded fetch results |
| `BlogPost.BlogPostView.OnShowComment` | src/app/components/blog-post/blog-post.component.ts:114-116 | the comment-list table becomes the toggled table |
| `BlogPost.BlogPostView.OnShowCommentForm` | src/app/components/blog-post/blog-post.component.ts:118-121 | the post becomes current and only its comment-form flag flips |
| `BlogPost.BlogPostView.OnShowPostForm` | src/app/components/blog-post/blog-post.component.ts:123-126 | the post becomes current and the single post-form flag flips |
| `BlogPost.BlogPostView.OnClosePostForm` | src/app/components/blog-post/blog-post.component.ts:128-131 | the post form is hidden and no post is current |
| `BlogPost.BlogPostView.OnCloseCommentForm` | src/app/components/blog-post/blog-post.component.ts:133-136 | only that post's comment form is hidden, and no post is current |
| `BlogPost.ClosePostFormIdempotent` | src/app/components/blog-post/blog-post.component.ts:128-131 | closing the post form twice hides it and clears the current post, as closing once does; no other field of the view can change |
| `BlogPost.CloseCommentFormIdempotent` | src/app/components/blog-post/blog-post.component.ts:133-136 | closing a post's comment form twice sets only that post's flag to false and clears the current post, as closing once does; no other field of the view can change |
| `BlogPost.BlogPostView.OnDeletePost` | src/app/components/blog-post/blog-post.component.ts:138-150 | deletion is requested iff confirmed; after a successful one the list loses exactly that id's posts; the comment table is not touched |
| `Register.FileError` | src/app/components/auth/register/register.component.ts:42-54 | a file is accepted iff its size is at most 1048576 and its type is JPEG, PNG or GIF; an oversized file gets the size message whatever its type; a file within the limit of another type gets the type message |
| `Register.SizeBoundary` | src/app/components/auth/register/register.component.ts:45-50 | exactly 1048576 bytes passes the size check; one byte more gets the size message even for a disallowed type |
| `Register.RegisterForm.constructor` | src/app/components/auth/register/register.component.ts:22-23 | no message and no selected file |
| `Register.RegisterForm.OnFileSelected` | src/app/components/auth/register/register.component.ts:38-56 | no file changes nothing; an accepted file is selected and clears the message; a refused one clears the selection and sets the refusal message |
| `Register.RegisterForm.OnRegister` | src/app/components/auth/register/register.component.ts:58-70 | a new user proceeds to the profile update; a failure shows its message |
| `Register.RegisterForm.UpdateUserProfile` | src/app/components/auth/register/register.component.ts:72-91 | uploads iff a file is selected, under the user's upload path; updates the profile with the URL after a successful upload, without a photo URL when no file is selected, and not at all after a failed upload; a failure sets its message |
| `CreatePost.PostSubmission` | src/app/components/modal/create-post/create-post.component.ts:90-110 | an invalid form does nothing; otherwise the payload is the form's values with `authorId` = user id, `updatedAt` = today, and `createdAt` = the loaded post's in edit mode or today otherwise; it is an update of the post id iff in edit mode with a post id, a creation otherwise |
| `CreatePost.OwnershipDoesNotGateSubmit` | src/app/components/modal/create-post/create-post.component.ts:75-100 | a valid edit with a post id updates even when no owned post was loaded, sending an undefined `createdAt` |
| `CreatePost.CreatePostForm.constructor` | src/app/components/modal/create-post/create-post.component.ts:22-27 | the given post id, no user yet, not in edit mode, no post loaded |
| `CreatePost.CreatePostForm.NgOnInit` | src/app/components/modal/create-post/create-post.component.ts:36-52 | builds empty controls; edit mode is entered and the post fetched iff a post id is present |
| `CreatePost.CreatePostForm.OnAuthUser` | src/app/components/modal/create-post/create-post.component.ts:54-69 | a user sets the display name, the user id and the author control; no user changes nothing |
| `CreatePost.CreatePostForm.OnPostLoaded` | src/app/components/modal/create-post/create-post.component.ts:71-88 | the post is kept and the form prefilled iff it exists and its `authorId` is the user's id; otherwise nothing changes |
| `CreatePost.CreatePostForm.Submit` | src/app/components/modal/create-post/create-post.component.ts:90-113 | the decision of `PostSubmission` on the current state; a valid submit emits the close event and resets the form; an invalid one changes nothing |
| `CreateComment.CommentSubmission` | src/app/components/modal/create-comment/create-comment.component.ts:84-104 | an invalid form does nothing; otherwise the payload is the form's values with the author id, `createdAt` = today even in edit mode, and `updatedAt` = today in edit mode and undefined otherwise; it is an update iff in edit mode with a comment id, an addition otherwise |
| `CreateComment.EditWithoutIdAdds` | src/app/components/modal/create-comment/create-comment.component.ts:94-104 | edit mode with a null or empty comment id adds a new comment |
| `CreateComment.CreateCommentForm.constructor` | src/app/components/modal/create-comment/create-comment.component.ts:22-29 | the given inputs, no author yet |
| `CreateComment.CreateCommentForm.NgOnInit` | src/app/components/modal/create-comment/create-comment.component.ts:37-51 | builds empty controls; the comment is fetched iff in edit mode with a comment id |
| `CreateComment.CreateCommentForm.OnAuthUser` | src/app/components/modal/create-comment/create-comment.component.ts:53-69 | only the first auth value is taken; the author is set only for a user with a non-empty display name |
| `CreateComment.CreateCommentForm.OnCommentLoaded` | src/app/components/modal/create-comment/create-comment.component.ts:71-82 | an existing comment fills the content and the author control; an absent comment or a failed fetch changes nothing |
| `CreateComment.CreateCommentForm.Submit` | src/app/components/modal/create-comment/create-comment.component.ts:84-107 | the decision of `CommentSubmission` on the current state; a valid submit emits the close event and resets the form; an invalid one changes nothing |
| `Flows.DispatchPost` | src/app/components/modal/create-post/create-post.component.ts:100-110 | no decision makes no service call; a creation stores the new record under the generated id iff the record has no undefined field and the backend accepts; an update merges the patch iff it has no undefined field, the backend accepts and the post exists; a refused write changes nothing |
| `Flows.DispatchComment` | src/app/components/modal/create-comment/create-comment.component.ts:94-104 | no decision makes no service call; an addition stores the new record in that post's sub-collection iff the backend accepts, changing no other comment; an update merges the patch iff the backend accepts and the comment exists, changing no other; a refused write changes nothing |
| `Flows.CreatedPostScenario` | src/app/services/post/post.service.ts:28-52 | creating {title A, content B} under id p1 and fetching it gives id p1, the form's fields, the author id and the service's date string for both stamps |
| `Flows.EditedPostKeepsCreatedAt` | src/app/components/modal/create-post/create-post.component.ts:90-103 | editing an owned, loaded post keeps its stored `createdAt` and stamps `updatedAt`; the database accepts the patch iff the stored post has a `createdAt` and no form control is undefined |
| `Flows.UnloadedEditIsRefused` | src/app/components/modal/create-post/create-post.component.ts:96-101 | editing a post that was not loaded sends an update whose patch carries an undefined `createdAt`, which the database refuses |
| `Flows.UnloadedEditChangesNothing` | src/app/components/modal/create-post/create-post.component.ts:96-101 | carrying that edit to the post service fails with `invalid-argument`, whatever the backend would answer, and leaves every stored post unchanged |
| `Flows.EditedCommentReplacesCreatedAt` | src/app/components/modal/create-comment/create-comment.component.ts:90 | editing a comment through the form replaces its `createdAt` with today's date string |
| `Flows.EditedCommentFailsToReload` | src/app/services/comment/comment.service.ts:79 | a comment edited through the form can no longer be fetched by id |
| `Flows.AddedCommentScenario` | src/app/services/comment/comment.service.ts:36-43 | a comment added through the form is stored with the service's instants in place of the form's stamps, with `authorId` the author's id or null, and reads back without error |

## Left out

- Backend SDK calls: document writes, reads and deletes, sign-in and sign-out, and storage uploads are not modelled. Collections are maps; generated ids, "now" and the backend's answer to each service call are parameters, and a refused call changes nothing.
- The live queries `getPosts` and `getComments` are not modelled. The feed receives the listed posts and one fetch outcome per post as parameters.
- Stream composition is not modelled: subscriptions, `switchMap`, `take` and unsubscribing on destroy.
- `BlogPost.BlogPostView.LoadCommentsForPosts`: models the merge loop as it runs once the join emits. In the code the comment queries are live and never complete, so the join emits only when every query failed; otherwise the table is filled only by the per-fetch writes (`OnCommentsFetched`), and a failed post gets no entry. `BlogPost.LoadedAsWritten` states that behaviour (see Findings). Later emissions of a live query are not modelled: each query delivers one list.
- The database's refusal of undefined fields is modelled as an `invalid-argument` failure that changes nothing. The rejected promise that no caller catches, and its console error, are not modelled.
- Dotted field paths in update patches are not modelled. Timestamp conversion is reduced to the `Instant` marker.
- Deleting a post does not delete its comment sub-collection. The two services are separate stores, so this is visible but no lemma states it.
- The clock and locale formatting are abstract. `DayText(t)` stands for the locale date string of `t`.
- `Comments.NewCommentRecord`: the code reads the clock twice, once for `createdAt` and once for `updatedAt`, and the two instants can differ by a millisecond. The model reads one `now`, so `createdAt == updatedAt` here (and in `Comments.AddedCommentReadsBack` and `Flows.AddedCommentScenario`) holds in the model, not in the code.
- `Posts.NewPostRecord`: the two date strings come from two clock reads, which can differ across midnight. The model uses one `now`, so the equal stamps here and in `Flows.CreatedPostScenario` hold in the model, not in the code.
- `CreatePost.PostSubmission`: the form's `createdAt` (when creating) and `updatedAt` come from two clock reads; the model uses one `today` for both.
- `CreateComment.CommentSubmission`: the form's `createdAt` and `updatedAt` (in edit mode) come from two clock reads; the model uses one `today` for both.
- Browser storage and JSON encoding are not modelled. The cache is an `Option<UserData>`, and a stringify/parse round trip is taken to be the identity on the three fields.
- Angular forms internals are not modelled. Validity is a boolean input, controls are a field map, `reset` sets every control to null, and the disabled state of the author control is not modelled.
- `confirm()`, router navigation, console logging and `EventEmitter` are not modelled. Confirmation is a boolean input, and the close event is an output flag.
- The registration success step is not modelled: resetting the form and navigating home.
- `Auth.AuthService.UploadProfilePicture`: the photo URL change it starts is not awaited. The model caches the user object as passed in and does not model the later mutation.
- `Auth.AuthService.UpdateUserProfile`: the model assumes the identity provider updates the user object before its promise resolves.
- src/app/components/auth/login/login.component.ts, src/app/components/profile/profile.component.ts, src/app/components/auth/profile/profile.component.ts and src/app/app.routes.ts are not part of this model.

## Findings

| source | as written | input that shows it | evidently intended | confidence | as-written member | corrected member |
|---|---|---|---|---|---|---|
| src/app/services/auth/auth.service.ts:24-27 | `isAuthenticated` returns `!!user(this.auth)`, the truthiness of a stream object, which is always true | no user signed in: the method still returns true | true exactly when a user is signed in | high; not executed | `Auth.IsAuthenticated` (shown by `Auth.IsAuthenticatedWithoutUser`) | `Auth.IsSignedIn` |
| src/app/components/blog-post/blog-post.component.ts:79-98 | each per-post comment query is the live `getComments` stream, which never completes; `forkJoin` waits for every stream to complete, and only a caught failure (`of([])`) does | p1's query delivers [c1] and p2's fails: the join never emits, p1 gets [c1] from the per-fetch write, and p2 gets no entry | each post gets its own query's comments and a failed query gives that post alone `[]`, as the merge of completed queries does (for instance with `take(1)` on each query) | high; not executed | `BlogPost.LoadedAsWritten` (shown by `BlogPost.AsWrittenFailureListedOnlyIfAllFail` and `BlogPost.PartialFailureNotIsolated`) | `BlogPost.BlogPostView.LoadCommentsForPosts` (with `BlogPost.FailureIsolated`) |
