/** The feed view: the listed posts, each post's comments, and the
    visibility flags of the comment lists and of the post and comment forms. */
module BlogPost {
  import opened Values

  /** A post as the feed lists it: its document id and its stored fields. */
  datatype Post = Post(id: string, data: Fields)

  type Comment = Fields

  /** A per-post flag; a post never toggled reads as false. */
  function Flag(m: map<string, bool>, key: string): bool
  {
    key in m && m[key]
  }

  /** The flag table with one post's flag flipped. */
  function Toggled(m: map<string, bool>, key: string): (r: map<string, bool>)
    ensures key in r && Flag(r, key) == !Flag(m, key)
    ensures forall k :: k != key ==> (k in r <==> k in m)
    ensures forall k :: k in m && k != key ==> r[k] == m[k]
  {
    m[key := !Flag(m, key)]
  }

  /** Toggling twice restores the flag; from a post never toggled, the
      first toggle shows and the second hides. */
  lemma ToggleTwiceRestores(m: map<string, bool>, key: string)
    ensures Flag(Toggled(Toggled(m, key), key), key) == Flag(m, key)
    ensures key !in m ==> Flag(Toggled(m, key), key) && !Flag(Toggled(Toggled(m, key), key), key)
  {
  }

  /** The outcome of one post's comment fetch once a failure has been
      caught: a failed fetch degrades to no comments. */
  function Recover(fetch: Result<seq<Comment>>): (r: seq<Comment>)
    ensures fetch.Err? ==> r == []
    ensures fetch.Ok? ==> r == fetch.value
  {
    match fetch
    case Ok(cs) => cs
    case Err(_) => []
  }

  /** The joined array: one entry per fetch, each failure caught on its own. */
  function Degraded(fetches: seq<Result<seq<Comment>>>): (r: seq<seq<Comment>>)
    ensures |r| == |fetches|
    ensures forall i :: 0 <= i < |fetches| ==> r[i] == Recover(fetches[i])
  {
    seq(|fetches|, i requires 0 <= i < |fetches| => Recover(fetches[i]))
  }

  /** `commentsArray[index] || []`: a missing entry reads as no comments. */
  function Entry(joined: seq<seq<Comment>>, index: nat): seq<Comment>
  {
    if index < |joined| then joined[index] else []
  }

  /** The comment table after writing, for each listed post in order, its
      entry of the joined array under its id: every listed post becomes a
      key, and when every entry is empty each of them maps to no comments. */
  function Merged(m: map<string, seq<Comment>>, posts: seq<Post>, joined: seq<seq<Comment>>): (r: map<string, seq<Comment>>)
    ensures m.Keys <= r.Keys
    ensures forall i :: 0 <= i < |posts| ==> posts[i].id in r
    ensures (forall j :: 0 <= j < |joined| ==> joined[j] == []) ==> forall i :: 0 <= i < |posts| ==> r[posts[i].id] == []
    decreases |posts|
  {
    if posts == [] then m
    else
      var last := |posts| - 1;
      Merged(m, posts[..last], joined)[posts[last].id := Entry(joined, last)]
  }

  /** The ids of the listed posts. */
  function Ids(posts: seq<Post>): set<string>
  {
    set p | p in posts :: p.id
  }

  /** After the merge every listed post's id is a key, and every other key
      keeps its comments. */
  lemma {:induction false} MergedKeys(m: map<string, seq<Comment>>, posts: seq<Post>, joined: seq<seq<Comment>>)
    ensures Merged(m, posts, joined).Keys == m.Keys + Ids(posts)
    ensures forall k :: k in m && k !in Ids(posts) ==> Merged(m, posts, joined)[k] == m[k]
  {
    if posts != [] {
      var last := |posts| - 1;
      MergedKeys(m, posts[..last], joined);
      assert posts == posts[..last] + [posts[last]];
      assert Ids(posts) == Ids(posts[..last]) + {posts[last].id};
    }
  }

  /** A post's id maps to the joined entry at that post's position, taking
      the last position when several posts share the id. */
  lemma {:induction false} MergedAt(m: map<string, seq<Comment>>, posts: seq<Post>, joined: seq<seq<Comment>>, i: nat)
    requires i < |posts|
    requires forall j :: i < j < |posts| ==> posts[j].id != posts[i].id
    ensures posts[i].id in Merged(m, posts, joined)
    ensures Merged(m, posts, joined)[posts[i].id] == Entry(joined, i)
  {
    var last := |posts| - 1;
    if i < last {
      var prefix := posts[..last];
      assert prefix[i] == posts[i];
      assert forall j :: i < j < |prefix| ==> prefix[j] == posts[j];
      MergedAt(m, prefix, joined, i);
    }
  }

  /** Partial-failure isolation: with one fetch per post, each post gets
      what its own fetch produced, a failed fetch giving no comments, and
      no other post is affected. */
  lemma FailureIsolated(m: map<string, seq<Comment>>, posts: seq<Post>, fetches: seq<Result<seq<Comment>>>, i: nat)
    requires |fetches| == |posts|
    requires i < |posts|
    requires forall j :: i < j < |posts| ==> posts[j].id != posts[i].id
    ensures posts[i].id in Merged(m, posts, Degraded(fetches))
    ensures Merged(m, posts, Degraded(fetches))[posts[i].id] == Recover(fetches[i])
    ensures fetches[i].Err? ==> Merged(m, posts, Degraded(fetches))[posts[i].id] == []
  {
    MergedAt(m, posts, Degraded(fetches), i);
  }

  /** One post's comment query as the feed subscribes to it. The query is
      live: it delivers the current list and stays open without ever
      completing; or it fails, and the caught failure completes with `[]`. */
  datatype LiveFetch = Delivered(comments: seq<Comment>) | Failed(message: string)

  /** A query that completed after its first list: the result a join sees. */
  function Completed(fetches: seq<LiveFetch>): (r: seq<Result<seq<Comment>>>)
    ensures |r| == |fetches|
    ensures forall i :: 0 <= i < |fetches| ==>
      r[i] == if fetches[i].Delivered? then Ok(fetches[i].comments) else Err(fetches[i].message)
  {
    seq(|fetches|, i requires 0 <= i < |fetches| =>
      if fetches[i].Delivered? then Ok(fetches[i].comments) else Err(fetches[i].message))
  }

  /** The join emits only once every stream completed; of these streams only
      a caught failure ever completes. */
  predicate JoinEmits(fetches: seq<LiveFetch>)
  {
    forall i :: 0 <= i < |fetches| ==> fetches[i].Failed?
  }

  /** The table after the per-fetch writes: each delivered list is written
      under its post's id, in list order. */
  function Tapped(m: map<string, seq<Comment>>, posts: seq<Post>, fetches: seq<LiveFetch>): (r: map<string, seq<Comment>>)
    requires |fetches| == |posts|
    ensures m.Keys <= r.Keys
    ensures forall i :: 0 <= i < |posts| && fetches[i].Delivered? ==> posts[i].id in r
    decreases |posts|
  {
    if posts == [] then m
    else
      var last := |posts| - 1;
      var before := Tapped(m, posts[..last], fetches[..last]);
      match fetches[last]
      case Delivered(cs) => before[posts[last].id := cs]
      case Failed(_) => before
  }

  /** The ids of the posts whose query delivered a list. */
  function DeliveredIds(posts: seq<Post>, fetches: seq<LiveFetch>): set<string>
    requires |fetches| == |posts|
  {
    set j | 0 <= j < |posts| && fetches[j].Delivered? :: posts[j].id
  }

  /** The per-fetch writes add exactly the ids of the delivering posts. */
  lemma {:induction false} TappedKeys(m: map<string, seq<Comment>>, posts: seq<Post>, fetches: seq<LiveFetch>)
    requires |fetches| == |posts|
    ensures Tapped(m, posts, fetches).Keys == m.Keys + DeliveredIds(posts, fetches)
  {
    if posts != [] {
      var last := |posts| - 1;
      var prefix, prefixFetches := posts[..last], fetches[..last];
      TappedKeys(m, prefix, prefixFetches);
      var added := if fetches[last].Delivered? then {posts[last].id} else {};
      forall id | id in DeliveredIds(posts, fetches)
        ensures id in DeliveredIds(prefix, prefixFetches) + added
      {
        var j :| 0 <= j < |posts| && fetches[j].Delivered? && posts[j].id == id;
        if j < last {
          assert prefix[j] == posts[j] && prefixFetches[j] == fetches[j];
        }
      }
      forall id | id in DeliveredIds(prefix, prefixFetches)
        ensures id in DeliveredIds(posts, fetches)
      {
        var j :| 0 <= j < |prefix| && prefixFetches[j].Delivered? && prefix[j].id == id;
        assert posts[j] == prefix[j] && fetches[j] == prefixFetches[j];
      }
    }
  }

  /** The comment table once the loading settles, as the code is written:
      the join emits, and writes its merge, only when every query failed;
      otherwise only the per-fetch writes happen. */
  function LoadedAsWritten(m: map<string, seq<Comment>>, posts: seq<Post>, fetches: seq<LiveFetch>): (r: map<string, seq<Comment>>)
    requires |fetches| == |posts|
    ensures m.Keys <= r.Keys
    ensures JoinEmits(fetches) ==> forall i :: 0 <= i < |posts| ==> posts[i].id in r && r[posts[i].id] == []
    ensures forall i :: 0 <= i < |posts| && fetches[i].Delivered? ==> posts[i].id in r
  {
    if posts == [] then m
    else if JoinEmits(fetches) then Merged(m, posts, Degraded(Completed(fetches)))
    else Tapped(m, posts, fetches)
  }

  /** As written, a post whose query failed gets an entry only when every
      other query failed too: one delivering query leaves it without one. */
  lemma AsWrittenFailureListedOnlyIfAllFail(m: map<string, seq<Comment>>, posts: seq<Post>,
                                            fetches: seq<LiveFetch>, i: nat)
    requires |fetches| == |posts|
    requires i < |posts| && fetches[i].Failed?
    requires posts[i].id !in m
    requires forall j :: 0 <= j < |posts| && j != i ==> posts[j].id != posts[i].id
    ensures posts[i].id in LoadedAsWritten(m, posts, fetches) <==> JoinEmits(fetches)
  {
    if JoinEmits(fetches) {
      MergedKeys(m, posts, Degraded(Completed(fetches)));
      assert posts[i] in posts;
    } else {
      TappedKeys(m, posts, fetches);
    }
  }

  /** Two posts, the first query delivering one comment and the second
      failing: as written, the second post gets no entry at all, where the
      merge of completed queries gives it no comments. */
  lemma PartialFailureNotIsolated(d1: Fields, d2: Fields, c1: Comment, failure: string)
    ensures LoadedAsWritten(map[], [Post("p1", d1), Post("p2", d2)], [Delivered([c1]), Failed(failure)]) ==
            map["p1" := [c1]]
    ensures "p2" !in LoadedAsWritten(map[], [Post("p1", d1), Post("p2", d2)], [Delivered([c1]), Failed(failure)])
    ensures Merged(map[], [Post("p1", d1), Post("p2", d2)], Degraded(Completed([Delivered([c1]), Failed(failure)])))
            == map["p1" := [c1], "p2" := []]
  {
    var posts := [Post("p1", d1), Post("p2", d2)];
    var fetches := [Delivered([c1]), Failed(failure)];
    assert !JoinEmits(fetches) by { assert !fetches[0].Failed?; }
    assert posts[..1][..0] == [] && fetches[..1][..0] == [];
    assert Tapped(map[], posts[..1], fetches[..1]) == map["p1" := [c1]];
    assert Completed(fetches) == [Ok([c1]), Err(failure)];
    TwoPostScenario(map[], d1, d2, c1, failure);
  }

  /** The posts whose id differs from `id`, in their original order. */
  function Without(posts: seq<Post>, id: string): (r: seq<Post>)
    ensures |r| <= |posts|
    ensures forall i :: 0 <= i < |r| ==> r[i].id != id
  {
    if posts == [] then []
    else (if posts[0].id == id then [] else [posts[0]]) + Without(posts[1..], id)
  }

  /** Deleting removes exactly the posts with that id, every copy of them,
      and keeps every other post as many times as it was listed. */
  lemma {:induction false} WithoutRemovesExactly(posts: seq<Post>, id: string)
    ensures forall q :: q in Without(posts, id) <==> q in posts && q.id != id
    ensures forall q :: multiset(Without(posts, id))[q] == if q.id == id then 0 else multiset(posts)[q]
  {
    if posts != [] {
      WithoutRemovesExactly(posts[1..], id);
      assert posts == [posts[0]] + posts[1..];
      assert multiset(posts) == multiset{posts[0]} + multiset(posts[1..]);
    }
  }

  /** Deleting commutes with concatenation, so the kept posts stay in order. */
  lemma {:induction false} WithoutKeepsOrder(a: seq<Post>, b: seq<Post>, id: string)
    ensures Without(a + b, id) == Without(a, id) + Without(b, id)
  {
    if a != [] {
      WithoutKeepsOrder(a[1..], b, id);
      assert (a + b)[1..] == a[1..] + b;
    } else {
      assert a + b == b;
    }
  }

  /** Deleting an id no listed post has changes nothing. */
  lemma {:induction false} WithoutAbsent(posts: seq<Post>, id: string)
    requires forall q :: q in posts ==> q.id != id
    ensures Without(posts, id) == posts
  {
    if posts != [] {
      WithoutAbsent(posts[1..], id);
      assert posts == [posts[0]] + posts[1..];
    }
  }

  /** The feed component's view state. */
  class BlogPostView {
    var posts: seq<Post>
    /** Post id to that post's comments. */
    var comments: map<string, seq<Comment>>
    /** Post id to whether its comment list is shown. */
    var showComments: map<string, bool>
    var showPostForm: bool
    /** Post id to whether its comment form is shown. */
    var showCommentForm: map<string, bool>
    var currentPostId: Option<string>
    var currentUserId: Option<string>

    constructor ()
      ensures posts == [] && comments == map[] && showComments == map[]
      ensures !showPostForm && showCommentForm == map[]
      ensures currentPostId == None && currentUserId == None
    {
      posts := [];
      comments := map[];
      showComments := map[];
      showPostForm := false;
      showCommentForm := map[];
      currentPostId := None;
      currentUserId := None;
    }

    /** The current user arrived: remember its uid, or nothing. */
    method OnCurrentUser(user: Option<AuthUser>)
      modifies this`currentUserId
      ensures currentUserId == if user.Some? then Some(user.value.uid) else None
    {
      currentUserId := if user.Some? then Some(user.value.uid) else None;
    }

    /** A new post list arrived: keep it and load its comments. */
    method OnPostsLoaded(listed: seq<Post>, fetches: seq<Result<seq<Comment>>>)
      modifies this`posts, this`comments
      ensures posts == listed
      ensures comments == if listed == [] then old(comments) else Merged(old(comments), listed, Degraded(fetches))
    {
      posts := listed;
      LoadCommentsForPosts(listed, fetches);
    }

    /** One post's comment fetch produced a list: store it under that post. */
    method OnCommentsFetched(postId: string, fetched: seq<Comment>)
      modifies this`comments
      ensures comments == old(comments)[postId := fetched]
    {
      comments := comments[postId := fetched];
    }

    /** Joins one comment fetch per listed post, each failure degraded to no
        comments, and writes each post's entry under its id in list order.
        An empty list leaves the table as it was. */
    method LoadCommentsForPosts(listed: seq<Post>, fetches: seq<Result<seq<Comment>>>)
      modifies this`comments
      ensures comments == if listed == [] then old(comments) else Merged(old(comments), listed, Degraded(fetches))
    {
      if |listed| == 0 {
        return;
      }
      var commentsArray := Degraded(fetches);
      var index := 0;
      while index < |listed|
        invariant 0 <= index <= |listed|
        invariant comments == Merged(old(comments), listed[..index], commentsArray)
      {
        comments := comments[listed[index].id := Entry(commentsArray, index)];
        assert listed[..index + 1][..index] == listed[..index];
        index := index + 1;
      }
      assert listed[..index] == listed;
    }

    /** Flips one post's comment-list flag. */
    method OnShowComment(postId: string)
      modifies this`showComments
      ensures showComments == Toggled(old(showComments), postId)
    {
      showComments := showComments[postId := !Flag(showComments, postId)];
    }

    /** Makes the post current and flips its comment-form flag. */
    method OnShowCommentForm(postId: string)
      modifies this`currentPostId, this`showCommentForm
      ensures currentPostId == Some(postId)
      ensures showCommentForm == Toggled(old(showCommentForm), postId)
    {
      currentPostId := Some(postId);
      showCommentForm := showCommentForm[postId := !Flag(showCommentForm, postId)];
    }

    /** Makes the post current and flips the single post-form flag. */
    method OnShowPostForm(postId: string)
      modifies this`currentPostId, this`showPostForm
      ensures currentPostId == Some(postId)
      ensures showPostForm == !old(showPostForm)
    {
      currentPostId := Some(postId);
      showPostForm := !showPostForm;
    }

    /** Hides the post form and forgets the current post. */
    method OnClosePostForm()
      modifies this`showPostForm, this`currentPostId
      ensures !showPostForm && currentPostId == None
    {
      showPostForm := false;
      currentPostId := None;
    }

    /** Hides one post's comment form and forgets the current post. */
    method OnCloseCommentForm(postId: string)
      modifies this`showCommentForm, this`currentPostId
      ensures showCommentForm == old(showCommentForm)[postId := false]
      ensures !Flag(showCommentForm, postId) && currentPostId == None
    {
      showCommentForm := showCommentForm[postId := false];
      currentPostId := None;
    }

    /** Asks for confirmation, requests the deletion, and once it succeeded
        drops the deleted post from the list; the comment table is kept. */
    method OnDeletePost(postId: string, confirmed: bool, deletion: Outcome) returns (requested: bool)
      modifies this`posts
      ensures requested == confirmed
      ensures posts == if confirmed && deletion.Pass? then Without(old(posts), postId) else old(posts)
    {
      requested := confirmed;
      if confirmed && deletion.Pass? {
        posts := Without(posts, postId);
      }
    }
  }

  /** Closing the post form twice leaves the state closing it once leaves:
      only the post-form flag and the current post change. */
  method ClosePostFormIdempotent(view: BlogPostView)
    modifies view`showPostForm, view`currentPostId
    ensures !view.showPostForm && view.currentPostId == None
  {
    view.OnClosePostForm();
    view.OnClosePostForm();
  }

  /** Closing one post's comment form twice leaves the state closing it once
      leaves: only that post's flag and the current post change. */
  method CloseCommentFormIdempotent(view: BlogPostView, postId: string)
    modifies view`showCommentForm, view`currentPostId
    ensures view.showCommentForm == old(view.showCommentForm)[postId := false]
    ensures view.currentPostId == None
  {
    view.OnCloseCommentForm(postId);
    view.OnCloseCommentForm(postId);
  }

  /** Two posts, the first fetch giving one comment and the second failing:
      the first post gets its comment, the second none. */
  lemma TwoPostScenario(m: map<string, seq<Comment>>, d1: Fields, d2: Fields, c1: Comment, failure: string)
    ensures Merged(m, [Post("p1", d1), Post("p2", d2)], Degraded([Ok([c1]), Err(failure)])) ==
            m["p1" := [c1]]["p2" := []]
  {
    var posts := [Post("p1", d1), Post("p2", d2)];
    var joined := Degraded([Ok([c1]), Err(failure)]);
    assert joined == [[c1], []];
    assert posts[..1][..0] == [];
    assert Merged(m, posts[..1], joined) == m["p1" := [c1]];
  }
}
