/** The post controller (routes/api/posts.js) over an in-memory Post
    collection. The collection is a sequence in the store's natural order;
    its ids are distinct, as generated `_id`s are. Every handler that
    changes the collection is a method of `PostStore` that follows the
    handler step by step, and is proved to agree with a pure `...Step`
    function whose contract states what the handler does. The caller's
    identity, the validator's verdict, fresh ids and the current date are
    parameters. */
module Posts {
  import opened Common

  type PostId = string
  type CommentId = string

  datatype Like = Like(user: UserId)

  datatype Comment = Comment(
    id: CommentId,
    user: UserId,
    text: Option<string>,
    name: Option<string>,
    avatar: Option<string>,
    date: int)

  datatype Post = Post(
    id: PostId,
    user: UserId,
    text: Option<string>,
    name: Option<string>,
    avatar: Option<string>,
    likes: seq<Like>,
    comments: seq<Comment>,
    date: int)

  /** The fields of a request body that the post handlers read. */
  datatype PostInput = PostInput(text: Option<string>, name: Option<string>, avatar: Option<string>)

  /** A handler's first response together with the collection afterwards. */
  datatype Step<+T> = Step(response: Response<T>, posts: seq<Post>)

  function PostIds(posts: seq<Post>): seq<PostId> {
    seq(|posts|, j requires 0 <= j < |posts| => posts[j].id)
  }

  /** `likes.map(item => item.user.toString())` */
  function LikeUsers(likes: seq<Like>): seq<UserId> {
    seq(|likes|, j requires 0 <= j < |likes| => likes[j].user)
  }

  /** `comments.map(item => item._id.toString())` */
  function CommentIds(comments: seq<Comment>): seq<CommentId> {
    seq(|comments|, j requires 0 <= j < |comments| => comments[j].id)
  }

  predicate UniqueIds(posts: seq<Post>) {
    forall i, j :: 0 <= i < j < |posts| ==> posts[i].id != posts[j].id
  }

  predicate DistinctLikers(likes: seq<Like>) {
    forall a, b :: 0 <= a < b < |likes| ==> likes[a].user != likes[b].user
  }

  /** Every post is liked at most once by each user. */
  predicate LikedAtMostOnce(posts: seq<Post>) {
    forall i :: 0 <= i < |posts| ==> DistinctLikers(posts[i].likes)
  }

  /** In a collection with distinct ids, `findById` finds the one post with that id. */
  lemma FindByIdIsOnly(posts: seq<Post>, id: PostId)
    requires UniqueIds(posts)
    ensures forall j :: 0 <= j < |posts| && posts[j].id == id ==> IndexOf(PostIds(posts), id) == j
  {
    var ids := PostIds(posts);
    var k := IndexOf(ids, id);
    forall j | 0 <= j < |posts| && posts[j].id == id
      ensures k == j
    {
      assert ids[j] == id;
    }
  }

  // ---------------------------------------------------------------------
  // GET / and GET /:id

  predicate SortedByDateDesc(s: seq<Post>) {
    forall i, j :: 0 <= i < j < |s| ==> s[i].date >= s[j].date
  }

  function InsertByDate(p: Post, s: seq<Post>): (r: seq<Post>)
    requires SortedByDateDesc(s)
    ensures |r| == |s| + 1
    ensures r[0] == p || (|s| > 0 && r[0] == s[0])
    ensures SortedByDateDesc(r)
    ensures multiset(r) == multiset(s) + multiset{p}
  {
    if s == [] || s[0].date <= p.date then [p] + s
    else
      assert s == [s[0]] + s[1..];
      [s[0]] + InsertByDate(p, s[1..])
  }

  /** `Post.find().sort({ date: -1 })`: every stored post, newest first. */
  function ListPosts(posts: seq<Post>): (r: seq<Post>)
    ensures SortedByDateDesc(r)
    ensures multiset(r) == multiset(posts)
  {
    if posts == [] then []
    else
      assert posts == [posts[0]] + posts[1..];
      InsertByDate(posts[0], ListPosts(posts[1..]))
  }

  /** `Post.findById(id)`: the post with that id or, for an id nothing has,
      `null`, which the handler sends as its answer rather than an error. */
  function GetPost(posts: seq<Post>, id: PostId): (r: Option<Post>)
    ensures r.None? <==> id !in PostIds(posts)
    ensures r.Some? ==> r.value in posts && r.value.id == id
  {
    var i := IndexOf(PostIds(posts), id);
    if i < 0 then None else Some(posts[i])
  }

  /** With unique ids, `findById` finds the one post that has the id. */
  lemma GetPostFindsTheOne(posts: seq<Post>, id: PostId, j: nat)
    requires UniqueIds(posts) && j < |posts| && posts[j].id == id
    ensures GetPost(posts, id) == Some(posts[j])
  {
    FindByIdIsOnly(posts, id);
  }

  // ---------------------------------------------------------------------
  // POST / and DELETE /:id

  function CreateStep(posts: seq<Post>, caller: UserId, input: PostInput, v: Validation,
                      freshId: PostId, now: int): (s: Step<Post>)
    ensures !v.isValid ==> s == Step(InvalidInput(v.errors), posts)
    ensures v.isValid ==> s.response.Ok?
    ensures s.response.Ok? ==>
      var p := s.response.value;
      && p.id == freshId && p.user == caller && p.date == now
      && p.text == input.text && p.name == input.name && p.avatar == input.avatar
      && p.likes == [] && p.comments == []
      && s.posts == posts + [p]
    ensures UniqueIds(posts) && freshId !in PostIds(posts) ==> UniqueIds(s.posts)
  {
    if !v.isValid then Step(InvalidInput(v.errors), posts)
    else
      var p := Post(freshId, caller, input.text, input.name, input.avatar, [], [], now);
      assert forall i :: 0 <= i < |posts| ==> PostIds(posts)[i] == posts[i].id;
      Step(Ok(p), posts + [p])
  }

  function DeleteStep(posts: seq<Post>, caller: UserId, id: PostId): (s: Step<()>)
    requires UniqueIds(posts)
    ensures id !in PostIds(posts) ==> s == Step(NotFound, posts)
    ensures forall j :: 0 <= j < |posts| && posts[j].id == id ==>
      if posts[j].user != caller then s == Step(Unauthorized, posts)
      else s == Step(Ok(()), posts[..j] + posts[j + 1..])
    ensures s.response.Ok? ==> id !in PostIds(s.posts) && |s.posts| == |posts| - 1
    ensures forall q :: q in posts && q.id != id ==> q in s.posts
    ensures UniqueIds(s.posts)
  {
    var i := IndexOf(PostIds(posts), id);
    FindByIdIsOnly(posts, id);
    if i < 0 then Step(NotFound, posts)
    else if posts[i].user != caller then Step(Unauthorized, posts)
    else
      var rest := Splice1(posts, i);
      assert posts == posts[..i] + [posts[i]] + posts[i + 1..];
      assert forall k :: 0 <= k < |rest| ==> rest[k].id != id;
      Step(Ok(()), rest)
  }

  // ---------------------------------------------------------------------
  // POST /like/:id and POST /unlike/:id

  /** `likes.filter(like => like.user.toString() === v)` */
  function LikesWhereUser(likes: seq<Like>, v: JsValue): (r: seq<Like>)
    requires IsPrimitive(v)
    ensures forall l :: l in r <==> l in likes && StrictEquals(Str(l.user), v)
  {
    Filter(likes, (l: Like) => StrictEquals(Str(l.user), v))
  }

  /** The guard at lines 110-113. Since `===` binds looser than `>`, each
      user string is compared with the boolean `req.user.id.length > 0`;
      the filter's result is an array, and JavaScript counts every array as true. */
  predicate LikeGuardAsWritten(likes: seq<Like>, caller: UserId): (r: bool)
    ensures r
  {
    Truthy(Array(|LikesWhereUser(likes, Bool(|caller| > 0))|))
  }

  /** The filter of the like guard never keeps a like: no user string is
      `===` to a boolean. */
  lemma LikeGuardAlwaysHolds(likes: seq<Like>, caller: UserId)
    ensures LikesWhereUser(likes, Bool(|caller| > 0)) == []
  {
  }

  /** The filter of the unlike guard is empty exactly when the user has not liked. */
  lemma LikedByIff(likes: seq<Like>, user: UserId)
    ensures |LikesWhereUser(likes, Str(user))| > 0 <==> user in LikeUsers(likes)
  {
    var r := LikesWhereUser(likes, Str(user));
    if |r| > 0 {
      assert r[0] in likes;
      var j :| 0 <= j < |likes| && likes[j] == r[0];
      assert LikeUsers(likes)[j] == user;
    }
    if user in LikeUsers(likes) {
      var j :| 0 <= j < |likes| && LikeUsers(likes)[j] == user;
      assert likes[j] in r;
    }
  }

  /** The like handler as written: it answers `AlreadyLiked` for every post it
      finds, so the `unshift` and `save` at lines 120-121 never run. */
  function LikeStep(posts: seq<Post>, caller: UserId, id: PostId): (s: Step<Post>)
    ensures s.posts == posts
    ensures s.response == if id in PostIds(posts) then AlreadyLiked else NotFound
  {
    var i := IndexOf(PostIds(posts), id);
    if i < 0 then Step(NotFound, posts)
    else
      var liked := posts[i].(likes := [Like(caller)] + posts[i].likes);
      var saved := posts[i := liked];
      if LikeGuardAsWritten(posts[i].likes, caller) then Step(AlreadyLiked, posts)
      else Step(Ok(liked), saved)
  }

  /** The like handler with the duplicate check the guard was meant to make
      (`like.user.toString() === req.user.id` and a test of the length). */
  function LikeIntendedStep(posts: seq<Post>, caller: UserId, id: PostId): (s: Step<Post>)
    requires UniqueIds(posts)
    ensures id !in PostIds(posts) ==> s == Step(NotFound, posts)
    ensures forall j :: 0 <= j < |posts| && posts[j].id == id ==>
      if caller in LikeUsers(posts[j].likes) then s == Step(AlreadyLiked, posts)
      else
        var p := posts[j].(likes := [Like(caller)] + posts[j].likes);
        s == Step(Ok(p), posts[j := p])
    ensures UniqueIds(s.posts)
    ensures LikedAtMostOnce(posts) ==> LikedAtMostOnce(s.posts)
  {
    var i := IndexOf(PostIds(posts), id);
    FindByIdIsOnly(posts, id);
    if i < 0 then Step(NotFound, posts)
    else
      LikedByIff(posts[i].likes, caller);
      if |LikesWhereUser(posts[i].likes, Str(caller))| > 0 then Step(AlreadyLiked, posts)
      else
        var p := posts[i].(likes := [Like(caller)] + posts[i].likes);
        assert forall k :: 0 <= k < |posts[i].likes| ==> LikeUsers(posts[i].likes)[k] == posts[i].likes[k].user;
        Step(Ok(p), posts[i := p])
  }

  function UnlikeStep(posts: seq<Post>, caller: UserId, id: PostId): (s: Step<Post>)
    requires UniqueIds(posts)
    ensures id !in PostIds(posts) ==> s == Step(NotFound, posts)
    ensures forall j :: 0 <= j < |posts| && posts[j].id == id ==>
      if caller !in LikeUsers(posts[j].likes) then s == Step(NotLiked, posts)
      else
        var k := IndexOf(LikeUsers(posts[j].likes), caller);
        var p := posts[j].(likes := Splice1(posts[j].likes, k));
        s == Step(Ok(p), posts[j := p])
    ensures UniqueIds(s.posts)
    ensures LikedAtMostOnce(posts) ==> LikedAtMostOnce(s.posts)
  {
    var i := IndexOf(PostIds(posts), id);
    FindByIdIsOnly(posts, id);
    if i < 0 then Step(NotFound, posts)
    else
      LikedByIff(posts[i].likes, caller);
      if |LikesWhereUser(posts[i].likes, Str(caller))| == 0 then Step(NotLiked, posts)
      else
        var k := IndexOf(LikeUsers(posts[i].likes), caller);
        var p := posts[i].(likes := Splice1(posts[i].likes, k));
        Step(Ok(p), posts[i := p])
  }

  // ---------------------------------------------------------------------
  // POST /comment/:id and DELETE /comment/:id/:comment_id

  function AddCommentStep(posts: seq<Post>, caller: UserId, id: PostId, input: PostInput,
                          v: Validation, commentId: CommentId, now: int): (s: Step<Post>)
    requires UniqueIds(posts)
    ensures !v.isValid ==> s == Step(InvalidInput(v.errors), posts)
    ensures v.isValid && id !in PostIds(posts) ==> s == Step(NotFound, posts)
    ensures v.isValid ==> forall j :: 0 <= j < |posts| && posts[j].id == id ==>
      var c := Comment(commentId, caller, input.text, input.name, input.avatar, now);
      var p := posts[j].(comments := [c] + posts[j].comments);
      s == Step(Ok(p), posts[j := p])
    ensures UniqueIds(s.posts)
  {
    if !v.isValid then Step(InvalidInput(v.errors), posts)
    else
      var i := IndexOf(PostIds(posts), id);
      FindByIdIsOnly(posts, id);
      if i < 0 then Step(NotFound, posts)
      else
        var c := Comment(commentId, caller, input.text, input.name, input.avatar, now);
        var p := posts[i].(comments := [c] + posts[i].comments);
        Step(Ok(p), posts[i := p])
  }

  /** `comments.filter(comment => comment._id.toString() === commentId)` */
  function CommentsWithId(comments: seq<Comment>, commentId: CommentId): (r: seq<Comment>)
    ensures forall c :: c in r <==> c in comments && c.id == commentId
  {
    Filter(comments, (c: Comment) => c.id == commentId)
  }

  lemma CommentWithIdIff(comments: seq<Comment>, commentId: CommentId)
    ensures |CommentsWithId(comments, commentId)| > 0 <==> commentId in CommentIds(comments)
  {
    var r := CommentsWithId(comments, commentId);
    if |r| > 0 {
      assert r[0] in comments;
      var j :| 0 <= j < |comments| && comments[j] == r[0];
      assert CommentIds(comments)[j] == commentId;
    }
    if commentId in CommentIds(comments) {
      var j :| 0 <= j < |comments| && CommentIds(comments)[j] == commentId;
      assert comments[j] in r;
    }
  }

  /** Removing a comment. No check is made that the caller wrote it: any
      signed-in user may remove any comment (see `RemoveCommentIgnoresCaller`). */
  function RemoveCommentStep(posts: seq<Post>, caller: UserId, id: PostId,
                             commentId: CommentId): (s: Step<Post>)
    requires UniqueIds(posts)
    ensures id !in PostIds(posts) ==> s == Step(NotFound, posts)
    ensures forall j :: 0 <= j < |posts| && posts[j].id == id ==>
      if commentId !in CommentIds(posts[j].comments) then s == Step(CommentNotFound, posts)
      else
        var k := IndexOf(CommentIds(posts[j].comments), commentId);
        var p := posts[j].(comments := Splice1(posts[j].comments, k));
        s == Step(Ok(p), posts[j := p])
    ensures UniqueIds(s.posts)
  {
    var i := IndexOf(PostIds(posts), id);
    FindByIdIsOnly(posts, id);
    if i < 0 then Step(NotFound, posts)
    else
      CommentWithIdIff(posts[i].comments, commentId);
      if |CommentsWithId(posts[i].comments, commentId)| == 0 then Step(CommentNotFound, posts)
      else
        var k := IndexOf(CommentIds(posts[i].comments), commentId);
        var p := posts[i].(comments := Splice1(posts[i].comments, k));
        Step(Ok(p), posts[i := p])
  }

  // ---------------------------------------------------------------------
  // Properties that relate several requests

  lemma RemoveCommentIgnoresCaller(posts: seq<Post>, a: UserId, b: UserId, id: PostId, commentId: CommentId)
    requires UniqueIds(posts)
    ensures RemoveCommentStep(posts, a, id, commentId) == RemoveCommentStep(posts, b, id, commentId)
  {
  }

  /** After the owner deletes a post, looking its id up answers `null`. */
  lemma {:induction false} DeletedPostIsGone(posts: seq<Post>, caller: UserId, id: PostId)
    requires UniqueIds(posts)
    requires DeleteStep(posts, caller, id).response.Ok?
    ensures GetPost(DeleteStep(posts, caller, id).posts, id).None?
  {
  }

  /** Liking twice with the intended check: the second like is refused and
      the post keeps exactly one more like than before the first. */
  lemma LikeTwiceIsRefused(posts: seq<Post>, caller: UserId, j: nat)
    requires UniqueIds(posts) && j < |posts|
    requires caller !in LikeUsers(posts[j].likes)
    ensures
      var first := LikeIntendedStep(posts, caller, posts[j].id);
      var second := LikeIntendedStep(first.posts, caller, posts[j].id);
      && first.response.Ok?
      && second == Step(AlreadyLiked, first.posts)
      && |second.posts[j].likes| == |posts[j].likes| + 1
  {
    var first := LikeIntendedStep(posts, caller, posts[j].id);
    assert first.posts[j].id == posts[j].id;
    assert LikeUsers(first.posts[j].likes)[0] == caller;
  }

  /** Unliking after a first like restores the collection exactly. */
  lemma UnlikeUndoesLike(posts: seq<Post>, caller: UserId, j: nat)
    requires UniqueIds(posts) && j < |posts|
    requires caller !in LikeUsers(posts[j].likes)
    ensures
      var liked := LikeIntendedStep(posts, caller, posts[j].id);
      var unliked := UnlikeStep(liked.posts, caller, posts[j].id);
      unliked.response.Ok? && unliked.posts == posts
  {
    var liked := LikeIntendedStep(posts, caller, posts[j].id);
    var likes := liked.posts[j].likes;
    assert liked.posts[j].id == posts[j].id;
    assert LikeUsers(likes)[0] == caller;
    assert IndexOf(LikeUsers(likes), caller) == 0;
    assert Splice1(likes, 0) == posts[j].likes;
    assert liked.posts[j := posts[j]] == posts;
  }

  /** Two comments on one post: the newer one comes first. */
  lemma CommentsNewestFirst(posts: seq<Post>, caller1: UserId, caller2: UserId, j: nat,
                            in1: PostInput, in2: PostInput, v: Validation,
                            c1: CommentId, c2: CommentId, t1: int, t2: int)
    requires UniqueIds(posts) && j < |posts| && v.isValid
    ensures
      var first := AddCommentStep(posts, caller1, posts[j].id, in1, v, c1, t1);
      var second := AddCommentStep(first.posts, caller2, posts[j].id, in2, v, c2, t2);
      second.posts[j].comments ==
        [Comment(c2, caller2, in2.text, in2.name, in2.avatar, t2),
         Comment(c1, caller1, in1.text, in1.name, in1.avatar, t1)] + posts[j].comments
  {
    var first := AddCommentStep(posts, caller1, posts[j].id, in1, v, c1, t1);
    assert first.posts[j].id == posts[j].id;
  }

  predicate NoLikes(posts: seq<Post>) {
    forall i :: 0 <= i < |posts| ==> posts[i].likes == []
  }

  /** A consequence of the like guard: no handler as written ever adds a
      like, so a collection whose posts have no likes keeps them that way
      (for unlike, see `UnlikeNeverSucceeds`). */
  lemma NoHandlerAddsALike(posts: seq<Post>, caller: UserId, id: PostId,
                           input: PostInput, v: Validation, freshId: PostId, now: int)
    requires UniqueIds(posts) && NoLikes(posts)
    ensures NoLikes(CreateStep(posts, caller, input, v, freshId, now).posts)
    ensures NoLikes(DeleteStep(posts, caller, id).posts)
    ensures NoLikes(LikeStep(posts, caller, id).posts)
  {
    DeleteAddsNoLike(posts, caller, id);
  }

  lemma DeleteAddsNoLike(posts: seq<Post>, caller: UserId, id: PostId)
    requires UniqueIds(posts) && NoLikes(posts)
    ensures NoLikes(DeleteStep(posts, caller, id).posts)
  {
    var d := DeleteStep(posts, caller, id);
    if d.response.Ok? {
      var j :| 0 <= j < |posts| && posts[j].id == id;
      var rest := posts[..j] + posts[j + 1..];
      assert d.posts == rest;
      forall k | 0 <= k < |rest|
        ensures rest[k].likes == []
      {
        if k < j {
          assert rest[k] == posts[k];
        } else {
          assert rest[k] == posts[k + 1];
        }
      }
    }
  }

  /** Adding and removing comments leaves every post's likes as they were. */
  lemma CommentsLeaveLikesAlone(posts: seq<Post>, caller: UserId, id: PostId, commentId: CommentId,
                                input: PostInput, v: Validation, now: int)
    requires UniqueIds(posts)
    ensures
      var s := AddCommentStep(posts, caller, id, input, v, commentId, now);
      |s.posts| == |posts| && forall i :: 0 <= i < |posts| ==> s.posts[i].likes == posts[i].likes
    ensures
      var s := RemoveCommentStep(posts, caller, id, commentId);
      |s.posts| == |posts| && forall i :: 0 <= i < |posts| ==> s.posts[i].likes == posts[i].likes
  {
  }

  /** ... and in such a collection every unlike is refused. */
  lemma UnlikeNeverSucceeds(posts: seq<Post>, caller: UserId, id: PostId)
    requires UniqueIds(posts) && NoLikes(posts)
    ensures UnlikeStep(posts, caller, id) in {Step(NotFound, posts), Step(NotLiked, posts)}
  {
    if id in PostIds(posts) {
      var j :| 0 <= j < |posts| && PostIds(posts)[j] == id;
      assert LikeUsers(posts[j].likes) == [];
    }
  }

  // ---------------------------------------------------------------------
  // The collection, updated in place by the handlers

  class PostStore {
    var posts: seq<Post>

    ghost predicate Valid()
      reads this
    {
      UniqueIds(posts) && LikedAtMostOnce(posts)
    }

    constructor ()
      ensures Valid() && posts == []
    {
      posts := [];
    }

    /** POST / */
    method CreatePost(caller: UserId, input: PostInput, v: Validation, freshId: PostId, now: int)
      returns (r: Response<Post>)
      requires Valid() && freshId !in PostIds(posts)
      modifies this
      ensures Step(r, posts) == CreateStep(old(posts), caller, input, v, freshId, now)
      ensures Valid()
    {
      if !v.isValid {
        return InvalidInput(v.errors);
      }
      var newPost := Post(freshId, caller, input.text, input.name, input.avatar, [], [], now);
      posts := posts + [newPost];
      r := Ok(newPost);
    }

    /** DELETE /:id */
    method DeletePost(caller: UserId, id: PostId) returns (r: Response<()>)
      requires Valid()
      modifies this
      ensures Step(r, posts) == DeleteStep(old(posts), caller, id)
      ensures Valid()
    {
      var i := IndexOf(PostIds(posts), id);
      if i < 0 {
        // `post.user` of a null post throws, and `.catch` answers 404
        return NotFound;
      }
      var post := posts[i];
      if post.user != caller {
        return Unauthorized;
      }
      posts := Splice1(posts, i);
      r := Ok(());
    }

    /** POST /like/:id, as written. The guard always holds, so the collection
        is assigned its own value; the prepend and save are what lines 120-121
        would do. */
    method LikePost(caller: UserId, id: PostId) returns (r: Response<Post>)
      requires Valid()
      modifies this
      ensures Step(r, posts) == LikeStep(old(posts), caller, id)
      ensures Valid()
    {
      var i := IndexOf(PostIds(posts), id);
      if i < 0 {
        return NotFound;
      }
      var post := posts[i];
      var liked := post.(likes := [Like(caller)] + post.likes);
      var saved := posts[i := liked];
      var alreadyLiked := LikeGuardAsWritten(post.likes, caller);
      r := if alreadyLiked then AlreadyLiked else Ok(liked);
      posts := if alreadyLiked then posts else saved;
    }

    /** POST /like/:id with the intended duplicate check. */
    method LikePostIntended(caller: UserId, id: PostId) returns (r: Response<Post>)
      requires Valid()
      modifies this
      ensures Step(r, posts) == LikeIntendedStep(old(posts), caller, id)
      ensures Valid()
    {
      var i := IndexOf(PostIds(posts), id);
      if i < 0 {
        return NotFound;
      }
      var post := posts[i];
      if |LikesWhereUser(post.likes, Str(caller))| > 0 {
        return AlreadyLiked;
      }
      post := post.(likes := [Like(caller)] + post.likes);
      posts := posts[i := post];
      r := Ok(post);
    }

    /** POST /unlike/:id */
    method UnlikePost(caller: UserId, id: PostId) returns (r: Response<Post>)
      requires Valid()
      modifies this
      ensures Step(r, posts) == UnlikeStep(old(posts), caller, id)
      ensures Valid()
    {
      var i := IndexOf(PostIds(posts), id);
      if i < 0 {
        return NotFound;
      }
      var post := posts[i];
      if |LikesWhereUser(post.likes, Str(caller))| == 0 {
        return NotLiked;
      }
      LikedByIff(post.likes, caller);
      var removeIndex := IndexOf(LikeUsers(post.likes), caller);
      post := post.(likes := Splice1(post.likes, removeIndex));
      posts := posts[i := post];
      r := Ok(post);
    }

    /** POST /comment/:id */
    method AddComment(caller: UserId, id: PostId, input: PostInput, v: Validation,
                      commentId: CommentId, now: int) returns (r: Response<Post>)
      requires Valid()
      modifies this
      ensures Step(r, posts) == AddCommentStep(old(posts), caller, id, input, v, commentId, now)
      ensures Valid()
    {
      if !v.isValid {
        return InvalidInput(v.errors);
      }
      var i := IndexOf(PostIds(posts), id);
      if i < 0 {
        return NotFound;
      }
      var post := posts[i];
      var newComment := Comment(commentId, caller, input.text, input.name, input.avatar, now);
      post := post.(comments := [newComment] + post.comments);
      posts := posts[i := post];
      r := Ok(post);
    }

    /** DELETE /comment/:id/:comment_id */
    method RemoveComment(caller: UserId, id: PostId, commentId: CommentId) returns (r: Response<Post>)
      requires Valid()
      modifies this
      ensures Step(r, posts) == RemoveCommentStep(old(posts), caller, id, commentId)
      ensures Valid()
    {
      var i := IndexOf(PostIds(posts), id);
      if i < 0 {
        return NotFound;
      }
      var post := posts[i];
      if |CommentsWithId(post.comments, commentId)| == 0 {
        return CommentNotFound;
      }
      CommentWithIdIff(post.comments, commentId);
      var removeIndex := IndexOf(CommentIds(post.comments), commentId);
      post := post.(comments := Splice1(post.comments, removeIndex));
      posts := posts[i := post];
      r := Ok(post);
    }
  }
}
