/** The post routes: the feed, deleting a post, likes and comments. Each
    handler finds a post by id, edits one of its embedded lists and saves it. */
module Posts {
  import opened Js
  import opened Http

  type PostId = string
  type CommentId = string

  /** An entry of a post's `likes` list. */
  datatype Like = Like(user: UserId)

  /** An entry of a post's `comments` list; `id` is the identity the database
      gives the embedded document. */
  datatype Comment = Comment(id: CommentId, user: UserId, text: Value, name: Value, avatar: Value)

  /** A post document. `date` is the creation time the database stamps. */
  datatype Post = Post(
    id: PostId, user: UserId, text: Value, name: Value, avatar: Value,
    likes: seq<Like>, comments: seq<Comment>, date: int)

  /** The fields of a post or comment request body that the handlers copy. */
  datatype PostInput = PostInput(text: Value, name: Value, avatar: Value)

  const NoPost := map["noPost" := "Post not found"]
  const PostNotFound := map["postNotFound" := "Post not found"]
  const NotAuthorized := map["notAuthorized" := "User not authorized"]
  const AlreadyLiked := map["alreadyLiked" := "User already liked this post"]
  const NotLiked := map["notLiked" := "You have not yet liked this post"]
  const CommentNotFound := map["commentNotFound" := "Comment not found"]

  /** `posts.map(p => p._id)` */
  function PostIds(posts: seq<Post>): seq<PostId> {
    seq(|posts|, i requires 0 <= i < |posts| => posts[i].id)
  }

  /** `likes.map(item => item.user.toString())` */
  function LikeUsers(likes: seq<Like>): seq<UserId> {
    seq(|likes|, i requires 0 <= i < |likes| => likes[i].user)
  }

  /** `comments.map(item => item._id.toString())` */
  function CommentIds(comments: seq<Comment>): seq<CommentId> {
    seq(|comments|, i requires 0 <= i < |comments| => comments[i].id)
  }

  /** The guard of the like and unlike handlers:
      `likes.filter(like => like.user.toString() === user).length > 0`. */
  predicate HasLiked(likes: seq<Like>, user: UserId) {
    |Filter(likes, (l: Like) => l.user == user)| > 0
  }

  /** The guard of the comment-removal handler:
      `comments.filter(c => c._id.toString() === id).length > 0`. */
  predicate HasComment(comments: seq<Comment>, id: CommentId) {
    |Filter(comments, (c: Comment) => c.id == id)| > 0
  }

  /** The filter guards mean what they say: some entry matches. */
  lemma HasLikedMeans(likes: seq<Like>, user: UserId)
    ensures HasLiked(likes, user) <==> user in LikeUsers(likes)
  {
    if user in LikeUsers(likes) {
      var i :| 0 <= i < |likes| && LikeUsers(likes)[i] == user;
      assert likes[i].user == user;
    }
    if HasLiked(likes, user) {
      var i :| 0 <= i < |likes| && likes[i].user == user;
      assert LikeUsers(likes)[i] == user;
    }
  }

  lemma HasCommentMeans(comments: seq<Comment>, id: CommentId)
    ensures HasComment(comments, id) <==> id in CommentIds(comments)
  {
    if id in CommentIds(comments) {
      var i :| 0 <= i < |comments| && CommentIds(comments)[i] == id;
      assert comments[i].id == id;
    }
    if HasComment(comments, id) {
      var i :| 0 <= i < |comments| && comments[i].id == id;
      assert CommentIds(comments)[i] == id;
    }
  }

  /** At most one like per user: the invariant the like guard maintains. */
  ghost predicate OneLikePerUser(likes: seq<Like>) {
    forall i, j :: 0 <= i < j < |likes| ==> likes[i].user != likes[j].user
  }

  /** Comment identities within a post are distinct. */
  ghost predicate DistinctCommentIds(comments: seq<Comment>) {
    forall i, j :: 0 <= i < j < |comments| ==> comments[i].id != comments[j].id
  }

  /** A post after `likes.unshift({ user })`: the requester's like comes first,
      the old likes follow in order, and nothing else of the post changes. */
  function Liked(p: Post, user: UserId): (r: Post)
    ensures r.(likes := p.likes) == p
    ensures |r.likes| == |p.likes| + 1
    ensures r.likes[0] == Like(user) && r.likes[1..] == p.likes
  {
    p.(likes := [Like(user)] + p.likes)
  }

  /** A post after `likes.splice(likes.map(...).indexOf(user), 1)`: only the
      likes change, and a non-empty list loses exactly one entry. Were the
      guard not there, a user with no like would make `indexOf` answer -1 and
      the splice would drop the last like. */
  function Unliked(p: Post, user: UserId): (r: Post)
    ensures r.(likes := p.likes) == p
    ensures |p.likes| > 0 ==> |r.likes| == |p.likes| - 1
    ensures user !in LikeUsers(p.likes) ==>
      r.likes == if |p.likes| == 0 then [] else p.likes[..|p.likes| - 1]
  {
    p.(likes := SpliceOne(p.likes, IndexOf(LikeUsers(p.likes), user)))
  }

  /** A post after `comments.unshift(c)`: the new comment comes first, the old
      comments follow in order, and nothing else of the post changes. */
  function Commented(p: Post, c: Comment): (r: Post)
    ensures r.(comments := p.comments) == p
    ensures |r.comments| == |p.comments| + 1
    ensures r.comments[0] == c && r.comments[1..] == p.comments
  {
    p.(comments := [c] + p.comments)
  }

  /** A post after `comments.splice(comments.map(...).indexOf(id), 1)`: only
      the comments change, and a non-empty list loses exactly one entry; an id
      that is not there would drop the last comment. */
  function Uncommented(p: Post, id: CommentId): (r: Post)
    ensures r.(comments := p.comments) == p
    ensures |p.comments| > 0 ==> |r.comments| == |p.comments| - 1
    ensures id !in CommentIds(p.comments) ==>
      r.comments == if |p.comments| == 0 then [] else p.comments[..|p.comments| - 1]
  {
    p.(comments := SpliceOne(p.comments, IndexOf(CommentIds(p.comments), id)))
  }

  /** Liking by a user who has no like yet keeps at most one like per user. */
  lemma {:induction false} LikeKeepsOneLikePerUser(p: Post, user: UserId)
    requires OneLikePerUser(p.likes)
    requires !HasLiked(p.likes, user)
    ensures OneLikePerUser(Liked(p, user).likes)
  {
    HasLikedMeans(p.likes, user);
    var l := Liked(p, user).likes;
    forall i, j | 0 <= i < j < |l| ensures l[i].user != l[j].user {
      if i == 0 {
        assert l[j] == p.likes[j - 1];
        assert LikeUsers(p.likes)[j - 1] == p.likes[j - 1].user;
      }
    }
  }

  /** Unliking removes exactly the first like of the requester; the others
      keep their order. */
  lemma UnlikeEffect(p: Post, user: UserId)
    requires HasLiked(p.likes, user)
    ensures var k := IndexOf(LikeUsers(p.likes), user);
      && 0 <= k < |p.likes|
      && p.likes[k].user == user
      && (forall i :: 0 <= i < k ==> p.likes[i].user != user)
      && Unliked(p, user).likes == p.likes[..k] + p.likes[k + 1..]
      && Unliked(p, user).comments == p.comments
  {
    HasLikedMeans(p.likes, user);
    var k := IndexOf(LikeUsers(p.likes), user);
    assert LikeUsers(p.likes)[k] == p.likes[k].user;
    forall i | 0 <= i < k ensures p.likes[i].user != user {
      assert LikeUsers(p.likes)[..k][i] == p.likes[i].user;
    }
  }

  /** Removing one entry keeps at most one like per user, and when likes were
      unique the requester has no like left. */
  lemma {:induction false} UnlikeKeepsOneLikePerUser(p: Post, user: UserId)
    requires OneLikePerUser(p.likes)
    requires HasLiked(p.likes, user)
    ensures OneLikePerUser(Unliked(p, user).likes)
    ensures !HasLiked(Unliked(p, user).likes, user)
  {
    UnlikeEffect(p, user);
    var k := IndexOf(LikeUsers(p.likes), user);
    var l := Unliked(p, user).likes;
    assert |l| == |p.likes| - 1;
    forall i | 0 <= i < |l| ensures l[i] == p.likes[if i < k then i else i + 1] {
    }
    forall i, j | 0 <= i < j < |l| ensures l[i].user != l[j].user {
      var i', j' := if i < k then i else i + 1, if j < k then j else j + 1;
      assert l[i] == p.likes[i'] && l[j] == p.likes[j'];
    }
    forall i | 0 <= i < |l| ensures LikeUsers(l)[i] != user {
      var i' := if i < k then i else i + 1;
      assert l[i] == p.likes[i'];
      if k < i' { assert p.likes[k].user != p.likes[i'].user; }
    }
    HasLikedMeans(l, user);
  }

  /** Like followed by unlike by a user who had no like restores the likes. */
  lemma {:induction false} UnlikeUndoesLike(p: Post, user: UserId)
    requires !HasLiked(p.likes, user)
    ensures Unliked(Liked(p, user), user) == p
  {
    var q := Liked(p, user);
    assert LikeUsers(q.likes)[0] == user;
    assert IndexOf(LikeUsers(q.likes), user) == 0;
    assert SpliceOne(q.likes, 0) == q.likes[1..] == p.likes;
  }

  /** A fresh comment id keeps the comment identities distinct. */
  lemma {:induction false} CommentKeepsDistinctIds(p: Post, c: Comment)
    requires DistinctCommentIds(p.comments)
    requires c.id !in CommentIds(p.comments)
    ensures DistinctCommentIds(Commented(p, c).comments)
  {
    var l := Commented(p, c).comments;
    forall i, j | 0 <= i < j < |l| ensures l[i].id != l[j].id {
      if i == 0 {
        assert CommentIds(p.comments)[j - 1] == l[j].id;
      }
    }
  }

  /** Removing a comment takes out exactly the first comment with that id,
      whoever wrote it; the others keep their order and stay distinct. */
  lemma {:induction false} UncommentEffect(p: Post, id: CommentId)
    requires HasComment(p.comments, id)
    requires DistinctCommentIds(p.comments)
    ensures var k := IndexOf(CommentIds(p.comments), id);
      && 0 <= k < |p.comments|
      && p.comments[k].id == id
      && Uncommented(p, id).comments == p.comments[..k] + p.comments[k + 1..]
      && Uncommented(p, id).likes == p.likes
      && DistinctCommentIds(Uncommented(p, id).comments)
  {
    HasCommentMeans(p.comments, id);
    var k := IndexOf(CommentIds(p.comments), id);
    assert CommentIds(p.comments)[k] == p.comments[k].id;
    var l := Uncommented(p, id).comments;
    forall i, j | 0 <= i < j < |l| ensures l[i].id != l[j].id {
      var i', j' := if i < k then i else i + 1, if j < k then j else j + 1;
      assert l[i] == p.comments[i'] && l[j] == p.comments[j'];
    }
  }

  /** The order of `GET /`: newest first (`sort({ date: -1 })`). */
  ghost predicate NewestFirst(s: seq<Post>) {
    forall i, j :: 0 <= i < j < |s| ==> s[i].date >= s[j].date
  }

  /** Inserts p into a newest-first list before the first post not newer than it. */
  function InsertByDate(p: Post, s: seq<Post>): (r: seq<Post>)
    requires NewestFirst(s)
    ensures NewestFirst(r)
    ensures multiset(r) == multiset(s) + multiset{p}
    ensures |r| == |s| + 1
    ensures r[0] == p || (|s| > 0 && r[0] == s[0])
  {
    if |s| == 0 || p.date >= s[0].date then [p] + s
    else
      var rest := InsertByDate(p, s[1..]);
      assert s == [s[0]] + s[1..];
      [s[0]] + rest
  }

  /** The feed order: the posts sorted newest first. The database does not
      promise an order among posts with equal dates; this one keeps the
      natural order among equals. */
  function SortByDateDesc(s: seq<Post>): (r: seq<Post>)
    ensures NewestFirst(r)
    ensures multiset(r) == multiset(s)
  {
    if |s| == 0 then []
    else
      assert s == [s[0]] + s[1..];
      InsertByDate(s[0], SortByDateDesc(s[1..]))
  }

  /** The posts collection. Posts are kept in their natural (insertion) order;
      a handler works on the copy `findById` returns and saves it back. */
  class PostStore {
    var posts: seq<Post>

    /** Ids are distinct, every post has at most one like per user and distinct
        comment identities. */
    ghost predicate Valid()
      reads this
    {
      && (forall i, j :: 0 <= i < j < |posts| ==> posts[i].id != posts[j].id)
      && (forall i :: 0 <= i < |posts| ==> OneLikePerUser(posts[i].likes))
      && (forall i :: 0 <= i < |posts| ==> DistinctCommentIds(posts[i].comments))
    }

    constructor ()
      ensures Valid() && posts == []
    {
      posts := [];
    }

    /** `GET /`: every post, newest first. */
    function Feed(): (r: seq<Post>)
      reads this
      ensures NewestFirst(r)
      ensures multiset(r) == multiset(posts)
    {
      SortByDateDesc(posts)
    }

    /** `POST /`: after validation, a new post by the requester with no likes
        and no comments. The database supplies the fresh id and the date. */
    method Create(input: PostInput, check: Validation, requester: UserId, newId: PostId, now: int)
      returns (r: Response<Post>)
      requires Valid()
      requires newId !in PostIds(posts)
      modifies this
      ensures Valid()
      ensures !check.isValid ==> r == Fail(400, check.errors) && posts == old(posts)
      ensures check.isValid ==>
        && r == Json(Post(newId, requester, input.text, input.name, input.avatar, [], [], now))
        && posts == old(posts) + [r.body]
    {
      if !check.isValid {
        return Fail(400, check.errors);
      }
      var post := Post(newId, requester, input.text, input.name, input.avatar, [], [], now);
      forall i | 0 <= i < |posts| ensures posts[i].id != newId {
        assert PostIds(posts)[i] == posts[i].id;
      }
      posts := posts + [post];
      r := Json(post);
    }

    /** `DELETE /:id`: only the post's owner may remove it. */
    method Delete(id: PostId, requester: UserId) returns (r: Response<bool>)
      requires Valid()
      modifies this
      ensures Valid()
      ensures id !in PostIds(old(posts)) ==> r == Fail(404, NoPost) && posts == old(posts)
      ensures id in PostIds(old(posts)) ==>
        var k := IndexOf(PostIds(old(posts)), id);
        if old(posts)[k].user != requester then
          r == Fail(401, NotAuthorized) && posts == old(posts)
        else
          r == Json(true) && posts == old(posts)[..k] + old(posts)[k + 1..]
    {
      var k := IndexOf(PostIds(posts), id);
      if k < 0 {
        return Fail(404, NoPost);
      }
      if posts[k].user != requester {
        return Fail(401, NotAuthorized);
      }
      posts := posts[..k] + posts[k + 1..];
      r := Json(true);
    }

    /** `POST /like/:id` */
    method LikePost(id: PostId, requester: UserId) returns (r: Response<Post>)
      requires Valid()
      modifies this
      ensures Valid()
      ensures id !in PostIds(old(posts)) ==> r == Fail(404, NoPost) && posts == old(posts)
      ensures id in PostIds(old(posts)) ==>
        var k := IndexOf(PostIds(old(posts)), id);
        var p := old(posts)[k];
        if HasLiked(p.likes, requester) then
          r == Fail(400, AlreadyLiked) && posts == old(posts)
        else
          r == Json(Liked(p, requester)) && posts == old(posts)[k := Liked(p, requester)]
    {
      var k := IndexOf(PostIds(posts), id);
      if k < 0 {
        return Fail(404, NoPost);
      }
      var post := posts[k];
      if |Filter(post.likes, (l: Like) => l.user == requester)| > 0 {
        return Fail(400, AlreadyLiked);
      }
      LikeKeepsOneLikePerUser(post, requester);
      post := post.(likes := [Like(requester)] + post.likes);
      posts := posts[k := post];
      r := Json(post);
    }

    /** `POST /unlike/:id` */
    method UnlikePost(id: PostId, requester: UserId) returns (r: Response<Post>)
      requires Valid()
      modifies this
      ensures Valid()
      ensures id !in PostIds(old(posts)) ==> r == Fail(404, NoPost) && posts == old(posts)
      ensures id in PostIds(old(posts)) ==>
        var k := IndexOf(PostIds(old(posts)), id);
        var p := old(posts)[k];
        if !HasLiked(p.likes, requester) then
          r == Fail(400, NotLiked) && posts == old(posts)
        else
          r == Json(Unliked(p, requester)) && posts == old(posts)[k := Unliked(p, requester)]
    {
      var k := IndexOf(PostIds(posts), id);
      if k < 0 {
        return Fail(404, NoPost);
      }
      var post := posts[k];
      if |Filter(post.likes, (l: Like) => l.user == requester)| == 0 {
        return Fail(400, NotLiked);
      }
      UnlikeKeepsOneLikePerUser(post, requester);
      var removeIndex := IndexOf(LikeUsers(post.likes), requester);
      post := post.(likes := SpliceOne(post.likes, removeIndex));
      posts := posts[k := post];
      r := Json(post);
    }

    /** `POST /comment/:id`: validation comes first; a missing post makes
        `post.comments` throw, which the handler's catch turns into 404. The
        database supplies the fresh comment id. */
    method AddComment(id: PostId, input: PostInput, check: Validation, requester: UserId, commentId: CommentId)
      returns (r: Response<Post>)
      requires Valid()
      requires forall i :: 0 <= i < |posts| ==> commentId !in CommentIds(posts[i].comments)
      modifies this
      ensures Valid()
      ensures !check.isValid ==> r == Fail(400, check.errors) && posts == old(posts)
      ensures check.isValid && id !in PostIds(old(posts)) ==> r == Fail(404, PostNotFound) && posts == old(posts)
      ensures check.isValid && id in PostIds(old(posts)) ==>
        var k := IndexOf(PostIds(old(posts)), id);
        var c := Comment(commentId, requester, input.text, input.name, input.avatar);
        r == Json(Commented(old(posts)[k], c)) && posts == old(posts)[k := Commented(old(posts)[k], c)]
    {
      if !check.isValid {
        return Fail(400, check.errors);
      }
      var k := IndexOf(PostIds(posts), id);
      if k < 0 {
        return Fail(404, PostNotFound);
      }
      var post := posts[k];
      var newComment := Comment(commentId, requester, input.text, input.name, input.avatar);
      CommentKeepsDistinctIds(post, newComment);
      post := post.(comments := [newComment] + post.comments);
      posts := posts[k := post];
      r := Json(post);
    }

    /** `DELETE /comment/:id/:comment_id`: any authenticated user may remove any
        comment; the requester is not consulted. */
    method DeleteComment(id: PostId, commentId: CommentId) returns (r: Response<Post>)
      requires Valid()
      modifies this
      ensures Valid()
      ensures id !in PostIds(old(posts)) ==> r == Fail(404, PostNotFound) && posts == old(posts)
      ensures id in PostIds(old(posts)) ==>
        var k := IndexOf(PostIds(old(posts)), id);
        var p := old(posts)[k];
        if !HasComment(p.comments, commentId) then
          r == Fail(404, CommentNotFound) && posts == old(posts)
        else
          r == Json(Uncommented(p, commentId)) && posts == old(posts)[k := Uncommented(p, commentId)]
    {
      var k := IndexOf(PostIds(posts), id);
      if k < 0 {
        return Fail(404, PostNotFound);
      }
      var post := posts[k];
      if |Filter(post.comments, (c: Comment) => c.id == commentId)| == 0 {
        return Fail(404, CommentNotFound);
      }
      UncommentEffect(post, commentId);
      var removeIndex := IndexOf(CommentIds(post.comments), commentId);
      post := post.(comments := SpliceOne(post.comments, removeIndex));
      posts := posts[k := post];
      r := Json(post);
    }
  }
}
