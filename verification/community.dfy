/**
 * The Community feed: new posts go on top with the next id, a like button
 * toggles per post, and comments are appended to the post whose dialog is open.
 */
module Community {
  import opened Text
  import opened Wrappers

  datatype Comment = Comment(id: int, user: string, avatar: string, content: string, time: string)

  datatype Post = Post(
    id: int,
    user: string,
    avatar: string,
    content: string,
    likes: int,
    comments: seq<Comment>,
    time: string,
    liked: bool)

  /** `!content.trim()` rejects: a post or comment is accepted when it has a non-blank character. */
  predicate Accepted(content: string)
    ensures Accepted(content) <==> !AllWhitespace(content)
  {
    TrimEmptyIffBlank(content);
    Trim(content) != ""
  }

  /** The record `handlePostSubmit` builds; the content is stored untrimmed. */
  function NewPost(id: int, content: string): (p: Post)
    ensures PostWellFormed(p)
    ensures p.id == id && p.content == content && p.likes == 0 && !p.liked && p.comments == []
  {
    Post(id, "You", "Y", content, 0, [], "Just now", false)
  }

  /** `[newPost, ...communityPosts]` with `id: communityPosts.length + 1`. */
  function WithNewPost(posts: seq<Post>, content: string): (r: seq<Post>)
    ensures |r| == |posts| + 1 && r[1..] == posts
    ensures r[0].id == |posts| + 1 && r[0].content == content
    ensures r[0].likes == 0 && r[0].comments == [] && !r[0].liked
  {
    [NewPost(|posts| + 1, content)] + posts
  }

  /** The like button on one post: flip `liked`, one like more if it was not liked, one less if it was. */
  function Toggled(p: Post): (r: Post)
    ensures r.liked == !p.liked
    ensures r.likes == if p.liked then p.likes - 1 else p.likes + 1
    ensures r.(likes := p.likes, liked := p.liked) == p
  {
    p.(likes := if p.liked then p.likes - 1 else p.likes + 1, liked := !p.liked)
  }

  /** `handleLike(postId)`: the posts with that id are toggled, the others kept. */
  function ToggleLike(posts: seq<Post>, postId: int): (r: seq<Post>)
    ensures |r| == |posts|
    ensures forall i :: 0 <= i < |posts| ==>
      r[i] == if posts[i].id == postId then Toggled(posts[i]) else posts[i]
  {
    if posts == [] then []
    else [if posts[0].id == postId then Toggled(posts[0]) else posts[0]] + ToggleLike(posts[1..], postId)
  }

  /** Liking a post twice gives it back exactly as it was. */
  lemma ToggleLikeTwice(posts: seq<Post>, postId: int)
    ensures ToggleLike(ToggleLike(posts, postId), postId) == posts
  {
    var once := ToggleLike(posts, postId);
    var twice := ToggleLike(once, postId);
    forall i | 0 <= i < |posts| ensures twice[i] == posts[i] {
      assert once[i].id == posts[i].id;
    }
  }

  /** The comment record `handleCommentSubmit` appends to one post. */
  function WithComment(p: Post, content: string): (r: Post)
    ensures |r.comments| == |p.comments| + 1 && r.comments[..|p.comments|] == p.comments
    ensures r.comments[|p.comments|] == Comment(|p.comments| + 1, "You", "Y", content, "Just now")
    ensures r.(comments := p.comments) == p
  {
    p.(comments := p.comments + [Comment(|p.comments| + 1, "You", "Y", content, "Just now")])
  }

  /** The `map` in `handleCommentSubmit`: the posts with that id gain the comment, the others are kept. */
  function AddComment(posts: seq<Post>, postId: int, content: string): (r: seq<Post>)
    ensures |r| == |posts|
    ensures forall i :: 0 <= i < |posts| ==>
      r[i] == if posts[i].id == postId then WithComment(posts[i], content) else posts[i]
  {
    if posts == [] then []
    else [if posts[0].id == postId then WithComment(posts[0], content) else posts[0]]
         + AddComment(posts[1..], postId, content)
  }

  function IdSet(posts: seq<Post>): set<int>
  {
    set i | 0 <= i < |posts| :: posts[i].id
  }

  /** 1, 2, ..., n. */
  function Range(n: nat): (r: set<int>)
    ensures forall k :: k in r <==> 1 <= k <= n
  {
    if n == 0 then {} else Range(n - 1) + {n}
  }

  /** The ids in use are exactly 1..|posts|. */
  predicate IdsExact(posts: seq<Post>)
  {
    IdSet(posts) == Range(|posts|)
  }

  /** The id a new post gets is never in use yet. */
  lemma NewPostIdIsFresh(posts: seq<Post>)
    requires IdsExact(posts)
    ensures forall i :: 0 <= i < |posts| ==> posts[i].id != |posts| + 1
  {
    forall i | 0 <= i < |posts| ensures posts[i].id != |posts| + 1 {
      assert posts[i].id in IdSet(posts);
    }
  }

  /** Prepending a post with id |posts| + 1 keeps the ids exactly 1..length. */
  lemma WithNewPostKeepsIdsExact(posts: seq<Post>, content: string)
    requires IdsExact(posts)
    ensures IdsExact(WithNewPost(posts, content))
  {
    var r := WithNewPost(posts, content);
    assert IdSet(r) == {|posts| + 1} + IdSet(posts) by {
      forall k | k in IdSet(r) ensures k in {|posts| + 1} + IdSet(posts) {
        var i :| 0 <= i < |r| && r[i].id == k;
        if i > 0 { assert r[i] == posts[i - 1]; }
      }
      forall k | k in IdSet(posts) ensures k in IdSet(r) {
        var i :| 0 <= i < |posts| && posts[i].id == k;
        assert r[i + 1] == posts[i];
      }
      assert r[0].id in IdSet(r);
    }
    assert Range(|posts| + 1) == {|posts| + 1} + Range(|posts|);
  }

  /** Two lists of posts with the same ids, position by position, have the same id set. */
  lemma SameIdsSameIdSet(a: seq<Post>, b: seq<Post>)
    requires |a| == |b| && forall i :: 0 <= i < |a| ==> a[i].id == b[i].id
    ensures IdSet(a) == IdSet(b)
  {
    forall k | k in IdSet(a) ensures k in IdSet(b) {
      var i :| 0 <= i < |a| && a[i].id == k;
      assert b[i].id == k;
    }
    forall k | k in IdSet(b) ensures k in IdSet(a) {
      var i :| 0 <= i < |b| && b[i].id == k;
      assert a[i].id == k;
    }
  }

  /** A liked post carries its own like; each post's comments are numbered 1, 2, ... */
  predicate PostWellFormed(p: Post)
  {
    p.likes >= (if p.liked then 1 else 0)
    && forall k :: 0 <= k < |p.comments| ==> p.comments[k].id == k + 1
  }

  predicate FeedWellFormed(posts: seq<Post>)
  {
    IdsExact(posts) && forall i :: 0 <= i < |posts| ==> PostWellFormed(posts[i])
  }

  lemma WithNewPostKeepsFeedWellFormed(posts: seq<Post>, content: string)
    requires FeedWellFormed(posts)
    ensures FeedWellFormed(WithNewPost(posts, content))
  {
    WithNewPostKeepsIdsExact(posts, content);
    var r := WithNewPost(posts, content);
    forall i | 0 <= i < |r| ensures PostWellFormed(r[i]) {
      if i > 0 { assert r[i] == posts[i - 1]; }
    }
  }

  /** Likes never go negative and the ids stay 1..length under the like button. */
  lemma ToggleLikeKeepsFeedWellFormed(posts: seq<Post>, postId: int)
    requires FeedWellFormed(posts)
    ensures FeedWellFormed(ToggleLike(posts, postId))
  {
    SameIdsSameIdSet(posts, ToggleLike(posts, postId));
  }

  /** A new comment is numbered one past the post's last, and the ids stay 1..length. */
  lemma AddCommentKeepsFeedWellFormed(posts: seq<Post>, postId: int, content: string)
    requires FeedWellFormed(posts)
    ensures FeedWellFormed(AddComment(posts, postId, content))
  {
    var r := AddComment(posts, postId, content);
    SameIdsSameIdSet(posts, r);
    forall i | 0 <= i < |r| ensures PostWellFormed(r[i]) {
      assert PostWellFormed(posts[i]);
      if posts[i].id == postId {
        var c := r[i].comments;
        forall k | 0 <= k < |c| ensures c[k].id == k + 1 {
          if k < |posts[i].comments| { assert c[k] == posts[i].comments[k]; }
        }
      }
    }
  }

  /** The feed the page starts with. */
  const InitialPosts := [
    Post(1, "Alex Chen", "A",
      "Just swapped my winter coat for an amazing pair of boots! This platform is fantastic!", 12,
      [Comment(1, "Maya Rodriguez", "M", "Those boots look amazing! What size are they?", "1 hour ago"),
       Comment(2, "Jamal Smith", "J", "Congrats on the swap! I love seeing successful trades.", "30 minutes ago")],
      "2 hours ago", false),
    Post(2, "Maya Rodriguez", "M",
      "Looking for vintage band tees in size M. Anyone have any they're willing to swap?", 8,
      [Comment(1, "Emma Wilson", "E", "I have a few! What bands are you interested in?", "1 day ago")],
      "1 day ago", false)
  ]

  lemma InitialPostsWellFormed()
    ensures FeedWellFormed(InitialPosts)
  {
    var ps := InitialPosts;
    assert ps[0].id == 1 && ps[1].id == 2;
    assert IdSet(ps) == {1, 2} by {
      assert ps[0].id in IdSet(ps) && ps[1].id in IdSet(ps);
    }
    assert Range(2) == {1, 2};
  }

  /** The state of the Community page component. */
  class Feed {
    var posts: seq<Post>
    var isNewPostOpen: bool
    var newPostContent: string
    var activePost: Option<Post>
    var newComment: string

    ghost predicate Valid()
      reads this
    {
      FeedWellFormed(posts)
    }

    constructor ()
      ensures Valid()
      ensures posts == InitialPosts
      ensures !isNewPostOpen && newPostContent == "" && activePost.None? && newComment == ""
    {
      InitialPostsWellFormed();
      posts := InitialPosts;
      isNewPostOpen, newPostContent := false, "";
      activePost, newComment := None, "";
    }

    method OpenNewPost()
      modifies this`isNewPostOpen
      ensures isNewPostOpen
    {
      isNewPostOpen := true;
    }

    method CloseNewPost()
      modifies this`isNewPostOpen
      ensures !isNewPostOpen
    {
      isNewPostOpen := false;
    }

    /** Typing into the new-post text area. */
    method SetNewPostContent(value: string)
      modifies this`newPostContent
      ensures newPostContent == value
    {
      newPostContent := value;
    }

    /**
     * `handlePostSubmit`: a blank draft changes nothing; otherwise the post goes on
     * top, the draft is cleared and the dialog closes.
     */
    method SubmitPost() returns (accepted: bool)
      requires Valid()
      modifies this`posts, this`newPostContent, this`isNewPostOpen
      ensures Valid()
      ensures accepted == Accepted(old(newPostContent))
      ensures !accepted ==>
        posts == old(posts) && newPostContent == old(newPostContent) && isNewPostOpen == old(isNewPostOpen)
      ensures accepted ==>
        posts == WithNewPost(old(posts), old(newPostContent)) && newPostContent == "" && !isNewPostOpen
    {
      if !Accepted(newPostContent) {
        return false;
      }
      WithNewPostKeepsFeedWellFormed(posts, newPostContent);
      posts := WithNewPost(posts, newPostContent);
      newPostContent := "";
      isNewPostOpen := false;
      return true;
    }

    /** `handleLike(postId)`. */
    method Like(postId: int)
      requires Valid()
      modifies this`posts
      ensures Valid()
      ensures posts == ToggleLike(old(posts), postId)
    {
      ToggleLikeKeepsFeedWellFormed(posts, postId);
      posts := ToggleLike(posts, postId);
    }

    /** `openComments(post)`: the dialog keeps its own copy of the post. */
    method OpenComments(post: Post)
      modifies this`activePost
      ensures activePost == Some(post)
    {
      activePost := Some(post);
    }

    method CloseComments()
      modifies this`activePost
      ensures activePost.None?
    {
      activePost := None;
    }

    /** Typing into the comment box. */
    method SetNewComment(value: string)
      modifies this`newComment
      ensures newComment == value
    {
      newComment := value;
    }

    /**
     * `handleCommentSubmit`: nothing happens for a blank comment or with no dialog open;
     * otherwise the post with the dialog's id gains the comment and the box is cleared.
     * The dialog's copy of the post is not refreshed.
     */
    method SubmitComment() returns (added: bool)
      requires Valid()
      modifies this`posts, this`newComment
      ensures Valid()
      ensures added == (Accepted(old(newComment)) && activePost.Some?)
      ensures !added ==> posts == old(posts) && newComment == old(newComment)
      ensures added ==>
        posts == AddComment(old(posts), activePost.value.id, old(newComment)) && newComment == ""
    {
      if !Accepted(newComment) || activePost.None? {
        return false;
      }
      AddCommentKeepsFeedWellFormed(posts, activePost.value.id, newComment);
      posts := AddComment(posts, activePost.value.id, newComment);
      newComment := "";
      return true;
    }
  }
}
