/**
 * The database behind the inbox's connection: the five tables it touches and
 * the id sequence of each table it inserts into.
 */
module Database {
  import opened Wrappers
  import opened Models

  /** The contents of the store at one moment. */
  datatype Tables = Tables(
    users: seq<User>,
    blogs: seq<Blog>,
    posts: seq<Post>,
    comments: seq<Comment>,
    likes: seq<Like>,
    nextPostId: int,
    nextCommentId: int,
    nextLikeId: int)
  {
    function UserFromUrl(url: string): Option<User> { FindByApUrl(users, UserKey, url) }
    function BlogFromUrl(url: string): Option<Blog> { FindByApUrl(blogs, BlogKey, url) }
    function PostByApUrl(url: string): Option<Post> { FindByApUrl(posts, PostKey, url) }
    function CommentByApUrl(url: string): Option<Comment> { FindByApUrl(comments, CommentKey, url) }
    function LikeIndex(url: string): Option<nat> { IndexOf(likes, LikeKey, url) }

    /** Number of likes whose `ap_url` is `url`. */
    function LikesWith(url: string): nat { Count(likes, LikeKey, url) }

    function WithPost(p: NewPost): Tables {
      this.(posts := posts + [Post(nextPostId, p)], nextPostId := nextPostId + 1)
    }

    function WithComment(c: NewComment): Tables {
      this.(comments := comments + [Comment(nextCommentId, c)], nextCommentId := nextCommentId + 1)
    }

    function WithLike(l: NewLike): Tables {
      this.(likes := likes + [Like(nextLikeId, l)], nextLikeId := nextLikeId + 1)
    }

    function WithoutLike(i: nat): Tables
      requires i < |likes|
    {
      this.(likes := likes[..i] + likes[i + 1..])
    }
  }

  /** The store the inbox writes to in place. */
  class Store {
    var users: seq<User>
    var blogs: seq<Blog>
    var posts: seq<Post>
    var comments: seq<Comment>
    var likes: seq<Like>
    var nextPostId: int
    var nextCommentId: int
    var nextLikeId: int

    function Snapshot(): Tables
      reads this
    {
      Tables(users, blogs, posts, comments, likes, nextPostId, nextCommentId, nextLikeId)
    }

    constructor (t: Tables)
      ensures Snapshot() == t
    {
      users, blogs, posts, comments, likes := t.users, t.blogs, t.posts, t.comments, t.likes;
      nextPostId, nextCommentId, nextLikeId := t.nextPostId, t.nextCommentId, t.nextLikeId;
    }

    /** `Post::insert`: appends the post under the next id and returns it. */
    method InsertPost(p: NewPost) returns (post: Post)
      modifies this
      ensures post == Post(old(nextPostId), p)
      ensures Snapshot() == old(Snapshot()).WithPost(p)
      ensures Snapshot().PostByApUrl(p.apUrl).Some?
      ensures old(Snapshot().PostByApUrl(p.apUrl)).None? ==> Snapshot().PostByApUrl(p.apUrl) == Some(post)
    {
      post := Post(nextPostId, p);
      if IndexOf(posts, PostKey, p.apUrl).None? {
        IndexOfAppendFresh(posts, post, PostKey, p.apUrl);
      }
      posts := posts + [post];
      nextPostId := nextPostId + 1;
      assert PostKey(posts[|posts| - 1]) == Some(p.apUrl);
    }

    /** `Comment::insert`. */
    method InsertComment(c: NewComment) returns (comment: Comment)
      modifies this
      ensures comment == Comment(old(nextCommentId), c)
      ensures Snapshot() == old(Snapshot()).WithComment(c)
    {
      comment := Comment(nextCommentId, c);
      comments := comments + [comment];
      nextCommentId := nextCommentId + 1;
    }

    /** `likes::Like::insert`. */
    method InsertLike(l: NewLike) returns (like: Like)
      modifies this
      ensures like == Like(old(nextLikeId), l)
      ensures Snapshot() == old(Snapshot()).WithLike(l)
      ensures Snapshot().LikesWith(l.apUrl) == old(Snapshot().LikesWith(l.apUrl)) + 1
    {
      like := Like(nextLikeId, l);
      CountAppend(likes, [like], LikeKey, l.apUrl);
      likes := likes + [like];
      nextLikeId := nextLikeId + 1;
    }

    /** `Like::delete`: removes the row at position `i`, the one a lookup returned. */
    method DeleteLike(i: nat)
      requires i < |likes|
      modifies this
      ensures Snapshot() == old(Snapshot()).WithoutLike(i)
    {
      likes := likes[..i] + likes[i + 1..];
    }
  }
}
