/**
 * The database records the inbox reads and writes, and the one query it uses
 * on every table: find the row whose `ap_url` equals a given URL. A table is
 * the sequence of its rows in the order the database returns them, so a
 * lookup yields the first match.
 */
module Models {
  import opened Wrappers

  datatype User = User(id: int, apUrl: string)

  datatype Blog = Blog(id: int, apUrl: string)

  /** The fields of a post as the inbox inserts them (`NewPost`). */
  datatype NewPost = NewPost(
    blogId: int,
    slug: string,
    title: string,
    content: string,
    published: bool,
    license: string,
    apUrl: string)

  /** A stored post: the inserted fields and the id the database gave it. */
  datatype Post = Post(id: int, fields: NewPost)

  /** The fields of a comment as the inbox inserts them (`NewComment`). */
  datatype NewComment = NewComment(
    content: string,
    spoilerText: string,
    apUrl: Option<string>,
    inResponseToId: Option<int>,
    postId: int,
    authorId: int,
    sensitive: bool)

  datatype Comment = Comment(id: int, fields: NewComment)

  /** The fields of a like as the inbox inserts them (`NewLike`). */
  datatype NewLike = NewLike(postId: int, userId: int, apUrl: string)

  datatype Like = Like(id: int, fields: NewLike)

  // The `ap_url` column of each table, as a lookup key.
  function UserKey(u: User): Option<string> { Some(u.apUrl) }
  function BlogKey(b: Blog): Option<string> { Some(b.apUrl) }
  function PostKey(p: Post): Option<string> { Some(p.fields.apUrl) }
  function CommentKey(c: Comment): Option<string> { c.fields.apUrl }
  function LikeKey(l: Like): Option<string> { Some(l.fields.apUrl) }

  /** Position of the first row whose key is `url`, if there is one. */
  function IndexOf<T>(rows: seq<T>, key: T -> Option<string>, url: string): (r: Option<nat>)
    ensures r.Some? ==> r.value < |rows| && key(rows[r.value]) == Some(url)
    ensures r.Some? ==> forall j :: 0 <= j < r.value ==> key(rows[j]) != Some(url)
    ensures r.None? ==> forall j :: 0 <= j < |rows| ==> key(rows[j]) != Some(url)
  {
    if rows == [] then None
    else if key(rows[0]) == Some(url) then Some(0)
    else match IndexOf(rows[1..], key, url)
      case None => None
      case Some(i) => Some(i + 1)
  }

  /** `find_by_ap_url` / `from_url`: the first row whose key is `url`. */
  function FindByApUrl<T>(rows: seq<T>, key: T -> Option<string>, url: string): (r: Option<T>)
    ensures r.Some? <==> exists j :: 0 <= j < |rows| && key(rows[j]) == Some(url)
    ensures r.Some? ==> r.value in rows && key(r.value) == Some(url)
  {
    match IndexOf(rows, key, url)
    case Some(i) => Some(rows[i])
    case None => None
  }

  /** Number of rows whose key is `url`. */
  function Count<T>(rows: seq<T>, key: T -> Option<string>, url: string): nat {
    if rows == [] then 0
    else (if key(rows[0]) == Some(url) then 1 else 0) + Count(rows[1..], key, url)
  }

  lemma {:induction false} CountAppend<T>(a: seq<T>, b: seq<T>, key: T -> Option<string>, url: string)
    ensures Count(a + b, key, url) == Count(a, key, url) + Count(b, key, url)
  {
    if a == [] {
      assert a + b == b;
    } else {
      assert (a + b)[1..] == a[1..] + b;
      CountAppend(a[1..], b, key, url);
    }
  }

  /** A lookup fails exactly when no row carries the key. */
  lemma {:induction false} CountZeroIffAbsent<T>(rows: seq<T>, key: T -> Option<string>, url: string)
    ensures Count(rows, key, url) == 0 <==> IndexOf(rows, key, url).None?
  {
    if rows != [] {
      CountZeroIffAbsent(rows[1..], key, url);
    }
  }

  /**
   * Removing the row a lookup found takes exactly one row with that key away
   * and leaves the number of rows with any other key as it was.
   */
  lemma CountRemoveFound<T>(rows: seq<T>, key: T -> Option<string>, url: string, other: string)
    requires IndexOf(rows, key, url).Some?
    ensures var i := IndexOf(rows, key, url).value;
      Count(rows[..i] + rows[i + 1..], key, other)
        == Count(rows, key, other) - (if other == url then 1 else 0)
  {
    var i := IndexOf(rows, key, url).value;
    assert rows == rows[..i] + [rows[i]] + rows[i + 1..];
    CountAppend(rows[..i] + [rows[i]], rows[i + 1..], key, other);
    CountAppend(rows[..i], [rows[i]], key, other);
    CountAppend(rows[..i], rows[i + 1..], key, other);
  }

  /** A row appended under a key no earlier row carries is the one a lookup finds. */
  lemma {:induction false} IndexOfAppendFresh<T>(rows: seq<T>, x: T, key: T -> Option<string>, url: string)
    requires IndexOf(rows, key, url).None?
    requires key(x) == Some(url)
    ensures IndexOf(rows + [x], key, url) == Some(|rows|)
  {
    if rows == [] {
      assert rows + [x] == [x];
    } else {
      assert (rows + [x])[1..] == rows[1..] + [x];
      IndexOfAppendFresh(rows[1..], x, key, url);
    }
  }
}
