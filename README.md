# Plume ActivityPub inbox, modelled in Dafny

This project models the server-to-server inbox of Plume, a federated blogging
platform. The inbox follows section 7 of the W3C ActivityPub Recommendation
and the ActivityStreams 2.0 Vocabulary. The source is
`src/activity_pub/inbox.rs`.

`save` takes one untyped inbound activity and routes it on its `type`. For
`Create` and `Undo` it also routes on the nested object's `type`. The routes
lead to five handlers:
- `new_article` (Create/Article) inserts a post;
- `new_comment` (Create/Note) inserts a comment;
- `follow` resolves both actors and calls `accept_follow`, which does nothing;
- `like` inserts a like;
- `unlike` (Undo/Like) deletes a like.

An outer or nested `type` that names no handler fails with one of the
inbox's three errors: `NoType`, `InvalidType` or `CantUndo`. A Create or
Undo whose nested `type` is missing panics, and so does a Create whose
nested Article or Note does not decode. An envelope that does not
deserialise fails on deserialisation.

Files:
- `wrappers.dfy`: `Option` and `Result`.
- `activity_streams.dfy`: the decoded message. `Activity` holds the activity's
  own properties, its `actor` and its `object`. A `Value` is a bare IRI, an
  embedded object or anything else.
- `models.dfy`: the rows of the users, blogs, posts, comments and likes
  tables. It also has the `find_by_ap_url` query: the first row whose `ap_url`
  matches, with lemmas about counting rows by `ap_url`.
- `database.dfy`: the `Tables` value (the store at one moment) and the `Store`
  class. The class has one field per table and one id sequence per table the
  inbox inserts into. Its methods perform the inserts and the delete in place.
- `inbox.dfy`: the `InboxError` enum and the routing decision `Dispatch`. It
  has one pure function per handler giving the row that handler writes, or why
  it stops. `Receive` is the whole delivery as a function. The handler methods
  `NewArticle`, `NewComment`, `Like`, `Unlike` and `Save` change a `Store`.
  `Follow` and `AcceptFollow` only read it. All of them are proved against
  those functions.
- `inbox_properties.dfy`: properties that span several deliveries.

## How failures are modelled

A delivery ends `Done` or `Failed(fault)`. A fault is one of:
- `Rejected(e)`: one of the inbox's own errors.
- `Decode`: a `?` on `serde_json::from_value`, `actor_object` or `object_object`.
- `Property`: a `?` on `url_string` or `id_string`.
- `Panic`: a panicking `unwrap`.

Every `unwrap` is modelled as a failure outcome, not as a precondition. The
source evaluates every one of them before the handler's insert or delete.
`User::from_url` and `Blog::from_url` are modelled as pure lookups, so a
failed delivery leaves the store unchanged. `Receive` proves this for every
outcome. Each `unwrap` maps as follows:

| source | when it fails | model |
|---|---|---|
| inbox.rs:37-38 `name_string`, `content_string` | article lacks `name` or `content` | `PostFor` gives `Panic` |
| inbox.rs:47 `in_reply_to` / `as_str` | note has no string `inReplyTo` | `CommentFor` gives `Panic` |
| inbox.rs:50-51 `content_string`, `summary_string` | note lacks `content` or `summary` | `CommentFor` gives `Panic` |
| inbox.rs:56 `Post::find_by_ap_url` | neither a comment nor a post has the reply URL | `CommentFor` gives `Panic` |
| inbox.rs:57 `User::from_url` | no user at the author URL | `CommentFor` gives `Panic` |
| inbox.rs:64 `as_str`, `User::from_url` | Follow `actor` is not a string, or no user has it | `FollowFor` gives `Panic` |
| inbox.rs:65, 68 `as_str`, `Blog::from_url` | Follow `object` is not a string, or neither a user nor a blog has it | `FollowFor` gives `Panic` |
| inbox.rs:76-77 `as_str` | Like `actor` or `object` is not a string | `LikeFor` gives `Panic` |
| inbox.rs:79-80 `post.unwrap`, `liker.unwrap` | no post, or no user, at those URLs | `LikeFor` gives `Panic` |
| inbox.rs:87 `Like::find_by_ap_url` | no like carries the undone Like's `id` | `UnlikeFor` gives `Panic` |
| inbox.rs:98, 108 `object["type"]` | nested object has no string `type` | `Dispatch` gives `Panic` |
| inbox.rs:99-100 `object_object` | nested Article or Note does not decode | `Dispatch` gives `Panic` |

## Behaviour worth noting

- The inbox's own errors are `NoType`, `InvalidType` and `CantUndo`. Every
  other failure is either a `?` on a decoding or property accessor, or a
  panicking `unwrap`. That covers a missing title, body, author, thread
  target, liker, liked post, follow end or stored like.
- `like` does not check for an existing row with the same `ap_url`. With
  `Like::insert` modelled as an append, a repeated Like stores a second row, and a second Undo of it then
  succeeds by deleting that row (`UndoRepeat`). A repeated Undo fails only
  when one row carried the `id`.
- `accept_follow` has an empty body, so a Follow that resolves both ends
  stores nothing.

## Model

| member | source | states |
|---|---|---|
| Models.IndexOf | src/activity_pub/inbox.rs:87 | `find_by_ap_url` finds the first row whose `ap_url` is the URL, or reports that no row has it |
| Models.FindByApUrl | src/activity_pub/inbox.rs:48 | a lookup returns a row of the table carrying the URL, and returns nothing exactly when no row carries it |
| Models.CountRemoveFound | src/activity_pub/inbox.rs:87-88 | deleting the row a lookup found removes one row with that `ap_url` and none with any other |
| Database.Store.InsertPost | src/activity_pub/inbox.rs:34-42 | `Post::insert` appends the post under the next id. A post with that `ap_url` can then be found, and when no earlier post had that `ap_url`, the lookup returns the new post |
| Database.Store.InsertComment | src/activity_pub/inbox.rs:49-59 | `Comment::insert` appends the comment under the next id; no other table changes |
| Database.Store.InsertLike | src/activity_pub/inbox.rs:78-82 | `Like::insert` appends the like under the next id, raising the count of likes with its `ap_url` by one |
| Database.Store.DeleteLike | src/activity_pub/inbox.rs:88 | `like.delete` removes exactly that row; no other table changes |
| Inbox.Dispatch | src/activity_pub/inbox.rs:92-118 | `NoType` exactly when `type` is absent or not a string. `InvalidType` exactly for an outer type outside Create/Follow/Like/Undo, or a Create whose nested type is neither Article nor Note. `CantUndo` exactly for an Undo whose nested type is not Like. Each handler is chosen exactly under its (outer, nested) pair, with the value it is given. The remaining failures: a decoding error for an undecodable envelope or a Note whose actor does not decode as a `Person`. A property error for that actor without `id`. A panic for a Create or Undo whose nested `type` is missing, or whose nested Article or Note does not decode |
| Inbox.PostFor | src/activity_pub/inbox.rs:33-44 | succeeds exactly when `name`, `content` and `url` are present. The post carries them with `blog_id` 0, an empty slug, published and licence "CC-0". A missing `name` or `content` panics; a missing `url` alone is a property error |
| Inbox.CommentFor | src/activity_pub/inbox.rs:46-61 | if a comment's `ap_url` is the `inReplyTo` URL, the new comment answers it and takes its `post_id`. Otherwise it answers no comment and joins the post at that URL. The author is the user at the actor URL, `ap_url` is the note's `id`, `sensitive` is false. Every failure is a panic |
| Inbox.FollowFor | src/activity_pub/inbox.rs:63-73 | `from` is the user at the actor IRI. The target is the user at the object IRI, and only when there is none, the blog there. It fails, by panic, exactly when one of these is missing |
| Inbox.LikeFor | src/activity_pub/inbox.rs:75-84 | the like joins the post at the object IRI and the user at the actor IRI, with `ap_url` the activity's own `id`. A missing `id` alone is a property error; anything else missing panics |
| Inbox.UnlikeFor | src/activity_pub/inbox.rs:86-90 | succeeds exactly when the nested Like decodes, has an `id` and some like carries it, and then picks the first such like. It panics exactly when none exists, and otherwise fails on decoding or a missing `id` |
| Inbox.Effect | src/activity_pub/inbox.rs:33-90 | with `from_url` as a lookup: a failed handler leaves the store as it was; no handler touches users or blogs; a Follow never changes the store |
| Inbox.Receive | src/activity_pub/inbox.rs:92-118 | an unroutable delivery fails with the routing error and changes nothing. With `from_url` as a lookup, every failure leaves the store unchanged and users and blogs are never written |
| Inbox.NewArticle | src/activity_pub/inbox.rs:33-44 | inserts the post `PostFor` gives and nothing else, or changes nothing and reports its fault |
| Inbox.NewComment | src/activity_pub/inbox.rs:46-61 | inserts the comment `CommentFor` gives and nothing else, or changes nothing and reports its fault |
| Inbox.Follow | src/activity_pub/inbox.rs:63-73 | succeeds exactly when both ends resolve, fails only by panic, and modifies nothing |
| Inbox.AcceptFollow | src/activity_pub/inbox.rs:120-137 | changes nothing |
| Inbox.Like | src/activity_pub/inbox.rs:75-84 | inserts the like `LikeFor` gives and nothing else, or changes nothing and reports its fault |
| Inbox.Unlike | src/activity_pub/inbox.rs:86-90 | deletes the row `UnlikeFor` finds and nothing else, or changes nothing and reports its fault |
| Inbox.Save | src/activity_pub/inbox.rs:92-118 | its outcome and the new store are those of `Receive` on the old store |
| InboxProperties.ArticleApplied | src/activity_pub/inbox.rs:96-99 | a Create whose decodable nested Article has `name`, `content` and `url` succeeds and inserts exactly its post |
| InboxProperties.NoteApplied | src/activity_pub/inbox.rs:96-100 | a Create whose decodable nested Note has `inReplyTo`, `content` and `summary` succeeds and inserts its comment. This holds when the reply URL names a stored comment or post, and the embedded actor's `id` names a local user |
| InboxProperties.FollowApplied | src/activity_pub/inbox.rs:63-73 | a Follow from a local user's IRI to a local user's or blog's IRI succeeds and stores nothing |
| InboxProperties.LikeApplied | src/activity_pub/inbox.rs:75-84 | a Like with an `id`, whose actor IRI is a local user and whose object IRI is a local post, succeeds and stores the like for them |
| InboxProperties.UndoApplied | src/activity_pub/inbox.rs:106-112 | an Undo of a decodable Like whose `id` some stored like carries succeeds |
| InboxProperties.LikeRegistersOne | src/activity_pub/inbox.rs:75-84 | a successful Like appends exactly one like keyed by the activity's `id`, for the resolved post and user; the count of likes with any other `ap_url` is unchanged |
| InboxProperties.UnlikeDeletesOne | src/activity_pub/inbox.rs:86-90 | a successful Undo deletes exactly one like with the undone `id` and none with another `ap_url` |
| InboxProperties.UndoRepeat | src/activity_pub/inbox.rs:86-90 | repeating a successful Undo succeeds exactly when two or more likes carried that `id`. If only one did, the repeat panics and changes nothing |
| InboxProperties.LikeThenUndoTwice | src/activity_pub/inbox.rs:75-112 | from a local user on a local post, with no stored like keyed X: Like X registers one row; Undo(Like X) restores the likes table; a third, identical Undo fails and deletes nothing |
| InboxProperties.ArticleFoundByUrl | src/activity_pub/inbox.rs:33-44 | after an Article under a fresh URL, exactly one post is added and the lookup at that URL finds it with the article's fields |
| InboxProperties.ReplyToReplyStaysOnPost | src/activity_pub/inbox.rs:46-61 | a note replying to a post joins it. A second note replying to the first joins the same post and answers the first |
| InboxProperties.FollowResolutionOrderIrrelevant | src/activity_pub/inbox.rs:63-73 | when no URL is both a user's and a blog's, trying users first resolves the target as trying blogs first would |

## Left out

- JSON deserialisation (`serde_json::from_value`, `object_object`, `actor_object` and the property accessors) is foreign code. The model starts from decoded fields. Whether a JSON object deserialises into the struct the inbox asks for is the boolean `typed`. A property that is absent and one that is not a string are both `None`.
- Diesel and `PgConnection` are replaced by sequences of rows. The bodies of `find_by_ap_url`, `User::from_url` and `Blog::from_url` are not part of this model. They are modelled as local lookups returning the first row whose `ap_url` matches. Any remote fetching those functions may do is not modelled.
- A remote actor that `User::from_url` or `Blog::from_url` fetches and stores is not modelled. The users and blogs tables never change here, even in a delivery that later fails, such as a `like` whose `User::from_url` runs before `post.unwrap()` panics.
- Database.Store.DeleteLike: removes the row at the position the lookup returned. It does not model deletion by primary key, and the model does not prove that row ids are unique.
- Row ids are unbounded integers taken from one sequence per table; 32-bit overflow of the `i32` ids is not modelled.
- `received` has no body and is left out.
- The `Signer` bound, HTTP signatures and the commented-out Follow insertion and `Accept` broadcast in `accept_follow` are left out: the code does not perform them.
- A panic is modelled as the outcome `Failed(Panic)`. Unwinding is not modelled.
- Concurrent deliveries are left out; the model processes one delivery at a time.
