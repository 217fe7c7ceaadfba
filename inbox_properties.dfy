/**
 * Properties of the inbox that relate several deliveries, or a delivery and
 * a later lookup: likes and their undo, reply threads, articles found again
 * by their URL, and the order in which a Follow's target is resolved.
 */
module InboxProperties {
  import opened Wrappers
  import opened ActivityStreams
  import opened Models
  import opened Database
  import opened Inbox

  /** A Create whose nested Article decodes and carries `name`, `content` and `url` inserts its post. */
  lemma ArticleApplied(t: Tables, act: Activity)
    requires act.props.kind == Some("Create") && act.typed
    requires act.obj.Embedded? && act.obj.typed && act.obj.props.kind == Some("Article")
    requires act.obj.props.name.Some? && act.obj.props.content.Some? && act.obj.props.url.Some?
    ensures var a := act.obj.props;
      Receive(t, act)
        == Step(Done, t.WithPost(NewPost(0, "", a.name.value, a.content.value, true, "CC-0", a.url.value)))
  {
  }

  /**
   * A Create whose nested Note decodes, answers a stored comment or post and
   * carries `content` and `summary`, sent by an embedded actor whose `id` is
   * a local user, inserts its comment.
   */
  lemma NoteApplied(t: Tables, act: Activity)
    requires act.props.kind == Some("Create") && act.typed
    requires act.obj.Embedded? && act.obj.typed && act.obj.props.kind == Some("Note")
    requires act.actor.Embedded? && act.actor.typed && act.actor.props.id.Some?
    requires act.obj.props.inReplyTo.Some? && act.obj.props.content.Some? && act.obj.props.summary.Some?
    requires t.CommentByApUrl(act.obj.props.inReplyTo.value).Some?
             || t.PostByApUrl(act.obj.props.inReplyTo.value).Some?
    requires t.UserFromUrl(act.actor.props.id.value).Some?
    ensures CommentFor(t, act.obj.props, act.actor.props.id.value).Success?
    ensures Receive(t, act)
      == Step(Done, t.WithComment(CommentFor(t, act.obj.props, act.actor.props.id.value).value))
  {
  }

  /** A Follow from a local user to a local user or blog is accepted and stores nothing. */
  lemma FollowApplied(t: Tables, act: Activity)
    requires act.props.kind == Some("Follow") && act.typed
    requires act.actor.Link? && act.obj.Link?
    requires t.UserFromUrl(act.actor.iri).Some?
    requires t.UserFromUrl(act.obj.iri).Some? || t.BlogFromUrl(act.obj.iri).Some?
    ensures Receive(t, act) == Step(Done, t)
  {
  }

  /** A Like with an `id`, from a local user, on a local post, stores that like. */
  lemma LikeApplied(t: Tables, act: Activity)
    requires act.props.kind == Some("Like") && act.typed && act.props.id.Some?
    requires act.actor.Link? && act.obj.Link?
    requires t.PostByApUrl(act.obj.iri).Some? && t.UserFromUrl(act.actor.iri).Some?
    ensures Receive(t, act) == Step(Done, t.WithLike(NewLike(
      t.PostByApUrl(act.obj.iri).value.id, t.UserFromUrl(act.actor.iri).value.id, act.props.id.value)))
  {
  }

  /** An Undo of a decodable Like whose `id` some stored like carries deletes a like. */
  lemma UndoApplied(t: Tables, act: Activity)
    requires act.props.kind == Some("Undo") && act.typed
    requires act.obj.Embedded? && act.obj.typed && act.obj.props.kind == Some("Like")
    requires act.obj.props.id.Some?
    requires exists j :: 0 <= j < |t.likes| && t.likes[j].fields.apUrl == act.obj.props.id.value
    ensures Receive(t, act).outcome == Done
  {
  }

  /** A Like delivery that succeeds adds exactly one row, keyed by the activity's own `id`. */
  lemma LikeRegistersOne(t: Tables, act: Activity, other: string)
    requires act.props.kind == Some("Like")
    requires Receive(t, act).outcome == Done
    ensures act.props.id.Some? && AsStr(act.obj).Some? && AsStr(act.actor).Some?
    ensures t.PostByApUrl(AsStr(act.obj).value).Some? && t.UserFromUrl(AsStr(act.actor).value).Some?
    ensures Receive(t, act).after == t.WithLike(NewLike(
      t.PostByApUrl(AsStr(act.obj).value).value.id,
      t.UserFromUrl(AsStr(act.actor).value).value.id,
      act.props.id.value))
    ensures Receive(t, act).after.LikesWith(other)
      == t.LikesWith(other) + (if other == act.props.id.value then 1 else 0)
  {
    var l := LikeFor(t, act).value;
    CountAppend(t.likes, [Models.Like(t.nextLikeId, l)], LikeKey, other);
  }

  /**
   * An Undo delivery that succeeds deletes exactly one like whose `ap_url` is
   * the undone Like's `id`, and no like with another `ap_url`.
   */
  lemma UnlikeDeletesOne(t: Tables, act: Activity, other: string)
    requires act.props.kind == Some("Undo")
    requires Receive(t, act).outcome == Done
    ensures UndoneId(act).Some?
    ensures exists i :: (0 <= i < |t.likes| && t.likes[i].fields.apUrl == UndoneId(act).value
                         && Receive(t, act).after == t.WithoutLike(i))
    ensures Receive(t, act).after.LikesWith(other)
      == t.LikesWith(other) - (if other == UndoneId(act).value then 1 else 0)
  {
    var i := UnlikeFor(t, act).value;
    assert t.LikeIndex(UndoneId(act).value) == Some(i);
    CountRemoveFound(t.likes, LikeKey, UndoneId(act).value, other);
  }

  /**
   * Repeating a successful Undo succeeds again exactly when a second like
   * with the same `ap_url` was stored; when the undone like was the only one,
   * the repeat aborts on the failed lookup and deletes nothing.
   */
  lemma UndoRepeat(t: Tables, act: Activity)
    requires act.props.kind == Some("Undo")
    requires Receive(t, act).outcome == Done
    ensures UndoneId(act).Some?
    ensures var s := Receive(t, act);
      Receive(s.after, act).outcome == Done <==> t.LikesWith(UndoneId(act).value) >= 2
    ensures var s := Receive(t, act);
      t.LikesWith(UndoneId(act).value) == 1 ==> Receive(s.after, act) == Step(Failed(Panic), s.after)
  {
    var x := UndoneId(act).value;
    var s := Receive(t, act);
    UnlikeDeletesOne(t, act, x);
    CountZeroIffAbsent(s.after.likes, LikeKey, x);
    assert Dispatch(act).Success? && Dispatch(act).value == UndoLike(act);
  }

  /**
   * A Like from a local user on a local post, under an `id` no stored like
   * carries, followed by an Undo of that Like: the like is registered once,
   * the Undo restores the likes table, and a third delivery of the same Undo
   * fails without deleting anything.
   */
  lemma LikeThenUndoTwice(t: Tables, like: Activity, undo: Activity)
    requires like.props.kind == Some("Like") && like.typed && like.props.id.Some?
    requires like.actor.Link? && like.obj.Link?
    requires t.PostByApUrl(like.obj.iri).Some? && t.UserFromUrl(like.actor.iri).Some?
    requires t.LikesWith(like.props.id.value) == 0
    requires undo.props.kind == Some("Undo") && undo.typed
    requires undo.obj.Embedded? && undo.obj.typed
    requires undo.obj.props.kind == Some("Like") && undo.obj.props.id == like.props.id
    ensures var s1 := Receive(t, like);
      var s2 := Receive(s1.after, undo);
      var s3 := Receive(s2.after, undo);
      s1.after.LikesWith(like.props.id.value) == 1
      && s2.outcome == Done && s2.after.likes == t.likes
      && s3 == Step(Failed(Panic), s2.after)
  {
    var x := like.props.id.value;
    var s1 := Receive(t, like);
    LikeApplied(t, like);
    LikeRegistersOne(t, like, x);
    CountZeroIffAbsent(t.likes, LikeKey, x);
    var row := Models.Like(t.nextLikeId, LikeFor(t, like).value);
    IndexOfAppendFresh(t.likes, row, LikeKey, x);
    assert s1.after.likes == t.likes + [row];
    assert Dispatch(undo) == Success(UndoLike(undo));
    assert UnlikeFor(s1.after, undo) == Success(|t.likes|);
    assert (t.likes + [row])[..|t.likes|] + (t.likes + [row])[|t.likes| + 1..] == t.likes;
    UndoRepeat(s1.after, undo);
  }

  /**
   * An Article delivered under a URL no stored post carries is afterwards
   * the post found at that URL, with the fields the inbox fixes.
   */
  lemma ArticleFoundByUrl(t: Tables, act: Activity)
    requires act.props.kind == Some("Create") && TypeOf(act.obj) == Some("Article")
    requires Receive(t, act).outcome == Done
    requires act.obj.props.url.Some? && t.PostByApUrl(act.obj.props.url.value).None?
    ensures var a := act.obj.props;
      a.name.Some? && a.content.Some?
      && Receive(t, act).after.posts == t.posts + [Post(t.nextPostId, NewPost(0, "", a.name.value, a.content.value, true, "CC-0", a.url.value))]
      && Receive(t, act).after.PostByApUrl(a.url.value)
         == Some(Post(t.nextPostId, NewPost(0, "", a.name.value, a.content.value, true, "CC-0", a.url.value)))
  {
    var a := act.obj.props;
    var p := Post(t.nextPostId, PostFor(a).value);
    IndexOfAppendFresh(t.posts, p, PostKey, a.url.value);
  }

  /**
   * A reply inherits its thread: a note answering a top-level post joins
   * that post, and a second note answering the first (by the first's `id`,
   * which no earlier comment carries) joins the same post and points at the
   * first.
   */
  lemma ReplyToReplyStaysOnPost(t: Tables, first: Activity, second: Activity)
    requires first.props.kind == Some("Create") && TypeOf(first.obj) == Some("Note")
    requires second.props.kind == Some("Create") && TypeOf(second.obj) == Some("Note")
    requires first.obj.props.inReplyTo.Some? && first.obj.props.id.Some?
    requires t.CommentByApUrl(first.obj.props.inReplyTo.value).None?
    requires t.CommentByApUrl(first.obj.props.id.value).None?
    requires second.obj.props.inReplyTo == first.obj.props.id
    requires Receive(t, first).outcome == Done
    requires Receive(Receive(t, first).after, second).outcome == Done
    ensures t.PostByApUrl(first.obj.props.inReplyTo.value).Some?
    ensures var s1 := Receive(t, first);
      var s2 := Receive(s1.after, second);
      var post := t.PostByApUrl(first.obj.props.inReplyTo.value).value;
      |s1.after.comments| == |t.comments| + 1 && |s2.after.comments| == |t.comments| + 2
      && s1.after.comments[|t.comments|].fields.postId == post.id
      && s1.after.comments[|t.comments|].fields.inResponseToId.None?
      && s2.after.comments[|t.comments| + 1].fields.postId == post.id
      && s2.after.comments[|t.comments| + 1].fields.inResponseToId == Some(t.nextCommentId)
  {
    var s1 := Receive(t, first);
    var r1 := Dispatch(first).value;
    var c1 := CommentFor(t, r1.note, r1.actorId).value;
    assert s1.after == t.WithComment(c1);
    var row := Comment(t.nextCommentId, c1);
    IndexOfAppendFresh(t.comments, row, CommentKey, first.obj.props.id.value);
    assert s1.after.CommentByApUrl(first.obj.props.id.value) == Some(row);
  }

  /** Every URL names at most one kind of local actor. */
  ghost predicate DisjointActors(t: Tables) {
    forall u, b :: u in t.users && b in t.blogs ==> u.apUrl != b.apUrl
  }

  /** A reference resolution of a Follow's target that tries blogs first. */
  function BlogFirstTarget(t: Tables, url: string): Option<FollowTarget> {
    match t.BlogFromUrl(url)
    case Some(b) => Some(BlogTarget(b.id))
    case None =>
      match t.UserFromUrl(url)
      case Some(u) => Some(UserTarget(u.id))
      case None => None
  }

  /**
   * When users and blogs never share a URL, trying users first (as `follow`
   * does) resolves the target exactly as trying blogs first would.
   */
  lemma FollowResolutionOrderIrrelevant(t: Tables, follow: Activity)
    requires DisjointActors(t)
    requires FollowFor(t, follow).Success?
    ensures BlogFirstTarget(t, AsStr(follow.obj).value) == Some(FollowFor(t, follow).value.target)
  {
    var to := AsStr(follow.obj).value;
    match t.UserFromUrl(to)
    case Some(u) =>
      assert u in t.users && u.apUrl == to;
    case None =>
  }
}
