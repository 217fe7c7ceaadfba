/**
 * The ActivityPub server-to-server inbox (section 7 of the W3C ActivityPub
 * Recommendation): one untyped activity is routed on its `type`, and on the
 * nested object's `type` for Create and Undo, to one of five handlers, each
 * of which resolves remote URLs against the store and then inserts or
 * deletes at most one row.
 *
 * Every `unwrap` of the handlers is the outcome Failed(Panic) and every `?`
 * is Failed(Decode) or Failed(Property); in each case the store is left as it
 * was, because every one of them is evaluated before the handler's insert or
 * delete.
 */
module Inbox {
  import opened Wrappers
  import opened ActivityStreams
  import Models
  import opened Database

  /** The inbox's own errors. */
  datatype InboxError = NoType | InvalidType | CantUndo

  /** Why a delivery was not applied. */
  datatype Fault =
      // `Err(InboxError::…)?`
    | Rejected(error: InboxError)
      // a `?` on `serde_json::from_value`, `actor_object` or `object_object`
    | Decode
      // a `?` on a property accessor (`url_string`, `id_string`)
    | Property
      // an `unwrap` on None or Err: the delivery is aborted
    | Panic

  datatype Outcome = Done | Failed(fault: Fault)

  /** What a delivery returns and the store it leaves behind. */
  datatype Step = Step(outcome: Outcome, after: Tables)

  /** The handler `save` picks, with the typed value it hands over. */
  datatype Route =
    | CreateArticle(article: ObjectProps)
    | CreateNote(note: ObjectProps, actorId: string)
    | FollowActor(follow: Activity)
    | LikePost(like: Activity)
    | UndoLike(undo: Activity)

  /** The local actor a Follow resolves its `object` to. */
  datatype FollowTarget = UserTarget(id: int) | BlogTarget(id: int)

  /** The numeric ids `follow` hands to `accept_follow`. */
  datatype FollowRequest = FollowRequest(fromId: int, target: FollowTarget)

  /** The outer activity types the inbox accepts. */
  const Handled: set<string> := {"Create", "Follow", "Like", "Undo"}

  /** `o?` or `o.unwrap()`: the value, or the given fault. */
  function OrElse<T>(o: Option<T>, fault: Fault): Result<T, Fault> {
    match o
    case Some(v) => Success(v)
    case None => Failure(fault)
  }

  /** `save`'s routing decision. */
  function Dispatch(act: Activity): (r: Result<Route, Fault>)
    ensures r == Failure(Rejected(NoType)) <==> act.props.kind.None?
    ensures r == Failure(Rejected(InvalidType)) <==>
      (act.props.kind.Some? && act.props.kind.value !in Handled)
      || (act.props.kind == Some("Create") && act.typed && TypeOf(act.obj).Some?
          && TypeOf(act.obj).value != "Article" && TypeOf(act.obj).value != "Note")
    ensures r == Failure(Rejected(CantUndo)) <==>
      act.props.kind == Some("Undo") && act.typed && TypeOf(act.obj).Some?
      && TypeOf(act.obj).value != "Like"
    ensures r.Success? && r.value.CreateArticle? <==>
      act.props.kind == Some("Create") && act.typed && TypeOf(act.obj) == Some("Article")
      && AsObject(act.obj).Some?
    ensures r.Success? && r.value.CreateArticle? ==> r.value.article == act.obj.props
    ensures r.Success? && r.value.CreateNote? <==>
      act.props.kind == Some("Create") && act.typed && TypeOf(act.obj) == Some("Note")
      && AsObject(act.obj).Some? && AsObject(act.actor).Some? && act.actor.props.id.Some?
    ensures r.Success? && r.value.CreateNote? ==>
      r.value.note == act.obj.props && r.value.actorId == act.actor.props.id.value
    ensures r.Success? && r.value.FollowActor? <==> act.props.kind == Some("Follow") && act.typed
    ensures r.Success? && r.value.FollowActor? ==> r.value.follow == act
    ensures r.Success? && r.value.LikePost? <==> act.props.kind == Some("Like") && act.typed
    ensures r.Success? && r.value.LikePost? ==> r.value.like == act
    ensures r.Success? && r.value.UndoLike? <==>
      act.props.kind == Some("Undo") && act.typed && TypeOf(act.obj) == Some("Like")
    ensures r.Success? && r.value.UndoLike? ==> r.value.undo == act
    ensures r == Failure(Decode) <==>
      (act.props.kind.Some? && act.props.kind.value in Handled && !act.typed)
      || (act.props.kind == Some("Create") && act.typed && TypeOf(act.obj) == Some("Note")
          && AsObject(act.obj).Some? && AsObject(act.actor).None?)
    ensures r == Failure(Property) <==>
      act.props.kind == Some("Create") && act.typed && TypeOf(act.obj) == Some("Note")
      && AsObject(act.obj).Some? && AsObject(act.actor).Some? && AsObject(act.actor).value.id.None?
    ensures r == Failure(Panic) <==>
      (act.props.kind == Some("Create") || act.props.kind == Some("Undo")) && act.typed
      && (TypeOf(act.obj).None?
          || (act.props.kind == Some("Create") && AsObject(act.obj).None?
              && (TypeOf(act.obj) == Some("Article") || TypeOf(act.obj) == Some("Note"))))
  {
    match act.props.kind
    case None => Failure(Rejected(NoType))
    case Some(t) =>
      if t == "Create" then
        if !act.typed then Failure(Decode)
        else
          var nested :- OrElse(TypeOf(act.obj), Panic);
          if nested == "Article" then
            var article :- OrElse(AsObject(act.obj), Panic);
            Success(CreateArticle(article))
          else if nested == "Note" then
            var note :- OrElse(AsObject(act.obj), Panic);
            var person :- OrElse(AsObject(act.actor), Decode);
            var actorId :- OrElse(person.id, Property);
            Success(CreateNote(note, actorId))
          else
            Failure(Rejected(InvalidType))
      else if t == "Follow" then
        if act.typed then Success(FollowActor(act)) else Failure(Decode)
      else if t == "Like" then
        if act.typed then Success(LikePost(act)) else Failure(Decode)
      else if t == "Undo" then
        if !act.typed then Failure(Decode)
        else
          var nested :- OrElse(TypeOf(act.obj), Panic);
          if nested == "Like" then Success(UndoLike(act)) else Failure(Rejected(CantUndo))
      else
        Failure(Rejected(InvalidType))
  }

  /** The post `new_article` inserts. */
  function PostFor(article: ObjectProps): (r: Result<Models.NewPost, Fault>)
    ensures r.Success? <==> article.name.Some? && article.content.Some? && article.url.Some?
    ensures r.Success? ==>
      r.value.title == article.name.value && r.value.content == article.content.value
      && r.value.apUrl == article.url.value
    ensures r.Success? ==>
      r.value.blogId == 0 && r.value.slug == "" && r.value.published && r.value.license == "CC-0"
    ensures r.Failure? ==>
      r.error == if article.name.Some? && article.content.Some? then Property else Panic
  {
    var title :- OrElse(article.name, Panic);
    var content :- OrElse(article.content, Panic);
    var apUrl :- OrElse(article.url, Property);
    Success(Models.NewPost(0, "", title, content, true, "CC-0", apUrl))
  }

  /** The comment `new_comment` inserts for `note`, written by the actor at `actorId`. */
  function CommentFor(t: Tables, note: ObjectProps, actorId: string): (r: Result<Models.NewComment, Fault>)
    ensures r.Failure? ==> r.error == Panic
    ensures r.Success? <==>
      note.inReplyTo.Some? && note.content.Some? && note.summary.Some?
      && (t.CommentByApUrl(note.inReplyTo.value).Some? || t.PostByApUrl(note.inReplyTo.value).Some?)
      && t.UserFromUrl(actorId).Some?
    ensures r.Success? ==>
      r.value.content == note.content.value && r.value.spoilerText == note.summary.value
      && r.value.apUrl == note.id && !r.value.sensitive
      && r.value.authorId == t.UserFromUrl(actorId).value.id
    ensures r.Success? ==>
      match t.CommentByApUrl(note.inReplyTo.value)
      case Some(parent) =>
        r.value.inResponseToId == Some(parent.id) && r.value.postId == parent.fields.postId
      case None =>
        r.value.inResponseToId.None? && r.value.postId == t.PostByApUrl(note.inReplyTo.value).value.id
  {
    var previousUrl :- OrElse(note.inReplyTo, Panic);
    var previous := t.CommentByApUrl(previousUrl);
    var content :- OrElse(note.content, Panic);
    var spoilerText :- OrElse(note.summary, Panic);
    var postId :- ThreadPost(t, previous, previousUrl);
    var author :- OrElse(t.UserFromUrl(actorId), Panic);
    Success(Models.NewComment(
      content, spoilerText, note.id,
      if previous.Some? then Some(previous.value.id) else None,
      postId, author.id, false))
  }

  /** The post a reply joins: its parent comment's post, else the post at `url`. */
  function ThreadPost(t: Tables, previous: Option<Models.Comment>, url: string): Result<int, Fault> {
    match previous
    case Some(c) => Success(c.fields.postId)
    case None =>
      var post :- OrElse(t.PostByApUrl(url), Panic);
      Success(post.id)
  }

  /** The ids `follow` hands to `accept_follow`. */
  function FollowFor(t: Tables, follow: Activity): (r: Result<FollowRequest, Fault>)
    ensures r.Failure? ==> r.error == Panic
    ensures r.Success? <==>
      AsStr(follow.actor).Some? && t.UserFromUrl(AsStr(follow.actor).value).Some?
      && AsStr(follow.obj).Some?
      && (t.UserFromUrl(AsStr(follow.obj).value).Some? || t.BlogFromUrl(AsStr(follow.obj).value).Some?)
    ensures r.Success? ==> r.value.fromId == t.UserFromUrl(AsStr(follow.actor).value).value.id
    ensures r.Success? ==>
      var to := AsStr(follow.obj).value;
      r.value.target == match t.UserFromUrl(to)
                        case Some(u) => UserTarget(u.id)
                        case None => BlogTarget(t.BlogFromUrl(to).value.id)
  {
    var fromUrl :- OrElse(AsStr(follow.actor), Panic);
    var from :- OrElse(t.UserFromUrl(fromUrl), Panic);
    var toUrl :- OrElse(AsStr(follow.obj), Panic);
    match t.UserFromUrl(toUrl)
    case Some(u) => Success(FollowRequest(from.id, UserTarget(u.id)))
    case None =>
      var blog :- OrElse(t.BlogFromUrl(toUrl), Panic);
      Success(FollowRequest(from.id, BlogTarget(blog.id)))
  }

  /** The like `like` inserts. */
  function LikeFor(t: Tables, like: Activity): (r: Result<Models.NewLike, Fault>)
    ensures r.Success? <==>
      AsStr(like.actor).Some? && AsStr(like.obj).Some?
      && t.PostByApUrl(AsStr(like.obj).value).Some? && t.UserFromUrl(AsStr(like.actor).value).Some?
      && like.props.id.Some?
    ensures r.Success? ==>
      r.value.postId == t.PostByApUrl(AsStr(like.obj).value).value.id
      && r.value.userId == t.UserFromUrl(AsStr(like.actor).value).value.id
      && r.value.apUrl == like.props.id.value
    ensures r.Failure? ==> r.error == Panic || r.error == Property
    ensures r == Failure(Property) <==>
      AsStr(like.actor).Some? && AsStr(like.obj).Some?
      && t.PostByApUrl(AsStr(like.obj).value).Some? && t.UserFromUrl(AsStr(like.actor).value).Some?
      && like.props.id.None?
  {
    var actorUrl :- OrElse(AsStr(like.actor), Panic);
    var liker := t.UserFromUrl(actorUrl);
    var postUrl :- OrElse(AsStr(like.obj), Panic);
    var post := t.PostByApUrl(postUrl);
    var p :- OrElse(post, Panic);
    var u :- OrElse(liker, Panic);
    var apUrl :- OrElse(like.props.id, Property);
    Success(Models.NewLike(p.id, u.id, apUrl))
  }

  /** The `id` of the Like that an Undo names, when it can be read. */
  function UndoneId(undo: Activity): Option<string> {
    match AsObject(undo.obj)
    case Some(liked) => liked.id
    case None => None
  }

  /** The position of the like row `unlike` deletes. */
  function UnlikeFor(t: Tables, undo: Activity): (r: Result<nat, Fault>)
    ensures r.Success? <==> UndoneId(undo).Some? && t.LikeIndex(UndoneId(undo).value).Some?
    ensures r.Failure? ==> r.error == Decode || r.error == Property || r.error == Panic
    ensures r == Failure(Decode) <==> AsObject(undo.obj).None?
    ensures r == Failure(Property) <==> AsObject(undo.obj).Some? && UndoneId(undo).None?
    ensures r == Failure(Panic) <==>
      UndoneId(undo).Some? && forall j :: 0 <= j < |t.likes| ==> t.likes[j].fields.apUrl != UndoneId(undo).value
    ensures r.Success? ==>
      UndoneId(undo).Some? && r.value < |t.likes| && t.likes[r.value].fields.apUrl == UndoneId(undo).value
      && forall j :: 0 <= j < r.value ==> t.likes[j].fields.apUrl != UndoneId(undo).value
  {
    var liked :- OrElse(AsObject(undo.obj), Decode);
    var id :- OrElse(liked.id, Property);
    var i :- OrElse(t.LikeIndex(id), Panic);
    Success(i)
  }

  /** What the chosen handler does to the store. */
  function Effect(t: Tables, route: Route): (s: Step)
    ensures s.outcome.Failed? ==> s.after == t
    ensures s.after.users == t.users && s.after.blogs == t.blogs
    ensures route.FollowActor? ==> s.after == t
  {
    match route
    case CreateArticle(article) =>
      (match PostFor(article)
       case Success(p) => Step(Done, t.WithPost(p))
       case Failure(e) => Step(Failed(e), t))
    case CreateNote(note, actorId) =>
      (match CommentFor(t, note, actorId)
       case Success(c) => Step(Done, t.WithComment(c))
       case Failure(e) => Step(Failed(e), t))
    case FollowActor(follow) =>
      (match FollowFor(t, follow)
       case Success(_) => Step(Done, t)
       case Failure(e) => Step(Failed(e), t))
    case LikePost(like) =>
      (match LikeFor(t, like)
       case Success(l) => Step(Done, t.WithLike(l))
       case Failure(e) => Step(Failed(e), t))
    case UndoLike(undo) =>
      (match UnlikeFor(t, undo)
       case Success(i) => Step(Done, t.WithoutLike(i))
       case Failure(e) => Step(Failed(e), t))
  }

  /** `save`: route one delivery and apply its handler. */
  function Receive(t: Tables, act: Activity): (s: Step)
    ensures Dispatch(act).Failure? ==> s == Step(Failed(Dispatch(act).error), t)
    ensures s.outcome.Failed? ==> s.after == t
    ensures s.after.users == t.users && s.after.blogs == t.blogs
    ensures act.props.kind == Some("Follow") ==> s.after == t
  {
    match Dispatch(act)
    case Failure(e) => Step(Failed(e), t)
    case Success(route) => Effect(t, route)
  }

  method NewArticle(db: Store, article: ObjectProps) returns (out: Outcome)
    modifies db
    ensures PostFor(article).Success? ==>
      out == Done && db.Snapshot() == old(db.Snapshot()).WithPost(PostFor(article).value)
    ensures PostFor(article).Failure? ==> out == Failed(PostFor(article).error) && unchanged(db)
  {
    var post := PostFor(article);
    if post.Failure? {
      return Failed(post.error);
    }
    var inserted := db.InsertPost(post.value);
    return Done;
  }

  method NewComment(db: Store, note: ObjectProps, actorId: string) returns (out: Outcome)
    modifies db
    ensures CommentFor(old(db.Snapshot()), note, actorId).Success? ==>
      out == Done
      && db.Snapshot() == old(db.Snapshot()).WithComment(CommentFor(old(db.Snapshot()), note, actorId).value)
    ensures CommentFor(old(db.Snapshot()), note, actorId).Failure? ==>
      out == Failed(CommentFor(old(db.Snapshot()), note, actorId).error) && unchanged(db)
  {
    var comment := CommentFor(db.Snapshot(), note, actorId);
    if comment.Failure? {
      return Failed(comment.error);
    }
    var inserted := db.InsertComment(comment.value);
    return Done;
  }

  /** `follow`: resolves both ends and hands their ids to `accept_follow`. */
  method Follow(db: Store, follow: Activity) returns (out: Outcome)
    ensures out == Done <==> FollowFor(db.Snapshot(), follow).Success?
    ensures out.Failed? ==> out.fault == Panic
  {
    var request := FollowFor(db.Snapshot(), follow);
    if request.Failure? {
      return Failed(request.error);
    }
    AcceptFollow(db, follow, request.value.fromId, request.value.target.id);
    return Done;
  }

  /** `accept_follow`: its body is empty, so it changes nothing. */
  method AcceptFollow(db: Store, follow: Activity, fromId: int, targetId: int)
    ensures unchanged(db)
  {
  }

  method Like(db: Store, like: Activity) returns (out: Outcome)
    modifies db
    ensures LikeFor(old(db.Snapshot()), like).Success? ==>
      out == Done && db.Snapshot() == old(db.Snapshot()).WithLike(LikeFor(old(db.Snapshot()), like).value)
    ensures LikeFor(old(db.Snapshot()), like).Failure? ==>
      out == Failed(LikeFor(old(db.Snapshot()), like).error) && unchanged(db)
  {
    var row := LikeFor(db.Snapshot(), like);
    if row.Failure? {
      return Failed(row.error);
    }
    var inserted := db.InsertLike(row.value);
    return Done;
  }

  method Unlike(db: Store, undo: Activity) returns (out: Outcome)
    modifies db
    ensures UnlikeFor(old(db.Snapshot()), undo).Success? ==>
      out == Done && db.Snapshot() == old(db.Snapshot()).WithoutLike(UnlikeFor(old(db.Snapshot()), undo).value)
    ensures UnlikeFor(old(db.Snapshot()), undo).Failure? ==>
      out == Failed(UnlikeFor(old(db.Snapshot()), undo).error) && unchanged(db)
  {
    var found := UnlikeFor(db.Snapshot(), undo);
    if found.Failure? {
      return Failed(found.error);
    }
    db.DeleteLike(found.value);
    return Done;
  }

  /** `save`. */
  method Save(db: Store, act: Activity) returns (out: Outcome)
    modifies db
    ensures Step(out, db.Snapshot()) == Receive(old(db.Snapshot()), act)
  {
    match Dispatch(act)
    case Failure(e) => out := Failed(e);
    case Success(CreateArticle(article)) => out := NewArticle(db, article);
    case Success(CreateNote(note, actorId)) => out := NewComment(db, note, actorId);
    case Success(FollowActor(follow)) => out := Follow(db, follow);
    case Success(LikePost(like)) => out := Like(db, like);
    case Success(UndoLike(undo)) => out := Unlike(db, undo);
  }
}
