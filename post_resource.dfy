/** The post resources: `PostDetail` at /users/<user_id>/posts/<post_id>
    and `PostList` at /users/<user_id>/posts. A post is fetched by its own id:
    no handler compares it with the route's user or with its stored author. */
module PostResource {
  import opened Values
  import opened Exceptions
  import opened Http
  import opened Models
  import opened Paging
  import opened Decorators
  import opened Session
  import Permissions

  const DetailGetChain: seq<Decorator> := [LoginRequired]
  const DetailPutChain: seq<Decorator> := [Requires(Permissions.CanUpdatePost), LoginRequired]
  const DetailDeleteChain: seq<Decorator> := [Requires(Permissions.CanDeletePost), LoginRequired]
  const ListGetChain: seq<Decorator> := [LoginRequired]
  const ListPostChain: seq<Decorator> := [Requires(Permissions.CanCreatePost), LoginRequired]

  /** The route arguments of /users/<int:user_id>/posts/<int:post_id>. */
  function DetailArgs(userId: int, postId: int): map<string, int> {
    map[Permissions.RouteKey := userId, "post_id" := postId]
  }

  /** The route arguments of /users/<int:user_id>/posts. */
  function ListArgs(userId: int): map<string, int> {
    map[Permissions.RouteKey := userId]
  }

  /** What the post requirements let through: an authenticated caller on
      their own route whose payload names them as `user_id`. */
  predicate OwnRouteAndPayload(identity: Option<int>, userId: int, data: Payload) {
    identity == Some(userId) && "user_id" in data && PyEq(Int(userId), data["user_id"])
  }

  /** The refusals every post-changing view shares, before any lookup. */
  predicate RefusedAsPostChange(o: Outcome, identity: Option<int>, userId: int, data: Payload) {
    && (identity.None? ==> o == Abort(401))
    && (identity.Some? && identity.value != userId ==> o == Abort(403))
    && (identity == Some(userId) && "user_id" !in data ==> o == Fail(Raise(UserIdFieldIsMissed)))
    && (identity == Some(userId) && "user_id" in data && !PyEq(Int(userId), data["user_id"]) ==> o == Abort(403))
  }

  /** The chain of every post-changing view, for any caller. */
  lemma PostChainAdmits(r: Permissions.Requirement, identity: Option<int>, viewArgs: map<string, int>, userId: int, json: Option<Payload>)
    requires Permissions.ChecksPayload(r)
    requires Permissions.RouteKey in viewArgs && viewArgs[Permissions.RouteKey] == userId
    ensures Admit([Requires(r), LoginRequired], identity, viewArgs, json).None? <==> OwnRouteAndPayload(identity, userId, BodyOf(json))
    ensures var refusal := Admit([Requires(r), LoginRequired], identity, viewArgs, json);
      refusal.Some? ==> RefusedAsPostChange(refusal.value, identity, userId, BodyOf(json))
  {
    AuthenticationFirst(Requires(r), identity, viewArgs, json);
  }

  /** GET /users/<user_id>/posts/<post_id>: any authenticated caller reads any post. */
  function PostDetailGet(posts: map<int, Post>, identity: Option<int>, userId: int, postId: int): (o: Outcome)
    ensures identity.None? ==> o == Abort(401)
    ensures identity.Some? && postId !in posts ==> o == Abort(404)
    ensures identity.Some? && postId in posts ==> o == Respond(200, PostJson(postId, posts[postId]), None)
  {
    AuthenticationOnly(identity, DetailArgs(userId, postId), None);
    match Admit(DetailGetChain, identity, DetailArgs(userId, postId), None)
    case Some(refusal) => refusal
    case None =>
      if postId !in posts then Abort(404)
      else Respond(200, PostJson(postId, posts[postId]), None)
  }

  /** PUT /users/<user_id>/posts/<post_id>. */
  function PutStep(posts: map<int, Post>, identity: Option<int>, userId: int, postId: int, json: Option<Payload>): (s: Step<Post>)
    ensures !OwnRouteAndPayload(identity, userId, BodyOf(json)) ==>
      s.after == posts && RefusedAsPostChange(s.outcome, identity, userId, BodyOf(json))
    ensures OwnRouteAndPayload(identity, userId, BodyOf(json)) && postId !in posts ==> s == Step(Abort(404), posts)
    ensures OwnRouteAndPayload(identity, userId, BodyOf(json)) && postId in posts
              && ("body" !in BodyOf(json) || PyEq(BodyOf(json)["body"], Str(""))) ==>
      s == Step(Fail(Raise(PostRequiredFieldsIsMissed)), posts)
    ensures OwnRouteAndPayload(identity, userId, BodyOf(json)) && postId in posts
              && "body" in BodyOf(json) && !PyEq(BodyOf(json)["body"], Str("")) ==>
      s.outcome.Respond? && s.after == posts[postId := PostFromDict(posts[postId], BodyOf(json))]
    ensures !s.outcome.Respond? ==> s.after == posts
    ensures s.outcome.Respond? ==>
      && s.outcome == Respond(204, PostJson(postId, s.after[postId]), None)
      && postId in posts && s.outcome.status == 204
      && s.after == posts[postId := PostFromDict(posts[postId], BodyOf(json))]
      && s.after[postId].body == BodyOf(json)["body"]
  {
    var args := DetailArgs(userId, postId);
    PostChainAdmits(Permissions.CanUpdatePost, identity, args, userId, json);
    match Admit(DetailPutChain, identity, args, json)
    case Some(refusal) => Step(refusal, posts)
    case None =>
      var data := BodyOf(json);
      if postId !in posts then Step(Abort(404), posts)
      else if "body" !in data || PyEq(data["body"], Str("")) then Step(Fail(Raise(PostRequiredFieldsIsMissed)), posts)
      else
        var updated := PostFromDict(posts[postId], data);
        Step(Respond(204, PostJson(postId, updated), None), posts[postId := updated])
  }

  method PostDetailPut(db: Db, identity: Option<int>, userId: int, postId: int, json: Option<Payload>) returns (o: Outcome)
    requires db.Valid()
    modifies db
    ensures db.Valid()
    ensures Step(o, db.posts) == PutStep(old(db.posts), identity, userId, postId, json)
    ensures db.users == old(db.users) && db.nextUserId == old(db.nextUserId) && db.nextPostId == old(db.nextPostId)
  {
    var refusal := Admit(DetailPutChain, identity, DetailArgs(userId, postId), json);
    if refusal.Some? {
      return refusal.value;
    }
    if postId !in db.posts {
      return Abort(404);
    }
    var post := db.posts[postId];
    var data := BodyOf(json);
    if "body" !in data || PyEq(data["body"], Str("")) {
      return Fail(Raise(PostRequiredFieldsIsMissed));
    }
    db.SetPost(postId, PostFromDict(post, data));
    o := Respond(204, PostJson(postId, db.posts[postId]), None);
  }

  /** DELETE /users/<user_id>/posts/<post_id>. */
  function DeleteStep(posts: map<int, Post>, identity: Option<int>, userId: int, postId: int, json: Option<Payload>): (s: Step<Post>)
    ensures !OwnRouteAndPayload(identity, userId, BodyOf(json)) ==>
      s.after == posts && RefusedAsPostChange(s.outcome, identity, userId, BodyOf(json))
    ensures OwnRouteAndPayload(identity, userId, BodyOf(json)) && postId !in posts ==> s == Step(Abort(404), posts)
    ensures OwnRouteAndPayload(identity, userId, BodyOf(json)) && postId in posts ==>
      s == Step(Respond(200, Empty, None), posts - {postId})
  {
    var args := DetailArgs(userId, postId);
    PostChainAdmits(Permissions.CanDeletePost, identity, args, userId, json);
    match Admit(DetailDeleteChain, identity, args, json)
    case Some(refusal) => Step(refusal, posts)
    case None =>
      if postId !in posts then Step(Abort(404), posts)
      else Step(Respond(200, Empty, None), posts - {postId})
  }

  method PostDetailDelete(db: Db, identity: Option<int>, userId: int, postId: int, json: Option<Payload>) returns (o: Outcome)
    requires db.Valid()
    modifies db
    ensures db.Valid()
    ensures Step(o, db.posts) == DeleteStep(old(db.posts), identity, userId, postId, json)
    ensures db.users == old(db.users) && db.nextUserId == old(db.nextUserId) && db.nextPostId == old(db.nextPostId)
  {
    var refusal := Admit(DetailDeleteChain, identity, DetailArgs(userId, postId), json);
    if refusal.Some? {
      return refusal.value;
    }
    if postId !in db.posts {
      return Abort(404);
    }
    db.DeletePost(postId);
    o := Respond(200, Empty, None);
  }

  /** GET /users/<user_id>/posts: the user's posts, paged with clamped parameters. */
  function PostListGet(users: map<int, User>, posts: map<int, Post>, identity: Option<int>, userId: int,
                       page: Option<int>, perPage: Option<int>): (o: Outcome)
    ensures identity.None? ==> o == Abort(401)
    ensures identity.Some? && userId !in users ==> o == Abort(404)
    ensures identity.Some? && userId in users ==>
      && o.Respond? && o.status == 200 && o.body.Collection? && o.body.perPage <= MaxPerPage
      && o.body.page == Params(page, perPage).page && o.body.perPage == Params(page, perPage).perPage
      && (forall k :: k in o.body.ids <==> k in posts && PyEq(posts[k].userId, Int(userId)))
  {
    AuthenticationOnly(identity, ListArgs(userId), None);
    match Admit(ListGetChain, identity, ListArgs(userId), None)
    case Some(refusal) => refusal
    case None =>
      if userId !in users then Abort(404)
      else
        var p := Params(page, perPage);
        Respond(200, Collection(p.page, p.perPage, PostsOf(posts, userId)), None)
  }

  /** POST /users/<user_id>/posts with the new post's id `newId`, which no post has. */
  function CreateStep(users: map<int, User>, posts: map<int, Post>, newId: int, identity: Option<int>, userId: int,
                      json: Option<Payload>): (s: Step<Post>)
    requires newId !in posts
    ensures !OwnRouteAndPayload(identity, userId, BodyOf(json)) ==>
      s.after == posts && RefusedAsPostChange(s.outcome, identity, userId, BodyOf(json))
    ensures OwnRouteAndPayload(identity, userId, BodyOf(json)) && userId !in users ==> s == Step(Abort(404), posts)
    ensures OwnRouteAndPayload(identity, userId, BodyOf(json)) && userId in users && "body" !in BodyOf(json) ==>
      s == Step(Fail(Raise(PostRequiredFieldsIsMissed)), posts)
    ensures !s.outcome.Respond? ==> s.after == posts
    ensures s.outcome.Respond? ==>
      && s.after.Keys == posts.Keys + {newId} && |s.after| == |posts| + 1
      && (forall k :: k in posts ==> s.after[k] == posts[k])
      && s.outcome == Respond(201, PostJson(newId, s.after[newId]), Some(PostDetail(userId, newId)))
      && s.after[newId] == NewPost(BodyOf(json))
      && s.after[newId].body == BodyOf(json)["body"]
      && PyEq(s.after[newId].userId, Int(userId))
    ensures s.outcome.Respond? <==>
      OwnRouteAndPayload(identity, userId, BodyOf(json)) && userId in users && "body" in BodyOf(json)
  {
    var args := ListArgs(userId);
    PostChainAdmits(Permissions.CanCreatePost, identity, args, userId, json);
    match Admit(ListPostChain, identity, args, json)
    case Some(refusal) => Step(refusal, posts)
    case None =>
      var data := BodyOf(json);
      if userId !in users then Step(Abort(404), posts)
      else if "body" !in data || "user_id" !in data then Step(Fail(Raise(PostRequiredFieldsIsMissed)), posts)
      else
        var post := NewPost(data);
        Step(Respond(201, PostJson(newId, post), Some(PostDetail(userId, newId))), posts[newId := post])
  }

  method PostListPost(db: Db, identity: Option<int>, userId: int, json: Option<Payload>) returns (o: Outcome)
    requires db.Valid()
    modifies db
    ensures db.Valid()
    ensures Step(o, db.posts) == CreateStep(old(db.users), old(db.posts), old(db.nextPostId), identity, userId, json)
    ensures db.nextPostId == old(db.nextPostId) + (if o.Respond? then 1 else 0)
    ensures db.users == old(db.users) && db.nextUserId == old(db.nextUserId)
  {
    var refusal := Admit(ListPostChain, identity, ListArgs(userId), json);
    if refusal.Some? {
      return refusal.value;
    }
    if userId !in db.users {
      return Abort(404);
    }
    var data := BodyOf(json);
    if "body" !in data || "user_id" !in data {
      return Fail(Raise(PostRequiredFieldsIsMissed));
    }
    var post := NewPost(data);
    var id := db.AddPost(post);
    o := Respond(201, PostJson(id, post), Some(PostDetail(userId, id)));
  }

  /** Update and delete never consult who wrote the post: the answer is the
      same whoever its stored author is (an update goes through only with a
      payload `user_id`, which replaces the author). */
  lemma ChangesIgnoreStoredAuthor(posts: map<int, Post>, identity: Option<int>, userId: int, postId: int,
                                                     json: Option<Payload>, a1: Value, a2: Value)
    requires postId in posts
    ensures var p1 := posts[postId := posts[postId].(userId := a1)];
            var p2 := posts[postId := posts[postId].(userId := a2)];
            DeleteStep(p1, identity, userId, postId, json).outcome == DeleteStep(p2, identity, userId, postId, json).outcome
    ensures var p1 := posts[postId := posts[postId].(userId := a1)];
            var p2 := posts[postId := posts[postId].(userId := a2)];
            PutStep(p1, identity, userId, postId, json).outcome == PutStep(p2, identity, userId, postId, json).outcome
  {
    var p1 := posts[postId := posts[postId].(userId := a1)];
    var p2 := posts[postId := posts[postId].(userId := a2)];
    var data := BodyOf(json);
    PostChainAdmits(Permissions.CanUpdatePost, identity, DetailArgs(userId, postId), userId, json);
    PostChainAdmits(Permissions.CanDeletePost, identity, DetailArgs(userId, postId), userId, json);
    if OwnRouteAndPayload(identity, userId, data) && "body" in data && !PyEq(data["body"], Str("")) {
      var u1 := PostFromDict(p1[postId], data);
      var u2 := PostFromDict(p2[postId], data);
      assert u1 == u2;
    }
  }

  /** So any authenticated user deletes any post by naming themselves in the
      route and in the payload. */
  lemma AnyCallerDeletesAnyPost(posts: map<int, Post>, caller: int, postId: int)
    requires postId in posts
    ensures DeleteStep(posts, Some(caller), caller, postId, Some(map["user_id" := Int(caller)]))
         == Step(Respond(200, Empty, None), posts - {postId})
  {
  }

  /** ... and rewrites any post, which then names the caller as its author. */
  lemma AnyCallerTakesOverAnyPost(posts: map<int, Post>, caller: int, postId: int, body: string)
    requires postId in posts && body != ""
    ensures var s := PutStep(posts, Some(caller), caller, postId, Some(map["user_id" := Int(caller), "body" := Str(body)]));
            s.outcome.Respond? && s.outcome.status == 204 && s.after[postId].userId == Int(caller)
  {
  }

  /** A created post joins its author's list: the list the author's route
      shows gains exactly the new post. */
  lemma CreatedPostIsListed(users: map<int, User>, posts: map<int, Post>, newId: int, identity: Option<int>,
                                               userId: int, json: Option<Payload>)
    requires newId !in posts
    requires CreateStep(users, posts, newId, identity, userId, json).outcome.Respond?
    ensures var after := CreateStep(users, posts, newId, identity, userId, json).after;
      PostListGet(users, after, identity, userId, None, None).body.ids == PostsOf(posts, userId) + {newId}
  {
    var s := CreateStep(users, posts, newId, identity, userId, json);
    var p := s.after[newId];
    assert s.after == posts[newId := p];
    PostChainAdmits(Permissions.CanCreatePost, identity, ListArgs(userId), userId, json);
    AuthenticationOnly(identity, ListArgs(userId), None);
    PostsOfStore(posts, newId, p, userId);
  }

  /** ... and no other user's list changes. */
  lemma CreatedPostIsListedOnce(users: map<int, User>, posts: map<int, Post>, newId: int, identity: Option<int>,
                                                   userId: int, json: Option<Payload>, other: int)
    requires newId !in posts && other != userId
    requires CreateStep(users, posts, newId, identity, userId, json).outcome.Respond?
    ensures PostsOf(CreateStep(users, posts, newId, identity, userId, json).after, other) == PostsOf(posts, other)
  {
    var s := CreateStep(users, posts, newId, identity, userId, json);
    var p := s.after[newId];
    assert s.after == posts[newId := p];
    PostsOfStore(posts, newId, p, other);
    PyEqIsEquivalence(Int(other), p.userId, Int(userId));
  }

  /** A deleted post leaves every list, and nothing else does. */
  lemma DeletedPostIsUnlisted(posts: map<int, Post>, identity: Option<int>, userId: int, postId: int,
                                                 json: Option<Payload>, listed: int)
    requires DeleteStep(posts, identity, userId, postId, json).outcome.Respond?
    ensures PostsOf(DeleteStep(posts, identity, userId, postId, json).after, listed) == PostsOf(posts, listed) - {postId}
  {
    assert DeleteStep(posts, identity, userId, postId, json).after == posts - {postId};
    PostsOfRemove(posts, postId, listed);
  }
}
