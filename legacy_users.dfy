/** The earlier function-style views of the users API, whose routes name the
    user `id`. They are no longer registered by the API blueprint, but their
    behaviour stands on its own and is modelled as a second, separate set of
    views over the same tables. A stack of `@` decorators wraps bottom-up, so
    `@token_auth.login_required` above `@allows.requires(...)` is the outer
    check, as in the chains below (innermost first). */
module LegacyUsers {
  import opened Values
  import opened Exceptions
  import opened Http
  import opened Models
  import opened Paging
  import opened Decorators
  import opened Session
  import Authr
  import UserResource

  const LoginOnly: seq<Decorator> := [LoginRequired]
  const UpdateUserChain: seq<Decorator> := [RequiresLegacy(Authr.CanUpdateProfile), LoginRequired]
  // create_user carries no decorator.

  const MissingUserFields := "must include username, email and password fields"
  const MissingPostFields := "must include post_body and user_id fields"

  /** The route arguments of /users/<int:id>... */
  function IdArgs(id: int): map<string, int> {
    map[Authr.RouteKey := id]
  }

  /** GET /users/<id>. */
  function GetUser(users: map<int, User>, identity: Option<int>, id: int): (o: Outcome)
    ensures identity.None? ==> o == Abort(401)
    ensures identity.Some? && id !in users ==> o == Abort(404)
    ensures identity.Some? && id in users ==> o == Respond(200, UserJson(id, users[id]), None)
  {
    AuthenticationOnly(identity, IdArgs(id), None);
    match Admit(LoginOnly, identity, IdArgs(id), None)
    case Some(refusal) => refusal
    case None =>
      if id !in users then Abort(404) else Respond(200, UserJson(id, users[id]), None)
  }

  /** GET /users. */
  function GetUsers(users: map<int, User>, identity: Option<int>, page: Option<int>, perPage: Option<int>): (o: Outcome)
    ensures identity.None? ==> o == Abort(401)
    ensures identity.Some? ==> o.Respond? && o.status == 200 && o.body.Collection?
    ensures identity.Some? ==> o.body.ids == users.Keys && o.body.perPage <= MaxPerPage
    ensures identity.Some? ==> o.body.page == Params(page, perPage).page && o.body.perPage == Params(page, perPage).perPage
  {
    AuthenticationOnly(identity, map[], None);
    match Admit(LoginOnly, identity, map[], None)
    case Some(refusal) => refusal
    case None =>
      var p := Params(page, perPage);
      Respond(200, Collection(p.page, p.perPage, users.Keys), None)
  }

  /** POST /users with the new user's id `newId`, which no user has. */
  function CreateUserStep(users: map<int, User>, newId: int, json: Option<Payload>): (s: Step<User>)
    requires newId !in users
    ensures !({"username", "email", "password"} <= BodyOf(json).Keys) ==>
      s == Step(Fail(BadRequest(MissingUserFields)), users)
    ensures {"username", "email", "password"} <= BodyOf(json).Keys && UsernameTaken(users, BodyOf(json)["username"]) ==>
      s == Step(Fail(BadRequest(UserResource.UsernameUsed)), users)
    ensures {"username", "email", "password"} <= BodyOf(json).Keys && !UsernameTaken(users, BodyOf(json)["username"])
              && EmailTaken(users, BodyOf(json)["email"]) ==>
      s == Step(Fail(BadRequest(UserResource.EmailUsed)), users)
    ensures !s.outcome.Respond? ==> s.after == users
    ensures s.outcome.Respond? ==>
      && s.after.Keys == users.Keys + {newId} && |s.after| == |users| + 1
      && s.outcome == Respond(201, UserJson(newId, s.after[newId]), Some(UserDetail(newId)))
      && (forall k :: k in users ==> s.after[k] == users[k])
      && s.after[newId] == NewUser(BodyOf(json))
    ensures s.outcome.Respond? <==>
      && {"username", "email", "password"} <= BodyOf(json).Keys
      && !UsernameTaken(users, BodyOf(json)["username"]) && !EmailTaken(users, BodyOf(json)["email"])
  {
    var data := BodyOf(json);
    if "username" !in data || "email" !in data || "password" !in data then
      Step(Fail(BadRequest(MissingUserFields)), users)
    else if UsernameTaken(users, data["username"]) then Step(Fail(BadRequest(UserResource.UsernameUsed)), users)
    else if EmailTaken(users, data["email"]) then Step(Fail(BadRequest(UserResource.EmailUsed)), users)
    else
      var user := NewUser(data);
      Step(Respond(201, UserJson(newId, user), Some(UserDetail(newId))), users[newId := user])
  }

  method CreateUser(db: Db, json: Option<Payload>) returns (o: Outcome)
    requires db.Valid()
    modifies db
    ensures db.Valid()
    ensures Step(o, db.users) == CreateUserStep(old(db.users), old(db.nextUserId), json)
    ensures db.nextUserId == old(db.nextUserId) + (if o.Respond? then 1 else 0)
    ensures db.posts == old(db.posts) && db.nextPostId == old(db.nextPostId)
  {
    var data := BodyOf(json);
    if "username" !in data || "email" !in data || "password" !in data {
      return Fail(BadRequest(MissingUserFields));
    }
    if UsernameTaken(db.users, data["username"]) {
      return Fail(BadRequest(UserResource.UsernameUsed));
    }
    if EmailTaken(db.users, data["email"]) {
      return Fail(BadRequest(UserResource.EmailUsed));
    }
    var user := NewUser(data);
    var id := db.AddUser(user);
    o := Respond(201, UserJson(id, user), Some(UserDetail(id)));
  }

  /** Registration here and at `UserList.post` is the same, message for message. */
  lemma CreateUserAgrees(users: map<int, User>, newId: int, json: Option<Payload>)
    requires newId !in users
    ensures CreateUserStep(users, newId, json) == UserResource.CreateStep(users, newId, json)
  {
  }

  /** PUT /users/<id>. */
  function UpdateUserStep(users: map<int, User>, identity: Option<int>, id: int, json: Option<Payload>): (s: Step<User>)
    ensures identity.None? ==> s == Step(Abort(401), users)
    ensures identity.Some? && identity.value != id ==> s == Step(Abort(403), users)
    ensures !s.outcome.Respond? ==> s.after == users
    ensures s.outcome.Respond? ==>
      && identity == Some(id) && id in users && s.outcome.status == 200
      && s.after == users[id := UserFromDict(users[id], BodyOf(json))]
      && s.outcome == Respond(200, UserJson(id, s.after[id]), None)
  {
    AuthenticationFirst(RequiresLegacy(Authr.CanUpdateProfile), identity, IdArgs(id), json);
    match Admit(UpdateUserChain, identity, IdArgs(id), json)
    case Some(refusal) => Step(refusal, users)
    case None =>
      var data := BodyOf(json);
      if id !in users then Step(Abort(404), users)
      else if UserResource.UsernameClash(users, id, data) then Step(Fail(BadRequest(UserResource.UsernameUsed)), users)
      else if UserResource.EmailClash(users, id, data) then Step(Fail(BadRequest(UserResource.EmailUsed)), users)
      else
        var updated := UserFromDict(users[id], data);
        Step(Respond(200, UserJson(id, updated), None), users[id := updated])
  }

  method UpdateUser(db: Db, identity: Option<int>, id: int, json: Option<Payload>) returns (o: Outcome)
    requires db.Valid()
    modifies db
    ensures db.Valid()
    ensures Step(o, db.users) == UpdateUserStep(old(db.users), identity, id, json)
    ensures db.posts == old(db.posts) && db.nextPostId == old(db.nextPostId) && db.nextUserId == old(db.nextUserId)
  {
    var refusal := Admit(UpdateUserChain, identity, IdArgs(id), json);
    if refusal.Some? {
      return refusal.value;
    }
    if id !in db.users {
      return Abort(404);
    }
    var user := db.users[id];
    var data := BodyOf(json);
    if "username" in data && !PyEq(data["username"], user.username) && UsernameTaken(db.users, data["username"]) {
      return Fail(BadRequest(UserResource.UsernameUsed));
    }
    if "email" in data && !PyEq(data["email"], user.email) && EmailTaken(db.users, data["email"]) {
      return Fail(BadRequest(UserResource.EmailUsed));
    }
    db.SetUser(id, UserFromDict(user, data));
    o := Respond(200, UserJson(id, db.users[id]), None);
  }

  /** Profile update here and at `UserDetail.put` is the same on every input. */
  lemma UpdateUserAgrees(users: map<int, User>, identity: Option<int>, id: int, json: Option<Payload>)
    ensures UpdateUserStep(users, identity, id, json) == UserResource.PutStep(users, identity, id, json)
  {
    AuthenticationFirst(RequiresLegacy(Authr.CanUpdateProfile), identity, IdArgs(id), json);
    AuthenticationFirst(Requires(Permissions.CanUpdateProfile), identity, UserResource.DetailArgs(id), json);
  }

  /** GET /users/<id>/posts. */
  function GetUserPosts(users: map<int, User>, posts: map<int, Post>, identity: Option<int>, id: int,
                        page: Option<int>, perPage: Option<int>): (o: Outcome)
    ensures identity.None? ==> o == Abort(401)
    ensures identity.Some? && id !in users ==> o == Abort(404)
    ensures identity.Some? && id in users ==>
      && o.Respond? && o.status == 200 && o.body.Collection? && o.body.perPage <= MaxPerPage
      && o.body.page == Params(page, perPage).page && o.body.perPage == Params(page, perPage).perPage
      && (forall k :: k in o.body.ids <==> k in posts && PyEq(posts[k].userId, Int(id)))
  {
    AuthenticationOnly(identity, IdArgs(id), None);
    match Admit(LoginOnly, identity, IdArgs(id), None)
    case Some(refusal) => refusal
    case None =>
      if id !in users then Abort(404)
      else
        var p := Params(page, perPage);
        Respond(200, Collection(p.page, p.perPage, PostsOf(posts, id)), None)
  }

  /** `User.query.filter_by(id=v).first() != g.current_user` is false: the
      payload's `user_id` finds the caller. */
  predicate NamesCaller(users: map<int, User>, caller: int, v: Value) {
    caller in users && PyEq(Int(caller), v)
  }

  /** POST /users/<id>/posts with the new post's id `newId`, which no post
      has. No requirement guards it: a foreign route or a payload naming
      someone else is answered 404 with an empty body. */
  function CreatePostStep(users: map<int, User>, posts: map<int, Post>, newId: int, identity: Option<int>, id: int,
                          json: Option<Payload>): (s: Step<Post>)
    requires newId !in posts
    ensures identity.None? ==> s == Step(Abort(401), posts)
    ensures identity.Some? && id !in users ==> s == Step(Abort(404), posts)
    ensures identity.Some? && id in users && identity.value != id ==> s == Step(Respond(404, Empty, None), posts)
    ensures identity == Some(id) && id in users && ("body" !in BodyOf(json) || "user_id" !in BodyOf(json)) ==>
      s == Step(Fail(BadRequest(MissingPostFields)), posts)
    ensures identity == Some(id) && id in users && "body" in BodyOf(json) && "user_id" in BodyOf(json)
              && !PyEq(Int(id), BodyOf(json)["user_id"]) ==>
      s == Step(Respond(404, Empty, None), posts)
    ensures !s.outcome.Respond? || s.outcome.status != 201 ==> s.after == posts
    ensures s.outcome.Respond? && s.outcome.status == 201 ==>
      && s.after.Keys == posts.Keys + {newId} && |s.after| == |posts| + 1
      && (forall k :: k in posts ==> s.after[k] == posts[k])
      && s.after[newId] == NewPost(BodyOf(json))
      && s.outcome == Respond(201, PostJson(newId, s.after[newId]), Some(PostDetail(id, newId)))
  {
    AuthenticationOnly(identity, IdArgs(id), json);
    match Admit(LoginOnly, identity, IdArgs(id), json)
    case Some(refusal) => Step(refusal, posts)
    case None =>
      var data := BodyOf(json);
      if id !in users then Step(Abort(404), posts)
      else if id != identity.value then Step(Respond(404, Empty, None), posts)
      else if "body" !in data || "user_id" !in data then Step(Fail(BadRequest(MissingPostFields)), posts)
      else if !NamesCaller(users, identity.value, data["user_id"]) then Step(Respond(404, Empty, None), posts)
      else
        var post := NewPost(data);
        Step(Respond(201, PostJson(newId, post), GetUserPostUrl(map["user_id" := id, "post_id" := newId])), posts[newId := post])
  }

  method CreatePost(db: Db, identity: Option<int>, id: int, json: Option<Payload>) returns (o: Outcome)
    requires db.Valid()
    modifies db
    ensures db.Valid()
    ensures Step(o, db.posts) == CreatePostStep(old(db.users), old(db.posts), old(db.nextPostId), identity, id, json)
    ensures db.nextPostId == old(db.nextPostId) + (if o.Respond? && o.status == 201 then 1 else 0)
    ensures db.users == old(db.users) && db.nextUserId == old(db.nextUserId)
  {
    var refusal := Admit(LoginOnly, identity, IdArgs(id), json);
    if refusal.Some? {
      return refusal.value;
    }
    if id !in db.users {
      return Abort(404);
    }
    if id != identity.value {
      return Respond(404, Empty, None);
    }
    var data := BodyOf(json);
    if "body" !in data || "user_id" !in data {
      return Fail(BadRequest(MissingPostFields));
    }
    if !NamesCaller(db.users, identity.value, data["user_id"]) {
      return Respond(404, Empty, None);
    }
    var post := NewPost(data);
    var postId := db.AddPost(post);
    o := Respond(201, PostJson(postId, post), GetUserPostUrl(map["user_id" := id, "post_id" := postId]));
  }

  /** The owner of an existing profile whose payload has a body and names
      them as `user_id` always gets the post created. */
  lemma CreatePostAccepts(users: map<int, User>, posts: map<int, Post>, newId: int, caller: int, json: Option<Payload>)
    requires newId !in posts && caller in users
    requires "body" in BodyOf(json) && "user_id" in BodyOf(json) && PyEq(Int(caller), BodyOf(json)["user_id"])
    ensures var s := CreatePostStep(users, posts, newId, Some(caller), caller, json);
      && s.outcome == Respond(201, PostJson(newId, NewPost(BodyOf(json))), Some(PostDetail(caller, newId)))
      && s.after == posts[newId := NewPost(BodyOf(json))]
  {
    AuthenticationOnly(Some(caller), IdArgs(caller), json);
    assert NamesCaller(users, caller, BodyOf(json)["user_id"]);
  }

  /** Whatever else the payload holds, a `user_id` that does not name the
      caller adds nothing and is answered with an empty 404; so, in
      particular, does one naming another user. */
  lemma CreatePostForeignUserIdIs404(users: map<int, User>, posts: map<int, Post>, newId: int, caller: int,
                                     json: Option<Payload>)
    requires newId !in posts && caller in users
    requires "body" in BodyOf(json) && "user_id" in BodyOf(json)
    ensures !PyEq(Int(caller), BodyOf(json)["user_id"]) ==>
      CreatePostStep(users, posts, newId, Some(caller), caller, json) == Step(Respond(404, Empty, None), posts)
    ensures forall other :: other != caller && BodyOf(json)["user_id"] == Int(other) ==>
      CreatePostStep(users, posts, newId, Some(caller), caller, json) == Step(Respond(404, Empty, None), posts)
  {
  }

  /** `url_for('api.get_user_post', **values)`: the route binds `user_id` and
      `post_id`, and a URL cannot be built without both. */
  function GetUserPostUrl(values: map<string, int>): (l: Option<Link>)
    ensures l.Some? <==> "user_id" in values && "post_id" in values
  {
    if "user_id" in values && "post_id" in values then Some(PostDetail(values["user_id"], values["post_id"])) else None
  }

  /** The Location of a created post is asked for with `id` alone: no URL can
      be built, so the request ends in a server error after the post is stored.
      Given the route's own arguments it names the new post. */
  lemma CreatedPostLocation(userId: int, postId: int)
    ensures GetUserPostUrl(map["id" := userId]) == None
    ensures GetUserPostUrl(map["user_id" := userId, "post_id" := postId]) == Some(PostDetail(userId, postId))
  {
  }

  /** GET /users/<user_id>/posts/<post_id>. */
  function GetUserPost(posts: map<int, Post>, identity: Option<int>, userId: int, postId: int): (o: Outcome)
    ensures identity.None? ==> o == Abort(401)
    ensures identity.Some? && postId !in posts ==> o == Abort(404)
    ensures identity.Some? && postId in posts ==> o == Respond(200, PostJson(postId, posts[postId]), None)
  {
    var args := map["user_id" := userId, "post_id" := postId];
    AuthenticationOnly(identity, args, None);
    match Admit(LoginOnly, identity, args, None)
    case Some(refusal) => refusal
    case None =>
      if postId !in posts then Abort(404) else Respond(200, PostJson(postId, posts[postId]), None)
  }
}
