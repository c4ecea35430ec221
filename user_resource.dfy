/** The user resources: `UserDetail` at /users/<user_id> and `UserList` at
    /users. Each view runs inside its `method_decorators` chain. */
module UserResource {
  import opened Values
  import opened Exceptions
  import opened Http
  import opened Models
  import opened Paging
  import opened Decorators
  import opened Session
  import Permissions
  import Authr

  const DetailGetChain: seq<Decorator> := [LoginRequired]
  const DetailPutChain: seq<Decorator> := [Requires(Permissions.CanUpdateProfile), LoginRequired]
  const DetailDeleteChain: seq<Decorator> := [Requires(Permissions.CanDeleteProfile), LoginRequired]
  const ListGetChain: seq<Decorator> := [LoginRequired]
  // UserList.post carries no decorator: anyone may register.

  const UsernameUsed := "please use a different username"
  const EmailUsed := "please use a different email address"

  /** The route arguments of /users/<int:user_id>. */
  function DetailArgs(userId: int): map<string, int> {
    map[Permissions.RouteKey := userId]
  }

  /** `is_valid_data`: the registration payload names all three fields. */
  function IsValidData(data: Payload): (ok: bool)
    ensures ok <==> {"username", "email", "password"} <= data.Keys
  {
    !("username" !in data || "email" !in data || "password" !in data)
  }

  /** A supplied username that differs from the user's own and is used by
      someone, so an update must be refused. */
  predicate UsernameClash(users: map<int, User>, userId: int, data: Payload)
    requires userId in users
  {
    "username" in data && !PyEq(data["username"], users[userId].username) && UsernameTaken(users, data["username"])
  }

  predicate EmailClash(users: map<int, User>, userId: int, data: Payload)
    requires userId in users
  {
    "email" in data && !PyEq(data["email"], users[userId].email) && EmailTaken(users, data["email"])
  }

  /** GET /users/<user_id>. */
  function UserDetailGet(users: map<int, User>, identity: Option<int>, userId: int): (o: Outcome)
    ensures identity.None? ==> o == Abort(401)
    ensures identity.Some? && userId !in users ==> o == Abort(404)
    ensures identity.Some? && userId in users ==> o == Respond(200, UserJson(userId, users[userId]), None)
  {
    AuthenticationOnly(identity, DetailArgs(userId), None);
    match Admit(DetailGetChain, identity, DetailArgs(userId), None)
    case Some(refusal) => refusal
    case None =>
      if userId !in users then Abort(404)
      else Respond(200, UserJson(userId, users[userId]), None)
  }

  /** GET /users: every user, paged with clamped parameters. */
  function UserListGet(users: map<int, User>, identity: Option<int>, page: Option<int>, perPage: Option<int>): (o: Outcome)
    ensures identity.None? ==> o == Abort(401)
    ensures identity.Some? ==> o.Respond? && o.status == 200 && o.body.Collection?
    ensures identity.Some? ==> o.body.ids == users.Keys && o.body.perPage <= MaxPerPage
    ensures identity.Some? ==> o.body.page == Params(page, perPage).page && o.body.perPage == Params(page, perPage).perPage
  {
    AuthenticationOnly(identity, map[], None);
    match Admit(ListGetChain, identity, map[], None)
    case Some(refusal) => refusal
    case None =>
      var p := Params(page, perPage);
      Respond(200, Collection(p.page, p.perPage, users.Keys), None)
  }

  /** PUT /users/<user_id>: what the request answers and the user table after it. */
  function PutStep(users: map<int, User>, identity: Option<int>, userId: int, json: Option<Payload>): (s: Step<User>)
    ensures identity.None? ==> s == Step(Abort(401), users)
    ensures identity.Some? && identity.value != userId ==> s == Step(Abort(403), users)
    ensures identity == Some(userId) && userId !in users ==> s == Step(Abort(404), users)
    ensures !s.outcome.Respond? ==> s.after == users
    ensures s.outcome.Respond? ==>
      && identity == Some(userId) && userId in users
      && s.outcome.status == 200
      && s.after == users[userId := UserFromDict(users[userId], BodyOf(json))]
      && s.outcome == Respond(200, UserJson(userId, s.after[userId]), None)
  {
    AuthenticationFirst(Requires(Permissions.CanUpdateProfile), identity, DetailArgs(userId), json);
    match Admit(DetailPutChain, identity, DetailArgs(userId), json)
    case Some(refusal) => Step(refusal, users)
    case None =>
      var data := BodyOf(json);
      if userId !in users then Step(Abort(404), users)
      else if UsernameClash(users, userId, data) then Step(Fail(BadRequest(UsernameUsed)), users)
      else if EmailClash(users, userId, data) then Step(Fail(BadRequest(EmailUsed)), users)
      else
        var updated := UserFromDict(users[userId], data);
        Step(Respond(200, UserJson(userId, updated), None), users[userId := updated])
  }

  method UserDetailPut(db: Db, identity: Option<int>, userId: int, json: Option<Payload>) returns (o: Outcome)
    requires db.Valid()
    modifies db
    ensures db.Valid()
    ensures Step(o, db.users) == PutStep(old(db.users), identity, userId, json)
    ensures db.posts == old(db.posts) && db.nextPostId == old(db.nextPostId) && db.nextUserId == old(db.nextUserId)
  {
    var refusal := Admit(DetailPutChain, identity, DetailArgs(userId), json);
    if refusal.Some? {
      return refusal.value;
    }
    if userId !in db.users {
      return Abort(404);
    }
    var user := db.users[userId];
    var data := BodyOf(json);
    if "username" in data && !PyEq(data["username"], user.username) && UsernameTaken(db.users, data["username"]) {
      return Fail(BadRequest(UsernameUsed));
    }
    if "email" in data && !PyEq(data["email"], user.email) && EmailTaken(db.users, data["email"]) {
      return Fail(BadRequest(EmailUsed));
    }
    db.SetUser(userId, UserFromDict(user, data));
    o := Respond(200, UserJson(userId, db.users[userId]), None);
  }

  /** DELETE /users/<user_id>. */
  function DeleteStep(users: map<int, User>, identity: Option<int>, userId: int, json: Option<Payload>): (s: Step<User>)
    ensures identity.None? ==> s == Step(Abort(401), users)
    ensures identity.Some? && identity.value != userId ==> s == Step(Abort(403), users)
    ensures identity == Some(userId) && userId !in users ==> s == Step(Abort(404), users)
    ensures identity == Some(userId) && userId in users ==> s == Step(Respond(200, Empty, None), users - {userId})
  {
    AuthenticationFirst(Requires(Permissions.CanDeleteProfile), identity, DetailArgs(userId), json);
    match Admit(DetailDeleteChain, identity, DetailArgs(userId), json)
    case Some(refusal) => Step(refusal, users)
    case None =>
      if userId !in users then Step(Abort(404), users)
      else Step(Respond(200, Empty, None), users - {userId})
  }

  method UserDetailDelete(db: Db, identity: Option<int>, userId: int, json: Option<Payload>) returns (o: Outcome)
    requires db.Valid()
    modifies db
    ensures db.Valid()
    ensures Step(o, db.users) == DeleteStep(old(db.users), identity, userId, json)
    ensures db.posts == old(db.posts) && db.nextPostId == old(db.nextPostId) && db.nextUserId == old(db.nextUserId)
  {
    var refusal := Admit(DetailDeleteChain, identity, DetailArgs(userId), json);
    if refusal.Some? {
      return refusal.value;
    }
    if userId !in db.users {
      return Abort(404);
    }
    db.DeleteUser(userId);
    o := Respond(200, Empty, None);
  }

  /** POST /users with the new user's id `newId`, which no user has. */
  function CreateStep(users: map<int, User>, newId: int, json: Option<Payload>): (s: Step<User>)
    requires newId !in users
    ensures !IsValidData(BodyOf(json)) ==> s == Step(Fail(Raise(UserRequiredFieldsIsMissed)), users)
    ensures IsValidData(BodyOf(json)) && UsernameTaken(users, BodyOf(json)["username"]) ==>
      s == Step(Fail(BadRequest(UsernameUsed)), users)
    ensures IsValidData(BodyOf(json)) && !UsernameTaken(users, BodyOf(json)["username"])
              && EmailTaken(users, BodyOf(json)["email"]) ==>
      s == Step(Fail(BadRequest(EmailUsed)), users)
    ensures !s.outcome.Respond? ==> s.after == users
    ensures s.outcome.Respond? ==>
      && s.after.Keys == users.Keys + {newId} && |s.after| == |users| + 1
      && s.outcome == Respond(201, UserJson(newId, s.after[newId]), Some(UserDetail(newId)))
      && (forall k :: k in users ==> s.after[k] == users[k])
      && s.after[newId].username == BodyOf(json)["username"]
      && s.after[newId].email == BodyOf(json)["email"]
    ensures s.outcome.Respond? <==>
      IsValidData(BodyOf(json)) && !UsernameTaken(users, BodyOf(json)["username"]) && !EmailTaken(users, BodyOf(json)["email"])
  {
    var data := BodyOf(json);
    if !IsValidData(data) then Step(Fail(Raise(UserRequiredFieldsIsMissed)), users)
    else if UsernameTaken(users, data["username"]) then Step(Fail(BadRequest(UsernameUsed)), users)
    else if EmailTaken(users, data["email"]) then Step(Fail(BadRequest(EmailUsed)), users)
    else
      var user := NewUser(data);
      Step(Respond(201, UserJson(newId, user), Some(UserDetail(newId))), users[newId := user])
  }

  method UserListPost(db: Db, json: Option<Payload>) returns (o: Outcome)
    requires db.Valid()
    modifies db
    ensures db.Valid()
    ensures Step(o, db.users) == CreateStep(old(db.users), old(db.nextUserId), json)
    ensures db.nextUserId == old(db.nextUserId) + (if o.Respond? then 1 else 0)
    ensures db.posts == old(db.posts) && db.nextPostId == old(db.nextPostId)
  {
    var data := BodyOf(json);
    if !IsValidData(data) {
      return Fail(Raise(UserRequiredFieldsIsMissed));
    }
    if UsernameTaken(db.users, data["username"]) {
      return Fail(BadRequest(UsernameUsed));
    }
    if EmailTaken(db.users, data["email"]) {
      return Fail(BadRequest(EmailUsed));
    }
    var user := NewUser(data);
    var id := db.AddUser(user);
    o := Respond(201, UserJson(id, user), Some(UserDetail(id)));
  }

  /** Registration checks its rules in order: missing fields, then the
      username, then the email. A payload whose username and email are both
      taken is refused for the username. */
  lemma CreateReportsUsernameFirst(users: map<int, User>, newId: int, json: Option<Payload>)
    requires newId !in users
    requires IsValidData(BodyOf(json))
    requires UsernameTaken(users, BodyOf(json)["username"]) && EmailTaken(users, BodyOf(json)["email"])
    ensures CreateStep(users, newId, json).outcome == Fail(BadRequest(UsernameUsed))
  {
  }

  /** On update, resupplying one's own username never clashes; a different
      one clashes exactly when some other user has it. Likewise for email. */
  lemma UpdateClashIsWithOthers(users: map<int, User>, userId: int, data: Payload)
    requires userId in users
    ensures "username" in data && PyEq(data["username"], users[userId].username) ==> !UsernameClash(users, userId, data)
    ensures "username" in data && !PyEq(data["username"], users[userId].username) ==>
      (UsernameClash(users, userId, data) <==>
         exists k :: k in users && k != userId && PyEq(users[k].username, data["username"]))
    ensures "email" in data && PyEq(data["email"], users[userId].email) ==> !EmailClash(users, userId, data)
    ensures "email" in data && !PyEq(data["email"], users[userId].email) ==>
      (EmailClash(users, userId, data) <==>
         exists k :: k in users && k != userId && PyEq(users[k].email, data["email"]))
  {
  }

  /** The update's answers, in order, for the owner of an existing profile. */
  lemma PutConflictOrder(users: map<int, User>, userId: int, json: Option<Payload>)
    requires userId in users
    ensures UsernameClash(users, userId, BodyOf(json)) ==>
      PutStep(users, Some(userId), userId, json) == Step(Fail(BadRequest(UsernameUsed)), users)
    ensures !UsernameClash(users, userId, BodyOf(json)) && EmailClash(users, userId, BodyOf(json)) ==>
      PutStep(users, Some(userId), userId, json) == Step(Fail(BadRequest(EmailUsed)), users)
    ensures !UsernameClash(users, userId, BodyOf(json)) && !EmailClash(users, userId, BodyOf(json)) ==>
      PutStep(users, Some(userId), userId, json).outcome.Respond?
  {
    AuthenticationFirst(Requires(Permissions.CanUpdateProfile), Some(userId), DetailArgs(userId), json);
  }

  /** Registration keeps usernames and email addresses unique. */
  lemma CreateKeepsIdentitiesUnique(users: map<int, User>, newId: int, json: Option<Payload>)
    requires newId !in users && UniqueIdentities(users)
    ensures UniqueIdentities(CreateStep(users, newId, json).after)
  {
    var s := CreateStep(users, newId, json);
    if s.outcome.Respond? {
      var data := BodyOf(json);
      forall a, b | a in s.after && b in s.after && a != b
        ensures !PyEq(s.after[a].username, s.after[b].username) && !PyEq(s.after[a].email, s.after[b].email)
      {
        if a == newId || b == newId {
          var prior := if a == newId then b else a;
          assert prior in users;
          PyEqIsEquivalence(users[prior].username, data["username"], data["username"]);
          PyEqIsEquivalence(users[prior].email, data["email"], data["email"]);
        }
      }
    }
  }

  /** A profile update keeps usernames and email addresses unique: a value
      equal to the user's own cannot equal anyone else's. */
  lemma PutKeepsIdentitiesUnique(users: map<int, User>, identity: Option<int>, userId: int, json: Option<Payload>)
    requires UniqueIdentities(users)
    ensures UniqueIdentities(PutStep(users, identity, userId, json).after)
  {
    var s := PutStep(users, identity, userId, json);
    if s.outcome.Respond? {
      var data := BodyOf(json);
      var u := users[userId];
      var updated := UserFromDict(u, data);
      assert s.after == users[userId := updated];
      assert !UsernameClash(users, userId, data) && !EmailClash(users, userId, data) by {
        AuthenticationFirst(Requires(Permissions.CanUpdateProfile), identity, DetailArgs(userId), json);
      }
      forall a, b | a in s.after && b in s.after && a != b
        ensures !PyEq(s.after[a].username, s.after[b].username) && !PyEq(s.after[a].email, s.after[b].email)
      {
        if a == userId || b == userId {
          var other := if a == userId then b else a;
          assert other in users && other != userId;
          PyEqIsEquivalence(users[other].username, updated.username, u.username);
          PyEqIsEquivalence(updated.username, users[other].username, u.username);
          PyEqIsEquivalence(users[other].email, updated.email, u.email);
          PyEqIsEquivalence(updated.email, users[other].email, u.email);
        }
      }
    }
  }

  /** The resource imports its requirements from the earlier module. That
      module has no CanDeleteProfile, so the import itself fails and the API
      does not load. Even with that name supplied, its checks read the route
      argument `id` while this route binds `user_id`: the profile's owner
      would be refused with a server error. The current requirements let the
      owner through and refuse everyone else with 403. */
  lemma EarlierRequirementsRefuseOwner(userId: int, other: int, json: Option<Payload>)
    requires other != userId
    ensures Admit([RequiresLegacy(Authr.CanUpdateProfile), LoginRequired], Some(userId), DetailArgs(userId), json)
         == Some(Abort(500))
    ensures Admit(DetailPutChain, Some(userId), DetailArgs(userId), json) == None
    ensures Admit(DetailDeleteChain, Some(userId), DetailArgs(userId), json) == None
    ensures Admit(DetailPutChain, Some(other), DetailArgs(userId), json) == Some(Abort(403))
    ensures Admit(DetailDeleteChain, Some(other), DetailArgs(userId), json) == Some(Abort(403))
  {
    AuthenticationFirst(RequiresLegacy(Authr.CanUpdateProfile), Some(userId), DetailArgs(userId), json);
    AuthenticationFirst(Requires(Permissions.CanUpdateProfile), Some(userId), DetailArgs(userId), json);
    AuthenticationFirst(Requires(Permissions.CanDeleteProfile), Some(userId), DetailArgs(userId), json);
    AuthenticationFirst(Requires(Permissions.CanUpdateProfile), Some(other), DetailArgs(userId), json);
    AuthenticationFirst(Requires(Permissions.CanDeleteProfile), Some(other), DetailArgs(userId), json);
  }
}
