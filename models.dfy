/** The stored entities the handlers read and write. Their ORM class
    (app/models.py) is not part of this model: only the fields the handlers
    touch are kept, and the effect of `from_dict` on them is an assumption:
    each field the payload supplies replaces the stored value. */
module Models {
  import opened Values

  /** A stored user. Fields hold whatever JSON value `from_dict` stored. */
  datatype User = User(username: Value, email: Value, aboutMe: Value)

  /** A stored post; `userId` is its author. */
  datatype Post = Post(body: Value, userId: Value, language: Value)

  /** The value a field takes when `from_dict` applies a payload to it. */
  function Supplied(data: Payload, key: string, current: Value): Value {
    if key in data then data[key] else current
  }

  /** `User.from_dict`: each of username, email and about_me that the
      payload supplies replaces the stored value; the rest are kept. */
  function UserFromDict(u: User, data: Payload): User {
    User(Supplied(data, "username", u.username),
         Supplied(data, "email", u.email),
         Supplied(data, "about_me", u.aboutMe))
  }

  /** `Post.from_dict`: each of body, user_id and language that the payload
      supplies replaces the stored value. */
  function PostFromDict(p: Post, data: Payload): Post {
    Post(Supplied(data, "body", p.body),
         Supplied(data, "user_id", p.userId),
         Supplied(data, "language", p.language))
  }

  /** `User()` followed by `from_dict(data, new_user=True)`. */
  function NewUser(data: Payload): User {
    UserFromDict(User(Null, Null, Null), data)
  }

  /** `Post()` followed by `from_dict(data)`. */
  function NewPost(data: Payload): Post {
    PostFromDict(Post(Null, Null, Null), data)
  }

  /** `User.query.filter_by(username=v).first()` finds a user. */
  predicate UsernameTaken(users: map<int, User>, v: Value) {
    exists k :: k in users && PyEq(users[k].username, v)
  }

  /** `User.query.filter_by(email=v).first()` finds a user. */
  predicate EmailTaken(users: map<int, User>, v: Value) {
    exists k :: k in users && PyEq(users[k].email, v)
  }

  /** No two users share a username or an email address. */
  ghost predicate UniqueIdentities(users: map<int, User>) {
    forall a, b :: a in users && b in users && a != b ==>
      !PyEq(users[a].username, users[b].username) && !PyEq(users[a].email, users[b].email)
  }

  /** `Post.query.filter_by(user_id=userId)`: the ids of the user's posts. */
  function PostsOf(posts: map<int, Post>, userId: int): (ids: set<int>)
    ensures ids <= posts.Keys
    ensures forall k :: k in posts && PyEq(posts[k].userId, Int(userId)) ==> k in ids
    ensures forall k :: k in ids ==> PyEq(posts[k].userId, Int(userId))
  {
    set k | k in posts && PyEq(posts[k].userId, Int(userId))
  }

  /** Storing post `k` lists it under its author alone: it leaves every other
      user's list and joins its author's. */
  lemma PostsOfStore(posts: map<int, Post>, k: int, p: Post, userId: int)
    ensures PostsOf(posts[k := p], userId)
         == (PostsOf(posts, userId) - {k}) + (if PyEq(p.userId, Int(userId)) then {k} else {})
  {
    var after := posts[k := p];
    forall j | j in PostsOf(after, userId)
      ensures j in (PostsOf(posts, userId) - {k}) + (if PyEq(p.userId, Int(userId)) then {k} else {})
    {
      if j != k {
        assert after[j] == posts[j];
      }
    }
    forall j | j in (PostsOf(posts, userId) - {k}) + (if PyEq(p.userId, Int(userId)) then {k} else {})
      ensures j in PostsOf(after, userId)
    {
      if j != k {
        assert after[j] == posts[j];
      }
    }
  }

  /** Removing post `k` takes it out of every list and changes nothing else. */
  lemma PostsOfRemove(posts: map<int, Post>, k: int, userId: int)
    ensures PostsOf(posts - {k}, userId) == PostsOf(posts, userId) - {k}
  {
    var after := posts - {k};
    forall j | j in PostsOf(after, userId)
      ensures j in PostsOf(posts, userId) - {k}
    {
      assert after[j] == posts[j];
    }
    forall j | j in PostsOf(posts, userId) - {k}
      ensures j in PostsOf(after, userId)
    {
      assert after[j] == posts[j];
    }
  }
}
