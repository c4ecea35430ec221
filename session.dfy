/** The database session: the committed user and post tables. Every request
    runs as one unit, so a handler's adds, updates and deletes followed by
    `db.session.commit()` are each one step here. */
module Session {
  import opened Models

  class Db {
    var users: map<int, User>
    var posts: map<int, Post>
    /** The ids the next inserted user and post receive (autoincrement). */
    var nextUserId: int
    var nextPostId: int

    ghost predicate Valid()
      reads this
    {
      && (forall k :: k in users ==> k < nextUserId)
      && (forall k :: k in posts ==> k < nextPostId)
    }

    constructor ()
      ensures Valid()
      ensures users == map[] && posts == map[]
    {
      users, posts := map[], map[];
      nextUserId, nextPostId := 1, 1;
    }

    /** `db.session.add(user)`; the user gets the next id. */
    method AddUser(u: User) returns (id: int)
      requires Valid()
      modifies this
      ensures Valid()
      ensures id == old(nextUserId) && id !in old(users)
      ensures nextUserId == old(nextUserId) + 1
      ensures users == old(users)[id := u]
      ensures posts == old(posts) && nextPostId == old(nextPostId)
    {
      id := nextUserId;
      users := users[id := u];
      nextUserId := nextUserId + 1;
    }

    /** Changing a stored user's fields in place. */
    method SetUser(id: int, u: User)
      requires Valid() && id in users
      modifies this
      ensures Valid()
      ensures users == old(users)[id := u]
      ensures posts == old(posts)
      ensures nextUserId == old(nextUserId) && nextPostId == old(nextPostId)
    {
      users := users[id := u];
    }

    /** `db.session.delete(user)`. */
    method DeleteUser(id: int)
      requires Valid()
      modifies this
      ensures Valid()
      ensures users == old(users) - {id}
      ensures posts == old(posts)
      ensures nextUserId == old(nextUserId) && nextPostId == old(nextPostId)
    {
      users := users - {id};
    }

    /** `db.session.add(post)`; the post gets the next id. */
    method AddPost(p: Post) returns (id: int)
      requires Valid()
      modifies this
      ensures Valid()
      ensures id == old(nextPostId) && id !in old(posts)
      ensures nextPostId == old(nextPostId) + 1
      ensures posts == old(posts)[id := p]
      ensures users == old(users) && nextUserId == old(nextUserId)
    {
      id := nextPostId;
      posts := posts[id := p];
      nextPostId := nextPostId + 1;
    }

    /** Changing a stored post's fields in place. */
    method SetPost(id: int, p: Post)
      requires Valid() && id in posts
      modifies this
      ensures Valid()
      ensures posts == old(posts)[id := p]
      ensures users == old(users)
      ensures nextUserId == old(nextUserId) && nextPostId == old(nextPostId)
    {
      posts := posts[id := p];
    }

    /** `db.session.delete(post)`. */
    method DeletePost(id: int)
      requires Valid()
      modifies this
      ensures Valid()
      ensures posts == old(posts) - {id}
      ensures users == old(users)
      ensures nextUserId == old(nextUserId) && nextPostId == old(nextPostId)
    {
      posts := posts - {id};
    }
  }
}
