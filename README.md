# Authorization and the user/post API of a Flask microblog

This project models the request-handling core of a small Flask microblog API:
the capability requirements that guard its views (`flask_allows`
requirements reading the authenticated user, the route arguments and the JSON
body), the order in which a view's decorators run (authentication outside the
requirement), the user and post resources that read and change the stored
users and posts, the typed 400 errors they raise, and the handler that turns an
HTTP error into a JSON reply. The earlier function-style user views and their
requirements are modelled as a second, separate set of views over the same tables.

Layout, one module per source file:

- `values.dfy` (`Values`): decoded JSON values and Python's `==` on them (`1 == 1.0 == True`), and `request.get_json() or {}`.
- `exceptions.dfy` (`Exceptions`): the `BadRequest` subclasses and their descriptions.
- `error_handlers.dfy` (`ErrorHandlers`): `error_response`, with the table of reason phrases as a parameter.
- `models.dfy` (`Models`): the fields of users and posts the handlers touch, `from_dict`, and the `filter_by` lookups.
- `http.dfy` (`Http`): outcomes (a response, an `abort(code)`, or a raised `HTTPException`), bodies, links, verdicts, and `Step`.
  `Step` is the outcome of a changing view paired with the table it leaves.
- `paging.dfy` (`Paging`): the `page`/`per_page` query parameters with their clamp.
- `session.dfy` (`Session`): the database session as a class `Db`.
  Its `users` and `posts` tables and id counters are changed in place by `add`, `commit` and `delete`.
- `permissions.dfy` (`Permissions`) and `authr.dfy` (`Authr`): the current and the earlier requirements.
- `decorators.dfy` (`Decorators`): a view's decorator chain and how it is run.
  A chain is listed the way `method_decorators` lists it, innermost first; the last one listed checks first.
- `user_resource.dfy` (`UserResource`), `post_resource.dfy` (`PostResource`): the resource classes.
- `legacy_users.dfy` (`LegacyUsers`): the function-style views.

Each changing view has two forms:

- a specification function over the tables, giving the outcome and the new table;
- a method over `Db` whose postcondition ties its outcome and the new state to that function.

The lemmas beside them state what the views promise. Authentication answers first, with 401. A requirement that is not met answers 403. On the caller's own route a missing `user_id` in a post-changing payload is a 400; on anyone else's route the payload is not read and the answer is 403 (an empty 404 for the earlier `create_post`). Registration and profile updates keep usernames and emails unique.

Decisions where the code is not followed to the letter, or where it and its tests part ways:

- `app/app/api/post.py:8` imports `PostRequiredFieldsIsMissing`, but `app/app/api/errors/exceptions.py` defines `PostRequiredFieldsIsMissed`. Importing a name that does not exist would stop the module from loading. The model instead raises the class that is defined, with its description.
- `app/app/api/user.py:8` takes its requirements from `app/app/authr.py`. That module has no `CanDeleteProfile`, and its checks read the route argument `id` where the route binds `user_id`. As written, the import fails and the API does not load. The resource is modelled with the requirements of `app/app/api/permissions.py`, which the route and the tests are written for. See Findings.
- `create_post` in `app/app/api/users.py` answers a foreign route, or a payload naming someone else, with an empty 404; its tests expect 403. The model follows the code and gives 404.
- `create_post` in `app/app/api/users.py` answers a payload lacking `body` or `user_id` with 'must include post_body and user_id fields'; its tests expect 'must include user_id field' and 'must include post_body field' for the two cases. The model follows the code and gives the single message.
- `per_page` is clamped only from above, as `min(per_page, 100)` does: a zero or negative value passes through.
- The descriptions of `bad_request(...)` and `invalid_post_data()` (in `app/api/errors/__init__.py`, which is not part of this model) are modelled as a 400 carrying the message the caller passes, or, for `invalid_post_data`, the registration message of `UserRequiredFieldsIsMissed`.

## Model

| member | source | states |
|---|---|---|
| Values.PyEqIsEquivalence | app/app/api/user.py:26-31 | the `==`/`!=` the views compare payload values with is reflexive, symmetric and transitive |
| Exceptions.Raise | app/app/api/errors/exceptions.py:1-22 | every typed error is a 400 whose description is the class's fixed, non-empty message |
| Exceptions.DescriptionsDistinct | app/app/api/errors/exceptions.py:4-22 | distinct error classes carry distinct messages, so a reply names its cause |
| ErrorHandlers.ErrorPayload | app/app/api/errors/handlers.py:7-11 | the payload has `error` (the reason phrase of the status, or "Unknown error") and has `message` exactly when the description is non-empty, equal to it |
| ErrorHandlers.ErrorResponse | app/app/api/errors/handlers.py:7-14 | the reply's status is the error's status code; `message` present iff there is a description; no other keys |
| ErrorHandlers.KindResponse | app/app/api/errors/handlers.py:7-14 | every typed error is answered 400 with its own message |
| Models.PostsOfStore | app/app/api/post.py:53 | storing a post changes the author query only at that post: it joins the list of the user it names and leaves every other |
| Models.PostsOfRemove | app/app/api/post.py:53 | deleting a post takes it out of every user's list and changes nothing else |
| Paging.Params | app/app/api/post.py:51-52 | page defaults to 1; per_page defaults to 10 and never exceeds 100, kept when at most 100 and clamped to 100 above |
| Session.Db.AddUser | app/app/api/user.py:64-66 | the new user gets a fresh id, the next one, and the user counter moves past it; only the user table gains that entry |
| Session.Db.SetUser | app/app/api/user.py:32-33 | only the given user's record is replaced |
| Session.Db.DeleteUser | app/app/api/user.py:38-39 | only the given user is removed |
| Session.Db.AddPost | app/app/api/post.py:64-66 | the new post gets a fresh id, the next one, and the post counter moves past it; only the post table gains that entry |
| Session.Db.SetPost | app/app/api/post.py:30-31 | only the given post's record is replaced |
| Session.Db.DeletePost | app/app/api/post.py:37-39 | only the given post is removed |
| Permissions.OwnerIdInData | app/app/api/permissions.py:31-35 | raises UserIdFieldIsMissed iff the payload lacks `user_id`; fulfilled iff it equals the caller's id |
| Permissions.Fulfill | app/app/api/permissions.py:10-43 | profile requirements hold iff the caller owns the route; post requirements iff, in addition, the payload's `user_id` is the caller; the 400 only on the caller's own route; a foreign route is always unfulfilled |
| Permissions.PostRequirementsAgree | app/app/api/permissions.py:18-43 | CanUpdatePost and CanDeletePost decide as CanCreatePost; CanDeleteProfile as CanUpdateProfile |
| Permissions.ForeignRouteIgnoresPayload | app/app/api/permissions.py:27-29 | on somebody else's route every requirement is unfulfilled whatever the payload, because `and` stops before the payload |
| Authr.OverrideAgrees | app/app/authr.py:9-19 | CanUpdateProfile's own `is_profile_owner` decides as the mixin's |
| Authr.OwnerIdInData | app/app/authr.py:27-31 | aborts 400 "must include user_id field" iff the payload lacks `user_id`; fulfilled iff it equals the caller's id |
| Authr.Fulfill | app/app/authr.py:9-31 | CanUpdateProfile holds iff the caller owns route `id` and never raises; CanCreatePost also needs the payload's `user_id` to be the caller |
| Authr.NonJsonBodyIsEmpty | app/app/authr.py:28 | an absent or non-JSON body is decided as the empty object |
| Authr.AgreesWithPermissions | app/app/authr.py:9-31 | the earlier requirements decide exactly as the current ones, read under their own route key |
| Decorators.Admit | app/app/api/post.py:15-19 | a chain lets the view run iff every decorator in it lets the call through |
| Decorators.AdmitIsOutermostRefusal | app/app/api/post.py:15-19 | a refusal is the answer of the outermost refusing decorator; all decorators outside it passed |
| Decorators.AuthenticationOnly | app/app/api/post.py:16 | a view guarded by authentication alone runs for any authenticated caller and answers 401 otherwise |
| Decorators.AuthenticationFirst | app/app/api/post.py:17-18 | in `[requirement, login_required]` an unauthenticated caller gets 401 before the requirement runs; an authenticated one gets the requirement's answer |
| Decorators.OrderMatters | app/app/api/post.py:46-47 | listed the other way round the requirement would run first and fail with 500 instead of 401 |
| UserResource.IsValidData | app/app/api/user.py:74-77 | the registration payload is valid iff it has username, email and password |
| UserResource.UserDetailGet | app/app/api/user.py:12-21 | 401 without authentication; else the user's data, or 404 |
| UserResource.UserListGet | app/app/api/user.py:44-53 | 401 without authentication; else a page over all users whose page and per_page are the request's, defaulted and clamped |
| UserResource.PutStep | app/app/api/user.py:15-34 | 401, then 403 for a foreign profile, then 404, then the username and email clashes in that order; on success 200 with the updated user, and only that user changes, by `from_dict` |
| UserResource.UserDetailPut | app/app/api/user.py:23-34 | the outcome and new user table are those of PutStep; posts and both id counters unchanged |
| UserResource.DeleteStep | app/app/api/user.py:16-40 | 401, 403 for a foreign profile, 404, else exactly that user is removed with 200 |
| UserResource.UserDetailDelete | app/app/api/user.py:36-40 | the outcome and new user table are those of DeleteStep; posts and both id counters unchanged |
| UserResource.CreateStep | app/app/api/user.py:55-71 | 400 for missing fields, then for a taken username, then for a taken email; it succeeds iff none applies, with 201, a Location naming the new user, and only that user added, carrying the payload's username and email |
| UserResource.UserListPost | app/app/api/user.py:55-71 | the outcome and new user table are those of CreateStep with the session's next id; posts and the post counter unchanged; its own counter advances by one exactly when the request succeeds |
| UserResource.CreateReportsUsernameFirst | app/app/api/user.py:59-62 | a payload whose username and email are both taken is refused for the username |
| UserResource.UpdateClashIsWithOthers | app/app/api/user.py:26-31 | resupplying one's own username or email never clashes; a new one clashes iff another user has it |
| UserResource.PutConflictOrder | app/app/api/user.py:26-34 | for the owner: a username clash is reported first, then an email clash, else the update succeeds |
| UserResource.CreateKeepsIdentitiesUnique | app/app/api/user.py:59-66 | registration preserves unique usernames and emails |
| UserResource.PutKeepsIdentitiesUnique | app/app/api/user.py:26-33 | a profile update preserves unique usernames and emails |
| UserResource.EarlierRequirementsRefuseOwner | app/app/api/user.py:8-18 | with the earlier requirements the owner's own update is a 500; with the current ones the owner passes and anyone else gets 403 |
| PostResource.PostChainAdmits | app/app/api/post.py:17-18 | a post-changing chain lets exactly the caller on their own route with their own `user_id` through; otherwise 401, 403 or the UserIdFieldIsMissed 400 |
| PostResource.PostDetailGet | app/app/api/post.py:16-23 | any authenticated caller reads any post; 404 when absent, 401 without authentication |
| PostResource.PutStep | app/app/api/post.py:17-34 | the chain's refusals, then 404, then PostRequiredFieldsIsMissed for a missing or empty body; an admitted request for an existing post with a non-empty body succeeds with 204, and only that post changes, by `from_dict` |
| PostResource.PostDetailPut | app/app/api/post.py:25-34 | the outcome and new post table are those of PutStep; users and both id counters unchanged |
| PostResource.DeleteStep | app/app/api/post.py:18-40 | the chain's refusals, then 404, else exactly that post is removed with 200 |
| PostResource.PostDetailDelete | app/app/api/post.py:36-40 | the outcome and new post table are those of DeleteStep; users and both id counters unchanged |
| PostResource.PostListGet | app/app/api/post.py:45-56 | 401, 404 for an unknown user, else a page over exactly that user's posts whose page and per_page are the request's, defaulted and clamped |
| PostResource.CreateStep | app/app/api/post.py:46-71 | the chain's refusals, then 404, then PostRequiredFieldsIsMissed; it succeeds iff the caller is admitted, the user exists and the payload has a body, with 201, a Location naming the new post, and only that post added, built from the payload |
| PostResource.PostListPost | app/app/api/post.py:58-71 | the outcome and new post table are those of CreateStep with the session's next id; users and the user counter unchanged; its own counter advances by one exactly when the request succeeds |
| PostResource.ChangesIgnoreStoredAuthor | app/app/api/post.py:25-40 | update and delete answer the same whoever the post's stored author is |
| PostResource.AnyCallerDeletesAnyPost | app/app/api/post.py:36-40 | any authenticated user deletes any post by naming themselves in the route and payload |
| PostResource.CreatedPostIsListed | app/app/api/post.py:53-71 | after a create, the author's list view shows exactly the earlier posts plus the new one |
| PostResource.CreatedPostIsListedOnce | app/app/api/post.py:53-71 | a create leaves every other user's list unchanged |
| PostResource.DeletedPostIsUnlisted | app/app/api/post.py:36-40 | after a delete, every user's list is the old one without the deleted post |
| PostResource.AnyCallerTakesOverAnyPost | app/app/api/post.py:25-34 | any authenticated user rewrites any post, which then names them as author |
| LegacyUsers.GetUser | app/app/api/users.py:11-14 | 401 without authentication; else the user's data, or 404 |
| LegacyUsers.GetUsers | app/app/api/users.py:17-23 | 401 without authentication; else a page over all users whose page and per_page are the request's, defaulted and clamped |
| LegacyUsers.CreateUserStep | app/app/api/users.py:46-62 | 400 for missing fields, then a taken username, then a taken email, each with its message; it succeeds iff none applies, with 201, a Location naming the new user, and only that user added, built from the payload |
| LegacyUsers.CreateUser | app/app/api/users.py:46-62 | the outcome and new user table are those of CreateUserStep with the session's next id; posts and the post counter unchanged; its own counter advances by one exactly when the request succeeds |
| LegacyUsers.CreateUserAgrees | app/app/api/users.py:46-62 | registration here answers and stores exactly as `UserList.post` does |
| LegacyUsers.UpdateUserStep | app/app/api/users.py:65-79 | 401, 403 for a foreign profile, then the clashes; on success 200 with the updated user, and only the owner's record changes |
| LegacyUsers.UpdateUser | app/app/api/users.py:65-79 | the outcome and new user table are those of UpdateUserStep; posts and both id counters unchanged |
| LegacyUsers.UpdateUserAgrees | app/app/api/users.py:65-79 | the profile update here equals `UserDetail.put` on every input |
| LegacyUsers.GetUserPosts | app/app/api/users.py:82-90 | 401, 404 for an unknown user, else a page over exactly that user's posts whose page and per_page are the request's, defaulted and clamped |
| LegacyUsers.CreatePostStep | app/app/api/users.py:93-111 | 401, 404, an empty 404 for a foreign route, the 400 for missing fields, an empty 404 when `user_id` does not equal the caller; a 201 only then, adding only the new post, built from the payload, with a Location naming it |
| LegacyUsers.CreatePostAccepts | app/app/api/users.py:93-111 | the owner of an existing profile whose payload has a body and names them as `user_id` always gets the post created with 201 |
| LegacyUsers.CreatePost | app/app/api/users.py:93-111 | the outcome and new post table are those of CreatePostStep with the session's next id; users and the user counter unchanged; its own counter advances by one exactly when the request succeeds |
| LegacyUsers.CreatePostForeignUserIdIs404 | app/app/api/users.py:102-103 | for any payload with a body, a `user_id` that does not equal the caller, such as another user's id, adds nothing and is answered with an empty 404 |
| LegacyUsers.GetUserPostUrl | app/app/api/users.py:110 | a URL for the post detail route exists iff both `user_id` and `post_id` are given |
| LegacyUsers.CreatedPostLocation | app/app/api/users.py:110 | the Location asked for with `id` alone cannot be built; with the route's own arguments it names the new post |
| LegacyUsers.GetUserPost | app/app/api/users.py:114-117 | any authenticated caller reads any post; 404 when absent |

## Left out

- Token authentication itself (`app/api/auth.py` is not part of this model): a request is reduced to the authenticated user's id, or none. The body of the 401 reply is not modelled.
- The bodies of the 403, 404 and 500 replies that Flask and werkzeug produce are not modelled; only their status is.
- Followers (`follow`, `get_followers`, `get_followed` and `app/app/api/follower.py`), tokens and background tasks are outside this core.
- `to_collection_dict`: a list reply is modelled as its page, its per-page size and the set of ids it pages over. The slicing, ordering and links are not modelled.
- `to_dict` and the post schema are modelled as the stored record with its id. Password hashing, and the password that `from_dict` takes for a new user, are not modelled.
- `PostsOf`, `UsernameTaken`, `EmailTaken`, `LegacyUsers.NamesCaller`: SQL equality in `filter_by` is modelled as Python `==` on the stored JSON value. Column types and the database's coercion are not modelled: SQLite, for instance, matches the string `"1"` against the id 1, where Python `==` does not.
- `Models.PostFromDict`: `Post.from_dict` (in `app/models.py`) is not part of this model. It is assumed to copy `body`, `user_id` and `language` from the payload when present, so a payload `user_id` replaces the stored author. `AnyCallerTakesOverAnyPost` rests on that assumption.
- `HttpError.code`: `error_response` reads `error.status_code`, while werkzeug's `BadRequest` carries `code`. The model treats the two as one attribute, so `KindResponse` assumes the typed errors reach the handler with a status code of 400.
- JSON numbers are modelled as integers and reals: `NaN` and `Infinity`, which Python's `json` accepts, cannot be represented.
- `Values.PyEq`: JSON arrays and objects are kept as their text and compare by it, so `[1]` and `[1.0]`, or two objects with their keys in another order, count as different where Python's `==` finds them equal.
- Deleting a user leaves that user's posts in place. What the ORM cascades is not part of this model.
- Each request is modelled as atomic; concurrent requests and a failed commit are not modelled.
- A JSON body that is not an object (a list, a number) is not modelled: bodies are objects or absent.
- `LegacyUsers.CreatePostStep` uses the Location its route evidently intended; the as-written failure is recorded under Findings.
- The reason-phrase table of `error_response` is a parameter: werkzeug's table is not part of this model.

## Findings

| source | as written | input that shows it | evidently intended | confidence | as-written member | corrected member |
|---|---|---|---|---|---|---|
| app/app/api/user.py:8 | the user resource imports its requirements from `app.authr`. `CanDeleteProfile` does not exist there, so the import fails and the API does not load. Even with that name supplied, those requirements read `view_args['id']`, but the route binds `user_id` | as written, importing the API package; with the name supplied, the owner of profile 1 sending PUT /users/1: the requirement's lookup of `id` fails, a 500 | import from `app.api.permissions`: the owner passes, anyone else gets 403 | high, not executed | UserResource.EarlierRequirementsRefuseOwner | UserResource.PutStep |
| app/app/api/users.py:110 | the Location of a created post is built with `url_for('api.get_user_post', id=user.id)`, lacking the route's `user_id` and `post_id` | any successful POST /users/1/posts: the post is committed, then building the URL fails, a 500 | `url_for('api.get_user_post', user_id=user.id, post_id=post.id)` | high, not executed | LegacyUsers.CreatedPostLocation | LegacyUsers.CreatePostStep |
