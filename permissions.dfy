/** The capability requirements the resource views are guarded by. Each is a
    predicate over the authenticated user's id, the route's arguments and
    the JSON payload; none of them looks at the stored data. */
module Permissions {
  import opened Values
  import opened Exceptions
  import opened Http

  /** The route argument naming the profile owner. */
  const RouteKey := "user_id"

  datatype Requirement =
    | CanUpdateProfile
    | CanDeleteProfile
    | CanCreatePost
    | CanUpdatePost
    | CanDeletePost

  /** The post requirements inherit CanCreatePost's `fulfill`, which also
      inspects the payload; the profile ones use the mixin's. */
  predicate ChecksPayload(r: Requirement) {
    r.CanCreatePost? || r.CanUpdatePost? || r.CanDeletePost?
  }

  /** `UserRequirementMixin.is_profile_owner`. */
  predicate IsProfileOwner(identity: int, viewArgs: map<string, int>)
    requires RouteKey in viewArgs
  {
    identity == viewArgs[RouteKey]
  }

  /** `CanCreatePost.is_owner_id_in_data` on `request.get_json() or {}`. */
  function OwnerIdInData(identity: int, data: Payload): (v: Verdict)
    ensures v.Raised? <==> "user_id" !in data
    ensures v.Raised? ==> v.error == Raise(UserIdFieldIsMissed)
    ensures v == Fulfilled <==> "user_id" in data && PyEq(Int(identity), data["user_id"])
  {
    if "user_id" !in data then Raised(Raise(UserIdFieldIsMissed))
    else if PyEq(Int(identity), data["user_id"]) then Fulfilled
    else Unfulfilled
  }

  /** `fulfill` of each requirement. For the post requirements it is
      `is_profile_owner(...) and is_owner_id_in_data(...)`: Python's `and`
      consults the payload only once the route owner matches. */
  function Fulfill(r: Requirement, identity: int, viewArgs: map<string, int>, json: Option<Payload>): (v: Verdict)
    requires RouteKey in viewArgs
    ensures !ChecksPayload(r) ==> (v == Fulfilled <==> identity == viewArgs[RouteKey])
    ensures ChecksPayload(r) ==>
      (v == Fulfilled <==>
         identity == viewArgs[RouteKey] && "user_id" in BodyOf(json) && PyEq(Int(identity), BodyOf(json)["user_id"]))
    ensures identity != viewArgs[RouteKey] ==> v == Unfulfilled
    ensures v.Raised? <==> ChecksPayload(r) && identity == viewArgs[RouteKey] && "user_id" !in BodyOf(json)
    ensures v.Raised? ==> v.error == Raise(UserIdFieldIsMissed)
  {
    if !IsProfileOwner(identity, viewArgs) then Unfulfilled
    else if !ChecksPayload(r) then Fulfilled
    else OwnerIdInData(identity, BodyOf(json))
  }

  /** CanUpdatePost and CanDeletePost add nothing to CanCreatePost: deleting
      a post, too, demands a `user_id` in the payload. */
  lemma PostRequirementsAgree(identity: int, viewArgs: map<string, int>, json: Option<Payload>)
    requires RouteKey in viewArgs
    ensures Fulfill(CanUpdatePost, identity, viewArgs, json) == Fulfill(CanCreatePost, identity, viewArgs, json)
    ensures Fulfill(CanDeletePost, identity, viewArgs, json) == Fulfill(CanCreatePost, identity, viewArgs, json)
    ensures Fulfill(CanDeleteProfile, identity, viewArgs, json) == Fulfill(CanUpdateProfile, identity, viewArgs, json)
  {
  }

  /** On somebody else's route the answer is a denial whatever the payload
      holds, even a payload without `user_id`. */
  lemma ForeignRouteIgnoresPayload(r: Requirement, identity: int, viewArgs: map<string, int>, j1: Option<Payload>, j2: Option<Payload>)
    requires RouteKey in viewArgs && identity != viewArgs[RouteKey]
    ensures Fulfill(r, identity, viewArgs, j1) == Fulfill(r, identity, viewArgs, j2) == Unfulfilled
  {
  }
}
