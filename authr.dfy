/** The earlier requirements, written for routes whose owner argument is
    called `id`. A missing `user_id` is answered with `abort(400, ...)`. */
module Authr {
  import opened Values
  import opened Exceptions
  import opened Http
  import Permissions

  const RouteKey := "id"

  datatype Requirement = CanUpdateProfile | CanCreatePost

  /** `UserRequirementMixin.is_profile_owner`. */
  predicate MixinIsProfileOwner(identity: int, viewArgs: map<string, int>)
    requires RouteKey in viewArgs
  {
    identity == viewArgs[RouteKey]
  }

  /** `CanUpdateProfile.is_profile_owner`, which overrides the mixin's. */
  predicate UpdateProfileIsProfileOwner(identity: int, viewArgs: map<string, int>)
    requires RouteKey in viewArgs
  {
    identity == viewArgs[RouteKey]
  }

  /** The override changes nothing. */
  lemma OverrideAgrees(identity: int, viewArgs: map<string, int>)
    requires RouteKey in viewArgs
    ensures UpdateProfileIsProfileOwner(identity, viewArgs) == MixinIsProfileOwner(identity, viewArgs)
  {
  }

  /** `CanCreatePost.is_owner_id_in_data` on `request.get_json() or {}`. */
  function OwnerIdInData(identity: int, data: Payload): (v: Verdict)
    ensures v.Raised? <==> "user_id" !in data
    ensures v.Raised? ==> v.error == BadRequest("must include user_id field")
    ensures v == Fulfilled <==> "user_id" in data && PyEq(Int(identity), data["user_id"])
  {
    if "user_id" !in data then Raised(BadRequest("must include user_id field"))
    else if PyEq(Int(identity), data["user_id"]) then Fulfilled
    else Unfulfilled
  }

  function Fulfill(r: Requirement, identity: int, viewArgs: map<string, int>, json: Option<Payload>): (v: Verdict)
    requires RouteKey in viewArgs
    ensures r.CanUpdateProfile? ==> (v == Fulfilled <==> identity == viewArgs[RouteKey]) && !v.Raised?
    ensures r.CanCreatePost? ==>
      (v == Fulfilled <==>
         identity == viewArgs[RouteKey] && "user_id" in BodyOf(json) && PyEq(Int(identity), BodyOf(json)["user_id"]))
    ensures identity != viewArgs[RouteKey] ==> v == Unfulfilled
    ensures v.Raised? <==> r.CanCreatePost? && identity == viewArgs[RouteKey] && "user_id" !in BodyOf(json)
    ensures v.Raised? ==> v.error == BadRequest("must include user_id field")
  {
    match r
    case CanUpdateProfile =>
      if UpdateProfileIsProfileOwner(identity, viewArgs) then Fulfilled else Unfulfilled
    case CanCreatePost =>
      if !MixinIsProfileOwner(identity, viewArgs) then Unfulfilled
      else OwnerIdInData(identity, BodyOf(json))
  }

  /** A body that is not JSON is read as the empty mapping, so on the
      caller's own route CanCreatePost answers it with the 400. */
  lemma NonJsonBodyIsEmpty(r: Requirement, identity: int, viewArgs: map<string, int>)
    requires RouteKey in viewArgs
    ensures Fulfill(r, identity, viewArgs, None) == Fulfill(r, identity, viewArgs, Some(map[]))
  {
  }

  /** The earlier requirements decide as the current ones do, under their own
      route key; the 400 they raise is the UserIdFieldIsMissed error. */
  lemma AgreesWithPermissions(identity: int, owner: int, json: Option<Payload>)
    ensures Fulfill(CanUpdateProfile, identity, map[RouteKey := owner], json)
         == Permissions.Fulfill(Permissions.CanUpdateProfile, identity, map[Permissions.RouteKey := owner], json)
    ensures Fulfill(CanCreatePost, identity, map[RouteKey := owner], json)
         == Permissions.Fulfill(Permissions.CanCreatePost, identity, map[Permissions.RouteKey := owner], json)
  {
  }
}
