/** The chain of checks a view is wrapped in. flask_restful applies a
    resource's `method_decorators` in list order, each wrapping the view built
    so far, so the LAST one listed is the outermost and checks first. A chain
    here is listed in that same order: innermost first. (A stack of `@`
    decorators above a function reads the other way: the bottom one is
    innermost.) */
module Decorators {
  import opened Values
  import opened Http
  import Permissions
  import Authr

  datatype Decorator =
      /** `token_auth.login_required`. */
    | LoginRequired
      /** `allows.requires(...)` with one of the current requirements. */
    | Requires(r: Permissions.Requirement)
      /** `allows.requires(...)` with one of the earlier requirements. */
    | RequiresLegacy(lr: Authr.Requirement)

  /** What an unfulfilled or raising requirement turns into: flask_allows
      answers `False` with 403; a raised error propagates as it is. */
  function Refusal(v: Verdict): (o: Option<Outcome>)
    ensures o.None? <==> v == Fulfilled
    ensures v == Unfulfilled ==> o == Some(Abort(403))
    ensures v.Raised? ==> o == Some(Fail(v.error))
  {
    match v
    case Fulfilled => None
    case Unfulfilled => Some(Abort(403))
    case Raised(e) => Some(Fail(e))
  }

  /** The check one decorator makes before calling inward; `None` lets the
      call through. A requirement evaluated before anyone is authenticated
      finds no `g.current_user`, and one whose route lacks the argument it
      reads raises KeyError: both are uncaught Python errors (500). */
  function Guard(d: Decorator, identity: Option<int>, viewArgs: map<string, int>, json: Option<Payload>): (o: Option<Outcome>)
    ensures d.LoginRequired? ==> (o.Some? <==> identity.None?)
    ensures o.Some? && d.LoginRequired? ==> o.value == Abort(401)
  {
    match d
    case LoginRequired =>
      if identity.None? then Some(Abort(401)) else None
    case Requires(r) =>
      if identity.None? || Permissions.RouteKey !in viewArgs then Some(Abort(500))
      else Refusal(Permissions.Fulfill(r, identity.value, viewArgs, json))
    case RequiresLegacy(r) =>
      if identity.None? || Authr.RouteKey !in viewArgs then Some(Abort(500))
      else Refusal(Authr.Fulfill(r, identity.value, viewArgs, json))
  }

  /** Running the chain from the outside in: the first refusal met is the
      answer; `None` means the view itself runs. */
  function Admit(chain: seq<Decorator>, identity: Option<int>, viewArgs: map<string, int>, json: Option<Payload>): (o: Option<Outcome>)
    ensures o.None? <==> forall i :: 0 <= i < |chain| ==> Guard(chain[i], identity, viewArgs, json).None?
    decreases |chain|
  {
    if chain == [] then None
    else
      var outer := Guard(chain[|chain| - 1], identity, viewArgs, json);
      if outer.Some? then outer
      else Admit(chain[..|chain| - 1], identity, viewArgs, json)
  }

  /** A refusal comes from the outermost decorator that refuses: every
      decorator outside it let the call through. */
  lemma {:induction false} AdmitIsOutermostRefusal(chain: seq<Decorator>, identity: Option<int>, viewArgs: map<string, int>, json: Option<Payload>)
    requires Admit(chain, identity, viewArgs, json).Some?
    ensures exists i :: (0 <= i < |chain|
      && Admit(chain, identity, viewArgs, json) == Guard(chain[i], identity, viewArgs, json)
      && forall j :: i < j < |chain| ==> Guard(chain[j], identity, viewArgs, json).None?)
    decreases |chain|
  {
    var last := |chain| - 1;
    if Guard(chain[last], identity, viewArgs, json).Some? {
      assert Admit(chain, identity, viewArgs, json) == Guard(chain[last], identity, viewArgs, json);
    } else {
      var inner := chain[..last];
      AdmitIsOutermostRefusal(inner, identity, viewArgs, json);
      var i :| 0 <= i < |inner|
        && Admit(inner, identity, viewArgs, json) == Guard(inner[i], identity, viewArgs, json)
        && forall j :: i < j < |inner| ==> Guard(inner[j], identity, viewArgs, json).None?;
      assert inner[i] == chain[i];
      forall j | i < j < |chain|
        ensures Guard(chain[j], identity, viewArgs, json).None?
      {
        if j < last {
          assert inner[j] == chain[j];
        }
      }
    }
  }

  /** A view guarded by authentication alone runs for any authenticated caller. */
  lemma AuthenticationOnly(identity: Option<int>, viewArgs: map<string, int>, json: Option<Payload>)
    ensures Admit([LoginRequired], identity, viewArgs, json) == if identity.None? then Some(Abort(401)) else None
  {
    assert [LoginRequired][..0] == [];
  }

  /** The chains every guarded view in this API has: a requirement inside
      authentication. Authentication answers first; the requirement is
      consulted only for an authenticated caller. */
  lemma AuthenticationFirst(inner: Decorator, identity: Option<int>, viewArgs: map<string, int>, json: Option<Payload>)
    ensures identity.None? ==> Admit([inner, LoginRequired], identity, viewArgs, json) == Some(Abort(401))
    ensures identity.Some? ==> Admit([inner, LoginRequired], identity, viewArgs, json) == Guard(inner, identity, viewArgs, json)
  {
    var chain := [inner, LoginRequired];
    assert chain[..1] == [inner];
    assert chain[..1][..0] == [];
  }

  /** Listed the other way round, the requirement would run before anyone is
      authenticated and fail with 500 instead of 401. */
  lemma OrderMatters(r: Permissions.Requirement, viewArgs: map<string, int>, json: Option<Payload>)
    ensures Admit([LoginRequired, Requires(r)], None, viewArgs, json) == Some(Abort(500))
    ensures Admit([Requires(r), LoginRequired], None, viewArgs, json) == Some(Abort(401))
  {
    AuthenticationFirst(Requires(r), None, viewArgs, json);
  }
}
