/**
 * The authorization filter that guards every endpoint marked with the
 * claims attribute.  An anonymous endpoint passes untouched; an
 * unauthenticated user is answered 401; an endpoint with an empty claims
 * list is a configuration error; otherwise the access check decides between
 * passing and 403, told whether the user is a super user.
 */
module Authorization {
  import opened Wrappers

  /** A claim of the user's token. */
  datatype Claim = Claim(claimType: string, value: string)

  /** The authenticated or anonymous user of a request. */
  datatype User = User(isAuthenticated: bool, claims: seq<Claim>)

  /** Endpoint metadata; only the allow-anonymous marker matters here. */
  datatype Metadata = AllowAnonymous | OtherMetadata(name: string)

  /** The endpoint a request is routed to; the feature or the endpoint may be absent. */
  datatype Request = Request(endpoint: Option<seq<Metadata>>, user: User, path: string)

  /** The result a filter can set on the context. */
  datatype ActionResult = UnauthorizedResult | ForbidResult | OtherResult

  datatype FilterError =
    | ArgumentNull(parameter: string)
    | AuthenticationException(path: string)

  /** The role claim type and the super-user role. */
  const RoleType: string := "teta_role"
  const SuperUserRole: string := "TETACOM_SU"

  /**
   * The application's access check: given the user, the request, the
   * required claims and the super-user flag, whether access is granted.
   */
  type AccessCheck = (User, Request, seq<string>, bool) -> bool

  /** HasRole: some claim of the role type carries the role. */
  function HasRole(claims: seq<Claim>, role: string): (r: bool)
    ensures r <==> exists i :: 0 <= i < |claims| && claims[i] == Claim(RoleType, role)
    decreases |claims|
  {
    if |claims| == 0 then false
    else if claims[0] == Claim(RoleType, role) then true
    else
      var rest := HasRole(claims[1..], role);
      assert forall i :: 1 <= i < |claims| ==> claims[i] == claims[1..][i - 1];
      if rest then
        var i :| 0 <= i < |claims[1..]| && claims[1..][i] == Claim(RoleType, role);
        assert claims[i + 1] == Claim(RoleType, role);
        rest
      else rest
  }

  function IsSuperUser(u: User): bool
  {
    HasRole(u.claims, SuperUserRole)
  }

  /** Whether the endpoint's metadata holds the allow-anonymous marker. */
  predicate IsAnonymous(r: Request)
  {
    r.endpoint.Some? && AllowAnonymous in r.endpoint.value
  }

  /** What the filter does with a request: the result it sets (if any) or the exception it raises. */
  datatype Decision = Proceed | Respond(result: ActionResult) | Raise(error: FilterError)

  function Decide(claims: seq<string>, check: AccessCheck, r: Request): (d: Decision)
    ensures IsAnonymous(r) ==> d == Proceed
    ensures !IsAnonymous(r) && !r.user.isAuthenticated ==> d == Respond(UnauthorizedResult)
    ensures !IsAnonymous(r) && r.user.isAuthenticated && |claims| == 0 ==> d == Raise(AuthenticationException(r.path))
    ensures !IsAnonymous(r) && r.user.isAuthenticated && |claims| > 0 ==>
              (d == Proceed <==> check(r.user, r, claims, IsSuperUser(r.user))) &&
              (d == Respond(ForbidResult) <==> !check(r.user, r, claims, IsSuperUser(r.user)))
  {
    if IsAnonymous(r) then Proceed
    else if r.user.isAuthenticated then
      if |claims| == 0 then Raise(AuthenticationException(r.path))
      else if check(r.user, r, claims, IsSuperUser(r.user)) then Proceed
      else Respond(ForbidResult)
    else Respond(UnauthorizedResult)
  }

  /** The filter context: the result the pipeline will answer with, if a filter sets one. */
  class FilterContext {
    var result: Option<ActionResult>

    constructor()
      ensures result == None
    {
      result := None;
    }
  }

  /** The filter built for one attribute: the claims it requires and the access check. */
  class AuthorizationFilter {
    const claims: seq<string>
    const check: AccessCheck

    constructor(claims: seq<string>, check: AccessCheck)
      ensures this.claims == claims && this.check == check
    {
      this.claims := claims;
      this.check := check;
    }

    /** OnAuthorizationAsync: sets the context's result or raises, as Decide says. */
    method OnAuthorization(context: FilterContext, r: Request) returns (outcome: Outcome<FilterError>)
      modifies context
      ensures Decide(claims, check, r).Raise? <==> outcome.Fail?
      ensures outcome.Fail? ==> outcome.error == Decide(claims, check, r).error
      ensures Decide(claims, check, r).Respond? ==> context.result == Some(Decide(claims, check, r).result)
      ensures !Decide(claims, check, r).Respond? ==> context.result == old(context.result)
    {
      if IsAnonymous(r) {
        return Pass;
      }
      if r.user.isAuthenticated {
        if |claims| == 0 {
          return Fail(AuthenticationException(r.path));
        }
        var isSu := HasRole(r.user.claims, SuperUserRole);
        var granted := check(r.user, r, claims, isSu);
        if granted {
          return Pass;
        }
        context.result := Some(ForbidResult);
      } else {
        context.result := Some(UnauthorizedResult);
      }
      outcome := Pass;
    }
  }

  /** The constructor's guards: a missing claims list or access check is rejected. */
  method NewAuthorizationFilter(claims: Option<seq<string>>, check: Option<AccessCheck>)
    returns (r: Result<AuthorizationFilter, FilterError>)
    ensures claims.None? ==> r == Err(ArgumentNull("claims"))
    ensures claims.Some? && check.None? ==> r == Err(ArgumentNull("authImplementation"))
    ensures claims.Some? && check.Some? ==>
              r.Ok? && fresh(r.value) && r.value.claims == claims.value && r.value.check == check.value
  {
    if claims.None? {
      return Err(ArgumentNull("claims"));
    }
    if check.None? {
      return Err(ArgumentNull("authImplementation"));
    }
    var f := new AuthorizationFilter(claims.value, check.value);
    return Ok(f);
  }

  /**
   * The two grant attributes pass no claims, so every authenticated request
   * to an endpoint they guard that is not marked anonymous raises, whatever
   * the access check would say.
   */
  lemma GrantAttributesRaise(check: AccessCheck, r: Request)
    requires r.user.isAuthenticated && !IsAnonymous(r)
    ensures Decide([], check, r).Raise?
  {
  }

  /** The super-user flag handed to the access check is exactly the presence of the role claim. */
  lemma SuperUserFlag(u: User)
    ensures IsSuperUser(u) <==> Claim("teta_role", "TETACOM_SU") in u.claims
  {
  }

  /** A request is never both answered 401 and checked for access: 401 is for unauthenticated users only. */
  lemma UnauthorizedOnlyAnonymousUsers(claims: seq<string>, check: AccessCheck, r: Request)
    ensures Decide(claims, check, r) == Respond(UnauthorizedResult) <==> !IsAnonymous(r) && !r.user.isAuthenticated
  {
  }
}
