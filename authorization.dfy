/**
 * The auth service's permission decision: a user's permission names against
 * the permission names an endpoint accepts, with "*.*" granting everything.
 */
module Authorization {
  import opened Wrappers

  /** The permission that grants every endpoint. */
  const Wildcard: string := "*.*"

  /** The early-return loop: some user permission, in list order, is among the endpoint's. */
  function AnyGranted(userPermissions: seq<string>, endpointPermissions: seq<string>): (r: bool)
    ensures r <==> exists i :: 0 <= i < |userPermissions| && userPermissions[i] in endpointPermissions
  {
    if userPermissions == [] then false
    else if userPermissions[0] in endpointPermissions then true
    else
      assert forall i :: 1 <= i < |userPermissions| ==> userPermissions[i] == userPermissions[1..][i - 1];
      AnyGranted(userPermissions[1..], endpointPermissions)
  }

  /**
   * `required_permissions`: granted iff the user holds the wildcard or a
   * permission the endpoint lists; an empty user list is never granted.
   */
  function RequiredPermissions(permissionsNames: seq<string>, endpointPermissions: seq<string>): (r: bool)
    ensures r <==> Wildcard in permissionsNames || exists p :: p in permissionsNames && p in endpointPermissions
    ensures permissionsNames == [] ==> !r
  {
    if Wildcard in permissionsNames then true
    else AnyGranted(permissionsNames, endpointPermissions)
  }

  /** The decision depends on which names each list holds, not on their order or repetition. */
  lemma RequiredPermissionsOrderFree(a: seq<string>, a': seq<string>, e: seq<string>, e': seq<string>)
    requires forall p :: p in a <==> p in a'
    requires forall p :: p in e <==> p in e'
    ensures RequiredPermissions(a, e) == RequiredPermissions(a', e')
  {
  }

  /** What `authorize_service` makes of the bearer token. */
  datatype AccessToken =
    | Rejected                                      // `jwt_required` raised
    | Accepted(permissions: Option<seq<string>>)    // the raw claims' "permissions", if present

  datatype AuthError =
    | Unauthorized   // the token failed `jwt_required`
    | KeyError       // the token carries no "permissions" claim

  /**
   * `AuthorizationChecker.__call__`: a token that fails validation or lacks the
   * permissions claim raises; otherwise the claim is decided as by `required_permissions`.
   */
  function AuthorizationCheck(token: AccessToken, requiredPermissions: seq<string>): (r: Result<bool, AuthError>)
    ensures token.Rejected? <==> r == Failure(Unauthorized)
    ensures r == Failure(KeyError) <==> token.Accepted? && token.permissions.None?
    ensures r == Success(true) <==>
              token.Accepted? && token.permissions.Some? &&
              (Wildcard in token.permissions.value ||
               exists p :: p in token.permissions.value && p in requiredPermissions)
  {
    match token
    case Rejected => Failure(Unauthorized)
    case Accepted(None) => Failure(KeyError)
    case Accepted(Some(userPermissions)) => Success(RequiredPermissions(userPermissions, requiredPermissions))
  }
}
