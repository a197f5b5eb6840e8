/**
 * The request permissions of the user API: each is one boolean test over the
 * requesting user, the HTTP method and the viewset action.
 */
module Permissions {

  /**
   * The requesting user as the permissions see it: anonymous, or an
   * authenticated user whose `is_owner` attribute has the given value.
   */
  datatype Requester = Anonymous | Authenticated(isOwner: bool)

  /** The HTTP methods that only read. */
  const SafeMethods: set<string> := {"GET", "HEAD", "OPTIONS"}

  /** `CreateUserPermission`: the `create` action is open to anyone, every other action needs a login. */
  predicate CreateUserPermission(user: Requester, action: string)
    ensures action == "create" ==> CreateUserPermission(user, action)
    ensures user.Authenticated? ==> CreateUserPermission(user, action)
    ensures !CreateUserPermission(user, action) ==> user == Anonymous && action != "create"
  {
    action == "create" || user.Authenticated?
  }

  /** `IsTenant`: an authenticated user who is not an owner, with a safe method. */
  predicate IsTenant(user: Requester, httpMethod: string)
    ensures IsTenant(user, httpMethod) <==> user == Authenticated(false) && ReadOnly(httpMethod)
  {
    user.Authenticated? && !user.isOwner && httpMethod in SafeMethods
  }

  /** `IsOwner`: an authenticated owner, whatever the method. */
  predicate IsOwner(user: Requester)
    ensures IsOwner(user) <==> user == Authenticated(true)
  {
    user.Authenticated? && user.isOwner
  }

  /** `ReadOnly`: a safe method, whoever asks. */
  predicate ReadOnly(httpMethod: string)
    ensures ReadOnly(httpMethod) <==> httpMethod == "GET" || httpMethod == "HEAD" || httpMethod == "OPTIONS"
  {
    httpMethod in SafeMethods
  }

  /** An anonymous caller passes `CreateUserPermission` for `create` only. */
  lemma AnonymousOnlyCreates(action: string)
    ensures CreateUserPermission(Anonymous, action) <==> action == "create"
  {
  }

  /** No request is both a tenant's and an owner's. */
  lemma TenantOwnerExclusive(user: Requester, httpMethod: string)
    ensures !(IsTenant(user, httpMethod) && IsOwner(user))
  {
  }

  /** A tenant only reads. */
  lemma TenantReadsOnly(user: Requester, httpMethod: string)
    ensures IsTenant(user, httpMethod) ==> ReadOnly(httpMethod)
  {
  }

  /** An authenticated user with a safe method is exactly one of tenant and owner. */
  lemma TenantOrOwner(user: Requester, httpMethod: string)
    requires user.Authenticated? && ReadOnly(httpMethod)
    ensures IsTenant(user, httpMethod) != IsOwner(user)
  {
  }

  /** Anyone passing `IsTenant` or `IsOwner` passes `CreateUserPermission` for every action. */
  lemma RolesAreLoggedIn(user: Requester, httpMethod: string, action: string)
    ensures IsTenant(user, httpMethod) || IsOwner(user) ==> CreateUserPermission(user, action)
  {
  }
}
