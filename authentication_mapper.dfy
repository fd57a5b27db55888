/** The OpenID authentication mapper: after a successful external login it turns
    the identity provider's claims into this system's authentication decision.
    The user directory is a map from e-mail address to user, and the group-user
    service's per-group permissions lookup is a function of the user id. */
module AuthenticationMapper {
  import opened Wrappers

  /** A user as stored in the directory: its id, its e-mail and its global-admin flag. */
  datatype User = User(id: int, email: string, admin: bool)

  /** The claims read from the OpenID token; either may be null. */
  datatype OpenIdClaims = OpenIdClaims(email: Option<string>, name: Option<string>)

  /** The reasons an authentication attempt can fail with; this mapper uses only
      `USER_NOT_FOUND`. */
  datatype FailureReason =
    | UNKNOWN | USER_NOT_FOUND | CREDENTIALS_DO_NOT_MATCH | USER_DISABLED
    | ACCOUNT_EXPIRED | ACCOUNT_LOCKED | PASSWORD_EXPIRED

  /** The values placed in the authentication's attribute map; `P` is the type of
      one group's entry in the per-group permissions list. */
  datatype AttributeValue<P> =
    | UserIdValue(id: int)
    | NameValue(name: Option<string>)
    | PermissionsValue(byGroup: seq<P>)

  datatype AuthenticationResponse<P> =
    | Failure(reason: FailureReason)
    | Success(username: string, roles: seq<string>, attributes: map<string, AttributeValue<P>>)

  /** The name of the global administrator role. */
  const ADMIN: string := "ADMIN"

  const UserIdKey: string := "userId"
  const NameKey: string := "name"
  const PermissionsByGroupKey: string := "permissionsByGroup"

  /** A directory is consistent when every user is filed under its own e-mail. */
  predicate ConsistentDirectory(usersByEmail: map<string, User>)
  {
    forall e | e in usersByEmail :: usersByEmail[e].email == e
  }

  /** The user service's lookup by e-mail address: it finds a user exactly when one
      is filed under that address, and in a consistent directory the user found
      has that very e-mail. */
  function GetUserByEmail(usersByEmail: map<string, User>, email: string): (u: Option<User>)
    ensures u.Some? <==> email in usersByEmail
    ensures u.Some? ==> u.value == usersByEmail[email]
    ensures ConsistentDirectory(usersByEmail) && u.Some? ==> u.value.email == email
  {
    if email in usersByEmail then Some(usersByEmail[email]) else None
  }

  /** Fails with `USER_NOT_FOUND` when the e-mail claim is null or names no user;
      otherwise succeeds as that e-mail, with the `ADMIN` role exactly for a global
      admin, and with three attributes: the user's id, the name claim and the
      user's permissions per group. */
  function CreateAuthenticationResponse<P>(
    claims: OpenIdClaims, usersByEmail: map<string, User>, permissionsPerGroup: int -> seq<P>)
    : (r: AuthenticationResponse<P>)
    ensures r.Success? <==> claims.email.Some? && claims.email.value in usersByEmail
    ensures r.Failure? ==> r.reason == USER_NOT_FOUND
    ensures r.Success? ==> r.username == claims.email.value
    ensures r.Success? ==>
      && |r.roles| <= 1
      && (forall k | 0 <= k < |r.roles| :: r.roles[k] == ADMIN)
      && (ADMIN in r.roles <==> usersByEmail[claims.email.value].admin)
    ensures r.Success? ==> r.attributes.Keys == {UserIdKey, NameKey, PermissionsByGroupKey}
    ensures r.Success? ==>
      var user := usersByEmail[claims.email.value];
      && r.attributes[UserIdKey] == UserIdValue(user.id)
      && r.attributes[NameKey] == NameValue(claims.name)
      && r.attributes[PermissionsByGroupKey] == PermissionsValue(permissionsPerGroup(user.id))
    ensures r.Success? && ConsistentDirectory(usersByEmail) ==>
      && r.username in usersByEmail
      && usersByEmail[r.username].email == r.username
      && r.attributes[UserIdKey] == UserIdValue(usersByEmail[r.username].id)
  {
    match claims.email
    case None => Failure(USER_NOT_FOUND)
    case Some(email) =>
      match GetUserByEmail(usersByEmail, email)
      case None => Failure(USER_NOT_FOUND)
      case Some(user) =>
        var attributes := map[][UserIdKey := UserIdValue(user.id)]
                                 [NameKey := NameValue(claims.name)]
                                 [PermissionsByGroupKey := PermissionsValue(permissionsPerGroup(user.id))];
        Success(email, if user.admin then [ADMIN] else [], attributes)
  }

  /** The decision looks at the directory only under the claimed e-mail and at the
      permissions lookup only for the id found there: directories and lookups that
      agree on those give the same response. */
  lemma OnlyTheClaimedUserMatters<P>(
    claims: OpenIdClaims,
    users1: map<string, User>, users2: map<string, User>,
    perms1: int -> seq<P>, perms2: int -> seq<P>)
    requires claims.email.Some? ==>
      (claims.email.value in users1 <==> claims.email.value in users2)
    requires claims.email.Some? && claims.email.value in users1 ==>
      && users1[claims.email.value] == users2[claims.email.value]
      && perms1(users1[claims.email.value].id) == perms2(users1[claims.email.value].id)
    ensures CreateAuthenticationResponse(claims, users1, perms1) == CreateAuthenticationResponse(claims, users2, perms2)
  {
  }

  /** A failed login depends on nothing but the e-mail claim: the name claim and the
      permissions lookup never change it. */
  lemma FailureIgnoresOtherInputs<P>(
    email: Option<string>, name1: Option<string>, name2: Option<string>,
    usersByEmail: map<string, User>, perms1: int -> seq<P>, perms2: int -> seq<P>)
    requires email.None? || email.value !in usersByEmail
    ensures CreateAuthenticationResponse(OpenIdClaims(email, name1), usersByEmail, perms1) == Failure(USER_NOT_FOUND)
    ensures CreateAuthenticationResponse(OpenIdClaims(email, name2), usersByEmail, perms2) == Failure(USER_NOT_FOUND)
  {
  }

  /** Toggling a user's global-admin flag changes only the role list of that user's
      successful login: the username and the attribute map stay the same. */
  lemma AdminFlagOnlyChangesRoles<P>(
    claims: OpenIdClaims, usersByEmail: map<string, User>, email: string, permissionsPerGroup: int -> seq<P>)
    requires claims.email == Some(email) && email in usersByEmail
    ensures
      var user := usersByEmail[email];
      var asAdmin := CreateAuthenticationResponse(claims, usersByEmail[email := user.(admin := true)], permissionsPerGroup);
      var asMember := CreateAuthenticationResponse(claims, usersByEmail[email := user.(admin := false)], permissionsPerGroup);
      && asAdmin.Success? && asMember.Success?
      && asAdmin.username == asMember.username
      && asAdmin.attributes == asMember.attributes
      && asAdmin.roles == [ADMIN] && asMember.roles == []
  {
  }
}
