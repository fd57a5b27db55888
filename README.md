# DDS Permissions Manager: nonce gating and OpenID login decision

This project models two small decision procedures of the DDS Permissions Manager
(a control plane that issues DDS Security credentials to applications) and proves
what they promise.

- **The application controller** (`/api/applications`). Each handler delegates to the
  application service. The two handlers that hand out credential material, the key
  pair with client certificate and the signed permissions document, first check the
  caller's `nonce` query parameter. A nonce is accepted only when it is non-null and
  the whole of it matches `^[a-zA-Z0-9]*$`. Otherwise the handler throws
  `INVALID_NONCE_FORMAT` before the service is called. A handler's result is either
  `Rejected(code)` or `Delegated(call)`. `call` names the service operation invoked
  and the argument passed to it. The ETag-bearing handlers and the id-keyed handlers
  forward their argument unchanged. A missing ETag header is `None`.
- **The regular expression.** `String.matches` with `^[a-zA-Z0-9]*$` is modelled as a
  whole-string Kleene-star match over a bracketed character class, which is a list of
  ranges (module `NoncePattern`). It is proved equal to the reference definition,
  "every character is an ASCII letter or digit". The empty string is accepted.
- **The OpenID authentication mapper.** It turns the identity provider's claims into an
  authentication decision. The user directory is a `map` from e-mail address to user.
  The group-user service's per-group permissions lookup is a function of the user id.
  The outcome is one of two:
  - failure with `USER_NOT_FOUND`;
  - success as the claimed e-mail, with role list `["ADMIN"]` exactly for a global
    admin (otherwise empty), and an attribute map with exactly the keys `userId`,
    `name` and `permissionsByGroup`.

Files: `wrappers.dfy` (Option for null, Outcome for "returns or throws"),
`nonce_pattern.dfy`, `application_controller.dfy`, `authentication_mapper.dfy`.

## Model

| member | source | states |
|---|---|---|
| `NoncePattern.NonceClassIsAlphanumeric` | app/src/main/java/io/unityfoundation/dds/permissions/manager/ApplicationController.java:151 | the class `[a-zA-Z0-9]` contains a character iff it is an ASCII lower-case letter, upper-case letter or digit |
| `NoncePattern.FullMatchStar` | app/src/main/java/io/unityfoundation/dds/permissions/manager/ApplicationController.java:151 | whole-string match of the starred class: the empty string matches, and a match never consumes a character outside the class |
| `NoncePattern.FullMatchStarIffAll` | app/src/main/java/io/unityfoundation/dds/permissions/manager/ApplicationController.java:151 | a starred class matches the whole string iff every character of the string is in the class |
| `NoncePattern.NonceMatchIffAlphanumeric` | app/src/main/java/io/unityfoundation/dds/permissions/manager/ApplicationController.java:151 | `^[a-zA-Z0-9]*$` matches a whole string iff every character is an ASCII letter or digit |
| `ApplicationController.CheckNonceValidFormat` | app/src/main/java/io/unityfoundation/dds/permissions/manager/ApplicationController.java:150-154 | passes iff the nonce is non-null and all its characters are ASCII letters or digits; otherwise it fails with exactly `INVALID_NONCE_FORMAT` |
| `ApplicationController.Show` | app/src/main/java/io/unityfoundation/dds/permissions/manager/ApplicationController.java:58-60 | never rejects; calls the show operation with the id unchanged |
| `ApplicationController.Delete` | app/src/main/java/io/unityfoundation/dds/permissions/manager/ApplicationController.java:82-84 | never rejects; calls the delete operation with the id unchanged |
| `ApplicationController.GenerateBindToken` | app/src/main/java/io/unityfoundation/dds/permissions/manager/ApplicationController.java:96-98 | never rejects; calls the bind-token operation with the application id unchanged |
| `ApplicationController.GeneratePassphrase` | app/src/main/java/io/unityfoundation/dds/permissions/manager/ApplicationController.java:102-104 | never rejects; calls the cleartext-passphrase operation with the application id unchanged |
| `ApplicationController.GetIdentityCACertificate` | app/src/main/java/io/unityfoundation/dds/permissions/manager/ApplicationController.java:109-111 | never rejects; calls the identity-CA operation with the ETag header value unchanged, absent included |
| `ApplicationController.GetPermissionsCACertificate` | app/src/main/java/io/unityfoundation/dds/permissions/manager/ApplicationController.java:116-118 | never rejects; calls the permissions-CA operation with the ETag header value unchanged, absent included |
| `ApplicationController.GetGovernanceFile` | app/src/main/java/io/unityfoundation/dds/permissions/manager/ApplicationController.java:123-125 | never rejects; calls the governance-document operation with the ETag header value unchanged, absent included |
| `ApplicationController.GetPermissionsJson` | app/src/main/java/io/unityfoundation/dds/permissions/manager/ApplicationController.java:146-148 | never rejects; calls the permissions-JSON operation with the ETag header value unchanged, absent included |
| `ApplicationController.GetPrivateKeyAndClientCertificate` | app/src/main/java/io/unityfoundation/dds/permissions/manager/ApplicationController.java:127-133 | reaches the key-pair service iff the nonce is acceptable, and then passes it unchanged; otherwise rejects with `INVALID_NONCE_FORMAT` |
| `ApplicationController.GetPermissionsFile` | app/src/main/java/io/unityfoundation/dds/permissions/manager/ApplicationController.java:135-141 | reaches the permissions-document service iff the nonce is acceptable, and then passes it unchanged; otherwise rejects with `INVALID_NONCE_FORMAT` |
| `ApplicationController.NonceEndpointsAgree` | app/src/main/java/io/unityfoundation/dds/permissions/manager/ApplicationController.java:127-141 | the two nonce-checked endpoints reject the same nonces and, on acceptance, hand the service the same string |
| `ApplicationController.NullNonceRejected` | app/src/main/java/io/unityfoundation/dds/permissions/manager/ApplicationController.java:150-153 | a null nonce fails the check and is rejected with `INVALID_NONCE_FORMAT` on both credential endpoints |
| `ApplicationController.EmptyNonceAccepted` | app/src/main/java/io/unityfoundation/dds/permissions/manager/ApplicationController.java:151 | the empty nonce passes the check and reaches both services as the empty string |
| `ApplicationController.UnderscoreNonceRejectedForKeyPair` | app/src/test/java/io/unityfoundation/dds/permissions/manager/ApplicationApiTest.java:1807-1818 | `uni_ty` is rejected with `INVALID_NONCE_FORMAT` on the key-pair endpoint |
| `ApplicationController.UnderscoreNonceRejectedForPermissionsFile` | app/src/test/java/io/unityfoundation/dds/permissions/manager/ApplicationApiTest.java:1869-1880 | `uni_ty` is rejected with `INVALID_NONCE_FORMAT` on the permissions-document endpoint |
| `ApplicationController.UnderscoreEtagForwarded` | app/src/main/java/io/unityfoundation/dds/permissions/manager/ApplicationController.java:143-154 | `uni_ty` fails the nonce check, yet as an ETag header it reaches the permissions-JSON operation unchanged |
| `ApplicationController.LettersOnlyNonceAcceptedForKeyPair` | app/src/test/java/io/unityfoundation/dds/permissions/manager/ApplicationApiTest.java:1820-1822 | `unity` reaches the key-pair service unchanged |
| `ApplicationController.LettersOnlyNonceAcceptedForPermissionsFile` | app/src/test/java/io/unityfoundation/dds/permissions/manager/ApplicationApiTest.java:1882-1884 | `unity` reaches the permissions-document service unchanged |
| `ApplicationController.TrailingNewlineRejected` | app/src/main/java/io/unityfoundation/dds/permissions/manager/ApplicationController.java:151 | `matches` demands a whole-string match, so `"unity\n"` is rejected although `$` alone could match before a final line terminator |
| `AuthenticationMapper.GetUserByEmail` | app/src/main/java/io/unityfoundation/dds/permissions/manager/security/PermissionsManagerAuthenticationMapper.java:40 | finds a user iff one is filed under the e-mail, and in a directory where every user is filed under its own e-mail the user found has exactly that e-mail |
| `AuthenticationMapper.CreateAuthenticationResponse` | app/src/main/java/io/unityfoundation/dds/permissions/manager/security/PermissionsManagerAuthenticationMapper.java:33-55 | succeeds iff the e-mail claim is non-null and names a user, and otherwise fails with `USER_NOT_FOUND`; on success the username is the e-mail claim, and the roles are at most one entry, all `ADMIN`, with `ADMIN` present iff the user is a global admin; the attribute keys are exactly `userId`, `name` and `permissionsByGroup`, holding the user's id, the name claim and the permissions lookup for that same id; in a consistent directory the user behind `userId` is the one whose own e-mail is the username |
| `AuthenticationMapper.OnlyTheClaimedUserMatters` | app/src/main/java/io/unityfoundation/dds/permissions/manager/security/PermissionsManagerAuthenticationMapper.java:39-50 | directories and permission lookups that agree on the claimed e-mail's entry and that user's id give the same response |
| `AuthenticationMapper.FailureIgnoresOtherInputs` | app/src/main/java/io/unityfoundation/dds/permissions/manager/security/PermissionsManagerAuthenticationMapper.java:41-42 | a null or unknown e-mail fails with `USER_NOT_FOUND` whatever the name claim and the permissions lookup are |
| `AuthenticationMapper.AdminFlagOnlyChangesRoles` | app/src/main/java/io/unityfoundation/dds/permissions/manager/security/PermissionsManagerAuthenticationMapper.java:52-54 | flipping the found user's admin flag changes only the role list, from `[ADMIN]` to `[]`; the username and the attributes stay the same |

## Left out

- `index` and `save` handlers (ApplicationController.java:47-50 and 62-74): they only delegate, but their arguments are framework paging objects and validated DTOs. Those types are not part of this model.
- ApplicationService, UserService and GroupUserService are not part of this model. What the service does with a forwarded call is not modelled: ETag comparison, key and certificate generation, document signing, bind tokens, passphrases. The model records only which operation is called and with which argument.
- The per-group permissions lookup is a function parameter of the user id. The entries of its list are left abstract as a type parameter.
- `getUserByEmail` is modelled as an exact-key map lookup. Its case handling lives in UserService, which is not part of this model.
- GetUserByEmail: a directory is not required to file each user under its own e-mail, because UserService, which keeps that relation, is not part of this model. What follows from that relation is stated under ConsistentDirectory as a hypothesis.
- CreateAuthenticationResponse: the Java code calls `getUserByEmail` before testing the e-mail for null. The model assumes `getUserByEmail(null)` returns without throwing, and looks up only a non-null e-mail. If that call threw, a null e-mail would raise an exception instead of failing with `USER_NOT_FOUND`. FailureIgnoresOtherInputs rests on the same assumption.
- The success username comes from a second `getEmail()` call. The model assumes the claims object returns the same value both times.
- The role string is taken to be `"ADMIN"`, the Java enum constant's name. The UserRole enum is not part of this model.
- `ResponseStatusCode` lists `INVALID_NONCE_FORMAT`, the only code this controller raises, and two codes the application tests expect from the service (`UNAUTHORIZED`, `APPLICATION_NOT_FOUND`). The save endpoint's validation codes are left out with `save`. The string values of the codes and their mapping to HTTP 400 are not modelled.
- `FailureReason` lists the reasons of the security framework's enumeration; this mapper uses only `USER_NOT_FOUND`.
- HTTP routing, security annotations (`@Secured`, who may call which endpoint), execution on the IO executor, and the unused mapper parameters (provider name, token response, state) are not modelled.
