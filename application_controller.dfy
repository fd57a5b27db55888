/** The REST controller for applications (`/api/applications`). Every handler
    delegates to the application service; the two handlers that hand out
    credential material first check the format of the caller's nonce. A
    handler's result says either that it threw with a response code or which
    service operation it invoked, and with which argument. What the service then
    does is not part of this model. */
module ApplicationController {
  import opened Wrappers
  import opened NoncePattern

  /** Response codes: `INVALID_NONCE_FORMAT`, the only code this controller raises
      itself, and two codes the application service is expected to answer with. */
  datatype ResponseStatusCode = INVALID_NONCE_FORMAT | UNAUTHORIZED | APPLICATION_NOT_FOUND

  /** An invocation of the application service, one constructor per operation
      the controller calls, carrying the argument it passes on. */
  datatype ServiceCall =
    | ShowApplication(id: int)
    | DeleteApplication(id: int)
    | BindToken(applicationId: int)
    | CleartextPassphrase(applicationId: int)
    | IdentityCACertificate(etag: Option<string>)
    | PermissionsCACertificate(etag: Option<string>)
    | GovernanceFile(etag: Option<string>)
    | PrivateKeyAndClientCertificate(nonce: string)
    | PermissionsFile(nonce: string)
    | PermissionJson(etag: Option<string>)

  /** What a handler does: throw with a response code, or return what the
      service returns for the given call. */
  datatype Response = Rejected(code: ResponseStatusCode) | Delegated(call: ServiceCall)

  /** The nonce a credential endpoint accepts: present, and built only from ASCII
      letters and digits (possibly none). */
  predicate AcceptableNonce(nonce: Option<string>)
  {
    nonce.Some? && forall i | 0 <= i < |nonce.value| :: IsNonceChar(nonce.value[i])
  }

  /** Throws `INVALID_NONCE_FORMAT` unless the nonce is non-null and the whole of
      it matches `^[a-zA-Z0-9]*$`. */
  function CheckNonceValidFormat(nonce: Option<string>): (r: Outcome<ResponseStatusCode>)
    ensures r.Pass? <==> AcceptableNonce(nonce)
    ensures r.Fail? ==> r.error == INVALID_NONCE_FORMAT
  {
    match nonce
    case None => Fail(INVALID_NONCE_FORMAT)
    case Some(s) =>
      NonceMatchIffAlphanumeric(s);
      if FullMatchStar(NonceClass, s) then Pass else Fail(INVALID_NONCE_FORMAT)
  }

  /** `GET /show/{id}`: no check of its own; shows the application with that id. */
  function Show(id: int): (r: Response)
    ensures r.Delegated? && r.call.ShowApplication? && r.call.id == id
  {
    Delegated(ShowApplication(id))
  }

  /** `POST /delete/{id}`: no check of its own; deletes the application with that id. */
  function Delete(id: int): (r: Response)
    ensures r.Delegated? && r.call.DeleteApplication? && r.call.id == id
  {
    Delegated(DeleteApplication(id))
  }

  /** `GET /generate_bind_token/{applicationId}`: no check of its own; asks for a bind token for that application. */
  function GenerateBindToken(applicationId: int): (r: Response)
    ensures r.Delegated? && r.call.BindToken? && r.call.applicationId == applicationId
  {
    Delegated(BindToken(applicationId))
  }

  /** `GET /generate_passphrase/{application}`: no check of its own; asks for a new cleartext passphrase for that application. */
  function GeneratePassphrase(application: int): (r: Response)
    ensures r.Delegated? && r.call.CleartextPassphrase? && r.call.applicationId == application
  {
    Delegated(CleartextPassphrase(application))
  }

  /** `GET /identity_ca.pem`: no check of its own; fetches the identity CA certificate with the ETag header value, absent included. */
  function GetIdentityCACertificate(etag: Option<string>): (r: Response)
    ensures r.Delegated? && r.call.IdentityCACertificate? && r.call.etag == etag
  {
    Delegated(IdentityCACertificate(etag))
  }

  /** `GET /permissions_ca.pem`: no check of its own; fetches the permissions CA certificate with the ETag header value, absent included. */
  function GetPermissionsCACertificate(etag: Option<string>): (r: Response)
    ensures r.Delegated? && r.call.PermissionsCACertificate? && r.call.etag == etag
  {
    Delegated(PermissionsCACertificate(etag))
  }

  /** `GET /governance.xml.p7s`: no check of its own; fetches the signed governance document with the ETag header value, absent included. */
  function GetGovernanceFile(etag: Option<string>): (r: Response)
    ensures r.Delegated? && r.call.GovernanceFile? && r.call.etag == etag
  {
    Delegated(GovernanceFile(etag))
  }

  /** Key pair and client certificate: the nonce is validated before the service
      is called, so the service sees only acceptable nonces, unchanged. */
  function GetPrivateKeyAndClientCertificate(nonce: Option<string>): (r: Response)
    ensures r.Delegated? <==> AcceptableNonce(nonce)
    ensures r.Delegated? ==> r.call == PrivateKeyAndClientCertificate(nonce.value)
    ensures r.Rejected? ==> r.code == INVALID_NONCE_FORMAT
  {
    match CheckNonceValidFormat(nonce)
    case Fail(code) => Rejected(code)
    case Pass => Delegated(PrivateKeyAndClientCertificate(nonce.value))
  }

  /** Signed permissions document: the nonce is validated before the service is
      called, so the service sees only acceptable nonces, unchanged. */
  function GetPermissionsFile(nonce: Option<string>): (r: Response)
    ensures r.Delegated? <==> AcceptableNonce(nonce)
    ensures r.Delegated? ==> r.call == PermissionsFile(nonce.value)
    ensures r.Rejected? ==> r.code == INVALID_NONCE_FORMAT
  {
    match CheckNonceValidFormat(nonce)
    case Fail(code) => Rejected(code)
    case Pass => Delegated(PermissionsFile(nonce.value))
  }

  /** `GET /permissions.json`: no check of its own; fetches the permissions as JSON with the ETag header value, absent included. */
  function GetPermissionsJson(etag: Option<string>): (r: Response)
    ensures r.Delegated? && r.call.PermissionJson? && r.call.etag == etag
  {
    Delegated(PermissionJson(etag))
  }

  /** The two nonce-checked endpoints accept and reject the same nonces, and on
      acceptance hand the service the same string. */
  lemma NonceEndpointsAgree(nonce: Option<string>)
    ensures GetPrivateKeyAndClientCertificate(nonce).Rejected? <==> GetPermissionsFile(nonce).Rejected?
    ensures GetPrivateKeyAndClientCertificate(nonce).Delegated? ==>
      GetPrivateKeyAndClientCertificate(nonce).call.nonce == GetPermissionsFile(nonce).call.nonce
  {
  }

  /** A missing nonce is rejected on both credential endpoints. */
  lemma NullNonceRejected()
    ensures CheckNonceValidFormat(None) == Fail(INVALID_NONCE_FORMAT)
    ensures GetPrivateKeyAndClientCertificate(None) == Rejected(INVALID_NONCE_FORMAT)
    ensures GetPermissionsFile(None) == Rejected(INVALID_NONCE_FORMAT)
  {
  }

  /** The empty nonce is accepted: the star allows zero characters. */
  lemma EmptyNonceAccepted()
    ensures CheckNonceValidFormat(Some("")) == Pass
    ensures GetPrivateKeyAndClientCertificate(Some("")) == Delegated(PrivateKeyAndClientCertificate(""))
    ensures GetPermissionsFile(Some("")) == Delegated(PermissionsFile(""))
  {
  }

  /** An underscore is outside the class, so `uni_ty` is rejected on the key-pair endpoint. */
  lemma UnderscoreNonceRejectedForKeyPair()
    ensures GetPrivateKeyAndClientCertificate(Some("uni_ty")) == Rejected(INVALID_NONCE_FORMAT)
  {
  }

  /** An underscore is outside the class, so `uni_ty` is rejected on the
      permissions-document endpoint. */
  lemma UnderscoreNonceRejectedForPermissionsFile()
    ensures GetPermissionsFile(Some("uni_ty")) == Rejected(INVALID_NONCE_FORMAT)
  {
  }

  /** The same string that the nonce check refuses is forwarded unchanged when it
      arrives as an ETag header: only the nonce endpoints validate. */
  lemma UnderscoreEtagForwarded()
    ensures CheckNonceValidFormat(Some("uni_ty")) == Fail(INVALID_NONCE_FORMAT)
    ensures GetPermissionsJson(Some("uni_ty")) == Delegated(PermissionJson(Some("uni_ty")))
  {
  }

  /** `unity` is accepted on the key-pair endpoint and reaches the service as it is. */
  lemma LettersOnlyNonceAcceptedForKeyPair()
    ensures GetPrivateKeyAndClientCertificate(Some("unity")) == Delegated(PrivateKeyAndClientCertificate("unity"))
  {
  }

  /** `unity` is accepted on the permissions-document endpoint and reaches the
      service as it is. */
  lemma LettersOnlyNonceAcceptedForPermissionsFile()
    ensures GetPermissionsFile(Some("unity")) == Delegated(PermissionsFile("unity"))
  {
  }

  /** The whole string must match: a trailing line terminator, which `$` alone
      would let through, still makes the nonce unacceptable. */
  lemma TrailingNewlineRejected()
    ensures CheckNonceValidFormat(Some("unity\n")) == Fail(INVALID_NONCE_FORMAT)
  {
  }
}
