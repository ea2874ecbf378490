/** The certificate and binding chain of `weaver-crypto`, over symbolic keys and signatures.
    A key is a name; a signature names the key and the exact message it covers. */
module Credentials {
  import opened Prelude

  /** A 32-byte verifying key. `wellFormed` says whether the bytes decode to a curve point. */
  datatype PublicKey = PublicKey(id: nat, wellFormed: bool)

  /** A member's key-wrap key pair, named by its public half. */
  datatype EncryptionKey = EncryptionKey(id: nat)

  datatype EndpointId = EndpointId(id: nat)

  datatype Signature<M> = Signature(signer: PublicKey, message: M)

  predicate Verifies<M(==)>(key: PublicKey, message: M, signature: Signature<M>) {
    signature == Signature(key, message)
  }

  // Derived identifiers. Derivation is an injective, domain-separated hash.
  datatype NetworkId = NetworkId(root: PublicKey)
  datatype KeyId = RootKeyId(key: PublicKey) | AdminKeyId(key: PublicKey)
  datatype MemberId = MemberId(network: NetworkId, signing: PublicKey)
  datatype AppAddr = AppAddr(root: PublicKey)
  datatype DeviceId = DeviceId(network: NetworkId, app: AppAddr, signing: PublicKey)
  datatype ServiceId = ServiceId(id: nat)

  /** A `u32` bit mask as the set of its one-bits. */
  type Bits = set<nat>

  const PERMISSION_CONFIG_WRITE: nat := 0
  const PERMISSION_ISSUE_MEMBER: nat := 1
  const PERMISSION_REGISTER_APP: nat := 3

  const ROLE_MEMBER: nat := 0
  const ROLE_SERVICE: nat := 1
  const ROLE_RELAY: nat := 2
  const ROLE_BOOTSTRAP: nat := 3
  const ROLE_AUTHORITY: nat := 4

  /** `u32::MAX`. */
  function AllBits(): Bits {
    { 0, 1, 2, 3, 4, 5, 6, 7, 8, 9, 10, 11, 12, 13, 14, 15,
      16, 17, 18, 19, 20, 21, 22, 23, 24, 25, 26, 27, 28, 29, 30, 31 }
  }

  datatype CertificateError =
    | MalformedKey
    | MalformedWire
    | InvalidSignature
    | WrongNetwork
    | WrongIssuer
    | NotYetValid
    | CredentialExpired
    | Revoked
    | DerivedIdentityMismatch
    | KeyMismatch
    | BindingMismatch
    | CredentialWindow
    | PermissionDenied

  function CheckTime(notBefore: u64, expires: u64, now: u64): Result<(), CertificateError> {
    if now < notBefore then Err(NotYetValid)
    else if now >= expires then Err(CredentialExpired)
    else Ok(())
  }

  // ---- online administrators ----

  datatype AdminPayload = AdminPayload(
    network: NetworkId,
    keyId: KeyId,
    publicKey: PublicKey,
    permissions: Bits,
    serial: u64,
    notBefore: u64,
    expires: u64,
    issuer: KeyId)

  datatype AdminCert = AdminCert(payload: AdminPayload, signature: Signature<AdminPayload>)

  function IssueAdmin(root: PublicKey, key: PublicKey, permissions: Bits, serial: u64, notBefore: u64, expires: u64)
    : Result<AdminCert, CertificateError>
  {
    var _ :- Need(notBefore < expires, CredentialWindow);
    var _ :- Need(key.wellFormed, MalformedKey);
    var payload := AdminPayload(NetworkId(root), AdminKeyId(key), key, permissions, serial, notBefore, expires, RootKeyId(root));
    Ok(AdminCert(payload, Signature(root, payload)))
  }

  function VerifyAdmin(cert: AdminCert, root: PublicKey, network: NetworkId, now: u64, revoked: set<u64>)
    : Result<AdminPayload, CertificateError>
  {
    var p := cert.payload;
    var _ :- Need(NetworkId(root) == network && p.network == network, WrongNetwork);
    var _ :- Need(p.issuer == RootKeyId(root), WrongIssuer);
    var _ :- Need(AdminKeyId(p.publicKey) == p.keyId, DerivedIdentityMismatch);
    var _ :- CheckTime(p.notBefore, p.expires, now);
    var _ :- Need(p.serial !in revoked, Revoked);
    var _ :- Need(Verifies(root, p, cert.signature), InvalidSignature);
    var _ :- Need(p.publicKey.wellFormed, MalformedKey);
    Ok(p)
  }

  // ---- members ----

  datatype MemberPayload = MemberPayload(
    network: NetworkId,
    memberId: MemberId,
    signingKey: PublicKey,
    encryptionKey: EncryptionKey,
    roles: Bits,
    serial: u64,
    notBefore: u64,
    expires: u64,
    issuer: KeyId)

  datatype MemberCert = MemberCert(payload: MemberPayload, signature: Signature<MemberPayload>)

  function IssueMember(root: PublicKey, signing: PublicKey, encryption: EncryptionKey, roles: Bits,
                       serial: u64, notBefore: u64, expires: u64)
    : Result<MemberCert, CertificateError>
  {
    var _ :- Need(notBefore < expires, CredentialWindow);
    var network := NetworkId(root);
    var payload := MemberPayload(network, MemberId(network, signing), signing, encryption, roles, serial, notBefore, expires, RootKeyId(root));
    Ok(MemberCert(payload, Signature(root, payload)))
  }

  function IssueMemberByAdmin(adminKey: PublicKey, admin: AdminPayload, signing: PublicKey, encryption: EncryptionKey,
                              roles: Bits, serial: u64, notBefore: u64, expires: u64)
    : Result<MemberCert, CertificateError>
  {
    var _ :- Need(adminKey == admin.publicKey && AdminKeyId(adminKey) == admin.keyId, KeyMismatch);
    var _ :- Need(PERMISSION_ISSUE_MEMBER in admin.permissions, PermissionDenied);
    var _ :- Need(notBefore < expires && admin.notBefore <= notBefore && expires <= admin.expires, CredentialWindow);
    var payload := MemberPayload(admin.network, MemberId(admin.network, signing), signing, encryption, roles, serial, notBefore, expires, admin.keyId);
    Ok(MemberCert(payload, Signature(adminKey, payload)))
  }

  function VerifyMember(cert: MemberCert, root: PublicKey, network: NetworkId, now: u64, revoked: set<u64>)
    : Result<MemberPayload, CertificateError>
  {
    var p := cert.payload;
    var _ :- Need(NetworkId(root) == network && p.network == network, WrongNetwork);
    var _ :- Need(p.issuer == RootKeyId(root), WrongIssuer);
    var _ :- Need(MemberId(network, p.signingKey) == p.memberId, DerivedIdentityMismatch);
    var _ :- CheckTime(p.notBefore, p.expires, now);
    var _ :- Need(p.serial !in revoked, Revoked);
    var _ :- Need(Verifies(root, p, cert.signature), InvalidSignature);
    Ok(p)
  }

  function VerifyMemberWithAdmin(cert: MemberCert, admin: AdminPayload, network: NetworkId, now: u64, revoked: set<u64>)
    : Result<MemberPayload, CertificateError>
  {
    var p := cert.payload;
    var _ :- Need(admin.network == network && p.network == network, WrongNetwork);
    var _ :- Need(PERMISSION_ISSUE_MEMBER in admin.permissions, PermissionDenied);
    var _ :- Need(p.issuer == admin.keyId, WrongIssuer);
    var _ :- Need(admin.notBefore <= p.notBefore && p.expires <= admin.expires, CredentialWindow);
    var _ :- Need(MemberId(network, p.signingKey) == p.memberId, DerivedIdentityMismatch);
    var _ :- CheckTime(p.notBefore, p.expires, now);
    var _ :- Need(p.serial !in revoked, Revoked);
    var _ :- Need(Verifies(admin.publicKey, p, cert.signature), InvalidSignature);
    Ok(p)
  }

  // ---- endpoint bindings ----

  datatype EndpointPayload = EndpointPayload(
    network: NetworkId,
    memberId: MemberId,
    endpoint: EndpointId,
    sequence: u64,
    expires: u64)

  datatype EndpointBinding = EndpointBinding(payload: EndpointPayload, signature: Signature<EndpointPayload>)

  function IssueEndpoint(signing: PublicKey, network: NetworkId, endpoint: EndpointId, sequence: u64, expires: u64): EndpointBinding {
    var payload := EndpointPayload(network, MemberId(network, signing), endpoint, sequence, expires);
    EndpointBinding(payload, Signature(signing, payload))
  }

  function VerifyEndpoint(binding: EndpointBinding, member: MemberPayload, network: NetworkId, endpoint: EndpointId, now: u64)
    : Result<(), CertificateError>
  {
    var p := binding.payload;
    var _ :- Need(p.network == network && member.network == network, WrongNetwork);
    var _ :- Need(p.memberId == member.memberId && p.endpoint == endpoint, BindingMismatch);
    var _ :- Need(now < p.expires, CredentialExpired);
    var _ :- Need(member.signingKey.wellFormed, MalformedKey);
    Need(Verifies(member.signingKey, p, binding.signature), InvalidSignature)
  }

  // ---- applications ----

  datatype AppPayload = AppPayload(
    network: NetworkId,
    app: AppAddr,
    rootKey: PublicKey,
    policy: nat,
    issuer: KeyId)

  datatype AppRegistration = AppRegistration(payload: AppPayload, signature: Signature<AppPayload>)

  datatype AppRequestPayload = AppRequestPayload(network: NetworkId, app: AppAddr, rootKey: PublicKey, policy: nat)

  datatype AppRequest = AppRequest(payload: AppRequestPayload, signature: Signature<AppRequestPayload>)

  function VerifyAppRequest(request: AppRequest, network: NetworkId): Result<AppRequestPayload, CertificateError> {
    var p := request.payload;
    var _ :- Need(p.network == network, WrongNetwork);
    var _ :- Need(AppAddr(p.rootKey) == p.app, DerivedIdentityMismatch);
    var _ :- Need(p.rootKey.wellFormed, MalformedKey);
    var _ :- Need(Verifies(p.rootKey, p, request.signature), InvalidSignature);
    Ok(p)
  }

  function IssueAppByAdmin(adminKey: PublicKey, admin: AdminPayload, request: AppRequestPayload)
    : Result<AppRegistration, CertificateError>
  {
    var _ :- Need(adminKey == admin.publicKey && AdminKeyId(adminKey) == admin.keyId, KeyMismatch);
    var _ :- Need(PERMISSION_REGISTER_APP in admin.permissions, PermissionDenied);
    var _ :- Need(request.network == admin.network, WrongNetwork);
    var payload := AppPayload(request.network, request.app, request.rootKey, request.policy, admin.keyId);
    Ok(AppRegistration(payload, Signature(adminKey, payload)))
  }

  function VerifyApp(registration: AppRegistration, root: PublicKey, network: NetworkId): Result<AppPayload, CertificateError> {
    var p := registration.payload;
    var _ :- Need(NetworkId(root) == network && p.network == network, WrongNetwork);
    var _ :- Need(p.issuer == RootKeyId(root), WrongIssuer);
    var _ :- Need(AppAddr(p.rootKey) == p.app, DerivedIdentityMismatch);
    var _ :- Need(Verifies(root, p, registration.signature), InvalidSignature);
    Ok(p)
  }

  function VerifyAppWithAdmin(registration: AppRegistration, admin: AdminPayload, network: NetworkId)
    : Result<AppPayload, CertificateError>
  {
    var p := registration.payload;
    var _ :- Need(admin.network == network && p.network == network, WrongNetwork);
    var _ :- Need(PERMISSION_REGISTER_APP in admin.permissions, PermissionDenied);
    var _ :- Need(p.issuer == admin.keyId, WrongIssuer);
    var _ :- Need(AppAddr(p.rootKey) == p.app, DerivedIdentityMismatch);
    var _ :- Need(Verifies(admin.publicKey, p, registration.signature), InvalidSignature);
    Ok(p)
  }

  /** Decoding rejects a server binding with a device and a client binding without one, so the
      role carries the device. */
  datatype AppRole = Server | Client(device: DeviceId)

  datatype AppBindingPayload = AppBindingPayload(
    network: NetworkId,
    app: AppAddr,
    subject: MemberId,
    role: AppRole,
    expires: u64,
    services: seq<ServiceId>)

  datatype AppBinding = AppBinding(payload: AppBindingPayload, signature: Signature<AppBindingPayload>)

  function IssueAppBinding(appRoot: PublicKey, network: NetworkId, subject: MemberId, role: AppRole, expires: u64): AppBinding {
    var payload := AppBindingPayload(network, AppAddr(appRoot), subject, role, expires, []);
    AppBinding(payload, Signature(appRoot, payload))
  }

  function VerifyAppBinding(binding: AppBinding, app: AppPayload, member: MemberPayload, network: NetworkId, now: u64)
    : Result<(), CertificateError>
  {
    var p := binding.payload;
    var _ :- Need(p.network == network && app.network == network && member.network == network, WrongNetwork);
    var _ :- Need(p.app == app.app && p.subject == member.memberId, BindingMismatch);
    var _ :- Need(now < p.expires, CredentialExpired);
    var _ :- Need(app.rootKey.wellFormed, MalformedKey);
    Need(Verifies(app.rootKey, p, binding.signature), InvalidSignature)
  }

  // ---- join requests ----

  datatype JoinPayload = JoinPayload(
    network: NetworkId,
    memberId: MemberId,
    signingKey: PublicKey,
    encryptionKey: EncryptionKey,
    endpoint: EndpointId,
    nonce: nat,
    roles: Bits,
    expires: u64)

  datatype JoinRequest = JoinRequest(payload: JoinPayload, signature: Signature<JoinPayload>)

  datatype PreparedJoin = PreparedJoin(request: JoinRequest, binding: EndpointBinding)

  // The all-zero byte strings that a join request may not carry.
  const ZERO_ENCRYPTION: EncryptionKey := EncryptionKey(0)
  const ZERO_ENDPOINT: EndpointId := EndpointId(0)
  const ZERO_NONCE: nat := 0

  function VerifyJoin(request: JoinRequest, network: NetworkId, now: u64): Result<JoinPayload, CertificateError> {
    var p := request.payload;
    var _ :- Need(p.network == network, WrongNetwork);
    var _ :- Need(now < p.expires, CredentialExpired);
    var _ :- Need(p.encryptionKey != ZERO_ENCRYPTION && p.endpoint != ZERO_ENDPOINT && p.nonce != ZERO_NONCE, MalformedKey);
    var _ :- Need(MemberId(network, p.signingKey) == p.memberId, DerivedIdentityMismatch);
    var _ :- Need(p.signingKey.wellFormed, MalformedKey);
    var _ :- Need(Verifies(p.signingKey, p, request.signature), InvalidSignature);
    Ok(p)
  }

  function VerifyForJoin(binding: EndpointBinding, request: JoinPayload, network: NetworkId, now: u64)
    : Result<(), CertificateError>
  {
    var p := binding.payload;
    var _ :- Need(p.network == network && request.network == network, WrongNetwork);
    var _ :- Need(p.memberId == request.memberId && p.endpoint == request.endpoint && p.sequence == 0 && p.expires == request.expires,
                  BindingMismatch);
    var _ :- Need(now < p.expires, CredentialExpired);
    var _ :- Need(request.signingKey.wellFormed, MalformedKey);
    Need(Verifies(request.signingKey, p, binding.signature), InvalidSignature)
  }

  function VerifyPrepared(prepared: PreparedJoin, network: NetworkId, now: u64): Result<JoinPayload, CertificateError> {
    var request :- VerifyJoin(prepared.request, network, now);
    var _ :- VerifyForJoin(prepared.binding, request, network, now);
    Ok(request)
  }

  function CreatePrepared(network: NetworkId, signing: PublicKey, encryption: EncryptionKey, endpoint: EndpointId,
                          nonce: nat, roles: Bits, expires: u64): Result<PreparedJoin, CertificateError>
  {
    var _ :- Need(encryption != ZERO_ENCRYPTION && endpoint != ZERO_ENDPOINT && nonce != ZERO_NONCE, MalformedKey);
    var payload := JoinPayload(network, MemberId(network, signing), signing, encryption, endpoint, nonce, roles, expires);
    Ok(PreparedJoin(JoinRequest(payload, Signature(signing, payload)), IssueEndpoint(signing, network, endpoint, 0, expires)))
  }
}
