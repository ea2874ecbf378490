/** What it takes for a credential to be accepted, whoever made it, and that what the issuing side
    makes is accepted exactly while it is in force. */
module CredentialLaws {
  import opened Prelude
  import opened Credentials
  import opened Configs
  import opened SnapshotValidation

  predicate InForce(notBefore: u64, expires: u64, now: u64) {
    notBefore <= now < expires
  }

  // ---- no credential is accepted without its issuer's signature over every field ----

  lemma AdminAcceptedExactlyWhen(cert: AdminCert, root: PublicKey, network: NetworkId, now: u64, revoked: set<u64>)
    ensures VerifyAdmin(cert, root, network, now, revoked).Ok? <==>
            && network == NetworkId(root) && cert.signature == Signature(root, cert.payload)
            && cert.payload.network == network && cert.payload.issuer == RootKeyId(root) && cert.payload.keyId == AdminKeyId(cert.payload.publicKey)
            && cert.payload.publicKey.wellFormed && InForce(cert.payload.notBefore, cert.payload.expires, now) && cert.payload.serial !in revoked
    ensures VerifyAdmin(cert, root, network, now, revoked).Ok? ==> VerifyAdmin(cert, root, network, now, revoked).value == cert.payload
  {
  }

  /** A member's certificate is signed by the root, or within an administrator's own period by an
      administrator that may issue members. */
  lemma MemberAcceptedExactlyWhen(cert: MemberCert, root: PublicKey, admin: AdminPayload, network: NetworkId, now: u64, revoked: set<u64>)
    ensures VerifyMember(cert, root, network, now, revoked).Ok? <==>
            && network == NetworkId(root) == cert.payload.network && cert.payload.issuer == RootKeyId(root) && cert.signature == Signature(root, cert.payload)
            && cert.payload.memberId == MemberId(network, cert.payload.signingKey)
            && InForce(cert.payload.notBefore, cert.payload.expires, now) && cert.payload.serial !in revoked
    ensures VerifyMemberWithAdmin(cert, admin, network, now, revoked).Ok? <==>
            && network == admin.network == cert.payload.network && cert.payload.issuer == admin.keyId && cert.signature == Signature(admin.publicKey, cert.payload)
            && PERMISSION_ISSUE_MEMBER in admin.permissions && admin.notBefore <= cert.payload.notBefore && cert.payload.expires <= admin.expires
            && cert.payload.memberId == MemberId(network, cert.payload.signingKey)
            && InForce(cert.payload.notBefore, cert.payload.expires, now) && cert.payload.serial !in revoked
    ensures VerifyMember(cert, root, network, now, revoked).Ok? ==> VerifyMember(cert, root, network, now, revoked).value == cert.payload
    ensures VerifyMemberWithAdmin(cert, admin, network, now, revoked).Ok? ==> VerifyMemberWithAdmin(cert, admin, network, now, revoked).value == cert.payload
  {
  }

  /** An endpoint binding is signed by the member it names. */
  lemma EndpointAcceptedExactlyWhen(binding: EndpointBinding, member: MemberPayload, network: NetworkId, endpoint: EndpointId, now: u64)
    ensures VerifyEndpoint(binding, member, network, endpoint, now).Ok? <==>
            && binding.payload == EndpointPayload(network, member.memberId, endpoint, binding.payload.sequence, binding.payload.expires)
            && member.network == network && member.signingKey.wellFormed && binding.signature == Signature(member.signingKey, binding.payload)
            && now < binding.payload.expires
  {
  }

  /** A registration is signed by the root or by an administrator that may register applications,
      and its address is derived from its root key. */
  lemma AppAcceptedExactlyWhen(app: AppRegistration, root: PublicKey, admin: AdminPayload, network: NetworkId)
    ensures VerifyApp(app, root, network).Ok? <==>
            && app.payload == AppPayload(network, AppAddr(app.payload.rootKey), app.payload.rootKey, app.payload.policy, RootKeyId(root))
            && network == NetworkId(root) && app.signature == Signature(root, app.payload)
    ensures VerifyAppWithAdmin(app, admin, network).Ok? <==>
            && app.payload == AppPayload(network, AppAddr(app.payload.rootKey), app.payload.rootKey, app.payload.policy, admin.keyId)
            && network == admin.network && PERMISSION_REGISTER_APP in admin.permissions && app.signature == Signature(admin.publicKey, app.payload)
  {
  }

  /** A request to register is signed by the application's own root key. */
  lemma AppRequestAcceptedExactlyWhen(request: AppRequest, network: NetworkId)
    ensures VerifyAppRequest(request, network).Ok? <==>
            && request.payload == AppRequestPayload(network, AppAddr(request.payload.rootKey), request.payload.rootKey, request.payload.policy)
            && request.payload.rootKey.wellFormed && request.signature == Signature(request.payload.rootKey, request.payload)
    ensures VerifyAppRequest(request, network).Ok? ==> VerifyAppRequest(request, network).value == request.payload
  {
  }

  /** An application binding is signed by the application's root key and names a member of the
      network. */
  lemma AppBindingAcceptedExactlyWhen(binding: AppBinding, app: AppPayload, member: MemberPayload, network: NetworkId, now: u64)
    ensures VerifyAppBinding(binding, app, member, network, now).Ok? <==>
            && binding.payload.network == app.network == member.network == network
            && binding.payload.app == app.app && binding.payload.subject == member.memberId
            && app.rootKey.wellFormed && binding.signature == Signature(app.rootKey, binding.payload) && now < binding.payload.expires
  {
  }

  /** A prepared join carries a request and an endpoint binding of one requester for one network,
      both signed by the requester's own key, under the same expiry, and nothing all-zero. */
  lemma PreparedAcceptedExactlyWhen(prepared: PreparedJoin, network: NetworkId, now: u64)
    ensures var p, b := prepared.request.payload, prepared.binding;
            VerifyPrepared(prepared, network, now).Ok? <==>
            && p.network == network && p.memberId == MemberId(network, p.signingKey) && p.signingKey.wellFormed
            && prepared.request.signature == Signature(p.signingKey, p) && now < p.expires
            && p.encryptionKey != ZERO_ENCRYPTION && p.endpoint != ZERO_ENDPOINT && p.nonce != ZERO_NONCE
            && b.payload == EndpointPayload(network, p.memberId, p.endpoint, 0, p.expires) && b.signature == Signature(p.signingKey, b.payload)
    ensures VerifyPrepared(prepared, network, now).Ok? ==> VerifyPrepared(prepared, network, now).value == prepared.request.payload
  {
  }

  /** The request alone, as a direct invitation checks it. */
  lemma JoinAcceptedExactlyWhen(request: JoinRequest, network: NetworkId, now: u64)
    ensures var p := request.payload;
            VerifyJoin(request, network, now).Ok? <==>
            && p.network == network && p.memberId == MemberId(network, p.signingKey) && p.signingKey.wellFormed
            && request.signature == Signature(p.signingKey, p) && now < p.expires
            && p.encryptionKey != ZERO_ENCRYPTION && p.endpoint != ZERO_ENDPOINT && p.nonce != ZERO_NONCE
    ensures VerifyJoin(request, network, now).Ok? ==> VerifyJoin(request, network, now).value == request.payload
  {
  }

  // ---- what is issued is accepted exactly while it is in force ----

  lemma IssuedAdminAccepted(root: PublicKey, key: PublicKey, permissions: Bits, serial: u64, notBefore: u64, expires: u64, now: u64, revoked: set<u64>)
    requires IssueAdmin(root, key, permissions, serial, notBefore, expires).Ok?
    ensures VerifyAdmin(IssueAdmin(root, key, permissions, serial, notBefore, expires).value, root, NetworkId(root), now, revoked).Ok? <==>
            InForce(notBefore, expires, now) && serial !in revoked
  {
  }

  lemma IssuedMemberAccepted(root: PublicKey, signing: PublicKey, encryption: EncryptionKey, roles: Bits, serial: u64, notBefore: u64, expires: u64,
                             now: u64, revoked: set<u64>)
    requires IssueMember(root, signing, encryption, roles, serial, notBefore, expires).Ok?
    ensures var cert := IssueMember(root, signing, encryption, roles, serial, notBefore, expires).value;
            && cert.payload.encryptionKey == encryption && cert.payload.roles == roles
            && (VerifyMember(cert, root, NetworkId(root), now, revoked).Ok? <==> InForce(notBefore, expires, now) && serial !in revoked)
  {
  }

  /** An administrator can issue exactly within its own period and permission, and what it issues is
      accepted under its certificate. */
  lemma IssuedByAdminAccepted(key: PublicKey, admin: AdminPayload, signing: PublicKey, encryption: EncryptionKey, roles: Bits, serial: u64,
                              notBefore: u64, expires: u64, now: u64, revoked: set<u64>)
    requires admin.keyId == AdminKeyId(admin.publicKey)
    ensures var issued := IssueMemberByAdmin(key, admin, signing, encryption, roles, serial, notBefore, expires);
            && (issued.Ok? <==> key == admin.publicKey && PERMISSION_ISSUE_MEMBER in admin.permissions && admin.notBefore <= notBefore < expires <= admin.expires)
            && (issued.Ok? ==>
                  && issued.value.payload.encryptionKey == encryption && issued.value.payload.roles == roles
                  && (VerifyMemberWithAdmin(issued.value, admin, admin.network, now, revoked).Ok? <==> InForce(notBefore, expires, now) && serial !in revoked))
  {
  }

  lemma CreatedPreparedAccepted(network: NetworkId, signing: PublicKey, encryption: EncryptionKey, endpoint: EndpointId, nonce: nat, roles: Bits, expires: u64, now: u64)
    requires CreatePrepared(network, signing, encryption, endpoint, nonce, roles, expires).Ok? && signing.wellFormed
    ensures VerifyPrepared(CreatePrepared(network, signing, encryption, endpoint, nonce, roles, expires).value, network, now).Ok? <==> now < expires
  {
  }

  /** An application can be registered by whoever holds its root key, and a binding that key makes
      for a member is accepted until it expires. */
  lemma RegisteredAppBinds(key: PublicKey, admin: AdminPayload, request: AppRequest, member: MemberPayload, role: AppRole, expires: u64, now: u64)
    requires admin.keyId == AdminKeyId(admin.publicKey) && VerifyAppRequest(request, admin.network).Ok? && member.network == admin.network
    ensures var issued := IssueAppByAdmin(key, admin, request.payload);
            && (issued.Ok? <==> key == admin.publicKey && PERMISSION_REGISTER_APP in admin.permissions)
            && (issued.Ok? ==>
                  && VerifyAppWithAdmin(issued.value, admin, admin.network).Ok?
                  && issued.value.payload.app == request.payload.app && issued.value.payload.policy == request.payload.policy
                  && var binding := IssueAppBinding(request.payload.rootKey, admin.network, member.memberId, role, expires);
                     VerifyAppBinding(binding, issued.value.payload, member, admin.network, now).Ok? <==> now < expires)
  {
  }

  // ---- every credential of a valid snapshot traces to the root key ----

  /** An administrator's certificate in the snapshot, made by the root, with this permission. */
  ghost predicate Delegated(c: Config, root: PublicKey, now: u64, issuer: KeyId, signer: PublicKey, permission: nat) {
    exists i :: 0 <= i < |c.adminKeys| && c.adminKeys[i].Wire?
             && var p := c.adminKeys[i].value.payload;
                && c.adminKeys[i].value.signature == Signature(root, p) && InForce(p.notBefore, p.expires, now)
                && p.keyId == issuer && p.publicKey == signer && permission in p.permissions
  }

  /** Signed by the root, or by an administrator the root gave this permission. */
  ghost predicate Vouched<M(!new)>(c: Config, root: PublicKey, now: u64, issuer: KeyId, payload: M, signature: Signature<M>, permission: nat) {
    && signature.message == payload
    && ((issuer == RootKeyId(root) && signature.signer == root) || Delegated(c, root, now, issuer, signature.signer, permission))
  }

  lemma DelegatedBy(c: Config, root: PublicKey, now: u64, issuer: KeyId, permission: nat)
    requires ValidAt(c, root, now) && FindAdmin(c.adminKeys, issuer).Some? && permission in FindAdmin(c.adminKeys, issuer).value.permissions
    ensures Delegated(c, root, now, issuer, FindAdmin(c.adminKeys, issuer).value.publicKey, permission)
  {
    hide Shape, MembersValid, EndpointsValid, AppsValid, AppBindingsValid, DnsValid, DescriptorsValid, FindAdmin;
    var i := FindAdminFinds(c.adminKeys, issuer);
    assert AdminOk(c, root, now, c.adminKeys[i]);
  }

  lemma MemberTraces(c: Config, root: PublicKey, now: u64, i: nat)
    requires ValidAt(c, root, now) && i < |c.members|
    ensures c.members[i].Wire?
    ensures var m := c.members[i].value;
            && m.payload.network == NetworkId(root) && m.payload.memberId == MemberId(NetworkId(root), m.payload.signingKey)
            && InForce(m.payload.notBefore, m.payload.expires, now)
            && Vouched(c, root, now, m.payload.issuer, m.payload, m.signature, PERMISSION_ISSUE_MEMBER)
  {
    hide Shape, AdminsValid, EndpointsValid, AppsValid, AppBindingsValid, DnsValid, DescriptorsValid, FindAdmin, Delegated;
    assert MemberOk(c, root, now, c.members[i]);
    var m := c.members[i].value;
    if m.payload.issuer != RootKeyId(root) {
      DelegatedBy(c, root, now, m.payload.issuer, PERMISSION_ISSUE_MEMBER);
    }
  }

  lemma AppTraces(c: Config, root: PublicKey, now: u64, i: nat)
    requires ValidAt(c, root, now) && i < |c.apps|
    ensures c.apps[i].Wire?
    ensures var a := c.apps[i].value;
            && a.payload.network == NetworkId(root) && a.payload.app == AppAddr(a.payload.rootKey)
            && Vouched(c, root, now, a.payload.issuer, a.payload, a.signature, PERMISSION_REGISTER_APP)
  {
    hide Shape, AdminsValid, MembersValid, EndpointsValid, AppBindingsValid, DnsValid, DescriptorsValid, FindAdmin, Delegated;
    assert AppOk(c, root, c.apps[i]);
    var a := c.apps[i].value;
    if a.payload.issuer != RootKeyId(root) {
      DelegatedBy(c, root, now, a.payload.issuer, PERMISSION_REGISTER_APP);
    }
  }

  /** An endpoint binding is signed by a member of the snapshot, an application binding by the root
      key of a registered application, for a member of the snapshot. */
  lemma BindingsTrace(c: Config, root: PublicKey, now: u64)
    requires ValidAt(c, root, now)
    ensures forall i :: 0 <= i < |c.endpointBindings| ==>
              && c.endpointBindings[i].Wire?
              && var b := c.endpointBindings[i].value;
                 now < b.payload.expires && exists n :: MemberSigns(c, n, b)
    ensures forall i :: 0 <= i < |c.appBindings| ==>
              && c.appBindings[i].Wire?
              && var b := c.appBindings[i].value;
                 now < b.payload.expires && (exists n :: AppSigns(c, n, b)) && exists n :: IsSubject(c, n, b)
  {
    hide Shape, AdminsValid, MembersValid, AppsValid, DnsValid, DescriptorsValid, FindMember, FindApp;
    forall i | 0 <= i < |c.endpointBindings|
      ensures c.endpointBindings[i].Wire? && now < c.endpointBindings[i].value.payload.expires
      ensures exists n :: MemberSigns(c, n, c.endpointBindings[i].value)
    {
      assert EndpointOk(c, root, now, c.endpointBindings[i]);
      var n := FindMemberFinds(c.members, c.endpointBindings[i].value.payload.memberId);
      assert MemberSigns(c, n, c.endpointBindings[i].value);
    }
    forall i | 0 <= i < |c.appBindings|
      ensures c.appBindings[i].Wire? && now < c.appBindings[i].value.payload.expires
      ensures (exists n :: AppSigns(c, n, c.appBindings[i].value)) && exists n :: IsSubject(c, n, c.appBindings[i].value)
    {
      assert AppBindingOk(c, root, now, c.appBindings[i]);
      var a := FindAppFinds(c.apps, c.appBindings[i].value.payload.app);
      var n := FindMemberFinds(c.members, c.appBindings[i].value.payload.subject);
      assert AppSigns(c, a, c.appBindings[i].value);
      assert IsSubject(c, n, c.appBindings[i].value);
    }
  }

  predicate MemberSigns(c: Config, n: int, b: EndpointBinding) {
    && 0 <= n < |c.members| && c.members[n].Wire?
    && var m := c.members[n].value.payload; m.memberId == b.payload.memberId && b.signature == Signature(m.signingKey, b.payload)
  }

  predicate AppSigns(c: Config, n: int, b: AppBinding) {
    && 0 <= n < |c.apps| && c.apps[n].Wire?
    && var a := c.apps[n].value.payload; a.app == b.payload.app && b.signature == Signature(a.rootKey, b.payload)
  }

  predicate IsSubject(c: Config, n: int, b: AppBinding) {
    0 <= n < |c.members| && c.members[n].Wire? && c.members[n].value.payload.memberId == b.payload.subject
  }
}
