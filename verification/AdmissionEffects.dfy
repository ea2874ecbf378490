/** What admitting a member takes and what it grants, by invitation or directly, field by field; and
    the other operations that add an entry. */
module AdmissionEffects {
  import opened Prelude
  import opened Credentials
  import opened Configs
  import opened SnapshotValidation
  import opened AuthorityOps
  import opened AuthorityLog
  import opened AuthorityHistory
  import opened AuthorityEffects
  import opened Authorization
  import Presence

  /** No member or endpoint of the snapshot is the requester's already. */
  predicate Newcomer(c: Config, p: JoinPayload) {
    && AllDecode(c.members) && AllDecode(c.endpointBindings)
    && (forall i :: 0 <= i < |c.members| ==>
          var m := c.members[i].value.payload; m.memberId != p.memberId && m.signingKey != p.signingKey && m.encryptionKey != p.encryptionKey)
    && (forall i :: 0 <= i < |c.endpointBindings| ==> c.endpointBindings[i].value.payload.endpoint != p.endpoint)
  }

  /** The administrator may issue members and is in its period already, and no counter is at its end. */
  predicate CanAdmit(keys: AuthorityKeys, c: Config, now: u64) {
    && PERMISSION_ISSUE_MEMBER in keys.Admin().permissions && keys.Admin().notBefore <= now
    && NextSerial(c).Ok? && c.epoch < U64_MAX && c.revision < U64_MAX
  }

  /** The certificate an admission makes. */
  function Admitting(keys: AuthorityKeys, p: JoinPayload, roles: Bits, serial: u64, now: u64, expires: u64): MemberCert {
    var payload := MemberPayload(keys.Network(), MemberId(keys.Network(), p.signingKey), p.signingKey, p.encryptionKey, roles, serial, now, expires,
                                 AdminKeyId(keys.adminKey));
    MemberCert(payload, Signature(keys.adminKey, payload))
  }

  // ---- direct invitations ----

  /** A member admitted directly lasts as long as it was given, its request, the administrator and
      the snapshot allow. */
  function InviteEnd(keys: AuthorityKeys, c: Config, op: Operation, now: u64): int
    requires op.Invite?
  {
    Min(Min(now + op.validFor, op.request.payload.expires), Min(keys.Admin().expires, c.expiresAt))
  }

  /** The guest asked for these roles itself, and bound its own endpoint for long enough. */
  predicate InviteInOrder(keys: AuthorityKeys, c: Config, op: Operation, now: u64)
    requires op.Invite?
  {
    var p, b := op.request.payload, op.binding;
    && VerifyJoin(op.request, keys.Network(), now).Ok? && op.roles != {} && op.roles <= p.roles
    && now + op.validFor <= U64_MAX && now < InviteEnd(keys, c, op, now) <= b.payload.expires
    && b.payload == EndpointPayload(keys.Network(), p.memberId, p.endpoint, 0, b.payload.expires) && b.signature == Signature(p.signingKey, b.payload)
  }

  lemma InviteAdmitsExactlyWhen(keys: AuthorityKeys, c: Config, head: Head, op: Operation, now: u64)
    requires op.Invite? && ManifestOk(keys)
    ensures DraftOf(keys, c, head, op, now).Ok? <==> InviteInOrder(keys, c, op, now) && Newcomer(c, op.request.payload) && CanAdmit(keys, c, now)
  {
    hide NextSerial;
  }

  /** It adds one certificate with exactly the granted roles and one endpoint, starts a new epoch
      with new secrets, and leaves everything else as it is. */
  lemma InviteGrants(keys: AuthorityKeys, c: Config, head: Head, op: Operation, now: u64, d: Draft)
    requires op.Invite? && ManifestOk(keys) && DraftOf(keys, c, head, op, now) == Ok(d)
    ensures NextSerial(c).Ok? && now < InviteEnd(keys, c, op, now) <= U64_MAX && c.epoch < U64_MAX && c.revision < U64_MAX
    ensures var p, expires := op.request.payload, InviteEnd(keys, c, op, now);
            var cert := Admitting(keys, p, op.roles, NextSerial(c).value, now, expires);
            && d.ticket == Some(TicketDraft(p.nonce, expires, cert, op.binding))
            && d.next == c.(epoch := c.epoch + 1, revision := c.revision + 1, previous := head.hash, issuedAt := now, secrets := op.secrets,
                            members := c.members + [Wire(cert)], endpointBindings := c.endpointBindings + [Wire(op.binding)])
  {
    hide NextSerial, EnsureJoinUnique;
  }

  // ---- redemptions ----

  /** Everything `redeem_invitation` demands of its arguments: an invitation of this network, in
      force, signed by an administrator in force, for the application whose key is at hand. */
  lemma RedeemableExactlyWhen(keys: AuthorityKeys, op: Operation, now: u64)
    requires op.Redeem?
    ensures var b, admin := op.invitation.body, op.invitation.body.adminCert.payload;
            RedeemChecks(keys, op, now).Ok? <==>
            && b.root == keys.root && b.network == keys.Network() && now < b.expires && b.app == AppAddr(op.appRoot)
            && AdminTimeless(b.adminCert, keys.root, {}) && admin.notBefore <= now < admin.expires
            && b.signer == admin.keyId && op.invitation.signature == DocumentSignature(admin.publicKey, b)
            && VerifyPrepared(op.prepared, keys.Network(), now).Ok?
  {
    hide VerifyPrepared;
  }

  function RedeemEnd(keys: AuthorityKeys, c: Config, op: Operation): u64
    requires op.Redeem?
  {
    Min(Min(op.invitation.body.expires, op.prepared.request.payload.expires), Min(keys.Admin().expires, c.expiresAt))
  }

  lemma RedeemAdmitsExactlyWhen(keys: AuthorityKeys, c: Config, head: Head, op: Operation, now: u64)
    requires op.Redeem? && ManifestOk(keys)
    ensures DraftOf(keys, c, head, op, now).Ok? <==>
            RedeemChecks(keys, op, now).Ok? && Newcomer(c, op.prepared.request.payload) && CanAdmit(keys, c, now) && now < RedeemEnd(keys, c, op)
  {
    hide NextSerial, VerifyInvitation;
  }

  /** The client binding a redemption grants: the invitation's application, to the new member, on the
      device of its own key, with no services, for as long as the certificate. */
  function ClientGrant(keys: AuthorityKeys, op: Operation, expires: u64): AppBinding
    requires op.Redeem?
  {
    var p, app := op.prepared.request.payload, op.invitation.body.app;
    var payload := AppBindingPayload(keys.Network(), app, p.memberId, Client(DeviceId(keys.Network(), app, p.signingKey)), expires, []);
    AppBinding(payload, Signature(op.appRoot, payload))
  }

  /** A redemption adds one certificate with the member role alone, the requester's endpoint and that
      one application binding, starts a new epoch, and leaves everything else as it is. */
  lemma RedeemGrants(keys: AuthorityKeys, c: Config, head: Head, op: Operation, now: u64, d: Draft)
    requires op.Redeem? && ManifestOk(keys) && DraftOf(keys, c, head, op, now) == Ok(d)
    ensures NextSerial(c).Ok? && now < RedeemEnd(keys, c, op) && c.epoch < U64_MAX && c.revision < U64_MAX
    ensures var p, expires := op.prepared.request.payload, RedeemEnd(keys, c, op);
            var cert := Admitting(keys, p, {ROLE_MEMBER}, NextSerial(c).value, now, expires);
            && d.ticket == Some(TicketDraft(p.nonce, expires, cert, op.prepared.binding))
            && d.next == c.(epoch := c.epoch + 1, revision := c.revision + 1, previous := head.hash, issuedAt := now, secrets := op.secrets,
                            members := c.members + [Wire(cert)], endpointBindings := c.endpointBindings + [Wire(op.prepared.binding)],
                            appBindings := c.appBindings + [Wire(ClientGrant(keys, op, expires))])
  {
    hide NextSerial, EnsureJoinUnique, VerifyInvitation;
  }

  /** So once the revision is there, the guest reaches every server of the invitation's application
      from its own device, through the endpoint it joined with, until the end of its admission. */
  lemma RedeemedGuestReaches(keys: AuthorityKeys, c: Config, head: Head, op: Operation, now: u64, d: Draft, local: EndpointId, server: MemberId, later: u64)
    requires op.Redeem? && ManifestOk(keys) && DraftOf(keys, c, head, op, now) == Ok(d) && ValidAt(d.next, keys.root, now)
    requires later < RedeemEnd(keys, c, op) && ActsFor(d.next, local, server, later) && ServerNow(d.next, server, op.invitation.body.app, later)
    ensures var p, app := op.prepared.request.payload, op.invitation.body.app;
            Presence.ClientAddr(app, DeviceId(keys.Network(), app, p.signingKey)) in
            LiveClients(d.next, local, p.endpoint, Presence.ServerAddr(app), later)
  {
    hide DraftOf, ValidAt, LiveClients, RedeemChecks, NextSerial;
    var p, app, expires := op.prepared.request.payload, op.invitation.body.app, RedeemEnd(keys, c, op);
    RedeemGrants(keys, c, head, op, now, d);
    RedeemAdmitsExactlyWhen(keys, c, head, op, now);
    RedeemersEndpoint(keys, op, now);
    assert d.next.appBindings[|c.appBindings|] == Wire(ClientGrant(keys, op, expires));
    assert d.next.members[|c.members|].Wire? && d.next.members[|c.members|].value.payload.memberId == p.memberId;
    assert d.next.endpointBindings[|c.endpointBindings|] == Wire(op.prepared.binding);
    assert ActsFor(d.next, p.endpoint, p.memberId, later);
    var a := Presence.ClientAddr(app, DeviceId(keys.Network(), app, p.signingKey));
    assert ClientNow(d.next, p.memberId, a, later);
    GrantedExactlyWhen(d.next, keys.root, now, local, p.endpoint, app, later, a);
  }

  lemma RedeemersEndpoint(keys: AuthorityKeys, op: Operation, now: u64)
    requires op.Redeem? && RedeemChecks(keys, op, now).Ok?
    ensures var p, b := op.prepared.request.payload, op.prepared.binding.payload;
            b.endpoint == p.endpoint && b.memberId == p.memberId == MemberId(keys.Network(), p.signingKey) && b.expires == p.expires
  {
    hide VerifyInvitation;
  }

  // ---- applications ----

  /** Registration takes a request signed by the application's own key, for an application that has
      none yet, and adds the administrator's registration of exactly that key and policy. */
  lemma RegisterAppAdds(keys: AuthorityKeys, c: Config, head: Head, op: Operation, now: u64)
    requires op.RegisterApp? && ManifestOk(keys)
    ensures var p := op.appRequest.payload;
            var payload := AppPayload(keys.Network(), p.app, p.rootKey, p.policy, AdminKeyId(keys.adminKey));
            var draft := DraftOf(keys, c, head, op, now);
            && (draft.Ok? <==>
                  && p.network == keys.Network() && p.app == AppAddr(p.rootKey) && p.rootKey.wellFormed && op.appRequest.signature == Signature(p.rootKey, p)
                  && (forall i :: 0 <= i < |c.apps| && c.apps[i].Wire? ==> c.apps[i].value.payload.app != p.app)
                  && PERMISSION_REGISTER_APP in keys.Admin().permissions && c.revision < U64_MAX)
            && (draft.Ok? ==>
                  draft.value == Draft(c.(revision := c.revision + 1, previous := head.hash, issuedAt := now,
                                          apps := c.apps + [Wire(AppRegistration(payload, Signature(keys.adminKey, payload)))]), None))
  {
  }

  /** A binding is taken as it is; whether it stands is for the validator to say. */
  lemma BindAppAdds(keys: AuthorityKeys, c: Config, head: Head, op: Operation, now: u64)
    requires op.BindApp?
    ensures DraftOf(keys, c, head, op, now) ==
            if c.revision == U64_MAX then Err(InvalidOptions)
            else Ok(Draft(c.(revision := c.revision + 1, previous := head.hash, issuedAt := now, appBindings := c.appBindings + [Wire(op.appBinding)]), None))
  {
  }

  // ---- names and relays ----

  /** A name is set exactly for a registered application, to run out later than now and no later than
      the snapshot. */
  lemma SetDnsExactlyWhen(keys: AuthorityKeys, c: Config, head: Head, op: Operation, now: u64)
    requires op.SetDns?
    ensures DraftOf(keys, c, head, op, now).Ok? <==>
            && (exists i :: 0 <= i < |c.apps| && c.apps[i].Wire? && c.apps[i].value.payload.app == op.app)
            && now < op.expires <= c.expiresAt && c.revision < U64_MAX
  {
    hide SortBy, Retain;
  }

  /** A relay is registered exactly for an endpoint whose member may relay, and may bootstrap if that
      is asked for, and outlives neither member, binding nor snapshot. */
  lemma SetRelayExactlyWhen(keys: AuthorityKeys, c: Config, head: Head, op: Operation, now: u64)
    requires op.SetRelay?
    ensures DraftOf(keys, c, head, op, now).Ok? <==>
            && op.relayRoles != {} && op.relayRoles <= {RELAY_DATA, RELAY_BOOTSTRAP, RELAY_PRESENCE} && op.urlParses && c.revision < U64_MAX
            && now < op.expires <= c.expiresAt
            && var b := FindEndpointBinding(c.endpointBindings, op.endpoint);
               && b.Some? && op.expires <= b.value.expires
               && var m := FindMember(c.members, b.value.memberId);
                  && m.Some? && op.expires <= m.value.expires && ROLE_RELAY in m.value.roles
                  && (RELAY_BOOTSTRAP in op.relayRoles ==> ROLE_BOOTSTRAP in m.value.roles)
  {
    hide SortBy, Retain, FindMember, FindEndpointBinding;
  }

  /** A member is revoked exactly if it is there and is not the authority itself. */
  lemma RevokeExactlyWhen(keys: AuthorityKeys, c: Config, head: Head, op: Operation, now: u64)
    requires op.Revoke?
    ensures DraftOf(keys, c, head, op, now).Ok? <==>
            var p := MemberPosition(c.members, op.member);
            && p.Some? && p.value < |c.members| && c.members[p.value].Wire?
            && c.members[p.value].value.payload.encryptionKey != keys.encryption && c.members[p.value].value.payload.serial !in c.revoked
            && c.epoch < U64_MAX && c.revision < U64_MAX
    ensures (forall i :: 0 <= i < |c.members| && c.members[i].Wire? ==> c.members[i].value.payload.memberId != op.member) ==>
            DraftOf(keys, c, head, op, now) == Err(MemberNotFound)
  {
    hide SortBy, Retain, EndpointsOf, MemberPosition;
    MemberPositionFinds(c.members, op.member);
  }

  // ---- invitations ----

  /** An invitation lasts as long as it was given, the administrator and the snapshot allow, is made
      only for a registered application, and is redeemable exactly until it runs out. */
  lemma InvitationLasts(keys: AuthorityKeys, handle: Handle, id: nat, bootstrap: EndpointId, app: AppAddr, service: VirtualName, validFor: u64, now: u64, later: u64)
    requires ManifestOk(keys)
    ensures var made := MakeInvitation(keys, handle, id, bootstrap, app, service, validFor, now);
            var expires := Min(now + validFor, Min(keys.Admin().expires, handle.config.expiresAt));
            && (made.Ok? <==> now + validFor <= U64_MAX && validFor != 0 && now < expires && AppRegistered(handle.config, app))
            && (made.Ok? ==>
                  && made.value.body == InvitationBody(id, keys.Network(), keys.root, bootstrap, app, service, expires, keys.adminCert, AdminKeyId(keys.adminKey))
                  && (VerifyInvitation(made.value, keys.root, later).Ok? <==> keys.Admin().notBefore <= later < expires))
  {
    hide AppRegistered;
  }
}
