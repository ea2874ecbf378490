/** The authority's named operations (`weaver-relay-core`): each turns the cached snapshot into
    the next one, which is then sealed, opened back and handed to the store. */
module AuthorityOps {
  import opened Prelude
  import opened Credentials
  import opened Configs
  import opened SnapshotValidation
  import opened Envelopes

  /** What an authority holds outside its state store: the manifest and its secrets. */
  datatype AuthorityKeys = AuthorityKeys(
    root: PublicKey,
    adminKey: PublicKey,
    adminCert: AdminCert,
    encryption: EncryptionKey,
    endpoint: EndpointId,
    genesis: Hash)
  {
    function Network(): NetworkId {
      NetworkId(root)
    }

    function Admin(): AdminPayload {
      adminCert.payload
    }
  }

  datatype AuthorityError =
    | InvalidOptions
    | CorruptState
    | InvalidJoinRequest
    | InvalidJoinTicket
    | InvalidInvitation
    | InvitationAlreadyUsed
    | InvitationRevoked
    | MemberNotFound
    | CannotRevokeAuthorityMember
    | ApplicationAlreadyRegistered
    | ApplicationNotFound
    | DnsRecordNotFound
    | RelayNotFound
    | UnknownConfigHead
    | HistoryUnavailable
    | StoreConflict
    | CryptoFailure(crypto: CertificateError)
    | ConfigFailure(config: ConfigError)

  function FromCrypto<T>(r: Result<T, CertificateError>): Result<T, AuthorityError> {
    match r
    case Ok(v) => Ok(v)
    case Err(e) => Err(CryptoFailure(e))
  }

  function FromConfig<T>(r: Result<T, ConfigError>): Result<T, AuthorityError> {
    match r
    case Ok(v) => Ok(v)
    case Err(e) => Err(ConfigFailure(e))
  }

  // ---- sorting ----

  function Insert<T>(x: T, s: seq<T>, le: (T, T) -> bool): seq<T> {
    if s == [] then [x]
    else if le(x, s[0]) then [x] + s
    else [s[0]] + Insert(x, s[1..], le)
  }

  function SortBy<T>(s: seq<T>, le: (T, T) -> bool): seq<T> {
    if s == [] then [] else Insert(s[0], SortBy(s[1..], le), le)
  }

  lemma {:induction false} InsertPermutes<T>(x: T, s: seq<T>, le: (T, T) -> bool)
    ensures multiset(Insert(x, s, le)) == multiset{x} + multiset(s)
  {
    if s != [] && !le(x, s[0]) {
      InsertPermutes(x, s[1..], le);
      assert s == [s[0]] + s[1..];
    }
  }

  lemma {:induction false} SortPermutes<T>(s: seq<T>, le: (T, T) -> bool)
    ensures multiset(SortBy(s, le)) == multiset(s)
  {
    if s != [] {
      SortPermutes(s[1..], le);
      InsertPermutes(s[0], SortBy(s[1..], le), le);
      assert s == [s[0]] + s[1..];
    }
  }

  lemma SortMember<T>(s: seq<T>, le: (T, T) -> bool, y: T)
    ensures y in SortBy(s, le) <==> y in s
  {
    SortPermutes(s, le);
    assert y in multiset(s) <==> y in s;
    assert y in multiset(SortBy(s, le)) <==> y in SortBy(s, le);
  }

  ghost predicate TotalOrder<T(!new)>(le: (T, T) -> bool) {
    && (forall x, y :: le(x, y) || le(y, x))
    && (forall x, y, z :: le(x, y) && le(y, z) ==> le(x, z))
  }

  predicate SortedBy<T>(s: seq<T>, le: (T, T) -> bool) {
    forall i, j :: 0 <= i < j < |s| ==> le(s[i], s[j])
  }

  lemma {:induction false} InsertSorts<T(!new)>(x: T, s: seq<T>, le: (T, T) -> bool)
    requires TotalOrder(le) && SortedBy(s, le)
    ensures SortedBy(Insert(x, s, le), le)
  {
    if s != [] && !le(x, s[0]) {
      InsertSorts(x, s[1..], le);
      InsertPermutes(x, s[1..], le);
      var rest := Insert(x, s[1..], le);
      forall j | 0 <= j < |rest|
        ensures le(s[0], rest[j])
      {
        assert rest[j] in multiset(rest);
        assert rest[j] == x || rest[j] in s[1..];
      }
    }
  }

  lemma {:induction false} SortSorts<T(!new)>(s: seq<T>, le: (T, T) -> bool)
    requires TotalOrder(le)
    ensures SortedBy(SortBy(s, le), le)
  {
    if s != [] {
      SortSorts(s[1..], le);
      InsertSorts(s[0], SortBy(s[1..], le), le);
    }
  }

  predicate StringLe(a: string, b: string) {
    a == [] || (b != [] && (a[0] < b[0] || (a[0] == b[0] && StringLe(a[1..], b[1..]))))
  }

  lemma {:induction false} StringLeTotal(a: string, b: string)
    ensures StringLe(a, b) || StringLe(b, a)
  {
    if a != [] && b != [] {
      StringLeTotal(a[1..], b[1..]);
    }
  }

  lemma {:induction false} StringLeTransitive(a: string, b: string, c: string)
    requires StringLe(a, b) && StringLe(b, c)
    ensures StringLe(a, c)
  {
    if a != [] && a[0] == b[0] && b[0] == c[0] {
      StringLeTransitive(a[1..], b[1..], c[1..]);
    }
  }

  // ---- serial numbers ----

  function AdminSerials(c: Config): seq<u64> {
    seq(|c.adminKeys|, i requires 0 <= i < |c.adminKeys| => if c.adminKeys[i].Wire? then c.adminKeys[i].value.payload.serial else 0)
  }

  function MemberSerials(c: Config): seq<u64> {
    seq(|c.members|, i requires 0 <= i < |c.members| => if c.members[i].Wire? then c.members[i].value.payload.serial else 0)
  }

  /** The largest serial a snapshot knows about, revoked ones included. */
  function SerialCeiling(c: Config): u64 {
    Max(MaxOf(c.revoked), Max(MaxOf(AdminSerials(c)), MaxOf(MemberSerials(c))))
  }

  /** `next_serial`. */
  function NextSerial(c: Config): Result<u64, AuthorityError> {
    if !AllDecode(c.adminKeys) || !AllDecode(c.members) then Err(CryptoFailure(MalformedWire))
    else CheckedInc(SerialCeiling(c), InvalidOptions)
  }

  lemma {:induction false} MaxOfAppend(s: seq<u64>, x: u64)
    ensures MaxOf(s + [x]) == Max(MaxOf(s), x)
  {
    if s == [] {
      assert [] + [x] == [x];
    } else {
      MaxOfAppend(s[1..], x);
      assert (s + [x])[1..] == s[1..] + [x];
    }
  }

  /** `next_serial` as the source computes it, one maximum over three scans. */
  method ComputeNextSerial(c: Config) returns (r: Result<u64, AuthorityError>)
    ensures r == NextSerial(c)
  {
    var maximum: u64 := 0;
    for i := 0 to |c.revoked|
      invariant maximum == MaxOf(c.revoked[..i])
    {
      MaxOfAppend(c.revoked[..i], c.revoked[i]);
      assert c.revoked[..i + 1] == c.revoked[..i] + [c.revoked[i]];
      maximum := Max(maximum, c.revoked[i]);
    }
    assert c.revoked[..|c.revoked|] == c.revoked;
    for i := 0 to |c.adminKeys|
      invariant forall k :: 0 <= k < i ==> c.adminKeys[k].Wire?
      invariant maximum == Max(MaxOf(c.revoked), MaxOf(AdminSerials(c)[..i]))
    {
      if c.adminKeys[i].Malformed? {
        return Err(CryptoFailure(MalformedWire));
      }
      MaxOfAppend(AdminSerials(c)[..i], AdminSerials(c)[i]);
      assert AdminSerials(c)[..i + 1] == AdminSerials(c)[..i] + [AdminSerials(c)[i]];
      maximum := Max(maximum, c.adminKeys[i].value.payload.serial);
    }
    assert AdminSerials(c)[..|c.adminKeys|] == AdminSerials(c);
    for i := 0 to |c.members|
      invariant forall k :: 0 <= k < i ==> c.members[k].Wire?
      invariant maximum == Max(Max(MaxOf(c.revoked), MaxOf(AdminSerials(c))), MaxOf(MemberSerials(c)[..i]))
    {
      if c.members[i].Malformed? {
        return Err(CryptoFailure(MalformedWire));
      }
      MaxOfAppend(MemberSerials(c)[..i], MemberSerials(c)[i]);
      assert MemberSerials(c)[..i + 1] == MemberSerials(c)[..i] + [MemberSerials(c)[i]];
      maximum := Max(maximum, c.members[i].value.payload.serial);
    }
    assert MemberSerials(c)[..|c.members|] == MemberSerials(c);
    return CheckedInc(maximum, InvalidOptions);
  }

  lemma {:induction false} MaxOfAttained(s: seq<u64>)
    ensures MaxOf(s) == 0 || MaxOf(s) in s
  {
    if s != [] {
      MaxOfAttained(s[1..]);
    }
  }

  /** A serial the snapshot knows about: revoked, an administrator's or a member's. */
  predicate KnownSerial(c: Config, serial: u64) {
    serial in c.revoked || serial in AdminSerials(c) || serial in MemberSerials(c)
  }

  /** The next serial is above every serial the snapshot knows, and is the least such one. */
  lemma NextSerialIsLeastFresh(c: Config)
    ensures forall s: u64 :: KnownSerial(c, s) ==> s <= SerialCeiling(c)
    ensures NextSerial(c).Ok? ==> (forall s: u64 :: KnownSerial(c, s) ==> s < NextSerial(c).value)
    ensures NextSerial(c).Ok? && NextSerial(c).value > 1 ==> KnownSerial(c, NextSerial(c).value - 1)
  {
    var top := SerialCeiling(c);
    MaxOfBounds(c.revoked, top);
    MaxOfBounds(AdminSerials(c), top);
    MaxOfBounds(MemberSerials(c), top);
    MaxOfAttained(c.revoked);
    MaxOfAttained(AdminSerials(c));
    MaxOfAttained(MemberSerials(c));
  }

  // ---- join requests against the current membership ----

  /** `ensure_join_is_unique`. */
  function EnsureJoinUnique(c: Config, request: JoinPayload): Result<(), AuthorityError> {
    if !AllDecode(c.members) || !AllDecode(c.endpointBindings) then Err(InvalidJoinRequest)
    else if exists i :: 0 <= i < |c.members| && Clashes(c.members[i].value.payload, request) then Err(InvalidJoinRequest)
    else if exists i :: 0 <= i < |c.endpointBindings| && c.endpointBindings[i].value.payload.endpoint == request.endpoint then Err(InvalidJoinRequest)
    else Ok(())
  }

  predicate Clashes(m: MemberPayload, request: JoinPayload) {
    m.memberId == request.memberId || m.signingKey == request.signingKey || m.encryptionKey == request.encryptionKey
  }

  // ---- invitations and tickets ----

  /** A signature over a document that itself carries signed credentials. */
  datatype DocumentSignature<M> = DocumentSignature(signer: PublicKey, message: M)

  datatype InvitationBody = InvitationBody(
    id: nat,
    network: NetworkId,
    root: PublicKey,
    bootstrap: EndpointId,
    app: AppAddr,
    service: VirtualName,
    expires: u64,
    adminCert: AdminCert,
    signer: KeyId)

  datatype Invitation = Invitation(body: InvitationBody, signature: DocumentSignature<InvitationBody>)

  /** `InvitationBundle::verify`. */
  function VerifyInvitation(invitation: Invitation, root: PublicKey, now: u64): Result<(), AuthorityError> {
    var b := invitation.body;
    var _ :- Need(b.root == root && b.network == NetworkId(root) && now < b.expires, InvalidInvitation);
    var admin :- FromCrypto(VerifyAdmin(b.adminCert, root, b.network, now, {}));
    var _ :- Need(admin.keyId == b.signer, InvalidInvitation);
    Need(invitation.signature == DocumentSignature(admin.publicKey, b), CryptoFailure(InvalidSignature))
  }

  datatype TicketBody = TicketBody(
    network: NetworkId,
    nonce: nat,
    expires: u64,
    head: Head,
    adminCert: AdminCert,
    member: MemberCert,
    binding: EndpointBinding,
    embedded: Envelope,
    signer: KeyId)

  datatype Ticket = Ticket(body: TicketBody, signature: DocumentSignature<TicketBody>)

  /** The parts of a ticket that are fixed before its revision is sealed. */
  datatype TicketDraft = TicketDraft(nonce: nat, expires: u64, member: MemberCert, binding: EndpointBinding)

  /** `JoinTicket::issue`. */
  function IssueTicket(keys: AuthorityKeys, draft: TicketDraft, head: Head, embedded: Envelope): Ticket {
    var body := TicketBody(keys.Network(), draft.nonce, draft.expires, head, keys.adminCert, draft.member, draft.binding, embedded, AdminKeyId(keys.adminKey));
    Ticket(body, DocumentSignature(keys.adminKey, body))
  }

  /** `JoinTicket::verify`. */
  function VerifyTicket(ticket: Ticket, root: PublicKey, network: NetworkId, nonce: nat, endpoint: EndpointId, now: u64)
    : Result<(), AuthorityError>
  {
    var b := ticket.body;
    var _ :- Need(b.network == network && NetworkId(root) == network && b.nonce == nonce && now < b.expires, InvalidJoinTicket);
    var admin :- FromCrypto(VerifyAdmin(b.adminCert, root, network, now, {}));
    var _ :- Need(b.signer == admin.keyId, InvalidJoinTicket);
    var _ :- Need(ticket.signature == DocumentSignature(admin.publicKey, b), CryptoFailure(InvalidSignature));
    var member :- FromCrypto(VerifyMemberWithAdmin(b.member, admin, network, now, {}));
    var _ :- FromCrypto(VerifyEndpoint(b.binding, member, network, endpoint, now));
    Need(b.embedded.body.network == network && HeadOf(b.embedded) == b.head, InvalidJoinTicket)
  }

  // ---- the operations ----

  datatype Operation =
    | Invite(request: JoinRequest, binding: EndpointBinding, roles: Bits, validFor: u64, secrets: EpochSecrets)
    | Redeem(invitation: Invitation, prepared: PreparedJoin, appRoot: PublicKey, secrets: EpochSecrets)
    | Revoke(member: MemberId, secrets: EpochSecrets)
    | RegisterApp(appRequest: AppRequest)
    | BindApp(appBinding: AppBinding)
    | SetDns(name: VirtualName, app: AppAddr, expires: u64)
    | RemoveDns(name: VirtualName)
    | SetRelay(endpoint: EndpointId, url: string, urlParses: bool, relayRoles: Bits, expires: u64)
    | RemoveRelay(endpoint: EndpointId)
    | Direct(next: Config)

  /** All but a direct call of the public `commit_config` with a snapshot of the caller's making. */
  predicate Named(op: Operation) {
    !op.Direct?
  }

  datatype Draft = Draft(next: Config, ticket: Option<TicketDraft>)

  /** `prepare_next_revision`. */
  function NextRevision(c: Config, head: Head, now: u64): Result<Config, AuthorityError> {
    var revision :- CheckedInc(c.revision, InvalidOptions);
    Ok(c.(revision := revision, previous := head.hash, issuedAt := now))
  }

  /** The same with a new epoch and fresh epoch secrets, as every change of membership does. */
  function NextEpoch(c: Config, head: Head, now: u64, secrets: EpochSecrets): Result<Config, AuthorityError> {
    var epoch :- CheckedInc(c.epoch, InvalidOptions);
    var next :- NextRevision(c, head, now);
    Ok(next.(epoch := epoch, secrets := secrets))
  }

  function InviteDraft(keys: AuthorityKeys, c: Config, head: Head, op: Operation, now: u64): Result<Draft, AuthorityError>
    requires op.Invite?
  {
    var request :- FromCrypto(VerifyJoin(op.request, keys.Network(), now));
    var _ :- Need(op.roles <= request.roles && op.roles != {}, InvalidOptions);
    var _ :- Need(now + op.validFor <= U64_MAX, InvalidOptions);
    var expires: u64 := Min(Min(now + op.validFor, request.expires), Min(keys.Admin().expires, c.expiresAt));
    var _ :- Need(now < expires, InvalidOptions);
    var b := op.binding.payload;
    var _ :- Need(b.network == keys.Network() && b.memberId == request.memberId && b.endpoint == request.endpoint
                  && b.sequence == 0 && expires <= b.expires, InvalidJoinRequest);
    var _ :- EnsureJoinUnique(c, request);
    var serial :- NextSerial(c);
    var member :- FromCrypto(IssueMemberByAdmin(keys.adminKey, keys.Admin(), request.signingKey, request.encryptionKey, op.roles, serial, now, expires));
    var verified :- FromCrypto(VerifyMemberWithAdmin(member, keys.Admin(), keys.Network(), now, {}));
    var _ :- FromCrypto(VerifyEndpoint(op.binding, verified, keys.Network(), request.endpoint, now));
    var next :- NextEpoch(c, head, now, op.secrets);
    Ok(Draft(next.(members := c.members + [Wire(member)], endpointBindings := c.endpointBindings + [Wire(op.binding)]),
             Some(TicketDraft(request.nonce, expires, member, op.binding))))
  }

  /** The part of `redeem_invitation` before any store access. */
  function RedeemChecks(keys: AuthorityKeys, op: Operation, now: u64): Result<(), AuthorityError>
    requires op.Redeem?
  {
    var _ :- VerifyInvitation(op.invitation, keys.root, now);
    var _ :- Need(op.invitation.body.app == AppAddr(op.appRoot), InvalidInvitation);
    var _ :- FromCrypto(VerifyPrepared(op.prepared, keys.Network(), now));
    Ok(())
  }

  function RedeemDraft(keys: AuthorityKeys, c: Config, head: Head, op: Operation, now: u64): Result<Draft, AuthorityError>
    requires op.Redeem?
  {
    var _ :- RedeemChecks(keys, op, now);
    var request :- FromCrypto(VerifyJoin(op.prepared.request, keys.Network(), now));
    var _ :- EnsureJoinUnique(c, request);
    var expires: u64 := Min(Min(op.invitation.body.expires, request.expires), Min(keys.Admin().expires, c.expiresAt));
    var _ :- Need(now < expires, InvalidInvitation);
    var serial :- NextSerial(c);
    var member :- FromCrypto(IssueMemberByAdmin(keys.adminKey, keys.Admin(), request.signingKey, request.encryptionKey, {ROLE_MEMBER}, serial, now, expires));
    var verified :- FromCrypto(VerifyMemberWithAdmin(member, keys.Admin(), keys.Network(), now, {}));
    var _ :- FromCrypto(VerifyEndpoint(op.prepared.binding, verified, keys.Network(), request.endpoint, now));
    var device := DeviceId(keys.Network(), op.invitation.body.app, request.signingKey);
    var appBinding := IssueAppBinding(op.appRoot, keys.Network(), request.memberId, Client(device), expires);
    var next :- NextEpoch(c, head, now, op.secrets);
    Ok(Draft(next.(members := c.members + [Wire(member)],
                   endpointBindings := c.endpointBindings + [Wire(op.prepared.binding)],
                   appBindings := c.appBindings + [Wire(appBinding)]),
             Some(TicketDraft(request.nonce, expires, member, op.prepared.binding))))
  }

  /** Position of the first member certificate with this identifier. */
  function MemberPosition(raws: seq<Raw<MemberCert>>, id: MemberId): Option<nat> {
    if raws == [] then None
    else if raws[0].Wire? && raws[0].value.payload.memberId == id then Some(0)
    else
      match MemberPosition(raws[1..], id)
      case Some(i) => Some(i + 1)
      case None => None
  }

  lemma {:induction false} MemberPositionFinds(raws: seq<Raw<MemberCert>>, id: MemberId)
    ensures var p := MemberPosition(raws, id);
            && (p.Some? ==> p.value < |raws| && raws[p.value].Wire? && raws[p.value].value.payload.memberId == id)
            && (p.None? ==> forall i :: 0 <= i < |raws| && raws[i].Wire? ==> raws[i].value.payload.memberId != id)
  {
    if raws != [] {
      MemberPositionFinds(raws[1..], id);
      assert forall i :: 1 <= i < |raws| ==> raws[i] == raws[1..][i - 1];
    }
  }

  predicate BoundTo(raw: Raw<EndpointBinding>, id: MemberId) {
    raw.Wire? && raw.value.payload.memberId == id
  }

  /** The endpoints the snapshot binds to a member. */
  function EndpointsOf(c: Config, id: MemberId): set<EndpointId> {
    set i | 0 <= i < |c.endpointBindings| && BoundTo(c.endpointBindings[i], id) :: c.endpointBindings[i].value.payload.endpoint
  }

  function RevokeDraft(keys: AuthorityKeys, c: Config, head: Head, op: Operation, now: u64): Result<Draft, AuthorityError>
    requires op.Revoke?
  {
    var position := MemberPosition(c.members, op.member);
    var _ :- Need(position.Some?, MemberNotFound);
    MemberPositionFinds(c.members, op.member);
    var removed := c.members[position.value].value.payload;
    var _ :- Need(removed.encryptionKey != keys.encryption, CannotRevokeAuthorityMember);
    var _ :- Need(removed.serial !in c.revoked, MemberNotFound);
    var endpoints := EndpointsOf(c, op.member);
    var next :- NextEpoch(c, head, now, op.secrets);
    Ok(Draft(next.(members := c.members[..position.value] + c.members[position.value + 1..],
                   endpointBindings := Retain(c.endpointBindings, (raw: Raw<EndpointBinding>) => raw.Wire? && raw.value.payload.memberId != op.member),
                   appBindings := Retain(c.appBindings, (raw: Raw<AppBinding>) => raw.Wire? && raw.value.payload.subject != op.member),
                   relays := Retain(c.relays, (r: Relay) => r.endpoint !in endpoints),
                   presence := Retain(c.presence, (p: PresenceService) => p.endpoint !in endpoints),
                   revoked := SortBy(c.revoked + [removed.serial], (a: u64, b: u64) => a <= b)),
             None))
  }

  predicate AppRegistered(c: Config, app: AppAddr) {
    exists i :: 0 <= i < |c.apps| && c.apps[i].Wire? && c.apps[i].value.payload.app == app
  }

  function RegisterAppDraft(keys: AuthorityKeys, c: Config, head: Head, op: Operation, now: u64): Result<Draft, AuthorityError>
    requires op.RegisterApp?
  {
    var request :- FromCrypto(VerifyAppRequest(op.appRequest, keys.Network()));
    var _ :- Need(!AppRegistered(c, request.app), ApplicationAlreadyRegistered);
    var registration :- FromCrypto(IssueAppByAdmin(keys.adminKey, keys.Admin(), request));
    var next :- NextRevision(c, head, now);
    Ok(Draft(next.(apps := c.apps + [Wire(registration)]), None))
  }

  function BindAppDraft(c: Config, head: Head, op: Operation, now: u64): Result<Draft, AuthorityError>
    requires op.BindApp?
  {
    var next :- NextRevision(c, head, now);
    Ok(Draft(next.(appBindings := c.appBindings + [Wire(op.appBinding)]), None))
  }

  function SetDnsDraft(c: Config, head: Head, op: Operation, now: u64): Result<Draft, AuthorityError>
    requires op.SetDns?
  {
    var _ :- Need(AppRegistered(c, op.app), ApplicationNotFound);
    var _ :- Need(now < op.expires <= c.expiresAt, InvalidOptions);
    var others := Retain(c.dns, (r: DnsRecord) => r.name != op.name);
    var next :- NextRevision(c, head, now);
    Ok(Draft(next.(dns := SortBy(others + [DnsRecord(op.name, op.app, op.expires)], (a: DnsRecord, b: DnsRecord) => StringLe(a.name, b.name))), None))
  }

  function RemoveDnsDraft(c: Config, head: Head, op: Operation, now: u64): Result<Draft, AuthorityError>
    requires op.RemoveDns?
  {
    var others := Retain(c.dns, (r: DnsRecord) => r.name != op.name);
    var _ :- Need(|others| != |c.dns|, DnsRecordNotFound);
    var next :- NextRevision(c, head, now);
    Ok(Draft(next.(dns := others), None))
  }

  function FindEndpointBinding(raws: seq<Raw<EndpointBinding>>, endpoint: EndpointId): Option<EndpointPayload> {
    if raws == [] then None
    else if raws[0].Wire? && raws[0].value.payload.endpoint == endpoint then Some(raws[0].value.payload)
    else FindEndpointBinding(raws[1..], endpoint)
  }

  const KNOWN_RELAY_ROLES: Bits := {RELAY_DATA, RELAY_BOOTSTRAP, RELAY_PRESENCE}

  function SetRelayDraft(c: Config, head: Head, op: Operation, now: u64): Result<Draft, AuthorityError>
    requires op.SetRelay?
  {
    var _ :- Need(op.relayRoles != {} && op.relayRoles <= KNOWN_RELAY_ROLES && now < op.expires <= c.expiresAt && op.urlParses, InvalidOptions);
    var binding := FindEndpointBinding(c.endpointBindings, op.endpoint);
    var _ :- Need(binding.Some?, MemberNotFound);
    var member := FindMember(c.members, binding.value.memberId);
    var _ :- Need(member.Some?, MemberNotFound);
    var _ :- Need(ROLE_RELAY in member.value.roles
                  && (RELAY_BOOTSTRAP in op.relayRoles ==> ROLE_BOOTSTRAP in member.value.roles)
                  && op.expires <= member.value.expires && op.expires <= binding.value.expires, InvalidOptions);
    var relays := Retain(c.relays, (r: Relay) => r.endpoint != op.endpoint) + [Relay(op.endpoint, op.url, op.relayRoles, op.expires)];
    var others := Retain(c.presence, (p: PresenceService) => p.endpoint != op.endpoint);
    var presence := if RELAY_PRESENCE in op.relayRoles then others + [PresenceService(op.endpoint, op.url, op.expires)] else others;
    var next :- NextRevision(c, head, now);
    Ok(Draft(next.(relays := SortBy(relays, (a: Relay, b: Relay) => a.endpoint.id <= b.endpoint.id),
                   presence := SortBy(presence, (a: PresenceService, b: PresenceService) => a.endpoint.id <= b.endpoint.id)), None))
  }

  function RemoveRelayDraft(c: Config, head: Head, op: Operation, now: u64): Result<Draft, AuthorityError>
    requires op.RemoveRelay?
  {
    var relays := Retain(c.relays, (r: Relay) => r.endpoint != op.endpoint);
    var _ :- Need(|relays| != |c.relays|, RelayNotFound);
    var next :- NextRevision(c, head, now);
    Ok(Draft(next.(relays := relays, presence := Retain(c.presence, (p: PresenceService) => p.endpoint != op.endpoint)), None))
  }

  /** The next snapshot an operation asks for, given the snapshot and head it starts from. */
  function DraftOf(keys: AuthorityKeys, c: Config, head: Head, op: Operation, now: u64): Result<Draft, AuthorityError> {
    match op
    case Invite(_, _, _, _, _) => InviteDraft(keys, c, head, op, now)
    case Redeem(_, _, _, _) => RedeemDraft(keys, c, head, op, now)
    case Revoke(_, _) => RevokeDraft(keys, c, head, op, now)
    case RegisterApp(_) => RegisterAppDraft(keys, c, head, op, now)
    case BindApp(_) => BindAppDraft(c, head, op, now)
    case SetDns(_, _, _) => SetDnsDraft(c, head, op, now)
    case RemoveDns(_) => RemoveDnsDraft(c, head, op, now)
    case SetRelay(_, _, _, _, _) => SetRelayDraft(c, head, op, now)
    case RemoveRelay(_) => RemoveRelayDraft(c, head, op, now)
    case Direct(next) => Ok(Draft(next, None))
  }

  /** A sealed revision that has not reached the store yet. */
  datatype Plan = Plan(op: Operation, now: u64, choices: SealChoices, ticket: Option<TicketDraft>, envelope: Envelope, config: Config, head: Head)

  /** Everything `commit_config` and `redeem_invitation` do between reading the handle's cached
      snapshot and writing to the store: draft, recipients, seal, and open back. */
  function Prepare(keys: AuthorityKeys, c: Config, head: Head, op: Operation, now: u64, choices: SealChoices): Result<Plan, AuthorityError> {
    var draft :- DraftOf(keys, c, head, op, now);
    var recipients :- FromConfig(ActiveRecipients(draft.next));
    var envelope :- FromConfig(SealNext(keys.root, keys.adminKey, c, head, draft.next, recipients, now, choices));
    var readBack :- FromConfig(OpenNext(envelope, keys.root, c, keys.encryption, head, now));
    Ok(Plan(op, now, choices, draft.ticket, envelope, readBack.config, readBack.head))
  }

  /** What a prepared plan amounts to: the drafted snapshot, sealed to exactly its members by the
      online administrator, chained to the head it was drafted from, valid now, and readable by
      the authority itself. */
  lemma PreparedPlan(keys: AuthorityKeys, c: Config, head: Head, op: Operation, now: u64, choices: SealChoices, plan: Plan)
    requires Prepare(keys, c, head, op, now, choices) == Ok(plan)
    ensures DraftOf(keys, c, head, op, now) == Ok(Draft(plan.config, plan.ticket))
    ensures plan.op == op && plan.now == now && plan.choices == choices
    ensures plan.head == HeadOf(plan.envelope) == Head(plan.config.epoch, plan.config.revision, Digest(plan.envelope))
    ensures plan.envelope.body.payloadHash == plan.envelope.body.ciphertext.plaintext == Snapshot(plan.config)
    ensures plan.envelope.body.network == plan.config.network == keys.Network()
    ensures plan.envelope.body.signer == AdminKeyId(keys.adminKey) && Verifies(keys.adminKey, plan.envelope.body, plan.envelope.signature)
    ensures ChainOk(plan.envelope, Next(head)) && plan.config.previous == head.hash == plan.envelope.body.previous
    ensures ValidAt(plan.config, keys.root, plan.config.issuedAt) && ValidAt(plan.config, keys.root, now)
    ensures forall k :: FindContentKey(plan.envelope.body.wraps, k, AadOf(plan.envelope.body)) ==
                        if k in MemberKeys(plan.config) then Some(plan.envelope.body.ciphertext.contentKey) else None
    ensures plan.envelope.body.ciphertext.nonce == plan.envelope.body.nonce && plan.envelope.body.ciphertext.aad == AadOf(plan.envelope.body)
    ensures Distinct(Recipients(plan.envelope)) && Elements(Recipients(plan.envelope)) == MemberKeys(plan.config)
    ensures |Recipients(plan.envelope)| == |plan.config.members|
    ensures keys.encryption in MemberKeys(plan.config)
  {
    hide DraftOf, ValidAt, OpenNext, SealWithSigner, RecipientSetOk, FindContentKey, MemberKeys, VerifiedAdminOf, ActiveRecipients, Distinct, Recipients;
    var draft := DraftOf(keys, c, head, op, now).value;
    var recipients := ActiveRecipients(draft.next).value;
    var e := SealNext(keys.root, keys.adminKey, c, head, draft.next, recipients, now, choices).value;
    SealedNextOpens(keys.root, keys.adminKey, c, head, draft.next, recipients, now, choices, e, keys.encryption, now);
    SealedFields(AdminKeyId(keys.adminKey), keys.adminKey, draft.next, recipients, choices, e);
    SealedRecipients(AdminKeyId(keys.adminKey), keys.adminKey, draft.next, recipients, choices, e);
    RecipientSetExact(draft.next, recipients);
    SameElements(Recipients(e), recipients);
  }

  /** An operation can be prepared exactly when its draft can be sealed and is valid already, and
      the authority is among its readers. */
  lemma PreparesExactlyWhen(keys: AuthorityKeys, c: Config, head: Head, op: Operation, now: u64, choices: SealChoices, d: Draft)
    requires DraftOf(keys, c, head, op, now) == Ok(d) && AllDecode(d.next.members)
    ensures Prepare(keys, c, head, op, now, choices).Ok? <==>
            && SealNext(keys.root, keys.adminKey, c, head, d.next, ActiveRecipients(d.next).value, now, choices).Ok?
            && keys.encryption in MemberKeys(d.next) && ValidAt(d.next, keys.root, now)
  {
    hide DraftOf, ValidAt, OpenNext, SealWithSigner, RecipientSetOk, MemberKeys, VerifiedAdminOf;
    var recipients := ActiveRecipients(d.next).value;
    var sealed := SealNext(keys.root, keys.adminKey, c, head, d.next, recipients, now, choices);
    if sealed.Ok? {
      SealedNextOpens(keys.root, keys.adminKey, c, head, d.next, recipients, now, choices, sealed.value, keys.encryption, now);
    }
  }

  lemma SameElements(a: seq<EncryptionKey>, b: seq<EncryptionKey>)
    requires multiset(a) == multiset(b) && Distinct(b)
    ensures Elements(a) == Elements(b) && |a| == |b| && Distinct(a)
  {
    assert |multiset(a)| == |a| && |multiset(b)| == |b|;
    assert forall k :: k in a <==> k in multiset(a);
    assert forall k :: k in b <==> k in multiset(b);
    assert Elements(a) == Elements(b);
    DistinctCardinality(a);
    DistinctCardinality(b);
  }
}
