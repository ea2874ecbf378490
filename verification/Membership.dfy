/** `join`: a prepared node turns an authority's ticket into its first configuration checkpoint. */
module Membership {
  import opened Prelude
  import opened Credentials
  import opened Configs
  import opened SnapshotValidation
  import opened Envelopes
  import opened AuthorityOps
  import opened AuthorityLog
  import opened AuthorityInvariant
  import opened AuthorityHistory
  import opened VersionedStore
  import opened Replica
  import opened ReplicaRuns
  import opened ReplicaInvariant

  /** The node's stored secrets, each named by its public half. */
  datatype Secrets = Secrets(signing: Option<PublicKey>, encryption: Option<EncryptionKey>, endpoint: Option<EndpointId>)

  datatype JoinError =
    | NotPrepared
    | SecretMissing
    | SecretMismatch
    | TicketMemberMismatch
    | AlreadyJoined
    | BadRequest(certificate: CertificateError)
    | BadTicket(authority: AuthorityError)
    | BadEnvelope(config: ConfigError)

  function OrRequest<T>(r: Result<T, CertificateError>): Result<T, JoinError> {
    match r
    case Ok(v) => Ok(v)
    case Err(e) => Err(BadRequest(e))
  }

  function OrTicket<T>(r: Result<T, AuthorityError>): Result<T, JoinError> {
    match r
    case Ok(v) => Ok(v)
    case Err(e) => Err(BadTicket(e))
  }

  function OrEnvelope<T>(r: Result<T, ConfigError>): Result<T, JoinError> {
    match r
    case Ok(v) => Ok(v)
    case Err(e) => Err(BadEnvelope(e))
  }

  function SecretsMatch(secrets: Secrets, request: JoinPayload): Result<(), JoinError> {
    var _ :- Need(secrets.encryption.Some?, SecretMissing);
    var _ :- Need(secrets.encryption.value == request.encryptionKey, SecretMismatch);
    var _ :- Need(secrets.endpoint.Some?, SecretMissing);
    var _ :- Need(secrets.endpoint.value == request.endpoint, SecretMismatch);
    var _ :- Need(secrets.signing.Some?, SecretMissing);
    Need(secrets.signing.value == request.signingKey, SecretMismatch)
  }

  /** Everything `join` checks before it writes. */
  function JoinChecks(root: PublicKey, secrets: Secrets, prepared: PreparedJoin, ticket: Ticket, now: u64): Result<Opened, JoinError> {
    var network := NetworkId(root);
    var request :- OrRequest(VerifyPrepared(prepared, network, now));
    var _ :- OrTicket(VerifyTicket(ticket, root, network, request.nonce, request.endpoint, now));
    var _ :- SecretsMatch(secrets, request);
    var admin :- OrRequest(VerifyAdmin(ticket.body.adminCert, root, network, now, {}));
    var current :- OrEnvelope(OpenWithAdmin(ticket.body.embedded, root, admin, request.encryptionKey, Checkpoint(ticket.body.head), now));
    var member := ticket.body.member.payload;
    var _ :- Need(member.memberId == request.memberId && member.signingKey == request.signingKey && member.encryptionKey == request.encryptionKey,
                  TicketMemberMismatch);
    Ok(current)
  }

  /** The checkpoint appears and the prepared request goes, in one batch. */
  function JoinOps(ticket: Ticket, head: Head, version: nat): seq<Op<Slot, Content>> {
    [ Put(ConfigEnvelope, EnvelopeBytes(ticket.body.embedded), Missing),
      Put(ConfigHead, HeadBytes(head), Missing),
      Put(ConfigSigner, SignerBytes(ticket.body.adminCert), Missing),
      Put(OwnCertificate, CertificateBytes(ticket.body.member), Missing),
      Put(OwnBinding, BindingBytes(ticket.body.binding), Missing),
      Delete(PreparedRequest, Exact(version)) ]
  }

  datatype JoinOutcome = JoinOutcome(store: MemberStore, answer: Result<Head, JoinError>)

  function Join(root: PublicKey, secrets: Secrets, store: MemberStore, ticket: Ticket, now: u64): JoinOutcome {
    if PreparedRequest !in store.records || !store.records[PreparedRequest].value.PreparedBytes? then JoinOutcome(store, Err(NotPrepared))
    else
      var record := store.records[PreparedRequest];
      match JoinChecks(root, secrets, record.value.prepared, ticket, now)
      case Err(e) => JoinOutcome(store, Err(e))
      case Ok(current) =>
        match Commit(store, JoinOps(ticket, current.head, record.version))
        case Err(_) => JoinOutcome(store, Err(AlreadyJoined))
        case Ok(t) => JoinOutcome(t, Ok(current.head))
  }

  /** A node's stores, and `join` as it changes them. */
  class Node {
    const root: PublicKey
    const secrets: Secrets
    var store: MemberStore

    constructor (root: PublicKey, secrets: Secrets, store: MemberStore)
      ensures this.root == root && this.secrets == secrets && this.store == store
    {
      this.root, this.secrets, this.store := root, secrets, store;
    }

    method AcceptTicket(ticket: Ticket, now: u64) returns (answer: Result<Head, JoinError>)
      modifies this
      ensures JoinOutcome(store, answer) == Join(root, secrets, old(store), ticket, now)
    {
      hide VerifyPrepared, VerifyTicket, VerifyAdmin, OpenWithAdmin, SecretsMatch, Commit;
      if PreparedRequest !in store.records || !store.records[PreparedRequest].value.PreparedBytes? {
        return Err(NotPrepared);
      }
      var record, network := store.records[PreparedRequest], NetworkId(root);
      var request := VerifyPrepared(record.value.prepared, network, now);
      if request.Err? {
        return Err(BadRequest(request.error));
      }
      var verified := VerifyTicket(ticket, root, network, request.value.nonce, request.value.endpoint, now);
      if verified.Err? {
        return Err(BadTicket(verified.error));
      }
      var matched := SecretsMatch(secrets, request.value);
      if matched.Err? {
        return Err(matched.error);
      }
      var admin := VerifyAdmin(ticket.body.adminCert, root, network, now, {});
      if admin.Err? {
        return Err(BadRequest(admin.error));
      }
      var current := OpenWithAdmin(ticket.body.embedded, root, admin.value, request.value.encryptionKey, Checkpoint(ticket.body.head), now);
      if current.Err? {
        return Err(BadEnvelope(current.error));
      }
      var member := ticket.body.member.payload;
      if member.memberId != request.value.memberId || member.signingKey != request.value.signingKey || member.encryptionKey != request.value.encryptionKey {
        return Err(TicketMemberMismatch);
      }
      var committed := Commit(store, JoinOps(ticket, current.value.head, record.version));
      if committed.Err? {
        return Err(AlreadyJoined);
      }
      store := committed.value;
      return Ok(current.value.head);
    }
  }

  // ---- what an enrolment's ticket promises ----

  /** The facts an enrolling operation establishes at the time it issues its ticket. */
  predicate TicketFacts(keys: AuthorityKeys, request: JoinPayload, d: TicketDraft, config: Config, at: u64) {
    var m := d.member.payload;
    && d.nonce == request.nonce && d.expires <= request.expires && at < d.expires
    && m == MemberPayload(keys.Network(), MemberId(keys.Network(), request.signingKey), request.signingKey, request.encryptionKey,
                          m.roles, m.serial, at, d.expires, keys.Admin().keyId)
    && request.memberId == m.memberId
    && VerifyMemberWithAdmin(d.member, keys.Admin(), keys.Network(), at, {}).Ok?
    && VerifyEndpoint(d.binding, m, keys.Network(), request.endpoint, at).Ok?
    && keys.Admin().notBefore <= at && d.expires <= keys.Admin().expires
    && Wire(d.member) in config.members && Wire(d.binding) in config.endpointBindings
    && request.encryptionKey in MemberKeys(config)
  }

  lemma LastMemberKey(c: Config, m: MemberCert)
    requires Wire(m) in c.members
    ensures m.payload.encryptionKey in MemberKeys(c)
  {
  }

  lemma InviteFacts(keys: AuthorityKeys, c: Config, head: Head, op: Operation, now: u64, d: Draft)
    requires op.Invite? && DraftOf(keys, c, head, op, now) == Ok(d)
    ensures d.ticket.Some? && TicketFacts(keys, op.request.payload, d.ticket.value, d.next, now)
  {
    hide EnsureJoinUnique, NextSerial, MemberKeys;
    LastMemberKey(d.next, d.ticket.value.member);
  }

  lemma RedeemFacts(keys: AuthorityKeys, c: Config, head: Head, op: Operation, now: u64, d: Draft)
    requires op.Redeem? && DraftOf(keys, c, head, op, now) == Ok(d)
    ensures d.ticket.Some? && TicketFacts(keys, op.prepared.request.payload, d.ticket.value, d.next, now)
    ensures VerifyPrepared(op.prepared, keys.Network(), now).Ok?
  {
    hide EnsureJoinUnique, NextSerial, MemberKeys, VerifyInvitation;
    LastMemberKey(d.next, d.ticket.value.member);
  }

  // ---- at which times each check passes ----

  lemma PreparedAtTime(prepared: PreparedJoin, network: NetworkId, at: u64, now: u64)
    requires VerifyPrepared(prepared, network, at).Ok?
    ensures VerifyPrepared(prepared, network, now).Ok? <==> now < prepared.request.payload.expires
    ensures VerifyPrepared(prepared, network, now).Ok? ==> VerifyPrepared(prepared, network, now).value == prepared.request.payload
  {
  }

  lemma TicketAtTime(keys: AuthorityKeys, request: JoinPayload, d: TicketDraft, config: Config, at: u64, e: Envelope, now: u64)
    requires ManifestOk(keys) && TicketFacts(keys, request, d, config, at) && e.body.network == keys.Network()
    ensures VerifyTicket(IssueTicket(keys, d, HeadOf(e), e), keys.root, keys.Network(), request.nonce, request.endpoint, now).Ok? <==>
            at <= now < d.expires && now < d.binding.payload.expires
  {
    hide MemberKeys;
  }

  lemma EmbeddedAtTime(keys: AuthorityKeys, e: Envelope, c: Config, key: EncryptionKey, now: u64)
    requires ManifestOk(keys) && Carries(e, c) && WrappedToMembers(e, c) && key in MemberKeys(c) && c.network == keys.Network()
    requires e.body.signer == AdminKeyId(keys.adminKey) && Verifies(keys.adminKey, e.body, e.signature)
    ensures OpenWithAdmin(e, keys.root, keys.Admin(), key, Checkpoint(HeadOf(e)), now).Ok? <==> ValidAt(c, keys.root, now)
    ensures OpenWithAdmin(e, keys.root, keys.Admin(), key, Checkpoint(HeadOf(e)), now).Ok? ==>
            OpenWithAdmin(e, keys.root, keys.Admin(), key, Checkpoint(HeadOf(e)), now).value == Opened(c, HeadOf(e))
  {
    hide ValidAt, MemberKeys, FindContentKey, Recipients;
  }

  lemma BindingOutlives(c: Config, root: PublicKey, now: u64, b: EndpointBinding)
    requires ValidAt(c, root, now) && Wire(b) in c.endpointBindings
    ensures now < b.payload.expires
  {
    hide Shape, AdminsValid, MembersValid, AppsValid, AppBindingsValid, DnsValid, DescriptorsValid, FindMember;
    var i :| 0 <= i < |c.endpointBindings| && c.endpointBindings[i] == Wire(b);
    assert EndpointOk(c, root, now, c.endpointBindings[i]);
  }

  /** Facts about a sealed enrolment that every later moment can rely on. */
  ghost predicate Enrolled(keys: AuthorityKeys, prepared: PreparedJoin, d: TicketDraft, e: Envelope, c: Config, at: u64) {
    && ManifestOk(keys) && TicketFacts(keys, prepared.request.payload, d, c, at) && VerifyPrepared(prepared, keys.Network(), at).Ok?
    && Carries(e, c) && WrappedToMembers(e, c) && c.network == keys.Network() && ValidAt(c, keys.root, at)
    && e.body.signer == AdminKeyId(keys.adminKey) && Verifies(keys.adminKey, e.body, e.signature)
  }

  lemma JoinChecksExactlyWhen(keys: AuthorityKeys, prepared: PreparedJoin, d: TicketDraft, e: Envelope, c: Config, at: u64, secrets: Secrets, now: u64)
    requires Enrolled(keys, prepared, d, e, c, at) && SecretsMatch(secrets, prepared.request.payload).Ok?
    ensures var checks := JoinChecks(keys.root, secrets, prepared, IssueTicket(keys, d, HeadOf(e), e), now);
            && (checks.Ok? <==> at <= now < d.expires && ValidAt(c, keys.root, now))
            && (checks.Ok? ==> checks.value == Opened(c, HeadOf(e)))
  {
    hide ValidAt, VerifyPrepared, VerifyTicket, OpenWithAdmin, WrappedToMembers, MemberKeys, VerifyMemberWithAdmin, VerifyEndpoint, SecretsMatch;
    PreparedAtTime(prepared, keys.Network(), at, now);
    TicketAtTime(keys, prepared.request.payload, d, c, at, e, now);
    EmbeddedAtTime(keys, e, c, prepared.request.payload.encryptionKey, now);
    if ValidAt(c, keys.root, now) {
      BindingOutlives(c, keys.root, now, d.binding);
    }
  }

  // ---- the write ----

  /** A node that has prepared and not joined. */
  predicate Awaiting(store: MemberStore, prepared: PreparedJoin) {
    && PreparedRequest in store.records && store.records[PreparedRequest].value == PreparedBytes(prepared)
    && NotYetJoined(store) && (forall r: u64 :: ConfigHistory(r) !in store.records)
  }

  /** The node's own records: what it needs to act as the member it now is. */
  predicate HoldsTicket(store: MemberStore, ticket: Ticket) {
    && ConfigEnvelope in store.records && store.records[ConfigEnvelope].value == EnvelopeBytes(ticket.body.embedded)
    && ConfigHead in store.records && store.records[ConfigHead].value == HeadBytes(ticket.body.head)
    && ConfigSigner in store.records && store.records[ConfigSigner].value == SignerBytes(ticket.body.adminCert)
    && OwnCertificate in store.records && store.records[OwnCertificate].value == CertificateBytes(ticket.body.member)
    && OwnBinding in store.records && store.records[OwnBinding].value == BindingBytes(ticket.body.binding)
    && PreparedRequest !in store.records
  }

  lemma JoinWrites(store: MemberStore, ticket: Ticket, version: nat)
    requires Commit(store, JoinOps(ticket, ticket.body.head, version)).Ok?
    ensures var t := Commit(store, JoinOps(ticket, ticket.body.head, version)).value;
            HoldsTicket(t, ticket) && forall r: u64 :: ConfigHistory(r) in t.records <==> ConfigHistory(r) in store.records
  {
    hide Commit;
    var ops := JoinOps(ticket, ticket.body.head, version);
    CommitEffect(store, ops);
    assert ops[0].key == ConfigEnvelope && ops[1].key == ConfigHead && ops[2].key == ConfigSigner;
    assert ops[3].key == OwnCertificate && ops[4].key == OwnBinding && ops[5].key == PreparedRequest;
    assert forall r: u64 :: Untouched(ops, ConfigHistory(r));
  }

  /** The node has no checkpoint and no credentials of its own yet. */
  predicate NotYetJoined(store: MemberStore) {
    && ConfigEnvelope !in store.records && ConfigHead !in store.records && ConfigSigner !in store.records
    && OwnCertificate !in store.records && OwnBinding !in store.records
  }

  /** A join is written exactly if none of its records is there yet and the prepared request is still at
      the version it was read. */
  lemma JoinCommits(store: MemberStore, ticket: Ticket, head: Head, version: nat)
    ensures Commit(store, JoinOps(ticket, head, version)).Ok? <==>
            NotYetJoined(store) && PreparedRequest in store.records && store.records[PreparedRequest].version == version
  {
    var ops := JoinOps(ticket, head, version);
    if Accepts(store, ops) {
      assert Holds(store.records, ops[0]) && Holds(store.records, ops[1]) && Holds(store.records, ops[2]);
      assert Holds(store.records, ops[3]) && Holds(store.records, ops[4]) && Holds(store.records, ops[5]);
    }
    if NotYetJoined(store) && PreparedRequest in store.records && store.records[PreparedRequest].version == version {
      assert forall i :: 0 <= i < |ops| ==> Holds(store.records, ops[i]);
    }
  }

  /** The node now stands at the ticket's revision with the ticket's credentials, and has nothing
      older. */
  ghost predicate Arrived(root: PublicKey, store: MemberStore, ticket: Ticket) {
    && ShowsRevision(root, store, ticket.body.embedded) && HoldsTicket(store, ticket)
    && forall r: u64 :: ConfigHistory(r) !in store.records
  }

  lemma JoinArrives(keys: AuthorityKeys, prepared: PreparedJoin, d: TicketDraft, e: Envelope, c: Config, at: u64, secrets: Secrets, store: MemberStore, now: u64)
    requires Enrolled(keys, prepared, d, e, c, at) && SecretsMatch(secrets, prepared.request.payload).Ok? && Awaiting(store, prepared)
    ensures var o := Join(keys.root, secrets, store, IssueTicket(keys, d, HeadOf(e), e), now);
            && (o.answer.Ok? <==> at <= now < Min(d.expires, ValidUntil(c)))
            && (o.answer.Ok? ==> o.answer.value == HeadOf(e) && Arrived(keys.root, o.store, IssueTicket(keys, d, HeadOf(e), e)))
            && (o.answer.Err? ==> o.store == store)
  {
    hide JoinChecks, Commit, JoinOps, ValidAt, ValidIgnoringTime, ValidFrom, ValidUntil, TicketFacts, VerifyPrepared, WrappedToMembers, SecretsMatch;
    JoinChecksExactlyWhen(keys, prepared, d, e, c, at, secrets, now);
    ValidityInterval(c, keys.root, now);
    ValidityInterval(c, keys.root, at);
    var ticket := IssueTicket(keys, d, HeadOf(e), e);
    JoinCommits(store, ticket, HeadOf(e), store.records[PreparedRequest].version);
    JoinWrites(store, ticket, store.records[PreparedRequest].version);
  }

  lemma PlanEnrolled(keys: AuthorityKeys, c: Config, head: Head, op: Operation, at: u64, choices: SealChoices, plan: Plan, prepared: PreparedJoin)
    requires ManifestOk(keys) && Prepare(keys, c, head, op, at, choices) == Ok(plan)
    requires || (op.Redeem? && prepared == op.prepared)
             || (op.Invite? && prepared == PreparedJoin(op.request, op.binding) && VerifyPrepared(prepared, keys.Network(), at).Ok?)
    ensures plan.ticket.Some? && plan.head == HeadOf(plan.envelope)
    ensures Enrolled(keys, prepared, plan.ticket.value, plan.envelope, plan.config, at)
  {
    hide Prepare, DraftOf, ValidAt, TicketFacts, VerifyPrepared, FindContentKey, Recipients, MemberKeys;
    PreparedPlan(keys, c, head, op, at, choices, plan);
    if op.Redeem? {
      RedeemFacts(keys, c, head, op, at, Draft(plan.config, plan.ticket));
    } else {
      InviteFacts(keys, c, head, op, at, Draft(plan.config, plan.ticket));
    }
  }

  /** Join is complete, and exact: the ticket of an enrolment made at time `at` is accepted by the
      node that asked for it from `at` until the ticket or anything in its revision runs out, and
      at no other time. The node then stands at the ticket's own head. */
  lemma JoinAcceptedExactlyWhen(keys: AuthorityKeys, c: Config, head: Head, op: Operation, at: u64, choices: SealChoices, plan: Plan,
                                prepared: PreparedJoin, secrets: Secrets, store: MemberStore, now: u64)
    requires ManifestOk(keys) && Prepare(keys, c, head, op, at, choices) == Ok(plan)
    requires || (op.Redeem? && prepared == op.prepared)
             || (op.Invite? && prepared == PreparedJoin(op.request, op.binding) && VerifyPrepared(prepared, keys.Network(), at).Ok?)
    requires SecretsMatch(secrets, prepared.request.payload).Ok? && Awaiting(store, prepared)
    ensures TicketOf(keys, plan).Some?
    ensures var ticket := TicketOf(keys, plan).value;
            var o := Join(keys.root, secrets, store, ticket, now);
            && (o.answer.Ok? <==> at <= now < Min(ticket.body.expires, ValidUntil(plan.config)))
            && (o.answer.Ok? ==> o.answer.value == ticket.body.head == plan.head && ticket.body.embedded == plan.envelope && Arrived(keys.root, o.store, ticket))
            && (o.answer.Err? ==> o.store == store)
  {
    hide Prepare, ValidUntil, Enrolled, Join, VerifyPrepared, SecretsMatch, Awaiting, Arrived;
    PlanEnrolled(keys, c, head, op, at, choices, plan, prepared);
    JoinArrives(keys, prepared, plan.ticket.value, plan.envelope, plan.config, at, secrets, store, now);
  }

  /** Once the revision is in the authority's log, the node that joined with it is a replica of
      that log from there on. */
  lemma ArrivedIsJoined(root: PublicKey, log: seq<Entry>, i: nat, store: MemberStore, ticket: Ticket)
    requires i < |log| && ticket.body.embedded == log[i].envelope && Arrived(root, store, ticket)
    ensures RecordsOn(root, log, i, i, store)
  {
    hide ShowsRevision;
  }

  // ---- which tickets are accepted, whoever made them ----

  /** An administrator's certificate made by the root, in force, that may write and issue members. */
  predicate RootCertified(cert: AdminCert, root: PublicKey, now: u64) {
    var p := cert.payload;
    && cert.signature == Signature(root, p) && p.network == NetworkId(root) && p.issuer == RootKeyId(root)
    && p.keyId == AdminKeyId(p.publicKey) && p.publicKey.wellFormed && p.notBefore <= now < p.expires
    && PERMISSION_CONFIG_WRITE in p.permissions && PERMISSION_ISSUE_MEMBER in p.permissions
  }

  /** The ticket answers this very request: its nonce, its keys and its endpoint, signed as a whole by
      an administrator the root has certified, who has also signed the certificate and the revision. */
  ghost predicate Answers(ticket: Ticket, root: PublicKey, p: JoinPayload, now: u64) {
    var b := ticket.body;
    var admin, m := b.adminCert.payload, b.member.payload;
    && b.network == NetworkId(root) && b.nonce == p.nonce && now < b.expires
    && RootCertified(b.adminCert, root, now) && b.signer == admin.keyId && ticket.signature == DocumentSignature(admin.publicKey, b)
    && m == MemberPayload(NetworkId(root), p.memberId, p.signingKey, p.encryptionKey, m.roles, m.serial, m.notBefore, m.expires, admin.keyId)
    && p.memberId == MemberId(NetworkId(root), p.signingKey) && b.member.signature == Signature(admin.publicKey, m)
    && admin.notBefore <= m.notBefore <= now < m.expires <= admin.expires
    && b.binding.payload == EndpointPayload(NetworkId(root), p.memberId, p.endpoint, b.binding.payload.sequence, b.binding.payload.expires)
    && b.binding.signature == Signature(p.signingKey, b.binding.payload) && now < b.binding.payload.expires
    && b.head == HeadOf(b.embedded) && b.embedded.body.signer == admin.keyId && Genuine(b.embedded, root, admin.publicKey, p.encryptionKey, now)
  }

  /** The secrets at hand are exactly those the request was made with. */
  predicate OwnSecrets(secrets: Secrets, p: JoinPayload) {
    secrets == Secrets(Some(p.signingKey), Some(p.encryptionKey), Some(p.endpoint))
  }

  lemma TicketVerified(ticket: Ticket, root: PublicKey, p: JoinPayload, now: u64)
    requires VerifyTicket(ticket, root, NetworkId(root), p.nonce, p.endpoint, now).Ok?
    ensures VerifyAdmin(ticket.body.adminCert, root, NetworkId(root), now, {}) == Ok(ticket.body.adminCert.payload)
    ensures ticket.body.network == NetworkId(root) && ticket.body.nonce == p.nonce && now < ticket.body.expires && HeadOf(ticket.body.embedded) == ticket.body.head
    ensures VerifyMemberWithAdmin(ticket.body.member, ticket.body.adminCert.payload, NetworkId(root), now, {}).Ok?
    ensures VerifyEndpoint(ticket.body.binding, ticket.body.member.payload, NetworkId(root), p.endpoint, now).Ok?
    ensures ticket.body.signer == ticket.body.adminCert.payload.keyId
    ensures ticket.signature == DocumentSignature(ticket.body.adminCert.payload.publicKey, ticket.body)
  {
  }

  lemma ChecksAnswer(root: PublicKey, secrets: Secrets, prepared: PreparedJoin, ticket: Ticket, now: u64)
    requires VerifyPrepared(prepared, NetworkId(root), now).Ok?
    ensures JoinChecks(root, secrets, prepared, ticket, now).Ok? <==> OwnSecrets(secrets, prepared.request.payload) && Answers(ticket, root, prepared.request.payload, now)
  {
    hide VerifyPrepared, VerifyTicket, OpenWithAdmin, VerifyAdmin, VerifyMemberWithAdmin, VerifyEndpoint, Genuine, VerifyJoin, VerifyForJoin;
    var p := prepared.request.payload;
    PreparedRequester(prepared, NetworkId(root), now);
    OpensCheckpointExactlyWhen(ticket.body.embedded, root, ticket.body.adminCert.payload, p.encryptionKey, ticket.body.head, now);
    if JoinChecks(root, secrets, prepared, ticket, now).Ok? {
      TicketVerified(ticket, root, p, now);
      VerifiedParts(ticket, root, p, now);
    }
    if Answers(ticket, root, p, now) {
      AnswersVerify(ticket, root, p, now);
    }
  }

  lemma PreparedRequester(prepared: PreparedJoin, network: NetworkId, now: u64)
    requires VerifyPrepared(prepared, network, now).Ok?
    ensures var p := prepared.request.payload;
            VerifyPrepared(prepared, network, now).value == p && p.memberId == MemberId(network, p.signingKey) && p.signingKey.wellFormed
  {
  }

  lemma VerifiedParts(ticket: Ticket, root: PublicKey, p: JoinPayload, now: u64)
    requires VerifyAdmin(ticket.body.adminCert, root, NetworkId(root), now, {}) == Ok(ticket.body.adminCert.payload)
    requires VerifyMemberWithAdmin(ticket.body.member, ticket.body.adminCert.payload, NetworkId(root), now, {}).Ok?
    requires VerifyEndpoint(ticket.body.binding, ticket.body.member.payload, NetworkId(root), p.endpoint, now).Ok?
    ensures var admin, m, b := ticket.body.adminCert, ticket.body.member, ticket.body.binding;
            && (PERMISSION_CONFIG_WRITE in admin.payload.permissions ==> RootCertified(admin, root, now))
            && m.payload.network == NetworkId(root) && m.payload.issuer == admin.payload.keyId && m.signature == Signature(admin.payload.publicKey, m.payload)
            && m.payload.memberId == MemberId(NetworkId(root), m.payload.signingKey)
            && admin.payload.notBefore <= m.payload.notBefore <= now < m.payload.expires <= admin.payload.expires
            && b.payload == EndpointPayload(NetworkId(root), m.payload.memberId, p.endpoint, b.payload.sequence, b.payload.expires)
            && b.signature == Signature(m.payload.signingKey, b.payload) && now < b.payload.expires
  {
  }

  lemma AnswersVerify(ticket: Ticket, root: PublicKey, p: JoinPayload, now: u64)
    requires Answers(ticket, root, p, now) && p.signingKey.wellFormed
    ensures VerifyTicket(ticket, root, NetworkId(root), p.nonce, p.endpoint, now).Ok?
    ensures VerifyAdmin(ticket.body.adminCert, root, NetworkId(root), now, {}) == Ok(ticket.body.adminCert.payload)
  {
    hide ValidAt, FindContentKey;
  }

  /** For every ticket, whoever made it and whatever the node has stored: `join` succeeds exactly if
      the node has prepared a request that is in order, has not joined yet, holds the secrets it made
      the request with, and the ticket answers that request. It then holds exactly the ticket's
      revision, certificate and binding; otherwise nothing has changed. */
  lemma AnyTicketAcceptedExactlyWhen(root: PublicKey, secrets: Secrets, store: MemberStore, ticket: Ticket, now: u64)
    ensures var o := Join(root, secrets, store, ticket, now);
            && (o.answer.Ok? <==>
                  && PreparedRequest in store.records && store.records[PreparedRequest].value.PreparedBytes? && NotYetJoined(store)
                  && var prepared := store.records[PreparedRequest].value.prepared;
                     && VerifyPrepared(prepared, NetworkId(root), now).Ok?
                     && OwnSecrets(secrets, prepared.request.payload) && Answers(ticket, root, prepared.request.payload, now))
            && (o.answer.Ok? ==> o.answer.value == ticket.body.head && HoldsTicket(o.store, ticket))
            && (o.answer.Err? ==> o.store == store)
  {
    hide VerifyPrepared, JoinChecks, Commit, JoinOps, Answers;
    if PreparedRequest in store.records && store.records[PreparedRequest].value.PreparedBytes? {
      var prepared, version := store.records[PreparedRequest].value.prepared, store.records[PreparedRequest].version;
      ChecksNeedPrepared(root, secrets, prepared, ticket, now);
      if VerifyPrepared(prepared, NetworkId(root), now).Ok? {
        ChecksAnswer(root, secrets, prepared, ticket, now);
      }
      if JoinChecks(root, secrets, prepared, ticket, now).Ok? {
        ChecksOpen(root, secrets, prepared, ticket, now);
        JoinCommits(store, ticket, ticket.body.head, version);
        if NotYetJoined(store) {
          JoinWrites(store, ticket, version);
        }
      }
    }
  }

  lemma ChecksNeedPrepared(root: PublicKey, secrets: Secrets, prepared: PreparedJoin, ticket: Ticket, now: u64)
    ensures VerifyPrepared(prepared, NetworkId(root), now).Err? ==> JoinChecks(root, secrets, prepared, ticket, now).Err?
  {
    hide VerifyPrepared, VerifyTicket, OpenWithAdmin, VerifyAdmin;
  }

  lemma ChecksOpen(root: PublicKey, secrets: Secrets, prepared: PreparedJoin, ticket: Ticket, now: u64)
    requires JoinChecks(root, secrets, prepared, ticket, now).Ok?
    ensures JoinChecks(root, secrets, prepared, ticket, now).value.head == ticket.body.head
  {
    hide VerifyPrepared, VerifyTicket, VerifyAdmin, OpenWithAdmin, Genuine;
    var p := VerifyPrepared(prepared, NetworkId(root), now).value;
    OpensCheckpointExactlyWhen(ticket.body.embedded, root, VerifyAdmin(ticket.body.adminCert, root, NetworkId(root), now, {}).value, p.encryptionKey,
                               ticket.body.head, now);
  }
}
