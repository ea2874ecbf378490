/** Any number of `Authority` handles over one state store. Reading, sealing, committing and
    reading back are separate steps, and a handle may vanish between any two of them. */
module AuthorityLog {
  import opened Prelude
  import opened Credentials
  import opened Configs
  import opened SnapshotValidation
  import opened Envelopes
  import opened AuthorityOps
  import opened VersionedStore

  // ---- the authority's records ----

  datatype Key = EnvelopeKey | HeadKey | HistoryKey(revision: u64) | InvitationKey(id: nat)

  datatype Value =
    | EnvelopeValue(envelope: Envelope)
    | HeadValue(head: Head)
    | InvitationValue(invitation: Invitation)
    | ConsumedValue(request: PreparedJoin, ticket: Ticket)

  type Records = Store<Key, Value>

  // ---- handles ----

  /** The fields an `Authority` caches. */
  datatype Handle = Handle(config: Config, head: Head, envelopeVersion: nat, headVersion: nat)

  datatype Activity =
    | Idle
    | InvitationRead(record: Record<Value>, op: Operation, now: u64)
    | Sealed(plan: Plan, invitationVersion: Option<nat>)
    | Committed(plan: Plan)
    | EnvelopeReadBack(plan: Plan, record: Record<Value>)
    | Admitted(plan: Plan)
    | RevocationRead(id: nat, record: Record<Value>)

  datatype Session =
    | OpeningEnvelope(record: Record<Value>)
    | OpeningHistory(handle: Handle, envelope: Envelope, adminListed: bool)
    | Migrating(handle: Handle, envelope: Envelope, adminListed: bool)
    | Ready(handle: Handle, activity: Activity)

  // ---- worlds ----

  /** How a revision came to be. */
  datatype Origin = Start | Applied(op: Operation, now: u64, choices: SealChoices)

  datatype Entry = Entry(envelope: Envelope, config: Config, origin: Origin)

  datatype Returned = Returned(id: nat, ticket: Ticket)

  /** `log`, `issued` and `returned` record history: every committed revision, every invitation
      identifier ever used, every ticket a redemption has returned. No step reads `log` or
      `returned`; `issued` only keeps identifiers fresh. */
  datatype World = World(store: Records, sessions: map<nat, Session>, log: seq<Entry>, issued: set<nat>, returned: seq<Returned>)

  datatype Step =
    | OpenReadEnvelope(h: nat)
    | OpenReadHead(h: nat, now: u64)
    | OpenReadHistory(h: nat)
    | Migrate(h: nat)
    | Crash(h: nat)
    | SealOperation(h: nat, op: Operation, now: u64, choices: SealChoices)
    | ReadInvitation(h: nat, op: Operation, now: u64)
    | SealRedemption(h: nat, choices: SealChoices)
    | CommitPlan(h: nat)
    | ReadBackEnvelope(h: nat)
    | ReadBackHead(h: nat)
    | ReadTicketEnvelope(h: nat)
    | CreateInvitation(h: nat, id: nat, bootstrap: EndpointId, app: AppAddr, service: VirtualName, validFor: u64, now: u64)
    | ReadForRevocation(h: nat, id: nat)
    | RevokeInvitation(h: nat)

  function IdleAt(w: World, h: nat): Option<Handle> {
    if h in w.sessions && w.sessions[h].Ready? && w.sessions[h].activity.Idle? then Some(w.sessions[h].handle) else None
  }

  function SetSession(w: World, h: nat, s: Session): World {
    w.(sessions := w.sessions[h := s])
  }

  function DropSession(w: World, h: nat): World {
    w.(sessions := w.sessions - {h})
  }

  function Rest(w: World, h: nat, handle: Handle): World {
    SetSession(w, h, Ready(handle, Idle))
  }

  // ---- opening a handle ----

  /** The membership check of `Authority::open`: the authority's endpoint is bound to a member
      that carries the authority role. */
  predicate AuthorityRoleValid(keys: AuthorityKeys, c: Config) {
    var binding := FindEndpointBinding(c.endpointBindings, keys.endpoint);
    && binding.Some?
    && exists i :: 0 <= i < |c.members| && c.members[i].Wire?
                && c.members[i].value.payload.memberId == binding.value.memberId && ROLE_AUTHORITY in c.members[i].value.payload.roles
  }

  /** What `Authority::open` checks about the two records before it looks at the history. */
  function OpenChecks(keys: AuthorityKeys, e: Envelope, head: Head, now: u64): Result<Opened, AuthorityError> {
    var _ :- Need(Digest(e) == head.hash, CorruptState);
    var admin :- FromCrypto(VerifyAdmin(keys.adminCert, keys.root, keys.Network(), now, {}));
    var _ :- Need(admin.publicKey == keys.adminKey, CorruptState);
    var current :-
      if e.body.revision == 0 then
        if Digest(e) != keys.genesis then Err(CorruptState)
        else FromConfig(OpenRootSigned(e, keys.root, keys.encryption, Genesis, now))
      else FromConfig(OpenWithAdmin(e, keys.root, admin, keys.encryption, Checkpoint(head), now));
    var _ :- Need(head == current.head, CorruptState);
    var _ :- Need(AuthorityRoleValid(keys, current.config), CorruptState);
    Ok(current)
  }

  /** The last check of `Authority::open`. */
  predicate AdminListed(keys: AuthorityKeys, c: Config, now: u64) {
    var admin := VerifiedAdminOf(c, keys.root, AdminKeyId(keys.adminKey), now);
    admin.Ok? && admin.value.publicKey == keys.adminKey
  }

  function StepOpenEnvelope(w: World, h: nat): World {
    if h in w.sessions || EnvelopeKey !in w.store.records then w
    else SetSession(w, h, OpeningEnvelope(w.store.records[EnvelopeKey]))
  }

  function StepOpenHead(keys: AuthorityKeys, w: World, h: nat, now: u64): World {
    if h !in w.sessions || !w.sessions[h].OpeningEnvelope? then w
    else
      var envelope := w.sessions[h].record;
      if HeadKey !in w.store.records || !w.store.records[HeadKey].value.HeadValue? || !envelope.value.EnvelopeValue? then DropSession(w, h)
      else
        match OpenChecks(keys, envelope.value.envelope, w.store.records[HeadKey].value.head, now)
        case Err(_) => DropSession(w, h)
        case Ok(current) =>
          var handle := Handle(current.config, current.head, envelope.version, w.store.records[HeadKey].version);
          SetSession(w, h, OpeningHistory(handle, envelope.value.envelope, AdminListed(keys, current.config, now)))
  }

  function FinishOpen(w: World, h: nat, handle: Handle, adminListed: bool): World {
    if adminListed then Rest(w, h, handle) else DropSession(w, h)
  }

  function StepOpenHistory(w: World, h: nat): World {
    if h !in w.sessions || !w.sessions[h].OpeningHistory? then w
    else
      var s := w.sessions[h];
      var key := HistoryKey(s.handle.head.revision);
      if key !in w.store.records then SetSession(w, h, Migrating(s.handle, s.envelope, s.adminListed))
      else if w.store.records[key].value == EnvelopeValue(s.envelope) then FinishOpen(w, h, s.handle, s.adminListed)
      else DropSession(w, h)
  }

  /** Authorities of the first schema kept only the current envelope; opening one seeds its history. */
  function StepMigrate(w: World, h: nat): World {
    if h !in w.sessions || !w.sessions[h].Migrating? then w
    else
      var s := w.sessions[h];
      match Commit(w.store, [Put(HistoryKey(s.handle.head.revision), EnvelopeValue(s.envelope), Missing)])
      case Err(_) => DropSession(w, h)
      case Ok(store) => FinishOpen(w.(store := store), h, s.handle, s.adminListed)
  }

  // ---- operations ----

  function StepSeal(keys: AuthorityKeys, w: World, h: nat, op: Operation, now: u64, choices: SealChoices): World {
    var handle := IdleAt(w, h);
    if handle.None? || op.Redeem? then w
    else
      match Prepare(keys, handle.value.config, handle.value.head, op, now, choices)
      case Err(_) => w
      case Ok(plan) => SetSession(w, h, Ready(handle.value, Sealed(plan, None)))
  }

  /** `redeem_invitation` up to its look at the invitation record. A consumed record answers at
      once: the same request gets the stored ticket, any other is refused. */
  function StepReadInvitation(keys: AuthorityKeys, w: World, h: nat, op: Operation, now: u64): World {
    var handle := IdleAt(w, h);
    if handle.None? || !op.Redeem? || RedeemChecks(keys, op, now).Err? then w
    else
      var key := InvitationKey(op.invitation.body.id);
      if key !in w.store.records then w
      else
        var record := w.store.records[key];
        if record.value.ConsumedValue? then
          if record.value.request == op.prepared then w.(returned := w.returned + [Returned(op.invitation.body.id, record.value.ticket)])
          else w
        else if record.value == InvitationValue(op.invitation) then
          SetSession(w, h, Ready(handle.value, InvitationRead(record, op, now)))
        else w
  }

  function StepSealRedemption(keys: AuthorityKeys, w: World, h: nat, choices: SealChoices): World {
    if h !in w.sessions || !w.sessions[h].Ready? || !w.sessions[h].activity.InvitationRead? then w
    else
      var handle, a := w.sessions[h].handle, w.sessions[h].activity;
      match Prepare(keys, handle.config, handle.head, a.op, a.now, choices)
      case Err(_) => Rest(w, h, handle)
      case Ok(plan) => SetSession(w, h, Ready(handle, Sealed(plan, Some(a.record.version))))
  }

  function TicketOf(keys: AuthorityKeys, plan: Plan): Option<Ticket> {
    match plan.ticket
    case None => None
    case Some(draft) => Some(IssueTicket(keys, draft, plan.head, plan.envelope))
  }

  /** The writes of one revision: envelope and head replaced at the versions the handle last saw,
      and the revision's own history record, which must not exist yet. */
  function RevisionBatch(handle: Handle, plan: Plan): seq<Op<Key, Value>> {
    [ Put(EnvelopeKey, EnvelopeValue(plan.envelope), Exact(handle.envelopeVersion)),
      Put(HeadKey, HeadValue(plan.head), Exact(handle.headVersion)),
      Put(HistoryKey(plan.head.revision), EnvelopeValue(plan.envelope), Missing) ]
  }

  /** A redemption also turns its invitation record into the consumed record. */
  function ConsumeOp(keys: AuthorityKeys, plan: Plan, version: nat): Option<Op<Key, Value>> {
    var ticket := TicketOf(keys, plan);
    if plan.op.Redeem? && ticket.Some? then
      Some(Put(InvitationKey(plan.op.invitation.body.id), ConsumedValue(plan.op.prepared, ticket.value), Exact(version)))
    else None
  }

  function PlanBatch(keys: AuthorityKeys, handle: Handle, plan: Plan, version: Option<nat>): seq<Op<Key, Value>> {
    var consume := if version.Some? then ConsumeOp(keys, plan, version.value) else None;
    RevisionBatch(handle, plan) + (if consume.Some? then [consume.value] else [])
  }

  function StepCommit(keys: AuthorityKeys, w: World, h: nat): World {
    if h !in w.sessions || !w.sessions[h].Ready? || !w.sessions[h].activity.Sealed? then w
    else
      var handle, plan := w.sessions[h].handle, w.sessions[h].activity.plan;
      match Commit(w.store, PlanBatch(keys, handle, plan, w.sessions[h].activity.invitationVersion))
      case Err(_) => Rest(w, h, handle)
      case Ok(store) =>
        SetSession(w.(store := store, log := w.log + [Entry(plan.envelope, plan.config, Applied(plan.op, plan.now, plan.choices))]),
                   h, Ready(handle, Committed(plan)))
  }

  function StepReadBackEnvelope(w: World, h: nat): World {
    if h !in w.sessions || !w.sessions[h].Ready? || !w.sessions[h].activity.Committed? then w
    else
      var handle, plan := w.sessions[h].handle, w.sessions[h].activity.plan;
      if EnvelopeKey !in w.store.records then Rest(w, h, handle)
      else SetSession(w, h, Ready(handle, EnvelopeReadBack(plan, w.store.records[EnvelopeKey])))
  }

  /** After the second read `commit_config` insists on finding its own revision; the redemption
      path takes whatever versions it finds and returns its ticket. */
  function StepReadBackHead(keys: AuthorityKeys, w: World, h: nat): World {
    if h !in w.sessions || !w.sessions[h].Ready? || !w.sessions[h].activity.EnvelopeReadBack? then w
    else
      var handle, plan, envelope := w.sessions[h].handle, w.sessions[h].activity.plan, w.sessions[h].activity.record;
      if HeadKey !in w.store.records then Rest(w, h, handle)
      else
        var head := w.store.records[HeadKey];
        var updated := Handle(plan.config, plan.head, envelope.version, head.version);
        if plan.op.Redeem? then
          var ticket := TicketOf(keys, plan);
          var after := Rest(w, h, updated);
          if ticket.None? then after
          else after.(returned := w.returned + [Returned(plan.op.invitation.body.id, ticket.value)])
        else if envelope.value == EnvelopeValue(plan.envelope) && head.value == HeadValue(plan.head) then
          SetSession(w, h, Ready(updated, if plan.op.Invite? then Admitted(plan) else Idle))
        else Rest(w, h, handle)
  }

  /** `invite_member` reads the envelope record once more to embed it in the ticket. */
  function StepReadTicket(w: World, h: nat): World {
    if h !in w.sessions || !w.sessions[h].Ready? || !w.sessions[h].activity.Admitted? then w
    else Rest(w, h, w.sessions[h].handle)
  }

  /** The ticket `invite_member` returns at that moment. */
  function InviteTicket(keys: AuthorityKeys, w: World, plan: Plan): Option<Ticket> {
    if EnvelopeKey in w.store.records && w.store.records[EnvelopeKey].value.EnvelopeValue? && plan.ticket.Some? then
      Some(IssueTicket(keys, plan.ticket.value, plan.head, w.store.records[EnvelopeKey].value.envelope))
    else None
  }

  // ---- invitations ----

  function MakeInvitation(keys: AuthorityKeys, handle: Handle, id: nat, bootstrap: EndpointId, app: AppAddr, service: VirtualName, validFor: u64, now: u64)
    : Result<Invitation, AuthorityError>
  {
    var _ :- Need(now + validFor <= U64_MAX, InvalidInvitation);
    var expires: u64 := Min(now + validFor, Min(keys.Admin().expires, handle.config.expiresAt));
    var _ :- Need(validFor != 0 && now < expires, InvalidInvitation);
    var _ :- Need(AppRegistered(handle.config, app), ApplicationNotFound);
    var body := InvitationBody(id, keys.Network(), keys.root, bootstrap, app, service, expires, keys.adminCert, AdminKeyId(keys.adminKey));
    Ok(Invitation(body, DocumentSignature(keys.adminKey, body)))
  }

  function StepCreateInvitation(keys: AuthorityKeys, w: World, s: Step): World
    requires s.CreateInvitation?
  {
    var handle := IdleAt(w, s.h);
    if handle.None? || s.id in w.issued then w
    else
      match MakeInvitation(keys, handle.value, s.id, s.bootstrap, s.app, s.service, s.validFor, s.now)
      case Err(_) => w
      case Ok(invitation) =>
        match Commit(w.store, [Put(InvitationKey(s.id), InvitationValue(invitation), Missing)])
        case Err(_) => w
        case Ok(store) => w.(store := store, issued := w.issued + {s.id})
  }

  function StepReadForRevocation(w: World, h: nat, id: nat): World {
    var handle := IdleAt(w, h);
    if handle.None? || InvitationKey(id) !in w.store.records then w
    else
      var record := w.store.records[InvitationKey(id)];
      if record.value.ConsumedValue? then w
      else SetSession(w, h, Ready(handle.value, RevocationRead(id, record)))
  }

  function StepRevokeInvitation(w: World, h: nat): World {
    if h !in w.sessions || !w.sessions[h].Ready? || !w.sessions[h].activity.RevocationRead? then w
    else
      var handle, a := w.sessions[h].handle, w.sessions[h].activity;
      match Commit(w.store, [Delete(InvitationKey(a.id), Exact(a.record.version))])
      case Err(_) => Rest(w, h, handle)
      case Ok(store) => Rest(w.(store := store), h, handle)
  }

  // ---- runs ----

  /** One step; a step that is not enabled, or an operation that reports an error, changes nothing
      but the acting session. */
  function Do(keys: AuthorityKeys, w: World, s: Step): World {
    match s
    case OpenReadEnvelope(h) => StepOpenEnvelope(w, h)
    case OpenReadHead(h, now) => StepOpenHead(keys, w, h, now)
    case OpenReadHistory(h) => StepOpenHistory(w, h)
    case Migrate(h) => StepMigrate(w, h)
    case Crash(h) => DropSession(w, h)
    case SealOperation(h, op, now, choices) => StepSeal(keys, w, h, op, now, choices)
    case ReadInvitation(h, op, now) => StepReadInvitation(keys, w, h, op, now)
    case SealRedemption(h, choices) => StepSealRedemption(keys, w, h, choices)
    case CommitPlan(h) => StepCommit(keys, w, h)
    case ReadBackEnvelope(h) => StepReadBackEnvelope(w, h)
    case ReadBackHead(h) => StepReadBackHead(keys, w, h)
    case ReadTicketEnvelope(h) => StepReadTicket(w, h)
    case CreateInvitation(_, _, _, _, _, _, _) => StepCreateInvitation(keys, w, s)
    case ReadForRevocation(h, id) => StepReadForRevocation(w, h, id)
    case RevokeInvitation(h) => StepRevokeInvitation(w, h)
  }

  /** The world after a schedule of steps, whoever takes them and in whatever order. */
  function Run(keys: AuthorityKeys, w: World, steps: seq<Step>): World {
    if steps == [] then w else Do(keys, Run(keys, w, steps[..|steps| - 1]), steps[|steps| - 1])
  }

  /** The payload of an envelope is a snapshot whose metadata the envelope repeats. */
  predicate Carries(e: Envelope, c: Config) {
    && e.body.ciphertext.plaintext == e.body.payloadHash == Snapshot(c)
    && e.body.ciphertext.nonce == e.body.nonce && e.body.ciphertext.aad == AadOf(e.body)
    && e.body.network == c.network && e.body.epoch == c.epoch && e.body.revision == c.revision && e.body.previous == c.previous
  }

  /** A revision an authority may start from: one it can read, sealed to exactly its members. */
  ghost predicate StartOk(keys: AuthorityKeys, e: Entry) {
    && Carries(e.envelope, e.config) && e.config.network == keys.Network() && e.origin.Start?
    && ValidAt(e.config, keys.root, e.config.issuedAt)
    && (forall k :: FindContentKey(e.envelope.body.wraps, k, AadOf(e.envelope.body)) ==
                    if k in MemberKeys(e.config) then Some(e.envelope.body.ciphertext.contentKey) else None)
    && Distinct(Recipients(e.envelope)) && Elements(Recipients(e.envelope)) == MemberKeys(e.config)
    && |Recipients(e.envelope)| == |e.config.members|
    && keys.encryption in MemberKeys(e.config)
  }

  /** What `initialize` commits, or what an authority of the first schema left behind. */
  function InitialStore(e: Envelope, withHistory: bool): Records {
    var records: map<Key, Record<Value>> := map[EnvelopeKey := Record(1, EnvelopeValue(e)), HeadKey := Record(2, HeadValue(HeadOf(e)))];
    if withHistory then Store(records[HistoryKey(e.body.revision) := Record(3, EnvelopeValue(e))], 4, 2)
    else Store(records, 3, 2)
  }

  function InitialWorld(start: Entry, withHistory: bool): World {
    World(InitialStore(start.envelope, withHistory), map[], [start], {}, [])
  }

  /** A genesis revision sealed by the root key is a start. */
  lemma GenesisStarts(keys: AuthorityKeys, config: Config, recipients: seq<EncryptionKey>, choices: SealChoices, e: Envelope)
    requires SealGenesis(keys.root, config, recipients, choices) == Ok(e)
    requires keys.encryption in recipients
    ensures StartOk(keys, Entry(e, config, Start))
  {
    SealedFields(RootKeyId(keys.root), keys.root, config, recipients, choices, e);
    SealedRecipients(RootKeyId(keys.root), keys.root, config, recipients, choices, e);
    RecipientSetExact(config, recipients);
    SameElements(Recipients(e), recipients);
  }
}
