/** `Authority::initialize`: the genesis revision it seals, the records and the manifest it leaves,
    and what that start gives to every later schedule. */
module Initialization {
  import opened Prelude
  import opened Limits
  import opened Credentials
  import opened Configs
  import opened SnapshotValidation
  import opened Envelopes
  import opened AuthorityOps
  import opened VersionedStore
  import opened AuthorityLog
  import opened AuthorityInvariant
  import opened AuthorityRuns
  import opened AuthorityHistory
  import opened AuthorityHandle
  import opened AuthorityNamedRuns
  import opened AuthorityOpening

  datatype InitOptions = InitOptions(relayUrl: string, now: u64, validFor: u64)

  /** The keys and secrets `initialize` generates, named by their public halves. */
  datatype Generated = Generated(
    root: PublicKey,
    admin: PublicKey,
    signing: PublicKey,
    encryption: EncryptionKey,
    endpoint: EndpointId,
    secrets: EpochSecrets)

  datatype Initialized = Initialized(keys: AuthorityKeys, config: Config, envelope: Envelope, store: Records) {
    /** The first entry of the line. */
    function Start(): Entry {
      Entry(envelope, config, Origin.Start)
    }
  }

  const FOUNDER_ROLES: Bits := {ROLE_MEMBER, ROLE_SERVICE, ROLE_RELAY, ROLE_BOOTSTRAP, ROLE_AUTHORITY}

  function GenesisConfig(options: InitOptions, made: Generated, admin: AdminCert, member: MemberCert, expires: u64): Config {
    var network := NetworkId(made.root);
    Config(network, 0, 0, ZeroHash, options.now, expires,
           [Wire(admin)], [Wire(member)], [Wire(IssueEndpoint(made.signing, network, made.endpoint, 0, expires))], [], [], [], [],
           [Relay(made.endpoint, options.relayUrl, KNOWN_RELAY_ROLES, expires)], [PresenceService(made.endpoint, options.relayUrl, expires)],
           made.secrets, Policy(0, MAX_MEMBERS, MAX_SERVICES))
  }

  function GenesisBatch(e: Envelope): seq<Op<Key, Value>> {
    [ Put(EnvelopeKey, EnvelopeValue(e), Missing),
      Put(HeadKey, HeadValue(HeadOf(e)), Missing),
      Put(HistoryKey(e.body.revision), EnvelopeValue(e), Missing) ]
  }

  function Initialize(options: InitOptions, made: Generated, choices: SealChoices): Result<Initialized, AuthorityError> {
    var _ :- Need(options.validFor != 0 && UrlOk(options.relayUrl), InvalidOptions);
    var _ :- Need(options.now + options.validFor <= U64_MAX, InvalidOptions);
    var expires: u64 := options.now + options.validFor;
    var admin :- FromCrypto(IssueAdmin(made.root, made.admin, AllBits(), 2, options.now, expires));
    var member :- FromCrypto(IssueMember(made.root, made.signing, made.encryption, FOUNDER_ROLES, 1, options.now, expires));
    var config := GenesisConfig(options, made, admin, member, expires);
    var envelope :- FromConfig(SealGenesis(made.root, config, [made.encryption], choices));
    var keys := AuthorityKeys(made.root, made.admin, admin, made.encryption, made.endpoint, Digest(envelope));
    match Commit(Empty(), GenesisBatch(envelope))
    case Err(_) => Err(StoreConflict)
    case Ok(store) => Ok(Initialized(keys, config, envelope, store))
  }

  /** The options and generated keys an authority can be initialized with. */
  predicate Initializable(options: InitOptions, made: Generated, choices: SealChoices) {
    && UrlOk(options.relayUrl) && options.validFor != 0 && options.now + options.validFor <= U64_MAX
    && made.admin.wellFormed && made.signing.wellFormed && choices.length <= MAX_PLAINTEXT
  }

  // ---- the genesis snapshot ----

  function FounderAdmin(options: InitOptions, made: Generated): AdminCert
    requires options.now + options.validFor <= U64_MAX
  {
    var p := AdminPayload(NetworkId(made.root), AdminKeyId(made.admin), made.admin, AllBits(), 2, options.now, options.now + options.validFor, RootKeyId(made.root));
    AdminCert(p, Signature(made.root, p))
  }

  function FounderMember(options: InitOptions, made: Generated): MemberCert
    requires options.now + options.validFor <= U64_MAX
  {
    var network := NetworkId(made.root);
    var p := MemberPayload(network, MemberId(network, made.signing), made.signing, made.encryption, FOUNDER_ROLES, 1,
                           options.now, options.now + options.validFor, RootKeyId(made.root));
    MemberCert(p, Signature(made.root, p))
  }

  function FirstConfig(options: InitOptions, made: Generated): Config
    requires options.now + options.validFor <= U64_MAX
  {
    GenesisConfig(options, made, FounderAdmin(options, made), FounderMember(options, made), options.now + options.validFor)
  }

  /** The genesis snapshot is valid throughout its window, and only if the founder's key decodes. */
  lemma FirstConfigValid(options: InitOptions, made: Generated, now: u64)
    requires UrlOk(options.relayUrl) && options.validFor != 0 && options.now + options.validFor <= U64_MAX && made.admin.wellFormed
    ensures ValidAt(FirstConfig(options, made), made.root, now) <==> made.signing.wellFormed && options.now <= now < options.now + options.validFor
  {
    hide UrlOk, AllBits;
    var c := FirstConfig(options, made);
    assert FindMember(c.members, MemberId(c.network, made.signing)) == Some(FounderMember(options, made).payload);
    assert EndpointOk(c, made.root, now, c.endpointBindings[0]) <==> made.signing.wellFormed && now < c.expiresAt;
    if made.signing.wellFormed && options.now <= now < options.now + options.validFor {
      assert RevokedSet(c) == {};
      assert AdminsValid(c, made.root, now);
      assert MembersValid(c, made.root, now);
    }
  }

  lemma FirstConfigRecipients(options: InitOptions, made: Generated)
    requires options.now + options.validFor <= U64_MAX
    ensures var c := FirstConfig(options, made);
            MemberKeys(c) == {made.encryption} && RecipientSetOk(c, [made.encryption])
  {
    hide AllBits;
    var c := FirstConfig(options, made);
    assert c.members[0].value.payload.encryptionKey == made.encryption;
    assert MemberKeys(c) == {made.encryption} == Elements([made.encryption]);
  }

  lemma GenesisCommits(e: Envelope)
    ensures Commit(Empty(), GenesisBatch(e)) == Ok(InitialStore(e, true))
  {
    var s: Records, ops := Empty(), GenesisBatch(e);
    assert forall i :: 0 <= i < |ops| ==> Holds(s.records, ops[i]);
    assert ops[..2] == [ops[0], ops[1]] && ops[..2][..1] == [ops[0]] && [ops[0]][..0] == [];
    assert ApplyOps(s, []) == s;
    assert ApplyOps(s, [ops[0]]) == ApplyOp(s, ops[0]);
    assert ApplyOps(s, ops[..2]) == ApplyOp(ApplyOp(s, ops[0]), ops[1]);
    assert ApplyOps(s, ops).records == InitialStore(e, true).records;
  }

  /** It writes nothing over an authority that is there already. */
  lemma GenesisNeedsRoom(s: Records, e: Envelope)
    ensures Commit(s, GenesisBatch(e)).Ok? <==> EnvelopeKey !in s.records && HeadKey !in s.records && HistoryKey(e.body.revision) !in s.records
  {
    var ops := GenesisBatch(e);
    assert Accepts(s, ops) ==> Holds(s.records, ops[0]) && Holds(s.records, ops[1]) && Holds(s.records, ops[2]);
  }

  /** Initialization fails only on the options it is given. */
  lemma InitializesExactlyWhen(options: InitOptions, made: Generated, choices: SealChoices)
    ensures Initialize(options, made, choices).Ok? <==> Initializable(options, made, choices)
    ensures Initialize(options, made, choices).Ok? ==>
            var i := Initialize(options, made, choices).value;
            && i.config == FirstConfig(options, made) && SealGenesis(made.root, i.config, [made.encryption], choices) == Ok(i.envelope)
            && i.keys == AuthorityKeys(made.root, made.admin, FounderAdmin(options, made), made.encryption, made.endpoint, Digest(i.envelope))
            && i.store == InitialStore(i.envelope, true)
  {
    hide UrlOk, AllBits, ValidAt, RecipientSetOk, Commit, WrapAll, Shuffled;
    if UrlOk(options.relayUrl) && options.validFor != 0 && options.now + options.validFor <= U64_MAX && made.admin.wellFormed {
      FirstConfigValid(options, made, options.now);
      FirstConfigRecipients(options, made);
      var sealed := SealGenesis(made.root, FirstConfig(options, made), [made.encryption], choices);
      if sealed.Ok? {
        GenesisCommits(sealed.value);
      }
    }
  }

  /** What the first snapshot offers: a founder with every role and an administrator with every
      permission, and at its endpoint and the given URL one relay of every kind and one presence service. */
  lemma FirstConfigOffers(options: InitOptions, made: Generated)
    requires options.now + options.validFor <= U64_MAX
    ensures var c := FirstConfig(options, made);
            && (forall bit :: 0 <= bit < 32 ==> bit in FounderAdmin(options, made).payload.permissions)
            && ROLE_MEMBER in FounderMember(options, made).payload.roles && ROLE_SERVICE in FounderMember(options, made).payload.roles
            && ROLE_RELAY in FounderMember(options, made).payload.roles && ROLE_BOOTSTRAP in FounderMember(options, made).payload.roles
            && ROLE_AUTHORITY in FounderMember(options, made).payload.roles
            && c.relays == [Relay(made.endpoint, options.relayUrl, {RELAY_DATA, RELAY_BOOTSTRAP, RELAY_PRESENCE}, c.expiresAt)]
            && c.presence == [PresenceService(made.endpoint, options.relayUrl, c.expiresAt)]
            && c.apps == [] && c.appBindings == [] && c.dns == [] && c.revoked == [] && c.secrets == made.secrets && c.policy == Policy(0, 256, 64)
            && c.epoch == 0 == c.revision && c.issuedAt == options.now && c.expiresAt == options.now + options.validFor
  {
  }

  // ---- what every later schedule may rely on ----

  /** The first revision is a start of the authority's own, under serials that are all different. */
  lemma InitializedStarts(options: InitOptions, made: Generated, choices: SealChoices)
    requires Initializable(options, made, choices)
    ensures Initialize(options, made, choices).Ok?
    ensures var i := Initialize(options, made, choices).value;
            OwnStart(i.keys, i.Start()) && SerialsDistinct(i.config)
  {
    hide Initialize, StartOk, SealGenesis, ValidAt;
    InitializesExactlyWhen(options, made, choices);
    var i := Initialize(options, made, choices).value;
    FoundersPlace(options, made, i.keys);
    GenesisSigned(i.keys, i.config, [made.encryption], choices, i.envelope);
    GenesisStarts(i.keys, i.config, [made.encryption], choices, i.envelope);
  }

  lemma FoundersPlace(options: InitOptions, made: Generated, keys: AuthorityKeys)
    requires options.now + options.validFor <= U64_MAX && made.admin.wellFormed
    requires keys.root == made.root && keys.adminKey == made.admin && keys.adminCert == FounderAdmin(options, made)
    requires keys.encryption == made.encryption && keys.endpoint == made.endpoint
    ensures var c := FirstConfig(options, made);
            AuthorityPresent(keys, c) && SerialsDistinct(c) && ManifestOk(keys) && Wire(keys.adminCert) in c.adminKeys
  {
    var c := FirstConfig(options, made);
    assert c.adminKeys[0] == Wire(keys.adminCert);
    assert AuthorityAt(keys, c, 0);
    assert AdminSerials(c) == [2] && MemberSerials(c) == [1];
  }

  lemma GenesisSigned(keys: AuthorityKeys, c: Config, recipients: seq<EncryptionKey>, choices: SealChoices, e: Envelope)
    requires SealGenesis(keys.root, c, recipients, choices) == Ok(e) && keys.genesis == Digest(e) && c.revision == 0 && c.previous == ZeroHash
    ensures SignedAsOpened(keys, e)
  {
    hide ValidAt, RecipientSetOk, FindContentKey;
    SealedFields(RootKeyId(keys.root), keys.root, c, recipients, choices, e);
  }

  /** A freshly initialized authority opens from the moment of its initialization until the end of
      the period it was initialized for, and at no other time. */
  lemma FreshAuthorityOpens(options: InitOptions, made: Generated, choices: SealChoices, h: nat, now: u64)
    requires Initializable(options, made, choices)
    ensures Initialize(options, made, choices).Ok?
    ensures var i := Initialize(options, made, choices).value;
            IdleAt(Reach(i.keys, i.Start(), true, OpenSteps(h, now)), h).Some? <==> options.now <= now < options.now + options.validFor
  {
    hide Initialize, OwnStart, ValidAt, Run, OpenSteps, ValidIgnoringTime, ValidFrom, ValidUntil, FirstConfig, Current;
    InitializedStarts(options, made, choices);
    InitializesExactlyWhen(options, made, choices);
    var i := Initialize(options, made, choices).value;
    FirstConfigValid(options, made, now);
    FirstConfigValid(options, made, options.now);
    ValidityInterval(i.config, made.root, now);
    ValidityInterval(i.config, made.root, options.now);
    RunNothing(i.keys, InitialWorld(i.Start(), true), []);
    OpensExactlyWhenInRuns(i.keys, i.Start(), true, [], h, now);
    assert [] + OpenSteps(h, now) == OpenSteps(h, now);
  }

  /** From an initialized authority, every schedule of named operations keeps the laws of epochs,
      wraps and serials, and the authority can open its last revision exactly while that is valid. */
  lemma InitializedRuns(options: InitOptions, made: Generated, choices: SealChoices, steps: seq<Step>, i: nat, j: nat, h: nat, now: u64)
    requires Initializable(options, made, choices) && Initialize(options, made, choices).Ok? && NamedSteps(steps)
    requires var a := Initialize(options, made, choices).value;
             i < |Reach(a.keys, a.Start(), true, steps).log| && j < |Reach(a.keys, a.Start(), true, steps).log|
    ensures var a := Initialize(options, made, choices).value;
            var w := Reach(a.keys, a.Start(), true, steps);
            && (w.log[i].config.epoch == w.log[j].config.epoch ==>
                  w.log[i].config.members == w.log[j].config.members && w.log[i].config.endpointBindings == w.log[j].config.endpointBindings
                  && w.log[i].config.secrets == w.log[j].config.secrets)
            && WrappedToMembers(w.log[i].envelope, w.log[i].config) && AuthorityPresent(a.keys, w.log[i].config)
            && (forall m, n :: IsMember(w.log[i].config, m) && IsMember(w.log[j].config, n) && m.payload.serial == n.payload.serial ==> m == n)
            && (h !in w.sessions ==>
                  var last := w.log[|w.log| - 1].config;
                  IdleAt(Reach(a.keys, a.Start(), true, steps + OpenSteps(h, now)), h).Some? <==> ValidFrom(last) <= now < ValidUntil(last))
  {
    hide Initialize, Reach, StartOk, ManifestOk, SignedAsOpened, AuthorityPresent, SerialsDistinct, NamedSteps, WrappedToMembers, IsMember, ValidFrom, ValidUntil,
         Current, OpenSteps;
    InitializedStarts(options, made, choices);
    var a := Initialize(options, made, choices).value;
    var w := Reach(a.keys, a.Start(), true, steps);
    EpochDeterminesMembershipInRuns(a.keys, a.Start(), true, steps, i, j);
    forall m, n | IsMember(w.log[i].config, m) && IsMember(w.log[j].config, n) && m.payload.serial == n.payload.serial
      ensures m == n
    {
      SerialsNeverReissuedInRuns(a.keys, a.Start(), true, steps, i, j, m, n);
    }
    if h !in w.sessions {
      OpensExactlyWhenInRuns(a.keys, a.Start(), true, steps, h, now);
    }
  }
}
