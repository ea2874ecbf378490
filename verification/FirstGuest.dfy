/** An initialized network and the first guest it invites, for every network and every guest: a run
    from the first revision in which the authority loses access to its own head. */
module FirstGuest {
  import opened Prelude
  import opened Limits
  import opened Credentials
  import opened Configs
  import opened SnapshotValidation
  import opened Envelopes
  import opened AuthorityOps
  import opened VersionedStore
  import opened AuthorityLog
  import opened AuthorityInvariant
  import opened AuthorityRuns
  import opened AuthorityHistory
  import opened AuthorityHandle
  import opened AuthorityNamedRuns
  import opened AuthorityOpening
  import opened Initialization

  /** The network, its guest, and the invitation made at time `at`. */
  datatype Scene = Scene(
    options: InitOptions,
    made: Generated,
    genesis: SealChoices,
    guest: PreparedJoin,
    roles: Bits,
    validFor: u64,
    at: u64,
    secrets: EpochSecrets,
    choices: SealChoices)
  {
    function Request(): JoinPayload {
      guest.request.payload
    }

    function End(): int {
      options.now + options.validFor
    }

    function Invitation(): Operation {
      Invite(guest.request, guest.binding, roles, validFor, secrets)
    }
  }

  /** The network can be initialized, and the guest's request is in order and clashes with nobody. */
  predicate SceneOk(s: Scene) {
    && Initializable(s.options, s.made, s.genesis) && Initialize(s.options, s.made, s.genesis).Ok?
    && s.options.now <= s.at < s.End() && s.validFor != 0 && s.at + s.validFor <= U64_MAX
    && VerifyPrepared(s.guest, NetworkId(s.made.root), s.at).Ok?
    && s.roles != {} && s.roles <= s.Request().roles
    && s.Request().signingKey != s.made.signing && s.Request().encryptionKey != s.made.encryption && s.Request().endpoint != s.made.endpoint
    && s.choices.length <= MAX_PLAINTEXT
  }

  function Founded(s: Scene): Initialized
    requires SceneOk(s)
  {
    Initialize(s.options, s.made, s.genesis).value
  }

  /** When the guest's certificate runs out. */
  function GuestEnd(s: Scene): u64
    requires SceneOk(s)
  {
    Min(Min(s.at + s.validFor, s.Request().expires), s.End())
  }

  function GuestCertificate(s: Scene): MemberCert
    requires SceneOk(s)
  {
    var network := NetworkId(s.made.root);
    var p := MemberPayload(network, MemberId(network, s.Request().signingKey), s.Request().signingKey, s.Request().encryptionKey, s.roles, 3,
                           s.at, GuestEnd(s), AdminKeyId(s.made.admin));
    MemberCert(p, Signature(s.made.admin, p))
  }

  /** The snapshot with the guest in it. */
  function Second(s: Scene): Config
    requires SceneOk(s)
  {
    var c := FirstConfig(s.options, s.made);
    c.(epoch := 1, revision := 1, previous := Digest(Founded(s).envelope), issuedAt := s.at, secrets := s.secrets,
       members := [Wire(FounderMember(s.options, s.made)), Wire(GuestCertificate(s))],
       endpointBindings := [c.endpointBindings[0], Wire(s.guest.binding)])
  }

  lemma SecondSerial(s: Scene)
    requires SceneOk(s)
    ensures NextSerial(FirstConfig(s.options, s.made)) == Ok(3)
  {
    hide Initialize, VerifyPrepared, UrlOk;
    var c := FirstConfig(s.options, s.made);
    assert AdminSerials(c) == [2] && MemberSerials(c) == [1];
    assert [2 as u64][1..] == [] && [1 as u64][1..] == [];
  }

  lemma FoundedFacts(s: Scene)
    requires SceneOk(s)
    ensures var i := Founded(s);
            && i.config == FirstConfig(s.options, s.made) && OwnStart(i.keys, i.Start())
            && i.keys == AuthorityKeys(s.made.root, s.made.admin, FounderAdmin(s.options, s.made), s.made.encryption, s.made.endpoint, Digest(i.envelope))
            && HeadOf(i.envelope) == Head(0, 0, Digest(i.envelope))
  {
    hide Initialize, OwnStart, ValidAt, RecipientSetOk, FindContentKey, VerifyPrepared;
    InitializesExactlyWhen(s.options, s.made, s.genesis);
    InitializedStarts(s.options, s.made, s.genesis);
    var i := Founded(s);
    SealedFields(RootKeyId(s.made.root), s.made.root, i.config, [s.made.encryption], s.genesis, i.envelope);
  }

  lemma GuestDrafts(s: Scene)
    requires SceneOk(s)
    ensures DraftOf(Founded(s).keys, Founded(s).config, HeadOf(Founded(s).envelope), s.Invitation(), s.at) ==
            Ok(Draft(Second(s), Some(TicketDraft(s.Request().nonce, GuestEnd(s), GuestCertificate(s), s.guest.binding))))
  {
    hide Initialize, Initializable, NextSerial, OwnStart;
    FoundedFacts(s);
    SecondSerial(s);
    var c := FirstConfig(s.options, s.made);
    assert EnsureJoinUnique(c, s.Request()).Ok?;
    assert c.members + [Wire(GuestCertificate(s))] == Second(s).members;
    assert c.endpointBindings + [Wire(s.guest.binding)] == Second(s).endpointBindings;
  }

  lemma SecondMembers(s: Scene, now: u64)
    requires SceneOk(s)
    ensures MembersValid(Second(s), s.made.root, now) <==> s.at <= now < GuestEnd(s)
  {
    hide Initialize, UrlOk;
    var c := Second(s);
    assert c.members[1].value == GuestCertificate(s);
    assert RevokedSet(c) == {};
    assert FindAdmin(c.adminKeys, AdminKeyId(s.made.admin)) == Some(FounderAdmin(s.options, s.made).payload);
    assert MemberOk(c, s.made.root, now, c.members[1]) <==> s.at <= now < GuestEnd(s);
  }

  lemma SecondEndpoints(s: Scene, now: u64)
    requires SceneOk(s) && s.at <= now < GuestEnd(s)
    ensures EndpointsValid(Second(s), s.made.root, now)
  {
    hide Initialize, UrlOk, AllBits;
    var c := Second(s);
    var founder := MemberId(c.network, s.made.signing);
    assert FindMember(c.members, founder) == Some(FounderMember(s.options, s.made).payload);
    assert c.members[1..][0] == Wire(GuestCertificate(s));
    assert FindMember(c.members, s.Request().memberId) == Some(GuestCertificate(s).payload);
  }

  /** The snapshot with the guest in it is valid exactly from the invitation to the guest's end. */
  lemma SecondValid(s: Scene, now: u64)
    requires SceneOk(s)
    ensures ValidAt(Second(s), s.made.root, now) <==> s.at <= now < GuestEnd(s)
  {
    hide Initialize, UrlOk, AllBits, VerifyPrepared, MembersValid, EndpointsValid;
    var c := Second(s);
    SecondMembers(s, now);
    if s.at <= now < GuestEnd(s) {
      assert RevokedSet(c) == {};
      SecondEndpoints(s, now);
      assert AdminsValid(c, s.made.root, now);
    }
  }

  lemma SecondRecipients(s: Scene)
    requires SceneOk(s)
    ensures var c, all := Second(s), [s.made.encryption, s.Request().encryptionKey];
            AllDecode(c.members) && ActiveRecipients(c) == Ok(all) && RecipientSetOk(c, all) && s.made.encryption in MemberKeys(c)
  {
    hide Initialize, Initializable, VerifyPrepared;
    var c, all := Second(s), [s.made.encryption, s.Request().encryptionKey];
    assert c.members[0].value.payload.encryptionKey == all[0] && c.members[1].value.payload.encryptionKey == all[1];
    assert MemberKeys(c) == Elements(all);
    DistinctCardinality(all);
    assert ActiveRecipients(c).value == all;
  }

  /** The founder's certificate is found and lets it write and issue. */
  lemma FounderVerified(s: Scene, now: u64)
    requires SceneOk(s) && s.options.now <= now < s.End()
    ensures VerifiedAdminOf(Founded(s).config, s.made.root, AdminKeyId(s.made.admin), now) == Ok(FounderAdmin(s.options, s.made).payload)
  {
    hide Initialize, OwnStart, VerifyPrepared, UrlOk;
    FoundedFacts(s);
    assert RevokedSet(Founded(s).config) == {};
  }

  lemma GuestPrepares(s: Scene)
    requires SceneOk(s)
    ensures var i := Founded(s);
            var plan := Prepare(i.keys, i.config, HeadOf(i.envelope), s.Invitation(), s.at, s.choices);
            && plan.Ok? && plan.value.config == Second(s) && plan.value.op == s.Invitation()
            && plan.value.ticket == Some(TicketDraft(s.Request().nonce, GuestEnd(s), GuestCertificate(s), s.guest.binding))
  {
    hide Initialize, Initializable, OwnStart, VerifyPrepared, DraftOf, Prepare, ValidAt, RecipientSetOk, ActiveRecipients, MemberKeys, VerifiedAdminOf,
         Shuffled, WrapAll, FindContentKey;
    var i := Founded(s);
    FoundedFacts(s);
    GuestDrafts(s);
    SecondValid(s, s.at);
    SecondRecipients(s);
    FounderVerified(s, s.at);
    GuestEndLater(s);
    var d := DraftOf(i.keys, i.config, HeadOf(i.envelope), s.Invitation(), s.at).value;
    PreparesExactlyWhen(i.keys, i.config, HeadOf(i.envelope), s.Invitation(), s.at, s.choices, d);
    PreparedPlan(i.keys, i.config, HeadOf(i.envelope), s.Invitation(), s.at, s.choices,
                 Prepare(i.keys, i.config, HeadOf(i.envelope), s.Invitation(), s.at, s.choices).value);
  }

  lemma GuestEndLater(s: Scene)
    requires SceneOk(s)
    ensures s.at < GuestEnd(s)
  {
    hide Initialize, Initializable;
  }

  // ---- the invitation as a run from the first revision ----

  function GuestPlan(s: Scene): Result<Plan, AuthorityError>
    requires SceneOk(s)
  {
    var i := Founded(s);
    Prepare(i.keys, i.config, HeadOf(i.envelope), s.Invitation(), s.at, s.choices)
  }

  /** Handle `h` opens the new authority and invites the guest. */
  function InviteSteps(s: Scene, h: nat): seq<Step> {
    OpenSteps(h, s.at) + CommitSteps(h, s.Invitation(), s.at, s.choices)
  }

  function Invited(s: Scene, h: nat): World
    requires SceneOk(s)
  {
    Reach(Founded(s).keys, Founded(s).Start(), true, InviteSteps(s, h))
  }

  /** The invitation is committed, and `invite_member` has yet to read its ticket's envelope. */
  lemma InvitedWorld(s: Scene, h: nat)
    requires SceneOk(s)
    ensures GuestPlan(s).Ok? && GuestPlan(s).value.config == Second(s) && GuestPlan(s).value.ticket.Some?
    ensures var i, w, plan := Founded(s), Invited(s, h), GuestPlan(s).value;
            && Inv(i.keys, w) && w.log == [i.Start(), EntryOf(plan)] && NamedLog(w.log) && OwnStart(i.keys, w.log[0])
            && w.sessions.Keys == {h} && AdmittedAt(w, h, plan)
  {
    hide SceneOk, Founded, Second, OwnStart, Inv, Prepare, ValidAt, Run, OpenSteps, CommitSteps, CachesLast, FirstConfig, GuestCertificate, GuestEnd, StartOk;
    var i := Founded(s);
    FoundedFacts(s);
    GuestPrepares(s);
    FoundedValid(s, s.at);
    var w := InitialWorld(i.Start(), true);
    OwnStartStarts(i.keys, i.Start());
    InitialInv(i.keys, i.Start(), true);
    PreparedPlanOp(s);
    OpenThenCommit(i.keys, w, h, s.Invitation(), s.at, s.choices, GuestPlan(s).value);
  }

  lemma PreparedPlanOp(s: Scene)
    requires SceneOk(s) && GuestPlan(s).Ok?
    ensures GuestPlan(s).value.op == s.Invitation()
  {
    hide SceneOk, Founded, Prepare;
    var i := Founded(s);
    PreparedNames(i.keys, i.config, HeadOf(i.envelope), s.Invitation(), s.at, s.choices);
  }

  lemma FoundedValid(s: Scene, now: u64)
    requires SceneOk(s) && (s.options.now <= now < s.End() || now == s.at)
    ensures ValidAt(Founded(s).config, Founded(s).keys.root, now)
  {
    hide Initialize, OwnStart, ValidAt, VerifyPrepared, UrlOk;
    FoundedFacts(s);
    FirstConfigValid(s.options, s.made, now);
  }

  // ---- the authority loses access to its own head ----

  /** The founder's own credentials, as the snapshot with the guest holds them, last until the end
      of the period the network was made for. */
  lemma FounderStays(s: Scene, now: u64)
    requires SceneOk(s) && s.at <= now < s.End()
    ensures var c, root := Second(s), s.made.root;
            && VerifyAdmin(FounderAdmin(s.options, s.made), root, NetworkId(root), now, RevokedSet(c)).Ok?
            && MemberOk(c, root, now, c.members[0]) && EndpointOk(c, root, now, c.endpointBindings[0])
  {
    hide Initialize, UrlOk, AllBits;
    var c := Second(s);
    assert RevokedSet(c) == {};
    assert FindMember(c.members, MemberId(c.network, s.made.signing)) == Some(FounderMember(s.options, s.made).payload);
  }

  /** Inviting a guest bounds the authority's access to its own head by the guest's certificate: a
      new handle opens exactly until that runs out, whatever else is still current. */
  lemma GuestBoundsAccess(s: Scene, h: nat, g: nat, now: u64)
    requires SceneOk(s) && g != h
    ensures IdleAt(Run(Founded(s).keys, Invited(s, h), OpenSteps(g, now)), g).Some? <==> s.at <= now < GuestEnd(s)
  {
    hide SceneOk, Founded, Second, OwnStart, NamedLog, Inv, Prepare, ValidAt, Run, OpenSteps, FirstConfig, GuestCertificate, GuestEnd, Invited,
         ValidFrom, ValidUntil, ValidIgnoringTime, Current, Seeded;
    InvitedWorld(s, h);
    FoundedRoot(s);
    var w := Invited(s, h);
    assert w.log[|w.log| - 1].config == Second(s);
    OpensExactlyWhen(Founded(s).keys, w, g, now);
    SecondValid(s, now);
    SecondValid(s, s.at);
    GuestEndLater(s);
    ValidityInterval(Second(s), s.made.root, now);
    ValidityInterval(Second(s), s.made.root, s.at);
  }

  lemma FoundedRoot(s: Scene)
    requires SceneOk(s)
    ensures Founded(s).keys.root == s.made.root && Founded(s).keys.encryption == s.made.encryption
  {
    hide SceneOk, Founded, OwnStart;
    FoundedFacts(s);
  }

  // ---- the ticket of an invitation that is overtaken ----

  /** The snapshot once the founder's relay is removed. */
  function WithoutRelay(s: Scene, at: u64): Config
    requires SceneOk(s) && GuestPlan(s).Ok?
  {
    Second(s).(revision := 2, previous := GuestPlan(s).value.head.hash, issuedAt := at, relays := [], presence := [])
  }

  lemma RelayDrafts(s: Scene, at: u64)
    requires SceneOk(s) && GuestPlan(s).Ok?
    ensures DraftOf(Founded(s).keys, Second(s), GuestPlan(s).value.head, RemoveRelay(s.made.endpoint), at) == Ok(Draft(WithoutRelay(s, at), None))
  {
    hide Initialize, Prepare, VerifyPrepared, UrlOk, AllBits, GuestCertificate;
    var c := Second(s);
    assert c.relays[1..] == [] && c.presence[1..] == [];
    assert c.relays[0].endpoint == s.made.endpoint == c.presence[0].endpoint;
    assert Retain(c.relays, (r: Relay) => r.endpoint != s.made.endpoint) == [];
    assert Retain(c.presence, (p: PresenceService) => p.endpoint != s.made.endpoint) == [];
  }

  lemma WithoutRelayValid(s: Scene, at: u64)
    requires SceneOk(s) && GuestPlan(s).Ok? && s.at <= at < GuestEnd(s)
    ensures ValidAt(WithoutRelay(s, at), s.made.root, at)
  {
    hide SceneOk, Initialize, Founded, Prepare, UrlOk, AllBits, GuestCertificate, GuestEnd, AdminOk, MemberOk, EndpointOk, FounderMember, FounderAdmin;
    SecondValid(s, at);
    var c, d := Second(s), WithoutRelay(s, at);
    assert forall i :: 0 <= i < |c.adminKeys| ==> AdminOk(c, s.made.root, at, c.adminKeys[i]);
    assert forall i :: 0 <= i < |c.members| ==> MemberOk(c, s.made.root, at, c.members[i]);
    assert forall i :: 0 <= i < |c.endpointBindings| ==> EndpointOk(c, s.made.root, at, c.endpointBindings[i]);
    SamePasses(c, d, s.made.root, at);
  }

  /** What a draft made from the invitation's revision must be for another handle to commit it. */
  predicate FollowsSecond(s: Scene, next: Config, at: u64)
    requires SceneOk(s) && GuestPlan(s).Ok?
  {
    && next.network == Second(s).network && next.revision == 2 && next.previous == GuestPlan(s).value.head.hash && 1 <= next.epoch && next.issuedAt == at
    && ValidAt(next, s.made.root, at) && AllDecode(next.members) && 0 < |next.members| <= MAX_KEY_WRAPS
    && RecipientSetOk(next, ActiveRecipients(next).value) && s.made.encryption in MemberKeys(next)
  }

  /** The plan of an operation on the invitation's revision. */
  function NextPlan(s: Scene, op: Operation, at: u64, choices: SealChoices): Result<Plan, AuthorityError>
    requires SceneOk(s) && GuestPlan(s).Ok?
  {
    Prepare(Founded(s).keys, Second(s), GuestPlan(s).value.head, op, at, choices)
  }

  lemma SecondAdmin(s: Scene, at: u64)
    requires SceneOk(s) && s.at <= at < GuestEnd(s)
    ensures var admin := VerifiedAdminOf(Second(s), s.made.root, AdminKeyId(s.made.admin), at);
            admin.Ok? && admin.value.publicKey == s.made.admin && PERMISSION_CONFIG_WRITE in admin.value.permissions
  {
    hide Initialize, VerifyPrepared, UrlOk, GuestCertificate, GuestEnd;
    assert RevokedSet(Second(s)) == {};
    GuestEndBounded(s);
  }

  lemma GuestEndBounded(s: Scene)
    requires SceneOk(s)
    ensures GuestEnd(s) <= s.End()
  {
    hide Initialize, Initializable, VerifyPrepared;
  }

  lemma GuestHead(s: Scene)
    requires SceneOk(s) && GuestPlan(s).Ok?
    ensures var plan := GuestPlan(s).value;
            plan.head == HeadOf(plan.envelope) == Head(1, 1, Digest(plan.envelope)) && plan.config == Second(s)
  {
    hide SceneOk, Founded, Prepare, OwnStart, ValidAt, FindContentKey, FirstConfig, GuestCertificate, DraftOf;
    var i := Founded(s);
    GuestPrepares(s);
    PreparedPlan(i.keys, i.config, HeadOf(i.envelope), s.Invitation(), s.at, s.choices, GuestPlan(s).value);
  }

  lemma NextPrepares(s: Scene, op: Operation, at: u64, choices: SealChoices, next: Config)
    requires SceneOk(s) && GuestPlan(s).Ok? && s.at <= at < GuestEnd(s) && choices.length <= MAX_PLAINTEXT
    requires DraftOf(Founded(s).keys, Second(s), GuestPlan(s).value.head, op, at) == Ok(Draft(next, None)) && FollowsSecond(s, next, at)
    ensures NextPlan(s, op, at, choices).Ok? && NextPlan(s, op, at, choices).value.config == next
  {
    hide SceneOk, Founded, DraftOf, Prepare, ValidAt, RecipientSetOk, MemberKeys, VerifiedAdminOf, Shuffled, WrapAll, FindContentKey,
         FirstConfig, GuestCertificate, GuestEnd, OwnStart;
    var keys, head := Founded(s).keys, GuestPlan(s).value.head;
    FoundedFacts(s);
    GuestHead(s);
    SecondAdmin(s, at);
    SecondNetwork(s);
    PreparesExactlyWhen(keys, Second(s), head, op, at, choices, Draft(next, None));
    PreparedPlan(keys, Second(s), head, op, at, choices, NextPlan(s, op, at, choices).value);
  }

  lemma SecondNetwork(s: Scene)
    requires SceneOk(s)
    ensures Second(s).network == NetworkId(s.made.root) && Second(s).epoch == 1 == Second(s).revision
  {
    hide SceneOk, Founded, GuestCertificate;
  }

  /** A second handle opens and commits `op` while the first is still inviting. */
  function Overtaken(s: Scene, h: nat, g: nat, op: Operation, at: u64, choices: SealChoices): World
    requires SceneOk(s)
  {
    Run(Founded(s).keys, Invited(s, h), OpenSteps(g, at) + CommitSteps(g, op, at, choices))
  }

  lemma OvertakenWorld(s: Scene, h: nat, g: nat, op: Operation, at: u64, choices: SealChoices)
    requires SceneOk(s) && GuestPlan(s).Ok? && s.at <= at < GuestEnd(s) && g != h && Named(op) && !op.Redeem?
    requires NextPlan(s, op, at, choices).Ok?
    ensures var i, v, plan := Founded(s), Overtaken(s, h, g, op, at, choices), NextPlan(s, op, at, choices).value;
            && Inv(i.keys, v) && v.log == Invited(s, h).log + [EntryOf(plan)] && NamedLog(v.log) && OwnStart(i.keys, v.log[0])
            && v.sessions.Keys == {g, h} && AdmittedAt(v, h, GuestPlan(s).value)
  {
    hide SceneOk, Founded, Second, OwnStart, Inv, Prepare, ValidAt, Run, OpenSteps, CommitSteps, CachesLast, FirstConfig, GuestCertificate, GuestEnd, Invited;
    InvitedWorld(s, h);
    GuestHead(s);
    FoundedRoot(s);
    SecondValid(s, at);
    var keys, w := Founded(s).keys, Invited(s, h);
    PreparedNames(keys, Second(s), GuestPlan(s).value.head, op, at, choices);
    OpenThenCommit(keys, w, g, op, at, choices, NextPlan(s, op, at, choices).value);
  }

  /** The invitation's ticket, read after the other handle's commit, verifies nowhere and never. */
  lemma OvertakenTicketSpoiled(s: Scene, h: nat, g: nat, at: u64, choices: SealChoices)
    requires SceneOk(s) && s.at <= at < GuestEnd(s) && g != h && choices.length <= MAX_PLAINTEXT
    ensures GuestPlan(s).Ok?
    ensures var keys, plan, v := Founded(s).keys, GuestPlan(s).value, Overtaken(s, h, g, RemoveRelay(s.made.endpoint), at, choices);
            && |v.log| == 3 && AdmittedAt(v, h, plan) && InviteTicket(keys, v, plan).Some?
            && forall root, network, nonce, endpoint, now :: VerifyTicket(InviteTicket(keys, v, plan).value, root, network, nonce, endpoint, now).Err?
  {
    hide SceneOk, Founded, Second, OwnStart, Inv, Prepare, ValidAt, Overtaken, FirstConfig, GuestCertificate, GuestEnd, Invited, WithoutRelay, DraftOf, VerifyTicket,
         FollowsSecond, NamedLog;
    InvitedWorld(s, h);
    RelayDrafts(s, at);
    RelayFollows(s, at);
    var op := RemoveRelay(s.made.endpoint);
    NextPrepares(s, op, at, choices, WithoutRelay(s, at));
    OvertakenWorld(s, h, g, op, at, choices);
    var keys, w, v := Founded(s).keys, Invited(s, h), Overtaken(s, h, g, op, at, choices);
    TicketAvailable(keys, v, GuestPlan(s).value);
    InterveningCommitSpoilsTicket(keys, w, h, GuestPlan(s).value, v);
  }

  lemma TicketAvailable(keys: AuthorityKeys, w: World, plan: Plan)
    requires Inv(keys, w) && plan.ticket.Some?
    ensures InviteTicket(keys, w, plan).Some?
  {
    hide Sequential, SessionsOk, InvitationsOk, ReturnedOk, HistoryTrue, VersionsBelow;
  }

  lemma RelayFollows(s: Scene, at: u64)
    requires SceneOk(s) && GuestPlan(s).Ok? && s.at <= at < GuestEnd(s)
    ensures FollowsSecond(s, WithoutRelay(s, at), at)
  {
    hide SceneOk, Founded, Prepare, ValidAt, GuestEnd, FirstConfig, GuestCertificate;
    WithoutRelayValid(s, at);
    SecondRecipients(s);
    SecondNetwork(s);
    SecondLists(s);
    SameRecipients(Second(s), WithoutRelay(s, at));
  }

  lemma SecondLists(s: Scene)
    requires SceneOk(s)
    ensures |Second(s).members| == 2
  {
    hide SceneOk, Founded, FirstConfig, GuestCertificate;
  }

  lemma SameRecipients(c: Config, d: Config)
    requires c.members == d.members && AllDecode(c.members)
    ensures MemberKeys(c) == MemberKeys(d) && ActiveRecipients(c) == ActiveRecipients(d)
    ensures RecipientSetOk(c, ActiveRecipients(c).value) == RecipientSetOk(d, ActiveRecipients(d).value)
  {
  }

  // ---- the way out: revoke the guest in time ----

  function Revocation(s: Scene, secrets: EpochSecrets): Operation {
    Revoke(s.Request().memberId, secrets)
  }

  /** The snapshot without the guest. */
  function Third(s: Scene, at: u64, secrets: EpochSecrets): Config
    requires SceneOk(s) && GuestPlan(s).Ok?
  {
    var c := Second(s);
    c.(epoch := 2, revision := 2, previous := GuestPlan(s).value.head.hash, issuedAt := at, secrets := secrets,
       members := [c.members[0]], endpointBindings := [c.endpointBindings[0]], revoked := [3])
  }

  lemma RevocationLists(s: Scene, secrets: EpochSecrets)
    requires SceneOk(s)
    ensures var c, id := Second(s), s.Request().memberId;
            && MemberPosition(c.members, id) == Some(1) && c.members[..1] + c.members[2..] == [c.members[0]]
            && c.members[1].Wire? && c.members[1].value.payload.serial == 3 && c.members[1].value.payload.encryptionKey != s.made.encryption
            && c.revoked == [] && Retain(c.endpointBindings, (raw: Raw<EndpointBinding>) => raw.Wire? && raw.value.payload.memberId != id) == [c.endpointBindings[0]]
            && EndpointsOf(c, id) == {s.Request().endpoint}
  {
    hide Initialize, UrlOk, AllBits;
    var c, id := Second(s), s.Request().memberId;
    assert id != MemberId(c.network, s.made.signing);
    assert MemberPosition(c.members[1..], id) == Some(0);
    assert c.endpointBindings[1..][1..] == [] && c.endpointBindings[1..][0] == c.endpointBindings[1];
    assert Retain(c.endpointBindings[1..], (raw: Raw<EndpointBinding>) => raw.Wire? && raw.value.payload.memberId != id) == [];
    assert BoundTo(c.endpointBindings[1], id) && !BoundTo(c.endpointBindings[0], id);
  }

  lemma RevocationDescriptors(s: Scene)
    requires SceneOk(s)
    ensures var c, endpoints := Second(s), {s.Request().endpoint};
            && Retain(c.relays, (r: Relay) => r.endpoint !in endpoints) == c.relays
            && Retain(c.presence, (p: PresenceService) => p.endpoint !in endpoints) == c.presence && c.appBindings == []
  {
    hide Initialize, UrlOk, AllBits, VerifyPrepared;
    var c := Second(s);
    assert c.relays == [c.relays[0]] && c.presence == [c.presence[0]];
    assert c.relays[1..] == [] && c.presence[1..] == [];
  }

  lemma RevocationDrafts(s: Scene, at: u64, secrets: EpochSecrets)
    requires SceneOk(s) && GuestPlan(s).Ok?
    ensures DraftOf(Founded(s).keys, Second(s), GuestPlan(s).value.head, Revocation(s, secrets), at) == Ok(Draft(Third(s, at, secrets), None))
  {
    hide SceneOk, Founded, Prepare, Retain, MemberPosition, EndpointsOf, SortBy, FirstConfig, GuestCertificate, Second;
    RevocationLists(s, secrets);
    RevocationDescriptors(s);
    FoundedRoot(s);
    SecondNetwork(s);
    var c := Second(s);
    RetainNothing((raw: Raw<AppBinding>) => raw.Wire? && raw.value.payload.subject != s.Request().memberId);
    SortOne(3, (a: u64, b: u64) => a <= b);
    assert c.revoked + [3] == [3];
  }

  lemma RetainNothing<T>(keep: T -> bool)
    ensures Retain([], keep) == []
  {
  }

  lemma SortOne(x: u64, le: (u64, u64) -> bool)
    ensures SortBy([x], le) == [x]
  {
    assert [x][1..] == [];
  }

  lemma ThirdValid(s: Scene, at: u64, secrets: EpochSecrets, now: u64)
    requires SceneOk(s) && GuestPlan(s).Ok? && s.at <= at < GuestEnd(s)
    ensures ValidAt(Third(s, at, secrets), s.made.root, now) <==> at <= now < s.End()
  {
    hide Initialize, Prepare, UrlOk, VerifyPrepared, AllBits, GuestCertificate, GuestEnd;
    var c := Third(s, at, secrets);
    GuestEndBounded(s);
    if at <= now < s.End() {
      assert RevokedSet(c) == {3};
      assert FindMember(c.members, MemberId(c.network, s.made.signing)) == Some(FounderMember(s.options, s.made).payload);
      assert AdminsValid(c, s.made.root, now);
      assert MembersValid(c, s.made.root, now);
      assert EndpointsValid(c, s.made.root, now);
    }
  }

  lemma ThirdFollows(s: Scene, at: u64, secrets: EpochSecrets)
    requires SceneOk(s) && GuestPlan(s).Ok? && s.at <= at < GuestEnd(s)
    ensures FollowsSecond(s, Third(s, at, secrets), at)
  {
    hide Initialize, Prepare, ValidAt, GuestCertificate, UrlOk, AllBits, VerifyPrepared;
    ThirdValid(s, at, secrets, at);
    GuestEndBounded(s);
    var c := Third(s, at, secrets);
    assert c.members[0].value.payload.encryptionKey == s.made.encryption;
    assert ActiveRecipients(c).value == [s.made.encryption];
    assert MemberKeys(c) == {s.made.encryption} == Elements([s.made.encryption]);
  }

  /** Once the guest is revoked, before its certificate runs out, the authority can open its head
      for the whole period the network was made for. */
  lemma RevocationRestoresAccess(s: Scene, h: nat, g: nat, at: u64, secrets: EpochSecrets, choices: SealChoices, f: nat, now: u64)
    requires SceneOk(s) && s.at <= at < GuestEnd(s) && choices.length <= MAX_PLAINTEXT && g != h && f != g && f != h
    ensures var v := Overtaken(s, h, g, Revocation(s, secrets), at, choices);
            && |v.log| == 3
            && (IdleAt(Run(Founded(s).keys, v, OpenSteps(f, now)), f).Some? <==> at <= now < s.End())
  {
    hide SceneOk, Founded, Second, OwnStart, NamedLog, Inv, Prepare, ValidAt, Run, OpenSteps, FirstConfig, GuestCertificate, GuestEnd, Overtaken, Invited, Third,
         ValidFrom, ValidUntil, ValidIgnoringTime, Current, Seeded, DraftOf, FollowsSecond;
    InvitedWorld(s, h);
    FoundedRoot(s);
    RevocationDrafts(s, at, secrets);
    ThirdFollows(s, at, secrets);
    var op := Revocation(s, secrets);
    NextPrepares(s, op, at, choices, Third(s, at, secrets));
    OvertakenWorld(s, h, g, op, at, choices);
    var v := Overtaken(s, h, g, op, at, choices);
    assert v.log[|v.log| - 1].config == Third(s, at, secrets);
    OpensExactlyWhen(Founded(s).keys, v, f, now);
    ThirdValid(s, at, secrets, now);
    ThirdValid(s, at, secrets, at);
    GuestEndBounded(s);
    ValidityInterval(Third(s, at, secrets), s.made.root, now);
    ValidityInterval(Third(s, at, secrets), s.made.root, at);
  }
}
