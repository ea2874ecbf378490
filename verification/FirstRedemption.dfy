/** The whole way in, for every network, application and guest: an authority is initialized and opened,
    registers an application, makes an invitation and redeems it, and the guest joins with the ticket. */
module FirstRedemption {
  import opened Prelude
  import opened Limits
  import opened Credentials
  import opened Configs
  import opened SnapshotValidation
  import opened Envelopes
  import opened AuthorityOps
  import opened VersionedStore
  import opened AuthorityLog
  import opened AuthorityInvariant
  import opened AuthorityRuns
  import opened AuthorityHistory
  import opened AuthorityHandle
  import opened AuthorityNamedRuns
  import opened AuthorityOpening
  import opened Initialization
  import opened AdmissionEffects
  import opened AuthorityVersions
  import opened Replica
  import opened Membership
  import opened JoinRuns

  datatype Story = Story(
    options: InitOptions,
    made: Generated,
    genesis: SealChoices,
    request: AppRequest,
    guest: PreparedJoin,
    bootstrap: EndpointId,
    service: VirtualName,
    id: nat,
    validFor: u64,
    registered: u64,
    invited: u64,
    redeemed: u64,
    secrets: EpochSecrets,
    choices: SealChoices)
  {
    function Join(): JoinPayload {
      guest.request.payload
    }

    function App(): AppPayload {
      var p := request.payload;
      AppPayload(NetworkId(made.root), p.app, p.rootKey, p.policy, AdminKeyId(made.admin))
    }

    function Registration(): Operation {
      RegisterApp(request)
    }

    function End(): int {
      options.now + options.validFor
    }
  }

  /** Everybody's request is in order, and things happen one after another within the network's period
      and the invitation's. */
  predicate StoryOk(s: Story) {
    && Initializable(s.options, s.made, s.genesis) && Initialize(s.options, s.made, s.genesis).Ok?
    && VerifyAppRequest(s.request, NetworkId(s.made.root)).Ok?
    && s.options.now <= s.registered <= s.invited <= s.redeemed < s.End()
    && s.invited + s.validFor <= U64_MAX && s.redeemed < s.invited + s.validFor
    && VerifyPrepared(s.guest, NetworkId(s.made.root), s.redeemed).Ok?
    && s.Join().signingKey != s.made.signing && s.Join().encryptionKey != s.made.encryption && s.Join().endpoint != s.made.endpoint
    && s.choices.length <= MAX_PLAINTEXT
  }

  function Founded(s: Story): Initialized
    requires StoryOk(s)
  {
    Initialize(s.options, s.made, s.genesis).value
  }

  lemma FoundedFacts(s: Story)
    requires StoryOk(s)
    ensures var i := Founded(s);
            && i.config == FirstConfig(s.options, s.made) && OwnStart(i.keys, i.Start()) && ManifestOk(i.keys)
            && i.keys == AuthorityKeys(s.made.root, s.made.admin, FounderAdmin(s.options, s.made), s.made.encryption, s.made.endpoint, Digest(i.envelope))
            && HeadOf(i.envelope) == Head(0, 0, Digest(i.envelope)) && i.store == InitialStore(i.envelope, true)
  {
    hide Initialize, StartOk, ManifestOk, SignedAsOpened, AuthorityPresent, ValidAt, RecipientSetOk, FindContentKey, VerifyPrepared, VerifyAppRequest;
    InitializesExactlyWhen(s.options, s.made, s.genesis);
    InitializedStarts(s.options, s.made, s.genesis);
    var i := Founded(s);
    SealedFields(RootKeyId(s.made.root), s.made.root, i.config, [s.made.encryption], s.genesis, i.envelope);
  }

  // ---- the application ----

  /** The snapshot with the application. */
  function WithApp(s: Story): Config
    requires StoryOk(s)
  {
    FirstConfig(s.options, s.made).(revision := 1, previous := Digest(Founded(s).envelope), issuedAt := s.registered,
                                    apps := [Wire(AppRegistration(s.App(), Signature(s.made.admin, s.App())))])
  }

  lemma AppDrafts(s: Story)
    requires StoryOk(s)
    ensures DraftOf(Founded(s).keys, Founded(s).config, HeadOf(Founded(s).envelope), s.Registration(), s.registered) == Ok(Draft(WithApp(s), None))
  {
    hide Initialize, OwnStart, DraftOf, VerifyPrepared, UrlOk, ManifestOk;
    FoundedFacts(s);
    RegisterAppAdds(Founded(s).keys, Founded(s).config, HeadOf(Founded(s).envelope), s.Registration(), s.registered);
    assert Founded(s).config.apps + WithApp(s).apps == WithApp(s).apps;
  }

  lemma WithAppValid(s: Story, now: u64)
    requires StoryOk(s) && s.registered <= now < s.End()
    ensures ValidAt(WithApp(s), s.made.root, now)
  {
    hide Initialize, UrlOk, VerifyPrepared;
    var c, d := FirstConfig(s.options, s.made), WithApp(s);
    FirstConfigValid(s.options, s.made, now);
    SamePasses(c, d, s.made.root, now);
    assert FindAdmin(d.adminKeys, AdminKeyId(s.made.admin)) == Some(FounderAdmin(s.options, s.made).payload);
    assert AppOk(d, s.made.root, d.apps[0]);
  }

  lemma FounderListed(s: Story, c: Config, now: u64)
    requires StoryOk(s) && ValidAt(c, s.made.root, now) && Wire(FounderAdmin(s.options, s.made)) in c.adminKeys
    ensures var admin := VerifiedAdminOf(c, s.made.root, AdminKeyId(s.made.admin), now);
            admin.Ok? && admin.value.publicKey == s.made.admin && PERMISSION_CONFIG_WRITE in admin.value.permissions
  {
    hide Initialize, OwnStart, ValidAt, VerifyPrepared, UrlOk, ManifestOk, VerifiedAdmin;
    FoundedFacts(s);
    ManifestListed(Founded(s).keys, c, now);
    var i := VerifiedAdminIsListed(c.adminKeys, s.made.root, c.network, AdminKeyId(s.made.admin), now, RevokedSet(c));
    FounderIs(s, c, now, i);
  }

  lemma FounderIs(s: Story, c: Config, now: u64, i: nat)
    requires StoryOk(s) && ValidAt(c, s.made.root, now) && Wire(FounderAdmin(s.options, s.made)) in c.adminKeys
    requires i < |c.adminKeys| && c.adminKeys[i].Wire? && c.adminKeys[i].value.payload.keyId == AdminKeyId(s.made.admin)
    ensures c.adminKeys[i].value == FounderAdmin(s.options, s.made) && PERMISSION_CONFIG_WRITE in c.adminKeys[i].value.payload.permissions
  {
    hide Initialize, Shape, MembersValid, EndpointsValid, AppsValid, AppBindingsValid, DnsValid, DescriptorsValid, VerifyPrepared, UrlOk, VerifyAdmin;
    var j :| 0 <= j < |c.adminKeys| && c.adminKeys[j] == Wire(FounderAdmin(s.options, s.made));
  }

  lemma AppPrepares(s: Story)
    requires StoryOk(s)
    ensures var i := Founded(s);
            var plan := Prepare(i.keys, i.config, HeadOf(i.envelope), s.Registration(), s.registered, s.choices);
            plan.Ok? && plan.value.config == WithApp(s) && plan.value.head == HeadOf(plan.value.envelope) == Head(0, 1, Digest(plan.value.envelope))
  {
    hide Initialize, OwnStart, ManifestOk, VerifyPrepared, DraftOf, Prepare, ValidAt, UrlOk, FindContentKey, VerifiedAdminOf, VerifyAppRequest;
    var i := Founded(s);
    FoundedFacts(s);
    AppDrafts(s);
    WithAppValid(s, s.registered);
    FirstConfigValid(s.options, s.made, s.registered);
    FounderListed(s, i.config, s.registered);
    FirstConfigRecipients(s.options, s.made);
    FounderRecipient(WithApp(s), s.made.encryption);
    var d := Draft(WithApp(s), None);
    PreparesExactlyWhen(i.keys, i.config, HeadOf(i.envelope), s.Registration(), s.registered, s.choices, d);
    SealsNextExactlyWhen(s.made.root, s.made.admin, i.config, HeadOf(i.envelope), WithApp(s), [s.made.encryption], s.registered, s.choices);
    PreparedPlan(i.keys, i.config, HeadOf(i.envelope), s.Registration(), s.registered, s.choices,
                 Prepare(i.keys, i.config, HeadOf(i.envelope), s.Registration(), s.registered, s.choices).value);
  }

  lemma FounderRecipient(c: Config, k: EncryptionKey)
    requires |c.members| == 1 && c.members[0].Wire? && c.members[0].value.payload.encryptionKey == k
    ensures AllDecode(c.members) && ActiveRecipients(c) == Ok([k]) && MemberKeys(c) == {k} == Elements([k])
  {
    assert ActiveRecipients(c).value == [k];
  }

  // ---- the invitation and its redemption ----

  function InvitationEnd(s: Story): u64
    requires StoryOk(s)
  {
    Min(s.invited + s.validFor, s.End())
  }

  function TheInvitation(s: Story): Invitation
    requires StoryOk(s)
  {
    var body := InvitationBody(s.id, NetworkId(s.made.root), s.made.root, s.bootstrap, s.request.payload.app, s.service, InvitationEnd(s),
                               FounderAdmin(s.options, s.made), AdminKeyId(s.made.admin));
    Invitation(body, DocumentSignature(s.made.admin, body))
  }

  function Redemption(s: Story): Operation
    requires StoryOk(s)
  {
    Redeem(TheInvitation(s), s.guest, s.request.payload.rootKey, s.secrets)
  }

  lemma InvitationMade(s: Story, handle: Handle)
    requires StoryOk(s) && handle.config == WithApp(s)
    ensures MakeInvitation(Founded(s).keys, handle, s.id, s.bootstrap, s.request.payload.app, s.service, s.validFor, s.invited) == Ok(TheInvitation(s))
  {
    hide Initialize, OwnStart, VerifyPrepared, UrlOk, ManifestOk;
    FoundedFacts(s);
    assert handle.config.apps[0].value.payload.app == s.request.payload.app;
  }

  /** When the guest's admission ends. */
  function GuestEnd(s: Story): u64
    requires StoryOk(s)
  {
    Min(InvitationEnd(s), s.Join().expires)
  }

  lemma GuestEndIs(s: Story)
    requires StoryOk(s)
    ensures s.redeemed < GuestEnd(s) <= s.End() && RedeemEnd(Founded(s).keys, WithApp(s), Redemption(s)) == GuestEnd(s)
  {
    hide Initialize, OwnStart, UrlOk, ManifestOk, VerifyAppRequest;
    FoundedFacts(s);
  }

  lemma Redeemable(s: Story)
    requires StoryOk(s)
    ensures RedeemChecks(Founded(s).keys, Redemption(s), s.redeemed).Ok?
  {
    hide Initialize, OwnStart, UrlOk, VerifyPrepared, RedeemChecks;
    FoundedFacts(s);
    GuestEndIs(s);
    RedeemableExactlyWhen(Founded(s).keys, Redemption(s), s.redeemed);
  }

  lemma SerialIsThree(s: Story)
    requires StoryOk(s)
    ensures NextSerial(WithApp(s)) == Ok(3)
  {
    hide Initialize, UrlOk, VerifyPrepared, VerifyAppRequest;
    var c := WithApp(s);
    assert AdminSerials(c) == [2] && MemberSerials(c) == [1];
    assert [2 as u64][1..] == [] && [1 as u64][1..] == [];
  }

  function GuestCert(s: Story): MemberCert
    requires StoryOk(s)
  {
    Admitting(Founded(s).keys, s.Join(), {ROLE_MEMBER}, 3, s.redeemed, GuestEnd(s))
  }

  /** The snapshot with the guest. */
  function WithGuest(s: Story, head: Head): Config
    requires StoryOk(s)
  {
    var c := WithApp(s);
    c.(epoch := 1, revision := 2, previous := head.hash, issuedAt := s.redeemed, secrets := s.secrets,
       members := [c.members[0], Wire(GuestCert(s))], endpointBindings := [c.endpointBindings[0], Wire(s.guest.binding)],
       appBindings := [Wire(ClientGrant(Founded(s).keys, Redemption(s), GuestEnd(s)))])
  }

  lemma GuestDrafts(s: Story, head: Head)
    requires StoryOk(s)
    ensures DraftOf(Founded(s).keys, WithApp(s), head, Redemption(s), s.redeemed) ==
            Ok(Draft(WithGuest(s, head), Some(TicketDraft(s.Join().nonce, GuestEnd(s), GuestCert(s), s.guest.binding))))
  {
    hide Initialize, OwnStart, UrlOk, DraftOf, ManifestOk, RedeemChecks, NextSerial, VerifyPrepared, VerifyAppRequest;
    FoundedFacts(s);
    Redeemable(s);
    GuestEndIs(s);
    SerialIsThree(s);
    var keys, c := Founded(s).keys, WithApp(s);
    GuestIsNew(s);
    FounderAdmits(s);
    RedeemAdmitsExactlyWhen(keys, c, head, Redemption(s), s.redeemed);
    RedeemGrants(keys, c, head, Redemption(s), s.redeemed, DraftOf(keys, c, head, Redemption(s), s.redeemed).value);
    assert c.members + [Wire(GuestCert(s))] == WithGuest(s, head).members;
    assert c.endpointBindings + [Wire(s.guest.binding)] == WithGuest(s, head).endpointBindings;
    assert c.appBindings + WithGuest(s, head).appBindings == WithGuest(s, head).appBindings;
  }

  lemma FounderAdmits(s: Story)
    requires StoryOk(s)
    ensures var admin := Founded(s).keys.Admin();
            PERMISSION_ISSUE_MEMBER in admin.permissions && admin.notBefore <= s.redeemed
  {
    hide Initialize, OwnStart, UrlOk, ManifestOk, VerifyPrepared, VerifyAppRequest;
    FoundedFacts(s);
  }

  lemma GuestIsNew(s: Story)
    requires StoryOk(s)
    ensures Newcomer(WithApp(s), s.Join())
  {
    hide Initialize, UrlOk, AllBits, VerifyAppRequest;
  }

  lemma GuestMembers(s: Story, head: Head, now: u64)
    requires StoryOk(s) && s.redeemed <= now < GuestEnd(s)
    ensures MembersValid(WithGuest(s, head), s.made.root, now)
  {
    hide Initialize, UrlOk, OwnStart, ManifestOk, VerifyAppRequest;
    var c := WithGuest(s, head);
    FoundedFacts(s);
    GuestEndIs(s);
    assert RevokedSet(c) == {};
    assert FindAdmin(c.adminKeys, AdminKeyId(s.made.admin)) == Some(FounderAdmin(s.options, s.made).payload);
    assert MemberOk(c, s.made.root, now, c.members[0]) && MemberOk(c, s.made.root, now, c.members[1]);
    assert c.members[0].value.payload.memberId != c.members[1].value.payload.memberId;
  }

  lemma GuestFound(s: Story, head: Head)
    requires StoryOk(s)
    ensures var c := WithGuest(s, head);
            && FindMember(c.members, MemberId(NetworkId(s.made.root), s.made.signing)) == Some(FounderMember(s.options, s.made).payload)
            && FindMember(c.members, s.Join().memberId) == Some(GuestCert(s).payload)
            && FindApp(c.apps, s.request.payload.app) == Some(s.App())
  {
    hide Initialize, UrlOk, AllBits, OwnStart, ManifestOk;
    FoundedFacts(s);
    var c := WithGuest(s, head);
    assert c.members[1..][0] == Wire(GuestCert(s));
  }

  lemma GuestBindings(s: Story, head: Head, now: u64)
    requires StoryOk(s) && s.redeemed <= now < GuestEnd(s)
    ensures EndpointsValid(WithGuest(s, head), s.made.root, now) && AppBindingsValid(WithGuest(s, head), s.made.root, now)
  {
    hide Initialize, UrlOk, AllBits, OwnStart, ManifestOk, FindMember, FindApp;
    FoundedFacts(s);
    GuestFound(s, head);
    GuestEndIs(s);
    var c := WithGuest(s, head);
    assert EndpointOk(c, s.made.root, now, c.endpointBindings[0]) && EndpointOk(c, s.made.root, now, c.endpointBindings[1]);
    assert AppBindingOk(c, s.made.root, now, c.appBindings[0]);
  }

  lemma WithGuestValid(s: Story, head: Head, now: u64)
    requires StoryOk(s) && s.redeemed <= now < GuestEnd(s)
    ensures ValidAt(WithGuest(s, head), s.made.root, now)
  {
    hide Initialize, UrlOk, VerifyPrepared, MembersValid, EndpointsValid, AppBindingsValid, AllBits;
    GuestEndIs(s);
    GuestMembers(s, head, now);
    GuestBindings(s, head, now);
    WithAppValid(s, now);
    var c, d := WithApp(s), WithGuest(s, head);
    assert RevokedSet(c) == RevokedSet(d) == {};
    assert forall raw :: AdminOk(c, s.made.root, now, raw) == AdminOk(d, s.made.root, now, raw);
    assert forall raw :: AppOk(c, s.made.root, raw) == AppOk(d, s.made.root, raw);
  }

  lemma GuestRecipients(s: Story, head: Head)
    requires StoryOk(s)
    ensures var c, all := WithGuest(s, head), [s.made.encryption, s.Join().encryptionKey];
            && |c.members| == 2 && AllDecode(c.members) && ActiveRecipients(c) == Ok(all) && Distinct(all) && MemberKeys(c) == Elements(all)
            && s.made.encryption in MemberKeys(c)
  {
    hide Initialize, UrlOk, AllBits, VerifyPrepared, VerifyAppRequest;
    var c, all := WithGuest(s, head), [s.made.encryption, s.Join().encryptionKey];
    assert c.members[0].value.payload.encryptionKey == all[0] && c.members[1].value.payload.encryptionKey == all[1];
    assert MemberKeys(c) == Elements(all);
    assert ActiveRecipients(c).value == all;
  }

  /** What the handle holds once the application is registered. */
  predicate AtApp(s: Story, handle: Handle)
    requires StoryOk(s)
  {
    handle.config == WithApp(s) && handle.head.revision == 1 && handle.head.epoch == 0
  }

  lemma GuestPrepares(s: Story, handle: Handle)
    requires StoryOk(s) && AtApp(s, handle)
    ensures var plan := Prepare(Founded(s).keys, handle.config, handle.head, Redemption(s), s.redeemed, s.choices);
            && plan.Ok? && plan.value.config == WithGuest(s, handle.head) && plan.value.op == Redemption(s)
            && plan.value.ticket == Some(TicketDraft(s.Join().nonce, GuestEnd(s), GuestCert(s), s.guest.binding))
  {
    hide Initialize, OwnStart, ManifestOk, VerifyPrepared, DraftOf, Prepare, ValidAt, UrlOk, FindContentKey, VerifiedAdminOf, VerifyAppRequest, WithGuest,
         MemberKeys, ActiveRecipients, GuestCert, GuestEnd, Redemption;
    var keys, head := Founded(s).keys, handle.head;
    FoundedFacts(s);
    GuestDrafts(s, head);
    GuestEndIs(s);
    WithGuestValid(s, head, s.redeemed);
    WithAppValid(s, s.redeemed);
    FounderListed(s, WithApp(s), s.redeemed);
    GuestRecipients(s, head);
    GuestMeta(s, head);
    var d := DraftOf(keys, handle.config, head, Redemption(s), s.redeemed).value;
    PreparesExactlyWhen(keys, handle.config, head, Redemption(s), s.redeemed, s.choices, d);
    SealsNextExactlyWhen(s.made.root, s.made.admin, handle.config, head, WithGuest(s, head), ActiveRecipients(d.next).value, s.redeemed, s.choices);
    PreparedPlan(keys, handle.config, head, Redemption(s), s.redeemed, s.choices,
                 Prepare(keys, handle.config, head, Redemption(s), s.redeemed, s.choices).value);
  }

  lemma GuestMeta(s: Story, head: Head)
    requires StoryOk(s)
    ensures var c := WithGuest(s, head);
            c.network == NetworkId(s.made.root) && c.revision == 2 && c.epoch == 1 && c.previous == head.hash && c.issuedAt == s.redeemed
  {
    hide Initialize, GuestCert, ClientGrant;
  }

  // ---- the run ----

  function RegisterSteps(s: Story, h: nat): seq<Step> {
    OpenSteps(h, s.registered) + CommitSteps(h, s.Registration(), s.registered, s.choices)
  }

  function InviteStep(s: Story, h: nat): Step {
    CreateInvitation(h, s.id, s.bootstrap, s.request.payload.app, s.service, s.validFor, s.invited)
  }

  function Begin(s: Story): World
    requires StoryOk(s)
  {
    InitialWorld(Founded(s).Start(), true)
  }

  /** The application is registered. */
  function Registered(s: Story, h: nat): World
    requires StoryOk(s)
  {
    Run(Founded(s).keys, Begin(s), RegisterSteps(s, h))
  }

  lemma RegisteredWorld(s: Story, h: nat)
    requires StoryOk(s)
    ensures var keys, w := Founded(s).keys, Registered(s, h);
            && Inv(keys, w) && |w.log| == 2 && w.log[0] == Founded(s).Start() && w.log[1].config == WithApp(s) && NamedLog(w.log)
            && w.log[1].origin.Applied? && !w.log[1].origin.op.Redeem? && w.issued == {} && w.returned == [] && w.sessions.Keys == {h} && IdleAt(w, h).Some?
            && AtApp(s, IdleAt(w, h).value) && CachesLast(w.store, IdleAt(w, h).value, w.log[1])
  {
    hide StoryOk, Founded, WithApp, OwnStart, ManifestOk, Inv, Prepare, ValidAt, Run, OpenSteps, CommitSteps, Current, FirstConfig, StartOk;
    var i := Founded(s);
    FoundedFacts(s);
    AppPrepares(s);
    FoundedValidNow(s);
    OwnStartStarts(i.keys, i.Start());
    InitialInv(i.keys, i.Start(), true);
    var plan := Prepare(i.keys, i.config, HeadOf(i.envelope), s.Registration(), s.registered, s.choices).value;
    PreparedNames(i.keys, i.config, HeadOf(i.envelope), s.Registration(), s.registered, s.choices);
    OpenThenCommit(i.keys, Begin(s), h, s.Registration(), s.registered, s.choices, plan);
  }

  lemma FoundedValidNow(s: Story)
    requires StoryOk(s)
    ensures ValidAt(Founded(s).config, Founded(s).keys.root, s.registered)
  {
    hide Initialize, OwnStart, ManifestOk, ValidAt, VerifyPrepared, UrlOk, VerifyAppRequest;
    FoundedFacts(s);
    FirstConfigValid(s.options, s.made, s.registered);
  }

  /** The invitation is made. */
  function Invited(s: Story, h: nat): World
    requires StoryOk(s)
  {
    Do(Founded(s).keys, Registered(s, h), InviteStep(s, h))
  }

  lemma InvitedWorld(s: Story, h: nat)
    requires StoryOk(s)
    ensures var keys, v, w := Founded(s).keys, Registered(s, h), Invited(s, h);
            && Inv(keys, w) && w.log == v.log && w.returned == [] && w.sessions == v.sessions && IdleAt(w, h) == IdleAt(v, h) && IdleAt(w, h).Some?
            && Current(w.store, IdleAt(w, h).value)
            && InvitationKey(s.id) in w.store.records && w.store.records[InvitationKey(s.id)].value == InvitationValue(TheInvitation(s))
  {
    hide StoryOk, Founded, Inv, Run, MakeInvitation, WithApp, TheInvitation, NamedLog, Grows, RegisterSteps, Do, Begin;
    RegisteredWorld(s, h);
    var keys, v := Founded(s).keys, Registered(s, h);
    InvitationMade(s, IdleAt(v, h).value);
    CreatedIsStored(keys, v, InviteStep(s, h));
    StepKeepsInv(keys, v, InviteStep(s, h));
  }

  /** And redeemed. */
  function Admitted(s: Story, h: nat): World
    requires StoryOk(s)
  {
    Run(Founded(s).keys, Invited(s, h), RedeemSteps(h, Redemption(s), s.redeemed, s.choices))
  }

  function GuestPlan(s: Story, h: nat): Result<Plan, AuthorityError>
    requires StoryOk(s) && IdleAt(Invited(s, h), h).Some?
  {
    var handle := IdleAt(Invited(s, h), h).value;
    Prepare(Founded(s).keys, handle.config, handle.head, Redemption(s), s.redeemed, s.choices)
  }

  /** The guest is admitted, the ticket is returned once, and the invitation is used up. */
  lemma GuestIsAdmitted(s: Story, h: nat)
    requires StoryOk(s)
    ensures IdleAt(Invited(s, h), h).Some? && GuestPlan(s, h).Ok?
    ensures var keys, w, plan := Founded(s).keys, Admitted(s, h), GuestPlan(s, h).value;
            && TicketOf(keys, plan).Some? && w.returned == [Returned(s.id, TicketOf(keys, plan).value)]
            && w.log == Invited(s, h).log + [EntryOf(plan)] && plan.config == WithGuest(s, IdleAt(Invited(s, h), h).value.head)
            && ConsumedBy(w.store, s.id, s.guest, TicketOf(keys, plan).value)
  {
    hide StoryOk, Founded, Inv, Run, WithApp, WithGuest, Registered, Invited, NamedLog, RedeemSteps, Prepare, RedeemAlone, Current, TicketOf, RedeemChecks, ConsumedBy,
         RedemptionEntries, GuestCert, GuestEnd, TheInvitation;
    RegisteredWorld(s, h);
    InvitedWorld(s, h);
    var keys, w := Founded(s).keys, Invited(s, h);
    var handle := IdleAt(w, h).value;
    GuestPrepares(s, handle);
    Redeemable(s);
    InvitationId(s);
    UndisturbedRedemptionSucceeds(keys, w, h, handle, Redemption(s), s.redeemed, s.choices);
    RedeemIsRun(keys, w, h, handle, Redemption(s), s.redeemed, s.choices);
    RedemptionMakes(keys, w, h, handle, Redemption(s), s.redeemed, s.choices);
  }

  lemma InvitationId(s: Story)
    requires StoryOk(s)
    ensures TheInvitation(s).body.id == s.id
  {
    hide StoryOk, InvitationEnd;
  }

  lemma RedemptionMakes(keys: AuthorityKeys, w: World, h: nat, handle: Handle, op: Operation, now: u64, choices: SealChoices)
    requires Inv(keys, w) && IdleAt(w, h) == Some(handle) && Current(w.store, handle) && op.Redeem? && RedeemChecks(keys, op, now).Ok?
    requires var key := InvitationKey(op.invitation.body.id); key in w.store.records && w.store.records[key].value == InvitationValue(op.invitation)
    requires Prepare(keys, handle.config, handle.head, op, now, choices).Ok?
    ensures RedemptionEntries(keys, w.store, handle, op, now, choices) == [EntryOf(Prepare(keys, handle.config, handle.head, op, now, choices).value)]
  {
    hide Inv, Prepare, CommitAlone, Current, RedeemChecks;
    CurrentCommits(keys, w, h, handle, op, now, choices, Some(w.store.records[InvitationKey(op.invitation.body.id)].version));
  }

  lemma PlanTakesPlace(s: Story, h: nat)
    requires StoryOk(s) && IdleAt(Invited(s, h), h).Some? && GuestPlan(s, h).Ok?
    ensures |Invited(s, h).log| == 2 && PlanAt(Founded(s).keys, Invited(s, h).log + [EntryOf(GuestPlan(s, h).value)], 2, GuestPlan(s, h).value)
    ensures GuestPlan(s, h).value.op == Redemption(s) && GuestPlan(s, h).value.now == s.redeemed
  {
    hide StoryOk, Founded, Inv, Run, WithApp, Registered, Invited, NamedLog, Prepare, Current, TheInvitation, Redemption;
    RegisteredWorld(s, h);
    InvitedWorld(s, h);
    var handle := IdleAt(Invited(s, h), h).value;
    PreparedNames(Founded(s).keys, handle.config, handle.head, Redemption(s), s.redeemed, s.choices);
  }

  /** With the secrets of its request, the guest can join from the redemption until its admission ends,
      and at no other time; it is then a replica of the line from the revision that admitted it. */
  lemma GuestJoins(s: Story, h: nat, secrets: Secrets, store: MemberStore, now: u64)
    requires StoryOk(s) && SecretsMatch(secrets, s.Join()).Ok? && Awaiting(store, s.guest)
    ensures var keys, w := Founded(s).keys, Admitted(s, h);
            && |w.returned| == 1 && |w.log| == 3
            && Joins(keys.root, w.log, 2, s.redeemed, secrets, store, w.returned[0].ticket, now)
            && (Membership.Join(keys.root, secrets, store, w.returned[0].ticket, now).answer.Ok? <==> s.redeemed <= now < GuestEnd(s))
  {
    hide StoryOk, Founded, Invited, Admitted, Prepare, WithGuest, PlanFrom, SecretsMatch, Awaiting, ManifestOk, OwnStart, ValidUntil, ValidFrom, ValidIgnoringTime, ValidAt,
         GuestEnd, GuestCert, ConsumedBy, Membership.Join, Redemption, GuestPlan;
    GuestIsAdmitted(s, h);
    PlanTakesPlace(s, h);
    FoundedFacts(s);
    RedeemsGuest(s);
    var keys, plan := Founded(s).keys, GuestPlan(s, h).value;
    PlanJoins(keys, Admitted(s, h).log, 2, plan, s.guest, secrets, store, now);
    GuestTicketEnds(s, h);
    GuestOutlasts(s, IdleAt(Invited(s, h), h).value.head);
  }

  lemma RedeemsGuest(s: Story)
    requires StoryOk(s)
    ensures Redemption(s).Redeem? && Redemption(s).prepared == s.guest
  {
    hide StoryOk, TheInvitation;
  }

  lemma GuestTicketEnds(s: Story, h: nat)
    requires StoryOk(s) && IdleAt(Invited(s, h), h).Some? && GuestPlan(s, h).Ok?
    ensures TicketOf(Founded(s).keys, GuestPlan(s, h).value).Some?
    ensures TicketOf(Founded(s).keys, GuestPlan(s, h).value).value.body.expires == GuestEnd(s)
  {
    hide StoryOk, Founded, Inv, WithApp, WithGuest, Registered, Invited, NamedLog, Prepare, Current, Redemption, GuestCert, GuestEnd, TheInvitation;
    RegisteredWorld(s, h);
    InvitedWorld(s, h);
    GuestPrepares(s, IdleAt(Invited(s, h), h).value);
  }

  lemma GuestOutlasts(s: Story, head: Head)
    requires StoryOk(s)
    ensures s.redeemed < GuestEnd(s) <= ValidUntil(WithGuest(s, head))
  {
    hide StoryOk, WithGuest, ValidAt, ValidFrom, ValidUntil, ValidIgnoringTime, GuestEnd;
    GuestEndIs(s);
    WithGuestValid(s, head, GuestEnd(s) - 1);
    ValidityInterval(WithGuest(s, head), s.made.root, GuestEnd(s) - 1);
  }

  // ---- a redemption that is overtaken ----

  /** The redemption is committed and has read its envelope back, not its head. */
  function Midway(s: Story, h: nat): World
    requires StoryOk(s)
  {
    var keys := Founded(s).keys;
    StepReadBackEnvelope(StepCommit(keys, StepSealRedemption(keys, StepReadInvitation(keys, Invited(s, h), h, Redemption(s), s.redeemed), h, s.choices), h), h)
  }

  lemma MidwayIs(keys: AuthorityKeys, w: World, h: nat, handle: Handle, op: Operation, now: u64, choices: SealChoices, plan: Plan)
    requires Inv(keys, w) && IdleAt(w, h) == Some(handle) && Current(w.store, handle) && op.Redeem? && RedeemChecks(keys, op, now).Ok?
    requires var key := InvitationKey(op.invitation.body.id); key in w.store.records && w.store.records[key].value == InvitationValue(op.invitation)
    requires Prepare(keys, handle.config, handle.head, op, now, choices) == Ok(plan)
    ensures var v := StepReadBackEnvelope(StepCommit(keys, StepSealRedemption(keys, StepReadInvitation(keys, w, h, op, now), h, choices), h), h);
            && EnvelopeKey in v.store.records && v.log == w.log + [EntryOf(plan)] && v.sessions.Keys == w.sessions.Keys
            && h in v.sessions && v.sessions[h] == Ready(handle, EnvelopeReadBack(plan, v.store.records[EnvelopeKey]))
  {
    hide Inv, Prepare, Current, RedeemChecks, Commit, PlanBatch, CommitAlone;
    var record := w.store.records[InvitationKey(op.invitation.body.id)];
    CurrentCommits(keys, w, h, handle, op, now, choices, Some(record.version));
    CommitRevision(keys, w.store, handle, plan, Some(record.version));
  }

  lemma MidwayKeeps(s: Story, h: nat)
    requires StoryOk(s)
    ensures Inv(Founded(s).keys, Midway(s, h)) && ReadBacksTrue(Midway(s, h))
  {
    hide StoryOk, Founded, Inv, ReadBacksTrue, StepReadInvitation, StepSealRedemption, StepCommit, StepReadBackEnvelope, Registered, Redemption, Grows,
         StepOpenEnvelope, StepOpenHead, StepOpenHistory, StepMigrate, StepSeal, StepReadBackHead, StepReadTicket, StepCreateInvitation, StepReadForRevocation,
         StepRevokeInvitation;
    var keys := Founded(s).keys;
    RegisteredKeeps(s, h);
    var w0 := Registered(s, h);
    KeepsBoth(keys, w0, InviteStep(s, h));
    var w1 := Do(keys, w0, InviteStep(s, h));
    KeepsBoth(keys, w1, ReadInvitation(h, Redemption(s), s.redeemed));
    var w2 := Do(keys, w1, ReadInvitation(h, Redemption(s), s.redeemed));
    KeepsBoth(keys, w2, SealRedemption(h, s.choices));
    var w3 := Do(keys, w2, SealRedemption(h, s.choices));
    KeepsBoth(keys, w3, CommitPlan(h));
    KeepsBoth(keys, Do(keys, w3, CommitPlan(h)), ReadBackEnvelope(h));
  }

  lemma KeepsBoth(keys: AuthorityKeys, w: World, s: Step)
    requires Inv(keys, w) && ReadBacksTrue(w)
    ensures Inv(keys, Do(keys, w, s)) && ReadBacksTrue(Do(keys, w, s))
  {
    hide Inv, ReadBacksTrue, Do, Grows;
    StepKeepsInv(keys, w, s);
    StepKeepsReadBacks(keys, w, s);
  }

  lemma RegisteredKeeps(s: Story, h: nat)
    requires StoryOk(s)
    ensures Inv(Founded(s).keys, Registered(s, h)) && ReadBacksTrue(Registered(s, h))
  {
    hide StoryOk, Founded, Inv, ReadBacksTrue, Run, OwnStart, StartOk, InitialWorld, WithApp, NamedLog, Current;
    FoundedFacts(s);
    OwnStartStarts(Founded(s).keys, Founded(s).Start());
    RegisteredWorld(s, h);
    ReadBacksInRuns(Founded(s).keys, Founded(s).Start(), true, RegisterSteps(s, h));
  }

  /** The snapshot once the founder's relay is removed. */
  function WithoutRelay(s: Story, head: Head, next: Head, at: u64): Config
    requires StoryOk(s)
  {
    WithGuest(s, head).(revision := 3, previous := next.hash, issuedAt := at, relays := [], presence := [])
  }

  lemma RelayDrafts(s: Story, head: Head, next: Head, at: u64)
    requires StoryOk(s)
    ensures DraftOf(Founded(s).keys, WithGuest(s, head), next, RemoveRelay(s.made.endpoint), at) == Ok(Draft(WithoutRelay(s, head, next, at), None))
  {
    hide Initialize, VerifyPrepared, VerifyAppRequest, UrlOk, AllBits, GuestCert, ClientGrant;
    var c := WithGuest(s, head);
    assert c.relays[1..] == [] && c.presence[1..] == [];
    assert c.relays[0].endpoint == s.made.endpoint == c.presence[0].endpoint;
    assert Retain(c.relays, (r: Relay) => r.endpoint != s.made.endpoint) == [];
    assert Retain(c.presence, (p: PresenceService) => p.endpoint != s.made.endpoint) == [];
  }

  lemma WithoutRelayValid(s: Story, head: Head, next: Head, at: u64)
    requires StoryOk(s) && s.redeemed <= at < GuestEnd(s)
    ensures ValidAt(WithoutRelay(s, head, next, at), s.made.root, at)
  {
    hide StoryOk, Founded, UrlOk, AllBits, GuestCert, GuestEnd, AdminsValid, MembersValid, EndpointsValid, ClientGrant, VerifyApp, VerifyAppWithAdmin, VerifyAppBinding, FounderAdmin,
         FounderMember, Admitting;
    WithGuestValid(s, head, at);
    var c, d := WithGuest(s, head), WithoutRelay(s, head, next, at);
    SamePasses(c, d, s.made.root, at);
    assert forall raw :: AppOk(c, s.made.root, raw) == AppOk(d, s.made.root, raw);
    assert forall raw :: AppBindingOk(c, s.made.root, at, raw) == AppBindingOk(d, s.made.root, at, raw);
  }

  lemma RelayPrepares(s: Story, h: nat, at: u64)
    requires StoryOk(s) && s.redeemed <= at < GuestEnd(s) && IdleAt(Invited(s, h), h).Some? && GuestPlan(s, h).Ok?
    requires GuestPlan(s, h).value.config == WithGuest(s, IdleAt(Invited(s, h), h).value.head)
    ensures var plan := GuestPlan(s, h).value;
            plan.head == HeadOf(plan.envelope) && Prepare(Founded(s).keys, plan.config, plan.head, RemoveRelay(s.made.endpoint), at, s.choices).Ok?
  {
    hide StoryOk, Founded, Invited, Prepare, DraftOf, ValidAt, WithGuest, WithoutRelay, MemberKeys, ActiveRecipients, VerifiedAdminOf, FindContentKey, OwnStart, ManifestOk,
         GuestEnd, GuestCert, Redemption;
    var head, plan := IdleAt(Invited(s, h), h).value.head, GuestPlan(s, h).value;
    var handle, keys := IdleAt(Invited(s, h), h).value, Founded(s).keys;
    PreparedPlan(keys, handle.config, handle.head, Redemption(s), s.redeemed, s.choices, plan);
    FoundedFacts(s);
    RelayDrafts(s, head, plan.head, at);
    WithoutRelayValid(s, head, plan.head, at);
    WithGuestValid(s, head, at);
    GuestListsFounder(s, head);
    FounderListed(s, WithGuest(s, head), at);
    GuestRecipients(s, head);
    GuestMeta(s, head);
    StoryChoices(s);
    var d := WithoutRelay(s, head, plan.head, at);
    RelayMeta(s, head, plan.head, at);
    SameMembers(WithGuest(s, head), d);
    PreparesExactlyWhen(keys, plan.config, plan.head, RemoveRelay(s.made.endpoint), at, s.choices, Draft(d, None));
    SealsNextExactlyWhen(s.made.root, s.made.admin, plan.config, plan.head, d, ActiveRecipients(d).value, at, s.choices);
  }

  lemma StoryChoices(s: Story)
    requires StoryOk(s)
    ensures s.choices.length <= MAX_PLAINTEXT
  {
    hide Initialize, VerifyPrepared, VerifyAppRequest, Initializable;
  }

  lemma GuestListsFounder(s: Story, head: Head)
    requires StoryOk(s)
    ensures Wire(FounderAdmin(s.options, s.made)) in WithGuest(s, head).adminKeys
  {
    hide Initialize, VerifyPrepared, VerifyAppRequest, UrlOk, AllBits, GuestCert, ClientGrant;
    assert WithGuest(s, head).adminKeys[0] == Wire(FounderAdmin(s.options, s.made));
  }

  lemma RelayMeta(s: Story, head: Head, next: Head, at: u64)
    requires StoryOk(s)
    ensures var c, d := WithGuest(s, head), WithoutRelay(s, head, next, at);
            d.members == c.members && d.network == c.network && d.revision == 3 && d.previous == next.hash && d.epoch == c.epoch && d.issuedAt == at
  {
    hide StoryOk, WithGuest;
  }

  lemma SameMembers(c: Config, d: Config)
    requires c.members == d.members
    ensures MemberKeys(c) == MemberKeys(d) && ActiveRecipients(c) == ActiveRecipients(d)
  {
  }

  /** A second handle opens and commits before the redemption reads its head back. */
  function Overtaken(s: Story, h: nat, g: nat, at: u64): World
    requires StoryOk(s)
  {
    Run(Founded(s).keys, Midway(s, h), OpenSteps(g, at) + CommitSteps(g, RemoveRelay(s.made.endpoint), at, s.choices))
  }

  lemma MidwayWorld(s: Story, h: nat)
    requires StoryOk(s)
    ensures IdleAt(Invited(s, h), h).Some? && GuestPlan(s, h).Ok? && GuestPlan(s, h).value.config == WithGuest(s, IdleAt(Invited(s, h), h).value.head)
    ensures var w, plan := Midway(s, h), GuestPlan(s, h).value;
            && Inv(Founded(s).keys, w) && ReadBacksTrue(w) && w.log == Invited(s, h).log + [EntryOf(plan)] && w.sessions.Keys == {h}
            && EnvelopeKey in w.store.records && w.sessions[h] == Ready(IdleAt(Invited(s, h), h).value, EnvelopeReadBack(plan, w.store.records[EnvelopeKey]))
            && NamedLog(w.log) && OwnStart(Founded(s).keys, w.log[0])
  {
    hide StoryOk, Founded, Inv, WithApp, WithGuest, Registered, Invited, Prepare, Current, RedeemChecks, ReadBacksTrue, GuestCert, GuestEnd, TheInvitation, OwnStart,
         StepReadInvitation, StepSealRedemption, StepCommit, StepReadBackEnvelope;
    RegisteredWorld(s, h);
    InvitedWorld(s, h);
    var keys, w := Founded(s).keys, Invited(s, h);
    var handle := IdleAt(w, h).value;
    GuestPrepares(s, handle);
    Redeemable(s);
    InvitationId(s);
    FoundedFacts(s);
    MidwayKeeps(s, h);
    MidwayIs(keys, w, h, handle, Redemption(s), s.redeemed, s.choices, GuestPlan(s, h).value);
  }

  /** The redeeming handle then rests with its own revision cached under the version of a later head. */
  lemma OvertakenRedemptionMisleads(s: Story, h: nat, g: nat, at: u64)
    requires StoryOk(s) && s.redeemed <= at < GuestEnd(s) && g != h
    ensures var v := Do(Founded(s).keys, Overtaken(s, h, g, at), ReadBackHead(h));
            && |v.log| == 4 && IdleAt(v, h).Some? && HeadKey in v.store.records
            && var handle := IdleAt(v, h).value;
               && handle.headVersion == v.store.records[HeadKey].version && v.store.records[HeadKey].value != HeadValue(handle.head) && !Truthful(v.store, handle)
  {
    hide StoryOk, Founded, Inv, Invited, Prepare, ValidAt, WithGuest, Run, OpenSteps, CommitSteps, ReadBacksTrue, NamedLog, OwnStart, GuestEnd, CachesLast, Truthful,
         Redemption, Midway,
         StepOpenEnvelope, StepOpenHead, StepOpenHistory, StepMigrate, StepSeal, StepReadInvitation, StepSealRedemption, StepCommit,
         StepReadBackEnvelope, StepReadTicket, StepCreateInvitation, StepReadForRevocation, StepRevokeInvitation;
    MidwayWorld(s, h);
    PlanTakesPlace(s, h);
    RelayPrepares(s, h, at);
    FoundedRoot(s);
    RedeemsGuest(s);
    var keys, w, plan := Founded(s).keys, Midway(s, h), GuestPlan(s, h).value;
    WithGuestValid(s, IdleAt(Invited(s, h), h).value.head, at);
    var op := RemoveRelay(s.made.endpoint);
    var next := Prepare(keys, plan.config, plan.head, op, at, s.choices).value;
    OpenThenCommit(keys, w, g, op, at, s.choices, next);
    var v := Overtaken(s, h, g, at);
    RunKeepsReadBacks(keys, w, OpenSteps(g, at) + CommitSteps(g, op, at, s.choices));
    RedemptionTruthfulExactlyWhen(keys, v, h, w.sessions[h].handle, plan, w.sessions[h].activity.record);
    LaterDiffers(keys, v, plan);
  }

  lemma FoundedRoot(s: Story)
    requires StoryOk(s)
    ensures Founded(s).keys.root == s.made.root
  {
    hide StoryOk, Founded, OwnStart, ManifestOk;
    FoundedFacts(s);
  }

  lemma {:induction false} RunKeepsReadBacks(keys: AuthorityKeys, w: World, steps: seq<Step>)
    requires Inv(keys, w) && ReadBacksTrue(w)
    ensures ReadBacksTrue(Run(keys, w, steps))
  {
    hide Inv, Do, ReadBacksTrue;
    if steps != [] {
      RunKeepsReadBacks(keys, w, steps[..|steps| - 1]);
      RunKeeps(keys, w, steps[..|steps| - 1]);
      StepKeepsReadBacks(keys, Run(keys, w, steps[..|steps| - 1]), steps[|steps| - 1]);
    }
  }

  lemma LaterDiffers(keys: AuthorityKeys, w: World, plan: Plan)
    requires Inv(keys, w) && |w.log| == 4 && w.log[2].envelope == plan.envelope && plan.head == HeadOf(plan.envelope)
    ensures w.log[3].envelope != plan.envelope && HeadKey in w.store.records && w.store.records[HeadKey].value != HeadValue(plan.head)
  {
    hide Inv, HistoryTrue, VersionsBelow, Seeded, Carries;
    StoreIsRight(keys, w);
    assert w.log[2].envelope.body.revision == FirstRevision(w.log) + 2;
    assert w.log[3].envelope.body.revision == FirstRevision(w.log) + 3;
  }
}
