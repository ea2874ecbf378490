/** One network: made at time 0 for 100 ticks, with a guest invited at time 0 for 10. The authority
    cannot open its own head from 10 on although everything of its own lasts until 100, and a
    commit by a second handle spoils the ticket of the invitation. */
module OwnHeadExample {
  import opened Prelude
  import opened Credentials
  import opened Configs
  import opened SnapshotValidation
  import opened Envelopes
  import opened AuthorityOps
  import opened AuthorityLog
  import opened AuthorityRuns
  import opened AuthorityOpening
  import opened Initialization
  import opened FirstGuest
  import FirstRedemption
  import opened AuthorityVersions

  const ROOT: PublicKey := PublicKey(1, true)
  const NETWORK: NetworkId := NetworkId(ROOT)
  const OPTIONS: InitOptions := InitOptions("relay", 0, 100)
  const MADE: Generated := Generated(ROOT, PublicKey(2, true), PublicKey(3, true), EncryptionKey(1), EndpointId(1), EpochSecrets(0, 0, 0, 0))
  const CHOICES: SealChoices := SealChoices(9, 7, 16, [])

  function Guest(): PreparedJoin {
    CreatePrepared(NETWORK, PublicKey(4, true), EncryptionKey(2), EndpointId(2), 5, {ROLE_MEMBER}, 50).value
  }

  function Example(): Scene {
    Scene(OPTIONS, MADE, CHOICES, Guest(), {ROLE_MEMBER}, 10, 0, EpochSecrets(1, 1, 1, 1), CHOICES)
  }

  lemma ExampleOk()
    ensures SceneOk(Example()) && GuestEnd(Example()) == 10
  {
    hide Initialize;
    InitializesExactlyWhen(OPTIONS, MADE, CHOICES);
    assert VerifyPrepared(Guest(), NETWORK, 0).Ok?;
  }

  /** Handle 0 makes the second revision. At 5 handle 1 can open it. From 10 on nobody can, while
      the authority's certificate, membership and endpoint are current until 100. */
  lemma OwnHeadMayNotOpen(now: u64)
    requires 10 <= now < 100
    ensures SceneOk(Example())
    ensures var keys, w := Founded(Example()).keys, Invited(Example(), 0);
            && IdleAt(Run(keys, w, OpenSteps(1, 5)), 1).Some? && IdleAt(Run(keys, w, OpenSteps(1, now)), 1).None?
            && keys.adminCert == FounderAdmin(OPTIONS, MADE) && VerifyAdmin(keys.adminCert, ROOT, NETWORK, now, {}).Ok?
            && MemberOk(Second(Example()), ROOT, now, Second(Example()).members[0])
            && EndpointOk(Second(Example()), ROOT, now, Second(Example()).endpointBindings[0])
  {
    hide SceneOk, Founded, Invited, Run, OpenSteps, Second, MemberOk, EndpointOk;
    ExampleOk();
    GuestBoundsAccess(Example(), 0, 1, 5);
    GuestBoundsAccess(Example(), 0, 1, now);
    FounderStays(Example(), now);
    FoundedFacts(Example());
  }

  /** Handle 1 opens and removes the relay at 5, before handle 0 reads its ticket's envelope. */
  lemma InviteTicketMayBeSpoiled()
    ensures SceneOk(Example()) && GuestPlan(Example()).Ok?
    ensures var keys, plan, v := Founded(Example()).keys, GuestPlan(Example()).value, Overtaken(Example(), 0, 1, RemoveRelay(MADE.endpoint), 5, CHOICES);
            && AdmittedAt(v, 0, plan) && InviteTicket(keys, v, plan).Some?
            && forall root, network, nonce, endpoint, now :: VerifyTicket(InviteTicket(keys, v, plan).value, root, network, nonce, endpoint, now).Err?
  {
    hide SceneOk, Founded, GuestPlan, Overtaken, VerifyTicket, InviteTicket;
    ExampleOk();
    OvertakenTicketSpoiled(Example(), 0, 1, 5, CHOICES);
  }

  /** Handle 1 revokes the guest at 5 instead; handle 2 can then open until 100. */
  lemma RevokedInTime(now: u64)
    requires 5 <= now < 100
    ensures SceneOk(Example())
    ensures var v := Overtaken(Example(), 0, 1, Revocation(Example(), EpochSecrets(2, 2, 2, 2)), 5, CHOICES);
            |v.log| == 3 && IdleAt(Run(Founded(Example()).keys, v, OpenSteps(2, now)), 2).Some?
  {
    hide SceneOk, Founded, Overtaken, Run, OpenSteps;
    ExampleOk();
    RevocationRestoresAccess(Example(), 0, 1, 5, EpochSecrets(2, 2, 2, 2), CHOICES, 2, now);
  }

  // ---- a redemption that is overtaken ----

  function AppKey(): PublicKey {
    PublicKey(5, true)
  }

  function AppAsks(): AppRequest {
    var p := AppRequestPayload(NETWORK, AppAddr(AppKey()), AppKey(), 0);
    AppRequest(p, Signature(AppKey(), p))
  }

  /** The same network registers an application at 1, invites at 2 and redeems at 3. */
  function ExampleStory(): FirstRedemption.Story {
    FirstRedemption.Story(OPTIONS, MADE, CHOICES, AppAsks(), Guest(), EndpointId(1), "service", 77, 10, 1, 2, 3, EpochSecrets(1, 1, 1, 1), CHOICES)
  }

  lemma ExampleStoryOk()
    ensures FirstRedemption.StoryOk(ExampleStory()) && FirstRedemption.GuestEnd(ExampleStory()) == 12
  {
    hide Initialize;
    InitializesExactlyWhen(OPTIONS, MADE, CHOICES);
    assert VerifyPrepared(Guest(), NETWORK, 3).Ok?;
    assert VerifyAppRequest(AppAsks(), NETWORK).Ok?;
  }

  /** Handle 1 removes the relay at 5, before handle 0 has read its head back: handle 0 then caches its own
      revision under the version of a later head. */
  lemma RedemptionMayMislead()
    ensures FirstRedemption.StoryOk(ExampleStory())
    ensures var v := Do(FirstRedemption.Founded(ExampleStory()).keys, FirstRedemption.Overtaken(ExampleStory(), 0, 1, 5), ReadBackHead(0));
            && IdleAt(v, 0).Some? && HeadKey in v.store.records
            && IdleAt(v, 0).value.headVersion == v.store.records[HeadKey].version && v.store.records[HeadKey].value != HeadValue(IdleAt(v, 0).value.head)
  {
    hide FirstRedemption.StoryOk, FirstRedemption.Founded, FirstRedemption.Overtaken, FirstRedemption.GuestEnd, Do, Truthful;
    ExampleStoryOk();
    FirstRedemption.OvertakenRedemptionMisleads(ExampleStory(), 0, 1, 5);
  }
}
