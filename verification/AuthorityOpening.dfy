/** `Authority::open` as a run of its steps: exactly when it ends with a usable handle. */
module AuthorityOpening {
  import opened Prelude
  import opened Credentials
  import opened Configs
  import opened SnapshotValidation
  import opened Envelopes
  import opened AuthorityOps
  import opened VersionedStore
  import opened AuthorityLog
  import opened AuthorityInvariant
  import opened AuthorityRuns
  import opened AuthorityHistory
  import opened AuthorityHandle
  import opened AuthorityNamedRuns

  /** Both reads, the history check, and the migration of a store that has no history yet. */
  function OpenSteps(h: nat, now: u64): seq<Step> {
    [OpenReadEnvelope(h), OpenReadHead(h, now), OpenReadHistory(h), Migrate(h)]
  }

  lemma RunOpen(keys: AuthorityKeys, w: World, h: nat, now: u64)
    ensures Run(keys, w, OpenSteps(h, now)) == StepMigrate(StepOpenHistory(StepOpenHead(keys, StepOpenEnvelope(w, h), h, now), h), h)
  {
    hide Run, StepOpenEnvelope, StepOpenHead, StepOpenHistory, StepMigrate;
    var s := OpenSteps(h, now);
    RunFirst(keys, w, s);
    assert s[1..] == [OpenReadHead(h, now), OpenReadHistory(h), Migrate(h)];
    var w1 := Do(keys, w, s[0]);
    RunFirst(keys, w1, s[1..]);
    assert s[1..][1..] == [OpenReadHistory(h), Migrate(h)];
    var w2 := Do(keys, w1, s[1]);
    RunFirst(keys, w2, s[1..][1..]);
    assert s[1..][1..][1..] == [Migrate(h)];
    var w3 := Do(keys, w2, s[2]);
    RunFirst(keys, w3, [Migrate(h)]);
    RunNothing(keys, Do(keys, w3, s[3]), [Migrate(h)][1..]);
  }

  /** The handle `open` returns when it finds the last revision in order. */
  function LastHandle(w: World): Handle
    requires |w.log| > 0 && ShowsLast(w.store, w.log)
  {
    var last := w.log[|w.log| - 1];
    Handle(last.config, HeadOf(last.envelope), w.store.records[EnvelopeKey].version, w.store.records[HeadKey].version)
  }

  lemma SetAgain(w: World, h: nat, s: Session, t: Session)
    ensures SetSession(SetSession(w, h, s), h, t) == SetSession(w, h, t)
  {
    assert w.sessions[h := s][h := t] == w.sessions[h := t];
  }

  /** The world after the two reads, when nobody writes in between. */
  lemma AfterReads(keys: AuthorityKeys, w: World, h: nat, now: u64)
    requires |w.log| > 0 && ShowsLast(w.store, w.log) && h !in w.sessions
    requires Carries(w.log[|w.log| - 1].envelope, w.log[|w.log| - 1].config)
    ensures var last := w.log[|w.log| - 1];
            StepOpenHead(keys, StepOpenEnvelope(w, h), h, now) ==
            if OpenChecks(keys, last.envelope, HeadOf(last.envelope), now).Ok? then
              SetSession(w, h, OpeningHistory(LastHandle(w), last.envelope, AdminListed(keys, last.config, now)))
            else w
  {
    hide OpenChecks, AdminListed, Carries;
    var last := w.log[|w.log| - 1];
    if OpenChecks(keys, last.envelope, HeadOf(last.envelope), now).Ok? {
      OpenChecksCarried(keys, last.envelope, last.config, HeadOf(last.envelope), now);
    }
    var s := StepOpenEnvelope(w, h).sessions[h];
    assert w.sessions[h := s] - {h} == w.sessions;
    SetAgain(w, h, s, OpeningHistory(LastHandle(w), last.envelope, AdminListed(keys, last.config, now)));
  }

  /** `open` finds the history record of the last revision, or writes it. */
  lemma AfterHistory(w: World, h: nat)
    requires |w.log| > 0 && Linked(w.log) && StoreAgrees(w.store, w.log) && h !in w.sessions
    ensures var last := w.log[|w.log| - 1];
            var v := StepMigrate(StepOpenHistory(SetSession(w, h, OpeningHistory(LastHandle(w), last.envelope, true)), h), h);
            && v.sessions == w.sessions[h := Ready(LastHandle(w), Idle)] && v.log == w.log && v.issued == w.issued && v.returned == w.returned
            && Seeded(v.store, w.log) && Current(v.store, LastHandle(w))
            && (forall k :: k in w.store.records ==> k in v.store.records && v.store.records[k] == w.store.records[k])
            && (Seeded(w.store, w.log) ==> v.store == w.store)
  {
    hide Carries, VersionsBelow, Commit;
    var last, handle := w.log[|w.log| - 1], LastHandle(w);
    var u := SetSession(w, h, OpeningHistory(handle, last.envelope, true));
    SetAgain(w, h, u.sessions[h], Ready(handle, Idle));
    SetAgain(w, h, u.sessions[h], Migrating(handle, last.envelope, true));
    SetAgain(w, h, Migrating(handle, last.envelope, true), Ready(handle, Idle));
    var key := HistoryKey(handle.head.revision);
    assert handle.head.revision == FirstRevision(w.log) + |w.log| - 1;
    if key in w.store.records {
      HistorySeeds(w.store, w.log, handle.head.revision);
    } else {
      var op := Put(key, EnvelopeValue(last.envelope), Missing);
      assert InLog(w.log, last.envelope, last.config);
      MigrateAgrees(w.store, w.log, last.envelope, last.config);
      forall k | k in w.store.records
        ensures SameAt(w.store, Commit(w.store, [op]).value, k)
      {
        OneOpElsewhere(w.store, op, k);
      }
    }
  }

  /** In whatever state a schedule of named operations leaves the store, an undisturbed `open` ends
      with a handle on the last revision, current and at rest, exactly while that revision's
      snapshot is valid as a whole; otherwise it leaves everything as it was. */
  lemma OpensExactlyWhen(keys: AuthorityKeys, w: World, h: nat, now: u64)
    requires Inv(keys, w) && |w.log| > 0 && NamedLog(w.log) && OwnStart(keys, w.log[0]) && h !in w.sessions
    ensures var v, last := Run(keys, w, OpenSteps(h, now)), w.log[|w.log| - 1];
            if ValidFrom(last.config) <= now < ValidUntil(last.config) then
              && IdleAt(v, h).Some?
              && var handle := IdleAt(v, h).value;
                 && v.sessions == w.sessions[h := Ready(handle, Idle)] && v.log == w.log && v.issued == w.issued && v.returned == w.returned
                 && Current(v.store, handle) && handle.config == last.config && handle.head == HeadOf(last.envelope)
                 && (forall k :: k in w.store.records ==> k in v.store.records && v.store.records[k] == w.store.records[k])
                 && (Seeded(w.store, w.log) ==> v.store == w.store)
            else v == w
  {
    hide Run, OpenChecks, AdminListed, Sequential, SessionsOk, InvitationsOk, ReturnedOk, OwnStart, NamedLog, ValidFrom, ValidUntil, HistoryTrue, VersionsBelow,
         StepOpenHead, StepOpenEnvelope, Current, Seeded, Linked;
    var last := w.log[|w.log| - 1];
    RunOpen(keys, w, h, now);
    OwnHeadOpensExactlyWhen(keys, w.log, |w.log| - 1, now);
    RevisionCarries(keys, w.log, |w.log| - 1);
    SequentialIsLinked(keys, w.log);
    AfterReads(keys, w, h, now);
    if ValidFrom(last.config) <= now < ValidUntil(last.config) {
      AfterHistory(w, h);
    }
  }

  lemma RevisionCarries(keys: AuthorityKeys, log: seq<Entry>, j: nat)
    requires Sequential(keys, log) && j < |log|
    ensures Carries(log[j].envelope, log[j].config)
  {
    hide Sequential, Carries, WrappedToMembers, ValidAt;
    RevisionFacts(keys, log, j);
  }

  /** The same over every schedule of named operations from a start of the authority's own. */
  lemma OpensExactlyWhenInRuns(keys: AuthorityKeys, start: Entry, withHistory: bool, steps: seq<Step>, h: nat, now: u64)
    requires OwnStart(keys, start) && NamedSteps(steps) && h !in Reach(keys, start, withHistory, steps).sessions
    ensures var w := Reach(keys, start, withHistory, steps);
            && |w.log| > 0
            && var v, last := Reach(keys, start, withHistory, steps + OpenSteps(h, now)), w.log[|w.log| - 1];
               && v.log == w.log
               && (ValidFrom(last.config) <= now < ValidUntil(last.config) <==> IdleAt(v, h).Some?)
               && (IdleAt(v, h).Some? ==>
                     var handle := IdleAt(v, h).value;
                     Current(v.store, handle) && handle.config == last.config && handle.head == HeadOf(last.envelope))
               && (IdleAt(v, h).None? ==> v == w)
  {
    hide Run, OwnStart, NamedSteps, NamedLog, Inv, Current, ValidFrom, ValidUntil, StartOk, Sequential, Linked, ShowsLast, HistoryTrue, OpenSteps, InitialWorld;
    var w := Reach(keys, start, withHistory, steps);
    OwnStartStarts(keys, start);
    RunKeepsInv(keys, start, withHistory, steps);
    LogStart(keys, start, withHistory, steps);
    NamedRunsHaveNamedLogs(keys, start, withHistory, steps);
    RunSplit(keys, InitialWorld(start, withHistory), steps, OpenSteps(h, now));
    OpensExactlyWhen(keys, w, h, now);
  }

  lemma OwnStartStarts(keys: AuthorityKeys, start: Entry)
    requires OwnStart(keys, start)
    ensures StartOk(keys, start) && start.origin.Start?
  {
    hide ValidAt, FindContentKey, AuthorityPresent;
  }

  // ---- opening, then committing ----

  lemma {:induction false} RunKeeps(keys: AuthorityKeys, w: World, steps: seq<Step>)
    requires Inv(keys, w)
    ensures Inv(keys, Run(keys, w, steps))
  {
    hide Inv, Do, Grows;
    if steps != [] {
      RunKeeps(keys, w, steps[..|steps| - 1]);
      StepKeepsInv(keys, Run(keys, w, steps[..|steps| - 1]), steps[|steps| - 1]);
    }
  }

  /** The handle caches this revision, and the current versions of its records. */
  predicate CachesLast(store: Records, handle: Handle, e: Entry) {
    Current(store, handle) && handle.config == e.config && handle.head == HeadOf(e.envelope)
  }

  /** Whatever a schedule has left behind, a new handle that nobody disturbs opens, and commits
      every operation that can be prepared from the last revision while that is valid. */
  lemma OpenThenCommit(keys: AuthorityKeys, w: World, h: nat, op: Operation, now: u64, choices: SealChoices, plan: Plan)
    requires Inv(keys, w) && |w.log| > 0 && NamedLog(w.log) && OwnStart(keys, w.log[0]) && h !in w.sessions && !op.Redeem?
    requires ValidAt(w.log[|w.log| - 1].config, keys.root, now)
    requires Prepare(keys, w.log[|w.log| - 1].config, HeadOf(w.log[|w.log| - 1].envelope), op, now, choices) == Ok(plan)
    ensures var v := Run(keys, w, OpenSteps(h, now) + CommitSteps(h, op, now, choices));
            && Inv(keys, v) && v.log == w.log + [EntryOf(plan)] && v.issued == w.issued && v.returned == w.returned
            && h in v.sessions && v.sessions == w.sessions[h := v.sessions[h]]
            && v.sessions[h].Ready? && v.sessions[h].activity == (if op.Invite? then Admitted(plan) else Idle)
            && CachesLast(v.store, v.sessions[h].handle, EntryOf(plan))
  {
    hide Inv, NamedLog, OwnStart, ValidAt, Prepare, Run, OpenSteps, CommitSteps, ValidFrom, ValidUntil, ValidIgnoringTime, Current, Seeded, CommitAlone;
    var last := w.log[|w.log| - 1];
    ValidityInterval(last.config, keys.root, now);
    OpensExactlyWhen(keys, w, h, now);
    var u := Run(keys, w, OpenSteps(h, now));
    var handle := IdleAt(u, h).value;
    RunKeeps(keys, w, OpenSteps(h, now));
    RunSplit(keys, w, OpenSteps(h, now), CommitSteps(h, op, now, choices));
    RunKeeps(keys, w, OpenSteps(h, now) + CommitSteps(h, op, now, choices));
    UndisturbedCommitSucceeds(keys, u, h, handle, op, now, choices);
    CommitIsRun(keys, u, h, handle, op, now, choices);
    PreparedNames(keys, last.config, HeadOf(last.envelope), op, now, choices);
    PlanSucceeds(keys, last, handle, plan);
    var t := Rested(u, h, CommitAlone(keys, u.store, handle, op, now, choices, None)).sessions[h];
    assert w.sessions[h := u.sessions[h]][h := t] == w.sessions[h := t];
  }

  // ---- what `open` accepts, whatever it finds ----

  /** The administrator certificate of the manifest is the root's, in force, and for the key at hand. */
  predicate ManifestInForce(keys: AuthorityKeys, now: u64) {
    AdminTimeless(keys.adminCert, keys.root, {}) && keys.Admin().publicKey == keys.adminKey && keys.Admin().notBefore <= now < keys.Admin().expires
  }

  /** The first binding of the authority's endpoint names a member that some certificate of the snapshot
      gives the authority role. */
  ghost predicate HasAuthorityRole(keys: AuthorityKeys, c: Config) {
    var b := FindEndpointBinding(c.endpointBindings, keys.endpoint);
    && b.Some?
    && exists m :: Wire(m) in c.members && m.payload.memberId == b.value.memberId && ROLE_AUTHORITY in m.payload.roles
  }

  /** The two records are accepted exactly if they belong together, the manifest is in force, the
      envelope is genuine and signed by the administrator, or is the very genesis the manifest names and
      signed by the root, and its snapshot gives the authority's endpoint the authority's role. */
  lemma AcceptsExactlyWhen(keys: AuthorityKeys, e: Envelope, head: Head, now: u64)
    ensures OpenChecks(keys, e, head, now).Ok? <==>
            && head == HeadOf(e) && ManifestInForce(keys, now)
            && (if e.body.revision == 0 then
                  Digest(e) == keys.genesis && e.body.previous == ZeroHash && e.body.signer == RootKeyId(keys.root)
                  && Genuine(e, keys.root, keys.root, keys.encryption, now)
                else
                  e.body.signer == AdminKeyId(keys.adminKey) && PERMISSION_CONFIG_WRITE in keys.Admin().permissions
                  && Genuine(e, keys.root, keys.adminKey, keys.encryption, now))
            && e.body.payloadHash.Snapshot? && HasAuthorityRole(keys, e.body.payloadHash.config)
    ensures OpenChecks(keys, e, head, now).Ok? ==> OpenChecks(keys, e, head, now).value == Opened(e.body.payloadHash.config, head)
  {
    hide Genuine, OpenWithAdmin, OpenRootSigned, FindEndpointBinding;
    OpensGenesisExactlyWhen(e, keys.root, keys.encryption, now);
    OpensCheckpointExactlyWhen(e, keys.root, keys.Admin(), keys.encryption, head, now);
    GenuineSnapshot(e, keys.root, keys.root, keys.encryption, now);
    GenuineSnapshot(e, keys.root, keys.adminKey, keys.encryption, now);
  }

  lemma GenuineSnapshot(e: Envelope, root: PublicKey, signer: PublicKey, recipient: EncryptionKey, now: u64)
    ensures Genuine(e, root, signer, recipient, now) ==> e.body.payloadHash.Snapshot?
  {
    hide ValidAt, FindContentKey;
  }

  /** The history record of the opened revision decides: the same envelope lets the handle in if the
      snapshot lists its administrator, none at all is to be seeded, any other is corruption. */
  lemma HistoryDecides(w: World, h: nat, handle: Handle, e: Envelope, listed: bool)
    requires h in w.sessions && w.sessions[h] == OpeningHistory(handle, e, listed)
    ensures var key := HistoryKey(handle.head.revision);
            StepOpenHistory(w, h) ==
            if key !in w.store.records then SetSession(w, h, Migrating(handle, e, listed))
            else if w.store.records[key].value == EnvelopeValue(e) && listed then SetSession(w, h, Ready(handle, Idle))
            else DropSession(w, h)
  {
  }

  /** Seeding writes the missing record and lets the handle in if its administrator is listed; when
      another opening has written it meanwhile, the handle is given up. */
  lemma SeedingDecides(w: World, h: nat, handle: Handle, e: Envelope, listed: bool)
    requires h in w.sessions && w.sessions[h] == Migrating(handle, e, listed)
    ensures var key, v := HistoryKey(handle.head.revision), StepMigrate(w, h);
            if key in w.store.records then v == DropSession(w, h)
            else
              && v.store.records == w.store.records[key := Record(w.store.nextRecord, EnvelopeValue(e))]
              && v.sessions == (if listed then w.sessions[h := Ready(handle, Idle)] else w.sessions - {h})
              && v.log == w.log && v.issued == w.issued && v.returned == w.returned
  {
    var ops := [Put(HistoryKey(handle.head.revision), EnvelopeValue(e), Missing)];
    assert ops[..0] == [] && ApplyOps(w.store, []) == w.store;
    if HistoryKey(handle.head.revision) in w.store.records {
      assert !Holds(w.store.records, ops[0]);
    } else {
      assert forall i :: 0 <= i < |ops| ==> Holds(w.store.records, ops[i]);
    }
  }

  // ---- invitations ----

  /** Creating an invitation stores exactly what was made, under an identifier never used before. */
  lemma CreatedIsStored(keys: AuthorityKeys, w: World, s: Step)
    requires Inv(keys, w) && s.CreateInvitation? && IdleAt(w, s.h).Some? && s.id !in w.issued
    requires MakeInvitation(keys, IdleAt(w, s.h).value, s.id, s.bootstrap, s.app, s.service, s.validFor, s.now).Ok?
    ensures var v, made := Do(keys, w, s), MakeInvitation(keys, IdleAt(w, s.h).value, s.id, s.bootstrap, s.app, s.service, s.validFor, s.now).value;
            && v.issued == w.issued + {s.id} && v.sessions == w.sessions && v.log == w.log && v.returned == w.returned
            && v.store.records == w.store.records[InvitationKey(s.id) := Record(w.store.nextRecord, InvitationValue(made))]
  {
    hide Inv, MakeInvitation, StepOpenEnvelope, StepOpenHead, StepOpenHistory, StepMigrate, StepSeal, StepReadInvitation, StepSealRedemption, StepCommit,
         StepReadBackEnvelope, StepReadBackHead, StepReadTicket, StepReadForRevocation, StepRevokeInvitation;
    InvitationIsOk(keys, w, s.id);
    var made := MakeInvitation(keys, IdleAt(w, s.h).value, s.id, s.bootstrap, s.app, s.service, s.validFor, s.now).value;
    var ops := [Put(InvitationKey(s.id), InvitationValue(made), Missing)];
    assert ops[..0] == [] && ApplyOps(w.store, []) == w.store;
    assert forall i :: 0 <= i < |ops| ==> Holds(w.store.records, ops[i]);
  }

  /** Revoking an unused invitation undisturbed removes exactly its record; a used or missing one stays
      as it is. */
  lemma RevocationIsRun(keys: AuthorityKeys, w: World, h: nat, handle: Handle, id: nat)
    requires IdleAt(w, h) == Some(handle)
    ensures var v := StepRevokeInvitation(StepReadForRevocation(w, h, id), h);
            if InvitationKey(id) in w.store.records && !w.store.records[InvitationKey(id)].value.ConsumedValue? then
              && v.store.records == w.store.records - {InvitationKey(id)} && v.log == w.log && v.issued == w.issued && v.returned == w.returned
              && v.sessions == w.sessions
            else v == w
  {
    assert w.sessions[h := Ready(handle, Idle)] == w.sessions;
    if InvitationKey(id) in w.store.records {
      var record := w.store.records[InvitationKey(id)];
      var ops := [Delete(InvitationKey(id), Exact(record.version))];
      assert ops[..0] == [] && ApplyOps(w.store, []) == w.store;
      assert forall i :: 0 <= i < |ops| ==> Holds(w.store.records, ops[i]);
      SetAgain(w, h, Ready(handle, RevocationRead(id, record)), Ready(handle, Idle));
    }
  }
}
