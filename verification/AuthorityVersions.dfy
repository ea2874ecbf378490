/** What the record versions a handle caches are worth. An operation that has committed takes the
    current versions only if it finds its own revision again, so a handle whose versions are current
    caches the last revision; a redemption takes them unseen. */
module AuthorityVersions {
  import opened Prelude
  import opened Credentials
  import opened Configs
  import opened Envelopes
  import opened AuthorityOps
  import opened VersionedStore
  import opened AuthorityLog
  import opened AuthorityInvariant
  import opened AuthorityRuns

  /** A revision is committed exactly if both records are at the versions the handle last saw, the
      revision has no history record yet, and the invitation it redeems is at the version it was read. */
  lemma CommitsExactlyWhen(keys: AuthorityKeys, s: Records, handle: Handle, plan: Plan, version: Option<nat>)
    ensures Commit(s, PlanBatch(keys, handle, plan, version)).Ok? <==>
            && EnvelopeKey in s.records && s.records[EnvelopeKey].version == handle.envelopeVersion
            && HeadKey in s.records && s.records[HeadKey].version == handle.headVersion
            && HistoryKey(plan.head.revision) !in s.records
            && (version.Some? && plan.op.Redeem? && TicketOf(keys, plan).Some? ==>
                  var key := InvitationKey(plan.op.invitation.body.id); key in s.records && s.records[key].version == version.value)
  {
    hide TicketOf;
    var ops := PlanBatch(keys, handle, plan, version);
    assert ops[0] == RevisionBatch(handle, plan)[0] && ops[1] == RevisionBatch(handle, plan)[1] && ops[2] == RevisionBatch(handle, plan)[2];
    assert Accepts(s, ops) ==> Holds(s.records, ops[0]) && Holds(s.records, ops[1]) && Holds(s.records, ops[2]);
    if |ops| == 4 {
      assert Accepts(s, ops) ==> Holds(s.records, ops[3]);
    }
  }

  // ---- how a step changes the two current records ----

  /** Nothing is committed and both records stay, or one revision is and both get new versions. */
  ghost predicate Moves(w: World, v: World) {
    && w.store.nextRecord <= v.store.nextRecord
    && EnvelopeKey in v.store.records && HeadKey in v.store.records
    && ((v.log == w.log && SameAt(w.store, v.store, EnvelopeKey) && SameAt(w.store, v.store, HeadKey))
        || (|v.log| == |w.log| + 1 && w.log <= v.log
            && w.store.nextRecord <= v.store.records[EnvelopeKey].version && w.store.nextRecord <= v.store.records[HeadKey].version))
  }

  lemma OneOpCounts(s: Records, op: Op<Key, Value>)
    requires Commit(s, [op]).Ok?
    ensures s.nextRecord <= Commit(s, [op]).value.nextRecord
  {
    hide Commit;
    CommitEffect(s, [op]);
  }

  lemma SmallWriteMoves(keys: AuthorityKeys, w: World, v: World, op: Op<Key, Value>)
    requires Inv(keys, w) && Commit(w.store, [op]) == Ok(v.store) && v.log == w.log && (op.key.HistoryKey? || op.key.InvitationKey?)
    ensures Moves(w, v)
  {
    hide Inv, Commit, Linked, HistoryTrue, VersionsBelow, Seeded;
    StoreIsRight(keys, w);
    OneOpCounts(w.store, op);
    OneOpElsewhere(w.store, op, EnvelopeKey);
    OneOpElsewhere(w.store, op, HeadKey);
  }

  lemma StillMoves(keys: AuthorityKeys, w: World, v: World)
    requires Inv(keys, w) && v.store == w.store && v.log == w.log
    ensures Moves(w, v)
  {
    hide Inv, Linked, HistoryTrue, VersionsBelow, Seeded;
    StoreIsRight(keys, w);
  }

  lemma CommitMoves(keys: AuthorityKeys, w: World, h: nat)
    requires Inv(keys, w)
    ensures Moves(w, StepCommit(keys, w, h))
  {
    hide Inv, Commit, PlanBatch, Moves;
    if h in w.sessions && w.sessions[h].Ready? && w.sessions[h].activity.Sealed? {
      var handle, a := w.sessions[h].handle, w.sessions[h].activity;
      var ops := PlanBatch(keys, handle, a.plan, a.invitationVersion);
      if Commit(w.store, ops).Ok? {
        FreshVersions(keys, w.store, handle, a.plan, a.invitationVersion);
        NewRevisionMoves(w, StepCommit(keys, w, h));
      } else {
        StillMoves(keys, w, StepCommit(keys, w, h));
      }
    } else {
      StillMoves(keys, w, w);
    }
  }

  lemma NewRevisionMoves(w: World, v: World)
    requires |v.log| == |w.log| + 1 && w.log <= v.log && w.store.nextRecord <= v.store.nextRecord
    requires EnvelopeKey in v.store.records && HeadKey in v.store.records
    requires w.store.nextRecord <= v.store.records[EnvelopeKey].version && w.store.nextRecord <= v.store.records[HeadKey].version
    ensures Moves(w, v)
  {
  }

  lemma FreshVersions(keys: AuthorityKeys, s: Records, handle: Handle, plan: Plan, version: Option<nat>)
    requires Commit(s, PlanBatch(keys, handle, plan, version)).Ok?
    ensures var t := Commit(s, PlanBatch(keys, handle, plan, version)).value;
            && s.nextRecord <= t.nextRecord && EnvelopeKey in t.records && HeadKey in t.records
            && s.nextRecord <= t.records[EnvelopeKey].version && s.nextRecord <= t.records[HeadKey].version
  {
    hide Commit, ConsumeOp;
    var ops := PlanBatch(keys, handle, plan, version);
    BatchKeysDistinct(keys, handle, plan, version);
    CommitEffect(s, ops);
    assert ops[0] == RevisionBatch(handle, plan)[0] && ops[1] == RevisionBatch(handle, plan)[1];
  }

  /** The steps that do not write. */
  predicate Reading(s: Step) {
    !s.CommitPlan? && !s.Migrate? && !s.CreateInvitation? && !s.RevokeInvitation?
  }

  lemma ReadingLeaves(keys: AuthorityKeys, w: World, s: Step)
    requires Reading(s)
    ensures Do(keys, w, s).store == w.store && Do(keys, w, s).log == w.log
  {
    hide OpenChecks, AdminListed, Prepare, RedeemChecks, TicketOf, StepCommit, StepMigrate, StepCreateInvitation, StepRevokeInvitation;
  }

  lemma StepMoves(keys: AuthorityKeys, w: World, s: Step)
    requires Inv(keys, w)
    ensures Moves(w, Do(keys, w, s))
  {
    hide Inv, Moves, Commit, MakeInvitation, StepCommit, StepOpenEnvelope, StepOpenHead, StepOpenHistory, StepSeal, StepReadInvitation, StepSealRedemption,
         StepReadBackEnvelope, StepReadBackHead, StepReadTicket, StepReadForRevocation;
    var v := Do(keys, w, s);
    if Reading(s) {
      ReadingLeaves(keys, w, s);
      StillMoves(keys, w, v);
    } else if s.CommitPlan? {
      CommitMoves(keys, w, s.h);
    } else if v.store == w.store {
      StillMoves(keys, w, v);
    } else {
      match s
      case Migrate(h) =>
        var m := w.sessions[h];
        SmallWriteMoves(keys, w, v, Put(HistoryKey(m.handle.head.revision), EnvelopeValue(m.envelope), Missing));
      case RevokeInvitation(h) =>
        var a := w.sessions[h].activity;
        SmallWriteMoves(keys, w, v, Delete(InvitationKey(a.id), Exact(a.record.version)));
      case CreateInvitation(h, id, bootstrap, app, service, validFor, now) =>
        var made := MakeInvitation(keys, IdleAt(w, h).value, id, bootstrap, app, service, validFor, now);
        SmallWriteMoves(keys, w, v, Put(InvitationKey(id), InvitationValue(made.value), Missing));
      case _ =>
    }
  }

  // ---- what has been read back ----

  /** The record read is the envelope of a committed revision, no older than the plan's, and is still
      the stored one exactly if its version is. */
  ghost predicate SawEnvelope(store: Records, log: seq<Entry>, plan: Plan, record: Record<Value>) {
    && record.value.EnvelopeValue? && record.version < store.nextRecord && EnvelopeKey in store.records
    && (exists k :: 0 <= k < |log| && log[k].envelope == record.value.envelope) && plan.head.revision <= record.value.envelope.body.revision
    && (store.records[EnvelopeKey].value == record.value <==> store.records[EnvelopeKey].version == record.version)
  }

  ghost predicate ReadBackTrue(store: Records, log: seq<Entry>, s: Session) {
    s.Ready? && s.activity.EnvelopeReadBack? ==> SawEnvelope(store, log, s.activity.plan, s.activity.record)
  }

  ghost predicate ReadBacksTrue(w: World) {
    forall h :: h in w.sessions ==> ReadBackTrue(w.store, w.log, w.sessions[h])
  }

  lemma SawStays(keys: AuthorityKeys, w: World, v: World, plan: Plan, record: Record<Value>)
    requires Inv(keys, w) && Inv(keys, v) && Moves(w, v) && w.log <= v.log && SawEnvelope(w.store, w.log, plan, record)
    ensures SawEnvelope(v.store, v.log, plan, record)
  {
    hide Inv, HistoryTrue, VersionsBelow, Seeded, Carries;
    StoreIsRight(keys, w);
    StoreIsRight(keys, v);
    var k :| 0 <= k < |w.log| && w.log[k].envelope == record.value.envelope;
    assert v.log[k] == w.log[k];
    if |v.log| > |w.log| {
      assert v.log[k].envelope.body.revision != v.log[|v.log| - 1].envelope.body.revision;
    }
  }

  /** The revision of a committed plan is not beyond the end of the line. */
  lemma PlanNotBeyond(keys: AuthorityKeys, store: Records, log: seq<Entry>, plan: Plan)
    requires Linked(log) && PlanCommitted(keys, store, log, plan)
    ensures plan.head.revision <= log[|log| - 1].envelope.body.revision
  {
    hide Carries, PlanFrom, TicketOf, ConsumedBy;
    var i :| PlanAt(keys, log, i, plan);
    LogOrdered(log, i, |log| - 1);
  }

  lemma JustRead(keys: AuthorityKeys, w: World, h: nat)
    requires Inv(keys, w) && h in w.sessions && w.sessions[h].Ready? && w.sessions[h].activity.Committed? && EnvelopeKey in w.store.records
    ensures SawEnvelope(w.store, w.log, w.sessions[h].activity.plan, w.store.records[EnvelopeKey])
  {
    hide Inv, HistoryTrue, Seeded, HandleOk, PlanCommitted, Linked;
    ReadySession(keys, w, h);
    StoreIsRight(keys, w);
    PlanNotBeyond(keys, w.store, w.log, w.sessions[h].activity.plan);
    assert w.log[|w.log| - 1].envelope == w.store.records[EnvelopeKey].value.envelope;
  }

  /** Only the acting session changes. */
  lemma OthersUntouched(keys: AuthorityKeys, w: World, s: Step, h: nat)
    requires s.h != h
    ensures var v := Do(keys, w, s); (h in v.sessions <==> h in w.sessions) && (h in w.sessions ==> v.sessions[h] == w.sessions[h])
  {
    hide OpenChecks, AdminListed, Prepare, RedeemChecks, TicketOf, Commit, PlanBatch, MakeInvitation;
  }

  /** The acting session has a record read back only right after reading it. */
  lemma ReadBackOnlyByReading(keys: AuthorityKeys, w: World, s: Step)
    requires !s.ReadBackEnvelope?
    ensures var v := Do(keys, w, s);
            s.h in v.sessions && v.sessions[s.h].Ready? && v.sessions[s.h].activity.EnvelopeReadBack? ==> s.h in w.sessions && v.sessions[s.h] == w.sessions[s.h]
  {
    hide OpenChecks, AdminListed, Prepare, RedeemChecks, TicketOf, Commit, PlanBatch, MakeInvitation;
  }

  lemma StepKeepsReadBacks(keys: AuthorityKeys, w: World, s: Step)
    requires Inv(keys, w) && ReadBacksTrue(w)
    ensures ReadBacksTrue(Do(keys, w, s))
  {
    hide Inv, Moves, Grows, Do, SawEnvelope;
    var v := Do(keys, w, s);
    StepKeepsInv(keys, w, s);
    StepMoves(keys, w, s);
    GrowsLog(keys, w, v);
    forall h | h in v.sessions
      ensures ReadBackTrue(v.store, v.log, v.sessions[h])
    {
      if v.sessions[h].Ready? && v.sessions[h].activity.EnvelopeReadBack? {
        if h == s.h && s.ReadBackEnvelope? {
          ReadBackReads(keys, w, s, h);
        } else if h == s.h {
          ReadBackOnlyByReading(keys, w, s);
          assert ReadBackTrue(w.store, w.log, w.sessions[h]);
          SawStays(keys, w, v, v.sessions[h].activity.plan, v.sessions[h].activity.record);
        } else {
          OthersUntouched(keys, w, s, h);
          assert ReadBackTrue(w.store, w.log, w.sessions[h]);
          SawStays(keys, w, v, v.sessions[h].activity.plan, v.sessions[h].activity.record);
        }
      }
    }
  }

  lemma GrowsLog(keys: AuthorityKeys, w: World, v: World)
    requires Keeps(keys, w, v)
    ensures w.log <= v.log
  {
    hide Inv, Seeded, Remembers, ConsumedBy;
  }

  lemma ReadBackReads(keys: AuthorityKeys, w: World, s: Step, h: nat)
    requires Inv(keys, w) && ReadBacksTrue(w) && s == ReadBackEnvelope(h)
    ensures var v := Do(keys, w, s); h in v.sessions ==> ReadBackTrue(v.store, v.log, v.sessions[h])
  {
    hide Inv, SawEnvelope, StepOpenEnvelope, StepOpenHead, StepOpenHistory, StepMigrate, StepSeal, StepReadInvitation, StepSealRedemption, StepCommit,
         StepReadBackHead, StepReadTicket, StepCreateInvitation, StepReadForRevocation, StepRevokeInvitation;
    if h in w.sessions {
      assert ReadBackTrue(w.store, w.log, w.sessions[h]);
      if w.sessions[h].Ready? && w.sessions[h].activity.Committed? && EnvelopeKey in w.store.records {
        JustRead(keys, w, h);
      }
    }
  }

  lemma {:induction false} ReadBacksInRuns(keys: AuthorityKeys, start: Entry, withHistory: bool, steps: seq<Step>)
    requires StartOk(keys, start)
    ensures ReadBacksTrue(Reach(keys, start, withHistory, steps))
  {
    hide StartOk, Do, Inv, SawEnvelope;
    if steps != [] {
      var front := steps[..|steps| - 1];
      ReadBacksInRuns(keys, start, withHistory, front);
      RunKeepsInv(keys, start, withHistory, front);
      StepKeepsReadBacks(keys, Reach(keys, start, withHistory, front), steps[|steps| - 1]);
    }
  }

  // ---- the last read of an operation ----

  lemma SawOwn(keys: AuthorityKeys, w: World, plan: Plan, record: Record<Value>)
    requires Inv(keys, w) && SawEnvelope(w.store, w.log, plan, record) && plan.head == HeadOf(plan.envelope)
    requires |w.log| > 0 && w.log[|w.log| - 1].envelope == plan.envelope
    ensures record == w.store.records[EnvelopeKey] && record.value == EnvelopeValue(plan.envelope)
  {
    hide Inv, HistoryTrue, VersionsBelow, Seeded, Carries;
    StoreIsRight(keys, w);
    var k :| 0 <= k < |w.log| && w.log[k].envelope == record.value.envelope;
    assert w.log[k].envelope.body.revision == FirstRevision(w.log) + k;
    assert w.log[|w.log| - 1].envelope.body.revision == FirstRevision(w.log) + |w.log| - 1;
  }

  /** An operation other than a redemption ends with its own revision cached under the current
      versions exactly if that revision is still the last. Overtaken, it keeps what its handle had. */
  lemma KeepsOwnRevisionExactlyWhen(keys: AuthorityKeys, w: World, h: nat, handle: Handle, plan: Plan, record: Record<Value>)
    requires Inv(keys, w) && ReadBacksTrue(w) && h in w.sessions && w.sessions[h] == Ready(handle, EnvelopeReadBack(plan, record)) && !plan.op.Redeem?
    ensures |w.log| > 0 && EnvelopeKey in w.store.records && HeadKey in w.store.records
    ensures Do(keys, w, ReadBackHead(h)) ==
            if w.log[|w.log| - 1].envelope == plan.envelope then
              SetSession(w, h, Ready(Handle(plan.config, plan.head, w.store.records[EnvelopeKey].version, w.store.records[HeadKey].version),
                                     if plan.op.Invite? then Admitted(plan) else Idle))
            else SetSession(w, h, Ready(handle, Idle))
  {
    hide Inv, HistoryTrue, VersionsBelow, Seeded, Linked, HandleOk, PlanOk, PlanInLog, ConsumedBy, TicketOf, SawEnvelope,
         StepOpenEnvelope, StepOpenHead, StepOpenHistory, StepMigrate, StepSeal, StepReadInvitation, StepSealRedemption, StepCommit,
         StepReadBackEnvelope, StepReadTicket, StepCreateInvitation, StepReadForRevocation, StepRevokeInvitation;
    StoreIsRight(keys, w);
    ReadySession(keys, w, h);
    assert ReadBackTrue(w.store, w.log, w.sessions[h]);
    if w.log[|w.log| - 1].envelope == plan.envelope {
      SawOwn(keys, w, plan, record);
    }
  }

  // ---- what cached versions say ----

  /** While a version the handle caches is the stored one, so is the revision it caches. */
  predicate Truthful(store: Records, handle: Handle) {
    && handle.head.hash.Digest?
    && Remembers(store, EnvelopeKey, Record(handle.envelopeVersion, EnvelopeValue(handle.head.hash.envelope)))
    && Remembers(store, HeadKey, Record(handle.headVersion, HeadValue(handle.head)))
  }

  /** A redemption takes whatever versions it finds: its handle is truthful exactly if nobody has
      overtaken it. */
  lemma RedemptionTruthfulExactlyWhen(keys: AuthorityKeys, w: World, h: nat, handle: Handle, plan: Plan, record: Record<Value>)
    requires Inv(keys, w) && ReadBacksTrue(w) && h in w.sessions && w.sessions[h] == Ready(handle, EnvelopeReadBack(plan, record)) && plan.op.Redeem?
    ensures |w.log| > 0 && HeadKey in w.store.records && h in Do(keys, w, ReadBackHead(h)).sessions
    ensures var v := Do(keys, w, ReadBackHead(h)).sessions[h];
            && v == Ready(Handle(plan.config, plan.head, record.version, w.store.records[HeadKey].version), Idle)
            && (Truthful(w.store, v.handle) <==> w.log[|w.log| - 1].envelope == plan.envelope)
  {
    hide Inv, HistoryTrue, Seeded, Linked, HandleOk, PlanOk, PlanInLog, ConsumedBy, TicketOf, SawEnvelope,
         StepOpenEnvelope, StepOpenHead, StepOpenHistory, StepMigrate, StepSeal, StepReadInvitation, StepSealRedemption, StepCommit,
         StepReadBackEnvelope, StepReadTicket, StepCreateInvitation, StepReadForRevocation, StepRevokeInvitation;
    StoreIsRight(keys, w);
    ReadySession(keys, w, h);
    assert ReadBackTrue(w.store, w.log, w.sessions[h]);
    if w.log[|w.log| - 1].envelope == plan.envelope {
      SawOwn(keys, w, plan, record);
    }
  }

  predicate Redeems(a: Activity) {
    a.InvitationRead? || ((a.Sealed? || a.Committed? || a.EnvelopeReadBack? || a.Admitted?) && a.plan.op.Redeem?)
  }

  /** What holds of a session that never redeems. */
  predicate TruthfulSession(store: Records, s: Session) {
    match s
    case OpeningEnvelope(record) => Remembers(store, EnvelopeKey, record)
    case OpeningHistory(handle, _, _) => Truthful(store, handle)
    case Migrating(handle, _, _) => Truthful(store, handle)
    case Ready(handle, a) => Truthful(store, handle) && !Redeems(a)
  }

  lemma TruthfulStays(keys: AuthorityKeys, w: World, v: World, s: Session)
    requires Keeps(keys, w, v) && TruthfulSession(w.store, s)
    ensures TruthfulSession(v.store, s)
  {
    hide Inv, Seeded, Remembers, ConsumedBy, Redeems;
  }

  /** `open` pairs an envelope and a head record only if they belong together. */
  lemma OpensTruthful(keys: AuthorityKeys, w: World, h: nat, now: u64)
    requires Inv(keys, w) && h in w.sessions && w.sessions[h].OpeningEnvelope? && TruthfulSession(w.store, w.sessions[h])
    ensures var v := StepOpenHead(keys, w, h, now); h in v.sessions ==> TruthfulSession(v.store, v.sessions[h])
  {
    hide Inv, OpenChecks, AdminListed, StoreAgrees, Linked;
    SessionIsOk(keys, w, h);
    var record := w.sessions[h].record;
    if HeadKey in w.store.records && w.store.records[HeadKey].value.HeadValue? {
      ReadIsRemembered(keys, w, HeadKey);
      var head := w.store.records[HeadKey].value.head;
      if OpenChecks(keys, record.value.envelope, head, now).Ok? {
        OpenedHead(keys, record.value.envelope, head, now);
      }
    }
  }

  lemma OpenedHead(keys: AuthorityKeys, e: Envelope, head: Head, now: u64)
    requires OpenChecks(keys, e, head, now).Ok?
    ensures OpenChecks(keys, e, head, now).value.head == head == HeadOf(e)
  {
    hide VerifyAdmin, AuthorityRoleValid, Genuine, OpenWithAdmin, OpenRootSigned;
    if e.body.revision == 0 {
      OpensGenesisExactlyWhen(e, keys.root, keys.encryption, now);
    } else {
      var admin := VerifyAdmin(keys.adminCert, keys.root, keys.Network(), now, {}).value;
      OpensCheckpointExactlyWhen(e, keys.root, admin, keys.encryption, head, now);
    }
  }

  lemma SealsTruthful(keys: AuthorityKeys, w: World, h: nat, op: Operation, now: u64, choices: SealChoices)
    requires h in w.sessions && TruthfulSession(w.store, w.sessions[h])
    ensures var v := StepSeal(keys, w, h, op, now, choices); h in v.sessions && TruthfulSession(v.store, v.sessions[h])
  {
    hide Prepare, Truthful;
    var handle := IdleAt(w, h);
    if handle.Some? && Prepare(keys, handle.value.config, handle.value.head, op, now, choices).Ok? {
      PreparedNames(keys, handle.value.config, handle.value.head, op, now, choices);
    }
  }

  lemma ReadsBackTruthful(keys: AuthorityKeys, w: World, h: nat)
    requires Inv(keys, w) && ReadBacksTrue(w) && h in w.sessions && TruthfulSession(w.store, w.sessions[h])
    ensures var v := StepReadBackHead(keys, w, h); h in v.sessions && TruthfulSession(v.store, v.sessions[h])
  {
    hide Inv, Linked, HandleOk, PlanOk, PlanInLog, Seeded, ConsumedBy, TicketOf;
    var s := w.sessions[h];
    if s.Ready? && s.activity.EnvelopeReadBack? && HeadKey in w.store.records {
      ReadySession(keys, w, h);
      assert ReadBackTrue(w.store, w.log, s);
      ReadIsRemembered(keys, w, HeadKey);
    }
  }

  /** The steps that leave the acting session's handle as it is. */
  predicate KeepsHandle(s: Step) {
    !s.OpenReadEnvelope? && !s.OpenReadHead? && !s.SealOperation? && !s.ReadInvitation? && !s.ReadBackHead?
  }

  lemma OtherStepsTruthful(keys: AuthorityKeys, w: World, s: Step)
    requires KeepsHandle(s) && s.h in w.sessions && TruthfulSession(w.store, w.sessions[s.h])
    ensures var v := Do(keys, w, s); s.h in v.sessions ==> TruthfulSession(w.store, v.sessions[s.h])
  {
    hide OpenChecks, AdminListed, Prepare, RedeemChecks, TicketOf, Commit, PlanBatch, MakeInvitation, Truthful;
  }

  lemma NewSession(keys: AuthorityKeys, w: World, s: Step)
    requires s.h !in w.sessions && !s.OpenReadEnvelope?
    ensures s.h !in Do(keys, w, s).sessions
  {
    hide OpenChecks, AdminListed, Prepare, RedeemChecks, TicketOf, Commit, PlanBatch, MakeInvitation;
  }

  lemma OpensEnvelopeTruthful(keys: AuthorityKeys, w: World, h: nat)
    requires Inv(keys, w) && (h in w.sessions ==> TruthfulSession(w.store, w.sessions[h]))
    ensures var v := StepOpenEnvelope(w, h); h in v.sessions ==> TruthfulSession(v.store, v.sessions[h])
  {
    hide Inv, Truthful, Remembers;
    if h !in w.sessions && EnvelopeKey in w.store.records {
      ReadIsRemembered(keys, w, EnvelopeKey);
    }
  }

  lemma StepKeepsTruthful(keys: AuthorityKeys, w: World, s: Step, h: nat)
    requires Inv(keys, w) && ReadBacksTrue(w) && (h in w.sessions ==> TruthfulSession(w.store, w.sessions[h]))
    requires !(s.ReadInvitation? && s.h == h)
    ensures var v := Do(keys, w, s); h in v.sessions ==> TruthfulSession(v.store, v.sessions[h])
  {
    hide Inv, Grows, TruthfulSession, ReadBacksTrue, StepOpenEnvelope, StepOpenHead, StepOpenHistory, StepMigrate, StepSeal, StepReadInvitation, StepSealRedemption,
         StepCommit, StepReadBackEnvelope, StepReadBackHead, StepReadTicket, StepCreateInvitation, StepReadForRevocation, StepRevokeInvitation;
    var v := Do(keys, w, s);
    StepKeepsInv(keys, w, s);
    if s.h != h {
      OthersUntouched(keys, w, s, h);
      if h in w.sessions {
        TruthfulStays(keys, w, v, w.sessions[h]);
      }
    } else if s.OpenReadEnvelope? {
      OpensEnvelopeTruthful(keys, w, h);
    } else if h !in w.sessions {
      NewSession(keys, w, s);
    } else if s.OpenReadHead? {
      if w.sessions[h].OpeningEnvelope? {
        OpensTruthful(keys, w, h, s.now);
      } else {
        NotOpening(keys, w, h, s.now);
      }
    } else if s.SealOperation? {
      SealsTruthful(keys, w, h, s.op, s.now, s.choices);
    } else if s.ReadBackHead? {
      ReadsBackTruthful(keys, w, h);
    } else {
      OtherStepsTruthful(keys, w, s);
      if h in v.sessions {
        TruthfulStays(keys, w, v, v.sessions[h]);
      }
    }
  }

  lemma NotOpening(keys: AuthorityKeys, w: World, h: nat, now: u64)
    requires h in w.sessions && !w.sessions[h].OpeningEnvelope?
    ensures StepOpenHead(keys, w, h, now) == w
  {
    hide OpenChecks, AdminListed;
  }

  /** The schedule makes no redemption through this handle. */
  predicate NeverRedeems(steps: seq<Step>, h: nat) {
    forall i :: 0 <= i < |steps| ==> !(steps[i].ReadInvitation? && steps[i].h == h)
  }

  lemma {:induction false} TruthfulInRuns(keys: AuthorityKeys, start: Entry, withHistory: bool, steps: seq<Step>, h: nat)
    requires StartOk(keys, start) && NeverRedeems(steps, h)
    ensures var w := Reach(keys, start, withHistory, steps); h in w.sessions ==> TruthfulSession(w.store, w.sessions[h])
  {
    hide StartOk, Do, Inv, TruthfulSession, ReadBacksTrue;
    if steps != [] {
      var front := steps[..|steps| - 1];
      TruthfulInRuns(keys, start, withHistory, front, h);
      RunKeepsInv(keys, start, withHistory, front);
      ReadBacksInRuns(keys, start, withHistory, front);
      StepKeepsTruthful(keys, Reach(keys, start, withHistory, front), steps[|steps| - 1], h);
    }
  }

  /** In every schedule in which this handle makes no redemption, whatever the others do: if one of the
      versions it caches is the stored one, it caches the last revision, snapshot and head. */
  lemma CurrentVersionsCacheLast(keys: AuthorityKeys, start: Entry, withHistory: bool, steps: seq<Step>, h: nat)
    requires StartOk(keys, start) && NeverRedeems(steps, h)
    ensures var w := Reach(keys, start, withHistory, steps);
            && |w.log| > 0 && EnvelopeKey in w.store.records && HeadKey in w.store.records
            && (h in w.sessions && w.sessions[h].Ready? ==>
                  var handle, last := w.sessions[h].handle, w.log[|w.log| - 1];
                  handle.envelopeVersion == w.store.records[EnvelopeKey].version || handle.headVersion == w.store.records[HeadKey].version ==>
                    handle.head == HeadOf(last.envelope) && handle.config == last.config)
  {
    hide StartOk, Reach, Inv, HistoryTrue, VersionsBelow, Seeded, Carries, ActivityOk;
    var w := Reach(keys, start, withHistory, steps);
    RunKeepsInv(keys, start, withHistory, steps);
    StoreIsRight(keys, w);
    TruthfulInRuns(keys, start, withHistory, steps, h);
    if h in w.sessions && w.sessions[h].Ready? {
      ReadySession(keys, w, h);
      var handle, last := w.sessions[h].handle, w.log[|w.log| - 1];
      var i :| 0 <= i < |w.log| && HeadOf(w.log[i].envelope) == handle.head && w.log[i].config == handle.config;
      assert w.log[i].envelope.body.revision == FirstRevision(w.log) + i;
      assert last.envelope.body.revision == FirstRevision(w.log) + |w.log| - 1;
    }
  }
}
