/** The `Authority` object: the fields its methods overwrite, and one undisturbed call as a run of
    the separate steps. */
module AuthorityHandle {
  import opened Prelude
  import opened Credentials
  import opened Configs
  import opened SnapshotValidation
  import opened Envelopes
  import opened AuthorityOps
  import opened VersionedStore
  import opened AuthorityLog
  import opened AuthorityInvariant
  import opened AuthorityRuns

  /** Records, cached fields and answer after one call that nobody disturbs. */
  datatype Committal = Committal(store: Records, handle: Handle, answer: Result<Plan, AuthorityError>)

  /** The two reads after a commit. A redemption takes the versions it finds; any other operation
      insists on finding its own revision. */
  function Refresh(t: Records, handle: Handle, plan: Plan): Committal {
    if EnvelopeKey !in t.records || HeadKey !in t.records then Committal(t, handle, Err(CorruptState))
    else if !plan.op.Redeem? && (t.records[EnvelopeKey].value != EnvelopeValue(plan.envelope) || t.records[HeadKey].value != HeadValue(plan.head)) then
      Committal(t, handle, Err(CorruptState))
    else Committal(t, Handle(plan.config, plan.head, t.records[EnvelopeKey].version, t.records[HeadKey].version), Ok(plan))
  }

  /** Commit a sealed plan, and refresh. */
  function CommitSealed(keys: AuthorityKeys, store: Records, handle: Handle, plan: Plan, version: Option<nat>): Committal {
    match Commit(store, PlanBatch(keys, handle, plan, version))
    case Err(_) => Committal(store, handle, Err(StoreConflict))
    case Ok(t) => Refresh(t, handle, plan)
  }

  /** Prepare, commit, refresh. A redemption passes the version of the invitation record it read. */
  function CommitAlone(keys: AuthorityKeys, store: Records, handle: Handle, op: Operation, now: u64, choices: SealChoices, version: Option<nat>): Committal {
    match Prepare(keys, handle.config, handle.head, op, now, choices)
    case Err(e) => Committal(store, handle, Err(e))
    case Ok(plan) => CommitSealed(keys, store, handle, plan, version)
  }

  datatype Redemption = Redemption(store: Records, handle: Handle, answer: Result<Ticket, AuthorityError>)

  /** `redeem_invitation`, undisturbed. */
  function RedeemAlone(keys: AuthorityKeys, store: Records, handle: Handle, op: Operation, now: u64, choices: SealChoices): Redemption
    requires op.Redeem?
  {
    var key := InvitationKey(op.invitation.body.id);
    if RedeemChecks(keys, op, now).Err? then Redemption(store, handle, Err(RedeemChecks(keys, op, now).error))
    else if key !in store.records then Redemption(store, handle, Err(InvitationRevoked))
    else
      var record := store.records[key];
      if record.value.ConsumedValue? then
        Redemption(store, handle, if record.value.request == op.prepared then Ok(record.value.ticket) else Err(InvitationAlreadyUsed))
      else if record.value != InvitationValue(op.invitation) then Redemption(store, handle, Err(InvalidInvitation))
      else
        var c := CommitAlone(keys, store, handle, op, now, choices, Some(record.version));
        var ticket := if c.answer.Ok? then TicketOf(keys, c.answer.value) else None;
        Redemption(c.store, c.handle,
                   if c.answer.Err? then Err(c.answer.error) else if ticket.None? then Err(CorruptState) else Ok(ticket.value))
  }

  lemma InvitePlanTicket(keys: AuthorityKeys, handle: Handle, op: Operation, now: u64, choices: SealChoices, plan: Plan)
    requires op.Invite? && Prepare(keys, handle.config, handle.head, op, now, choices) == Ok(plan)
    ensures plan.ticket.Some? && plan.op == op
  {
    hide Prepare, ValidAt, FindContentKey, VerifyJoin, EnsureJoinUnique, NextSerial, IssueMemberByAdmin, VerifyMemberWithAdmin, VerifyEndpoint;
    PreparedPlan(keys, handle.config, handle.head, op, now, choices, plan);
  }

  class Authority {
    const keys: AuthorityKeys
    var store: Records
    var config: Config
    var head: Head
    var envelopeVersion: nat
    var headVersion: nat

    constructor (keys: AuthorityKeys, store: Records, handle: Handle)
      ensures this.keys == keys && this.store == store && Cached() == handle
    {
      this.keys, this.store := keys, store;
      config, head, envelopeVersion, headVersion := handle.config, handle.head, handle.envelopeVersion, handle.headVersion;
    }

    function Cached(): Handle
      reads this
    {
      Handle(config, head, envelopeVersion, headVersion)
    }

    /** The common tail of `commit_config` and `redeem_invitation`. */
    method CommitOperation(op: Operation, now: u64, choices: SealChoices, version: Option<nat>) returns (answer: Result<Plan, AuthorityError>)
      modifies this
      ensures Committal(store, Cached(), answer) == CommitAlone(keys, old(store), old(Cached()), op, now, choices, version)
    {
      hide Prepare, Commit, PlanBatch;
      var prepared := Prepare(keys, config, head, op, now, choices);
      if prepared.Err? {
        return Err(prepared.error);
      }
      var plan := prepared.value;
      var committed := Commit(store, PlanBatch(keys, Cached(), plan, version));
      if committed.Err? {
        return Err(StoreConflict);
      }
      store := committed.value;
      if EnvelopeKey !in store.records || HeadKey !in store.records {
        return Err(CorruptState);
      }
      if !plan.op.Redeem? && (store.records[EnvelopeKey].value != EnvelopeValue(plan.envelope) || store.records[HeadKey].value != HeadValue(plan.head)) {
        return Err(CorruptState);
      }
      envelopeVersion := store.records[EnvelopeKey].version;
      headVersion := store.records[HeadKey].version;
      config := plan.config;
      head := plan.head;
      return Ok(plan);
    }

    /** `invite_member`: the ticket embeds the envelope as it is read once more after the commit. */
    method InviteMember(op: Operation, now: u64, choices: SealChoices) returns (answer: Result<Ticket, AuthorityError>)
      requires op.Invite?
      modifies this
      ensures var c := CommitAlone(keys, old(store), old(Cached()), op, now, choices, None);
              && store == c.store && Cached() == c.handle
              && (answer.Ok? <==> c.answer.Ok?) && (answer.Ok? ==> TicketOf(keys, c.answer.value) == Some(answer.value))
    {
      hide Prepare, Commit, PlanBatch;
      var done := CommitOperation(op, now, choices, None);
      if done.Err? {
        return Err(done.error);
      }
      var plan := done.value;
      InvitePlanTicket(keys, old(Cached()), op, now, choices, plan);
      return Ok(IssueTicket(keys, plan.ticket.value, head, store.records[EnvelopeKey].value.envelope));
    }

    /** `revoke_invitation`: an unused invitation goes, a used one stays. */
    method RevokeInvitation(id: nat) returns (answer: Result<(), AuthorityError>)
      modifies this
      ensures Cached() == old(Cached())
      ensures answer ==
              if InvitationKey(id) !in old(store.records) then Err(InvitationRevoked)
              else if old(store.records)[InvitationKey(id)].value.ConsumedValue? then Err(InvitationAlreadyUsed)
              else Ok(())
      ensures store.records == if answer.Ok? then old(store.records) - {InvitationKey(id)} else old(store.records)
    {
      if InvitationKey(id) !in store.records {
        return Err(InvitationRevoked);
      }
      var record := store.records[InvitationKey(id)];
      if record.value.ConsumedValue? {
        return Err(InvitationAlreadyUsed);
      }
      var ops := [Delete(InvitationKey(id), Exact(record.version))];
      assert ops[..0] == [] && Commit(store, ops).Ok?;
      assert ApplyOps(store, ops).records == store.records - {InvitationKey(id)};
      store := Commit(store, ops).value;
      return Ok(());
    }

    method RedeemInvitation(op: Operation, now: u64, choices: SealChoices) returns (answer: Result<Ticket, AuthorityError>)
      requires op.Redeem?
      modifies this
      ensures Redemption(store, Cached(), answer) == RedeemAlone(keys, old(store), old(Cached()), op, now, choices)
    {
      hide CommitAlone, RedeemChecks, TicketOf;
      var checks := RedeemChecks(keys, op, now);
      if checks.Err? {
        return Err(checks.error);
      }
      var key := InvitationKey(op.invitation.body.id);
      if key !in store.records {
        return Err(InvitationRevoked);
      }
      var record := store.records[key];
      if record.value.ConsumedValue? {
        if record.value.request == op.prepared {
          return Ok(record.value.ticket);
        }
        return Err(InvitationAlreadyUsed);
      }
      if record.value != InvitationValue(op.invitation) {
        return Err(InvalidInvitation);
      }
      var done := CommitOperation(op, now, choices, Some(record.version));
      if done.Err? {
        return Err(done.error);
      }
      var ticket := TicketOf(keys, done.value);
      if ticket.None? {
        return Err(CorruptState);
      }
      return Ok(ticket.value);
    }
  }

  // ---- one call as a run of steps ----

  function CommitSteps(h: nat, op: Operation, now: u64, choices: SealChoices): seq<Step> {
    [SealOperation(h, op, now, choices), CommitPlan(h), ReadBackEnvelope(h), ReadBackHead(h)]
  }

  function RedeemSteps(h: nat, op: Operation, now: u64, choices: SealChoices): seq<Step> {
    [ReadInvitation(h, op, now), SealRedemption(h, choices), CommitPlan(h), ReadBackEnvelope(h), ReadBackHead(h)]
  }

  lemma {:induction false} RunSplit(keys: AuthorityKeys, w: World, steps: seq<Step>, more: seq<Step>)
    ensures Run(keys, w, steps + more) == Run(keys, Run(keys, w, steps), more)
    decreases |more|
  {
    hide Do;
    if more == [] {
      assert steps + more == steps;
    } else {
      var front, last := more[..|more| - 1], more[|more| - 1];
      RunSplit(keys, w, steps, front);
      assert (steps + more)[..|steps + more| - 1] == steps + front;
      assert (steps + more)[|steps + more| - 1] == last;
    }
  }

  /** A run, step by step from the front. */
  lemma RunFirst(keys: AuthorityKeys, w: World, steps: seq<Step>)
    requires steps != []
    ensures Run(keys, w, steps) == Run(keys, Do(keys, w, steps[0]), steps[1..])
  {
    hide Do;
    RunSplit(keys, w, [steps[0]], steps[1..]);
    assert [steps[0]] + steps[1..] == steps;
    assert [steps[0]][..0] == [] && Run(keys, w, []) == w;
  }

  /** The steps from the commit on, which both paths share. */
  function CommitTail(keys: AuthorityKeys, w: World, h: nat): World {
    StepReadBackHead(keys, StepReadBackEnvelope(StepCommit(keys, w, h), h), h)
  }

  lemma RunTail(keys: AuthorityKeys, w: World, h: nat)
    ensures Run(keys, w, [CommitPlan(h), ReadBackEnvelope(h), ReadBackHead(h)]) == CommitTail(keys, w, h)
  {
    hide Run, StepCommit, StepReadBackEnvelope, StepReadBackHead;
    var s := [CommitPlan(h), ReadBackEnvelope(h), ReadBackHead(h)];
    RunFirst(keys, w, s);
    assert s[1..] == [ReadBackEnvelope(h), ReadBackHead(h)];
    RunFirst(keys, Do(keys, w, s[0]), s[1..]);
    assert s[1..][1..] == [ReadBackHead(h)];
    RunFirst(keys, Do(keys, Do(keys, w, s[0]), s[1]), [ReadBackHead(h)]);
    RunNothing(keys, Do(keys, Do(keys, Do(keys, w, s[0]), s[1]), s[2]), [ReadBackHead(h)][1..]);
  }

  lemma RunNothing(keys: AuthorityKeys, w: World, steps: seq<Step>)
    requires |steps| == 0
    ensures Run(keys, w, steps) == w
  {
  }

  lemma RunCommit(keys: AuthorityKeys, w: World, h: nat, op: Operation, now: u64, choices: SealChoices)
    ensures Run(keys, w, CommitSteps(h, op, now, choices)) == CommitTail(keys, StepSeal(keys, w, h, op, now, choices), h)
  {
    hide Run, CommitTail, StepSeal;
    var s := CommitSteps(h, op, now, choices);
    RunFirst(keys, w, s);
    assert s[1..] == [CommitPlan(h), ReadBackEnvelope(h), ReadBackHead(h)];
    RunTail(keys, Do(keys, w, s[0]), h);
  }

  lemma RunRedeem(keys: AuthorityKeys, w: World, h: nat, op: Operation, now: u64, choices: SealChoices)
    ensures Run(keys, w, RedeemSteps(h, op, now, choices)) ==
            CommitTail(keys, StepSealRedemption(keys, StepReadInvitation(keys, w, h, op, now), h, choices), h)
  {
    hide Run, CommitTail, StepReadInvitation, StepSealRedemption;
    var s := RedeemSteps(h, op, now, choices);
    RunFirst(keys, w, s);
    assert s[1..] == [SealRedemption(h, choices), CommitPlan(h), ReadBackEnvelope(h), ReadBackHead(h)];
    RunFirst(keys, Do(keys, w, s[0]), s[1..]);
    assert s[1..][1..] == [CommitPlan(h), ReadBackEnvelope(h), ReadBackHead(h)];
    RunTail(keys, Do(keys, Do(keys, w, s[0]), s[1]), h);
  }

  /** The reads right after a commit find what it wrote. */
  lemma RefreshSucceeds(keys: AuthorityKeys, store: Records, handle: Handle, plan: Plan, version: Option<nat>)
    requires Commit(store, PlanBatch(keys, handle, plan, version)).Ok?
    ensures var t := Commit(store, PlanBatch(keys, handle, plan, version)).value;
            Refresh(t, handle, plan).answer == Ok(plan) && Refresh(t, handle, plan).store == t
  {
    hide Commit, PlanBatch;
    CommitRevision(keys, store, handle, plan, version);
  }

  /** The world once the call has come to rest. */
  function Rested(w: World, h: nat, c: Committal): World {
    var log := if c.answer.Ok? then w.log + [EntryOf(c.answer.value)] else w.log;
    var activity := if c.answer.Ok? && c.answer.value.op.Invite? then Admitted(c.answer.value) else Idle;
    SetSession(w.(store := c.store, log := log), h, Ready(c.handle, activity))
  }

  lemma TailIsRun(keys: AuthorityKeys, w: World, h: nat, handle: Handle, plan: Plan, version: Option<nat>)
    requires h in w.sessions && w.sessions[h] == Ready(handle, Sealed(plan, version)) && (plan.op.Redeem? ==> TicketOf(keys, plan).Some?)
    ensures var c := CommitSealed(keys, w.store, handle, plan, version);
            CommitTail(keys, w, h) ==
            Rested(w, h, c).(returned := w.returned + if plan.op.Redeem? && c.answer.Ok? then [Returned(plan.op.invitation.body.id, TicketOf(keys, plan).value)] else [])
  {
    hide Commit, PlanBatch, TicketOf;
    assert w.returned + [] == w.returned;
    var committed := Commit(w.store, PlanBatch(keys, handle, plan, version));
    if committed.Ok? {
      CommitRevision(keys, w.store, handle, plan, version);
    }
  }

  lemma NothingToCommit(keys: AuthorityKeys, w: World, h: nat, handle: Handle)
    requires IdleAt(w, h) == Some(handle)
    ensures CommitTail(keys, w, h) == w
  {
    hide Commit, PlanBatch, TicketOf;
  }

  /** An undisturbed `commit_config` is the run of its four steps: the same records, the same
      cached fields, the revision at the end of the line if it succeeded, and nothing else. */
  lemma CommitIsRun(keys: AuthorityKeys, w: World, h: nat, handle: Handle, op: Operation, now: u64, choices: SealChoices)
    requires IdleAt(w, h) == Some(handle) && !op.Redeem?
    ensures Run(keys, w, CommitSteps(h, op, now, choices)) == Rested(w, h, CommitAlone(keys, w.store, handle, op, now, choices, None))
  {
    hide Prepare, Commit, PlanBatch, Run, CommitSteps, CommitTail, Refresh, TicketOf;
    RunCommit(keys, w, h, op, now, choices);
    var prepared := Prepare(keys, handle.config, handle.head, op, now, choices);
    assert w.sessions[h := Ready(handle, Idle)] == w.sessions;
    if prepared.Err? {
      NothingToCommit(keys, w, h, handle);
    } else {
      PreparedNames(keys, handle.config, handle.head, op, now, choices);
      var v := StepSeal(keys, w, h, op, now, choices);
      TailIsRun(keys, v, h, handle, prepared.value, None);
      RestedAgain(w, h, v.sessions[h], CommitSealed(keys, w.store, handle, prepared.value, None));
      assert w.returned + [] == w.returned;
    }
  }

  lemma RestedAgain(w: World, h: nat, s: Session, c: Committal)
    ensures Rested(SetSession(w, h, s), h, c) == Rested(w, h, c)
  {
    assert w.sessions[h := s][h := Rested(w, h, c).sessions[h]] == w.sessions[h := Rested(w, h, c).sessions[h]];
  }

  /** The revision an undisturbed redemption adds to the line: none unless it finds its invitation
      unused and its commit goes through. */
  function RedemptionEntries(keys: AuthorityKeys, store: Records, handle: Handle, op: Operation, now: u64, choices: SealChoices): seq<Entry>
    requires op.Redeem?
  {
    var key := InvitationKey(op.invitation.body.id);
    if RedeemChecks(keys, op, now).Ok? && key in store.records && store.records[key].value == InvitationValue(op.invitation) then
      var c := CommitAlone(keys, store, handle, op, now, choices, Some(store.records[key].version));
      if c.answer.Ok? then [EntryOf(c.answer.value)] else []
    else []
  }

  /** An undisturbed `redeem_invitation` is the run of its five steps: the same records, the same
      cached fields, the same ticket returned, and nothing else. */
  lemma RedeemIsRun(keys: AuthorityKeys, w: World, h: nat, handle: Handle, op: Operation, now: u64, choices: SealChoices)
    requires IdleAt(w, h) == Some(handle) && op.Redeem?
    ensures var r := RedeemAlone(keys, w.store, handle, op, now, choices);
            Run(keys, w, RedeemSteps(h, op, now, choices)) ==
            SetSession(w.(store := r.store, log := w.log + RedemptionEntries(keys, w.store, handle, op, now, choices),
                          returned := w.returned + if r.answer.Ok? then [Returned(op.invitation.body.id, r.answer.value)] else []),
                       h, Ready(r.handle, Idle))
  {
    hide Prepare, Commit, PlanBatch, Run, RedeemSteps, CommitTail, Refresh, TicketOf, RedeemChecks;
    RunRedeem(keys, w, h, op, now, choices);
    assert w.sessions[h := Ready(handle, Idle)] == w.sessions;
    assert w.returned + [] == w.returned && w.log + [] == w.log;
    var key := InvitationKey(op.invitation.body.id);
    if RedeemChecks(keys, op, now).Ok? && key in w.store.records && w.store.records[key].value == InvitationValue(op.invitation) {
      UnusedIsRun(keys, w, h, handle, op, now, choices);
    } else {
      NothingToCommit(keys, StepReadInvitation(keys, w, h, op, now), h, handle);
    }
  }

  lemma UnusedIsRun(keys: AuthorityKeys, w: World, h: nat, handle: Handle, op: Operation, now: u64, choices: SealChoices)
    requires IdleAt(w, h) == Some(handle) && op.Redeem? && RedeemChecks(keys, op, now).Ok?
    requires var key := InvitationKey(op.invitation.body.id); key in w.store.records && w.store.records[key].value == InvitationValue(op.invitation)
    ensures var r := RedeemAlone(keys, w.store, handle, op, now, choices);
            CommitTail(keys, StepSealRedemption(keys, StepReadInvitation(keys, w, h, op, now), h, choices), h) ==
            SetSession(w.(store := r.store, log := w.log + RedemptionEntries(keys, w.store, handle, op, now, choices),
                          returned := w.returned + if r.answer.Ok? then [Returned(op.invitation.body.id, r.answer.value)] else []),
                       h, Ready(r.handle, Idle))
  {
    hide Prepare, Commit, PlanBatch, CommitTail, Refresh, TicketOf, RedeemChecks;
    var record := w.store.records[InvitationKey(op.invitation.body.id)];
    var u := StepReadInvitation(keys, w, h, op, now);
    var v := StepSealRedemption(keys, u, h, choices);
    assert w.returned + [] == w.returned && w.log + [] == w.log;
    var prepared := Prepare(keys, handle.config, handle.head, op, now, choices);
    if prepared.Err? {
      assert w.sessions[h := u.sessions[h]][h := Ready(handle, Idle)] == w.sessions[h := Ready(handle, Idle)];
      NothingToCommit(keys, v, h, handle);
    } else {
      var plan := prepared.value;
      PreparedNames(keys, handle.config, handle.head, op, now, choices);
      RedeemPlanTicket(keys, handle, plan);
      TailIsRun(keys, v, h, handle, plan, Some(record.version));
      RestedAgain(u, h, v.sessions[h], CommitSealed(keys, w.store, handle, plan, Some(record.version)));
      RestedAgain(w, h, u.sessions[h], CommitSealed(keys, w.store, handle, plan, Some(record.version)));
      if Commit(w.store, PlanBatch(keys, handle, plan, Some(record.version))).Ok? {
        RefreshSucceeds(keys, w.store, handle, plan, Some(record.version));
      }
    }
  }

  /** The handle caches the current revision and the current record versions. */
  predicate Current(store: Records, handle: Handle) {
    && EnvelopeKey in store.records && store.records[EnvelopeKey].version == handle.envelopeVersion
    && HeadKey in store.records && store.records[HeadKey].version == handle.headVersion && store.records[HeadKey].value == HeadValue(handle.head)
  }

  lemma NextHistoryFree(store: Records, log: seq<Entry>, r: u64)
    requires StoreAgrees(store, log) && r == FirstRevision(log) + |log|
    ensures HistoryKey(r) !in store.records
  {
    hide ShowsLast, VersionsBelow, Seeded;
  }

  lemma CurrentAccepts(keys: AuthorityKeys, store: Records, handle: Handle, plan: Plan, version: Option<nat>)
    requires Current(store, handle) && HistoryKey(plan.head.revision) !in store.records
    requires plan.op.Redeem? && version.Some? ==>
             InvitationKey(plan.op.invitation.body.id) in store.records && store.records[InvitationKey(plan.op.invitation.body.id)].version == version.value
    ensures Commit(store, PlanBatch(keys, handle, plan, version)).Ok?
  {
    hide TicketOf;
    var ops := PlanBatch(keys, handle, plan, version);
    forall i | 0 <= i < |ops|
      ensures Holds(store.records, ops[i])
    {
    }
  }

  lemma CurrentCommits(keys: AuthorityKeys, w: World, h: nat, handle: Handle, op: Operation, now: u64, choices: SealChoices, version: Option<nat>)
    requires Inv(keys, w) && IdleAt(w, h) == Some(handle) && Current(w.store, handle)
    requires Prepare(keys, handle.config, handle.head, op, now, choices).Ok?
    requires op.Redeem? && version.Some? ==>
             InvitationKey(op.invitation.body.id) in w.store.records && w.store.records[InvitationKey(op.invitation.body.id)].version == version.value
    ensures var c := CommitAlone(keys, w.store, handle, op, now, choices, version);
            var plan := Prepare(keys, handle.config, handle.head, op, now, choices).value;
            && c.answer == Ok(plan) && Current(c.store, c.handle) && c.handle.config == plan.config && c.handle.head == plan.head
            && Commit(w.store, PlanBatch(keys, handle, plan, version)) == Ok(c.store)
  {
    hide Inv, Prepare, Commit, PlanBatch, Seeded, StoreAgrees, Linked, HandleOk, ActivityOk, Succeeds;
    var plan := Prepare(keys, handle.config, handle.head, op, now, choices).value;
    PreparedNames(keys, handle.config, handle.head, op, now, choices);
    StoreIsRight(keys, w);
    ReadySession(keys, w, h);
    CurrentRevision(keys, w, handle, plan);
    NextHistoryFree(w.store, w.log, plan.head.revision);
    CurrentAccepts(keys, w.store, handle, plan, version);
    CommitRevision(keys, w.store, handle, plan, version);
  }

  /** With nobody else at work a current handle never loses: whatever revision it can prepare it
      commits, and it is current again afterwards. */
  lemma UndisturbedCommitSucceeds(keys: AuthorityKeys, w: World, h: nat, handle: Handle, op: Operation, now: u64, choices: SealChoices)
    requires Inv(keys, w) && IdleAt(w, h) == Some(handle) && Current(w.store, handle) && !op.Redeem?
    requires Prepare(keys, handle.config, handle.head, op, now, choices).Ok?
    ensures var c := CommitAlone(keys, w.store, handle, op, now, choices, None);
            var plan := Prepare(keys, handle.config, handle.head, op, now, choices).value;
            c.answer == Ok(plan) && Current(c.store, c.handle) && c.handle.config == plan.config && c.handle.head == plan.head
  {
    hide Inv, Prepare, CommitAlone, Current;
    CurrentCommits(keys, w, h, handle, op, now, choices, None);
  }

  /** The same for a redemption that finds its invitation unused: it returns the ticket of its
      plan, and the invitation's record keeps that ticket for the same request. */
  lemma UndisturbedRedemptionSucceeds(keys: AuthorityKeys, w: World, h: nat, handle: Handle, op: Operation, now: u64, choices: SealChoices)
    requires Inv(keys, w) && IdleAt(w, h) == Some(handle) && Current(w.store, handle) && op.Redeem? && RedeemChecks(keys, op, now).Ok?
    requires var key := InvitationKey(op.invitation.body.id); key in w.store.records && w.store.records[key].value == InvitationValue(op.invitation)
    requires Prepare(keys, handle.config, handle.head, op, now, choices).Ok?
    ensures var r := RedeemAlone(keys, w.store, handle, op, now, choices);
            var plan := Prepare(keys, handle.config, handle.head, op, now, choices).value;
            && r.answer.Ok? && TicketOf(keys, plan) == Some(r.answer.value) && ConsumedBy(r.store, op.invitation.body.id, op.prepared, r.answer.value)
            && Current(r.store, r.handle) && r.handle.config == plan.config && r.handle.head == plan.head
  {
    hide Inv, Prepare, CommitAlone, Current, RedeemChecks, TicketOf, Commit, PlanBatch, ConsumedBy, Remembers;
    var record := w.store.records[InvitationKey(op.invitation.body.id)];
    var plan := Prepare(keys, handle.config, handle.head, op, now, choices).value;
    PreparedNames(keys, handle.config, handle.head, op, now, choices);
    CurrentCommits(keys, w, h, handle, op, now, choices, Some(record.version));
    ReadIsRemembered(keys, w, InvitationKey(op.invitation.body.id));
    RedemptionConsumes(keys, w.store, handle, plan, record.version);
  }

  lemma CurrentRevision(keys: AuthorityKeys, w: World, handle: Handle, plan: Plan)
    requires Linked(w.log) && StoreAgrees(w.store, w.log) && HandleOk(w.log, handle) && Current(w.store, handle) && PlanOk(keys, handle, plan)
    ensures plan.head.revision == FirstRevision(w.log) + |w.log|
  {
    hide PlanOk, Carries, HistoryTrue, VersionsBelow, Seeded, Succeeds;
    var i :| 0 <= i < |w.log| && HeadOf(w.log[i].envelope) == handle.head && w.log[i].config == handle.config;
    PlanSucceeds(keys, w.log[i], handle, plan);
  }
}
