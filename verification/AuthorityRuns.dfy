/** Safety of the authority over every schedule: no fork, exactly-once enrolment, stable tickets. */
module AuthorityRuns {
  import opened Prelude
  import opened Credentials
  import opened Configs
  import opened Envelopes
  import opened AuthorityOps
  import opened VersionedStore
  import opened AuthorityLog
  import opened AuthorityInvariant

  /** The world an authority reaches from its first revision by this schedule. */
  function Reach(keys: AuthorityKeys, start: Entry, withHistory: bool, steps: seq<Step>): World {
    Run(keys, InitialWorld(start, withHistory), steps)
  }

  lemma {:induction false} RunKeepsInv(keys: AuthorityKeys, start: Entry, withHistory: bool, steps: seq<Step>)
    requires StartOk(keys, start)
    ensures Inv(keys, Reach(keys, start, withHistory, steps))
  {
    hide StartOk, Inv, Grows, Do, InitialWorld;
    if steps == [] {
      InitialInv(keys, start, withHistory);
    } else {
      var front := steps[..|steps| - 1];
      RunKeepsInv(keys, start, withHistory, front);
      StepKeepsInv(keys, Reach(keys, start, withHistory, front), steps[|steps| - 1]);
    }
  }

  lemma GrowsTransitive(a: World, b: World, c: World)
    requires Grows(a.store, a.log, b.store, b.log) && Grows(b.store, b.log, c.store, c.log)
    ensures Grows(a.store, a.log, c.store, c.log)
  {
    hide Seeded, Remembers, ConsumedBy;
  }

  /** Whatever happens after a schedule, nothing it committed is lost or changed. */
  lemma {:induction false} RunGrows(keys: AuthorityKeys, start: Entry, withHistory: bool, steps: seq<Step>, more: seq<Step>)
    requires StartOk(keys, start)
    ensures var w, v := Reach(keys, start, withHistory, steps), Reach(keys, start, withHistory, steps + more);
            Grows(w.store, w.log, v.store, v.log)
    decreases |more|
  {
    hide StartOk, Inv, Do, InitialWorld, Seeded, Remembers, ConsumedBy;
    if more == [] {
      assert steps + more == steps;
    } else {
      var front := more[..|more| - 1];
      RunGrows(keys, start, withHistory, steps, front);
      RunKeepsInv(keys, start, withHistory, steps + front);
      StepKeepsInv(keys, Reach(keys, start, withHistory, steps + front), more[|more| - 1]);
      assert (steps + more)[..|steps + more| - 1] == steps + front;
      GrowsTransitive(Reach(keys, start, withHistory, steps), Reach(keys, start, withHistory, steps + front), Reach(keys, start, withHistory, steps + more));
    }
  }

  // ---- no fork ----

  /** In every schedule the log is one hash-linked line of revisions, each the work of one
      operation on the one before, and the current records show its end. */
  lemma Linearizable(keys: AuthorityKeys, start: Entry, withHistory: bool, steps: seq<Step>)
    requires StartOk(keys, start)
    ensures var w := Reach(keys, start, withHistory, steps);
            Sequential(keys, w.log) && Linked(w.log) && w.log[0] == start && ShowsLast(w.store, w.log) && HistoryTrue(w.store, w.log)
  {
    hide StartOk, Run, InitialWorld, Linked, Sequential, HistoryTrue, ShowsLast, VersionsBelow, SessionsOk, InvitationsOk, ReturnedOk, Seeded;
    RunKeepsInv(keys, start, withHistory, steps);
    SequentialIsLinked(keys, Reach(keys, start, withHistory, steps).log);
    LogStart(keys, start, withHistory, steps);
  }

  lemma LogStart(keys: AuthorityKeys, start: Entry, withHistory: bool, steps: seq<Step>)
    requires StartOk(keys, start)
    ensures var w := Reach(keys, start, withHistory, steps); |w.log| > 0 && w.log[0] == start
  {
    hide StartOk, Do, Seeded, Remembers, ConsumedBy, InitialStore;
    RunGrows(keys, start, withHistory, [], steps);
    assert [] + steps == steps;
    assert Reach(keys, start, withHistory, []).log == [start];
  }

  /** A revision, once in the history, is there for good and never changes; so no head is ever
      extended twice. */
  lemma NoFork(keys: AuthorityKeys, start: Entry, withHistory: bool, steps: seq<Step>, more: seq<Step>)
    requires StartOk(keys, start)
    ensures var w, v := Reach(keys, start, withHistory, steps), Reach(keys, start, withHistory, steps + more);
            && w.log <= v.log
            && (forall r: u64 :: HistoryKey(r) in w.store.records ==>
                  HistoryKey(r) in v.store.records && v.store.records[HistoryKey(r)].value == w.store.records[HistoryKey(r)].value)
            && (forall i, j :: 0 < i < |v.log| && 0 < j < |v.log| && v.log[i].envelope.body.previous == v.log[j].envelope.body.previous ==> i == j)
  {
    hide StartOk, Reach, Inv, Remembers, ConsumedBy, VersionsBelow, ShowsLast, Carries;
    var w, v := Reach(keys, start, withHistory, steps), Reach(keys, start, withHistory, steps + more);
    RunGrows(keys, start, withHistory, steps, more);
    RunKeepsInv(keys, start, withHistory, steps);
    RunKeepsInv(keys, start, withHistory, steps + more);
    StoreIsRight(keys, w);
    StoreIsRight(keys, v);
    forall r: u64 | HistoryKey(r) in w.store.records
      ensures HistoryKey(r) in v.store.records && v.store.records[HistoryKey(r)].value == w.store.records[HistoryKey(r)].value
    {
      HistoryStays(w.store, w.log, v.store, v.log, r);
    }
    forall i, j | 0 < i < |v.log| && 0 < j < |v.log| && v.log[i].envelope.body.previous == v.log[j].envelope.body.previous
      ensures i == j
    {
      assert v.log[i - 1].envelope == v.log[j - 1].envelope;
    }
  }

  lemma HistoryStays(s: Records, log: seq<Entry>, t: Records, log': seq<Entry>, r: u64)
    requires StoreAgrees(s, log) && StoreAgrees(t, log') && Grows(s, log, t, log') && HistoryKey(r) in s.records && Linked(log')
    ensures HistoryKey(r) in t.records && t.records[HistoryKey(r)].value == s.records[HistoryKey(r)].value
  {
    hide VersionsBelow, ShowsLast, Remembers, ConsumedBy, Carries;
    HistorySeeds(s, log, r);
    var i := r - FirstRevision(log);
    assert log'[i] == log[i] && log'[0] == log[0];
    assert log'[i].envelope.body.revision == r;
  }

  /** Two handles that have reached the same revision, at whatever moments, hold the same snapshot
      and head. */
  lemma HandlesAgree(keys: AuthorityKeys, start: Entry, withHistory: bool, steps: seq<Step>, more: seq<Step>, g: nat, h: nat)
    requires StartOk(keys, start)
    ensures var w, v := Reach(keys, start, withHistory, steps), Reach(keys, start, withHistory, steps + more);
            g in w.sessions && w.sessions[g].Ready? && h in v.sessions && v.sessions[h].Ready?
            && w.sessions[g].handle.head.revision == v.sessions[h].handle.head.revision ==>
              w.sessions[g].handle.head == v.sessions[h].handle.head && w.sessions[g].handle.config == v.sessions[h].handle.config
  {
    hide StartOk, Reach, Inv, Remembers, ConsumedBy, StoreAgrees, Carries, ActivityOk, Seeded;
    var w, v := Reach(keys, start, withHistory, steps), Reach(keys, start, withHistory, steps + more);
    RunGrows(keys, start, withHistory, steps, more);
    RunKeepsInv(keys, start, withHistory, steps);
    RunKeepsInv(keys, start, withHistory, steps + more);
    StoreIsRight(keys, v);
    if g in w.sessions && w.sessions[g].Ready? && h in v.sessions && v.sessions[h].Ready? {
      ReadySession(keys, w, g);
      ReadySession(keys, v, h);
      HandleGrows(w.log, v.log, w.sessions[g].handle);
    }
  }

  /** Of the handles that cache one revision, only the first to commit succeeds: a commit from any
      but the last revision is refused and writes nothing. */
  lemma StaleCommitFails(keys: AuthorityKeys, w: World, h: nat)
    requires Inv(keys, w) && h in w.sessions && w.sessions[h].Ready? && w.sessions[h].activity.Sealed?
    requires |w.log| > 0 && w.sessions[h].handle.head != HeadOf(w.log[|w.log| - 1].envelope)
    ensures StepCommit(keys, w, h) == Rest(w, h, w.sessions[h].handle)
  {
    hide Inv, PlanOk, Seeded, Remembers, StoreAgrees, Carries, Commit, PlanBatch, Succeeds, HandleOk;
    var handle, a := w.sessions[h].handle, w.sessions[h].activity;
    ReadySession(keys, w, h);
    StoreIsRight(keys, w);
    if Commit(w.store, PlanBatch(keys, handle, a.plan, a.invitationVersion)).Ok? {
      CommitsAtEnd(keys, w.store, w.log, handle, a.plan, a.invitationVersion);
      StaleRevision(keys, w.log, handle, a.plan);
      assert false;
    }
  }

  lemma StaleRevision(keys: AuthorityKeys, log: seq<Entry>, handle: Handle, plan: Plan)
    requires Linked(log) && HandleOk(log, handle) && PlanOk(keys, handle, plan)
    requires handle.head != HeadOf(log[|log| - 1].envelope)
    ensures plan.head.revision != FirstRevision(log) + |log|
  {
    hide PlanOk, Carries, Succeeds;
    var i :| 0 <= i < |log| && HeadOf(log[i].envelope) == handle.head && log[i].config == handle.config;
    PlanSucceeds(keys, log[i], handle, plan);
  }

  // ---- exactly-once enrolment ----

  /** In every schedule an invitation admits at most one member; its record is consumed exactly
      when some revision redeemed it; and every ticket ever returned for it is the one ticket that
      the redemption which made that revision issued for its request. */
  lemma ExactlyOnce(keys: AuthorityKeys, start: Entry, withHistory: bool, steps: seq<Step>, id: nat)
    requires StartOk(keys, start)
    ensures var w := Reach(keys, start, withHistory, steps);
            && (forall i, j :: RedeemedAt(w.log, i, id) && RedeemedAt(w.log, j, id) ==> i == j)
            && (IsConsumed(w.store, id) <==> exists i :: RedeemedAt(w.log, i, id))
            && (forall k :: 0 <= k < |w.returned| && w.returned[k].id == id ==>
                  exists i :: RedeemedAt(w.log, i, id) && TicketFor(keys, w.log, i, w.log[i].origin.op.prepared, w.returned[k].ticket))
            && (forall j, k :: 0 <= j < |w.returned| && 0 <= k < |w.returned| && w.returned[j].id == w.returned[k].id ==>
                  w.returned[j] == w.returned[k])
  {
    hide StartOk, Reach, Inv, StoreAgrees, Carries, TicketFor;
    var w := Reach(keys, start, withHistory, steps);
    RunKeepsInv(keys, start, withHistory, steps);
    StoreIsRight(keys, w);
    InvitationIsOk(keys, w, id);
    ReturnedIsOk(keys, w);
    forall i, j | RedeemedAt(w.log, i, id) && RedeemedAt(w.log, j, id)
      ensures i == j
    {
      assert w.log[i].envelope == w.log[j].envelope;
    }
    forall k | 0 <= k < |w.returned| && w.returned[k].id == id
      ensures exists i :: RedeemedAt(w.log, i, id) && TicketFor(keys, w.log, i, w.log[i].origin.op.prepared, w.returned[k].ticket)
    {
      var value := w.store.records[InvitationKey(id)].value;
      var i :| RedeemedAt(w.log, i, id) && TicketFor(keys, w.log, i, value.request, value.ticket);
      RequestOfTicket(keys, w.log, i, value.request, value.ticket);
    }
  }

  lemma RequestOfTicket(keys: AuthorityKeys, log: seq<Entry>, i: int, request: PreparedJoin, ticket: Ticket)
    requires TicketFor(keys, log, i, request, ticket)
    ensures 0 < i < |log| && log[i].origin.Applied? && log[i].origin.op.Redeem? && log[i].origin.op.prepared == request
  {
    hide PlanFrom, TicketOf;
  }

  lemma ReturnedIsOk(keys: AuthorityKeys, w: World)
    requires Inv(keys, w)
    ensures ReturnedOk(w.store, w.returned)
  {
    hide Sequential, StoreAgrees, SessionsOk, InvitationsOk, ReturnedOk;
  }

  /** Retrying is harmless for ever: once a redemption has returned its ticket, redeeming the same
      invitation at any later moment, through any handle, returns that same ticket to the same
      request, refuses every other request, and leaves the store and the log as they are. */
  lemma RetryReturnsSameTicket(keys: AuthorityKeys, start: Entry, withHistory: bool, steps: seq<Step>, more: seq<Step>,
                               k: nat, h: nat, op: Operation, now: u64)
    requires StartOk(keys, start) && op.Redeem? && RedeemChecks(keys, op, now).Ok?
    requires k < |Reach(keys, start, withHistory, steps).returned|
    requires Reach(keys, start, withHistory, steps).returned[k].id == op.invitation.body.id
    requires IdleAt(Reach(keys, start, withHistory, steps + more), h).Some?
    ensures var w, v := Reach(keys, start, withHistory, steps), Reach(keys, start, withHistory, steps + more);
            exists request, ticket ::
              && ConsumedBy(w.store, op.invitation.body.id, request, ticket) && w.returned[k].ticket == ticket
              && Do(keys, v, ReadInvitation(h, op, now)) ==
                 v.(returned := v.returned + if op.prepared == request then [w.returned[k]] else [])
  {
    hide StartOk, Reach, Inv, RedeemChecks, Seeded, Remembers, StepOpenEnvelope, StepOpenHead, StepOpenHistory, StepMigrate, StepSeal,
         StepSealRedemption, StepCommit, StepReadBackEnvelope, StepReadBackHead, StepReadTicket, StepCreateInvitation, StepReadForRevocation,
         StepRevokeInvitation;
    var w, v := Reach(keys, start, withHistory, steps), Reach(keys, start, withHistory, steps + more);
    RunGrows(keys, start, withHistory, steps, more);
    RunKeepsInv(keys, start, withHistory, steps);
    ReturnedIsOk(keys, w);
    var id := op.invitation.body.id;
    var value := w.store.records[InvitationKey(id)].value;
    assert ConsumedBy(w.store, id, value.request, value.ticket);
    assert ConsumedBy(v.store, id, value.request, value.ticket);
    assert v.(returned := v.returned + []) == v;
  }

  // ---- the ticket of a direct invitation ----

  predicate AdmittedAt(w: World, h: nat, plan: Plan) {
    h in w.sessions && w.sessions[h].Ready? && w.sessions[h].activity == Admitted(plan)
  }

  /** `invite_member` embeds whatever envelope is current when it reads for the last time. Its
      ticket is the proper one exactly while its own revision is the last; otherwise no joiner
      accepts it, whatever it is checked against and whenever. */
  lemma InviteTicketGoodExactlyWhen(keys: AuthorityKeys, w: World, h: nat, plan: Plan)
    requires Inv(keys, w) && AdmittedAt(w, h, plan) && |w.log| > 0 && InviteTicket(keys, w, plan).Some?
    ensures var ticket, last := InviteTicket(keys, w, plan).value, w.log[|w.log| - 1].envelope;
            && (last == plan.envelope ==> TicketOf(keys, plan) == Some(ticket))
            && (last != plan.envelope ==> forall root, network, nonce, endpoint, now :: VerifyTicket(ticket, root, network, nonce, endpoint, now).Err?)
  {
    hide Inv, HistoryTrue, VersionsBelow, Seeded, Linked, HandleOk, PlanOk, PlanInLog, VerifyAdmin, VerifyMemberWithAdmin, VerifyEndpoint;
    ReadySession(keys, w, h);
    StoreIsRight(keys, w);
  }

  /** So any revision committed between the two reads of one invitation spoils its ticket. */
  lemma InterveningCommitSpoilsTicket(keys: AuthorityKeys, w: World, h: nat, plan: Plan, v: World)
    requires Inv(keys, w) && AdmittedAt(w, h, plan)
    requires Inv(keys, v) && AdmittedAt(v, h, plan) && w.log < v.log && InviteTicket(keys, v, plan).Some?
    ensures forall root, network, nonce, endpoint, now :: VerifyTicket(InviteTicket(keys, v, plan).value, root, network, nonce, endpoint, now).Err?
  {
    hide Inv, StoreAgrees, Seeded, HandleOk, PlanOk, PlanInLog, VerifyTicket, InviteTicket, Carries;
    ReadySession(keys, w, h);
    StoreIsRight(keys, w);
    StoreIsRight(keys, v);
    PlanEarlier(keys, w.log, v.log, plan);
    InviteTicketGoodExactlyWhen(keys, v, h, plan);
  }

  lemma PlanEarlier(keys: AuthorityKeys, log: seq<Entry>, log': seq<Entry>, plan: Plan)
    requires Linked(log') && log < log' && PlanInLog(keys, log, plan)
    ensures log'[|log'| - 1].envelope != plan.envelope
  {
    hide Carries, PlanFrom;
    var i :| PlanAt(keys, log, i, plan);
    assert log'[i] == log[i];
    assert log'[i].envelope.body.revision == FirstRevision(log') + i;
  }
}
