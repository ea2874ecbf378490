/** Tickets as schedules hand them out, and what `join` makes of them. */
module JoinRuns {
  import opened Prelude
  import opened Credentials
  import opened Configs
  import opened SnapshotValidation
  import opened Envelopes
  import opened AuthorityOps
  import opened AuthorityLog
  import opened AuthorityInvariant
  import opened AuthorityRuns
  import opened AuthorityHistory
  import opened Replica
  import opened ReplicaRuns
  import opened ReplicaInvariant
  import opened Membership

  /** The node accepts the ticket from `at` until the ticket or anything in its revision runs out
      and at no other time. It then stands at revision `i` of the line; a refusal changes nothing. */
  ghost predicate Joins(root: PublicKey, log: seq<Entry>, i: nat, at: u64, secrets: Secrets, store: MemberStore, ticket: Ticket, now: u64)
    requires i < |log|
  {
    var o := Join(root, secrets, store, ticket, now);
    && (o.answer.Ok? <==> at <= now < Min(ticket.body.expires, ValidUntil(log[i].config)))
    && (o.answer.Ok? ==> o.answer.value == HeadOf(log[i].envelope) && Arrived(root, o.store, ticket) && RecordsOn(root, log, i, i, o.store))
    && (o.answer.Err? ==> o.store == store)
  }

  lemma PlanJoins(keys: AuthorityKeys, log: seq<Entry>, i: nat, plan: Plan, prepared: PreparedJoin, secrets: Secrets, store: MemberStore, now: u64)
    requires ManifestOk(keys) && PlanAt(keys, log, i, plan)
    requires || (plan.op.Redeem? && prepared == plan.op.prepared)
             || (plan.op.Invite? && prepared == PreparedJoin(plan.op.request, plan.op.binding) && VerifyPrepared(prepared, keys.Network(), plan.now).Ok?)
    requires SecretsMatch(secrets, prepared.request.payload).Ok? && Awaiting(store, prepared)
    ensures TicketOf(keys, plan).Some? && Joins(keys.root, log, i, plan.now, secrets, store, TicketOf(keys, plan).value, now)
  {
    hide Prepare, ManifestOk, VerifyPrepared, SecretsMatch, Awaiting, Join, Arrived, ValidUntil, TicketOf, RecordsOn, ValidAt, FindContentKey;
    var a := log[i - 1];
    PreparedPlan(keys, a.config, HeadOf(a.envelope), plan.op, plan.now, plan.choices, plan);
    JoinAcceptedExactlyWhen(keys, a.config, HeadOf(a.envelope), plan.op, plan.now, plan.choices, plan, prepared, secrets, store, now);
    var o := Join(keys.root, secrets, store, TicketOf(keys, plan).value, now);
    if o.answer.Ok? {
      ArrivedIsJoined(keys.root, log, i, o.store, TicketOf(keys, plan).value);
    }
  }

  /** Every ticket that a redemption has returned in a schedule, the first time or on a retry, is
      the one its requester can join with. */
  lemma ReturnedTicketJoins(keys: AuthorityKeys, start: Entry, withHistory: bool, steps: seq<Step>, k: nat, secrets: Secrets, store: MemberStore, now: u64)
    returns (i: nat)
    requires StartOk(keys, start) && ManifestOk(keys) && k < |Reach(keys, start, withHistory, steps).returned|
    ensures var w := Reach(keys, start, withHistory, steps);
            && RedeemedAt(w.log, i, w.returned[k].id)
            && var e := w.log[i].origin;
               SecretsMatch(secrets, e.op.prepared.request.payload).Ok? && Awaiting(store, e.op.prepared) ==>
                 Joins(keys.root, w.log, i, e.now, secrets, store, w.returned[k].ticket, now)
  {
    hide StartOk, Reach, ManifestOk, SecretsMatch, Awaiting, Joins, TicketOf, IsConsumed, PlanFrom;
    var w := Reach(keys, start, withHistory, steps);
    ExactlyOnce(keys, start, withHistory, steps, w.returned[k].id);
    i :| RedeemedAt(w.log, i, w.returned[k].id) && TicketFor(keys, w.log, i, w.log[i].origin.op.prepared, w.returned[k].ticket);
    var prepared := w.log[i].origin.op.prepared;
    var plan :| PlanAt(keys, w.log, i, plan) && plan.op.Redeem? && plan.op.prepared == prepared && TicketOf(keys, plan) == Some(w.returned[k].ticket);
    if SecretsMatch(secrets, prepared.request.payload).Ok? && Awaiting(store, prepared) {
      PlanJoins(keys, w.log, i, plan, prepared, secrets, store, now);
    }
  }

  /** The ticket of a direct invitation, in any world, is joined with like that exactly while no
      later revision has been committed; otherwise no node ever accepts it. */
  lemma InviteTicketJoins(keys: AuthorityKeys, w: World, h: nat, plan: Plan, secrets: Secrets, store: MemberStore, now: u64)
    requires Inv(keys, w) && ManifestOk(keys) && AdmittedAt(w, h, plan) && plan.op.Invite? && |w.log| > 0 && InviteTicket(keys, w, plan).Some?
    requires VerifyPrepared(PreparedJoin(plan.op.request, plan.op.binding), keys.Network(), plan.now).Ok?
    requires SecretsMatch(secrets, plan.op.request.payload).Ok? && Awaiting(store, PreparedJoin(plan.op.request, plan.op.binding))
    ensures w.log[|w.log| - 1].envelope == plan.envelope ==>
              Joins(keys.root, w.log, |w.log| - 1, plan.now, secrets, store, InviteTicket(keys, w, plan).value, now)
    ensures w.log[|w.log| - 1].envelope != plan.envelope ==> Join(keys.root, secrets, store, InviteTicket(keys, w, plan).value, now).answer.Err?
  {
    hide Inv, ManifestOk, SecretsMatch, Awaiting, Joins, VerifyPrepared, InviteTicket, TicketOf, Seeded, HandleOk, PlanOk, PlanFrom, VerifyTicket, StoreAgrees, Linked;
    var ticket, prepared := InviteTicket(keys, w, plan).value, PreparedJoin(plan.op.request, plan.op.binding);
    ReadySession(keys, w, h);
    StoreIsRight(keys, w);
    InviteTicketGoodExactlyWhen(keys, w, h, plan);
    if w.log[|w.log| - 1].envelope == plan.envelope {
      var i :| PlanAt(keys, w.log, i, plan);
      SameEnvelope(w.log, i, |w.log| - 1);
      PlanJoins(keys, w.log, i, plan, prepared, secrets, store, now);
    } else {
      UnverifiedRefused(keys.root, secrets, store, ticket, now);
    }
  }

  lemma SameEnvelope(log: seq<Entry>, i: nat, j: nat)
    requires Linked(log) && i < |log| && j < |log| && log[i].envelope == log[j].envelope
    ensures i == j
  {
    hide Carries;
    assert log[i].envelope.body.revision == FirstRevision(log) + i;
    assert log[j].envelope.body.revision == FirstRevision(log) + j;
  }

  lemma UnverifiedRefused(root: PublicKey, secrets: Secrets, store: MemberStore, ticket: Ticket, now: u64)
    requires forall root, network, nonce, endpoint, now :: VerifyTicket(ticket, root, network, nonce, endpoint, now).Err?
    ensures Join(root, secrets, store, ticket, now).answer.Err?
  {
    hide VerifyTicket, VerifyPrepared;
  }
}
