/** What every step of every schedule keeps: the committed revisions form one line, each made by
    its operation from its predecessor, and the records always show the end of that line. */
module AuthorityInvariant {
  import opened Prelude
  import opened Credentials
  import opened Configs
  import opened SnapshotValidation
  import opened Envelopes
  import opened AuthorityOps
  import opened VersionedStore
  import opened AuthorityLog

  // ---- the line of revisions ----

  /** `b` is what `b`'s own operation makes of revision `a`. */
  ghost predicate Succeeds(keys: AuthorityKeys, a: Entry, b: Entry) {
    && b.origin.Applied?
    && var plan := Prepare(keys, a.config, HeadOf(a.envelope), b.origin.op, b.origin.now, b.origin.choices);
       plan.Ok? && plan.value.envelope == b.envelope && plan.value.config == b.config
  }

  /** The log reads as if its operations had been run one after another by a single handle. */
  ghost predicate Sequential(keys: AuthorityKeys, log: seq<Entry>) {
    && |log| > 0
    && StartOk(keys, log[0])
    && forall i :: 0 < i < |log| ==> Succeeds(keys, log[i - 1], log[i])
  }

  function EntryOf(plan: Plan): Entry {
    Entry(plan.envelope, plan.config, Applied(plan.op, plan.now, plan.choices))
  }

  /** The plan was prepared from this revision. */
  ghost predicate PlanFrom(keys: AuthorityKeys, a: Entry, plan: Plan) {
    Prepare(keys, a.config, HeadOf(a.envelope), plan.op, plan.now, plan.choices) == Ok(plan)
  }

  /** The plan was prepared from revision `i - 1` and became revision `i`. */
  ghost predicate PlanAt(keys: AuthorityKeys, log: seq<Entry>, i: int, plan: Plan) {
    0 < i < |log| && log[i] == EntryOf(plan) && PlanFrom(keys, log[i - 1], plan)
  }

  ghost predicate PlanInLog(keys: AuthorityKeys, log: seq<Entry>, plan: Plan) {
    exists i :: PlanAt(keys, log, i, plan)
  }

  lemma PlanInLogGrows(keys: AuthorityKeys, log: seq<Entry>, log': seq<Entry>, i: int, plan: Plan)
    requires log <= log' && PlanAt(keys, log, i, plan)
    ensures PlanAt(keys, log', i, plan)
  {
    hide PlanFrom;
    assert log'[i] == log[i] && log'[i - 1] == log[i - 1];
  }

  function FirstRevision(log: seq<Entry>): int
    requires |log| > 0
  {
    log[0].envelope.body.revision
  }

  /** Revisions count up from the first one, each names the digest of the one before, and epochs
      never go back. */
  ghost predicate Linked(log: seq<Entry>) {
    && |log| > 0
    && (forall i :: 0 <= i < |log| ==> log[i].envelope.body.revision == FirstRevision(log) + i)
    && (forall i :: 0 <= i < |log| ==> Carries(log[i].envelope, log[i].config))
    && (forall i :: 0 < i < |log| ==> log[i].envelope.body.previous == Digest(log[i - 1].envelope))
    && (forall i, j :: 0 <= i <= j < |log| ==> log[i].envelope.body.epoch <= log[j].envelope.body.epoch)
  }

  lemma SucceedsChains(keys: AuthorityKeys, a: Entry, b: Entry)
    requires Succeeds(keys, a, b)
    ensures Carries(b.envelope, b.config)
    ensures b.envelope.body.previous == Digest(a.envelope)
    ensures b.envelope.body.revision == a.envelope.body.revision + 1
    ensures a.envelope.body.epoch <= b.envelope.body.epoch
  {
    var plan := Prepare(keys, a.config, HeadOf(a.envelope), b.origin.op, b.origin.now, b.origin.choices).value;
    PreparedPlan(keys, a.config, HeadOf(a.envelope), b.origin.op, b.origin.now, b.origin.choices, plan);
  }

  lemma StartCarries(keys: AuthorityKeys, start: Entry)
    requires StartOk(keys, start)
    ensures Carries(start.envelope, start.config) && start.origin.Start?
  {
    hide ValidAt, FindContentKey, Carries;
  }

  lemma LinkedExtends(log: seq<Entry>, e: Entry)
    requires Linked(log) && Carries(e.envelope, e.config)
    requires var last := log[|log| - 1].envelope;
             e.envelope.body.previous == Digest(last) && e.envelope.body.revision == last.body.revision + 1 && last.body.epoch <= e.envelope.body.epoch
    ensures Linked(log + [e])
  {
    hide Carries;
    var log', n := log + [e], |log|;
    assert log'[n] == e;
    assert forall i :: 0 <= i < n ==> log'[i] == log[i];
  }

  lemma SequentialFront(keys: AuthorityKeys, log: seq<Entry>)
    requires Sequential(keys, log) && |log| > 1
    ensures Sequential(keys, log[..|log| - 1]) && Succeeds(keys, log[|log| - 2], log[|log| - 1])
  {
    hide Succeeds, StartOk;
    var front := log[..|log| - 1];
    forall i | 0 < i < |front|
      ensures Succeeds(keys, front[i - 1], front[i])
    {
    }
  }

  lemma {:induction false} SequentialIsLinked(keys: AuthorityKeys, log: seq<Entry>)
    requires Sequential(keys, log)
    ensures Linked(log)
    decreases |log|
  {
    hide Succeeds, Carries, StartOk;
    if |log| > 1 {
      var n := |log| - 1;
      SequentialFront(keys, log);
      SequentialIsLinked(keys, log[..n]);
      SucceedsChains(keys, log[n - 1], log[n]);
      LinkedExtends(log[..n], log[n]);
      assert log[..n] + [log[n]] == log;
    } else {
      StartCarries(keys, log[0]);
    }
  }

  lemma LogOrdered(log: seq<Entry>, i: nat, j: nat)
    requires Linked(log) && i <= j < |log|
    ensures log[i].envelope.body.revision <= log[j].envelope.body.revision && log[i].envelope.body.epoch <= log[j].envelope.body.epoch
  {
    hide Carries;
  }

  // ---- what the records say about the log ----

  predicate InLog(log: seq<Entry>, e: Envelope, c: Config) {
    exists i :: 0 <= i < |log| && log[i].envelope == e && log[i].config == c
  }

  /** A handle caches some committed revision, perhaps not the latest. */
  predicate HandleOk(log: seq<Entry>, handle: Handle) {
    exists i :: 0 <= i < |log| && HeadOf(log[i].envelope) == handle.head && log[i].config == handle.config
  }

  predicate Seeded(store: Records, log: seq<Entry>) {
    forall i :: 0 <= i < |log| ==> HistoryKey(log[i].envelope.body.revision) in store.records
  }

  /** The current records show the last revision. */
  predicate ShowsLast(store: Records, log: seq<Entry>)
    requires |log| > 0
  {
    && EnvelopeKey in store.records && store.records[EnvelopeKey].value == EnvelopeValue(log[|log| - 1].envelope)
    && HeadKey in store.records && store.records[HeadKey].value == HeadValue(HeadOf(log[|log| - 1].envelope))
  }

  /** A history record holds the revision it is named after. */
  ghost predicate HistoryTrue(store: Records, log: seq<Entry>)
    requires |log| > 0
  {
    forall r: u64 :: HistoryKey(r) in store.records ==>
      && FirstRevision(log) <= r < FirstRevision(log) + |log|
      && store.records[HistoryKey(r)].value == EnvelopeValue(log[r - FirstRevision(log)].envelope)
  }

  predicate VersionsBelow(store: Records) {
    forall k :: k in store.records ==> store.records[k].version < store.nextRecord
  }

  ghost predicate StoreAgrees(store: Records, log: seq<Entry>) {
    && |log| > 0 && ShowsLast(store, log) && HistoryTrue(store, log) && VersionsBelow(store)
    && (Seeded(store, log) || |log| == 1)
  }

  // ---- what a session may believe ----

  /** The record was read from this key: should its version still be current, so is its value. */
  predicate Remembers(store: Records, key: Key, record: Record<Value>) {
    && record.version < store.nextRecord
    && (key in store.records && store.records[key].version == record.version ==> store.records[key] == record)
  }

  /** A plan made from this handle's cached revision. */
  ghost predicate PlanOk(keys: AuthorityKeys, handle: Handle, plan: Plan) {
    Prepare(keys, handle.config, handle.head, plan.op, plan.now, plan.choices) == Ok(plan)
  }

  predicate ConsumedBy(store: Records, id: nat, request: PreparedJoin, ticket: Ticket) {
    InvitationKey(id) in store.records && store.records[InvitationKey(id)].value == ConsumedValue(request, ticket)
  }

  /** The plan is a revision of the log, and if it redeemed an invitation, the invitation's record
      holds the plan's ticket. */
  ghost predicate PlanCommitted(keys: AuthorityKeys, store: Records, log: seq<Entry>, plan: Plan) {
    && PlanInLog(keys, log, plan) && plan.head == HeadOf(plan.envelope)
    && (plan.op.Redeem? ==> TicketOf(keys, plan).Some? && ConsumedBy(store, plan.op.invitation.body.id, plan.op.prepared, TicketOf(keys, plan).value))
  }

  ghost predicate ActivityOk(keys: AuthorityKeys, store: Records, log: seq<Entry>, handle: Handle, a: Activity) {
    match a
    case Idle => true
    case InvitationRead(record, op, _) =>
      && op.Redeem? && record.value == InvitationValue(op.invitation)
      && Remembers(store, InvitationKey(op.invitation.body.id), record)
    case Sealed(plan, version) =>
      && PlanOk(keys, handle, plan)
      && (plan.op.Redeem? <==> version.Some?)
      && (version.Some? ==> Remembers(store, InvitationKey(plan.op.invitation.body.id), Record(version.value, InvitationValue(plan.op.invitation))))
    case Committed(plan) => PlanCommitted(keys, store, log, plan)
    case EnvelopeReadBack(plan, _) => PlanCommitted(keys, store, log, plan)
    case Admitted(plan) => PlanCommitted(keys, store, log, plan)
    case RevocationRead(id, record) => record.value.InvitationValue? && Remembers(store, InvitationKey(id), record)
  }

  ghost predicate SessionOk(keys: AuthorityKeys, store: Records, log: seq<Entry>, s: Session) {
    match s
    case OpeningEnvelope(record) => record.value.EnvelopeValue? && exists c :: InLog(log, record.value.envelope, c)
    case OpeningHistory(handle, envelope, _) => InLog(log, envelope, handle.config) && handle.head == HeadOf(envelope)
    case Migrating(handle, envelope, _) => InLog(log, envelope, handle.config) && handle.head == HeadOf(envelope)
    case Ready(handle, a) => Seeded(store, log) && HandleOk(log, handle) && ActivityOk(keys, store, log, handle, a)
  }

  ghost predicate SessionsOk(keys: AuthorityKeys, store: Records, log: seq<Entry>, sessions: map<nat, Session>) {
    forall h :: h in sessions ==> SessionOk(keys, store, log, sessions[h])
  }

  // ---- what the invitation records say about the log ----

  /** Entry `i` admitted the holder of invitation `id`. */
  predicate RedeemedAt(log: seq<Entry>, i: int, id: nat) {
    0 <= i < |log| && log[i].origin.Applied? && log[i].origin.op.Redeem? && log[i].origin.op.invitation.body.id == id
  }

  /** The ticket is the one issued by the redemption that made revision `i` for this request. */
  ghost predicate TicketFor(keys: AuthorityKeys, log: seq<Entry>, i: int, request: PreparedJoin, ticket: Ticket) {
    exists plan :: PlanAt(keys, log, i, plan) && plan.op.Redeem? && plan.op.prepared == request && TicketOf(keys, plan) == Some(ticket)
  }

  predicate IsConsumed(store: Records, id: nat) {
    InvitationKey(id) in store.records && store.records[InvitationKey(id)].value.ConsumedValue?
  }

  ghost predicate InvitationOk(keys: AuthorityKeys, store: Records, log: seq<Entry>, issued: set<nat>, id: nat) {
    && (InvitationKey(id) in store.records ==> id in issued && (store.records[InvitationKey(id)].value.InvitationValue? || IsConsumed(store, id)))
    && (IsConsumed(store, id) ==>
          exists i :: RedeemedAt(log, i, id) && TicketFor(keys, log, i, store.records[InvitationKey(id)].value.request, store.records[InvitationKey(id)].value.ticket))
    && (forall i :: RedeemedAt(log, i, id) ==> IsConsumed(store, id) && store.records[InvitationKey(id)].value.ticket.body.embedded == log[i].envelope)
  }

  ghost predicate InvitationsOk(keys: AuthorityKeys, store: Records, log: seq<Entry>, issued: set<nat>) {
    forall id :: InvitationOk(keys, store, log, issued, id)
  }

  predicate ReturnedOk(store: Records, returned: seq<Returned>) {
    forall k :: 0 <= k < |returned| ==>
      IsConsumed(store, returned[k].id) && store.records[InvitationKey(returned[k].id)].value.ticket == returned[k].ticket
  }

  ghost predicate Inv(keys: AuthorityKeys, w: World) {
    && Sequential(keys, w.log)
    && StoreAgrees(w.store, w.log)
    && SessionsOk(keys, w.store, w.log, w.sessions)
    && InvitationsOk(keys, w.store, w.log, w.issued)
    && ReturnedOk(w.store, w.returned)
  }

  lemma InitialInv(keys: AuthorityKeys, start: Entry, withHistory: bool)
    requires StartOk(keys, start)
    ensures Inv(keys, InitialWorld(start, withHistory))
  {
    hide Succeeds, StartOk, SessionOk;
    StartCarries(keys, start);
  }

  // ---- what later worlds keep of earlier ones ----

  /** The log only grows, and what a session remembers of the store stays right. */
  ghost predicate Grows(store: Records, log: seq<Entry>, store': Records, log': seq<Entry>) {
    && log <= log'
    && (Seeded(store, log) ==> Seeded(store', log'))
    && (forall k, record :: Remembers(store, k, record) ==> Remembers(store', k, record))
    && (forall id, request, ticket :: ConsumedBy(store, id, request, ticket) ==> ConsumedBy(store', id, request, ticket))
  }

  lemma InLogGrows(log: seq<Entry>, log': seq<Entry>, e: Envelope, c: Config)
    requires log <= log' && InLog(log, e, c)
    ensures InLog(log', e, c)
  {
    var i :| 0 <= i < |log| && log[i].envelope == e && log[i].config == c;
    assert log'[i] == log[i];
  }

  lemma HandleGrows(log: seq<Entry>, log': seq<Entry>, handle: Handle)
    requires log <= log' && HandleOk(log, handle)
    ensures HandleOk(log', handle)
  {
    var i :| 0 <= i < |log| && HeadOf(log[i].envelope) == handle.head && log[i].config == handle.config;
    assert log'[i] == log[i];
  }

  lemma SessionStaysOk(keys: AuthorityKeys, store: Records, log: seq<Entry>, store': Records, log': seq<Entry>, s: Session)
    requires Grows(store, log, store', log') && SessionOk(keys, store, log, s)
    ensures SessionOk(keys, store', log', s)
  {
    hide PlanOk, PlanAt, InLog, HandleOk, Seeded, Remembers, ConsumedBy;
    match s
    case OpeningEnvelope(record) =>
      var c :| InLog(log, record.value.envelope, c);
      InLogGrows(log, log', record.value.envelope, c);
    case OpeningHistory(handle, envelope, _) => InLogGrows(log, log', envelope, handle.config);
    case Migrating(handle, envelope, _) => InLogGrows(log, log', envelope, handle.config);
    case Ready(handle, a) =>
      HandleGrows(log, log', handle);
      if a.Committed? || a.EnvelopeReadBack? || a.Admitted? {
        var i :| PlanAt(keys, log, i, a.plan);
        PlanInLogGrows(keys, log, log', i, a.plan);
      }
  }

  /** The sessions other than the acting one are untouched by a step and stay consistent. */
  lemma SessionsStayOk(keys: AuthorityKeys, w: World, v: World, h: nat)
    requires SessionsOk(keys, w.store, w.log, w.sessions) && Grows(w.store, w.log, v.store, v.log)
    requires forall g :: g in v.sessions && g != h ==> g in w.sessions && v.sessions[g] == w.sessions[g]
    requires h in v.sessions ==> SessionOk(keys, v.store, v.log, v.sessions[h])
    ensures SessionsOk(keys, v.store, v.log, v.sessions)
  {
    hide SessionOk;
    forall g | g in v.sessions && g != h
      ensures SessionOk(keys, v.store, v.log, v.sessions[g])
    {
      SessionStaysOk(keys, w.store, w.log, v.store, v.log, w.sessions[g]);
    }
  }

  // ---- steps that leave the records alone ----

  /** Only session `h` differs between the two worlds, and it is consistent. */
  ghost predicate Quiet(keys: AuthorityKeys, w: World, v: World, h: nat) {
    && v.store == w.store && v.log == w.log && v.issued == w.issued && v.returned == w.returned
    && (forall g :: g in v.sessions && g != h ==> g in w.sessions && v.sessions[g] == w.sessions[g])
    && (h in v.sessions ==> SessionOk(keys, v.store, v.log, v.sessions[h]))
  }

  lemma QuietStep(keys: AuthorityKeys, w: World, v: World, h: nat)
    requires Inv(keys, w) && Quiet(keys, w, v, h)
    ensures Inv(keys, v) && Grows(w.store, w.log, v.store, v.log)
  {
    hide SessionOk, Sequential, StoreAgrees, InvitationsOk, ReturnedOk;
    SessionsStayOk(keys, w, v, h);
  }

  lemma CrashIsQuiet(keys: AuthorityKeys, w: World, h: nat)
    requires Inv(keys, w)
    ensures Quiet(keys, w, DropSession(w, h), h)
  {
    hide Inv, SessionOk;
  }

  lemma SetIsQuiet(keys: AuthorityKeys, w: World, h: nat, s: Session)
    requires SessionOk(keys, w.store, w.log, s)
    ensures Quiet(keys, w, SetSession(w, h, s), h)
  {
    hide SessionOk;
  }

  /** Returning to rest needs nothing but a handle on the log. */
  lemma RestIsQuiet(keys: AuthorityKeys, w: World, h: nat, handle: Handle)
    requires Seeded(w.store, w.log) && HandleOk(w.log, handle)
    ensures Quiet(keys, w, Rest(w, h, handle), h)
  {
    hide HandleOk, Seeded, PlanOk, Quiet;
    SetIsQuiet(keys, w, h, Ready(handle, Idle));
  }

  lemma StutterIsQuiet(keys: AuthorityKeys, w: World, h: nat)
    requires Inv(keys, w)
    ensures Quiet(keys, w, w, h)
  {
    hide Sequential, StoreAgrees, InvitationsOk, ReturnedOk, SessionOk;
  }

  lemma SessionIsOk(keys: AuthorityKeys, w: World, h: nat)
    requires Inv(keys, w) && h in w.sessions
    ensures SessionOk(keys, w.store, w.log, w.sessions[h])
  {
    hide Sequential, StoreAgrees, InvitationsOk, ReturnedOk, SessionOk;
  }

  /** What is known of a ready session. */
  lemma ReadySession(keys: AuthorityKeys, w: World, h: nat)
    requires Inv(keys, w) && h in w.sessions && w.sessions[h].Ready?
    ensures Seeded(w.store, w.log) && HandleOk(w.log, w.sessions[h].handle)
    ensures ActivityOk(keys, w.store, w.log, w.sessions[h].handle, w.sessions[h].activity)
  {
    hide Inv, ActivityOk;
    SessionIsOk(keys, w, h);
  }

  lemma StoreIsRight(keys: AuthorityKeys, w: World)
    requires Inv(keys, w)
    ensures |w.log| > 0 && Linked(w.log) && StoreAgrees(w.store, w.log)
  {
    hide Sequential, SessionsOk;
    SequentialIsLinked(keys, w.log);
  }

  lemma OpenEnvelopeIsQuiet(keys: AuthorityKeys, w: World, h: nat)
    requires Inv(keys, w)
    ensures Quiet(keys, w, StepOpenEnvelope(w, h), h)
  {
    hide Inv, Quiet, PlanOk, Carries;
    if h in w.sessions || EnvelopeKey !in w.store.records {
      StutterIsQuiet(keys, w, h);
    } else {
      StoreIsRight(keys, w);
      assert InLog(w.log, w.log[|w.log| - 1].envelope, w.log[|w.log| - 1].config);
      SetIsQuiet(keys, w, h, OpeningEnvelope(w.store.records[EnvelopeKey]));
    }
  }

  /** Opening can only read back what the envelope carries. */
  lemma OpenChecksCarried(keys: AuthorityKeys, e: Envelope, c: Config, head: Head, now: u64)
    requires Carries(e, c) && OpenChecks(keys, e, head, now).Ok?
    ensures OpenChecks(keys, e, head, now) == Ok(Opened(c, HeadOf(e)))
  {
    hide ValidAt, VerifyAdmin;
  }

  lemma OpenHeadIsQuiet(keys: AuthorityKeys, w: World, h: nat, now: u64)
    requires Inv(keys, w)
    ensures Quiet(keys, w, StepOpenHead(keys, w, h, now), h)
  {
    hide Inv, Quiet, PlanOk, OpenChecks, AdminListed, Carries;
    if h !in w.sessions || !w.sessions[h].OpeningEnvelope? {
      StutterIsQuiet(keys, w, h);
    } else {
      SessionIsOk(keys, w, h);
      StoreIsRight(keys, w);
      CrashIsQuiet(keys, w, h);
      var record, head := w.sessions[h].record, w.store.records[HeadKey];
      var e := record.value.envelope;
      var c :| InLog(w.log, e, c);
      if OpenChecks(keys, e, head.value.head, now).Ok? {
        OpenChecksCarried(keys, e, c, head.value.head, now);
        var handle := Handle(c, HeadOf(e), record.version, head.version);
        SetIsQuiet(keys, w, h, OpeningHistory(handle, e, AdminListed(keys, c, now)));
      }
    }
  }

  lemma OpeningIsHandle(log: seq<Entry>, e: Envelope, handle: Handle)
    requires InLog(log, e, handle.config) && handle.head == HeadOf(e)
    ensures HandleOk(log, handle)
  {
    var i :| 0 <= i < |log| && log[i].envelope == e && log[i].config == handle.config;
  }

  /** One history record present means every committed revision has its own. */
  lemma HistorySeeds(store: Records, log: seq<Entry>, r: u64)
    requires StoreAgrees(store, log) && HistoryKey(r) in store.records
    ensures Seeded(store, log)
  {
    hide VersionsBelow;
    if |log| == 1 {
      assert r == FirstRevision(log);
    }
  }

  lemma OpenHistoryIsQuiet(keys: AuthorityKeys, w: World, h: nat)
    requires Inv(keys, w)
    ensures Quiet(keys, w, StepOpenHistory(w, h), h)
  {
    hide Inv, Quiet, PlanOk, Carries, Linked, StoreAgrees, Seeded;
    if h !in w.sessions || !w.sessions[h].OpeningHistory? {
      StutterIsQuiet(keys, w, h);
    } else {
      SessionIsOk(keys, w, h);
      StoreIsRight(keys, w);
      CrashIsQuiet(keys, w, h);
      var s := w.sessions[h];
      if HistoryKey(s.handle.head.revision) in w.store.records {
        HistorySeeds(w.store, w.log, s.handle.head.revision);
        OpeningIsHandle(w.log, s.envelope, s.handle);
        RestIsQuiet(keys, w, h, s.handle);
      } else {
        SetIsQuiet(keys, w, h, Migrating(s.handle, s.envelope, s.adminListed));
      }
    }
  }

  lemma PreparedNames(keys: AuthorityKeys, c: Config, head: Head, op: Operation, now: u64, choices: SealChoices)
    requires Prepare(keys, c, head, op, now, choices).Ok?
    ensures var plan := Prepare(keys, c, head, op, now, choices).value;
            plan.op == op && plan.now == now && plan.choices == choices
  {
    hide DraftOf, SealNext, OpenNext;
  }

  lemma SealIsQuiet(keys: AuthorityKeys, w: World, h: nat, op: Operation, now: u64, choices: SealChoices)
    requires Inv(keys, w)
    ensures Quiet(keys, w, StepSeal(keys, w, h, op, now, choices), h)
  {
    hide Inv, Quiet, Prepare, HandleOk, Seeded;
    StutterIsQuiet(keys, w, h);
    var handle := IdleAt(w, h);
    if handle.Some? && !op.Redeem? {
      ReadySession(keys, w, h);
      var plan := Prepare(keys, handle.value.config, handle.value.head, op, now, choices);
      if plan.Ok? {
        PreparedNames(keys, handle.value.config, handle.value.head, op, now, choices);
        SetIsQuiet(keys, w, h, Ready(handle.value, Sealed(plan.value, None)));
      }
    }
  }

  lemma SealRedemptionIsQuiet(keys: AuthorityKeys, w: World, h: nat, choices: SealChoices)
    requires Inv(keys, w)
    ensures Quiet(keys, w, StepSealRedemption(keys, w, h, choices), h)
  {
    hide Inv, Quiet, Prepare, HandleOk, Seeded, Remembers;
    if h !in w.sessions || !w.sessions[h].Ready? || !w.sessions[h].activity.InvitationRead? {
      StutterIsQuiet(keys, w, h);
    } else {
      ReadySession(keys, w, h);
      var handle, a := w.sessions[h].handle, w.sessions[h].activity;
      RestIsQuiet(keys, w, h, handle);
      var plan := Prepare(keys, handle.config, handle.head, a.op, a.now, choices);
      if plan.Ok? {
        PreparedNames(keys, handle.config, handle.head, a.op, a.now, choices);
        SetIsQuiet(keys, w, h, Ready(handle, Sealed(plan.value, Some(a.record.version))));
      }
    }
  }

  lemma ReadBackEnvelopeIsQuiet(keys: AuthorityKeys, w: World, h: nat)
    requires Inv(keys, w)
    ensures Quiet(keys, w, StepReadBackEnvelope(w, h), h)
  {
    hide Inv, Quiet, PlanOk, HandleOk, Seeded, Remembers, PlanCommitted;
    if h !in w.sessions || !w.sessions[h].Ready? || !w.sessions[h].activity.Committed? {
      StutterIsQuiet(keys, w, h);
    } else {
      ReadySession(keys, w, h);
      var handle, plan := w.sessions[h].handle, w.sessions[h].activity.plan;
      RestIsQuiet(keys, w, h, handle);
      if EnvelopeKey in w.store.records {
        SetIsQuiet(keys, w, h, Ready(handle, EnvelopeReadBack(plan, w.store.records[EnvelopeKey])));
      }
    }
  }

  lemma ReadTicketIsQuiet(keys: AuthorityKeys, w: World, h: nat)
    requires Inv(keys, w)
    ensures Quiet(keys, w, StepReadTicket(w, h), h)
  {
    hide Inv, Quiet, ActivityOk;
    if h !in w.sessions || !w.sessions[h].Ready? || !w.sessions[h].activity.Admitted? {
      StutterIsQuiet(keys, w, h);
    } else {
      ReadySession(keys, w, h);
      RestIsQuiet(keys, w, h, w.sessions[h].handle);
    }
  }

  /** A record just read is remembered rightly. */
  lemma ReadIsRemembered(keys: AuthorityKeys, w: World, k: Key)
    requires Inv(keys, w) && k in w.store.records
    ensures Remembers(w.store, k, w.store.records[k])
  {
    hide Sequential, SessionsOk, InvitationsOk, ReturnedOk;
  }

  lemma InvitationIsOk(keys: AuthorityKeys, w: World, id: nat)
    requires Inv(keys, w)
    ensures InvitationOk(keys, w.store, w.log, w.issued, id)
  {
    hide Sequential, StoreAgrees, SessionsOk, ReturnedOk, InvitationOk;
  }

  lemma ReadForRevocationIsQuiet(keys: AuthorityKeys, w: World, h: nat, id: nat)
    requires Inv(keys, w)
    ensures Quiet(keys, w, StepReadForRevocation(w, h, id), h)
  {
    hide Inv, Quiet, PlanOk, HandleOk, Seeded, Remembers;
    StutterIsQuiet(keys, w, h);
    var handle := IdleAt(w, h);
    if handle.Some? && InvitationKey(id) in w.store.records {
      ReadySession(keys, w, h);
      InvitationIsOk(keys, w, id);
      ReadIsRemembered(keys, w, InvitationKey(id));
      var record := w.store.records[InvitationKey(id)];
      if !record.value.ConsumedValue? {
        SetIsQuiet(keys, w, h, Ready(handle.value, RevocationRead(id, record)));
      }
    }
  }

  // ---- steps that return a ticket ----

  lemma ReturnStep(keys: AuthorityKeys, w: World, v: World, h: nat, id: nat, request: PreparedJoin, ticket: Ticket)
    requires Inv(keys, w) && Quiet(keys, w, v, h) && ConsumedBy(w.store, id, request, ticket)
    ensures Inv(keys, v.(returned := w.returned + [Returned(id, ticket)])) && Grows(w.store, w.log, v.store, v.log)
  {
    hide SessionsOk, Quiet, Sequential, StoreAgrees, InvitationsOk, Grows;
    assert v.returned == w.returned && v.store == w.store by {
      QuietRecords(keys, w, v, h);
    }
    QuietStep(keys, w, v, h);
  }

  lemma QuietRecords(keys: AuthorityKeys, w: World, v: World, h: nat)
    requires Quiet(keys, w, v, h)
    ensures v.store == w.store && v.log == w.log && v.issued == w.issued && v.returned == w.returned
  {
    hide SessionOk;
  }

  lemma ReadInvitationKeeps(keys: AuthorityKeys, w: World, h: nat, op: Operation, now: u64)
    requires Inv(keys, w)
    ensures Keeps(keys, w, StepReadInvitation(keys, w, h, op, now))
  {
    hide Inv, Grows, Quiet, PlanOk, HandleOk, Seeded, Remembers, RedeemChecks;
    StutterIsQuiet(keys, w, h);
    QuietStep(keys, w, w, h);
    var handle := IdleAt(w, h);
    if handle.Some? && op.Redeem? && InvitationKey(op.invitation.body.id) in w.store.records {
      ReadySession(keys, w, h);
      var id := op.invitation.body.id;
      var record := w.store.records[InvitationKey(id)];
      if record.value.ConsumedValue? {
        ReturnStep(keys, w, w, h, id, record.value.request, record.value.ticket);
      } else if record.value == InvitationValue(op.invitation) {
        ReadIsRemembered(keys, w, InvitationKey(id));
        var s := Ready(handle.value, InvitationRead(record, op, now));
        SetIsQuiet(keys, w, h, s);
        QuietStep(keys, w, SetSession(w, h, s), h);
      }
    }
  }

  ghost predicate Keeps(keys: AuthorityKeys, w: World, v: World) {
    Inv(keys, v) && Grows(w.store, w.log, v.store, v.log)
  }

  lemma CommittedIsHandle(keys: AuthorityKeys, store: Records, log: seq<Entry>, plan: Plan, handle: Handle)
    requires PlanCommitted(keys, store, log, plan) && handle.config == plan.config && handle.head == plan.head
    ensures HandleOk(log, handle)
  {
    hide PlanFrom;
    var i :| PlanAt(keys, log, i, plan);
    assert log[i].envelope == plan.envelope;
  }

  lemma ReadBackHeadKeeps(keys: AuthorityKeys, w: World, h: nat)
    requires Inv(keys, w)
    ensures Keeps(keys, w, StepReadBackHead(keys, w, h))
  {
    hide Inv, Grows, Quiet, PlanOk, HandleOk, PlanInLog, Seeded, Remembers, TicketOf;
    StutterIsQuiet(keys, w, h);
    QuietStep(keys, w, w, h);
    if h in w.sessions && w.sessions[h].Ready? && w.sessions[h].activity.EnvelopeReadBack? {
      ReadySession(keys, w, h);
      var handle, plan, envelope := w.sessions[h].handle, w.sessions[h].activity.plan, w.sessions[h].activity.record;
      RestIsQuiet(keys, w, h, handle);
      QuietStep(keys, w, Rest(w, h, handle), h);
      if HeadKey in w.store.records {
        var updated := Handle(plan.config, plan.head, envelope.version, w.store.records[HeadKey].version);
        CommittedIsHandle(keys, w.store, w.log, plan, updated);
        RestIsQuiet(keys, w, h, updated);
        QuietStep(keys, w, Rest(w, h, updated), h);
        if plan.op.Redeem? {
          ReturnStep(keys, w, Rest(w, h, updated), h, plan.op.invitation.body.id, plan.op.prepared, TicketOf(keys, plan).value);
        } else {
          SetIsQuiet(keys, w, h, Ready(updated, Admitted(plan)));
          QuietStep(keys, w, SetSession(w, h, Ready(updated, Admitted(plan))), h);
        }
      }
    }
  }

  // ---- steps that write ----

  lemma CommitKeepsMemory(s: Records, ops: seq<Op<Key, Value>>, k: Key, record: Record<Value>)
    requires DistinctKeys(ops) && Commit(s, ops).Ok? && Remembers(s, k, record)
    ensures Remembers(Commit(s, ops).value, k, record)
  {
    hide Commit;
    CommitEffect(s, ops);
    if !Untouched(ops, k) {
      var i :| 0 <= i < |ops| && ops[i].key == k;
    }
  }

  /** No consumed invitation record is written. */
  predicate SparesConsumed(s: Records, ops: seq<Op<Key, Value>>) {
    forall i :: 0 <= i < |ops| && ops[i].key.InvitationKey? ==> !IsConsumed(s, ops[i].key.id)
  }

  lemma CommitKeepsConsumed(s: Records, ops: seq<Op<Key, Value>>, id: nat)
    requires DistinctKeys(ops) && Commit(s, ops).Ok? && SparesConsumed(s, ops) && IsConsumed(s, id)
    ensures InvitationKey(id) in Commit(s, ops).value.records
    ensures Commit(s, ops).value.records[InvitationKey(id)] == s.records[InvitationKey(id)]
  {
    hide Commit;
    CommitEffect(s, ops);
    assert Untouched(ops, InvitationKey(id));
  }

  lemma CommitGrows(s: Records, ops: seq<Op<Key, Value>>, log: seq<Entry>, log': seq<Entry>)
    requires DistinctKeys(ops) && Commit(s, ops).Ok? && SparesConsumed(s, ops)
    requires log <= log' && (Seeded(s, log) ==> Seeded(Commit(s, ops).value, log'))
    ensures Grows(s, log, Commit(s, ops).value, log')
  {
    hide Commit, Seeded, Remembers;
    var t := Commit(s, ops).value;
    forall k, record | Remembers(s, k, record)
      ensures Remembers(t, k, record)
    {
      CommitKeepsMemory(s, ops, k, record);
    }
    forall id, request, ticket | ConsumedBy(s, id, request, ticket)
      ensures ConsumedBy(t, id, request, ticket)
    {
      CommitKeepsConsumed(s, ops, id);
    }
  }

  lemma CommitVersions(s: Records, ops: seq<Op<Key, Value>>)
    requires DistinctKeys(ops) && Commit(s, ops).Ok? && VersionsBelow(s)
    ensures VersionsBelow(Commit(s, ops).value)
  {
    hide Commit;
    CommitEffect(s, ops);
    var t := Commit(s, ops).value;
    forall k | k in t.records
      ensures t.records[k].version < t.nextRecord
    {
      if !Untouched(ops, k) {
        var i :| 0 <= i < |ops| && ops[i].key == k;
      }
    }
  }

  lemma ReturnedStays(store: Records, log: seq<Entry>, store': Records, log': seq<Entry>, returned: seq<Returned>)
    requires ReturnedOk(store, returned) && Grows(store, log, store', log')
    ensures ReturnedOk(store', returned)
  {
    hide Remembers, Seeded;
    forall k | 0 <= k < |returned|
      ensures IsConsumed(store', returned[k].id) && store'.records[InvitationKey(returned[k].id)].value.ticket == returned[k].ticket
    {
      var value := store.records[InvitationKey(returned[k].id)].value;
      assert ConsumedBy(store, returned[k].id, value.request, value.ticket);
      assert ConsumedBy(store', returned[k].id, value.request, value.ticket);
    }
  }

  /** A step that commits a batch keeps the invariant if the new records agree with the new log. */
  lemma WriteStep(keys: AuthorityKeys, w: World, v: World, h: nat)
    requires Inv(keys, w) && Grows(w.store, w.log, v.store, v.log)
    requires Sequential(keys, v.log) && StoreAgrees(v.store, v.log) && InvitationsOk(keys, v.store, v.log, v.issued)
    requires v.returned == w.returned
    requires forall g :: g in v.sessions && g != h ==> g in w.sessions && v.sessions[g] == w.sessions[g]
    requires h in v.sessions ==> SessionOk(keys, v.store, v.log, v.sessions[h])
    ensures Keeps(keys, w, v)
  {
    hide Sequential, StoreAgrees, InvitationsOk, SessionOk, ReturnedOk, Grows;
    SessionsStayOk(keys, w, v, h);
    ReturnedStays(w.store, w.log, v.store, v.log, w.returned);
  }

  /** Same record under this invitation's key. */
  predicate SameAt(s: Records, t: Records, k: Key) {
    (k in s.records <==> k in t.records) && (k in s.records ==> s.records[k] == t.records[k])
  }

  lemma TicketForGrows(keys: AuthorityKeys, log: seq<Entry>, log': seq<Entry>, i: int, request: PreparedJoin, ticket: Ticket)
    requires log <= log' && TicketFor(keys, log, i, request, ticket)
    ensures TicketFor(keys, log', i, request, ticket)
  {
    hide PlanAt, TicketOf;
    var plan :| PlanAt(keys, log, i, plan) && plan.op.Redeem? && plan.op.prepared == request && TicketOf(keys, plan) == Some(ticket);
    PlanInLogGrows(keys, log, log', i, plan);
  }

  lemma InvitationFrame(keys: AuthorityKeys, s: Records, log: seq<Entry>, issued: set<nat>, id: nat, t: Records, log': seq<Entry>, issued': set<nat>)
    requires InvitationOk(keys, s, log, issued, id) && SameAt(s, t, InvitationKey(id)) && log <= log' && issued <= issued'
    requires forall i :: |log| <= i ==> !RedeemedAt(log', i, id)
    ensures InvitationOk(keys, t, log', issued', id)
  {
    hide PlanAt, TicketOf;
    assert forall i :: 0 <= i < |log| ==> log'[i] == log[i];
    assert forall i :: RedeemedAt(log', i, id) <==> RedeemedAt(log, i, id);
    if IsConsumed(s, id) {
      var value := s.records[InvitationKey(id)].value;
      var i :| RedeemedAt(log, i, id) && TicketFor(keys, log, i, value.request, value.ticket);
      TicketForGrows(keys, log, log', i, value.request, value.ticket);
    }
  }

  lemma MigrateAgrees(s: Records, log: seq<Entry>, e: Envelope, c: Config)
    requires StoreAgrees(s, log) && InLog(log, e, c) && HistoryKey(e.body.revision) !in s.records
    ensures var t := Commit(s, [Put(HistoryKey(e.body.revision), EnvelopeValue(e), Missing)]);
            t.Ok? && StoreAgrees(t.value, log) && Seeded(t.value, log)
  {
    var ops := [Put(HistoryKey(e.body.revision), EnvelopeValue(e), Missing)];
    CommitEffect(s, ops);
    CommitVersions(s, ops);
    assert Untouched(ops, EnvelopeKey) && Untouched(ops, HeadKey);
    assert !Seeded(s, log);
    var t := Commit(s, ops).value;
    forall r: u64 | HistoryKey(r) in t.records
      ensures r == e.body.revision
    {
      if r != e.body.revision {
        assert Untouched(ops, HistoryKey(r));
      }
    }
    assert ops[0].key == HistoryKey(e.body.revision);
  }

  /** A batch of one operation leaves every other key alone. */
  lemma OneOpElsewhere(s: Records, op: Op<Key, Value>, k: Key)
    requires Commit(s, [op]).Ok? && k != op.key
    ensures SameAt(s, Commit(s, [op]).value, k)
  {
    hide Commit;
    CommitEffect(s, [op]);
    assert Untouched([op], k);
  }

  lemma MigrateKeeps(keys: AuthorityKeys, w: World, h: nat)
    requires Inv(keys, w)
    ensures Keeps(keys, w, StepMigrate(w, h))
  {
    hide Sequential, StoreAgrees, SessionOk, SessionsOk, Linked, Grows, Quiet, ReturnedOk, InvitationOk, HandleOk, Commit;
    if h !in w.sessions || !w.sessions[h].Migrating? {
      StutterIsQuiet(keys, w, h);
      QuietStep(keys, w, w, h);
    } else {
      CrashIsQuiet(keys, w, h);
      QuietStep(keys, w, DropSession(w, h), h);
      var s := w.sessions[h];
      var op := Put(HistoryKey(s.handle.head.revision), EnvelopeValue(s.envelope), Missing);
      if Commit(w.store, [op]).Ok? {
        var v := StepMigrate(w, h);
        MigratingFacts(keys, w, h);
        CommitHolds(w.store, [op], 0);
        MigrateAgrees(w.store, w.log, s.envelope, s.handle.config);
        CommitGrows(w.store, [op], w.log, w.log);
        forall id
          ensures InvitationOk(keys, v.store, w.log, w.issued, id)
        {
          OneOpElsewhere(w.store, op, InvitationKey(id));
          InvitationFrame(keys, w.store, w.log, w.issued, id, v.store, w.log, w.issued);
        }
        OpeningIsHandle(w.log, s.envelope, s.handle);
        IdleOk(keys, v.store, w.log, s.handle);
        WriteStep(keys, w, v, h);
      }
    }
  }

  lemma MigratingFacts(keys: AuthorityKeys, w: World, h: nat)
    requires Inv(keys, w) && h in w.sessions && w.sessions[h].Migrating?
    ensures var s := w.sessions[h]; InLog(w.log, s.envelope, s.handle.config) && s.handle.head == HeadOf(s.envelope)
    ensures StoreAgrees(w.store, w.log)
  {
    hide Inv, Linked;
    SessionIsOk(keys, w, h);
    StoreIsRight(keys, w);
  }

  lemma IdleOk(keys: AuthorityKeys, store: Records, log: seq<Entry>, handle: Handle)
    requires Seeded(store, log) && HandleOk(log, handle)
    ensures SessionOk(keys, store, log, Ready(handle, Idle))
  {
    hide Seeded, HandleOk, PlanOk;
  }

  lemma InvitationOpHistory(s: Records, log: seq<Entry>, op: Op<Key, Value>)
    requires |log| > 0 && HistoryTrue(s, log) && Commit(s, [op]).Ok? && op.key.InvitationKey?
    ensures HistoryTrue(Commit(s, [op]).value, log)
    ensures Seeded(s, log) ==> Seeded(Commit(s, [op]).value, log)
  {
    hide Commit;
    forall r: u64
      ensures SameAt(s, Commit(s, [op]).value, HistoryKey(r))
    {
      OneOpElsewhere(s, op, HistoryKey(r));
    }
  }

  /** Writing or deleting one invitation record touches neither the revisions nor their history. */
  lemma InvitationOpAgrees(s: Records, log: seq<Entry>, op: Op<Key, Value>)
    requires StoreAgrees(s, log) && Commit(s, [op]).Ok? && op.key.InvitationKey?
    ensures StoreAgrees(Commit(s, [op]).value, log)
    ensures Seeded(s, log) ==> Seeded(Commit(s, [op]).value, log)
  {
    hide Commit, VersionsBelow, HistoryTrue, Seeded;
    CommitVersions(s, [op]);
    OneOpElsewhere(s, op, EnvelopeKey);
    OneOpElsewhere(s, op, HeadKey);
    InvitationOpHistory(s, log, op);
  }

  /** A step that writes or deletes one unconsumed invitation record. */
  lemma InvitationWrite(keys: AuthorityKeys, w: World, v: World, h: nat, op: Op<Key, Value>)
    requires Inv(keys, w) && op.key.InvitationKey? && !IsConsumed(w.store, op.key.id)
    requires Commit(w.store, [op]) == Ok(v.store) && v.log == w.log && v.returned == w.returned && w.issued <= v.issued
    requires InvitationOk(keys, v.store, w.log, v.issued, op.key.id)
    requires forall g :: g in v.sessions && g != h ==> g in w.sessions && v.sessions[g] == w.sessions[g]
    requires h in v.sessions ==> SessionOk(keys, v.store, v.log, v.sessions[h])
    ensures Keeps(keys, w, v)
  {
    hide Sequential, StoreAgrees, SessionOk, SessionsOk, Grows, ReturnedOk, InvitationOk, Commit;
    InvitationOpAgrees(w.store, w.log, op);
    CommitGrows(w.store, [op], w.log, w.log);
    forall id
      ensures InvitationOk(keys, v.store, w.log, v.issued, id)
    {
      if id != op.key.id {
        OneOpElsewhere(w.store, op, InvitationKey(id));
        InvitationFrame(keys, w.store, w.log, w.issued, id, v.store, w.log, v.issued);
      }
    }
    WriteStep(keys, w, v, h);
  }

  lemma CreateInvitationKeeps(keys: AuthorityKeys, w: World, s: Step)
    requires Inv(keys, w) && s.CreateInvitation?
    ensures Keeps(keys, w, StepCreateInvitation(keys, w, s))
  {
    hide Inv, Quiet, Grows, SessionOk, MakeInvitation, Commit, HandleOk, ActivityOk, TicketFor;
    StutterIsQuiet(keys, w, s.h);
    QuietStep(keys, w, w, s.h);
    var handle := IdleAt(w, s.h);
    if handle.Some? && s.id !in w.issued {
      var made := MakeInvitation(keys, handle.value, s.id, s.bootstrap, s.app, s.service, s.validFor, s.now);
      if made.Ok? {
        var op := Put(InvitationKey(s.id), InvitationValue(made.value), Missing);
        if Commit(w.store, [op]).Ok? {
          var v := StepCreateInvitation(keys, w, s);
          InvitationIsOk(keys, w, s.id);
          CommitEffect(w.store, [op]);
          assert [op][0] == op;
          assert InvitationOk(keys, v.store, w.log, v.issued, s.id);
          ReadySession(keys, w, s.h);
          InvitationOpSeeds(keys, w, op);
          IdleOk(keys, v.store, w.log, handle.value);
          InvitationWrite(keys, w, v, s.h, op);
        }
      }
    }
  }

  lemma InvitationOpSeeds(keys: AuthorityKeys, w: World, op: Op<Key, Value>)
    requires Inv(keys, w) && Commit(w.store, [op]).Ok? && op.key.InvitationKey? && Seeded(w.store, w.log)
    ensures Seeded(Commit(w.store, [op]).value, w.log)
  {
    hide Inv, Linked, Seeded, StoreAgrees, Commit;
    StoreIsRight(keys, w);
    InvitationOpAgrees(w.store, w.log, op);
  }

  lemma RevokeInvitationKeeps(keys: AuthorityKeys, w: World, h: nat)
    requires Inv(keys, w)
    ensures Keeps(keys, w, StepRevokeInvitation(w, h))
  {
    hide Inv, Quiet, Grows, SessionOk, Commit, HandleOk, PlanOk, TicketFor, PlanCommitted;
    if h !in w.sessions || !w.sessions[h].Ready? || !w.sessions[h].activity.RevocationRead? {
      StutterIsQuiet(keys, w, h);
      QuietStep(keys, w, w, h);
    } else {
      ReadySession(keys, w, h);
      var handle, a := w.sessions[h].handle, w.sessions[h].activity;
      RestIsQuiet(keys, w, h, handle);
      QuietStep(keys, w, Rest(w, h, handle), h);
      var op := Delete(InvitationKey(a.id), Exact(a.record.version));
      if Commit(w.store, [op]).Ok? {
        var v := StepRevokeInvitation(w, h);
        CommitHolds(w.store, [op], 0);
        InvitationIsOk(keys, w, a.id);
        CommitEffect(w.store, [op]);
        assert [op][0] == op;
        assert InvitationOk(keys, v.store, w.log, v.issued, a.id);
        InvitationOpSeeds(keys, w, op);
        IdleOk(keys, v.store, w.log, handle);
        InvitationWrite(keys, w, v, h, op);
      }
    }
  }

  // ---- the step that commits a revision ----

  /** A prepared plan extends the revision it was prepared from. */
  lemma PlanSucceeds(keys: AuthorityKeys, a: Entry, handle: Handle, plan: Plan)
    requires PlanOk(keys, handle, plan) && handle.config == a.config && handle.head == HeadOf(a.envelope)
    ensures Succeeds(keys, a, EntryOf(plan)) && plan.head == HeadOf(plan.envelope)
    ensures plan.head.revision == a.envelope.body.revision + 1
  {
    hide Prepare;
    PreparedPlan(keys, a.config, HeadOf(a.envelope), plan.op, plan.now, plan.choices, plan);
  }

  lemma RedeemDraftTicket(keys: AuthorityKeys, c: Config, head: Head, op: Operation, now: u64)
    requires op.Redeem? && RedeemDraft(keys, c, head, op, now).Ok?
    ensures RedeemDraft(keys, c, head, op, now).value.ticket.Some?
  {
    hide NextSerial, EnsureJoinUnique, RedeemChecks, NextEpoch, VerifyEndpoint;
  }

  lemma RedeemPlanTicket(keys: AuthorityKeys, handle: Handle, plan: Plan)
    requires PlanOk(keys, handle, plan) && plan.op.Redeem?
    ensures TicketOf(keys, plan).Some? && TicketOf(keys, plan).value.body.embedded == plan.envelope
  {
    hide Prepare, RedeemDraft;
    PreparedPlan(keys, handle.config, handle.head, plan.op, plan.now, plan.choices, plan);
    RedeemDraftTicket(keys, handle.config, handle.head, plan.op, plan.now);
  }

  lemma BatchKeysDistinct(keys: AuthorityKeys, handle: Handle, plan: Plan, version: Option<nat>)
    ensures DistinctKeys(PlanBatch(keys, handle, plan, version))
  {
    hide TicketOf;
  }

  lemma LaterHistory(s: Records, log: seq<Entry>, i: nat, r: u64)
    requires Linked(log) && Seeded(s, log) && i + 1 < |log| && r == log[i].envelope.body.revision + 1
    ensures HistoryKey(r) in s.records
  {
    hide Carries;
    assert log[i + 1].envelope.body.revision == r;
  }

  /** The commit succeeds only from the end of the log: any later revision would have claimed the
      history key the batch insists on finding free. */
  lemma CommitsAtEnd(keys: AuthorityKeys, s: Records, log: seq<Entry>, handle: Handle, plan: Plan, version: Option<nat>)
    requires Linked(log) && Seeded(s, log) && HandleOk(log, handle) && PlanOk(keys, handle, plan)
    requires Commit(s, PlanBatch(keys, handle, plan, version)).Ok?
    ensures Succeeds(keys, log[|log| - 1], EntryOf(plan))
    ensures PlanFrom(keys, log[|log| - 1], plan)
    ensures plan.head == HeadOf(plan.envelope) && plan.head.revision == FirstRevision(log) + |log|
  {
    hide Prepare, Succeeds, Carries, ConsumeOp;
    var i :| 0 <= i < |log| && HeadOf(log[i].envelope) == handle.head && log[i].config == handle.config;
    PlanSucceeds(keys, log[i], handle, plan);
    var ops := PlanBatch(keys, handle, plan, version);
    assert ops[2] == RevisionBatch(handle, plan)[2];
    assert Holds(s.records, ops[2]);
    if i + 1 < |log| {
      LaterHistory(s, log, i, plan.head.revision);
      assert false;
    }
  }

  lemma SequentialExtends(keys: AuthorityKeys, log: seq<Entry>, e: Entry)
    requires Sequential(keys, log) && Succeeds(keys, log[|log| - 1], e)
    ensures Sequential(keys, log + [e])
  {
    hide Succeeds, StartOk;
    var log' := log + [e];
    forall i | 0 < i < |log'|
      ensures Succeeds(keys, log'[i - 1], log'[i])
    {
    }
  }

  lemma BatchHistory(keys: AuthorityKeys, handle: Handle, plan: Plan, version: Option<nat>, r: u64)
    requires r != plan.head.revision
    ensures Untouched(PlanBatch(keys, handle, plan, version), HistoryKey(r))
  {
    hide TicketOf;
  }

  /** After the batch every history record still tells the truth. */
  lemma CommitHistoryTrue(keys: AuthorityKeys, s: Records, log: seq<Entry>, handle: Handle, plan: Plan, version: Option<nat>)
    requires |log| > 0 && HistoryTrue(s, log) && Commit(s, PlanBatch(keys, handle, plan, version)).Ok?
    requires plan.head.revision == FirstRevision(log) + |log|
    ensures HistoryTrue(Commit(s, PlanBatch(keys, handle, plan, version)).value, log + [EntryOf(plan)])
  {
    hide Commit, PlanBatch;
    var t, log' := Commit(s, PlanBatch(keys, handle, plan, version)).value, log + [EntryOf(plan)];
    CommitRevision(keys, s, handle, plan, version);
    assert log'[|log|].envelope == plan.envelope;
    forall r: u64 | HistoryKey(r) in t.records
      ensures FirstRevision(log) <= r < FirstRevision(log) + |log'|
      ensures t.records[HistoryKey(r)].value == EnvelopeValue(log'[r - FirstRevision(log)].envelope)
    {
      if r != plan.head.revision {
        CommitElsewhere(keys, s, handle, plan, version, r);
        assert log'[r - FirstRevision(log)] == log[r - FirstRevision(log)];
      }
    }
  }

  /** After the batch no history record is missing. */
  lemma CommitSeeds(keys: AuthorityKeys, s: Records, log: seq<Entry>, handle: Handle, plan: Plan, version: Option<nat>)
    requires Linked(log) && Seeded(s, log) && Commit(s, PlanBatch(keys, handle, plan, version)).Ok?
    requires plan.head == HeadOf(plan.envelope) && plan.head.revision == FirstRevision(log) + |log|
    ensures Seeded(Commit(s, PlanBatch(keys, handle, plan, version)).value, log + [EntryOf(plan)])
  {
    hide Commit, PlanBatch, Carries;
    var t, log' := Commit(s, PlanBatch(keys, handle, plan, version)).value, log + [EntryOf(plan)];
    CommitRevision(keys, s, handle, plan, version);
    forall i | 0 <= i < |log'|
      ensures HistoryKey(log'[i].envelope.body.revision) in t.records
    {
      if i < |log| {
        CommitElsewhere(keys, s, handle, plan, version, log[i].envelope.body.revision);
      }
    }
  }

  lemma CommitElsewhere(keys: AuthorityKeys, s: Records, handle: Handle, plan: Plan, version: Option<nat>, r: u64)
    requires Commit(s, PlanBatch(keys, handle, plan, version)).Ok? && r != plan.head.revision
    ensures SameAt(s, Commit(s, PlanBatch(keys, handle, plan, version)).value, HistoryKey(r))
  {
    hide Commit, PlanBatch;
    BatchKeysDistinct(keys, handle, plan, version);
    BatchHistory(keys, handle, plan, version, r);
    CommitEffect(s, PlanBatch(keys, handle, plan, version));
  }

  /** The three records every revision writes. */
  lemma CommitRevision(keys: AuthorityKeys, s: Records, handle: Handle, plan: Plan, version: Option<nat>)
    requires Commit(s, PlanBatch(keys, handle, plan, version)).Ok?
    ensures var t := Commit(s, PlanBatch(keys, handle, plan, version)).value;
            && EnvelopeKey in t.records && t.records[EnvelopeKey].value == EnvelopeValue(plan.envelope)
            && HeadKey in t.records && t.records[HeadKey].value == HeadValue(plan.head)
            && HistoryKey(plan.head.revision) in t.records && t.records[HistoryKey(plan.head.revision)].value == EnvelopeValue(plan.envelope)
  {
    hide Commit, ConsumeOp;
    var ops := PlanBatch(keys, handle, plan, version);
    BatchKeysDistinct(keys, handle, plan, version);
    CommitEffect(s, ops);
    assert ops[0] == RevisionBatch(handle, plan)[0];
    assert ops[1] == RevisionBatch(handle, plan)[1];
    assert ops[2] == RevisionBatch(handle, plan)[2];
  }

  /** After the batch the records show the new end of the log. */
  lemma CommitAgrees(keys: AuthorityKeys, s: Records, log: seq<Entry>, handle: Handle, plan: Plan, version: Option<nat>)
    requires Linked(log) && StoreAgrees(s, log) && Seeded(s, log)
    requires Commit(s, PlanBatch(keys, handle, plan, version)).Ok?
    requires plan.head == HeadOf(plan.envelope) && plan.head.revision == FirstRevision(log) + |log|
    ensures var t, log' := Commit(s, PlanBatch(keys, handle, plan, version)).value, log + [EntryOf(plan)];
            StoreAgrees(t, log') && Seeded(t, log')
  {
    hide Commit, Carries, PlanBatch, HistoryTrue, VersionsBelow, Seeded;
    var ops := PlanBatch(keys, handle, plan, version);
    BatchKeysDistinct(keys, handle, plan, version);
    CommitVersions(s, ops);
    CommitRevision(keys, s, handle, plan, version);
    CommitHistoryTrue(keys, s, log, handle, plan, version);
    CommitSeeds(keys, s, log, handle, plan, version);
  }

  predicate RedeemsId(plan: Plan, id: nat) {
    plan.op.Redeem? && plan.op.invitation.body.id == id
  }

  lemma BatchInvitation(keys: AuthorityKeys, handle: Handle, plan: Plan, version: Option<nat>, id: nat)
    requires !RedeemsId(plan, id)
    ensures Untouched(PlanBatch(keys, handle, plan, version), InvitationKey(id))
  {
    hide TicketOf;
  }

  /** The redemption found its invitation unconsumed, and leaves the consumed record behind. */
  lemma RedemptionConsumes(keys: AuthorityKeys, s: Records, handle: Handle, plan: Plan, version: nat)
    requires PlanOk(keys, handle, plan) && plan.op.Redeem? && Commit(s, PlanBatch(keys, handle, plan, Some(version))).Ok?
    requires Remembers(s, InvitationKey(plan.op.invitation.body.id), Record(version, InvitationValue(plan.op.invitation)))
    ensures TicketOf(keys, plan).Some?
    ensures InvitationKey(plan.op.invitation.body.id) in s.records && !IsConsumed(s, plan.op.invitation.body.id)
    ensures ConsumedBy(Commit(s, PlanBatch(keys, handle, plan, Some(version))).value,
                       plan.op.invitation.body.id, plan.op.prepared, TicketOf(keys, plan).value)
  {
    hide PlanOk, TicketOf, Commit;
    RedeemPlanTicket(keys, handle, plan);
    var ops := PlanBatch(keys, handle, plan, Some(version));
    BatchKeysDistinct(keys, handle, plan, Some(version));
    CommitEffect(s, ops);
    CommitHolds(s, ops, 3);
    assert ops[3] == ConsumeOp(keys, plan, version).value;
  }

  lemma CommitInvitation(keys: AuthorityKeys, s: Records, log: seq<Entry>, issued: set<nat>, handle: Handle, plan: Plan, version: Option<nat>, id: nat)
    requires InvitationOk(keys, s, log, issued, id) && PlanOk(keys, handle, plan) && (plan.op.Redeem? <==> version.Some?)
    requires |log| > 0 && PlanFrom(keys, log[|log| - 1], plan)
    requires Commit(s, PlanBatch(keys, handle, plan, version)).Ok?
    requires version.Some? ==> Remembers(s, InvitationKey(plan.op.invitation.body.id), Record(version.value, InvitationValue(plan.op.invitation)))
    ensures InvitationOk(keys, Commit(s, PlanBatch(keys, handle, plan, version)).value, log + [EntryOf(plan)], issued, id)
  {
    hide PlanOk, PlanFrom, Commit, PlanBatch, TicketOf, Remembers;
    var ops, log' := PlanBatch(keys, handle, plan, version), log + [EntryOf(plan)];
    var t := Commit(s, ops).value;
    BatchKeysDistinct(keys, handle, plan, version);
    if RedeemsId(plan, id) {
      RedeemPlanTicket(keys, handle, plan);
      RedemptionConsumes(keys, s, handle, plan, version.value);
      assert log'[|log|] == EntryOf(plan) && log'[|log| - 1] == log[|log| - 1] && RedeemedAt(log', |log|, id);
      assert PlanAt(keys, log', |log|, plan);
      assert forall i :: 0 <= i < |log| ==> log'[i] == log[i];
      assert forall i :: RedeemedAt(log', i, id) ==> i == |log| || RedeemedAt(log, i, id);
    } else {
      BatchInvitation(keys, handle, plan, version, id);
      CommitEffect(s, ops);
      InvitationFrame(keys, s, log, issued, id, t, log', issued);
    }
  }

  lemma BatchSpares(keys: AuthorityKeys, s: Records, handle: Handle, plan: Plan, version: Option<nat>)
    requires plan.op.Redeem? ==> !IsConsumed(s, plan.op.invitation.body.id)
    ensures SparesConsumed(s, PlanBatch(keys, handle, plan, version))
  {
    hide TicketOf, IsConsumed;
  }

  lemma CommitKeeps(keys: AuthorityKeys, w: World, h: nat)
    requires Inv(keys, w)
    ensures Keeps(keys, w, StepCommit(keys, w, h))
  {
    hide Inv, Quiet, Grows, SessionOk, Commit, PlanBatch, HandleOk, PlanOk, PlanFrom, Sequential, StoreAgrees, Linked, Seeded, InvitationOk, TicketOf, Remembers, Succeeds;
    if h !in w.sessions || !w.sessions[h].Ready? || !w.sessions[h].activity.Sealed? {
      StutterIsQuiet(keys, w, h);
      QuietStep(keys, w, w, h);
    } else {
      ReadySession(keys, w, h);
      var handle, a := w.sessions[h].handle, w.sessions[h].activity;
      var plan, version := a.plan, a.invitationVersion;
      RestIsQuiet(keys, w, h, handle);
      QuietStep(keys, w, Rest(w, h, handle), h);
      var ops := PlanBatch(keys, handle, plan, version);
      if Commit(w.store, ops).Ok? {
        var v := StepCommit(keys, w, h);
        StoreIsRight(keys, w);
        CommitsAtEnd(keys, w.store, w.log, handle, plan, version);
        LogExtends(keys, w, plan);
        CommitAgrees(keys, w.store, w.log, handle, plan, version);
        if plan.op.Redeem? {
          RedemptionConsumes(keys, w.store, handle, plan, version.value);
        }
        BatchSpares(keys, w.store, handle, plan, version);
        BatchKeysDistinct(keys, handle, plan, version);
        CommitGrows(w.store, ops, w.log, v.log);
        forall id
          ensures InvitationOk(keys, v.store, v.log, v.issued, id)
        {
          InvitationIsOk(keys, w, id);
          CommitInvitation(keys, w.store, w.log, w.issued, handle, plan, version, id);
        }
        HandleGrows(w.log, v.log, handle);
        CommittedOk(keys, v.store, v.log, handle, plan);
        WriteStep(keys, w, v, h);
      }
    }
  }

  lemma LogExtends(keys: AuthorityKeys, w: World, plan: Plan)
    requires Inv(keys, w) && |w.log| > 0 && Succeeds(keys, w.log[|w.log| - 1], EntryOf(plan))
    ensures Sequential(keys, w.log + [EntryOf(plan)])
  {
    hide Succeeds, StoreAgrees, SessionsOk, InvitationsOk, ReturnedOk, StartOk;
    SequentialExtends(keys, w.log, EntryOf(plan));
  }

  lemma CommittedOk(keys: AuthorityKeys, store: Records, log: seq<Entry>, handle: Handle, plan: Plan)
    requires Seeded(store, log) && HandleOk(log, handle) && PlanAt(keys, log, |log| - 1, plan) && plan.head == HeadOf(plan.envelope)
    requires plan.op.Redeem? ==> TicketOf(keys, plan).Some? && ConsumedBy(store, plan.op.invitation.body.id, plan.op.prepared, TicketOf(keys, plan).value)
    ensures SessionOk(keys, store, log, Ready(handle, Committed(plan)))
  {
    hide Seeded, HandleOk, PlanOk, PlanAt, ConsumedBy, TicketOf;
  }

  // ---- every step, every run ----

  lemma StepKeepsInv(keys: AuthorityKeys, w: World, s: Step)
    requires Inv(keys, w)
    ensures Keeps(keys, w, Do(keys, w, s))
  {
    hide Inv, Quiet, Grows, StepOpenEnvelope, StepOpenHead, StepOpenHistory, StepMigrate, StepSeal, StepReadInvitation, StepSealRedemption,
         StepCommit, StepReadBackEnvelope, StepReadBackHead, StepReadTicket, StepCreateInvitation, StepReadForRevocation, StepRevokeInvitation;
    var v := Do(keys, w, s);
    match s
    case OpenReadEnvelope(h) => OpenEnvelopeIsQuiet(keys, w, h); QuietStep(keys, w, v, h);
    case OpenReadHead(h, now) => OpenHeadIsQuiet(keys, w, h, now); QuietStep(keys, w, v, h);
    case OpenReadHistory(h) => OpenHistoryIsQuiet(keys, w, h); QuietStep(keys, w, v, h);
    case Migrate(h) => MigrateKeeps(keys, w, h);
    case Crash(h) => CrashIsQuiet(keys, w, h); QuietStep(keys, w, v, h);
    case SealOperation(h, op, now, choices) => SealIsQuiet(keys, w, h, op, now, choices); QuietStep(keys, w, v, h);
    case ReadInvitation(h, op, now) => ReadInvitationKeeps(keys, w, h, op, now);
    case SealRedemption(h, choices) => SealRedemptionIsQuiet(keys, w, h, choices); QuietStep(keys, w, v, h);
    case CommitPlan(h) => CommitKeeps(keys, w, h);
    case ReadBackEnvelope(h) => ReadBackEnvelopeIsQuiet(keys, w, h); QuietStep(keys, w, v, h);
    case ReadBackHead(h) => ReadBackHeadKeeps(keys, w, h);
    case ReadTicketEnvelope(h) => ReadTicketIsQuiet(keys, w, h); QuietStep(keys, w, v, h);
    case CreateInvitation(_, _, _, _, _, _, _) => CreateInvitationKeeps(keys, w, s);
    case ReadForRevocation(h, id) => ReadForRevocationIsQuiet(keys, w, h, id); QuietStep(keys, w, v, h);
    case RevokeInvitation(h) => RevokeInvitationKeeps(keys, w, h);
  }
}
