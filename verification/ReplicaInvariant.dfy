/** What every move on a member's store keeps: its records are a contiguous stretch of the
    authority's log, ending at its head. */
module ReplicaInvariant {
  import opened Prelude
  import opened Credentials
  import opened Configs
  import opened SnapshotValidation
  import opened Envelopes
  import opened AuthorityOps
  import opened AuthorityLog
  import opened AuthorityInvariant
  import opened UpdateBatches
  import opened VersionedStore
  import opened Replica
  import opened ReplicaRuns

  // ---- the records ----

  predicate ShowsRevision(root: PublicKey, store: MemberStore, e: Envelope) {
    && ConfigEnvelope in store.records && store.records[ConfigEnvelope].value == EnvelopeBytes(e)
    && ConfigHead in store.records && store.records[ConfigHead].value == HeadBytes(HeadOf(e))
    && ConfigSigner in store.records && store.records[ConfigSigner].value.SignerBytes?
    && SignerFits(root, store.records[ConfigSigner].value.signer, e)
  }

  /** Every history record is the revision of the log it is named after, from `lo` to `n`. */
  ghost predicate HistoryWithin(log: seq<Entry>, lo: nat, n: nat, store: MemberStore)
    requires lo <= n < |log|
  {
    forall r: u64 :: ConfigHistory(r) in store.records ==>
      lo <= r - FirstRevision(log) <= n && store.records[ConfigHistory(r)].value == EnvelopeBytes(log[r - FirstRevision(log)].envelope)
  }

  /** None of those is missing. */
  predicate Complete(log: seq<Entry>, lo: nat, n: nat, store: MemberStore)
    requires lo <= n < |log|
  {
    forall i :: lo <= i <= n ==> ConfigHistory(log[i].envelope.body.revision) in store.records
  }

  ghost predicate RecordsOn(root: PublicKey, log: seq<Entry>, lo: nat, n: nat, store: MemberStore) {
    && lo <= n < |log| && ShowsRevision(root, store, log[n].envelope)
    && HistoryWithin(log, lo, n, store) && (Complete(log, lo, n, store) || lo == n)
  }

  // ---- the handles ----

  /** Revision `i` of the log, between `lo` and `n`. */
  predicate Between(log: seq<Entry>, lo: nat, n: nat, i: int) {
    lo <= i <= n < |log|
  }

  ghost predicate HasEnvelope(log: seq<Entry>, lo: nat, n: nat, e: Envelope) {
    exists i :: Between(log, lo, n, i) && log[i].envelope == e
  }

  ghost predicate HasOpened(log: seq<Entry>, lo: nat, n: nat, e: Envelope, r: Replica) {
    exists i :: Between(log, lo, n, i) && log[i].envelope == e && log[i].config == r.config && HeadOf(e) == r.head
  }

  ghost predicate HasPosition(log: seq<Entry>, lo: nat, n: nat, config: Config, head: Head) {
    exists i :: Between(log, lo, n, i) && log[i].config == config && HeadOf(log[i].envelope) == head
  }

  /** The update leads from revision `i` to a later one. */
  predicate UpdateFrom(root: PublicKey, log: seq<Entry>, i: int, u: Update) {
    && 0 <= i && u.envelopes != [] && IsSlice(log, i, u.envelopes)
    && var end := log[i + |u.envelopes|];
       u.config == end.config && u.head == HeadOf(end.envelope) && u.link.envelope == end.envelope && SignerFits(root, u.link.signer, end.envelope)
  }

  ghost predicate HasUpdate(root: PublicKey, log: seq<Entry>, lo: nat, n: nat, r: Replica, u: Update) {
    exists i :: Between(log, lo, n, i) && log[i].config == r.config && HeadOf(log[i].envelope) == r.head && UpdateFrom(root, log, i, u)
  }

  ghost predicate StageOk(root: PublicKey, log: seq<Entry>, lo: nat, n: nat, store: MemberStore, s: Stage)
    requires lo <= n < |log|
  {
    match s
    case ReadingHead(envelope) => envelope.value.EnvelopeBytes? && HasEnvelope(log, lo, n, envelope.value.envelope)
    case ReadingSigner(envelope, _) => envelope.value.EnvelopeBytes? && HasEnvelope(log, lo, n, envelope.value.envelope)
    case ReadingHistory(r, e) => HasOpened(log, lo, n, e, r)
    case Seeding(r, e) => HasOpened(log, lo, n, e, r)
    case Reseeding(r, e) => HasOpened(log, lo, n, e, r)
    case Holding(r) => Complete(log, lo, n, store) && HasPosition(log, lo, n, r.config, r.head)
    case Writing(r, u) => Complete(log, lo, n, store) && HasUpdate(root, log, lo, n, r, u)
    case Checking(r, u) => CheckingOk(log, lo, n, store, r, u)
    case CheckingHead(r, u, _) => CheckingOk(log, lo, n, store, r, u)
    case CheckingSigner(r, u, _, _) => CheckingOk(log, lo, n, store, r, u)
  }

  ghost predicate CheckingOk(log: seq<Entry>, lo: nat, n: nat, store: MemberStore, r: Replica, u: Update)
    requires lo <= n < |log|
  {
    Complete(log, lo, n, store) && HasPosition(log, lo, n, r.config, r.head) && HasPosition(log, lo, n, u.config, u.head)
  }

  /** The member stands at revision `n` of the log, having joined at `lo`. */
  ghost predicate Stands(root: PublicKey, log: seq<Entry>, lo: nat, n: nat, m: Member) {
    && RecordsOn(root, log, lo, n, m.store)
    && (forall h :: h in m.stages ==> StageOk(root, log, lo, n, m.store, m.stages[h]))
  }

  // ---- later revisions keep what handles know ----

  /** The member may have moved on, and has lost none of its history. */
  ghost predicate Onward(log: seq<Entry>, lo: nat, n: nat, m: Member, n': nat, m': Member) {
    lo <= n <= n' < |log| && (Complete(log, lo, n, m.store) ==> Complete(log, lo, n', m'.store))
  }

  lemma StageStays(root: PublicKey, log: seq<Entry>, lo: nat, n: nat, store: MemberStore, n': nat, store': MemberStore, s: Stage)
    requires lo <= n <= n' < |log| && StageOk(root, log, lo, n, store, s)
    requires Complete(log, lo, n, store) ==> Complete(log, lo, n', store')
    ensures StageOk(root, log, lo, n', store', s)
  {
    hide Complete, SignerFits, IsSlice;
    assert forall i :: Between(log, lo, n, i) ==> Between(log, lo, n', i);
  }

  /** Only handle `h` has moved. */
  lemma OthersStand(root: PublicKey, log: seq<Entry>, lo: nat, n: nat, m: Member, n': nat, m': Member, h: nat)
    requires Stands(root, log, lo, n, m) && n <= n' < |log| && RecordsOn(root, log, lo, n', m'.store)
    requires Complete(log, lo, n, m.store) ==> Complete(log, lo, n', m'.store)
    requires forall g :: g in m'.stages && g != h ==> g in m.stages && m'.stages[g] == m.stages[g]
    requires h in m'.stages ==> StageOk(root, log, lo, n', m'.store, m'.stages[h])
    ensures Stands(root, log, lo, n', m')
  {
    hide Complete, StageOk, ShowsRevision, HistoryWithin;
    forall g | g in m'.stages && g != h
      ensures StageOk(root, log, lo, n', m'.store, m'.stages[g])
    {
      StageStays(root, log, lo, n, m.store, n', m'.store, m.stages[g]);
    }
  }

  /** A handle that comes to rest at a good stage over unchanged records. */
  lemma MovedStands(root: PublicKey, log: seq<Entry>, lo: nat, n: nat, m: Member, h: nat, s: Stage)
    requires Stands(root, log, lo, n, m) && StageOk(root, log, lo, n, m.store, s)
    ensures Stands(root, log, lo, n, At(m, h, s))
  {
    hide Complete, StageOk, ShowsRevision, HistoryWithin;
  }

  lemma GoneStands(root: PublicKey, log: seq<Entry>, lo: nat, n: nat, m: Member, h: nat)
    requires Stands(root, log, lo, n, m)
    ensures Stands(root, log, lo, n, Gone(m, h))
  {
    hide Complete, StageOk, ShowsRevision, HistoryWithin;
  }

  lemma StandsBound(root: PublicKey, log: seq<Entry>, lo: nat, n: nat, m: Member)
    requires Stands(root, log, lo, n, m)
    ensures lo <= n < |log|
  {
    hide StageOk, Complete, ShowsRevision, HistoryWithin;
  }

  lemma StageHere(root: PublicKey, log: seq<Entry>, lo: nat, n: nat, m: Member, h: nat)
    requires Stands(root, log, lo, n, m) && h in m.stages
    ensures lo <= n < |log| && RecordsOn(root, log, lo, n, m.store) && StageOk(root, log, lo, n, m.store, m.stages[h])
  {
    hide StageOk, Complete, ShowsRevision, HistoryWithin;
  }

  // ---- opening ----

  lemma OpenReplicaOnLog(root: PublicKey, log: seq<Entry>, i: nat, key: EncryptionKey, e: Record<Content>, head: Record<Content>, signer: Record<Content>, now: u64)
    requires Linked(log) && i < |log| && e.value == EnvelopeBytes(log[i].envelope) && head.value.HeadBytes? && signer.value.SignerBytes?
    requires OpenReplica(root, key, e, head, signer, now).Ok?
    ensures OpenReplica(root, key, e, head, signer, now) ==
            Ok(Replica(log[i].config, HeadOf(log[i].envelope), e.version, head.version, signer.version))
  {
    hide ValidAt, VerifyAdmin, FindContentKey;
    assert Carries(log[i].envelope, log[i].config);
  }

  lemma ReadSignerStands(root: PublicKey, log: seq<Entry>, lo: nat, n: nat, m: Member, h: nat, key: EncryptionKey, now: u64)
    requires Linked(log) && Stands(root, log, lo, n, m) && h in m.stages && m.stages[h].ReadingSigner?
    ensures Stands(root, log, lo, n, AdvanceOpen(root, key, m, h, now))
  {
    hide Stands, Linked, OpenReplica, Complete, HistoryWithin, SignerFits;
    StageHere(root, log, lo, n, m, h);
    GoneStands(root, log, lo, n, m, h);
    var e, head := m.stages[h].envelopeRecord, m.stages[h].headRecord;
    var signer := m.store.records[ConfigSigner];
    if head.value.HeadBytes? && OpenReplica(root, key, e, head, signer, now).Ok? {
      var i :| Between(log, lo, n, i) && log[i].envelope == e.value.envelope;
      OpenReplicaOnLog(root, log, i, key, e, head, signer, now);
      MovedStands(root, log, lo, n, m, h, ReadingHistory(OpenReplica(root, key, e, head, signer, now).value, e.value.envelope));
    }
  }

  lemma OpenedPosition(log: seq<Entry>, lo: nat, n: nat, e: Envelope, r: Replica)
    requires HasOpened(log, lo, n, e, r)
    ensures HasPosition(log, lo, n, r.config, r.head)
  {
  }

  /** One history record means there are all. */
  lemma HistoryMeansComplete(root: PublicKey, log: seq<Entry>, lo: nat, n: nat, store: MemberStore, r: u64)
    requires Linked(log) && RecordsOn(root, log, lo, n, store) && ConfigHistory(r) in store.records
    ensures Complete(log, lo, n, store)
  {
    hide ShowsRevision, Carries;
    if lo == n {
      assert log[n].envelope.body.revision == r;
    }
  }

  lemma HistoryReadStands(root: PublicKey, log: seq<Entry>, lo: nat, n: nat, m: Member, h: nat, key: EncryptionKey, now: u64)
    requires Linked(log) && Stands(root, log, lo, n, m) && h in m.stages && (m.stages[h].ReadingHistory? || m.stages[h].Reseeding?)
    ensures Stands(root, log, lo, n, AdvanceOpen(root, key, m, h, now))
  {
    hide Stands, Linked, RecordsOn, Complete, HasPosition, HasOpened;
    StageHere(root, log, lo, n, m, h);
    GoneStands(root, log, lo, n, m, h);
    var r, e := m.stages[h].replica, m.stages[h].envelope;
    if ConfigHistory(r.head.revision) in m.store.records {
      HistoryMeansComplete(root, log, lo, n, m.store, r.head.revision);
      OpenedPosition(log, lo, n, e, r);
      MovedStands(root, log, lo, n, m, h, Holding(r));
    } else {
      MovedStands(root, log, lo, n, m, h, Seeding(r, e));
    }
  }

  /** An open handle on a store without history has the joined revision: seeding completes it. */
  lemma SeedRecords(root: PublicKey, log: seq<Entry>, lo: nat, n: nat, store: MemberStore, r: Replica, e: Envelope)
    requires Linked(log) && RecordsOn(root, log, lo, n, store) && HasOpened(log, lo, n, e, r)
    requires Commit(store, [Put(ConfigHistory(r.head.revision), EnvelopeBytes(e), Missing)]).Ok?
    ensures var t := Commit(store, [Put(ConfigHistory(r.head.revision), EnvelopeBytes(e), Missing)]).value;
            RecordsOn(root, log, lo, n, t) && Complete(log, lo, n, t)
  {
    hide Carries, Commit, SignerFits;
    var ops := [Put(ConfigHistory(r.head.revision), EnvelopeBytes(e), Missing)];
    CommitEffect(store, ops);
    CommitHolds(store, ops, 0);
    assert Untouched(ops, ConfigEnvelope) && Untouched(ops, ConfigHead) && Untouched(ops, ConfigSigner);
    assert forall s: u64 :: s != r.head.revision ==> Untouched(ops, ConfigHistory(s));
  }

  lemma SeedingStands(root: PublicKey, log: seq<Entry>, lo: nat, n: nat, m: Member, h: nat, key: EncryptionKey, now: u64)
    requires Linked(log) && Stands(root, log, lo, n, m) && h in m.stages && m.stages[h].Seeding?
    ensures Stands(root, log, lo, n, AdvanceOpen(root, key, m, h, now))
    ensures Onward(log, lo, n, m, n, AdvanceOpen(root, key, m, h, now))
  {
    hide Stands, Linked, RecordsOn, Complete, HasPosition, HasOpened, Commit;
    StageHere(root, log, lo, n, m, h);
    var r, e := m.stages[h].replica, m.stages[h].envelope;
    if Commit(m.store, [Put(ConfigHistory(r.head.revision), EnvelopeBytes(e), Missing)]).Ok? {
      SeedRecords(root, log, lo, n, m.store, r, e);
      OpenedPosition(log, lo, n, e, r);
      OthersStand(root, log, lo, n, m, n, AdvanceOpen(root, key, m, h, now), h);
    } else {
      MovedStands(root, log, lo, n, m, h, Reseeding(r, e));
    }
  }

  lemma OpenStands(root: PublicKey, log: seq<Entry>, lo: nat, n: nat, m: Member, h: nat, key: EncryptionKey, now: u64)
    requires Linked(log) && Stands(root, log, lo, n, m) && h in m.stages
    ensures Stands(root, log, lo, n, AdvanceOpen(root, key, m, h, now))
    ensures Onward(log, lo, n, m, n, AdvanceOpen(root, key, m, h, now))
  {
    hide Stands, Linked, RecordsOn, Complete, HasPosition, HasOpened, HasEnvelope, Commit, OpenReplica;
    StandsBound(root, log, lo, n, m);
    match m.stages[h]
    case ReadingHead(envelope) =>
      StageHere(root, log, lo, n, m, h);
      GoneStands(root, log, lo, n, m, h);
      if ConfigHead in m.store.records {
        MovedStands(root, log, lo, n, m, h, ReadingSigner(envelope, m.store.records[ConfigHead]));
      }
    case ReadingSigner(_, _) => ReadSignerStands(root, log, lo, n, m, h, key, now);
    case ReadingHistory(_, _) => HistoryReadStands(root, log, lo, n, m, h, key, now);
    case Seeding(_, _) => SeedingStands(root, log, lo, n, m, h, key, now);
    case Reseeding(_, _) => HistoryReadStands(root, log, lo, n, m, h, key, now);
    case _ =>
  }

  // ---- applying ----

  lemma {:induction false} SliceRevisions(log: seq<Entry>, i: nat, envelopes: seq<Envelope>)
    requires Linked(log) && IsSlice(log, i, envelopes)
    ensures forall k :: 0 <= k < |envelopes| ==> envelopes[k].body.revision == FirstRevision(log) + i + 1 + k
  {
    hide Carries;
  }

  lemma UpdateKeysDistinct(log: seq<Entry>, i: nat, r: Replica, u: Update)
    requires Linked(log) && IsSlice(log, i, u.envelopes)
    ensures DistinctKeys(UpdateOps(r, u))
  {
    hide Linked;
    SliceRevisions(log, i, u.envelopes);
    var ops, puts := UpdateOps(r, u), HistoryPuts(u.envelopes);
    assert forall k :: 3 <= k < |ops| ==> ops[k] == puts[k - 3];
  }

  lemma NextIsTaken(log: seq<Entry>, lo: nat, n: nat, store: MemberStore, i: nat, envelopes: seq<Envelope>)
    requires Between(log, lo, n, i) && i < n && Complete(log, lo, n, store) && envelopes != [] && IsSlice(log, i, envelopes)
    ensures ConfigHistory(envelopes[0].body.revision) in store.records
  {
    assert ConfigHistory(log[i + 1].envelope.body.revision) in store.records;
  }

  /** The write succeeds only from the newest revision: a later one would hold the first history
      record the batch insists on finding free. */
  lemma WritesAtEnd(log: seq<Entry>, lo: nat, n: nat, store: MemberStore, r: Replica, i: nat, u: Update)
    requires Linked(log) && Between(log, lo, n, i) && Complete(log, lo, n, store)
    requires u.envelopes != [] && IsSlice(log, i, u.envelopes) && Commit(store, UpdateOps(r, u)).Ok?
    ensures i == n
  {
    hide Linked;
    SliceRevisions(log, i, u.envelopes);
    var ops := UpdateOps(r, u);
    assert ops[3] == HistoryPuts(u.envelopes)[0];
    assert Holds(store.records, ops[3]);
    if i < n {
      NextIsTaken(log, lo, n, store, i, u.envelopes);
      assert false;
    }
  }

  lemma WriteShows(root: PublicKey, log: seq<Entry>, n: nat, store: MemberStore, r: Replica, u: Update)
    requires Linked(log) && UpdateFrom(root, log, n, u) && Commit(store, UpdateOps(r, u)).Ok?
    ensures ShowsRevision(root, Commit(store, UpdateOps(r, u)).value, log[n + |u.envelopes|].envelope)
  {
    hide Linked, Commit, SignerFits;
    var ops := UpdateOps(r, u);
    UpdateKeysDistinct(log, n, r, u);
    CommitEffect(store, ops);
    assert ops[0].key == ConfigEnvelope && ops[1].key == ConfigHead && ops[2].key == ConfigSigner;
  }

  /** After the write the history holds the update's envelopes besides what it held before. */
  lemma WriteHistory(log: seq<Entry>, n: nat, store: MemberStore, r: Replica, u: Update, rev: u64)
    requires Linked(log) && n < |log| && IsSlice(log, n, u.envelopes) && Commit(store, UpdateOps(r, u)).Ok?
    ensures var t, k := Commit(store, UpdateOps(r, u)).value, rev - FirstRevision(log) - n - 1;
            if 0 <= k < |u.envelopes| then
              ConfigHistory(rev) in t.records && t.records[ConfigHistory(rev)].value == EnvelopeBytes(u.envelopes[k])
            else
              && (ConfigHistory(rev) in t.records <==> ConfigHistory(rev) in store.records)
              && (ConfigHistory(rev) in store.records ==> t.records[ConfigHistory(rev)] == store.records[ConfigHistory(rev)])
  {
    hide Linked, Commit;
    var ops, puts := UpdateOps(r, u), HistoryPuts(u.envelopes);
    UpdateKeysDistinct(log, n, r, u);
    SliceRevisions(log, n, u.envelopes);
    CommitEffect(store, ops);
    var k := rev - FirstRevision(log) - n - 1;
    if 0 <= k < |u.envelopes| {
      assert ops[3 + k] == puts[k];
    } else {
      assert forall j :: 3 <= j < |ops| ==> ops[j] == puts[j - 3];
      assert Untouched(ops, ConfigHistory(rev));
    }
  }

  lemma WriteWithin(log: seq<Entry>, lo: nat, n: nat, store: MemberStore, r: Replica, u: Update)
    requires Linked(log) && lo <= n < |log| && HistoryWithin(log, lo, n, store) && IsSlice(log, n, u.envelopes) && Commit(store, UpdateOps(r, u)).Ok?
    ensures HistoryWithin(log, lo, n + |u.envelopes|, Commit(store, UpdateOps(r, u)).value)
  {
    hide Linked, Commit, UpdateOps;
    var t := Commit(store, UpdateOps(r, u)).value;
    forall rev: u64 | ConfigHistory(rev) in t.records
      ensures lo <= rev - FirstRevision(log) <= n + |u.envelopes|
      ensures t.records[ConfigHistory(rev)].value == EnvelopeBytes(log[rev - FirstRevision(log)].envelope)
    {
      WriteHistory(log, n, store, r, u, rev);
    }
  }

  lemma WriteComplete(log: seq<Entry>, lo: nat, n: nat, store: MemberStore, r: Replica, u: Update)
    requires Linked(log) && lo <= n < |log| && Complete(log, lo, n, store) && IsSlice(log, n, u.envelopes) && Commit(store, UpdateOps(r, u)).Ok?
    ensures Complete(log, lo, n + |u.envelopes|, Commit(store, UpdateOps(r, u)).value)
  {
    hide Commit, UpdateOps, Carries;
    forall i | lo <= i <= n + |u.envelopes|
      ensures ConfigHistory(log[i].envelope.body.revision) in Commit(store, UpdateOps(r, u)).value.records
    {
      WriteHistory(log, n, store, r, u, log[i].envelope.body.revision);
    }
  }

  lemma WritingStands(root: PublicKey, log: seq<Entry>, lo: nat, n: nat, m: Member, h: nat) returns (n': nat)
    requires Linked(log) && Stands(root, log, lo, n, m) && h in m.stages && m.stages[h].Writing?
    ensures n <= n' && Stands(root, log, lo, n', AdvanceApply(m, h))
    ensures n' == n || (AdvanceApply(m, h).stages[h].Checking? && n' < |log| && m.stages[h].update.head == HeadOf(log[n'].envelope))
    ensures Onward(log, lo, n, m, n', AdvanceApply(m, h))
  {
    hide Stands, Linked, Complete, Commit, UpdateOps, HistoryWithin, ShowsRevision, IsSlice, SignerFits;
    StageHere(root, log, lo, n, m, h);
    var r, u := m.stages[h].replica, m.stages[h].update;
    var i :| Between(log, lo, n, i) && log[i].config == r.config && HeadOf(log[i].envelope) == r.head && UpdateFrom(root, log, i, u);
    n' := n;
    if Commit(m.store, UpdateOps(r, u)).Ok? {
      WritesAtEnd(log, lo, n, m.store, r, i, u);
      SliceBound(log, n, u.envelopes);
      n' := n + |u.envelopes|;
      WriteShows(root, log, n, m.store, r, u);
      WriteWithin(log, lo, n, m.store, r, u);
      WriteComplete(log, lo, n, m.store, r, u);
      assert Between(log, lo, n', n) && Between(log, lo, n', n');
      OthersStand(root, log, lo, n, m, n', AdvanceApply(m, h), h);
    } else {
      MovedStands(root, log, lo, n, m, h, Holding(r));
    }
  }

  lemma SliceBound(log: seq<Entry>, i: nat, envelopes: seq<Envelope>)
    requires IsSlice(log, i, envelopes)
    ensures i + |envelopes| < |log|
  {
  }

  lemma CheckingStands(root: PublicKey, log: seq<Entry>, lo: nat, n: nat, m: Member, h: nat)
    requires Stands(root, log, lo, n, m) && h in m.stages && (m.stages[h].Checking? || m.stages[h].CheckingHead? || m.stages[h].CheckingSigner?)
    ensures Stands(root, log, lo, n, AdvanceApply(m, h))
    ensures Onward(log, lo, n, m, n, AdvanceApply(m, h))
  {
    hide Stands, Complete, RecordsOn, HasPosition;
    StageHere(root, log, lo, n, m, h);
    var r, u := m.stages[h].replica, m.stages[h].update;
    MovedStands(root, log, lo, n, m, h, Holding(r));
    match m.stages[h]
    case Checking(_, _) =>
      if ConfigEnvelope in m.store.records {
        MovedStands(root, log, lo, n, m, h, CheckingHead(r, u, m.store.records[ConfigEnvelope]));
      }
    case CheckingHead(_, _, envelope) =>
      if ConfigHead in m.store.records {
        MovedStands(root, log, lo, n, m, h, CheckingSigner(r, u, envelope, m.store.records[ConfigHead]));
      }
    case CheckingSigner(_, _, envelope, head) =>
      if ConfigSigner in m.store.records {
        MovedStands(root, log, lo, n, m, h, Holding(Replica(u.config, u.head, envelope.version, head.version, m.store.records[ConfigSigner].version)));
      }
  }

  /** Whatever is delivered, an update that passes the checks is a stretch of the log. */
  lemma CheckedUpdate(keys: AuthorityKeys, log: seq<Entry>, lo: nat, n: nat, r: Replica, updates: UpdateBatch, key: EncryptionKey, now: u64)
    requires Linked(log) && HasPosition(log, lo, n, r.config, r.head)
    requires forall k :: 0 <= k < |updates.envelopes| ==> Authentic(log, updates.envelopes[k])
    ensures var checked := CheckUpdates(keys.root, key, r, updates, now);
            checked.Ok? && checked.value.Some? ==> HasUpdate(keys.root, log, lo, n, r, checked.value.value)
  {
    hide Linked, Authentic, BatchAdmissible, Follow, SignerFits;
    var checked := CheckUpdates(keys.root, key, r, updates, now);
    if checked.Ok? && checked.value.Some? {
      var i :| Between(log, lo, n, i) && log[i].config == r.config && HeadOf(log[i].envelope) == r.head;
      FollowOnLog(keys, log, i, Trail(r.config, r.head, None), updates.envelopes, key, now);
      FollowedLast(keys.root, key, Trail(r.config, r.head, None), updates.envelopes, now);
      assert UpdateFrom(keys.root, log, i, checked.value.value);
    }
  }

  lemma DeliverStands(keys: AuthorityKeys, log: seq<Entry>, lo: nat, n: nat, m: Member, h: nat, updates: UpdateBatch, key: EncryptionKey, now: u64)
    requires Linked(log) && Stands(keys.root, log, lo, n, m) && h in m.stages
    requires forall k :: 0 <= k < |updates.envelopes| ==> Authentic(log, updates.envelopes[k])
    ensures Stands(keys.root, log, lo, n, Apply(keys.root, key, m, h, updates, now))
    ensures Onward(log, lo, n, m, n, Apply(keys.root, key, m, h, updates, now))
  {
    hide Stands, Linked, Authentic, Complete, RecordsOn, HasPosition, HasUpdate, CheckUpdates;
    StandsBound(keys.root, log, lo, n, m);
    if m.stages[h].Holding? {
      StageHere(keys.root, log, lo, n, m, h);
      var r := m.stages[h].replica;
      CheckedUpdate(keys, log, lo, n, r, updates, key, now);
      var checked := CheckUpdates(keys.root, key, r, updates, now);
      if checked.Ok? && checked.value.Some? {
        MovedStands(keys.root, log, lo, n, m, h, Writing(r, checked.value.value));
      }
    }
  }

  lemma BeginStands(root: PublicKey, log: seq<Entry>, lo: nat, n: nat, m: Member, h: nat)
    requires Stands(root, log, lo, n, m) && ConfigEnvelope in m.store.records
    ensures Stands(root, log, lo, n, At(m, h, ReadingHead(m.store.records[ConfigEnvelope])))
  {
    hide Complete, HistoryWithin, SignerFits;
    assert Between(log, lo, n, n);
    MovedStands(root, log, lo, n, m, h, ReadingHead(m.store.records[ConfigEnvelope]));
  }

  /** Every move keeps the member on the log, and never moves it back. */
  lemma MoveStands(keys: AuthorityKeys, log: seq<Entry>, lo: nat, n: nat, m: Member, move: Move, key: EncryptionKey) returns (n': nat)
    requires Linked(log) && Stands(keys.root, log, lo, n, m) && AuthenticMove(log, move)
    ensures n <= n' && Stands(keys.root, log, lo, n', Make(keys.root, key, m, move))
    ensures Onward(log, lo, n, m, n', Make(keys.root, key, m, move))
  {
    hide Stands, Linked, Authentic, AdvanceOpen, AdvanceApply, Apply;
    StandsBound(keys.root, log, lo, n, m);
    n' := n;
    match move
    case Begin(h) =>
      if h !in m.stages && ConfigEnvelope in m.store.records {
        BeginStands(keys.root, log, lo, n, m, h);
      }
    case Advance(h, now) =>
      if h in m.stages {
        var s := m.stages[h];
        if s.Writing? {
          n' := WritingStands(keys.root, log, lo, n, m, h);
        } else if s.Checking? || s.CheckingHead? || s.CheckingSigner? {
          CheckingStands(keys.root, log, lo, n, m, h);
        } else {
          OpenStands(keys.root, log, lo, n, m, h, key, now);
        }
      }
    case Deliver(h, updates, now) =>
      if h in m.stages {
        DeliverStands(keys, log, lo, n, m, h, updates, key, now);
      }
    case Vanish(h) => GoneStands(keys.root, log, lo, n, m, h);
  }
}
