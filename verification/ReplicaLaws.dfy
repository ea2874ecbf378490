/** Sequential laws of one replica: exactly when a revision, a chain and a stored state open;
    catching up is all or nothing; how a chain is batched does not matter. */
module ReplicaLaws {
  import opened Prelude
  import opened Limits
  import opened Credentials
  import opened Configs
  import opened SnapshotValidation
  import opened Envelopes
  import opened AuthorityOps
  import opened AuthorityLog
  import opened AuthorityInvariant
  import opened AuthorityHistory
  import opened UpdateBatches
  import opened VersionedStore
  import opened Replica
  import opened ReplicaRuns
  import opened ReplicaInvariant

  // ---- which revisions a member can follow ----

  /** The member's key is wrapped, the revision is valid now, and its predecessor still vouches
      for the administrator. */
  predicate Readable(keys: AuthorityKeys, log: seq<Entry>, i: nat, key: EncryptionKey, now: u64)
    requires 0 < i < |log|
  {
    && key in MemberKeys(log[i].config)
    && VerifiedAdminOf(log[i - 1].config, keys.root, AdminKeyId(keys.adminKey), now).Ok?
    && ValidAt(log[i].config, keys.root, now)
  }

  /** A committed revision opens for a follower exactly when it is readable. */
  lemma OpensExactlyWhenReadable(keys: AuthorityKeys, log: seq<Entry>, i: nat, key: EncryptionKey, now: u64)
    requires Sequential(keys, log) && 0 < i < |log|
    ensures var opening := OpenNext(log[i].envelope, keys.root, log[i - 1].config, key, HeadOf(log[i - 1].envelope), now);
            && (opening.Ok? <==> Readable(keys, log, i, key, now))
            && (opening.Ok? ==> opening.value == Opened(log[i].config, HeadOf(log[i].envelope)))
  {
    hide DraftOf, SealNext, OpenNext, ValidAt, VerifiedAdminOf, StartOk, ActiveRecipients;
    var a, b := log[i - 1], log[i];
    assert Succeeds(keys, a, b);
    var op, at, choices := b.origin.op, b.origin.now, b.origin.choices;
    var draft := DraftOf(keys, a.config, HeadOf(a.envelope), op, at).value;
    var recipients := ActiveRecipients(draft.next).value;
    SealedNextOpens(keys.root, keys.adminKey, a.config, HeadOf(a.envelope), draft.next, recipients, at, choices, b.envelope, keys.encryption, at);
    SealedNextOpens(keys.root, keys.adminKey, a.config, HeadOf(a.envelope), draft.next, recipients, at, choices, b.envelope, key, now);
  }

  /** Revisions `i + 1 .. j` as they travel. */
  function Stretch(log: seq<Entry>, i: nat, j: nat): seq<Raw<Envelope>>
    requires i <= j < |log|
  {
    seq(j - i, k requires 0 <= k < j - i => Wire(log[i + 1 + k].envelope))
  }

  lemma FollowOneExactly(keys: AuthorityKeys, log: seq<Entry>, i: nat, t: Trail, key: EncryptionKey, now: u64)
    requires Sequential(keys, log) && i + 1 < |log| && TrailAt(keys.root, log, i, t)
    ensures var step := FollowOne(keys.root, key, t, Wire(log[i + 1].envelope), now);
            (step.Ok? <==> Readable(keys, log, i + 1, key, now)) && (step.Ok? ==> TrailAt(keys.root, log, i + 1, step.value))
  {
    hide Sequential, Linked, OpenNext, ValidAt, VerifiedAdminOf, SignerFor, SignerFits, WrappedToMembers, Carries;
    var e, c := log[i + 1].envelope, log[i].config;
    OpensExactlyWhenReadable(keys, log, i + 1, key, now);
    RevisionFacts(keys, log, i + 1);
    if Readable(keys, log, i + 1, key, now) {
      ReadableSigner(keys, log, i + 1, key, now);
    }
  }

  /** The predecessor's certificate for a readable revision is the one to remember. */
  lemma ReadableSigner(keys: AuthorityKeys, log: seq<Entry>, i: nat, key: EncryptionKey, now: u64)
    requires Sequential(keys, log) && 0 < i < |log| && Readable(keys, log, i, key, now)
    ensures var signer := SignerFor(log[i - 1].config.adminKeys, log[i].envelope.body.signer);
            signer.Some? && SignerFits(keys.root, signer.value, log[i].envelope)
  {
    hide Sequential, ValidAt, WrappedToMembers, Carries, VerifiedAdmin, SignerFor, FindContentKey;
    RevisionFacts(keys, log, i);
    RevisionFacts(keys, log, i - 1);
    OpensExactlyWhenReadable(keys, log, i, key, now);
    var c := log[i - 1].config;
    SignerAgrees(c.adminKeys, keys.root, c.network, AdminKeyId(keys.adminKey), now, RevokedSet(c));
  }

  /** A stretch of the log can be followed exactly when each of its revisions is readable. */
  lemma {:induction false} FollowsExactlyWhenReadable(keys: AuthorityKeys, log: seq<Entry>, i: nat, j: nat, t: Trail, key: EncryptionKey, now: u64)
    requires Sequential(keys, log) && i <= j < |log| && TrailAt(keys.root, log, i, t)
    ensures var end := Follow(keys.root, key, t, Stretch(log, i, j), now);
            && (end.Ok? <==> forall k :: i < k <= j ==> Readable(keys, log, k, key, now))
            && (end.Ok? ==> TrailAt(keys.root, log, j, end.value))
    decreases j
  {
    hide Sequential, FollowOne, TrailAt, Readable;
    if i < j {
      var raws := Stretch(log, i, j);
      assert raws[..|raws| - 1] == Stretch(log, i, j - 1);
      FollowsExactlyWhenReadable(keys, log, i, j - 1, t, key, now);
      var before := Follow(keys.root, key, t, Stretch(log, i, j - 1), now);
      if before.Ok? {
        FollowOneExactly(keys, log, j - 1, before.value, key, now);
      }
    }
  }

  // ---- serving updates ----

  /** `updates_after`, given the history records it collects. */
  function UpdatesAfter(root: PublicKey, store: MemberStore, h: Replica, base: Head): Result<UpdateBatch, ReplicaError> {
    var _ :- Need(base.revision <= h.head.revision && base.epoch <= h.head.epoch, UnknownHead);
    var _ :- Need(ConfigHistory(base.revision) in store.records, UnknownHead);
    var first := store.records[ConfigHistory(base.revision)].value;
    var _ :- Need(first.EnvelopeBytes? && HeadOf(first.envelope) == base, UnknownHead);
    var envelopes :- Collect(store, base.revision, h.head.revision);
    var batch := UpdateBatch(NetworkId(root), base, envelopes);
    var _ :- Need(BatchOk(batch), BadConfig(UpdateBatchTooLarge));
    Ok(batch)
  }

  /** The history records above `low`, up to `high`. */
  function Collect(store: MemberStore, low: u64, high: u64): Result<seq<Raw<Envelope>>, ReplicaError>
    requires low <= high
    decreases high
  {
    if low == high then Ok([])
    else
      var front :- Collect(store, low, high - 1);
      var _ :- Need(ConfigHistory(high) in store.records && store.records[ConfigHistory(high)].value.EnvelopeBytes?, HistoryMissing);
      Ok(front + [Wire(store.records[ConfigHistory(high)].value.envelope)])
  }

  lemma HistoryAt(root: PublicKey, log: seq<Entry>, lo: nat, n: nat, store: MemberStore, k: nat)
    requires Linked(log) && RecordsOn(root, log, lo, n, store) && Complete(log, lo, n, store) && lo <= k <= n
    ensures log[k].envelope.body.revision == FirstRevision(log) + k
    ensures ConfigHistory(log[k].envelope.body.revision) in store.records
    ensures store.records[ConfigHistory(log[k].envelope.body.revision)].value == EnvelopeBytes(log[k].envelope)
  {
    hide ShowsRevision, Carries;
  }

  lemma {:induction false} CollectOnLog(root: PublicKey, log: seq<Entry>, lo: nat, n: nat, store: MemberStore, i: nat, j: nat)
    requires Linked(log) && RecordsOn(root, log, lo, n, store) && Complete(log, lo, n, store) && lo <= i <= j <= n < |log|
    ensures log[i].envelope.body.revision <= log[j].envelope.body.revision
    ensures Collect(store, log[i].envelope.body.revision, log[j].envelope.body.revision) == Ok(Stretch(log, i, j))
    decreases j
  {
    hide RecordsOn, Linked, Complete;
    HistoryAt(root, log, lo, n, store, i);
    HistoryAt(root, log, lo, n, store, j);
    if i == j {
      assert Stretch(log, i, j) == [];
    } else {
      HistoryAt(root, log, lo, n, store, j - 1);
      CollectOnLog(root, log, lo, n, store, i, j - 1);
      assert Stretch(log, i, j) == Stretch(log, i, j - 1) + [Wire(log[j].envelope)];
    }
  }

  lemma StretchLinks(log: seq<Entry>, i: nat, j: nat, k: nat, network: NetworkId)
    requires Linked(log) && i <= j < |log| && k < j - i && log[i + 1 + k].config.network == network
    ensures LinkOk(network, HeadOf(log[i].envelope), Stretch(log, i, j), k)
  {
    assert Carries(log[i + 1 + k].envelope, log[i + 1 + k].config);
    assert log[i + 1 + k].envelope.body.revision == FirstRevision(log) + i + 1 + k;
    assert log[i].envelope.body.revision == FirstRevision(log) + i;
  }

  /** The size limits are all that can keep a stretch of the log from travelling as one batch. */
  predicate StretchFits(log: seq<Entry>, i: nat, j: nat)
    requires i <= j < |log|
  {
    && j - i <= MAX_UPDATE_ENVELOPES && TotalLength(Stretch(log, i, j)) <= MAX_UPDATE_BATCH_BYTES
    && log[i].envelope.body.revision + 1 + (j - i) <= U64_MAX
  }

  lemma StretchIsBatch(keys: AuthorityKeys, log: seq<Entry>, i: nat, j: nat)
    requires Sequential(keys, log) && i <= j < |log|
    ensures BatchOk(UpdateBatch(keys.Network(), HeadOf(log[i].envelope), Stretch(log, i, j))) <==> StretchFits(log, i, j)
  {
    hide Sequential, LinkOk, TotalLength, ValidAt, WrappedToMembers, Carries;
    SequentialIsLinked(keys, log);
    forall k | 0 <= k < j - i
      ensures LinkOk(keys.Network(), HeadOf(log[i].envelope), Stretch(log, i, j), k)
    {
      RevisionFacts(keys, log, i + 1 + k);
      StretchLinks(log, i, j, k, keys.Network());
    }
  }

  /** Whoever holds revision `j` answers a known base with exactly the revisions after it, and
      fails only on the size limits; any other base is refused. */
  lemma ServesTheStretch(keys: AuthorityKeys, log: seq<Entry>, lo: nat, n: nat, store: MemberStore, h: Replica, j: nat, base: Head)
    requires Sequential(keys, log) && RecordsOn(keys.root, log, lo, n, store) && Complete(log, lo, n, store)
    requires lo <= j <= n < |log| && h.config == log[j].config && h.head == HeadOf(log[j].envelope)
    ensures forall i :: lo <= i <= j && base == HeadOf(log[i].envelope) ==>
              UpdatesAfter(keys.root, store, h, base) ==
              if StretchFits(log, i, j) then Ok(UpdateBatch(keys.Network(), base, Stretch(log, i, j))) else Err(BadConfig(UpdateBatchTooLarge))
    ensures (forall i :: lo <= i <= j ==> base != HeadOf(log[i].envelope)) ==> UpdatesAfter(keys.root, store, h, base) == Err(UnknownHead)
  {
    hide Sequential, Linked, RecordsOn, Complete, BatchOk, StretchFits, Collect;
    SequentialIsLinked(keys, log);
    forall i | lo <= i <= j && base == HeadOf(log[i].envelope)
      ensures UpdatesAfter(keys.root, store, h, base) ==
              if StretchFits(log, i, j) then Ok(UpdateBatch(keys.Network(), base, Stretch(log, i, j))) else Err(BadConfig(UpdateBatchTooLarge))
    {
      LogOrdered(log, i, j);
      HistoryAt(keys.root, log, lo, n, store, i);
      CollectOnLog(keys.root, log, lo, n, store, i, j);
      StretchIsBatch(keys, log, i, j);
    }
    if forall i :: lo <= i <= j ==> base != HeadOf(log[i].envelope) {
      UnknownBase(keys.root, log, lo, n, store, j, base);
    }
  }

  lemma UnknownBase(root: PublicKey, log: seq<Entry>, lo: nat, n: nat, store: MemberStore, j: nat, base: Head)
    requires Linked(log) && RecordsOn(root, log, lo, n, store) && lo <= j <= n
    requires forall i :: lo <= i <= j ==> base != HeadOf(log[i].envelope)
    ensures ConfigHistory(base.revision) in store.records && base.revision <= log[j].envelope.body.revision ==>
            store.records[ConfigHistory(base.revision)].value.EnvelopeBytes? && HeadOf(store.records[ConfigHistory(base.revision)].value.envelope) != base
  {
    hide ShowsRevision, Carries, Complete;
    if ConfigHistory(base.revision) in store.records && base.revision <= log[j].envelope.body.revision {
      var i := base.revision - FirstRevision(log);
      assert log[j].envelope.body.revision == FirstRevision(log) + j;
      assert base != HeadOf(log[i].envelope);
    }
  }

  // ---- applying without interference ----

  /** Store, handle and answer after one call of `apply` that nobody interrupts. */
  datatype Outcome = Outcome(store: MemberStore, replica: Replica, answer: Result<Head, ReplicaError>)

  /** The handle after reading the three records back. */
  function ReadBack(t: MemberStore, h: Replica, u: Update): Outcome {
    if ConfigEnvelope !in t.records || ConfigHead !in t.records || ConfigSigner !in t.records
       || t.records[ConfigEnvelope].value != EnvelopeBytes(u.link.envelope) || t.records[ConfigHead].value != HeadBytes(u.head)
    then Outcome(t, h, Err(CommitLost))
    else
      Outcome(t, Replica(u.config, u.head, t.records[ConfigEnvelope].version, t.records[ConfigHead].version, t.records[ConfigSigner].version), Ok(u.head))
  }

  function ApplyAlone(root: PublicKey, key: EncryptionKey, store: MemberStore, h: Replica, updates: UpdateBatch, now: u64): Outcome {
    match CheckUpdates(root, key, h, updates, now)
    case Err(e) => Outcome(store, h, Err(e))
    case Ok(None) => Outcome(store, h, Ok(h.head))
    case Ok(Some(u)) =>
      match Commit(store, UpdateOps(h, u))
      case Err(_) => Outcome(store, h, Err(Conflict))
      case Ok(t) => ReadBack(t, h, u)
  }

  /** The handle saw the three records as they are now. */
  predicate Fresh(store: MemberStore, h: Replica) {
    && ConfigEnvelope in store.records && store.records[ConfigEnvelope].version == h.envelopeVersion
    && ConfigHead in store.records && store.records[ConfigHead].version == h.headVersion
    && ConfigSigner in store.records && store.records[ConfigSigner].version == h.signerVersion
  }

  /** Every revision of the update is still unknown to the history. */
  predicate Unheard(store: MemberStore, envelopes: seq<Envelope>) {
    forall k :: 0 <= k < |envelopes| ==> ConfigHistory(envelopes[k].body.revision) !in store.records
  }

  predicate DistinctRevisions(envelopes: seq<Envelope>) {
    forall i, j :: 0 <= i < j < |envelopes| ==> envelopes[i].body.revision != envelopes[j].body.revision
  }

  lemma FreshCommits(store: MemberStore, h: Replica, u: Update)
    requires Fresh(store, h) && Unheard(store, u.envelopes)
    ensures Commit(store, UpdateOps(h, u)).Ok?
  {
    var ops, puts := UpdateOps(h, u), HistoryPuts(u.envelopes);
    forall k | 0 <= k < |ops|
      ensures Holds(store.records, ops[k])
    {
      if k >= 3 {
        assert ops[k] == puts[k - 3];
      }
    }
  }

  lemma OpsDistinct(h: Replica, u: Update)
    requires DistinctRevisions(u.envelopes)
    ensures DistinctKeys(UpdateOps(h, u))
  {
    var ops, puts := UpdateOps(h, u), HistoryPuts(u.envelopes);
    assert forall k :: 3 <= k < |ops| ==> ops[k] == puts[k - 3];
  }

  /** A committed update is always read back as written, and leaves the handle fresh. */
  lemma ReadBackSucceeds(store: MemberStore, h: Replica, u: Update)
    requires DistinctRevisions(u.envelopes) && Commit(store, UpdateOps(h, u)).Ok?
    ensures var o := ReadBack(Commit(store, UpdateOps(h, u)).value, h, u);
            o.answer == Ok(u.head) && o.replica.config == u.config && o.replica.head == u.head && Fresh(o.store, o.replica)
  {
    hide Commit;
    var ops := UpdateOps(h, u);
    OpsDistinct(h, u);
    CommitEffect(store, ops);
    assert ops[0].key == ConfigEnvelope && ops[1].key == ConfigHead && ops[2].key == ConfigSigner;
  }

  // ---- catching up ----

  lemma StretchUnheard(root: PublicKey, log: seq<Entry>, lo: nat, n: nat, store: MemberStore, j: nat)
    requires Linked(log) && RecordsOn(root, log, lo, n, store) && n <= j < |log|
    ensures AllDecode(Stretch(log, n, j)) && Unheard(store, Unwrap(Stretch(log, n, j))) && DistinctRevisions(Unwrap(Stretch(log, n, j)))
    ensures IsSlice(log, n, Unwrap(Stretch(log, n, j)))
  {
    hide ShowsRevision, Carries, Complete;
    var envelopes := Unwrap(Stretch(log, n, j));
    assert forall k :: 0 <= k < j - n ==> envelopes[k] == log[n + 1 + k].envelope;
    SliceRevisions(log, n, envelopes);
  }

  /** What the checks make of a stretch of the log. */
  lemma CheckedStretch(keys: AuthorityKeys, log: seq<Entry>, n: nat, h: Replica, j: nat, key: EncryptionKey, now: u64)
    requires Sequential(keys, log) && n < j < |log| && h.config == log[n].config && h.head == HeadOf(log[n].envelope)
    ensures var updates := UpdateBatch(keys.Network(), h.head, Stretch(log, n, j));
            var checked := CheckUpdates(keys.root, key, h, updates, now);
            if BatchAdmissible(updates) && (forall k :: n < k <= j ==> Readable(keys, log, k, key, now)) then
              && checked.Ok? && checked.value.Some? && UpdateFrom(keys.root, log, n, checked.value.value)
              && AllDecode(updates.envelopes) && checked.value.value.envelopes == Unwrap(updates.envelopes)
            else checked.Err?
  {
    hide Sequential, BatchOk, Follow, Readable, SignerFits;
    var start := Trail(h.config, h.head, None);
    FollowsExactlyWhenReadable(keys, log, n, j, start, key, now);
    var end := Follow(keys.root, key, start, Stretch(log, n, j), now);
    assert AllDecode(Stretch(log, n, j)) && IsSlice(log, n, Unwrap(Stretch(log, n, j)));
    if end.Ok? {
      FollowedLast(keys.root, key, start, Stretch(log, n, j), now);
    }
  }

  /** Catch-up is all or nothing. A member at revision `n` that is handed the stretch up to `j`
      ends exactly at `j`, records and all, when the batch is within limits and each revision is
      readable now; otherwise its store and its handle stay as they were. */
  lemma CatchUpAllOrNothing(keys: AuthorityKeys, log: seq<Entry>, lo: nat, n: nat, store: MemberStore, h: Replica, j: nat, key: EncryptionKey, now: u64)
    requires Sequential(keys, log) && RecordsOn(keys.root, log, lo, n, store) && lo <= n < j < |log| && Complete(log, lo, n, store)
    requires h.config == log[n].config && h.head == HeadOf(log[n].envelope) && Fresh(store, h)
    ensures var updates := UpdateBatch(keys.Network(), h.head, Stretch(log, n, j));
            var o := ApplyAlone(keys.root, key, store, h, updates, now);
            if BatchAdmissible(updates) && (forall k :: n < k <= j ==> Readable(keys, log, k, key, now)) then
              && o.answer == Ok(HeadOf(log[j].envelope)) && o.replica.config == log[j].config && o.replica.head == HeadOf(log[j].envelope)
              && RecordsOn(keys.root, log, lo, j, o.store) && Complete(log, lo, j, o.store) && Fresh(o.store, o.replica)
            else o.answer.Err? && o.store == store && o.replica == h
  {
    hide Sequential, Linked, BatchAdmissible, Readable, Commit, UpdateOps, SignerFits, ShowsRevision, HistoryWithin, Complete, CheckUpdates, Unheard, DistinctRevisions, ReadBack;
    var updates := UpdateBatch(keys.Network(), h.head, Stretch(log, n, j));
    SequentialIsLinked(keys, log);
    StretchUnheard(keys.root, log, lo, n, store, j);
    CheckedStretch(keys, log, n, h, j, key, now);
    var checked := CheckUpdates(keys.root, key, h, updates, now);
    if checked.Ok? {
      var u := checked.value.value;
      FreshCommits(store, h, u);
      ReadBackSucceeds(store, h, u);
      ReadBackStore(Commit(store, UpdateOps(h, u)).value, h, u);
      WriteShows(keys.root, log, n, store, h, u);
      WriteWithin(log, lo, n, store, h, u);
      WriteComplete(log, lo, n, store, h, u);
    }
  }

  lemma ReadBackStore(t: MemberStore, h: Replica, u: Update)
    ensures ReadBack(t, h, u).store == t
  {
  }

  // ---- reopening ----

  /** Opening the stored state gives back the revision the member stands at, exactly while the
      stored certificate and the snapshot are both in force and the member is in it. */
  lemma ReopensExactlyWhen(keys: AuthorityKeys, log: seq<Entry>, lo: nat, n: nat, store: MemberStore, key: EncryptionKey, now: u64)
    requires Sequential(keys, log) && RecordsOn(keys.root, log, lo, n, store)
    ensures var e, head, signer := store.records[ConfigEnvelope], store.records[ConfigHead], store.records[ConfigSigner];
            var opening := OpenReplica(keys.root, key, e, head, signer, now);
            && (opening.Ok? <==>
                  && key in MemberKeys(log[n].config)
                  && signer.value.signer.payload.notBefore <= now < signer.value.signer.payload.expires
                  && ValidFrom(log[n].config) <= now < ValidUntil(log[n].config))
            && (opening.Ok? ==> opening.value == Replica(log[n].config, HeadOf(log[n].envelope), e.version, head.version, signer.version)
                                && Fresh(store, opening.value))
  {
    hide Sequential, Linked, ValidAt, HistoryWithin, Complete, ValidFrom, ValidUntil, ValidIgnoringTime, FindContentKey, MemberKeys, Recipients;
    RevisionFacts(keys, log, n);
    ValidityInterval(log[n].config, keys.root, now);
    ValidityInterval(log[n].config, keys.root, log[n].config.issuedAt);
  }
}
