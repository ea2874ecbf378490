/** `config_updates_after`: the authority answers a member's head with the revisions after it. */
module AuthorityUpdates {
  import opened Prelude
  import opened Credentials
  import opened Configs
  import opened Envelopes
  import opened AuthorityOps
  import opened VersionedStore
  import opened AuthorityLog
  import opened AuthorityInvariant
  import opened UpdateBatches
  import opened Replica
  import opened ReplicaInvariant
  import opened ReplicaLaws

  /** The history records above `low`, up to `high`. */
  function CollectHistory(store: Records, low: u64, high: u64): Result<seq<Raw<Envelope>>, AuthorityError>
    requires low <= high
    decreases high
  {
    if low == high then Ok([])
    else
      var front :- CollectHistory(store, low, high - 1);
      var _ :- Need(HistoryKey(high) in store.records && store.records[HistoryKey(high)].value.EnvelopeValue?, HistoryUnavailable);
      Ok(front + [Wire(store.records[HistoryKey(high)].value.envelope)])
  }

  function ConfigUpdatesAfter(keys: AuthorityKeys, store: Records, handle: Handle, base: Head): Result<UpdateBatch, AuthorityError> {
    var _ :- Need(base.revision <= handle.head.revision && base.epoch <= handle.head.epoch, UnknownConfigHead);
    var _ :- Need(HistoryKey(base.revision) in store.records, UnknownConfigHead);
    var first := store.records[HistoryKey(base.revision)].value;
    var _ :- Need(first.EnvelopeValue? && HeadOf(first.envelope) == base, UnknownConfigHead);
    var envelopes :- CollectHistory(store, base.revision, handle.head.revision);
    var batch := UpdateBatch(keys.Network(), base, envelopes);
    var _ :- Need(BatchOk(batch), ConfigFailure(UpdateBatchTooLarge));
    Ok(batch)
  }

  /** The loop that pushes the records onto a vector. */
  method CollectUpdates(store: Records, low: u64, high: u64) returns (r: Result<seq<Raw<Envelope>>, AuthorityError>)
    requires low <= high
    ensures r == CollectHistory(store, low, high)
  {
    var envelopes: seq<Raw<Envelope>> := [];
    var revision: u64 := low;
    while revision < high
      invariant low <= revision <= high && CollectHistory(store, low, revision) == Ok(envelopes)
    {
      revision := revision + 1;
      if HistoryKey(revision) !in store.records || !store.records[HistoryKey(revision)].value.EnvelopeValue? {
        CollectStops(store, low, revision, high);
        return Err(HistoryUnavailable);
      }
      envelopes := envelopes + [Wire(store.records[HistoryKey(revision)].value.envelope)];
    }
    return Ok(envelopes);
  }

  lemma {:induction false} CollectStops(store: Records, low: u64, mid: u64, high: u64)
    requires low <= mid <= high && CollectHistory(store, low, mid) == Err(HistoryUnavailable)
    ensures CollectHistory(store, low, high) == Err(HistoryUnavailable)
    decreases high
  {
    if mid < high {
      CollectStops(store, low, mid, high - 1);
    }
  }

  lemma HistoryRecord(store: Records, log: seq<Entry>, k: nat)
    requires Linked(log) && StoreAgrees(store, log) && Seeded(store, log) && k < |log|
    ensures log[k].envelope.body.revision == FirstRevision(log) + k
    ensures HistoryKey(log[k].envelope.body.revision) in store.records
    ensures store.records[HistoryKey(log[k].envelope.body.revision)].value == EnvelopeValue(log[k].envelope)
  {
    hide ShowsLast, VersionsBelow, Carries;
  }

  lemma {:induction false} CollectsStretch(store: Records, log: seq<Entry>, i: nat, j: nat)
    requires Linked(log) && StoreAgrees(store, log) && Seeded(store, log) && i <= j < |log|
    ensures log[i].envelope.body.revision <= log[j].envelope.body.revision
    ensures CollectHistory(store, log[i].envelope.body.revision, log[j].envelope.body.revision) == Ok(Stretch(log, i, j))
    decreases j
  {
    hide StoreAgrees, Linked, Seeded;
    HistoryRecord(store, log, i);
    HistoryRecord(store, log, j);
    if i == j {
      assert Stretch(log, i, j) == [];
    } else {
      HistoryRecord(store, log, j - 1);
      CollectsStretch(store, log, i, j - 1);
      assert Stretch(log, i, j) == Stretch(log, i, j - 1) + [Wire(log[j].envelope)];
    }
  }

  /** In every schedule, whatever revision a handle caches, it answers any committed head at or
      before that revision with exactly the revisions between the two, and fails only on the size
      limits; any other head is refused, whether never committed or beyond its own. */
  lemma AuthorityServesTheStretch(keys: AuthorityKeys, w: World, h: nat, base: Head) returns (j: nat)
    requires Inv(keys, w) && h in w.sessions && w.sessions[h].Ready?
    ensures j < |w.log| && HeadOf(w.log[j].envelope) == w.sessions[h].handle.head
    ensures forall i :: 0 <= i <= j && base == HeadOf(w.log[i].envelope) ==>
              ConfigUpdatesAfter(keys, w.store, w.sessions[h].handle, base) ==
              if StretchFits(w.log, i, j) then Ok(UpdateBatch(keys.Network(), base, Stretch(w.log, i, j))) else Err(ConfigFailure(UpdateBatchTooLarge))
    ensures (forall i :: 0 <= i <= j ==> base != HeadOf(w.log[i].envelope)) ==>
              ConfigUpdatesAfter(keys, w.store, w.sessions[h].handle, base) == Err(UnknownConfigHead)
  {
    hide Inv, Linked, StoreAgrees, Seeded, ActivityOk, BatchOk, StretchFits, CollectHistory, Sequential;
    var log, handle := w.log, w.sessions[h].handle;
    ReadySession(keys, w, h);
    StoreIsRight(keys, w);
    LogIsSequential(keys, w);
    j :| 0 <= j < |log| && HeadOf(log[j].envelope) == handle.head && log[j].config == handle.config;
    forall i | 0 <= i <= j && base == HeadOf(log[i].envelope)
      ensures ConfigUpdatesAfter(keys, w.store, handle, base) ==
              if StretchFits(log, i, j) then Ok(UpdateBatch(keys.Network(), base, Stretch(log, i, j))) else Err(ConfigFailure(UpdateBatchTooLarge))
    {
      LogOrdered(log, i, j);
      HistoryRecord(w.store, log, i);
      CollectsStretch(w.store, log, i, j);
      StretchIsBatch(keys, log, i, j);
    }
    if (forall i :: 0 <= i <= j ==> base != HeadOf(log[i].envelope)) && base.revision <= handle.head.revision {
      UnknownHead(w.store, log, j, base);
    }
  }

  lemma LogIsSequential(keys: AuthorityKeys, w: World)
    requires Inv(keys, w)
    ensures Sequential(keys, w.log)
  {
    hide Sequential, StoreAgrees, SessionsOk, InvitationsOk, ReturnedOk;
  }

  lemma UnknownHead(store: Records, log: seq<Entry>, j: nat, base: Head)
    requires Linked(log) && StoreAgrees(store, log) && j < |log| && base.revision <= log[j].envelope.body.revision
    requires forall i :: 0 <= i <= j ==> base != HeadOf(log[i].envelope)
    ensures HistoryKey(base.revision) in store.records ==>
            store.records[HistoryKey(base.revision)].value.EnvelopeValue? && HeadOf(store.records[HistoryKey(base.revision)].value.envelope) != base
  {
    hide ShowsLast, VersionsBelow, Seeded, Carries;
    if HistoryKey(base.revision) in store.records {
      assert log[j].envelope.body.revision == FirstRevision(log) + j;
      assert base != HeadOf(log[base.revision - FirstRevision(log)].envelope);
    }
  }

  /** End to end: a member behind the authority asks for updates after its head and applies the
      answer. It ends exactly at the authority's snapshot and head if the answer is within limits
      and every revision in it is readable to the member now; otherwise nothing of the member's
      has changed. */
  lemma MemberCatchesUp(keys: AuthorityKeys, w: World, h: nat, lo: nat, n: nat, store: MemberStore, r: Replica, key: EncryptionKey, now: u64) returns (j: nat)
    requires Inv(keys, w) && h in w.sessions && w.sessions[h].Ready?
    requires RecordsOn(keys.root, w.log, lo, n, store) && lo <= n < |w.log| && Complete(w.log, lo, n, store)
    requires r.config == w.log[n].config && r.head == HeadOf(w.log[n].envelope) && Fresh(store, r)
    requires r.head.revision < w.sessions[h].handle.head.revision
    ensures n < j < |w.log| && HeadOf(w.log[j].envelope) == w.sessions[h].handle.head
    ensures var answer := ConfigUpdatesAfter(keys, w.store, w.sessions[h].handle, r.head);
            answer.Ok? ==>
              var o := ApplyAlone(keys.root, key, store, r, answer.value, now);
              if BatchAdmissible(answer.value) && (forall k :: n < k <= j ==> Readable(keys, w.log, k, key, now)) then
                && o.answer == Ok(w.sessions[h].handle.head) && o.replica.head == w.sessions[h].handle.head && o.replica.config == w.log[j].config
                && RecordsOn(keys.root, w.log, lo, j, o.store)
              else o.answer.Err? && o.store == store && o.replica == r
  {
    hide Inv, RecordsOn, Complete, Fresh, ConfigUpdatesAfter, ApplyAlone, BatchAdmissible, Readable, StretchFits, Sequential, Linked, StoreAgrees;
    StoreIsRight(keys, w);
    LogIsSequential(keys, w);
    j := AuthorityServesTheStretch(keys, w, h, r.head);
    if j <= n {
      LogOrdered(w.log, j, n);
      assert false;
    }
    CatchUpAllOrNothing(keys, w.log, lo, n, store, r, j, key, now);
  }
}
