/** `PersistedConfigState`: the handle whose fields `apply` overwrites once its batch is durable. */
module ReplicaState {
  import opened Prelude
  import opened Limits
  import opened Credentials
  import opened Configs
  import opened Envelopes
  import opened UpdateBatches
  import opened VersionedStore
  import opened Replica
  import opened ReplicaLaws

  class PersistedConfigState {
    const root: PublicKey
    const encryption: EncryptionKey
    var store: MemberStore
    var config: Config
    var head: Head
    var envelopeVersion: nat
    var headVersion: nat
    var signerVersion: nat

    constructor (root: PublicKey, encryption: EncryptionKey, store: MemberStore, initial: Replica)
      ensures this.root == root && this.encryption == encryption && this.store == store && Cached() == initial
    {
      this.root, this.encryption, this.store := root, encryption, store;
      config, head := initial.config, initial.head;
      envelopeVersion, headVersion, signerVersion := initial.envelopeVersion, initial.headVersion, initial.signerVersion;
    }

    /** The cached fields as one value. */
    function Cached(): Replica
      reads this
    {
      Replica(config, head, envelopeVersion, headVersion, signerVersion)
    }

    /** The chain of updates opened one by one, in memory only. */
    method FollowAll(raws: seq<Raw<Envelope>>, now: u64) returns (r: Result<Trail, ReplicaError>)
      ensures r == Follow(root, encryption, Trail(config, head, None), raws, now)
    {
      hide OpenNext, SignerFor;
      var t := Trail(config, head, None);
      for i := 0 to |raws|
        invariant Follow(root, encryption, Trail(config, head, None), raws[..i], now) == Ok(t)
      {
        assert raws[..i + 1][..i] == raws[..i];
        var step := FollowOne(root, encryption, t, raws[i], now);
        if step.Err? {
          FollowFails(root, encryption, Trail(config, head, None), raws, i + 1, now);
          return Err(step.error);
        }
        t := step.value;
      }
      assert raws[..|raws|] == raws;
      return Ok(t);
    }

    /** `apply`: nothing is written, and no field changes, before every envelope has opened. */
    method Apply(updates: UpdateBatch, now: u64) returns (answer: Result<Head, ReplicaError>)
      modifies this
      ensures var o := ApplyAlone(root, encryption, old(store), old(Cached()), updates, now);
              && store == o.store && Cached() == o.replica
              && (answer.Ok? <==> o.answer.Ok?) && (answer.Ok? ==> answer == o.answer)
    {
      hide Commit, UpdateOps, Follow, BatchOk, EncodedLength;
      if updates.network != NetworkId(root) || updates.base != head {
        return Err(BaseHeadMismatch);
      }
      if updates.envelopes == [] {
        return Ok(head);
      }
      var parsed := NewBatch(updates.network, updates.base, updates.envelopes);
      if parsed.Err? {
        return Err(BadConfig(parsed.error));
      }
      if EncodedLength(updates) > MAX_UPDATE_BATCH_BYTES {
        return Err(BadConfig(UpdateBatchTooLarge));
      }
      var followed := FollowAll(updates.envelopes, now);
      if followed.Err? {
        return Err(followed.error);
      }
      BatchDecodes(updates);
      FollowedLast(root, encryption, Trail(config, head, None), updates.envelopes, now);
      var u := Update(Unwrap(updates.envelopes), followed.value.config, followed.value.head, followed.value.last.value);
      var committed := Commit(store, UpdateOps(Cached(), u));
      if committed.Err? {
        return Err(Conflict);
      }
      store := committed.value;
      if ConfigEnvelope !in store.records || ConfigHead !in store.records || ConfigSigner !in store.records
         || store.records[ConfigEnvelope].value != EnvelopeBytes(u.link.envelope) || store.records[ConfigHead].value != HeadBytes(u.head) {
        return Err(CommitLost);
      }
      config, head := u.config, u.head;
      envelopeVersion, headVersion, signerVersion :=
        store.records[ConfigEnvelope].version, store.records[ConfigHead].version, store.records[ConfigSigner].version;
      return Ok(head);
    }

    /** `updates_after`: the retained history records above the caller's head, in order. */
    method UpdatesAfter(base: Head) returns (r: Result<UpdateBatch, ReplicaError>)
      ensures var spec := ReplicaLaws.UpdatesAfter(root, store, Cached(), base);
              && (r.Ok? <==> spec.Ok?) && (r.Ok? ==> r == spec) && (spec == Err(UnknownHead) ==> r == spec)
    {
      hide BatchOk;
      if base.revision > head.revision || base.epoch > head.epoch {
        return Err(UnknownHead);
      }
      if ConfigHistory(base.revision) !in store.records {
        return Err(UnknownHead);
      }
      var first := store.records[ConfigHistory(base.revision)].value;
      if !first.EnvelopeBytes? || HeadOf(first.envelope) != base {
        return Err(UnknownHead);
      }
      var envelopes: seq<Raw<Envelope>> := [];
      var revision: u64 := base.revision;
      while revision < head.revision
        invariant base.revision <= revision <= head.revision
        invariant Collect(store, base.revision, revision) == Ok(envelopes)
      {
        revision := revision + 1;
        if ConfigHistory(revision) !in store.records || !store.records[ConfigHistory(revision)].value.EnvelopeBytes? {
          CollectFails(store, base.revision, revision, head.revision);
          return Err(HistoryMissing);
        }
        envelopes := envelopes + [Wire(store.records[ConfigHistory(revision)].value.envelope)];
      }
      var batch := NewBatch(NetworkId(root), base, envelopes);
      return FromConfig(batch);
    }
  }

  lemma {:induction false} FollowFails(root: PublicKey, key: EncryptionKey, t: Trail, raws: seq<Raw<Envelope>>, i: nat, now: u64)
    requires i <= |raws| && Follow(root, key, t, raws[..i], now).Err?
    ensures Follow(root, key, t, raws, now) == Follow(root, key, t, raws[..i], now)
    decreases |raws|
  {
    hide FollowOne;
    if i == |raws| {
      assert raws[..i] == raws;
    } else {
      assert raws[..|raws| - 1][..i] == raws[..i];
      FollowFails(root, key, t, raws[..|raws| - 1], i, now);
    }
  }

  lemma {:induction false} CollectFails(store: MemberStore, low: u64, mid: u64, high: u64)
    requires low <= mid <= high && Collect(store, low, mid) == Err(HistoryMissing)
    ensures Collect(store, low, high) == Err(HistoryMissing)
    decreases high
  {
    if mid < high {
      CollectFails(store, low, mid, high - 1);
    }
  }
}
