/** Splitting an accepted chain of updates and applying the pieces in turn gives the same state as
    applying it whole. */
module ReplicaBatching {
  import opened Prelude
  import opened Credentials
  import opened Configs
  import opened Envelopes
  import opened UpdateBatches
  import opened VersionedStore
  import opened Replica
  import opened ReplicaLaws

  // ---- following in two goes ----

  lemma {:induction false} FollowSplit(root: PublicKey, key: EncryptionKey, t: Trail, a: seq<Raw<Envelope>>, b: seq<Raw<Envelope>>, now: u64)
    ensures Follow(root, key, t, a + b, now) ==
            (match Follow(root, key, t, a, now) case Ok(mid) => Follow(root, key, mid, b, now) case Err(e) => Err(e))
  {
    hide FollowOne;
    if b == [] {
      assert a + b == a;
    } else {
      FollowSplit(root, key, t, a, b[..|b| - 1], now);
      assert (a + b)[..|a + b| - 1] == a + b[..|b| - 1];
    }
  }

  /** Where a follower came from does not matter beyond its snapshot and head. */
  lemma {:induction false} FollowForgets(root: PublicKey, key: EncryptionKey, t: Trail, u: Trail, raws: seq<Raw<Envelope>>, now: u64)
    requires t.config == u.config && t.head == u.head && raws != []
    ensures Follow(root, key, t, raws, now) == Follow(root, key, u, raws, now)
  {
    hide OpenNext, SignerFor;
    var front := raws[..|raws| - 1];
    if front != [] {
      FollowForgets(root, key, t, u, front, now);
    }
  }

  /** The follower's head is that of the last envelope it took. */
  lemma FollowHead(root: PublicKey, key: EncryptionKey, t: Trail, raws: seq<Raw<Envelope>>, now: u64)
    requires raws != [] && Follow(root, key, t, raws, now).Ok?
    ensures raws[|raws| - 1].Wire? && Follow(root, key, t, raws, now).value.head == HeadOf(raws[|raws| - 1].value)
  {
    var before := Follow(root, key, t, raws[..|raws| - 1], now).value;
    OpenNextHead(raws[|raws| - 1].value, root, before.config, key, before.head, now);
  }

  lemma OpenNextHead(e: Envelope, root: PublicKey, c: Config, key: EncryptionKey, head: Head, now: u64)
    requires OpenNext(e, root, c, key, head, now).Ok?
    ensures OpenNext(e, root, c, key, head, now).value.head == HeadOf(e)
  {
    hide VerifiedAdminOf, Decrypt;
  }

  // ---- the pieces of an admissible batch ----

  lemma {:induction false} TotalLengthSplit(a: seq<Raw<Envelope>>, b: seq<Raw<Envelope>>)
    ensures TotalLength(a + b) == TotalLength(a) + TotalLength(b)
  {
    if a == [] {
      assert a + b == b;
    } else {
      TotalLengthSplit(a[1..], b);
      assert (a + b)[1..] == a[1..] + b;
    }
  }

  lemma PiecesAdmissible(network: NetworkId, base: Head, a: seq<Raw<Envelope>>, b: seq<Raw<Envelope>>)
    requires BatchAdmissible(UpdateBatch(network, base, a + b)) && a != [] && a[|a| - 1].Wire?
    ensures BatchAdmissible(UpdateBatch(network, base, a))
    ensures BatchAdmissible(UpdateBatch(network, HeadOf(a[|a| - 1].value), b))
  {
    hide WireLength;
    TotalLengthSplit(a, b);
    var mid := HeadOf(a[|a| - 1].value);
    forall i | 0 <= i < |a|
      ensures LinkOk(network, base, a, i)
    {
      assert LinkOk(network, base, a + b, i) && (a + b)[i] == a[i];
    }
    assert LinkOk(network, base, a, |a| - 1);
    forall i | 0 <= i < |b|
      ensures LinkOk(network, mid, b, i)
    {
      assert LinkOk(network, base, a + b, |a| + i) && (a + b)[|a| + i] == b[i];
      assert (a + b)[|a| + i - 1] == if i == 0 then a[|a| - 1] else b[i - 1];
    }
  }

  lemma AdmissibleRevisions(updates: UpdateBatch)
    requires BatchAdmissible(updates)
    ensures AllDecode(updates.envelopes) && DistinctRevisions(Unwrap(updates.envelopes))
  {
    hide TotalLength;
    BatchDecodes(updates);
    forall i, j | 0 <= i < j < |updates.envelopes|
      ensures updates.envelopes[i].value.body.revision != updates.envelopes[j].value.body.revision
    {
      assert LinkOk(updates.network, updates.base, updates.envelopes, i) && LinkOk(updates.network, updates.base, updates.envelopes, j);
    }
  }

  // ---- what an update writes, slot by slot ----

  predicate Writes(u: Update, slot: Slot) {
    slot == ConfigEnvelope || slot == ConfigHead || slot == ConfigSigner
    || exists k :: 0 <= k < |u.envelopes| && slot == ConfigHistory(u.envelopes[k].body.revision)
  }

  /** `t` is `s` with the update's records written. */
  ghost predicate Written(s: MemberStore, u: Update, t: MemberStore) {
    && ConfigEnvelope in t.records && t.records[ConfigEnvelope].value == EnvelopeBytes(u.link.envelope)
    && ConfigHead in t.records && t.records[ConfigHead].value == HeadBytes(u.head)
    && ConfigSigner in t.records && t.records[ConfigSigner].value == SignerBytes(u.link.signer)
    && (forall k :: 0 <= k < |u.envelopes| ==>
          && ConfigHistory(u.envelopes[k].body.revision) in t.records
          && t.records[ConfigHistory(u.envelopes[k].body.revision)].value == EnvelopeBytes(u.envelopes[k]))
    && (forall slot :: !Writes(u, slot) ==> (slot in t.records <==> slot in s.records))
    && (forall slot :: !Writes(u, slot) && slot in s.records ==> t.records[slot] == s.records[slot])
  }

  lemma NotWritten(h: Replica, u: Update, slot: Slot)
    requires !Writes(u, slot)
    ensures Untouched(UpdateOps(h, u), slot)
  {
    var ops, puts := UpdateOps(h, u), HistoryPuts(u.envelopes);
    forall k | 0 <= k < |ops|
      ensures ops[k].key != slot
    {
      if k >= 3 {
        assert ops[k] == puts[k - 3];
      }
    }
  }

  lemma HistoryWritten(store: MemberStore, h: Replica, u: Update, k: nat)
    requires DistinctRevisions(u.envelopes) && Commit(store, UpdateOps(h, u)).Ok? && k < |u.envelopes|
    ensures var t := Commit(store, UpdateOps(h, u)).value;
            && ConfigHistory(u.envelopes[k].body.revision) in t.records
            && t.records[ConfigHistory(u.envelopes[k].body.revision)].value == EnvelopeBytes(u.envelopes[k])
  {
    hide Commit;
    var ops := UpdateOps(h, u);
    OpsDistinct(h, u);
    CommitEffect(store, ops);
    assert ops[3 + k] == HistoryPuts(u.envelopes)[k];
  }

  lemma UpdateWrites(store: MemberStore, h: Replica, u: Update)
    requires DistinctRevisions(u.envelopes) && Commit(store, UpdateOps(h, u)).Ok?
    ensures Written(store, u, Commit(store, UpdateOps(h, u)).value)
  {
    hide Commit, Writes, HistoryPuts, DistinctRevisions;
    var ops := UpdateOps(h, u);
    OpsDistinct(h, u);
    CommitEffect(store, ops);
    assert ops[0].key == ConfigEnvelope && ops[1].key == ConfigHead && ops[2].key == ConfigSigner;
    forall k | 0 <= k < |u.envelopes|
      ensures ConfigHistory(u.envelopes[k].body.revision) in Commit(store, ops).value.records
      ensures Commit(store, ops).value.records[ConfigHistory(u.envelopes[k].body.revision)].value == EnvelopeBytes(u.envelopes[k])
    {
      HistoryWritten(store, h, u, k);
    }
    forall slot | !Writes(u, slot)
      ensures Untouched(ops, slot)
    {
      NotWritten(h, u, slot);
    }
  }

  lemma HeldBefore(store: MemberStore, h: Replica, u: Update)
    requires Commit(store, UpdateOps(h, u)).Ok?
    ensures Fresh(store, h) && Unheard(store, u.envelopes)
  {
    var ops, puts := UpdateOps(h, u), HistoryPuts(u.envelopes);
    assert Holds(store.records, ops[0]) && Holds(store.records, ops[1]) && Holds(store.records, ops[2]);
    forall k | 0 <= k < |u.envelopes|
      ensures ConfigHistory(u.envelopes[k].body.revision) !in store.records
    {
      assert ops[3 + k] == puts[k] && Holds(store.records, ops[3 + k]);
    }
  }

  lemma Halves(a: seq<Envelope>, b: seq<Envelope>, c: seq<Envelope>)
    requires c == a + b && DistinctRevisions(c)
    ensures DistinctRevisions(a) && DistinctRevisions(b)
    ensures forall i, j :: 0 <= i < |a| && 0 <= j < |b| ==> a[i].body.revision != b[j].body.revision
  {
    assert forall i :: 0 <= i < |a| ==> a[i] == c[i];
    assert forall j :: 0 <= j < |b| ==> b[j] == c[|a| + j];
  }

  lemma StillUnheard(s: MemberStore, t: MemberStore, u: Update, v: Update, w: Update)
    requires w.envelopes == u.envelopes + v.envelopes && DistinctRevisions(w.envelopes) && Written(s, u, t) && Unheard(s, w.envelopes)
    ensures Unheard(t, v.envelopes)
  {
    Halves(u.envelopes, v.envelopes, w.envelopes);
    forall k | 0 <= k < |v.envelopes|
      ensures ConfigHistory(v.envelopes[k].body.revision) !in t.records
    {
      assert w.envelopes[|u.envelopes| + k] == v.envelopes[k];
      assert !Writes(u, ConfigHistory(v.envelopes[k].body.revision));
    }
  }

  lemma SlotAgrees(s: MemberStore, t: MemberStore, s1: MemberStore, s2: MemberStore, u: Update, v: Update, w: Update, slot: Slot)
    requires w.envelopes == u.envelopes + v.envelopes && w.link == v.link && w.head == v.head
    requires Written(s, u, t) && Written(t, v, s1) && Written(s, w, s2)
    ensures slot in s1.records <==> slot in s2.records
    ensures slot in s1.records ==> s1.records[slot].value == s2.records[slot].value
  {
    if slot == ConfigEnvelope || slot == ConfigHead || slot == ConfigSigner {
    } else if Writes(v, slot) {
      var k :| 0 <= k < |v.envelopes| && slot == ConfigHistory(v.envelopes[k].body.revision);
      assert w.envelopes[|u.envelopes| + k] == v.envelopes[k];
    } else if Writes(u, slot) {
      var k :| 0 <= k < |u.envelopes| && slot == ConfigHistory(u.envelopes[k].body.revision);
      assert w.envelopes[k] == u.envelopes[k];
    } else {
      assert !Writes(w, slot);
    }
  }

  /** Writing `u` and then `v` leaves the same contents as writing their concatenation. */
  lemma WritesCompose(store: MemberStore, h: Replica, u: Update, g: Replica, v: Update, w: Update)
    requires w.envelopes == u.envelopes + v.envelopes && DistinctRevisions(w.envelopes) && w.link == v.link && w.head == v.head
    requires Commit(store, UpdateOps(h, w)).Ok? && Commit(store, UpdateOps(h, u)).Ok? && Fresh(Commit(store, UpdateOps(h, u)).value, g)
    ensures Commit(Commit(store, UpdateOps(h, u)).value, UpdateOps(g, v)).Ok?
    ensures SameContents(Commit(Commit(store, UpdateOps(h, u)).value, UpdateOps(g, v)).value, Commit(store, UpdateOps(h, w)).value)
  {
    hide Commit, UpdateOps, Fresh, Written, Unheard, DistinctRevisions;
    Halves(u.envelopes, v.envelopes, w.envelopes);
    var t := Commit(store, UpdateOps(h, u)).value;
    UpdateWrites(store, h, u);
    UpdateWrites(store, h, w);
    HeldBefore(store, h, w);
    StillUnheard(store, t, u, v, w);
    FreshCommits(t, g, v);
    UpdateWrites(t, g, v);
    var s1, s2 := Commit(t, UpdateOps(g, v)).value, Commit(store, UpdateOps(h, w)).value;
    forall slot: Slot
      ensures slot in s1.records <==> slot in s2.records
      ensures slot in s1.records ==> s1.records[slot].value == s2.records[slot].value
    {
      SlotAgrees(store, t, s1, s2, u, v, w, slot);
    }
  }

  // ---- the law ----

  lemma FirstPiece(root: PublicKey, key: EncryptionKey, store: MemberStore, h: Replica, a: seq<Raw<Envelope>>, b: seq<Raw<Envelope>>, now: u64)
    returns (u: Update, v: Update, w: Update)
    requires a != [] && b != [] && CheckUpdates(root, key, h, UpdateBatch(NetworkId(root), h.head, a + b), now).Ok?
    ensures CheckUpdates(root, key, h, UpdateBatch(NetworkId(root), h.head, a + b), now) == Ok(Some(w))
    ensures CheckUpdates(root, key, h, UpdateBatch(NetworkId(root), h.head, a), now) == Ok(Some(u))
    ensures forall g: Replica :: g.config == u.config && g.head == u.head ==>
              CheckUpdates(root, key, g, UpdateBatch(NetworkId(root), g.head, b), now) == Ok(Some(v))
    ensures w.envelopes == u.envelopes + v.envelopes && w.link == v.link && w.head == v.head && w.config == v.config
    ensures DistinctRevisions(w.envelopes)
  {
    hide FollowOne, Follow, BatchAdmissible, DistinctRevisions;
    var network, start := NetworkId(root), Trail(h.config, h.head, None);
    FollowSplit(root, key, start, a, b, now);
    var mid := Follow(root, key, start, a, now).value;
    var middle := Trail(mid.config, mid.head, None);
    FollowHead(root, key, start, a, now);
    FollowForgets(root, key, mid, middle, b, now);
    PiecesAdmissible(network, h.head, a, b);
    AdmissibleRevisions(UpdateBatch(network, h.head, a + b));
    w := CheckUpdates(root, key, h, UpdateBatch(network, h.head, a + b), now).value.value;
    u := CheckUpdates(root, key, h, UpdateBatch(network, h.head, a), now).value.value;
    var g := Replica(mid.config, mid.head, 0, 0, 0);
    v := CheckUpdates(root, key, g, UpdateBatch(network, mid.head, b), now).value.value;
    assert w.envelopes == u.envelopes + v.envelopes;
  }

  /** However an accepted chain is cut in two, applying the pieces in turn is accepted as well and
      ends with the same snapshot, the same head and the same contents in every record. */
  lemma BatchingDoesNotMatter(root: PublicKey, key: EncryptionKey, store: MemberStore, h: Replica, a: seq<Raw<Envelope>>, b: seq<Raw<Envelope>>, now: u64)
    requires a != [] && b != []
    requires ApplyAlone(root, key, store, h, UpdateBatch(NetworkId(root), h.head, a + b), now).answer.Ok?
    ensures var whole := ApplyAlone(root, key, store, h, UpdateBatch(NetworkId(root), h.head, a + b), now);
            var first := ApplyAlone(root, key, store, h, UpdateBatch(NetworkId(root), h.head, a), now);
            var second := ApplyAlone(root, key, first.store, first.replica, UpdateBatch(NetworkId(root), first.replica.head, b), now);
            && first.answer.Ok? && second.answer == whole.answer
            && second.replica.config == whole.replica.config && second.replica.head == whole.replica.head
            && SameContents(second.store, whole.store)
  {
    hide Commit, UpdateOps, CheckUpdates, Fresh, Unheard, DistinctRevisions, ReadBack, SameContents;
    var u, v, w := FirstPiece(root, key, store, h, a, b, now);
    Halves(u.envelopes, v.envelopes, w.envelopes);
    HeldBefore(store, h, w);
    FirstUnheard(store, u, v, w);
    FreshCommits(store, h, u);
    ReadBackSucceeds(store, h, u);
    ReadBackSucceeds(store, h, w);
    var t := Commit(store, UpdateOps(h, u)).value;
    ReadBackStore(t, h, u);
    var g := ReadBack(t, h, u).replica;
    WritesCompose(store, h, u, g, v, w);
    ReadBackSucceeds(t, g, v);
    ReadBackStore(Commit(t, UpdateOps(g, v)).value, g, v);
    ReadBackStore(Commit(store, UpdateOps(h, w)).value, h, w);
  }

  lemma FirstUnheard(store: MemberStore, u: Update, v: Update, w: Update)
    requires w.envelopes == u.envelopes + v.envelopes && Unheard(store, w.envelopes)
    ensures Unheard(store, u.envelopes)
  {
    assert forall k :: 0 <= k < |u.envelopes| ==> u.envelopes[k] == w.envelopes[k];
  }
}
