/** A member's `open` as a run of its moves, from whatever state a schedule has left behind. */
module ReplicaReopening {
  import opened Prelude
  import opened Credentials
  import opened Configs
  import opened SnapshotValidation
  import opened Envelopes
  import opened AuthorityOps
  import opened AuthorityLog
  import opened AuthorityInvariant
  import opened AuthorityHistory
  import opened UpdateBatches
  import opened VersionedStore
  import opened Replica
  import opened ReplicaRuns
  import opened ReplicaInvariant
  import opened ReplicaAgreement
  import opened ReplicaLaws

  /** Three reads, the look at the history record, and its seeding. */
  function OpenMoves(h: nat, now: u64): seq<Move> {
    [Begin(h), Advance(h, now), Advance(h, now), Advance(h, now), Advance(h, now)]
  }

  lemma PlayFirst(root: PublicKey, key: EncryptionKey, m: Member, moves: seq<Move>)
    requires moves != []
    ensures Play(root, key, m, moves) == Play(root, key, Make(root, key, m, moves[0]), moves[1..])
  {
    hide Make;
    PlaySplit(root, key, m, [moves[0]], moves[1..]);
    assert [moves[0]] + moves[1..] == moves;
    assert [moves[0]][..0] == [] && Play(root, key, m, []) == m;
  }

  lemma PlayTwo(root: PublicKey, key: EncryptionKey, m: Member, a: Move, b: Move)
    ensures Play(root, key, m, [a, b]) == Make(root, key, Make(root, key, m, a), b)
  {
    hide Make;
    assert [a, b][..1] == [a] && [a][..0] == [];
    assert Play(root, key, m, []) == m && Play(root, key, m, [a]) == Make(root, key, m, a);
  }

  /** The replica that `open` makes of the current records. */
  function Stored(store: MemberStore, e: Entry): Replica
    requires ConfigEnvelope in store.records && ConfigHead in store.records && ConfigSigner in store.records
  {
    Replica(e.config, HeadOf(e.envelope), store.records[ConfigEnvelope].version, store.records[ConfigHead].version, store.records[ConfigSigner].version)
  }

  /** When the member can open what it has stored. */
  predicate StoredInForce(store: MemberStore, c: Config, key: EncryptionKey, now: u64)
    requires ConfigSigner in store.records && store.records[ConfigSigner].value.SignerBytes?
  {
    var signer := store.records[ConfigSigner].value.signer.payload;
    key in MemberKeys(c) && signer.notBefore <= now < signer.expires && ValidFrom(c) <= now < ValidUntil(c)
  }

  lemma AtAgain(m: Member, h: nat, s: Stage, t: Stage)
    ensures At(At(m, h, s), h, t) == At(m, h, t)
  {
    assert m.stages[h := s][h := t] == m.stages[h := t];
  }

  /** The three reads and the checks. */
  lemma ReadsOpen(keys: AuthorityKeys, log: seq<Entry>, lo: nat, n: nat, m: Member, h: nat, key: EncryptionKey, now: u64)
    requires Sequential(keys, log) && RecordsOn(keys.root, log, lo, n, m.store) && h !in m.stages
    ensures Play(keys.root, key, m, [Begin(h), Advance(h, now), Advance(h, now)]) ==
            if StoredInForce(m.store, log[n].config, key, now) then At(m, h, ReadingHistory(Stored(m.store, log[n]), log[n].envelope)) else m
  {
    hide Sequential, OpenReplica, Play, HistoryWithin, Complete, Commit, MemberKeys, ValidFrom, ValidUntil, SignerFits;
    ReopensExactlyWhen(keys, log, lo, n, m.store, key, now);
    var moves := [Begin(h), Advance(h, now), Advance(h, now)];
    PlayFirst(keys.root, key, m, moves);
    assert moves[1..] == [Advance(h, now), Advance(h, now)];
    var first := ReadingHead(m.store.records[ConfigEnvelope]);
    var second := ReadingSigner(m.store.records[ConfigEnvelope], m.store.records[ConfigHead]);
    PlayTwo(keys.root, key, At(m, h, first), Advance(h, now), Advance(h, now));
    AtAgain(m, h, first, second);
    AtAgain(m, h, second, ReadingHistory(Stored(m.store, log[n]), log[n].envelope));
    assert m.stages[h := second] - {h} == m.stages;
  }

  /** The history record is there and right, or is written. */
  lemma HistoryOpens(root: PublicKey, log: seq<Entry>, lo: nat, n: nat, m: Member, h: nat, key: EncryptionKey, now: u64)
    requires Linked(log) && RecordsOn(root, log, lo, n, m.store) && h !in m.stages
    ensures var r := Stored(m.store, log[n]);
            var v := Play(root, key, At(m, h, ReadingHistory(r, log[n].envelope)), [Advance(h, now), Advance(h, now)]);
            && v.stages == m.stages[h := Holding(r)] && RecordsOn(root, log, lo, n, v.store) && Complete(log, lo, n, v.store) && Fresh(v.store, r)
  {
    hide Play, Linked, Complete, Commit, SignerFits, OpenReplica;
    var r, e := Stored(m.store, log[n]), log[n].envelope;
    var slot := ConfigHistory(r.head.revision);
    PlayTwo(root, key, At(m, h, ReadingHistory(r, e)), Advance(h, now), Advance(h, now));
    AtAgain(m, h, ReadingHistory(r, e), Holding(r));
    AtAgain(m, h, ReadingHistory(r, e), Seeding(r, e));
    AtAgain(m, h, Seeding(r, e), Holding(r));
    LastRevision(log, n);
    if slot in m.store.records {
      HistoryMeansComplete(root, log, lo, n, m.store, r.head.revision);
    } else {
      var op := Put(slot, EnvelopeBytes(e), Missing);
      SeedWrites(m.store, op);
      assert Between(log, lo, n, n);
      SeedRecords(root, log, lo, n, m.store, r, e);
    }
  }

  /** In any store: the history record of the opened revision is accepted if it is the same envelope,
      written if there is none, and anything else closes the replica. */
  lemma HistoryRecordDecides(root: PublicKey, key: EncryptionKey, m: Member, h: nat, r: Replica, e: Envelope, now: u64)
    requires h in m.stages && m.stages[h] == ReadingHistory(r, e)
    ensures var slot, v := ConfigHistory(r.head.revision), Play(root, key, m, [Advance(h, now), Advance(h, now)]);
            if slot !in m.store.records then
              && v.stages == m.stages[h := Holding(r)]
              && v.store.records == m.store.records[slot := Record(m.store.nextRecord, EnvelopeBytes(e))]
            else if m.store.records[slot].value == EnvelopeBytes(e) then v == m.(stages := m.stages[h := Holding(r)])
            else v == m.(stages := m.stages - {h})
  {
    hide Play, OpenReplica, Commit;
    var slot := ConfigHistory(r.head.revision);
    PlayTwo(root, key, m, Advance(h, now), Advance(h, now));
    AtAgain(m, h, Seeding(r, e), Holding(r));
    if slot !in m.store.records {
      SeedWrites(m.store, Put(slot, EnvelopeBytes(e), Missing));
    }
  }

  /** A replica whose seeding comes too late is held exactly if the record it finds is the envelope it
      opened. */
  lemma LateSeedingDecides(root: PublicKey, key: EncryptionKey, m: Member, h: nat, r: Replica, e: Envelope, now: u64)
    requires h in m.stages && m.stages[h] == Seeding(r, e) && ConfigHistory(r.head.revision) in m.store.records
    ensures Play(root, key, m, [Advance(h, now), Advance(h, now)]) ==
            if m.store.records[ConfigHistory(r.head.revision)].value == EnvelopeBytes(e) then m.(stages := m.stages[h := Holding(r)])
            else m.(stages := m.stages - {h})
  {
    hide Play, OpenReplica, ApplyOps;
    var ops := [Put(ConfigHistory(r.head.revision), EnvelopeBytes(e), Missing)];
    assert !Holds(m.store.records, ops[0]);
    PlayTwo(root, key, m, Advance(h, now), Advance(h, now));
    AtAgain(m, h, Reseeding(r, e), Holding(r));
    assert m.stages[h := Reseeding(r, e)] - {h} == m.stages - {h};
  }

  lemma SeedWrites(store: MemberStore, op: Op<Slot, Content>)
    requires op.Put? && op.expected.Missing? && op.key !in store.records
    ensures Commit(store, [op]).Ok? && Commit(store, [op]).value.records == store.records[op.key := Record(store.nextRecord, op.value)]
  {
    var ops := [op];
    assert ops[..0] == [] && ApplyOps(store, []) == store;
    assert forall i :: 0 <= i < |ops| ==> Holds(store.records, ops[i]);
  }

  lemma LastRevision(log: seq<Entry>, n: nat)
    requires Linked(log) && n < |log|
    ensures log[n].envelope.body.revision - FirstRevision(log) == n
  {
    hide Carries;
  }

  /** After any schedule, an undisturbed `open` ends holding exactly the revision the member stands
      at, with its whole history and current record versions, exactly while the stored certificate
      and the snapshot are in force and the member is in it; otherwise it changes nothing. */
  lemma ReopensAfterAnyRun(keys: AuthorityKeys, log: seq<Entry>, lo: nat, store: MemberStore, moves: seq<Move>, h: nat, key: EncryptionKey, now: u64)
    returns (n: nat)
    requires Sequential(keys, log) && Joined(keys.root, log, lo, store) && AuthenticMoves(log, moves)
    requires h !in Play(keys.root, key, Member(store, map[]), moves).stages
    ensures var m := Play(keys.root, key, Member(store, map[]), moves);
            var v := Play(keys.root, key, Member(store, map[]), moves + OpenMoves(h, now));
            && RecordsOn(keys.root, log, lo, n, m.store)
            && if StoredInForce(m.store, log[n].config, key, now) then
                 && v.stages == m.stages[h := Holding(Stored(m.store, log[n]))] && Fresh(v.store, Stored(m.store, log[n]))
                 && RecordsOn(keys.root, log, lo, n, v.store) && Complete(log, lo, n, v.store)
               else v == m
  {
    hide Sequential, Linked, Play, AuthenticMoves, StageOk, StoredInForce, Complete, ShowsRevision, HistoryWithin, Make, Fresh;
    SequentialIsLinked(keys, log);
    n := PlayStands(keys, log, lo, lo, Member(store, map[]), moves, key);
    var m := Play(keys.root, key, Member(store, map[]), moves);
    PlaySplit(keys.root, key, Member(store, map[]), moves, OpenMoves(h, now));
    var looks, rest := [Begin(h), Advance(h, now), Advance(h, now)], [Advance(h, now), Advance(h, now)];
    assert looks + rest == OpenMoves(h, now);
    PlaySplit(keys.root, key, m, looks, rest);
    ShownRecords(keys.root, m.store, log[n].envelope);
    ReadsOpen(keys, log, lo, n, m, h, key, now);
    if StoredInForce(m.store, log[n].config, key, now) {
      HistoryOpens(keys.root, log, lo, n, m, h, key, now);
    } else {
      PlayTwo(keys.root, key, m, Advance(h, now), Advance(h, now));
      NothingOpen(keys.root, key, m, h, now);
    }
  }

  lemma ShownRecords(root: PublicKey, store: MemberStore, e: Envelope)
    requires ShowsRevision(root, store, e)
    ensures ConfigEnvelope in store.records && ConfigHead in store.records && ConfigSigner in store.records && store.records[ConfigSigner].value.SignerBytes?
  {
    hide SignerFits;
  }

  lemma NothingOpen(root: PublicKey, key: EncryptionKey, m: Member, h: nat, now: u64)
    requires h !in m.stages
    ensures Make(root, key, m, Advance(h, now)) == m
  {
    hide AdvanceOpen, AdvanceApply;
  }

  // ---- an update as a run of moves ----

  function ApplyMoves(h: nat, updates: UpdateBatch, now: u64): seq<Move> {
    [Deliver(h, updates, now), Advance(h, now), Advance(h, now), Advance(h, now), Advance(h, now)]
  }

  lemma PlayFive(root: PublicKey, key: EncryptionKey, m: Member, h: nat, updates: UpdateBatch, now: u64)
    ensures var again := Advance(h, now);
            Play(root, key, m, ApplyMoves(h, updates, now)) ==
            Make(root, key, Make(root, key, Make(root, key, Make(root, key, Make(root, key, m, Deliver(h, updates, now)), again), again), again), again)
  {
    hide Make, Play;
    var again := Advance(h, now);
    var moves := ApplyMoves(h, updates, now);
    PlayFirst(root, key, m, moves);
    var m1 := Make(root, key, m, moves[0]);
    assert moves[1..] == [again, again] + [again, again];
    PlaySplit(root, key, m1, [again, again], [again, again]);
    PlayTwo(root, key, m1, again, again);
    PlayTwo(root, key, Make(root, key, Make(root, key, m1, again), again), again, again);
  }

  lemma AppliedStage(m: Member, h: nat, r: Replica, u: Update)
    requires h in m.stages && m.stages[h] == Writing(r, u)
    ensures Commit(m.store, UpdateOps(r, u)).Err? ==> AdvanceApply(m, h) == At(m, h, Holding(r))
    ensures Commit(m.store, UpdateOps(r, u)).Ok? ==>
            var t := Commit(m.store, UpdateOps(r, u)).value;
            var one := AdvanceApply(m, h);
            && one == At(m.(store := t), h, Checking(r, u))
            && (ConfigEnvelope in t.records && ConfigHead in t.records && ConfigSigner in t.records ==>
                  AdvanceApply(AdvanceApply(AdvanceApply(one, h), h), h) == At(m.(store := t), h, Holding(ReadBack(t, r, u).replica)))
  {
    hide Commit, UpdateOps;
    if Commit(m.store, UpdateOps(r, u)).Ok? {
      var t := Commit(m.store, UpdateOps(r, u)).value;
      var n := m.(store := t);
      if ConfigEnvelope in t.records && ConfigHead in t.records && ConfigSigner in t.records {
        var two := CheckingHead(r, u, t.records[ConfigEnvelope]);
        var three := CheckingSigner(r, u, t.records[ConfigEnvelope], t.records[ConfigHead]);
        AtAgain(n, h, Checking(r, u), two);
        AtAgain(n, h, two, three);
        AtAgain(n, h, three, Holding(ReadBack(t, r, u).replica));
      }
    }
  }

  /** An undisturbed `apply` is the run of its moves: the same records, the same cached fields, and
      nothing of anybody else's. */
  lemma ApplyIsPlay(root: PublicKey, key: EncryptionKey, m: Member, h: nat, r: Replica, updates: UpdateBatch, now: u64)
    requires h in m.stages && m.stages[h] == Holding(r)
    ensures var o := ApplyAlone(root, key, m.store, r, updates, now);
            Play(root, key, m, ApplyMoves(h, updates, now)) == At(m.(store := o.store), h, Holding(o.replica))
  {
    hide Play, CheckUpdates, Commit, UpdateOps, AdvanceOpen, ReadBack;
    PlayFive(root, key, m, h, updates, now);
    assert m.stages[h := Holding(r)] == m.stages;
    var checked := CheckUpdates(root, key, r, updates, now);
    if checked.Ok? && checked.value.Some? {
      var u := checked.value.value;
      var w := At(m, h, Writing(r, u));
      AppliedStage(w, h, r, u);
      AtAgain(m, h, Writing(r, u), Holding(r));
      if Commit(m.store, UpdateOps(r, u)).Ok? {
        CheckedWrites(root, key, m.store, r, updates, now);
        ReadBackStore(Commit(m.store, UpdateOps(r, u)).value, r, u);
        var t := m.(store := Commit(m.store, UpdateOps(r, u)).value);
        AtAgain(t, h, Writing(r, u), Checking(r, u));
        AtAgain(t, h, Writing(r, u), Holding(ReadBack(t.store, r, u).replica));
        AppliedThree(root, key, At(t, h, Checking(r, u)), h, now);
      } else {
        HoldingStays(root, key, At(m, h, Holding(r)), h, now);
      }
    } else {
      HoldingStays(root, key, m, h, now);
    }
  }

  lemma HoldingStays(root: PublicKey, key: EncryptionKey, m: Member, h: nat, now: u64)
    requires h in m.stages && m.stages[h].Holding?
    ensures Make(root, key, m, Advance(h, now)) == m
  {
  }

  lemma AppliedThree(root: PublicKey, key: EncryptionKey, m: Member, h: nat, now: u64)
    requires h in m.stages && m.stages[h].Checking?
    requires ConfigEnvelope in m.store.records && ConfigHead in m.store.records && ConfigSigner in m.store.records
    ensures var again := Advance(h, now);
            Make(root, key, Make(root, key, Make(root, key, m, again), again), again) == AdvanceApply(AdvanceApply(AdvanceApply(m, h), h), h)
  {
    hide AdvanceOpen;
  }

  /** A checked update writes all three records. */
  lemma CheckedWrites(root: PublicKey, key: EncryptionKey, store: MemberStore, r: Replica, updates: UpdateBatch, now: u64)
    requires CheckUpdates(root, key, r, updates, now).Ok? && CheckUpdates(root, key, r, updates, now).value.Some?
    requires Commit(store, UpdateOps(r, CheckUpdates(root, key, r, updates, now).value.value)).Ok?
    ensures var t := Commit(store, UpdateOps(r, CheckUpdates(root, key, r, updates, now).value.value)).value;
            ConfigEnvelope in t.records && ConfigHead in t.records && ConfigSigner in t.records
  {
    hide Commit, Follow;
    var u := CheckUpdates(root, key, r, updates, now).value.value;
    BatchRevisions(updates);
    OpsDistinct(r, u);
    CommitEffect(store, UpdateOps(r, u));
    var ops := UpdateOps(r, u);
    assert ops[0].key == ConfigEnvelope && ops[1].key == ConfigHead && ops[2].key == ConfigSigner;
  }

  lemma BatchRevisions(updates: UpdateBatch)
    requires BatchOk(updates)
    ensures AllDecode(updates.envelopes) && DistinctRevisions(Unwrap(updates.envelopes))
  {
    BatchDecodes(updates);
    forall i | 0 <= i < |updates.envelopes|
      ensures updates.envelopes[i].value.body.revision == updates.base.revision + 1 + i
    {
      assert LinkOk(updates.network, updates.base, updates.envelopes, i);
    }
  }
}
