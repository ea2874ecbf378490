/** What the record versions a member's handle caches are worth: an update takes the versions it
    finds after its write only if it finds its own records, and gives up when another handle has
    overtaken it. */
module ReplicaVersions {
  import opened Prelude
  import opened Credentials
  import opened Configs
  import opened Envelopes
  import opened AuthorityOps
  import opened AuthorityLog
  import opened AuthorityInvariant
  import opened UpdateBatches
  import opened VersionedStore
  import opened Replica
  import opened ReplicaRuns
  import opened ReplicaInvariant
  import opened ReplicaAgreement

  /** An update is written exactly if all three records are at the versions the handle last saw and none
      of its revisions has a history record. */
  lemma WritesExactlyWhen(store: MemberStore, r: Replica, u: Update)
    ensures Commit(store, UpdateOps(r, u)).Ok? <==>
            && ConfigEnvelope in store.records && store.records[ConfigEnvelope].version == r.envelopeVersion
            && ConfigHead in store.records && store.records[ConfigHead].version == r.headVersion
            && ConfigSigner in store.records && store.records[ConfigSigner].version == r.signerVersion
            && (forall i :: 0 <= i < |u.envelopes| ==> ConfigHistory(u.envelopes[i].body.revision) !in store.records)
  {
    var ops, puts := UpdateOps(r, u), HistoryPuts(u.envelopes);
    assert forall i :: 3 <= i < |ops| ==> ops[i] == puts[i - 3];
    assert forall i :: 0 <= i < |puts| ==> ops[i + 3] == puts[i];
    assert Accepts(store, ops) ==> Holds(store.records, ops[0]) && Holds(store.records, ops[1]) && Holds(store.records, ops[2]);
    if Accepts(store, ops) {
      forall i | 0 <= i < |u.envelopes|
        ensures ConfigHistory(u.envelopes[i].body.revision) !in store.records
      {
        assert Holds(store.records, ops[i + 3]);
      }
    }
  }

  // ---- how a move changes the two current records ----

  predicate SameSlot(s: MemberStore, t: MemberStore, k: Slot) {
    (k in s.records <==> k in t.records) && (k in s.records ==> s.records[k] == t.records[k])
  }

  predicate ShownEnvelope(store: MemberStore) {
    ConfigEnvelope in store.records && store.records[ConfigEnvelope].value.EnvelopeBytes? && ConfigHead in store.records
  }

  /** Both records stay, or both get new versions and show a later revision. */
  predicate Shifts(s: MemberStore, t: MemberStore) {
    && s.nextRecord <= t.nextRecord && ShownEnvelope(s) && ShownEnvelope(t)
    && ((SameSlot(s, t, ConfigEnvelope) && SameSlot(s, t, ConfigHead))
        || (&& s.nextRecord <= t.records[ConfigEnvelope].version < t.nextRecord && s.nextRecord <= t.records[ConfigHead].version < t.nextRecord
            && s.records[ConfigEnvelope].value.envelope.body.revision < t.records[ConfigEnvelope].value.envelope.body.revision))
  }

  lemma ShownStill(root: PublicKey, log: seq<Entry>, lo: nat, n: nat, m: Member)
    requires Stands(root, log, lo, n, m)
    ensures ShownEnvelope(m.store) && Shifts(m.store, m.store) && n < |log| && m.store.records[ConfigEnvelope].value.envelope == log[n].envelope
    ensures m.store.records[ConfigHead].value == HeadBytes(HeadOf(log[n].envelope)) && ConfigSigner in m.store.records
  {
    hide StageOk, HistoryWithin, Complete, SignerFits;
  }

  lemma SeedShifts(store: MemberStore, op: Op<Slot, Content>)
    requires ShownEnvelope(store) && op.key.ConfigHistory? && Commit(store, [op]).Ok?
    ensures Shifts(store, Commit(store, [op]).value)
  {
    hide Commit;
    CommitEffect(store, [op]);
    assert Untouched([op], ConfigEnvelope) && Untouched([op], ConfigHead);
  }

  lemma WriteShifts(root: PublicKey, log: seq<Entry>, lo: nat, n: nat, m: Member, h: nat)
    requires Linked(log) && Stands(root, log, lo, n, m) && h in m.stages && m.stages[h].Writing?
    requires Commit(m.store, UpdateOps(m.stages[h].replica, m.stages[h].update)).Ok?
    ensures Shifts(m.store, Commit(m.store, UpdateOps(m.stages[h].replica, m.stages[h].update)).value)
    ensures m.stages[h].update.head == HeadOf(m.stages[h].update.link.envelope)
  {
    hide Stands, Linked, Commit, Complete, IsSlice, SignerFits;
    StageHere(root, log, lo, n, m, h);
    ShownStill(root, log, lo, n, m);
    var r, u := m.stages[h].replica, m.stages[h].update;
    var i :| Between(log, lo, n, i) && log[i].config == r.config && HeadOf(log[i].envelope) == r.head && UpdateFrom(root, log, i, u);
    WritesAtEnd(log, lo, n, m.store, r, i, u);
    WriteShows(root, log, n, m.store, r, u);
    LaterRevision(log, n, u.envelopes);
    WriteFresh(log, n, m.store, r, u);
  }

  lemma WriteFresh(log: seq<Entry>, n: nat, store: MemberStore, r: Replica, u: Update)
    requires Linked(log) && IsSlice(log, n, u.envelopes) && Commit(store, UpdateOps(r, u)).Ok?
    ensures var t := Commit(store, UpdateOps(r, u)).value;
            && store.nextRecord <= t.nextRecord && ConfigEnvelope in t.records && ConfigHead in t.records
            && store.nextRecord <= t.records[ConfigEnvelope].version < t.nextRecord && store.nextRecord <= t.records[ConfigHead].version < t.nextRecord
  {
    hide Linked, Commit;
    var ops := UpdateOps(r, u);
    UpdateKeysDistinct(log, n, r, u);
    CommitEffect(store, ops);
    assert ops[0].key == ConfigEnvelope && ops[1].key == ConfigHead;
  }

  lemma LaterRevision(log: seq<Entry>, n: nat, envelopes: seq<Envelope>)
    requires Linked(log) && n < |log| && envelopes != [] && IsSlice(log, n, envelopes)
    ensures n + |envelopes| < |log| && log[n].envelope.body.revision < log[n + |envelopes|].envelope.body.revision
  {
    hide Carries;
    assert log[n].envelope.body.revision == FirstRevision(log) + n;
    assert log[n + |envelopes|].envelope.body.revision == FirstRevision(log) + n + |envelopes|;
  }

  lemma MoveShifts(keys: AuthorityKeys, log: seq<Entry>, lo: nat, n: nat, m: Member, move: Move, key: EncryptionKey)
    requires Linked(log) && Stands(keys.root, log, lo, n, m)
    ensures Shifts(m.store, Make(keys.root, key, m, move).store)
  {
    hide Stands, Linked, Commit, CheckUpdates, OpenReplica, UpdateOps, Shifts;
    ShownStill(keys.root, log, lo, n, m);
    if move.Advance? && move.h in m.stages {
      var s := m.stages[move.h];
      if s.Writing? && Commit(m.store, UpdateOps(s.replica, s.update)).Ok? {
        WriteShifts(keys.root, log, lo, n, m, move.h);
      } else if s.Seeding? {
        var op := Put(ConfigHistory(s.replica.head.revision), EnvelopeBytes(s.envelope), Missing);
        if Commit(m.store, [op]).Ok? {
          SeedShifts(m.store, op);
        }
      }
    }
  }

  // ---- what a handle remembers ----

  predicate Recalls(store: MemberStore, k: Slot, record: Record<Content>) {
    record.version < store.nextRecord && (k in store.records && store.records[k].version == record.version ==> store.records[k] == record)
  }

  /** While a version the handle caches is the stored one, so is the revision it caches. */
  predicate Truthful(store: MemberStore, r: Replica) {
    && r.head.hash.Digest?
    && Recalls(store, ConfigEnvelope, Record(r.envelopeVersion, EnvelopeBytes(r.head.hash.envelope)))
    && Recalls(store, ConfigHead, Record(r.headVersion, HeadBytes(r.head)))
  }

  /** The envelope read back is of the log, no older than the update's, no newer than the stored one,
      and still the stored one exactly if its version is. */
  ghost predicate SawBack(log: seq<Entry>, store: MemberStore, u: Update, e: Record<Content>) {
    && e.value.EnvelopeBytes? && (exists k :: 0 <= k < |log| && log[k].envelope == e.value.envelope) && ShownEnvelope(store)
    && u.head.revision <= e.value.envelope.body.revision <= store.records[ConfigEnvelope].value.envelope.body.revision
    && (store.records[ConfigEnvelope].value == e.value <==> store.records[ConfigEnvelope].version == e.version)
  }

  predicate OwnLink(u: Update) {
    u.head == HeadOf(u.link.envelope)
  }

  ghost predicate StageTrue(log: seq<Entry>, store: MemberStore, s: Stage) {
    match s
    case ReadingHead(e) => Recalls(store, ConfigEnvelope, e)
    case ReadingSigner(e, h) => Recalls(store, ConfigEnvelope, e) && Recalls(store, ConfigHead, h)
    case ReadingHistory(r, _) => Truthful(store, r)
    case Seeding(r, _) => Truthful(store, r)
    case Reseeding(r, _) => Truthful(store, r)
    case Holding(r) => Truthful(store, r)
    case Writing(r, _) => Truthful(store, r)
    case Checking(r, u) => Truthful(store, r) && OwnLink(u)
    case CheckingHead(r, u, e) => Truthful(store, r) && OwnLink(u) && Recalls(store, ConfigEnvelope, e) && SawBack(log, store, u, e)
    case CheckingSigner(r, u, e, h) => Truthful(store, r) && OwnLink(u) && Recalls(store, ConfigEnvelope, e) && Recalls(store, ConfigHead, h)
  }

  predicate Bounded(store: MemberStore) {
    forall k :: k in store.records ==> store.records[k].version < store.nextRecord
  }

  /** The two current records have versions the store has given out. */
  predicate CurrentBounded(store: MemberStore) {
    && (ConfigEnvelope in store.records ==> store.records[ConfigEnvelope].version < store.nextRecord)
    && (ConfigHead in store.records ==> store.records[ConfigHead].version < store.nextRecord)
  }

  ghost predicate AllTrue(log: seq<Entry>, m: Member) {
    CurrentBounded(m.store) && forall h :: h in m.stages ==> StageTrue(log, m.store, m.stages[h])
  }

  lemma RecallsStays(s: MemberStore, t: MemberStore, k: Slot, record: Record<Content>)
    requires Shifts(s, t) && Recalls(s, k, record) && (k.ConfigEnvelope? || k.ConfigHead?)
    ensures Recalls(t, k, record)
  {
  }

  lemma TrueStays(log: seq<Entry>, s: MemberStore, t: MemberStore, stage: Stage)
    requires Shifts(s, t) && StageTrue(log, s, stage)
    ensures StageTrue(log, t, stage)
  {
    hide Recalls, Shifts, SawBack;
    if stage.ReadingHead? || stage.ReadingSigner? {
      RecallsStays(s, t, ConfigEnvelope, stage.envelopeRecord);
      if stage.ReadingSigner? {
        RecallsStays(s, t, ConfigHead, stage.headRecord);
      }
    } else {
      var r := stage.replica;
      RecallsStays(s, t, ConfigEnvelope, Record(r.envelopeVersion, EnvelopeBytes(r.head.hash.envelope)));
      RecallsStays(s, t, ConfigHead, Record(r.headVersion, HeadBytes(r.head)));
      if stage.CheckingHead? || stage.CheckingSigner? {
        RecallsStays(s, t, ConfigEnvelope, stage.envelopeRecord);
      }
      if stage.CheckingHead? {
        SawStaysBack(log, s, t, stage.update, stage.envelopeRecord);
      }
      if stage.CheckingSigner? {
        RecallsStays(s, t, ConfigHead, stage.headRecord);
      }
    }
  }

  lemma SawStaysBack(log: seq<Entry>, s: MemberStore, t: MemberStore, u: Update, e: Record<Content>)
    requires Shifts(s, t) && SawBack(log, s, u, e) && Recalls(s, ConfigEnvelope, e)
    ensures SawBack(log, t, u, e)
  {
  }

  lemma Fresh(store: MemberStore, k: Slot)
    requires CurrentBounded(store) && k in store.records && (k.ConfigEnvelope? || k.ConfigHead?)
    ensures Recalls(store, k, store.records[k])
  {
  }

  /** The acting handle's new stage, seen over the old records. */
  lemma OpeningTrue(keys: AuthorityKeys, log: seq<Entry>, lo: nat, n: nat, m: Member, h: nat, key: EncryptionKey, now: u64)
    requires Linked(log) && Stands(keys.root, log, lo, n, m) && AllTrue(log, m) && h in m.stages
    requires !m.stages[h].Writing? && !m.stages[h].Checking? && !m.stages[h].CheckingHead? && !m.stages[h].CheckingSigner?
    ensures var v := AdvanceOpen(keys.root, key, m, h, now); h in v.stages ==> StageTrue(log, m.store, v.stages[h])
  {
    hide Stands, Linked, OpenReplica, Commit, Recalls, SawBack;
    ShownStill(keys.root, log, lo, n, m);
    assert StageTrue(log, m.store, m.stages[h]);
    Fresh(m.store, ConfigHead);
    match m.stages[h]
    case ReadingSigner(e, head) =>
      if e.value.EnvelopeBytes? && head.value.HeadBytes? && m.store.records[ConfigSigner].value.SignerBytes?
         && OpenReplica(keys.root, key, e, head, m.store.records[ConfigSigner], now).Ok? {
        OpenedVersions(keys.root, key, e, head, m.store.records[ConfigSigner], now);
      }
    case _ =>
  }

  lemma OpenedVersions(root: PublicKey, key: EncryptionKey, e: Record<Content>, head: Record<Content>, signer: Record<Content>, now: u64)
    requires e.value.EnvelopeBytes? && head.value.HeadBytes? && signer.value.SignerBytes? && OpenReplica(root, key, e, head, signer, now).Ok?
    ensures var r := OpenReplica(root, key, e, head, signer, now).value;
            r.head == head.value.head == HeadOf(e.value.envelope) && r.envelopeVersion == e.version && r.headVersion == head.version
  {
    hide VerifyAdmin, OpenWithAdmin, Genuine;
    var admin := VerifyAdmin(signer.value.signer, root, NetworkId(root), now, {}).value;
    OpensCheckpointExactlyWhen(e.value.envelope, root, admin, key, head.value.head, now);
  }

  lemma JustReadBack(root: PublicKey, log: seq<Entry>, lo: nat, n: nat, m: Member, h: nat)
    requires Linked(log) && Stands(root, log, lo, n, m) && h in m.stages && m.stages[h].Checking?
    ensures ShownEnvelope(m.store) && SawBack(log, m.store, m.stages[h].update, m.store.records[ConfigEnvelope])
  {
    hide Stands, Linked, Complete, RecordsOn;
    ShownStill(root, log, lo, n, m);
    StageHere(root, log, lo, n, m, h);
    var u := m.stages[h].update;
    var i :| Between(log, lo, n, i) && log[i].config == u.config && HeadOf(log[i].envelope) == u.head;
    LogOrdered(log, i, n);
  }

  lemma ApplyingTrue(keys: AuthorityKeys, log: seq<Entry>, lo: nat, n: nat, m: Member, h: nat)
    requires Linked(log) && Stands(keys.root, log, lo, n, m) && AllTrue(log, m) && h in m.stages
    requires m.stages[h].Writing? || m.stages[h].Checking? || m.stages[h].CheckingHead? || m.stages[h].CheckingSigner?
    ensures var v := AdvanceApply(m, h); h in v.stages && StageTrue(log, m.store, v.stages[h])
  {
    hide Stands, Linked, Commit, UpdateOps, Recalls, SawBack;
    ShownStill(keys.root, log, lo, n, m);
    assert StageTrue(log, m.store, m.stages[h]);
    Fresh(m.store, ConfigEnvelope);
    Fresh(m.store, ConfigHead);
    match m.stages[h]
    case Writing(r, u) =>
      if Commit(m.store, UpdateOps(r, u)).Ok? {
        WriteShifts(keys.root, log, lo, n, m, h);
      }
    case Checking(r, u) => JustReadBack(keys.root, log, lo, n, m, h);
    case CheckingHead(r, u, e) =>
    case CheckingSigner(r, u, e, head) =>
  }

  lemma MoverTrue(keys: AuthorityKeys, log: seq<Entry>, lo: nat, n: nat, m: Member, move: Move, key: EncryptionKey)
    requires Linked(log) && Stands(keys.root, log, lo, n, m) && AllTrue(log, m)
    ensures var v := Make(keys.root, key, m, move); move.h in v.stages ==> StageTrue(log, m.store, v.stages[move.h])
  {
    hide Stands, Linked, AdvanceOpen, AdvanceApply, CheckUpdates, Recalls, SawBack;
    ShownStill(keys.root, log, lo, n, m);
    Fresh(m.store, ConfigEnvelope);
    if move.h in m.stages {
      assert StageTrue(log, m.store, m.stages[move.h]);
      if move.Advance? {
        var s := m.stages[move.h];
        if s.Writing? || s.Checking? || s.CheckingHead? || s.CheckingSigner? {
          ApplyingTrue(keys, log, lo, n, m, move.h);
        } else {
          OpeningTrue(keys, log, lo, n, m, move.h, key, move.now);
        }
      }
    }
  }

  lemma OthersStay(root: PublicKey, key: EncryptionKey, m: Member, move: Move, g: nat)
    requires g != move.h
    ensures var v := Make(root, key, m, move); (g in v.stages <==> g in m.stages) && (g in m.stages ==> v.stages[g] == m.stages[g])
  {
    hide OpenReplica, Commit, UpdateOps, CheckUpdates;
  }

  /** Every move keeps what all handles remember true. */
  lemma MoveKeepsTrue(keys: AuthorityKeys, log: seq<Entry>, lo: nat, n: nat, m: Member, move: Move, key: EncryptionKey)
    requires Linked(log) && Stands(keys.root, log, lo, n, m) && AllTrue(log, m)
    ensures AllTrue(log, Make(keys.root, key, m, move))
  {
    hide Stands, Linked, Make, StageTrue, Shifts;
    var v := Make(keys.root, key, m, move);
    MoveShifts(keys, log, lo, n, m, move, key);
    MoverTrue(keys, log, lo, n, m, move, key);
    StillBounded(m.store, v.store);
    forall g | g in v.stages
      ensures StageTrue(log, v.store, v.stages[g])
    {
      if g != move.h {
        OthersStay(keys.root, key, m, move, g);
      }
      TrueStays(log, m.store, v.store, v.stages[g]);
    }
  }

  lemma StillBounded(s: MemberStore, t: MemberStore)
    requires Shifts(s, t) && CurrentBounded(s)
    ensures CurrentBounded(t)
  {
  }

  lemma {:induction false} PlayKeepsTrue(keys: AuthorityKeys, log: seq<Entry>, lo: nat, n: nat, m: Member, moves: seq<Move>, key: EncryptionKey)
    requires Linked(log) && Stands(keys.root, log, lo, n, m) && AllTrue(log, m) && AuthenticMoves(log, moves)
    ensures AllTrue(log, Play(keys.root, key, m, moves))
  {
    hide Linked, Stands, Make, AuthenticMove, AllTrue, Complete;
    if moves != [] {
      var front := moves[..|moves| - 1];
      PlayKeepsTrue(keys, log, lo, n, m, front, key);
      var n' := PlayStands(keys, log, lo, n, m, front, key);
      MoveKeepsTrue(keys, log, lo, n', Play(keys.root, key, m, front), moves[|moves| - 1], key);
    }
  }

  /** In every schedule: a handle at rest, one of whose cached versions is the stored one, caches the
      revision that the head record names, snapshot and head. */
  lemma CurrentVersionsCacheHead(keys: AuthorityKeys, log: seq<Entry>, lo: nat, store: MemberStore, moves: seq<Move>, key: EncryptionKey, h: nat)
    requires Linked(log) && Joined(keys.root, log, lo, store) && Bounded(store) && AuthenticMoves(log, moves)
    ensures var m := Play(keys.root, key, Member(store, map[]), moves);
            && ConfigEnvelope in m.store.records && ConfigHead in m.store.records
            && (h in m.stages && m.stages[h].Holding? ==>
                  var r := m.stages[h].replica;
                  r.envelopeVersion == m.store.records[ConfigEnvelope].version || r.headVersion == m.store.records[ConfigHead].version ==>
                    && m.store.records[ConfigHead].value == HeadBytes(r.head)
                    && exists n :: 0 <= n < |log| && m.store.records[ConfigEnvelope].value == EnvelopeBytes(log[n].envelope)
                                && HeadOf(log[n].envelope) == r.head && log[n].config == r.config)
  {
    hide Linked, Play, AuthenticMoves, Complete, HistoryWithin, SignerFits;
    var m0, m := Member(store, map[]), Play(keys.root, key, Member(store, map[]), moves);
    PlayKeepsTrue(keys, log, lo, lo, m0, moves, key);
    var n := PlayStands(keys, log, lo, lo, m0, moves, key);
    ShownStill(keys.root, log, lo, n, m);
    if h in m.stages && m.stages[h].Holding? {
      StageHere(keys.root, log, lo, n, m, h);
      assert StageTrue(log, m.store, m.stages[h]);
    }
  }

  // ---- an update that is overtaken ----

  predicate ByOthers(moves: seq<Move>, h: nat) {
    forall i :: 0 <= i < |moves| ==> moves[i].h != h
  }

  lemma {:induction false} OthersLeave(root: PublicKey, key: EncryptionKey, m: Member, moves: seq<Move>, h: nat)
    requires ByOthers(moves, h) && h in m.stages
    ensures h in Play(root, key, m, moves).stages && Play(root, key, m, moves).stages[h] == m.stages[h]
  {
    hide Make;
    if moves != [] {
      OthersLeave(root, key, m, moves[..|moves| - 1], h);
      OthersStay(root, key, Play(root, key, m, moves[..|moves| - 1]), moves[|moves| - 1], h);
    }
  }

  lemma ReadBackOwn(keys: AuthorityKeys, log: seq<Entry>, lo: nat, n: nat, m: Member, u: Update, e: Record<Content>)
    requires Linked(log) && Stands(keys.root, log, lo, n, m) && OwnLink(u) && SawBack(log, m.store, u, e) && n < |log| && log[n].envelope == u.link.envelope
    ensures ConfigEnvelope in m.store.records && e == m.store.records[ConfigEnvelope] && e.value == EnvelopeBytes(u.link.envelope)
  {
    hide Stands, Carries;
    ShownStill(keys.root, log, lo, n, m);
    var k :| 0 <= k < |log| && log[k].envelope == e.value.envelope;
    assert log[k].envelope.body.revision == FirstRevision(log) + k;
    assert log[n].envelope.body.revision == FirstRevision(log) + n;
  }

  /** An update that has been written ends as the handle's new state, under the versions its own records
      have, exactly if nobody has overtaken it when the head is read back, whatever happens after that.
      Overtaken, the handle keeps the replica it had. */
  lemma KeepsOwnUpdateExactlyWhen(keys: AuthorityKeys, log: seq<Entry>, lo: nat, n: nat, m: Member, h: nat, r: Replica, u: Update, e: Record<Content>,
                                  others: seq<Move>, key: EncryptionKey, now: u64, later: u64)
    requires Linked(log) && Stands(keys.root, log, lo, n, m) && AllTrue(log, m) && n < |log|
    requires h in m.stages && m.stages[h] == CheckingHead(r, u, e) && AuthenticMoves(log, others) && ByOthers(others, h)
    ensures ConfigEnvelope in m.store.records && ConfigHead in m.store.records
    ensures var v := Play(keys.root, key, Make(keys.root, key, m, Advance(h, now)), others);
            && ConfigSigner in v.store.records
            && Make(keys.root, key, v, Advance(h, later)) ==
               At(v, h, Holding(if log[n].envelope == u.link.envelope then
                                  Replica(u.config, u.head, m.store.records[ConfigEnvelope].version, m.store.records[ConfigHead].version,
                                          v.store.records[ConfigSigner].version)
                                else r))
  {
    hide Linked, Stands, Play, Authentic, AdvanceOpen, Apply, Recalls, SawBack;
    ShownStill(keys.root, log, lo, n, m);
    assert StageTrue(log, m.store, m.stages[h]);
    var head := m.store.records[ConfigHead];
    var w := At(m, h, CheckingSigner(r, u, e, head));
    assert Make(keys.root, key, m, Advance(h, now)) == w;
    OthersLeave(keys.root, key, w, others, h);
    var v := Play(keys.root, key, w, others);
    var n1 := MoveStands(keys, log, lo, n, m, Advance(h, now), key);
    var n2 := PlayStands(keys, log, lo, n1, w, others, key);
    ShownStill(keys.root, log, lo, n2, v);
    if log[n].envelope == u.link.envelope {
      ReadBackOwn(keys, log, lo, n, m, u, e);
    }
  }
}
