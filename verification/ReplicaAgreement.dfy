/** Replica agreement over every schedule of every member. */
module ReplicaAgreement {
  import opened Prelude
  import opened Credentials
  import opened Configs
  import opened SnapshotValidation
  import opened Envelopes
  import opened AuthorityOps
  import opened AuthorityLog
  import opened AuthorityInvariant
  import opened UpdateBatches
  import opened VersionedStore
  import opened Replica
  import opened ReplicaRuns
  import opened ReplicaInvariant

  /** A member that has joined at revision `lo` and has no handle open yet. */
  ghost predicate Joined(root: PublicKey, log: seq<Entry>, lo: nat, store: MemberStore) {
    RecordsOn(root, log, lo, lo, store)
  }

  predicate AuthenticMoves(log: seq<Entry>, moves: seq<Move>) {
    forall i :: 0 <= i < |moves| ==> AuthenticMove(log, moves[i])
  }

  lemma {:induction false} PlayStands(keys: AuthorityKeys, log: seq<Entry>, lo: nat, n: nat, m: Member, moves: seq<Move>, key: EncryptionKey)
    returns (n': nat)
    requires Linked(log) && Stands(keys.root, log, lo, n, m) && AuthenticMoves(log, moves)
    ensures Stands(keys.root, log, lo, n', Play(keys.root, key, m, moves))
    ensures Onward(log, lo, n, m, n', Play(keys.root, key, m, moves))
  {
    hide Linked, Stands, Make, AuthenticMove, Complete;
    n' := n;
    StandsBound(keys.root, log, lo, n, m);
    if moves != [] {
      var front := moves[..|moves| - 1];
      n' := PlayStands(keys, log, lo, n, m, front, key);
      n' := MoveStands(keys, log, lo, n', Play(keys.root, key, m, front), moves[|moves| - 1], key);
    }
  }

  lemma {:induction false} PlaySplit(root: PublicKey, key: EncryptionKey, m: Member, a: seq<Move>, b: seq<Move>)
    ensures Play(root, key, m, a + b) == Play(root, key, Play(root, key, m, a), b)
  {
    hide Make;
    if b == [] {
      assert a + b == a;
    } else {
      PlaySplit(root, key, m, a, b[..|b| - 1]);
      assert (a + b)[..|a + b| - 1] == a + b[..|b| - 1];
    }
  }

  /** In every schedule the member's retained history is one contiguous stretch of the log that
      ends at its head, and every open handle stands on that stretch. */
  lemma HistoryIsASlice(keys: AuthorityKeys, log: seq<Entry>, lo: nat, store: MemberStore, moves: seq<Move>, key: EncryptionKey) returns (n: nat)
    requires Linked(log) && Joined(keys.root, log, lo, store) && AuthenticMoves(log, moves)
    ensures var m := Play(keys.root, key, Member(store, map[]), moves);
            && lo <= n < |log|
            && ShowsRevision(keys.root, m.store, log[n].envelope)
            && (forall r: u64 :: ConfigHistory(r) in m.store.records ==>
                  && lo <= r - FirstRevision(log) <= n
                  && m.store.records[ConfigHistory(r)].value == EnvelopeBytes(log[r - FirstRevision(log)].envelope)
                  && Complete(log, lo, n, m.store))
            && (forall h :: h in m.stages && m.stages[h].Holding? ==>
                  Complete(log, lo, n, m.store) && HasPosition(log, lo, n, m.stages[h].replica.config, m.stages[h].replica.head))
  {
    hide Linked, Play, Complete, HasPosition, ShowsRevision;
    n := PlayStands(keys, log, lo, lo, Member(store, map[]), moves, key);
    var m := Play(keys.root, key, Member(store, map[]), moves);
    forall r: u64 | ConfigHistory(r) in m.store.records
      ensures Complete(log, lo, n, m.store)
    {
      HistoryMeansComplete(keys.root, log, lo, n, m.store, r);
    }
    forall h | h in m.stages && m.stages[h].Holding?
      ensures Complete(log, lo, n, m.store) && HasPosition(log, lo, n, m.stages[h].replica.config, m.stages[h].replica.head)
    {
      assert StageOk(keys.root, log, lo, n, m.store, m.stages[h]);
    }
  }

  /** A member's head never goes back in revision or epoch, and its history never changes. */
  lemma NeverGoesBack(keys: AuthorityKeys, log: seq<Entry>, lo: nat, store: MemberStore, moves: seq<Move>, more: seq<Move>, key: EncryptionKey)
    requires Linked(log) && Joined(keys.root, log, lo, store) && AuthenticMoves(log, moves) && AuthenticMoves(log, more)
    ensures var a, b := Play(keys.root, key, Member(store, map[]), moves).store.records, Play(keys.root, key, Member(store, map[]), moves + more).store.records;
            && ConfigHead in a && a[ConfigHead].value.HeadBytes? && ConfigHead in b && b[ConfigHead].value.HeadBytes?
            && a[ConfigHead].value.head.revision <= b[ConfigHead].value.head.revision
            && a[ConfigHead].value.head.epoch <= b[ConfigHead].value.head.epoch
            && (forall r: u64 :: ConfigHistory(r) in a ==> ConfigHistory(r) in b && a[ConfigHistory(r)].value == b[ConfigHistory(r)].value)
  {
    hide Linked, Play, AuthenticMoves, StageOk, SignerFits;
    PlaySplit(keys.root, key, Member(store, map[]), moves, more);
    var m := Play(keys.root, key, Member(store, map[]), moves);
    var n := PlayStands(keys, log, lo, lo, Member(store, map[]), moves, key);
    var n' := PlayStands(keys, log, lo, n, m, more, key);
    var m' := Play(keys.root, key, m, more);
    LogOrdered(log, n, n');
    forall r: u64 | ConfigHistory(r) in m.store.records
      ensures ConfigHistory(r) in m'.store.records && m.store.records[ConfigHistory(r)].value == m'.store.records[ConfigHistory(r)].value
    {
      HistoryMeansComplete(keys.root, log, lo, n, m.store, r);
      RevisionIndex(log, r, n');
    }
  }

  lemma RevisionIndex(log: seq<Entry>, r: u64, n: nat)
    requires Linked(log) && n < |log| && 0 <= r - FirstRevision(log) <= n
    ensures log[r - FirstRevision(log)].envelope.body.revision == r
  {
    hide Carries;
  }

  /** Any two members, each after any schedule of its own, agree wherever their histories overlap,
      and two of their handles at one revision hold the same snapshot. */
  lemma MembersAgree(keys: AuthorityKeys, log: seq<Entry>, lo1: nat, store1: MemberStore, moves1: seq<Move>, key1: EncryptionKey,
                     lo2: nat, store2: MemberStore, moves2: seq<Move>, key2: EncryptionKey)
    requires Linked(log)
    requires Joined(keys.root, log, lo1, store1) && AuthenticMoves(log, moves1)
    requires Joined(keys.root, log, lo2, store2) && AuthenticMoves(log, moves2)
    ensures var a, b := Play(keys.root, key1, Member(store1, map[]), moves1), Play(keys.root, key2, Member(store2, map[]), moves2);
            && (forall r: u64 :: ConfigHistory(r) in a.store.records && ConfigHistory(r) in b.store.records ==>
                  a.store.records[ConfigHistory(r)].value == b.store.records[ConfigHistory(r)].value)
            && (forall g, h :: g in a.stages && h in b.stages && SameRevision(a.stages[g], b.stages[h]) ==>
                  SamePosition(a.stages[g].replica, b.stages[h].replica))
  {
    hide Linked, Play, AuthenticMoves, SamePosition, ShowsRevision, HasPosition, Complete;
    var a, b := Play(keys.root, key1, Member(store1, map[]), moves1), Play(keys.root, key2, Member(store2, map[]), moves2);
    var n1 := HistoryIsASlice(keys, log, lo1, store1, moves1, key1);
    var n2 := HistoryIsASlice(keys, log, lo2, store2, moves2, key2);
    forall g, h | g in a.stages && h in b.stages && SameRevision(a.stages[g], b.stages[h])
      ensures SamePosition(a.stages[g].replica, b.stages[h].replica)
    {
      OnePosition(log, lo1, n1, a.stages[g].replica, lo2, n2, b.stages[h].replica);
    }
  }

  predicate SameRevision(a: Stage, b: Stage) {
    a.Holding? && b.Holding? && a.replica.head.revision == b.replica.head.revision
  }

  predicate SamePosition(a: Replica, b: Replica) {
    a.head == b.head && a.config == b.config
  }

  lemma OnePosition(log: seq<Entry>, lo1: nat, n1: nat, a: Replica, lo2: nat, n2: nat, b: Replica)
    requires Linked(log) && HasPosition(log, lo1, n1, a.config, a.head) && HasPosition(log, lo2, n2, b.config, b.head)
    requires a.head.revision == b.head.revision
    ensures SamePosition(a, b)
  {
    hide Carries;
    var i :| Between(log, lo1, n1, i) && log[i].config == a.config && HeadOf(log[i].envelope) == a.head;
    var j :| Between(log, lo2, n2, j) && log[j].config == b.config && HeadOf(log[j].envelope) == b.head;
    assert log[i].envelope.body.revision == log[j].envelope.body.revision;
    assert i == j;
  }
}
