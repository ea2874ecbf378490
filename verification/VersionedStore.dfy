/** The versioned compare-and-swap map every other module stores its records in. */
module VersionedStore {
  import opened Prelude

  datatype Record<+V> = Record(version: nat, value: V)

  datatype Expected = Any | Missing | Exact(version: nat)

  datatype Op<K, V> = Put(key: K, value: V, expected: Expected) | Delete(key: K, expected: Expected)

  datatype Store<K(==), V> = Store(records: map<K, Record<V>>, nextRecord: nat, nextCommit: nat)

  function Empty<K(==), V>(): Store<K, V> {
    Store(map[], 1, 1)
  }

  predicate Holds<K, V>(records: map<K, Record<V>>, op: Op<K, V>) {
    match op.expected
    case Any => true
    case Missing => op.key !in records
    case Exact(v) => op.key in records && records[op.key].version == v
  }

  function ApplyOp<K, V>(s: Store<K, V>, op: Op<K, V>): Store<K, V> {
    match op
    case Put(k, v, _) => s.(records := s.records[k := Record(s.nextRecord, v)], nextRecord := s.nextRecord + 1)
    case Delete(k, _) => s.(records := s.records - {k})
  }

  /** The operations take effect in batch order. */
  function ApplyOps<K, V>(s: Store<K, V>, ops: seq<Op<K, V>>): Store<K, V> {
    if ops == [] then s else ApplyOp(ApplyOps(s, ops[..|ops| - 1]), ops[|ops| - 1])
  }

  /** A batch names each key at most once; `AtomicBatch` refuses a second operation on a key. */
  predicate DistinctKeys<K(==), V>(ops: seq<Op<K, V>>) {
    forall i, j :: 0 <= i < j < |ops| ==> ops[i].key != ops[j].key
  }

  predicate Accepts<K, V>(s: Store<K, V>, ops: seq<Op<K, V>>) {
    forall i :: 0 <= i < |ops| ==> Holds(s.records, ops[i])
  }

  /** All preconditions are tested against the old state; then all operations apply, or none. */
  function Commit<K, V>(s: Store<K, V>, ops: seq<Op<K, V>>): Result<Store<K, V>, ()> {
    if Accepts(s, ops) then
      var after := ApplyOps(s, ops);
      Ok(after.(nextCommit := after.nextCommit + 1))
    else Err(())
  }

  /** The key is left alone by these operations. */
  predicate Untouched<K(==), V>(ops: seq<Op<K, V>>, k: K) {
    forall i :: 0 <= i < |ops| ==> ops[i].key != k
  }

  function Puts<K, V>(ops: seq<Op<K, V>>): nat {
    if ops == [] then 0 else Puts(ops[..|ops| - 1]) + if ops[|ops| - 1].Put? then 1 else 0
  }

  /** A key the batch puts holds the batch's value under the version its turn gives it; a key
      the batch deletes is gone. */
  lemma {:induction false} ApplyOpsAt<K, V>(s: Store<K, V>, ops: seq<Op<K, V>>, i: nat)
    requires DistinctKeys(ops) && i < |ops|
    ensures var t := ApplyOps(s, ops);
            if ops[i].Put? then
              ops[i].key in t.records && t.records[ops[i].key] == Record(s.nextRecord + Puts(ops[..i]), ops[i].value)
            else ops[i].key !in t.records
    decreases |ops|
  {
    var n := |ops| - 1;
    var front := ops[..n];
    if i == n {
      ApplyOpsCounters(s, front);
    } else {
      ApplyOpsAt(s, front, i);
      assert front[i] == ops[i] && front[..i] == ops[..i];
    }
  }

  /** A key the batch does not name keeps its record, or its absence. */
  lemma {:induction false} ApplyOpsElsewhere<K, V>(s: Store<K, V>, ops: seq<Op<K, V>>, k: K)
    requires Untouched(ops, k)
    ensures k in ApplyOps(s, ops).records <==> k in s.records
    ensures k in s.records ==> ApplyOps(s, ops).records[k] == s.records[k]
  {
    if ops != [] {
      ApplyOpsElsewhere(s, ops[..|ops| - 1], k);
    }
  }

  lemma {:induction false} ApplyOpsCounters<K, V>(s: Store<K, V>, ops: seq<Op<K, V>>)
    ensures ApplyOps(s, ops).nextRecord == s.nextRecord + Puts(ops)
    ensures ApplyOps(s, ops).nextCommit == s.nextCommit
  {
    if ops != [] {
      ApplyOpsCounters(s, ops[..|ops| - 1]);
    }
  }

  lemma {:induction false} PutsBounded<K, V>(ops: seq<Op<K, V>>, i: nat)
    requires i < |ops|
    ensures Puts(ops[..i]) + (if ops[i].Put? then 1 else 0) <= Puts(ops) <= |ops|
    decreases |ops|
  {
    var n := |ops| - 1;
    if i < n {
      PutsBounded(ops[..n], i);
      assert ops[..n][..i] == ops[..i];
    } else if n > 0 {
      PutsBounded(ops[..n], n - 1);
    }
  }

  /** Every key a batch puts gets the batch's value under a fresh version, every key it deletes
      goes, and every other record stays as it was. */
  lemma CommitEffect<K, V>(s: Store<K, V>, ops: seq<Op<K, V>>)
    requires DistinctKeys(ops) && Commit(s, ops).Ok?
    ensures var t := Commit(s, ops).value;
            && (forall i :: 0 <= i < |ops| && ops[i].Put? ==>
                  && ops[i].key in t.records && t.records[ops[i].key].value == ops[i].value
                  && s.nextRecord <= t.records[ops[i].key].version < t.nextRecord)
            && (forall i :: 0 <= i < |ops| && ops[i].Delete? ==> ops[i].key !in t.records)
            && (forall k :: Untouched(ops, k) ==> (k in t.records <==> k in s.records))
            && (forall k :: Untouched(ops, k) && k in s.records ==> t.records[k] == s.records[k])
            && s.nextRecord <= t.nextRecord && t.nextCommit == s.nextCommit + 1
  {
    ApplyOpsCounters(s, ops);
    forall i | 0 <= i < |ops|
      ensures var t := ApplyOps(s, ops);
              if ops[i].Put? then
                && ops[i].key in t.records && t.records[ops[i].key].value == ops[i].value
                && s.nextRecord <= t.records[ops[i].key].version < t.nextRecord
              else ops[i].key !in t.records
    {
      ApplyOpsAt(s, ops, i);
      PutsBounded(ops, i);
    }
    forall k | Untouched(ops, k)
      ensures (k in ApplyOps(s, ops).records <==> k in s.records) && (k in s.records ==> ApplyOps(s, ops).records[k] == s.records[k])
    {
      ApplyOpsElsewhere(s, ops, k);
    }
  }

  /** What a committed batch demanded was true. */
  lemma CommitHolds<K, V>(s: Store<K, V>, ops: seq<Op<K, V>>, i: nat)
    requires Commit(s, ops).Ok? && i < |ops|
    ensures Holds(s.records, ops[i])
  {
  }

  // ---- the order of a batch ----

  /** Same keys, same values; the versions may differ. */
  ghost predicate SameContents<K, V>(s: Store<K, V>, t: Store<K, V>) {
    && s.records.Keys == t.records.Keys
    && (forall k :: k in s.records ==> s.records[k].value == t.records[k].value)
  }

  lemma WithoutOne<T>(s: seq<T>, i: nat)
    requires i < |s|
    ensures multiset(s[..i] + s[i + 1..]) == multiset(s) - multiset{s[i]}
  {
    assert s == s[..i] + [s[i]] + s[i + 1..];
  }

  lemma {:induction false} PutsPermute<K, V>(a: seq<Op<K, V>>, b: seq<Op<K, V>>)
    requires multiset(a) == multiset(b)
    ensures Puts(a) == Puts(b)
    decreases |a|
  {
    assert |multiset(a)| == |a| && |multiset(b)| == |b|;
    if a != [] {
      var n := |a| - 1;
      assert a[n] in multiset(b);
      var i :| 0 <= i < |b| && b[i] == a[n];
      WithoutOne(a, n);
      WithoutOne(b, i);
      assert a[..n] + a[n + 1..] == a[..n];
      PutsPermute(a[..n], b[..i] + b[i + 1..]);
      PutsSplit(b, i);
    }
  }

  lemma {:induction false} PutsSplit<K, V>(b: seq<Op<K, V>>, i: nat)
    requires i < |b|
    ensures Puts(b) == Puts(b[..i] + b[i + 1..]) + if b[i].Put? then 1 else 0
    decreases |b|
  {
    var n := |b| - 1;
    if i == n {
      assert b[..i] + b[i + 1..] == b[..n];
    } else {
      PutsSplit(b[..n], i);
      var rest := b[..i] + b[i + 1..];
      assert b[..n][..i] == b[..i] && b[..n][i + 1..] == b[i + 1..n] && b[i + 1..] == b[i + 1..n] + [b[n]];
      assert rest == b[..i] + b[i + 1..n] + [b[n]];
      assert rest[..|rest| - 1] == b[..n][..i] + b[..n][i + 1..];
    }
  }

  lemma KeysPermute<K, V>(a: seq<Op<K, V>>, b: seq<Op<K, V>>, k: K)
    requires multiset(a) == multiset(b)
    ensures Untouched(a, k) <==> Untouched(b, k)
  {
    forall i | 0 <= i < |a|
      ensures exists j :: 0 <= j < |b| && b[j] == a[i]
    {
      assert a[i] in multiset(b);
    }
    forall j | 0 <= j < |b|
      ensures exists i :: 0 <= i < |a| && a[i] == b[j]
    {
      assert b[j] in multiset(a);
    }
  }

  lemma KeyAfterReorder<K, V>(s: Store<K, V>, a: seq<Op<K, V>>, b: seq<Op<K, V>>, k: K)
    requires DistinctKeys(a) && DistinctKeys(b) && multiset(a) == multiset(b)
    ensures k in ApplyOps(s, a).records <==> k in ApplyOps(s, b).records
    ensures k in ApplyOps(s, a).records ==> ApplyOps(s, a).records[k].value == ApplyOps(s, b).records[k].value
  {
    KeysPermute(a, b, k);
    if Untouched(a, k) {
      ApplyOpsElsewhere(s, a, k);
      ApplyOpsElsewhere(s, b, k);
    } else {
      var i :| 0 <= i < |a| && a[i].key == k;
      assert a[i] in multiset(b);
      var j :| 0 <= j < |b| && b[j] == a[i];
      ApplyOpsAt(s, a, i);
      ApplyOpsAt(s, b, j);
    }
  }

  lemma AcceptsPermute<K, V>(s: Store<K, V>, a: seq<Op<K, V>>, b: seq<Op<K, V>>)
    requires multiset(a) == multiset(b) && Accepts(s, a)
    ensures Accepts(s, b)
  {
    forall j | 0 <= j < |b|
      ensures Holds(s.records, b[j])
    {
      assert b[j] in multiset(a);
      var i :| 0 <= i < |a| && a[i] == b[j];
    }
  }

  /** Reordering the operations of a batch changes whether it commits, what it stores and how
      far the counters move in no way; only which fresh version each record gets. */
  lemma OrderAffectsOnlyVersions<K, V>(s: Store<K, V>, a: seq<Op<K, V>>, b: seq<Op<K, V>>)
    requires DistinctKeys(a) && DistinctKeys(b) && multiset(a) == multiset(b)
    ensures Commit(s, a).Ok? <==> Commit(s, b).Ok?
    ensures Commit(s, a).Ok? ==>
            && SameContents(Commit(s, a).value, Commit(s, b).value)
            && Commit(s, a).value.nextRecord == Commit(s, b).value.nextRecord
            && Commit(s, a).value.nextCommit == Commit(s, b).value.nextCommit
  {
    if Accepts(s, a) {
      AcceptsPermute(s, a, b);
    }
    if Accepts(s, b) {
      AcceptsPermute(s, b, a);
    }
    if Commit(s, a).Ok? {
      PutsPermute(a, b);
      ApplyOpsCounters(s, a);
      ApplyOpsCounters(s, b);
      var t, u := ApplyOps(s, a), ApplyOps(s, b);
      forall k | k in t.records.Keys + u.records.Keys
        ensures k in t.records.Keys <==> k in u.records.Keys
        ensures k in t.records ==> t.records[k].value == u.records[k].value
      {
        KeyAfterReorder(s, a, b, k);
      }
      assert t.records.Keys == u.records.Keys;
    }
  }

  // ---- versions over a run ----

  /** Every version in use was handed out already, and to one key only. */
  ghost predicate VersionsUsedOnce<K(!new), V>(s: Store<K, V>) {
    && (forall k :: k in s.records ==> s.records[k].version < s.nextRecord)
    && (forall k, l :: k in s.records && l in s.records && k != l ==> s.records[k].version != s.records[l].version)
  }

  /** Consecutive states of a store: a committed batch, or nothing (a rejected batch, a read). */
  ghost predicate IsRun<K(!new), V(!new)>(run: seq<Store<K, V>>) {
    forall i :: 0 < i < |run| ==> Follows(run[i - 1], run[i])
  }

  ghost predicate Follows<K(!new), V(!new)>(s: Store<K, V>, t: Store<K, V>) {
    s == t || exists ops: seq<Op<K, V>> :: DistinctKeys(ops) && Commit(s, ops) == Ok(t)
  }

  /** After a commit a record is either the old one, or carries the fresh version of its turn. */
  lemma CommittedVersion<K, V>(s: Store<K, V>, ops: seq<Op<K, V>>, k: K)
    requires DistinctKeys(ops) && k in ApplyOps(s, ops).records
    ensures var t := ApplyOps(s, ops);
            if Untouched(ops, k) then k in s.records && t.records[k] == s.records[k]
            else exists i :: 0 <= i < |ops| && ops[i].key == k && ops[i].Put? && t.records[k].version == s.nextRecord + Puts(ops[..i])
  {
    if Untouched(ops, k) {
      ApplyOpsElsewhere(s, ops, k);
    } else {
      var i :| 0 <= i < |ops| && ops[i].key == k;
      ApplyOpsAt(s, ops, i);
    }
  }

  lemma TurnsDiffer<K, V>(ops: seq<Op<K, V>>, i: nat, j: nat)
    requires i < |ops| && j < |ops| && i != j && ops[i].Put? && ops[j].Put?
    ensures Puts(ops[..i]) != Puts(ops[..j])
  {
    var lo, hi := Min(i, j), Max(i, j);
    PutsBounded(ops[..hi], lo);
    assert ops[..hi][..lo] == ops[..lo] && ops[..hi][lo] == ops[lo];
  }

  lemma FollowsKeepsVersions<K(!new), V(!new)>(s: Store<K, V>, t: Store<K, V>)
    requires Follows(s, t) && VersionsUsedOnce(s)
    ensures VersionsUsedOnce(t)
    ensures s.nextRecord <= t.nextRecord
    ensures forall k :: k in t.records && t.records[k].version < s.nextRecord ==> k in s.records && s.records[k] == t.records[k]
  {
    if s != t {
      var ops: seq<Op<K, V>> :| DistinctKeys(ops) && Commit(s, ops) == Ok(t);
      ApplyOpsCounters(s, ops);
      forall k | k in t.records
        ensures t.records[k].version < t.nextRecord
        ensures t.records[k].version < s.nextRecord ==> k in s.records && s.records[k] == t.records[k]
      {
        CommittedVersion(s, ops, k);
        if !Untouched(ops, k) {
          var i :| 0 <= i < |ops| && ops[i].key == k && ops[i].Put? && t.records[k].version == s.nextRecord + Puts(ops[..i]);
          PutsBounded(ops, i);
        }
      }
      forall k, l | k in t.records && l in t.records && k != l
        ensures t.records[k].version != t.records[l].version
      {
        CommittedVersion(s, ops, k);
        CommittedVersion(s, ops, l);
        if !Untouched(ops, k) && !Untouched(ops, l) {
          var i :| 0 <= i < |ops| && ops[i].key == k && ops[i].Put? && t.records[k].version == s.nextRecord + Puts(ops[..i]);
          var j :| 0 <= j < |ops| && ops[j].key == l && ops[j].Put? && t.records[l].version == s.nextRecord + Puts(ops[..j]);
          TurnsDiffer(ops, i, j);
        }
      }
    }
  }

  lemma {:induction false} RunKeepsVersions<K(!new), V(!new)>(run: seq<Store<K, V>>, i: nat, j: nat)
    requires IsRun(run) && i <= j < |run| && VersionsUsedOnce(run[i])
    ensures VersionsUsedOnce(run[j])
    ensures run[i].nextRecord <= run[j].nextRecord
    ensures forall k :: k in run[j].records && run[j].records[k].version < run[i].nextRecord ==>
              k in run[i].records && run[i].records[k] == run[j].records[k]
    decreases j - i
  {
    if i < j {
      RunKeepsVersions(run, i, j - 1);
      assert Follows(run[j - 1], run[j]);
      FollowsKeepsVersions(run[j - 1], run[j]);
    }
  }

  /** Over a whole run a record version names one key and one value: seeing a version again
      means seeing the same record again. */
  lemma VersionNamesOneRecord<K(!new), V(!new)>(run: seq<Store<K, V>>, i: nat, j: nat, k: K, l: K)
    requires |run| > 0 && run[0] == Empty() && IsRun(run)
    requires i < |run| && j < |run| && k in run[i].records && l in run[j].records
    requires run[i].records[k].version == run[j].records[l].version
    ensures k == l && run[i].records[k] == run[j].records[l]
  {
    RunKeepsVersions(run, 0, i);
    RunKeepsVersions(run, 0, j);
    if i <= j {
      RunKeepsVersions(run, i, j);
    } else {
      RunKeepsVersions(run, j, i);
    }
  }
}
