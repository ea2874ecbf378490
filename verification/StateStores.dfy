/** The state stores of `weaver-store`: batches, the in-memory store, and the redb store whose flat
    byte table refines the versioned map of every scope at once. */
module StateStores {
  import opened Prelude
  import opened Wire
  import opened VersionedStore

  const MAX_KEY_LEN: nat := 1024
  const MAX_VALUE_LEN: nat := 16 * 1024 * 1024

  datatype Scope = Scope(authority: bool, network: Bytes32)

  type StoreKey = b: Bytes | 0 < |b| <= MAX_KEY_LEN witness [0]

  type Place = (Scope, StoreKey)

  type Contents = Store<Place, Bytes>

  datatype StoreError =
    | InvalidKeyLength
    | ValueTooLarge
    | DuplicateBatchKey(key: StoreKey)
    | VersionConflict(key: StoreKey, expected: Expected, actual: Option<nat>)
    | Backend

  /** The operations of a batch, addressed to the scope the batch is for. */
  function Scoped(scope: Scope, ops: seq<Op<StoreKey, Bytes>>): seq<Op<Place, Bytes>> {
    seq(|ops|, i requires 0 <= i < |ops| => InScope(scope, ops[i]))
  }

  function InScope(scope: Scope, op: Op<StoreKey, Bytes>): Op<Place, Bytes> {
    match op
    case Put(key, value, expected) => Put((scope, key), value, expected)
    case Delete(key, expected) => Delete((scope, key), expected)
  }

  /** A batch reads and writes its own scope only: every other scope keeps its records, and the
      verdict does not depend on them. */
  lemma ScopesApart(a: Contents, b: Contents, scope: Scope, ops: seq<Op<StoreKey, Bytes>>, other: Scope, key: StoreKey)
    requires other != scope
    requires forall k: StoreKey :: VersionAt(a.records, (scope, k)) == VersionAt(b.records, (scope, k))
    ensures Commit(a, Scoped(scope, ops)).Ok? <==> Commit(b, Scoped(scope, ops)).Ok?
    ensures Commit(a, Scoped(scope, ops)).Ok? ==>
            && ((other, key) in Commit(a, Scoped(scope, ops)).value.records <==> (other, key) in a.records)
            && ((other, key) in a.records ==> Commit(a, Scoped(scope, ops)).value.records[(other, key)] == a.records[(other, key)])
  {
    var scoped := Scoped(scope, ops);
    forall i | 0 <= i < |scoped|
      ensures Holds(a.records, scoped[i]) <==> Holds(b.records, scoped[i])
    {
      assert VersionAt(a.records, (scope, ops[i].key)) == VersionAt(b.records, (scope, ops[i].key));
    }
    ApplyOpsElsewhere(a, scoped, (other, key));
  }

  // ---- batches ----

  function KeysOf(ops: seq<Op<StoreKey, Bytes>>): set<StoreKey> {
    set i | 0 <= i < |ops| :: ops[i].key
  }

  class AtomicBatch {
    const scope: Scope
    var operations: seq<Op<StoreKey, Bytes>>
    var keys: set<StoreKey>

    /** No key twice, and the key set says which keys are taken. */
    predicate Valid()
      reads this
    {
      DistinctKeys(operations) && keys == KeysOf(operations)
    }

    constructor (scope: Scope)
      ensures Valid() && this.scope == scope && operations == []
    {
      this.scope, operations, keys := scope, [], {};
    }

    method Add(op: Op<StoreKey, Bytes>) returns (r: Result<(), StoreError>)
      requires Valid()
      modifies this
      ensures Valid()
      ensures r ==
              if op.Put? && |op.value| > MAX_VALUE_LEN then Err(ValueTooLarge)
              else if op.key in old(KeysOf(operations)) then Err(DuplicateBatchKey(op.key))
              else Ok(())
      ensures operations == if r.Ok? then old(operations) + [op] else old(operations)
    {
      if op.Put? && |op.value| > MAX_VALUE_LEN {
        return Err(ValueTooLarge);
      }
      if op.key in keys {
        return Err(DuplicateBatchKey(op.key));
      }
      assert KeysOf(operations + [op]) == KeysOf(operations) + {op.key} by {
        assert (operations + [op])[|operations|] == op;
        assert forall i :: 0 <= i < |operations| ==> (operations + [op])[i] == operations[i];
      }
      keys := keys + {op.key};
      operations := operations + [op];
      return Ok(());
    }
  }

  // ---- the in-memory store ----

  function VersionAt(records: map<Place, Record<Bytes>>, p: Place): Option<nat> {
    if p in records then Some(records[p].version) else None
  }

  /** What the first operation with a failing precondition reports. */
  predicate Reports(records: map<Place, Record<Bytes>>, scope: Scope, ops: seq<Op<StoreKey, Bytes>>, e: StoreError) {
    exists i :: 0 <= i < |ops| && !Holds(records, InScope(scope, ops[i])) && (forall j :: 0 <= j < i ==> Holds(records, InScope(scope, ops[j])))
             && e == VersionConflict(ops[i].key, ops[i].expected, VersionAt(records, (scope, ops[i].key)))
  }

  class MemoryStateStore {
    var records: map<Place, Record<Bytes>>
    var nextRecord: nat
    var nextCommit: nat

    constructor ()
      ensures State() == Empty()
    {
      records, nextRecord, nextCommit := map[], 1, 1;
    }

    function State(): Contents
      reads this
    {
      Store(records, nextRecord, nextCommit)
    }

    method Read(scope: Scope, key: StoreKey) returns (r: Option<Record<Bytes>>)
      ensures r == if (scope, key) in State().records then Some(State().records[(scope, key)]) else None
    {
      if (scope, key) in records {
        return Some(records[(scope, key)]);
      }
      return None;
    }

    /** All preconditions first, then all writes; a refused batch changes nothing. */
    method CommitBatch(scope: Scope, ops: seq<Op<StoreKey, Bytes>>) returns (r: Result<nat, StoreError>)
      modifies this
      ensures match VersionedStore.Commit(old(State()), Scoped(scope, ops))
              case Ok(t) => r == Ok(old(nextCommit)) && State() == t
              case Err(_) => r.Err? && State() == old(State()) && Reports(old(records), scope, ops, r.error)
    {
      var scoped := Scoped(scope, ops);
      for i := 0 to |ops|
        invariant State() == old(State())
        invariant forall j :: 0 <= j < i ==> Holds(records, InScope(scope, ops[j]))
      {
        var actual := VersionAt(records, (scope, ops[i].key));
        var valid :=
          match ops[i].expected
          case Any => true
          case Missing => actual.None?
          case Exact(version) => actual == Some(version);
        if !valid {
          assert !Holds(old(records), scoped[i]);
          return Err(VersionConflict(ops[i].key, ops[i].expected, actual));
        }
      }
      assert Accepts(old(State()), scoped);
      for i := 0 to |ops|
        invariant State() == ApplyOps(old(State()), scoped[..i])
      {
        assert scoped[..i + 1][..i] == scoped[..i];
        match ops[i]
        case Put(key, value, _) =>
          records := records[(scope, key) := Record(nextRecord, value)];
          nextRecord := nextRecord + 1;
        case Delete(key, _) =>
          records := records - {(scope, key)};
      }
      assert scoped[..|ops|] == scoped;
      ApplyOpsCounters(old(State()), scoped);
      r := Ok(nextCommit);
      nextCommit := nextCommit + 1;
    }
  }

  // ---- the redb store: keys and values ----

  const SCOPE_PREFIX_LEN: nat := 33

  function ScopePrefix(scope: Scope): (bytes: Bytes)
    ensures |bytes| == SCOPE_PREFIX_LEN
  {
    [if scope.authority then 1 else 0] + scope.network
  }

  function CompositeKey(p: Place): Bytes {
    ScopePrefix(p.0) + p.1
  }

  /** Two places share a table key only if they are one place. */
  lemma CompositeInjective(p: Place, q: Place)
    requires CompositeKey(p) == CompositeKey(q)
    ensures p == q
  {
    assert CompositeKey(p)[..33] == ScopePrefix(p.0) && CompositeKey(q)[..33] == ScopePrefix(q.0);
    assert CompositeKey(p)[33..] == p.1 && CompositeKey(q)[33..] == q.1;
    assert ScopePrefix(p.0)[1..] == p.0.network && ScopePrefix(q.0)[1..] == q.0.network;
    assert ScopePrefix(p.0)[0] == ScopePrefix(q.0)[0];
  }

  function EncodeValue(version: nat, value: Bytes): Bytes {
    BE(version, 8) + value
  }

  function DecodeValue(bytes: Bytes): Result<Record<Bytes>, StoreError> {
    if |bytes| < 8 then Err(Backend) else Ok(Record(FromBE(bytes[..8]), bytes[8..]))
  }

  lemma DecodeEncoded(version: u64, value: Bytes)
    ensures DecodeValue(EncodeValue(version, value)) == Ok(Record(version, value))
  {
    Widths();
    ReadWritten(version, 8);
    var bytes := EncodeValue(version, value);
    assert bytes[..8] == BE(version, 8) && bytes[8..] == value;
  }

  // ---- the redb store: table and model ----

  /** The table row for a place, if the model has a record there. */
  predicate RowAgrees(table: map<Bytes, Bytes>, model: Contents, p: Place) {
    && (p in model.records <==> CompositeKey(p) in table)
    && (p in model.records ==> model.records[p].version <= U64_MAX && table[CompositeKey(p)] == EncodeValue(model.records[p].version, model.records[p].value))
  }

  ghost predicate Represents(table: map<Bytes, Bytes>, model: Contents) {
    && (forall p: Place :: RowAgrees(table, model, p))
    && (forall b :: b in table ==> exists p: Place :: b == CompositeKey(p))
  }

  lemma PutRepresents(table: map<Bytes, Bytes>, model: Contents, p: Place, value: Bytes, expected: Expected)
    requires Represents(table, model) && model.nextRecord <= U64_MAX
    ensures Represents(table[CompositeKey(p) := EncodeValue(model.nextRecord, value)], ApplyOp(model, Put(p, value, expected)))
  {
    var table', model' := table[CompositeKey(p) := EncodeValue(model.nextRecord, value)], ApplyOp(model, Put(p, value, expected));
    forall q: Place
      ensures RowAgrees(table', model', q)
    {
      assert RowAgrees(table, model, q);
      if q != p && CompositeKey(q) == CompositeKey(p) {
        CompositeInjective(q, p);
      }
    }
  }

  lemma DeleteRepresents(table: map<Bytes, Bytes>, model: Contents, p: Place, expected: Expected)
    requires Represents(table, model)
    ensures Represents(table - {CompositeKey(p)}, ApplyOp(model, Delete(p, expected)))
  {
    var table', model' := table - {CompositeKey(p)}, ApplyOp(model, Delete(p, expected));
    forall q: Place
      ensures RowAgrees(table', model', q)
    {
      assert RowAgrees(table, model, q);
      if q != p && CompositeKey(q) == CompositeKey(p) {
        CompositeInjective(q, p);
      }
    }
  }

  /** The version a row shows is the model's. */
  lemma RowVersion(table: map<Bytes, Bytes>, model: Contents, p: Place)
    requires Represents(table, model)
    ensures CompositeKey(p) in table <==> p in model.records
    ensures p in model.records ==> DecodeValue(table[CompositeKey(p)]) == Ok(model.records[p])
  {
    assert RowAgrees(table, model, p);
    if p in model.records {
      DecodeEncoded(model.records[p].version, model.records[p].value);
    }
  }

  lemma {:induction false} PutsGrow<K, V>(ops: seq<Op<K, V>>, i: nat)
    requires i <= |ops|
    ensures Puts(ops[..i]) <= Puts(ops)
    decreases |ops| - i
  {
    if i < |ops| {
      PutsGrow(ops, i + 1);
      assert ops[..i + 1][..i] == ops[..i];
    } else {
      assert ops[..i] == ops;
    }
  }

  // ---- the redb store ----

  class RedbStateStore {
    var table: map<Bytes, Bytes>
    var nextRecord: u64
    var nextCommit: u64
    ghost var model: Contents

    /** The table is the model in bytes, and the counters are the model's. */
    ghost predicate Valid()
      reads this
    {
      Represents(table, model) && model.nextRecord == nextRecord && model.nextCommit == nextCommit
    }

    constructor ()
      ensures Valid() && model == Empty()
    {
      table, nextRecord, nextCommit, model := map[], 1, 1, Empty();
    }

    method Read(scope: Scope, key: StoreKey) returns (r: Result<Option<Record<Bytes>>, StoreError>)
      requires Valid()
      ensures r == Ok(if (scope, key) in model.records then Some(model.records[(scope, key)]) else None)
    {
      RowVersion(table, model, (scope, key));
      var composite := CompositeKey((scope, key));
      if composite !in table {
        return Ok(None);
      }
      return Ok(Some(DecodeValue(table[composite]).value));
    }

    // A row of a valid table always decodes, so the truncated-record error cannot occur.

    /** The first operation whose precondition the table contradicts. */
    method FirstConflict(scope: Scope, ops: seq<Op<StoreKey, Bytes>>) returns (conflict: Option<StoreError>)
      requires Valid()
      ensures conflict.None? <==> Accepts(model, Scoped(scope, ops))
      ensures conflict.Some? ==> Reports(model.records, scope, ops, conflict.value)
    {
      hide Represents, EncodeValue;
      var scoped := Scoped(scope, ops);
      for i := 0 to |ops|
        invariant forall j :: 0 <= j < i ==> Holds(model.records, InScope(scope, ops[j]))
      {
        var place := (scope, ops[i].key);
        RowVersion(table, model, place);
        var actual := None;
        if CompositeKey(place) in table {
          actual := Some(DecodeValue(table[CompositeKey(place)]).value.version);
        }
        var valid :=
          match ops[i].expected
          case Any => true
          case Missing => actual.None?
          case Exact(version) => actual == Some(version);
        if !valid {
          assert !Holds(model.records, scoped[i]);
          return Some(VersionConflict(ops[i].key, ops[i].expected, actual));
        }
      }
      return None;
    }

    /** The operations on a copy of the table; nothing when the record counter would overflow. */
    method ApplyRows(scope: Scope, ops: seq<Op<StoreKey, Bytes>>) returns (r: Option<(map<Bytes, Bytes>, u64)>)
      requires Valid()
      ensures r.Some? <==> nextRecord + Puts(Scoped(scope, ops)) <= U64_MAX
      ensures r.Some? ==> Represents(r.value.0, ApplyOps(model, Scoped(scope, ops))) && r.value.1 == nextRecord + Puts(Scoped(scope, ops))
    {
      hide Represents, CompositeKey, EncodeValue;
      var scoped := Scoped(scope, ops);
      var rows, next := table, nextRecord;
      for i := 0 to |ops|
        invariant Represents(rows, ApplyOps(model, scoped[..i]))
        invariant ApplyOps(model, scoped[..i]).nextRecord == next == nextRecord + Puts(scoped[..i])
      {
        assert scoped[..i + 1][..i] == scoped[..i];
        match ops[i]
        case Put(key, value, expected) =>
          PutRepresents(rows, ApplyOps(model, scoped[..i]), (scope, key), value, expected);
          rows := rows[CompositeKey((scope, key)) := EncodeValue(next, value)];
          if next == U64_MAX {
            PutsGrow(scoped, i + 1);
            return None;
          }
          next := next + 1;
        case Delete(key, expected) =>
          DeleteRepresents(rows, ApplyOps(model, scoped[..i]), (scope, key), expected);
          rows := rows - {CompositeKey((scope, key))};
      }
      assert scoped[..|ops|] == scoped;
      return Some((rows, next));
    }

    /** `commit_sync`: the write transaction is abandoned, and with it every change, when a
        precondition fails or a counter would overflow; otherwise the model takes the batch. */
    method CommitBatch(scope: Scope, ops: seq<Op<StoreKey, Bytes>>) returns (r: Result<nat, StoreError>)
      requires Valid()
      modifies this
      ensures Valid()
      ensures match VersionedStore.Commit(old(model), Scoped(scope, ops))
              case Err(_) => r.Err? && Reports(old(model.records), scope, ops, r.error) && table == old(table) && model == old(model)
              case Ok(t) =>
                if old(nextRecord) + Puts(Scoped(scope, ops)) <= U64_MAX && old(nextCommit) < U64_MAX then
                  r == Ok(old(nextCommit)) && model == t
                else r == Err(Backend) && table == old(table) && model == old(model)
    {
      hide Represents, Accepts, Reports, ApplyOps, Scoped;
      var conflict := FirstConflict(scope, ops);
      if conflict.Some? {
        return Err(conflict.value);
      }
      var applied := ApplyRows(scope, ops);
      if applied.None? || nextCommit == U64_MAX {
        return Err(Backend);
      }
      ApplyOpsCounters(model, Scoped(scope, ops));
      SameRecords(applied.value.0, ApplyOps(model, Scoped(scope, ops)), VersionedStore.Commit(model, Scoped(scope, ops)).value);
      r := Ok(nextCommit);
      table, nextRecord, nextCommit := applied.value.0, applied.value.1, nextCommit + 1;
      model := VersionedStore.Commit(model, Scoped(scope, ops)).value;
    }

    /** `scan_prefix` over the rows in key order: exactly the scope's records whose key starts with
        the prefix, in ascending key order, and nothing of any other scope. */
    method ScanPrefix(scope: Scope, prefix: Bytes, rows: seq<Bytes>) returns (entries: seq<Entry>)
      requires Valid() && Ascending(rows) && (forall b :: b in rows <==> b in table)
      ensures forall e :: e in entries <==> (scope, e.key) in model.records && e.record == model.records[(scope, e.key)] && prefix <= e.key
      ensures forall i, j :: 0 <= i < j < |entries| ==> Less(entries[i].key, entries[j].key)
    {
      hide Represents, RowAgrees, Less;
      entries := [];
      for i := 0 to |rows|
        invariant forall e :: e in entries <==> Listed(model, scope, prefix, rows[..i], e)
        invariant forall j, k :: 0 <= j < k < |entries| ==> Less(entries[j].key, entries[k].key)
        invariant forall j :: 0 <= j < |entries| ==> CompositeKey((scope, entries[j].key)) in rows[..i]
      {
        var row := rows[i];
        assert rows[..i + 1] == rows[..i] + [row];
        if ScopePrefix(scope) <= row && prefix <= row[SCOPE_PREFIX_LEN..] {
          var key := RowKey(table, model, row, scope);
          var entry := Entry(key, DecodeValue(table[row]).value);
          forall j | 0 <= j < |entries|
            ensures Less(entries[j].key, key)
          {
            var before := CompositeKey((scope, entries[j].key));
            var n :| 0 <= n < i && rows[n] == before;
            LessBehind(ScopePrefix(scope), entries[j].key, key);
          }
          ListedNow(model, scope, prefix, rows[..i], row, entry);
          entries := entries + [entry];
        } else {
          NotListed(model, scope, prefix, rows[..i], row);
        }
      }
      assert rows[..|rows|] == rows;
      AllListed(table, model, scope, prefix, rows);
    }
  }

  datatype Entry = Entry(key: StoreKey, record: Record<Bytes>)

  /** Byte-wise lexicographic order. */
  predicate Less(a: Bytes, b: Bytes) {
    b != [] && (a == [] || a[0] < b[0] || (a[0] == b[0] && Less(a[1..], b[1..])))
  }

  ghost predicate Ascending(rows: seq<Bytes>) {
    forall i, j :: 0 <= i < j < |rows| ==> Less(rows[i], rows[j])
  }

  /** A common prefix does not affect the order. */
  lemma {:induction false} LessBehind(p: Bytes, a: Bytes, b: Bytes)
    ensures Less(p + a, p + b) <==> Less(a, b)
  {
    if p == [] {
      assert p + a == a && p + b == b;
    } else {
      assert (p + a)[1..] == p[1..] + a && (p + b)[1..] == p[1..] + b;
      LessBehind(p[1..], a, b);
    }
  }

  /** The entry belongs to a row among these. */
  predicate Listed(model: Contents, scope: Scope, prefix: Bytes, rows: seq<Bytes>, e: Entry) {
    && (scope, e.key) in model.records && e.record == model.records[(scope, e.key)] && prefix <= e.key
    && CompositeKey((scope, e.key)) in rows
  }

  method RowKey(table: map<Bytes, Bytes>, ghost model: Contents, row: Bytes, scope: Scope) returns (key: StoreKey)
    requires Represents(table, model) && row in table && ScopePrefix(scope) <= row
    ensures row == CompositeKey((scope, key)) && key == row[SCOPE_PREFIX_LEN..]
    ensures (scope, key) in model.records && DecodeValue(table[row]) == Ok(model.records[(scope, key)])
  {
    ghost var p: Place :| row == CompositeKey(p);
    assert row[..SCOPE_PREFIX_LEN] == ScopePrefix(p.0) && row[SCOPE_PREFIX_LEN..] == p.1;
    assert row == CompositeKey((scope, p.1));
    RowVersion(table, model, (scope, p.1));
    key := row[SCOPE_PREFIX_LEN..];
  }

  lemma ListedNow(model: Contents, scope: Scope, prefix: Bytes, rows: seq<Bytes>, row: Bytes, entry: Entry)
    requires row == CompositeKey((scope, entry.key)) && (scope, entry.key) in model.records
    requires entry.record == model.records[(scope, entry.key)] && prefix <= entry.key
    ensures forall e :: Listed(model, scope, prefix, rows + [row], e) <==> e == entry || Listed(model, scope, prefix, rows, e)
  {
    forall e | Listed(model, scope, prefix, rows + [row], e) && !Listed(model, scope, prefix, rows, e)
      ensures e == entry
    {
      CompositeInjective((scope, e.key), (scope, entry.key));
    }
  }

  lemma NotListed(model: Contents, scope: Scope, prefix: Bytes, rows: seq<Bytes>, row: Bytes)
    requires !(ScopePrefix(scope) <= row && prefix <= row[SCOPE_PREFIX_LEN..])
    ensures forall e :: Listed(model, scope, prefix, rows + [row], e) <==> Listed(model, scope, prefix, rows, e)
  {
    forall e: Entry
      ensures ScopePrefix(scope) <= CompositeKey((scope, e.key)) && CompositeKey((scope, e.key))[SCOPE_PREFIX_LEN..] == e.key
    {
    }
  }

  lemma AllListed(table: map<Bytes, Bytes>, model: Contents, scope: Scope, prefix: Bytes, rows: seq<Bytes>)
    requires Represents(table, model) && forall b :: b in rows <==> b in table
    ensures forall e :: Listed(model, scope, prefix, rows, e) <==>
              (scope, e.key) in model.records && e.record == model.records[(scope, e.key)] && prefix <= e.key
  {
    forall e: Entry | (scope, e.key) in model.records
      ensures CompositeKey((scope, e.key)) in rows
    {
      RowVersion(table, model, (scope, e.key));
    }
  }

  lemma SameRecords(table: map<Bytes, Bytes>, a: Contents, b: Contents)
    requires Represents(table, a) && a.records == b.records
    ensures Represents(table, b)
  {
    forall p: Place
      ensures RowAgrees(table, b, p)
    {
      assert RowAgrees(table, a, p);
    }
  }
}
