/** One member's store under any number of handles and any deliveries, against the authority's
    log: every step of opening and applying is separate, and a handle may vanish between steps. */
module ReplicaRuns {
  import opened Prelude
  import opened Credentials
  import opened Configs
  import opened SnapshotValidation
  import opened Envelopes
  import opened AuthorityOps
  import opened AuthorityLog
  import opened AuthorityInvariant
  import opened AuthorityHistory
  import opened UpdateBatches
  import opened VersionedStore
  import opened Replica

  // ---- the machine ----

  datatype Stage =
    | ReadingHead(envelopeRecord: Record<Content>)
    | ReadingSigner(envelopeRecord: Record<Content>, headRecord: Record<Content>)
    | ReadingHistory(replica: Replica, envelope: Envelope)
    | Seeding(replica: Replica, envelope: Envelope)
    | Reseeding(replica: Replica, envelope: Envelope)
    | Holding(replica: Replica)
    | Writing(replica: Replica, update: Update)
    | Checking(replica: Replica, update: Update)
    | CheckingHead(replica: Replica, update: Update, envelopeRecord: Record<Content>)
    | CheckingSigner(replica: Replica, update: Update, envelopeRecord: Record<Content>, headRecord: Record<Content>)

  datatype Member = Member(store: MemberStore, stages: map<nat, Stage>)

  datatype Move =
    | Begin(h: nat)
    | Advance(h: nat, now: u64)
    | Deliver(h: nat, updates: UpdateBatch, now: u64)
    | Vanish(h: nat)

  function At(m: Member, h: nat, s: Stage): Member {
    m.(stages := m.stages[h := s])
  }

  function Gone(m: Member, h: nat): Member {
    m.(stages := m.stages - {h})
  }

  /** Three reads, the checks, and then the history record of the opened revision. */
  function AdvanceOpen(root: PublicKey, key: EncryptionKey, m: Member, h: nat, now: u64): Member
    requires h in m.stages
  {
    match m.stages[h]
    case ReadingHead(envelope) =>
      if ConfigHead !in m.store.records then Gone(m, h) else At(m, h, ReadingSigner(envelope, m.store.records[ConfigHead]))
    case ReadingSigner(envelope, head) =>
      if ConfigSigner !in m.store.records then Gone(m, h)
      else
        var signer := m.store.records[ConfigSigner];
        if !envelope.value.EnvelopeBytes? || !head.value.HeadBytes? || !signer.value.SignerBytes? then Gone(m, h)
        else
          (match OpenReplica(root, key, envelope, head, signer, now)
           case Err(_) => Gone(m, h)
           case Ok(r) => At(m, h, ReadingHistory(r, envelope.value.envelope)))
    case ReadingHistory(r, e) =>
      var slot := ConfigHistory(r.head.revision);
      if slot !in m.store.records then At(m, h, Seeding(r, e))
      else if m.store.records[slot].value == EnvelopeBytes(e) then At(m, h, Holding(r))
      else Gone(m, h)
    case Seeding(r, e) =>
      (match Commit(m.store, [Put(ConfigHistory(r.head.revision), EnvelopeBytes(e), Missing)])
       case Ok(store) => At(m.(store := store), h, Holding(r))
       case Err(_) => At(m, h, Reseeding(r, e)))
    case Reseeding(r, e) =>
      var slot := ConfigHistory(r.head.revision);
      if slot in m.store.records && m.store.records[slot].value == EnvelopeBytes(e) then At(m, h, Holding(r)) else Gone(m, h)
    case _ => m
  }

  /** The write of an update and the three reads after it. */
  function AdvanceApply(m: Member, h: nat): Member
    requires h in m.stages
  {
    match m.stages[h]
    case Writing(r, u) =>
      (match Commit(m.store, UpdateOps(r, u))
       case Ok(store) => At(m.(store := store), h, Checking(r, u))
       case Err(_) => At(m, h, Holding(r)))
    case Checking(r, u) =>
      if ConfigEnvelope !in m.store.records then At(m, h, Holding(r)) else At(m, h, CheckingHead(r, u, m.store.records[ConfigEnvelope]))
    case CheckingHead(r, u, envelope) =>
      if ConfigHead !in m.store.records then At(m, h, Holding(r)) else At(m, h, CheckingSigner(r, u, envelope, m.store.records[ConfigHead]))
    case CheckingSigner(r, u, envelope, head) =>
      if ConfigSigner !in m.store.records || envelope.value != EnvelopeBytes(u.link.envelope) || head.value != HeadBytes(u.head) then At(m, h, Holding(r))
      else At(m, h, Holding(Replica(u.config, u.head, envelope.version, head.version, m.store.records[ConfigSigner].version)))
    case _ => m
  }

  function Apply(root: PublicKey, key: EncryptionKey, m: Member, h: nat, updates: UpdateBatch, now: u64): Member
    requires h in m.stages
  {
    if !m.stages[h].Holding? then m
    else
      match CheckUpdates(root, key, m.stages[h].replica, updates, now)
      case Ok(Some(u)) => At(m, h, Writing(m.stages[h].replica, u))
      case _ => m
  }

  function Make(root: PublicKey, key: EncryptionKey, m: Member, move: Move): Member {
    match move
    case Begin(h) =>
      if h in m.stages || ConfigEnvelope !in m.store.records then m else At(m, h, ReadingHead(m.store.records[ConfigEnvelope]))
    case Advance(h, now) =>
      if h !in m.stages then m
      else if m.stages[h].Writing? || m.stages[h].Checking? || m.stages[h].CheckingHead? || m.stages[h].CheckingSigner? then AdvanceApply(m, h)
      else AdvanceOpen(root, key, m, h, now)
    case Deliver(h, updates, now) => if h !in m.stages then m else Apply(root, key, m, h, updates, now)
    case Vanish(h) => Gone(m, h)
  }

  function Play(root: PublicKey, key: EncryptionKey, m: Member, moves: seq<Move>): Member {
    if moves == [] then m else Make(root, key, Play(root, key, m, moves[..|moves| - 1]), moves[|moves| - 1])
  }

  // ---- deliveries ----

  /** The key is that of an administrator some revision of the log names. */
  predicate AdminOfLog(log: seq<Entry>, key: PublicKey) {
    exists i, a :: 0 <= i < |log| && 0 <= a < |log[i].config.adminKeys|
                && log[i].config.adminKeys[a].Wire? && log[i].config.adminKeys[a].value.payload.publicKey == key
  }

  /** Anything may be delivered, except that nobody can sign for an administrator: an envelope
      that carries an administrator's signature is one of the committed revisions. */
  predicate Authentic(log: seq<Entry>, raw: Raw<Envelope>) {
    raw.Wire? && AdminOfLog(log, raw.value.signature.signer) ==> exists i :: 0 <= i < |log| && log[i].envelope == raw.value
  }

  predicate AuthenticMove(log: seq<Entry>, move: Move) {
    move.Deliver? ==> forall i :: 0 <= i < |move.updates.envelopes| ==> Authentic(log, move.updates.envelopes[i])
  }

  // ---- following the log ----

  /** Envelopes `from + 1 .. from + n` of the log. */
  predicate IsSlice(log: seq<Entry>, from: nat, envelopes: seq<Envelope>) {
    from + |envelopes| < |log| && forall i :: 0 <= i < |envelopes| ==> envelopes[i] == log[from + 1 + i].envelope
  }

  /** The certificate under which a stored envelope can be opened again. */
  predicate SignerFits(root: PublicKey, signer: AdminCert, e: Envelope) {
    && AdminTimeless(signer, root, {}) && signer.payload.keyId == e.body.signer
    && PERMISSION_CONFIG_WRITE in signer.payload.permissions && Verifies(signer.payload.publicKey, e.body, e.signature)
  }

  lemma OpenNextSigned(e: Envelope, root: PublicKey, c: Config, key: EncryptionKey, head: Head, now: u64) returns (a: nat)
    requires OpenNext(e, root, c, key, head, now).Ok?
    ensures ChainOk(e, Next(head))
    ensures a < |c.adminKeys| && c.adminKeys[a].Wire? && c.adminKeys[a].value.payload.publicKey == e.signature.signer
  {
    hide ValidAt, VerifyAdmin, FindContentKey, VerifiedAdmin;
    a := VerifiedAdminIsListed(c.adminKeys, root, c.network, e.body.signer, now, RevokedSet(c));
  }

  lemma OpenNextCarried(e: Envelope, root: PublicKey, c: Config, key: EncryptionKey, head: Head, now: u64, next: Config)
    requires OpenNext(e, root, c, key, head, now).Ok? && Carries(e, next)
    ensures OpenNext(e, root, c, key, head, now) == Ok(Opened(next, HeadOf(e)))
  {
    hide ValidAt, VerifiedAdminOf, FindContentKey;
  }

  lemma OpenedNextIsSuccessor(keys: AuthorityKeys, log: seq<Entry>, i: nat, e: Envelope, key: EncryptionKey, now: u64)
    requires Linked(log) && i < |log| && Authentic(log, Wire(e))
    requires OpenNext(e, keys.root, log[i].config, key, HeadOf(log[i].envelope), now).Ok?
    ensures i + 1 < |log| && e == log[i + 1].envelope
    ensures OpenNext(e, keys.root, log[i].config, key, HeadOf(log[i].envelope), now) == Ok(Opened(log[i + 1].config, HeadOf(e)))
  {
    hide OpenNext, Carries;
    var a := OpenNextSigned(e, keys.root, log[i].config, key, HeadOf(log[i].envelope), now);
    assert AdminOfLog(log, e.signature.signer);
    var k :| 0 <= k < |log| && log[k].envelope == e;
    assert log[k].envelope.body.revision == log[i].envelope.body.revision + 1;
    assert k == i + 1;
    OpenNextCarried(e, keys.root, log[i].config, key, HeadOf(log[i].envelope), now, log[k].config);
  }

  lemma {:induction false} SignerAgrees(admins: seq<Raw<AdminCert>>, root: PublicKey, network: NetworkId, id: KeyId, now: u64, revoked: set<u64>)
    requires VerifiedAdmin(admins, root, network, id, now, revoked).Ok?
    ensures SignerFor(admins, id).Some? && SignerFor(admins, id).value.payload == VerifiedAdmin(admins, root, network, id, now, revoked).value
    ensures VerifyAdmin(SignerFor(admins, id).value, root, network, now, revoked).Ok? && SignerFor(admins, id).value.payload.keyId == id
  {
    if admins[0].value.payload.keyId != id {
      SignerAgrees(admins[1..], root, network, id, now, revoked);
    }
  }

  /** The follower stands at revision `j`, and can reopen it with the signer it remembers. */
  predicate TrailAt(root: PublicKey, log: seq<Entry>, j: nat, t: Trail) {
    && j < |log| && t.config == log[j].config && t.head == HeadOf(log[j].envelope)
    && (t.last.Some? ==> t.last.value.envelope == log[j].envelope && SignerFits(root, t.last.value.signer, log[j].envelope))
  }

  lemma FollowOneOnLog(keys: AuthorityKeys, log: seq<Entry>, i: nat, t: Trail, raw: Raw<Envelope>, key: EncryptionKey, now: u64)
    requires Linked(log) && TrailAt(keys.root, log, i, t) && Authentic(log, raw)
    requires FollowOne(keys.root, key, t, raw, now).Ok?
    ensures i + 1 < |log| && raw == Wire(log[i + 1].envelope)
    ensures TrailAt(keys.root, log, i + 1, FollowOne(keys.root, key, t, raw, now).value)
  {
    hide Linked, Authentic, ValidAt, FindContentKey, VerifiedAdmin, SignerFor;
    var e, c := raw.value, log[i].config;
    OpenedNextIsSuccessor(keys, log, i, e, key, now);
    SignerAgrees(c.adminKeys, keys.root, c.network, e.body.signer, now, RevokedSet(c));
  }

  /** A chain that opens is a stretch of the log, and leaves the follower at its end. */
  lemma {:induction false} FollowOnLog(keys: AuthorityKeys, log: seq<Entry>, i: nat, t: Trail, raws: seq<Raw<Envelope>>, key: EncryptionKey, now: u64)
    requires Linked(log) && TrailAt(keys.root, log, i, t) && forall k :: 0 <= k < |raws| ==> Authentic(log, raws[k])
    requires Follow(keys.root, key, t, raws, now).Ok?
    ensures AllDecode(raws) && IsSlice(log, i, Unwrap(raws))
    ensures TrailAt(keys.root, log, i + |raws|, Follow(keys.root, key, t, raws, now).value)
  {
    hide Linked, Authentic, TrailAt, FollowOne;
    if raws == [] {
      assert i < |log| by {
        TrailBound(keys.root, log, i, t);
      }
    } else {
      var n := |raws| - 1;
      FollowOnLog(keys, log, i, t, raws[..n], key, now);
      var before := Follow(keys.root, key, t, raws[..n], now).value;
      FollowOneOnLog(keys, log, i + n, before, raws[n], key, now);
      forall k | 0 <= k < |raws|
        ensures raws[k].Wire? && raws[k].value == log[i + 1 + k].envelope
      {
        if k < n {
          assert raws[k] == raws[..n][k] && raws[..n][k].Wire? && Unwrap(raws[..n])[k] == log[i + 1 + k].envelope;
        }
      }
    }
  }

  lemma TrailBound(root: PublicKey, log: seq<Entry>, j: nat, t: Trail)
    requires TrailAt(root, log, j, t)
    ensures j < |log|
  {
  }
}
