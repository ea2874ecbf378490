/** A member's copy of the configuration log (`weaver-net`, `config_state.rs`): the records it
    keeps, how it follows an update batch, and its handle over the store. */
module Replica {
  import opened Prelude
  import opened Limits
  import opened Credentials
  import opened Configs
  import opened SnapshotValidation
  import opened Envelopes
  import opened UpdateBatches
  import opened VersionedStore

  // ---- a member's records ----

  datatype Slot = ConfigEnvelope | ConfigHead | ConfigSigner | ConfigHistory(revision: u64) | OwnCertificate | OwnBinding | PreparedRequest

  datatype Content =
    | EnvelopeBytes(envelope: Envelope)
    | HeadBytes(head: Head)
    | SignerBytes(signer: AdminCert)
    | CertificateBytes(cert: MemberCert)
    | BindingBytes(binding: EndpointBinding)
    | PreparedBytes(prepared: PreparedJoin)

  type MemberStore = Store<Slot, Content>

  datatype ReplicaError =
    | NotJoined
    | BaseHeadMismatch
    | MissingSignerCertificate
    | CommitLost
    | UnknownHead
    | HistoryMissing
    | Conflict
    | BadConfig(config: ConfigError)
    | BadCertificate(certificate: CertificateError)

  function FromConfig<T>(r: Result<T, ConfigError>): Result<T, ReplicaError> {
    match r
    case Ok(v) => Ok(v)
    case Err(e) => Err(BadConfig(e))
  }

  function FromCertificate<T>(r: Result<T, CertificateError>): Result<T, ReplicaError> {
    match r
    case Ok(v) => Ok(v)
    case Err(e) => Err(BadCertificate(e))
  }

  // ---- following a chain of updates ----

  /** The first certificate of the snapshot that decodes and carries this key id. */
  function SignerFor(keys: seq<Raw<AdminCert>>, id: KeyId): Option<AdminCert> {
    if keys == [] then None
    else if keys[0].Wire? && keys[0].value.payload.keyId == id then Some(keys[0].value)
    else SignerFor(keys[1..], id)
  }

  /** Where a follower stands, and the last envelope it took with that envelope's signer. */
  datatype Trail = Trail(config: Config, head: Head, last: Option<Link>)
  datatype Link = Link(envelope: Envelope, signer: AdminCert)

  function FollowOne(root: PublicKey, key: EncryptionKey, t: Trail, raw: Raw<Envelope>, now: u64): Result<Trail, ReplicaError> {
    var _ :- Need(raw.Wire?, BadConfig(MalformedEnvelope));
    var signer := SignerFor(t.config.adminKeys, raw.value.body.signer);
    var _ :- Need(signer.Some?, MissingSignerCertificate);
    var current :- FromConfig(OpenNext(raw.value, root, t.config, key, t.head, now));
    Ok(Trail(current.config, current.head, Some(Link(raw.value, signer.value))))
  }

  /** The loop of `apply`: every envelope must open as the successor of the one before. */
  function Follow(root: PublicKey, key: EncryptionKey, t: Trail, raws: seq<Raw<Envelope>>, now: u64): Result<Trail, ReplicaError> {
    if raws == [] then Ok(t)
    else
      var before :- Follow(root, key, t, raws[..|raws| - 1], now);
      FollowOne(root, key, before, raws[|raws| - 1], now)
  }

  // ---- a handle ----

  datatype Replica = Replica(config: Config, head: Head, envelopeVersion: nat, headVersion: nat, signerVersion: nat)

  /** An update that has been checked in memory and is ready to be written. */
  datatype Update = Update(envelopes: seq<Envelope>, config: Config, head: Head, link: Link)

  function Unwrap(raws: seq<Raw<Envelope>>): seq<Envelope>
    requires AllDecode(raws)
  {
    seq(|raws|, i requires 0 <= i < |raws| => raws[i].value)
  }

  /** The bounds and links that a second parse of the batch enforces before anything is opened. */
  predicate BatchAdmissible(updates: UpdateBatch) {
    BatchOk(updates) && EncodedLength(updates) <= MAX_UPDATE_BATCH_BYTES
  }

  /** `apply` up to its write: `None` when there is nothing to do. */
  function CheckUpdates(root: PublicKey, key: EncryptionKey, h: Replica, updates: UpdateBatch, now: u64): Result<Option<Update>, ReplicaError> {
    var _ :- Need(updates.network == NetworkId(root) && updates.base == h.head, BaseHeadMismatch);
    if updates.envelopes == [] then Ok(None)
    else if !BatchAdmissible(updates) then Err(BadConfig(UpdateBatchTooLarge))
    else
      var t :- Follow(root, key, Trail(h.config, h.head, None), updates.envelopes, now);
      BatchDecodes(updates);
      FollowedLast(root, key, Trail(h.config, h.head, None), updates.envelopes, now);
      Ok(Some(Update(Unwrap(updates.envelopes), t.config, t.head, t.last.value)))
  }

  lemma FollowedLast(root: PublicKey, key: EncryptionKey, t: Trail, raws: seq<Raw<Envelope>>, now: u64)
    requires raws != [] && Follow(root, key, t, raws, now).Ok?
    ensures Follow(root, key, t, raws, now).value.last.Some?
    ensures raws[|raws| - 1].Wire? && Follow(root, key, t, raws, now).value.last.value.envelope == raws[|raws| - 1].value
  {
  }

  function HistoryPuts(envelopes: seq<Envelope>): seq<Op<Slot, Content>> {
    seq(|envelopes|, i requires 0 <= i < |envelopes| =>
      Put(ConfigHistory(envelopes[i].body.revision), EnvelopeBytes(envelopes[i]), Missing))
  }

  /** The one compare-and-swap batch of an update. */
  function UpdateOps(h: Replica, u: Update): seq<Op<Slot, Content>> {
    [ Put(ConfigEnvelope, EnvelopeBytes(u.link.envelope), Exact(h.envelopeVersion)),
      Put(ConfigHead, HeadBytes(u.head), Exact(h.headVersion)),
      Put(ConfigSigner, SignerBytes(u.link.signer), Exact(h.signerVersion)) ] + HistoryPuts(u.envelopes)
  }

  // ---- opening a handle from the records ----

  /** What `open` checks about the three records before it looks at the history. */
  function OpenReplica(root: PublicKey, key: EncryptionKey, e: Record<Content>, head: Record<Content>, signer: Record<Content>, now: u64)
    : Result<Replica, ReplicaError>
    requires e.value.EnvelopeBytes? && head.value.HeadBytes? && signer.value.SignerBytes?
  {
    var admin :- FromCertificate(VerifyAdmin(signer.value.signer, root, NetworkId(root), now, {}));
    var current :- FromConfig(OpenWithAdmin(e.value.envelope, root, admin, key, Checkpoint(head.value.head), now));
    Ok(Replica(current.config, current.head, e.version, head.version, signer.version))
  }
}
