/** The bounds of the configuration formats, shared by their validators and codecs. */
module Limits {
  const MAX_MEMBERS: nat := 256
  const MAX_APPS: nat := 256
  const MAX_BINDINGS: nat := 1024
  const MAX_DNS: nat := 1024
  const MAX_RELAYS: nat := 64
  const MAX_PRESENCE: nat := 64
  const MAX_ADMINS: nat := 16
  const MAX_REVOKED: nat := 4096
  const MAX_SERVICES: nat := 64
  const MAX_CREDENTIAL_BYTES: nat := 16 * 1024
  const MAX_URL: nat := 2048

  const MAX_PLAINTEXT: nat := 1024 * 1024
  const MAX_CIPHERTEXT: nat := MAX_PLAINTEXT + 32
  const MAX_KEY_WRAPS: nat := 256
  const MAX_WRAP_PART: nat := 1024
  const MAX_UPDATE_ENVELOPES: nat := 1024
  const MAX_UPDATE_BATCH_BYTES: nat := 16 * 1024 * 1024

  /** The list bounds of a snapshot, over the lengths of its lists. */
  predicate CountsOk(admins: nat, members: nat, endpoints: nat, revoked: nat, apps: nat, bindings: nat, dns: nat, relays: nat, presence: nat) {
    && admins <= MAX_ADMINS && members <= MAX_MEMBERS && endpoints <= MAX_MEMBERS && revoked <= MAX_REVOKED && apps <= MAX_APPS
    && bindings <= MAX_BINDINGS && dns <= MAX_DNS && relays <= MAX_RELAYS && presence <= MAX_PRESENCE
  }

  predicate PolicyOk(maxMembers: nat, maxServices: nat) {
    0 < maxMembers <= MAX_MEMBERS && 0 < maxServices <= MAX_SERVICES
  }

  predicate CredentialLengthOk(length: nat) {
    0 < length <= MAX_CREDENTIAL_BYTES
  }

  /** The bounds of an update batch above revision `base`: how many envelopes, and their sum. */
  predicate BatchWithin(base: nat, count: nat, total: nat) {
    count <= MAX_UPDATE_ENVELOPES && total <= MAX_UPDATE_BATCH_BYTES && base + 1 + count < 0x1_0000_0000_0000_0000
  }

  /** Size of an encoded batch: header, then each envelope behind its four-byte length. */
  function EncodedBatchLength(count: nat, total: nat): nat {
    92 + 4 * count + total
  }

  /** What the envelope at position `i` of a batch above revision `base` has to say of itself. */
  predicate FollowsBase<N(==), H(==)>(network: N, base: nat, i: nat, previous: H, ownNetwork: N, ownRevision: nat, ownPrevious: H) {
    ownNetwork == network && ownRevision == base + 1 + i && ownPrevious == previous
  }
}
