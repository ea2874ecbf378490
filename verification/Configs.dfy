/** Configuration snapshots and the signed, encrypted envelopes that carry them. The two types
    are mutually recursive: a snapshot names the digest of the previous envelope. */
module Configs {
  import opened Prelude
  import opened Credentials

  /** Credential bytes inside a snapshot: they decode to `value`, or they do not decode. */
  datatype Raw<+T> = Wire(value: T) | Malformed(length: nat)

  type VirtualName = string

  datatype DnsRecord = DnsRecord(name: VirtualName, app: AppAddr, expires: u64)

  datatype Relay = Relay(endpoint: EndpointId, url: string, roles: Bits, expires: u64)

  datatype PresenceService = PresenceService(endpoint: EndpointId, url: string, expires: u64)

  const RELAY_DATA: nat := 0
  const RELAY_BOOTSTRAP: nat := 1
  const RELAY_PRESENCE: nat := 2

  datatype EpochSecrets = EpochSecrets(presenceIndex: nat, presenceEncryption: nat, lanDiscovery: nat, relayAccess: nat)

  datatype Policy = Policy(flags: nat, maxMembers: nat, maxServices: nat)

  datatype Config = Config(
    network: NetworkId,
    epoch: u64,
    revision: u64,
    previous: Hash,
    issuedAt: u64,
    expiresAt: u64,
    adminKeys: seq<Raw<AdminCert>>,
    members: seq<Raw<MemberCert>>,
    endpointBindings: seq<Raw<EndpointBinding>>,
    revoked: seq<u64>,
    apps: seq<Raw<AppRegistration>>,
    appBindings: seq<Raw<AppBinding>>,
    dns: seq<DnsRecord>,
    relays: seq<Relay>,
    presence: seq<PresenceService>,
    secrets: EpochSecrets,
    policy: Policy)

  // ---- symbolic cryptography of an envelope ----

  /** The BLAKE3 digest of an envelope's exact bytes: injective by construction. */
  datatype Hash = ZeroHash | Digest(envelope: Envelope)

  /** What the content cipher protects: the bytes of a snapshot, or bytes that decode to none. */
  datatype Plaintext = Snapshot(config: Config) | Undecodable(id: nat)

  datatype Aad = Aad(network: NetworkId, epoch: u64, revision: u64, previous: Hash, payloadHash: Plaintext)

  /** A content key wrapped to one recipient (HPKE base mode, section 5.1.1 of RFC 9180). */
  datatype KeyWrap = KeyWrap(recipient: EncryptionKey, contentKey: nat, aad: Aad)

  datatype Ciphertext = Ciphertext(contentKey: nat, nonce: nat, aad: Aad, plaintext: Plaintext, length: nat)

  datatype EnvelopeBody = EnvelopeBody(
    network: NetworkId,
    epoch: u64,
    revision: u64,
    previous: Hash,
    payloadHash: Plaintext,
    nonce: nat,
    ciphertext: Ciphertext,
    wraps: seq<KeyWrap>,
    signer: KeyId)

  datatype Envelope = Envelope(body: EnvelopeBody, signature: Signature<EnvelopeBody>)

  datatype Head = Head(epoch: u64, revision: u64, hash: Hash)

  function HeadOf(e: Envelope): Head {
    Head(e.body.epoch, e.body.revision, Digest(e))
  }

  /** Length of the envelope's wire form: fixed fields, ciphertext, 84 bytes a wrap, signature. */
  function WireLength(e: Envelope): nat {
    8 + 2 + 32 + 8 + 8 + 32 + 32 + 24 + 4 + e.body.ciphertext.length + 2 + 84 * |e.body.wraps| + 16 + 64
  }

  // ---- readings of a snapshot ----

  function RevokedSet(c: Config): set<u64> {
    Elements(c.revoked)
  }

  predicate AllDecode<T>(raws: seq<Raw<T>>) {
    forall i :: 0 <= i < |raws| ==> raws[i].Wire?
  }

  /** The encryption keys of the current members. */
  function MemberKeys(c: Config): set<EncryptionKey> {
    set i | 0 <= i < |c.members| && c.members[i].Wire? :: c.members[i].value.payload.encryptionKey
  }
}
