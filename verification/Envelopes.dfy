/** Sealing and opening configuration envelopes (`weaver-config/src/lib.rs`). */
module Envelopes {
  import opened Prelude
  import opened Limits
  import opened Credentials
  import opened Configs
  import opened SnapshotValidation


  datatype ConfigError =
    | InvalidRecipientCount
    | PayloadTooLarge
    | DecryptionFailed
    | NoRecipientWrap
    | EnvelopeNetwork
    | EnvelopeSigner
    | EnvelopePermission
    | EnvelopeSignature
    | ChainMismatch
    | PayloadHashMismatch
    | EnvelopePayloadMismatch
    | SnapshotInvalid
    | SignerUnknown
    | RecipientSetMismatch
    | UpdateBatchTooLarge
    | MalformedEnvelope
    | MalformedMember

  // ---- chain expectations ----

  datatype Chain = Genesis | Next(head: Head) | Checkpoint(head: Head)

  /** `validate_chain`. */
  predicate ChainOk(e: Envelope, chain: Chain) {
    match chain
    case Genesis => e.body.revision == 0 && e.body.previous == ZeroHash
    case Next(head) => e.body.revision == head.revision + 1 && e.body.previous == head.hash && head.epoch <= e.body.epoch
    case Checkpoint(head) => HeadOf(e) == head
  }

  // ---- shuffling the wraps ----

  function Swap<T>(items: seq<T>, i: nat, j: nat): seq<T>
    requires i < |items| && j < |items|
  {
    items[i := items[j]][j := items[i]]
  }

  /** The random word drawn for position `index`; the stream is arbitrary. */
  function Draw(draws: seq<nat>, index: nat): nat {
    if index < |draws| then draws[index] else 0
  }

  function ShuffleDown<T>(items: seq<T>, index: nat, draws: seq<nat>): seq<T>
    requires index < |items|
    decreases index
  {
    if index == 0 then items
    else ShuffleDown(Swap(items, index, Draw(draws, index) % (index + 1)), index - 1, draws)
  }

  function Shuffled<T>(items: seq<T>, draws: seq<nat>): seq<T> {
    if |items| <= 1 then items else ShuffleDown(items, |items| - 1, draws)
  }

  lemma SwapPermutes<T>(items: seq<T>, i: nat, j: nat)
    requires i < |items| && j < |items|
    ensures multiset(Swap(items, i, j)) == multiset(items)
  {
    assert multiset(items[i := items[j]]) == multiset(items) - multiset{items[i]} + multiset{items[j]};
  }

  lemma {:induction false} ShuffleDownPermutes<T>(items: seq<T>, index: nat, draws: seq<nat>)
    requires index < |items|
    ensures multiset(ShuffleDown(items, index, draws)) == multiset(items)
    decreases index
  {
    if index > 0 {
      var j := Draw(draws, index) % (index + 1);
      SwapPermutes(items, index, j);
      ShuffleDownPermutes(Swap(items, index, j), index - 1, draws);
    }
  }

  /** Whatever the random words, shuffling neither drops nor duplicates an item. */
  lemma ShuffledPermutes<T>(items: seq<T>, draws: seq<nat>)
    ensures multiset(Shuffled(items, draws)) == multiset(items)
    ensures |Shuffled(items, draws)| == |items|
  {
    if |items| > 1 {
      ShuffleDownPermutes(items, |items| - 1, draws);
    }
    assert |multiset(Shuffled(items, draws))| == |multiset(items)|;
  }

  /** `shuffle`: in place, from the last position down. */
  method Shuffle<T>(a: array<T>, draws: seq<nat>)
    modifies a
    ensures a[..] == Shuffled(old(a[..]), draws)
    ensures multiset(a[..]) == multiset(old(a[..]))
  {
    ShuffledPermutes(a[..], draws);
    if a.Length <= 1 {
      return;
    }
    var index := a.Length - 1;
    while index > 0
      invariant 0 <= index < a.Length
      invariant ShuffleDown(a[..], index, draws) == Shuffled(old(a[..]), draws)
    {
      var selected := Draw(draws, index) % (index + 1);
      ghost var before := a[..];
      a[index], a[selected] := a[selected], a[index];
      assert a[..] == Swap(before, index, selected);
      index := index - 1;
    }
  }

  // ---- sealing ----

  /** The environment's choices: content key, nonce, shuffle words, and the encoded length of
      the snapshot. */
  datatype SealChoices = SealChoices(contentKey: nat, nonce: nat, length: nat, draws: seq<nat>)

  function AadOf(b: EnvelopeBody): Aad {
    Aad(b.network, b.epoch, b.revision, b.previous, b.payloadHash)
  }

  function WrapAll(recipients: seq<EncryptionKey>, contentKey: nat, aad: Aad): seq<KeyWrap> {
    seq(|recipients|, i requires 0 <= i < |recipients| => KeyWrap(recipients[i], contentKey, aad))
  }

  /** `seal_with_signer`. */
  function SealWithSigner(signer: KeyId, signingKey: PublicKey, config: Config, recipients: seq<EncryptionKey>, choices: SealChoices)
    : Result<Envelope, ConfigError>
  {
    var _ :- Need(choices.length <= MAX_PLAINTEXT, PayloadTooLarge);
    var _ :- Need(0 < |recipients| <= MAX_KEY_WRAPS, InvalidRecipientCount);
    var plaintext := Snapshot(config);
    var aad := Aad(config.network, config.epoch, config.revision, config.previous, plaintext);
    var ciphertext := Ciphertext(choices.contentKey, choices.nonce, aad, plaintext, choices.length + 16);
    var wraps := Shuffled(WrapAll(recipients, choices.contentKey, aad), choices.draws);
    var body := EnvelopeBody(config.network, config.epoch, config.revision, config.previous, plaintext, choices.nonce, ciphertext, wraps, signer);
    Ok(Envelope(body, Signature(signingKey, body)))
  }

  /** `active_recipient_keys`. */
  function ActiveRecipients(c: Config): Result<seq<EncryptionKey>, ConfigError> {
    if AllDecode(c.members) then
      Ok(seq(|c.members|, i requires 0 <= i < |c.members| => c.members[i].value.payload.encryptionKey))
    else Err(MalformedMember)
  }

  /** `validate_recipient_set`: duplicates are found by comparing set sizes. */
  predicate RecipientSetOk(c: Config, recipients: seq<EncryptionKey>) {
    && AllDecode(c.members)
    && |MemberKeys(c)| == |c.members|
    && |Elements(recipients)| == |recipients|
    && MemberKeys(c) == Elements(recipients)
  }

  /** `ValidatedNetworkConfig::verified_admin`: the first certificate with this key id decides. */
  function VerifiedAdmin(keys: seq<Raw<AdminCert>>, root: PublicKey, network: NetworkId, id: KeyId, now: u64, revoked: set<u64>)
    : Result<AdminPayload, ConfigError>
  {
    if keys == [] then Err(SignerUnknown)
    else if keys[0].Malformed? then Err(SignerUnknown)
    else if keys[0].value.payload.keyId == id then
      match VerifyAdmin(keys[0].value, root, network, now, revoked)
      case Ok(p) => Ok(p)
      case Err(_) => Err(SignerUnknown)
    else VerifiedAdmin(keys[1..], root, network, id, now, revoked)
  }

  function VerifiedAdminOf(c: Config, root: PublicKey, id: KeyId, now: u64): Result<AdminPayload, ConfigError> {
    VerifiedAdmin(c.adminKeys, root, c.network, id, now, RevokedSet(c))
  }

  /** `seal_config`: the root key seals the first revision. */
  function SealGenesis(root: PublicKey, config: Config, recipients: seq<EncryptionKey>, choices: SealChoices): Result<Envelope, ConfigError> {
    var _ :- Need(ValidAt(config, root, config.issuedAt), SnapshotInvalid);
    var _ :- Need(RecipientSetOk(config, recipients), RecipientSetMismatch);
    SealWithSigner(RootKeyId(root), root, config, recipients, choices)
  }

  /** `seal_next_config`. */
  function SealNext(root: PublicKey, adminKey: PublicKey, current: Config, head: Head, next: Config,
                    recipients: seq<EncryptionKey>, now: u64, choices: SealChoices): Result<Envelope, ConfigError>
  {
    var _ :- Need(current.network == NetworkId(root) && current.revision == head.revision && current.epoch == head.epoch, EnvelopePayloadMismatch);
    var admin :- VerifiedAdminOf(current, root, AdminKeyId(adminKey), now);
    var _ :- Need(admin.publicKey == adminKey, EnvelopeSigner);
    var _ :- Need(PERMISSION_CONFIG_WRITE in admin.permissions, EnvelopePermission);
    var _ :- Need(next.network == NetworkId(root) && next.revision == head.revision + 1 && next.previous == head.hash && head.epoch <= next.epoch,
                  ChainMismatch);
    var _ :- Need(ValidAt(next, root, next.issuedAt), SnapshotInvalid);
    var _ :- Need(RecipientSetOk(next, recipients), RecipientSetMismatch);
    SealWithSigner(AdminKeyId(adminKey), adminKey, next, recipients, choices)
  }

  // ---- opening ----

  /** The content key of the first wrap this key pair can open. */
  function FindContentKey(wraps: seq<KeyWrap>, recipient: EncryptionKey, aad: Aad): Option<nat> {
    if wraps == [] then None
    else if wraps[0].recipient == recipient && wraps[0].aad == aad then Some(wraps[0].contentKey)
    else FindContentKey(wraps[1..], recipient, aad)
  }

  datatype Opened = Opened(config: Config, head: Head)

  /** `open_after_verified_signature`. */
  function Decrypt(e: Envelope, recipient: EncryptionKey, chain: Chain): Result<Plaintext, ConfigError> {
    var b := e.body;
    var _ :- Need(ChainOk(e, chain), ChainMismatch);
    var key := FindContentKey(b.wraps, recipient, AadOf(b));
    var _ :- Need(key.Some?, NoRecipientWrap);
    var _ :- Need(b.ciphertext.contentKey == key.value && b.ciphertext.nonce == b.nonce && b.ciphertext.aad == AadOf(b), DecryptionFailed);
    var _ :- Need(b.ciphertext.plaintext == b.payloadHash, PayloadHashMismatch);
    Ok(b.ciphertext.plaintext)
  }

  /** `decode_and_validate_opened`. */
  function DecodeOpened(e: Envelope, root: PublicKey, plaintext: Plaintext, now: u64): Result<Opened, ConfigError> {
    var b := e.body;
    var _ :- Need(plaintext.Snapshot?, SnapshotInvalid);
    var c := plaintext.config;
    var _ :- Need(c.network == b.network && c.epoch == b.epoch && c.revision == b.revision && c.previous == b.previous, EnvelopePayloadMismatch);
    var _ :- Need(b.network == NetworkId(root) && ValidAt(c, root, now), SnapshotInvalid);
    Ok(Opened(c, HeadOf(e)))
  }

  /** `open_config`: signed by the root itself. */
  function OpenRootSigned(e: Envelope, root: PublicKey, recipient: EncryptionKey, chain: Chain, now: u64): Result<Opened, ConfigError> {
    var _ :- Need(e.body.network == NetworkId(root), EnvelopeNetwork);
    var _ :- Need(e.body.signer == RootKeyId(root), EnvelopeSigner);
    var _ :- Need(Verifies(root, e.body, e.signature), EnvelopeSignature);
    var plaintext :- Decrypt(e, recipient, chain);
    DecodeOpened(e, root, plaintext, now)
  }

  /** `open_config_with_verified_admin`. */
  function OpenWithAdmin(e: Envelope, root: PublicKey, admin: AdminPayload, recipient: EncryptionKey, chain: Chain, now: u64)
    : Result<Opened, ConfigError>
  {
    var _ :- Need(e.body.network == NetworkId(root) && admin.network == e.body.network, EnvelopeNetwork);
    var _ :- Need(e.body.signer == admin.keyId, EnvelopeSigner);
    var _ :- Need(PERMISSION_CONFIG_WRITE in admin.permissions, EnvelopePermission);
    var _ :- Need(Verifies(admin.publicKey, e.body, e.signature), EnvelopeSignature);
    var plaintext :- Decrypt(e, recipient, chain);
    DecodeOpened(e, root, plaintext, now)
  }

  /** `open_next_config`. */
  function OpenNext(e: Envelope, root: PublicKey, current: Config, recipient: EncryptionKey, head: Head, now: u64): Result<Opened, ConfigError> {
    var _ :- Need(e.body.network == NetworkId(root) && current.network == e.body.network, EnvelopeNetwork);
    var admin :- VerifiedAdminOf(current, root, e.body.signer, now);
    OpenWithAdmin(e, root, admin, recipient, Next(head), now)
  }

  // ---- who can open what ----

  lemma {:induction false} VerifiedAdminIsListed(keys: seq<Raw<AdminCert>>, root: PublicKey, network: NetworkId, id: KeyId, now: u64, revoked: set<u64>)
    returns (i: nat)
    requires VerifiedAdmin(keys, root, network, id, now, revoked).Ok?
    ensures i < |keys| && keys[i].Wire? && VerifyAdmin(keys[i].value, root, network, now, revoked).Ok?
    ensures VerifiedAdmin(keys, root, network, id, now, revoked) == Ok(keys[i].value.payload)
    ensures keys[i].value.payload.keyId == id
  {
    if keys[0].value.payload.keyId == id {
      i := 0;
    } else {
      i := VerifiedAdminIsListed(keys[1..], root, network, id, now, revoked);
      i := i + 1;
    }
  }

  lemma {:induction false} FindContentKeyUniform(wraps: seq<KeyWrap>, recipient: EncryptionKey, contentKey: nat, aad: Aad)
    requires forall w :: w in wraps ==> w.contentKey == contentKey && w.aad == aad
    ensures FindContentKey(wraps, recipient, aad) ==
            if KeyWrap(recipient, contentKey, aad) in wraps then Some(contentKey) else None
  {
    if wraps != [] {
      assert wraps == [wraps[0]] + wraps[1..];
      FindContentKeyUniform(wraps[1..], recipient, contentKey, aad);
    }
  }

  function RecipientsOf(wraps: seq<KeyWrap>): seq<EncryptionKey> {
    seq(|wraps|, i requires 0 <= i < |wraps| => wraps[i].recipient)
  }

  /** The keys an envelope is wrapped to, in wire order. */
  function Recipients(e: Envelope): seq<EncryptionKey> {
    RecipientsOf(e.body.wraps)
  }

  /** Wraps of one content key are told apart by their recipients alone. */
  lemma {:induction false} CountRecipient(wraps: seq<KeyWrap>, contentKey: nat, aad: Aad, k: EncryptionKey)
    requires forall w :: w in wraps ==> w.contentKey == contentKey && w.aad == aad
    ensures multiset(RecipientsOf(wraps))[k] == multiset(wraps)[KeyWrap(k, contentKey, aad)]
  {
    if wraps != [] {
      var front, last := wraps[..|wraps| - 1], wraps[|wraps| - 1];
      assert wraps == front + [last];
      assert RecipientsOf(wraps) == RecipientsOf(front) + [last.recipient];
      CountRecipient(front, contentKey, aad, k);
    }
  }

  /** A sealed envelope takes 248 bytes beside its snapshot, the 16 of the authentication tag among
      them, and 84 for each recipient, and its ciphertext is within what a reader accepts. */
  lemma SealedSize(signer: KeyId, signingKey: PublicKey, config: Config, recipients: seq<EncryptionKey>, choices: SealChoices, e: Envelope)
    requires SealWithSigner(signer, signingKey, config, recipients, choices) == Ok(e)
    ensures WireLength(e) == 248 + choices.length + 84 * |recipients|
    ensures e.body.ciphertext.length <= MAX_CIPHERTEXT && 0 < |e.body.wraps| <= MAX_KEY_WRAPS
  {
    ShuffledPermutes(WrapAll(recipients, choices.contentKey, AadOf(e.body)), choices.draws);
  }

  /** What a freshly sealed envelope is made of, before any question of who may read it. */
  lemma SealedFields(signer: KeyId, signingKey: PublicKey, config: Config, recipients: seq<EncryptionKey>, choices: SealChoices, e: Envelope)
    requires SealWithSigner(signer, signingKey, config, recipients, choices) == Ok(e)
    ensures HeadOf(e) == Head(config.epoch, config.revision, Digest(e))
    ensures e.body.network == config.network && e.body.previous == config.previous && e.body.signer == signer
    ensures e.body.ciphertext.plaintext == e.body.payloadHash == Snapshot(config)
    ensures e.body.ciphertext.contentKey == choices.contentKey && e.body.ciphertext.nonce == e.body.nonce && e.body.ciphertext.aad == AadOf(e.body)
    ensures Verifies(signingKey, e.body, e.signature)
    ensures forall w :: w in e.body.wraps <==> w.recipient in recipients && w == KeyWrap(w.recipient, choices.contentKey, AadOf(e.body))
    ensures forall k :: FindContentKey(e.body.wraps, k, AadOf(e.body)) == if k in recipients then Some(choices.contentKey) else None
  {
    var aad := AadOf(e.body);
    var wraps := WrapAll(recipients, choices.contentKey, aad);
    ShuffledPermutes(wraps, choices.draws);
    assert forall w :: w in e.body.wraps <==> w in multiset(wraps);
    assert forall w :: w in wraps <==> w in multiset(wraps);
    forall w
      ensures w in e.body.wraps <==> w.recipient in recipients && w == KeyWrap(w.recipient, choices.contentKey, aad)
    {
      if w.recipient in recipients && w == KeyWrap(w.recipient, choices.contentKey, aad) {
        var i :| 0 <= i < |recipients| && recipients[i] == w.recipient;
        assert wraps[i] == w;
      }
    }
    forall k
      ensures FindContentKey(e.body.wraps, k, aad) == if k in recipients then Some(choices.contentKey) else None
    {
      FindContentKeyUniform(e.body.wraps, k, choices.contentKey, aad);
    }
  }

  /** The key wraps of a sealed envelope are, up to order, exactly the requested recipients. */
  lemma SealedRecipients(signer: KeyId, signingKey: PublicKey, config: Config, recipients: seq<EncryptionKey>, choices: SealChoices, e: Envelope)
    requires SealWithSigner(signer, signingKey, config, recipients, choices) == Ok(e)
    ensures multiset(Recipients(e)) == multiset(recipients)
  {
    var aad := AadOf(e.body);
    var wraps := WrapAll(recipients, choices.contentKey, aad);
    ShuffledPermutes(wraps, choices.draws);
    SealedFields(signer, signingKey, config, recipients, choices, e);
    assert recipients == RecipientsOf(wraps);
    forall k
      ensures multiset(Recipients(e))[k] == multiset(recipients)[k]
    {
      CountRecipient(e.body.wraps, choices.contentKey, aad, k);
      CountRecipient(wraps, choices.contentKey, aad, k);
    }
  }

  /** An accepted recipient list names every member exactly once and nobody else. */
  lemma RecipientSetExact(c: Config, recipients: seq<EncryptionKey>)
    requires RecipientSetOk(c, recipients)
    ensures Distinct(recipients)
    ensures forall k :: k in recipients <==> k in MemberKeys(c)
    ensures |recipients| == |c.members|
  {
    DistinctCardinality(recipients);
    assert forall k :: k in recipients <==> k in Elements(recipients);
  }

  /** A revision sealed by the online administrator opens, for whoever holds `key`, exactly when
      `key` belongs to a member of that revision, the administrator is still verified by the
      predecessor, and the revision is valid at the time of opening. */
  lemma SealedNextOpens(root: PublicKey, adminKey: PublicKey, current: Config, head: Head, next: Config,
                        recipients: seq<EncryptionKey>, sealedAt: u64, choices: SealChoices, e: Envelope, key: EncryptionKey, now: u64)
    requires SealNext(root, adminKey, current, head, next, recipients, sealedAt, choices) == Ok(e)
    ensures OpenNext(e, root, current, key, head, now).Ok? <==>
            key in MemberKeys(next) && VerifiedAdminOf(current, root, AdminKeyId(adminKey), now).Ok? && ValidAt(next, root, now)
    ensures OpenNext(e, root, current, key, head, now).Ok? ==> OpenNext(e, root, current, key, head, now).value == Opened(next, HeadOf(e))
    ensures key !in MemberKeys(next) && VerifiedAdminOf(current, root, AdminKeyId(adminKey), now).Ok? ==>
            OpenNext(e, root, current, key, head, now) == Err(NoRecipientWrap)
  {
    hide ValidAt, SealWithSigner, RecipientSetOk, FindContentKey, MemberKeys, VerifiedAdmin;
    SealedFields(AdminKeyId(adminKey), adminKey, next, recipients, choices, e);
    RecipientSetExact(next, recipients);
    var i := VerifiedAdminIsListed(current.adminKeys, root, current.network, AdminKeyId(adminKey), sealedAt, RevokedSet(current));
    if VerifiedAdminOf(current, root, AdminKeyId(adminKey), now).Ok? {
      var j := VerifiedAdminIsListed(current.adminKeys, root, current.network, AdminKeyId(adminKey), now, RevokedSet(current));
      SameAdmin(current.adminKeys, root, current.network, AdminKeyId(adminKey), sealedAt, now, RevokedSet(current));
    }
  }

  /** The administrator found for a key id does not depend on when one looks. */
  lemma {:induction false} SameAdmin(keys: seq<Raw<AdminCert>>, root: PublicKey, network: NetworkId, id: KeyId, t: u64, u: u64, revoked: set<u64>)
    requires VerifiedAdmin(keys, root, network, id, t, revoked).Ok? && VerifiedAdmin(keys, root, network, id, u, revoked).Ok?
    ensures VerifiedAdmin(keys, root, network, id, t, revoked) == VerifiedAdmin(keys, root, network, id, u, revoked)
  {
    if keys[0].value.payload.keyId != id {
      SameAdmin(keys[1..], root, network, id, t, u, revoked);
    }
  }

  // ---- what an envelope must be to open, whoever made it ----

  /** Signed by this key over its whole body, in its place in the chain, wrapped to this recipient,
      and carrying a snapshot with the same metadata that is valid now. */
  ghost predicate Genuine(e: Envelope, root: PublicKey, signer: PublicKey, recipient: EncryptionKey, now: u64) {
    var b := e.body;
    && e.signature == Signature(signer, b) && b.network == NetworkId(root)
    && FindContentKey(b.wraps, recipient, AadOf(b)) == Some(b.ciphertext.contentKey) && b.ciphertext.nonce == b.nonce && b.ciphertext.aad == AadOf(b)
    && b.ciphertext.plaintext == b.payloadHash && b.payloadHash.Snapshot?
    && var c := b.payloadHash.config;
       c.network == b.network && c.epoch == b.epoch && c.revision == b.revision && c.previous == b.previous && ValidAt(c, root, now)
  }

  /** An envelope opens as the next revision exactly when it is genuine, names its predecessor, and
      an administrator that the predecessor lists and lets write has signed it. */
  lemma OpensNextExactlyWhen(e: Envelope, root: PublicKey, current: Config, recipient: EncryptionKey, head: Head, now: u64)
    ensures OpenNext(e, root, current, recipient, head, now).Ok? <==>
            && current.network == NetworkId(root) && VerifiedAdminOf(current, root, e.body.signer, now).Ok?
            && var admin := VerifiedAdminOf(current, root, e.body.signer, now).value;
               && PERMISSION_CONFIG_WRITE in admin.permissions && Genuine(e, root, admin.publicKey, recipient, now)
               && e.body.revision == head.revision + 1 && e.body.previous == head.hash && head.epoch <= e.body.epoch
    ensures OpenNext(e, root, current, recipient, head, now).Ok? ==>
            OpenNext(e, root, current, recipient, head, now).value == Opened(e.body.payloadHash.config, HeadOf(e))
  {
    hide ValidAt, FindContentKey, VerifiedAdmin;
    if VerifiedAdminOf(current, root, e.body.signer, now).Ok? {
      var i := VerifiedAdminIsListed(current.adminKeys, root, current.network, e.body.signer, now, RevokedSet(current));
    }
  }

  /** As a checkpoint exactly when it is genuine, is the very head, and this administrator may write
      and has signed it. */
  lemma OpensCheckpointExactlyWhen(e: Envelope, root: PublicKey, admin: AdminPayload, recipient: EncryptionKey, head: Head, now: u64)
    ensures OpenWithAdmin(e, root, admin, recipient, Checkpoint(head), now).Ok? <==>
            && admin.network == NetworkId(root) && e.body.signer == admin.keyId && PERMISSION_CONFIG_WRITE in admin.permissions
            && Genuine(e, root, admin.publicKey, recipient, now) && head == Head(e.body.epoch, e.body.revision, Digest(e))
    ensures OpenWithAdmin(e, root, admin, recipient, Checkpoint(head), now).Ok? ==>
            OpenWithAdmin(e, root, admin, recipient, Checkpoint(head), now).value == Opened(e.body.payloadHash.config, HeadOf(e))
  {
    hide ValidAt, FindContentKey;
  }

  /** As the first revision exactly when it is genuine and the root has signed it. */
  lemma OpensGenesisExactlyWhen(e: Envelope, root: PublicKey, recipient: EncryptionKey, now: u64)
    ensures OpenRootSigned(e, root, recipient, Genesis, now).Ok? <==>
            e.body.signer == RootKeyId(root) && Genuine(e, root, root, recipient, now) && e.body.revision == 0 && e.body.previous == ZeroHash
    ensures OpenRootSigned(e, root, recipient, Genesis, now).Ok? ==>
            OpenRootSigned(e, root, recipient, Genesis, now).value == Opened(e.body.payloadHash.config, HeadOf(e))
  {
    hide ValidAt, FindContentKey;
  }

  /** A next revision is sealed exactly when its predecessor and head belong together, the
      administrator is listed there and may write, the chain goes on, and every member gets a wrap. */
  lemma SealsNextExactlyWhen(root: PublicKey, adminKey: PublicKey, current: Config, head: Head, next: Config, recipients: seq<EncryptionKey>, now: u64, choices: SealChoices)
    ensures SealNext(root, adminKey, current, head, next, recipients, now, choices).Ok? <==>
            && current.network == next.network == NetworkId(root) && current.revision == head.revision && current.epoch == head.epoch
            && (var admin := VerifiedAdminOf(current, root, AdminKeyId(adminKey), now);
                admin.Ok? && admin.value.publicKey == adminKey && PERMISSION_CONFIG_WRITE in admin.value.permissions)
            && next.revision == head.revision + 1 && next.previous == head.hash && head.epoch <= next.epoch && ValidAt(next, root, next.issuedAt)
            && AllDecode(next.members) && Distinct(recipients) && |recipients| == |next.members| && Elements(recipients) == MemberKeys(next)
            && 0 < |recipients| <= MAX_KEY_WRAPS && choices.length <= MAX_PLAINTEXT
  {
    hide ValidAt, VerifiedAdminOf, MemberKeys, WrapAll, Shuffled;
    DistinctCardinality(recipients);
  }

  /** And the first revision exactly when it is valid at its own time and every member gets a wrap. */
  lemma SealsGenesisExactlyWhen(root: PublicKey, config: Config, recipients: seq<EncryptionKey>, choices: SealChoices)
    ensures SealGenesis(root, config, recipients, choices).Ok? <==>
            && ValidAt(config, root, config.issuedAt)
            && AllDecode(config.members) && Distinct(recipients) && |recipients| == |config.members| && Elements(recipients) == MemberKeys(config)
            && 0 < |recipients| <= MAX_KEY_WRAPS && choices.length <= MAX_PLAINTEXT
  {
    hide ValidAt, MemberKeys, WrapAll, Shuffled;
    DistinctCardinality(recipients);
  }
}
