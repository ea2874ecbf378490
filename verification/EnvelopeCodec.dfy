/** The wire forms of a configuration envelope and of an update batch, over any hash function. */
module EnvelopeCodec {
  import opened Prelude
  import opened Limits
  import opened Wire
  import opened Formats

  // "WVRCFG", a zero byte, 1, and the format version
  const ENVELOPE_PREFIX: Bytes := [87, 86, 82, 67, 70, 71, 0, 1, 0, 1]
  const SIGNATURE_LEN: nat := 64

  // ---- the signed part ----

  type IdTuple = (Bytes, (nat, (nat, Bytes)))
  type PayloadTuple = (Bytes, (Bytes, Bytes))
  type WrapTuple = (Bytes, Bytes)
  type SignedTuple = (IdTuple, (PayloadTuple, (seq<WrapTuple>, Bytes)))

  /** The fields under the signature, in wire order. */
  datatype Fields = Fields(network: Bytes, epoch: nat, revision: nat, previous: Bytes, payloadHash: Bytes, nonce: Bytes, ciphertext: Bytes,
                           wraps: seq<WrapTuple>, signer: Bytes)

  function IdFormat(): Format<IdTuple> {
    Pair(Fixed(32), Pair(UInt(8), Pair(UInt(8), Fixed(32))))
  }

  function PayloadFormat(): Format<PayloadTuple> {
    Pair(Fixed(32), Pair(Fixed(24), Blob(4, 0, MAX_CIPHERTEXT)))
  }

  function WrapFormat(): Format<WrapTuple> {
    Pair(Blob(2, 1, MAX_WRAP_PART), Blob(2, 1, MAX_WRAP_PART))
  }

  /** At least one recipient. */
  function WrapsFormat(): Format<seq<WrapTuple>> {
    Only(Listed(WrapFormat(), MAX_KEY_WRAPS), (wraps: seq<WrapTuple>) => wraps != [])
  }

  function FieldsFormat(): Format<Fields> {
    As(Pair(IdFormat(), Pair(PayloadFormat(), Pair(WrapsFormat(), Fixed(16)))),
       (t: SignedTuple) => Fields(t.0.0, t.0.1.0, t.0.1.1.0, t.0.1.1.1, t.1.0.0, t.1.0.1.0, t.1.0.1.1, t.1.1.0, t.1.1.1),
       (f: Fields) => ((f.network, (f.epoch, (f.revision, f.previous))), ((f.payloadHash, (f.nonce, f.ciphertext)), (f.wraps, f.signer))))
  }

  lemma FieldsLawful()
    ensures Lawful(FieldsFormat())
  {
    hide Lawful, Fixed, UInt, Blob, Pair, Listed, Only;
    FixedLawful(16);
    FixedLawful(24);
    FixedLawful(32);
    UIntLawful(8);
    BlobLawful(2, 1, MAX_WRAP_PART);
    BlobLawful(4, 0, MAX_CIPHERTEXT);
    PairLawful(UInt(8), Fixed(32));
    PairLawful(UInt(8), Pair(UInt(8), Fixed(32)));
    PairLawful(Fixed(32), Pair(UInt(8), Pair(UInt(8), Fixed(32))));
    PairLawful(Fixed(24), Blob(4, 0, MAX_CIPHERTEXT));
    PairLawful(Fixed(32), Pair(Fixed(24), Blob(4, 0, MAX_CIPHERTEXT)));
    PairLawful(Blob(2, 1, MAX_WRAP_PART), Blob(2, 1, MAX_WRAP_PART));
    ListedLawful(WrapFormat(), MAX_KEY_WRAPS);
    OnlyLawful(Listed(WrapFormat(), MAX_KEY_WRAPS), (wraps: seq<WrapTuple>) => wraps != []);
    PairLawful(WrapsFormat(), Fixed(16));
    PairLawful(PayloadFormat(), Pair(WrapsFormat(), Fixed(16)));
    PairLawful(IdFormat(), Pair(PayloadFormat(), Pair(WrapsFormat(), Fixed(16))));
    AsLawful(Pair(IdFormat(), Pair(PayloadFormat(), Pair(WrapsFormat(), Fixed(16)))),
       (t: SignedTuple) => Fields(t.0.0, t.0.1.0, t.0.1.1.0, t.0.1.1.1, t.1.0.0, t.1.0.1.0, t.1.0.1.1, t.1.1.0, t.1.1.1),
       (f: Fields) => ((f.network, (f.epoch, (f.revision, f.previous))), ((f.payloadHash, (f.nonce, f.ciphertext)), (f.wraps, f.signer))));
  }

  // ---- envelopes ----

  /** A parsed envelope keeps the exact bytes its signature covers. */
  datatype WireEnvelope = WireEnvelope(fields: Fields, signedBytes: Bytes, signature: Bytes)

  /** `encode_signed_bytes`. */
  function EncodeSigned(f: Fields): Bytes {
    ENVELOPE_PREFIX + FieldsFormat().write(f)
  }

  /** `to_bytes`. */
  function ToBytes(e: WireEnvelope): Bytes {
    e.signedBytes + e.signature
  }

  /** `from_bytes`. */
  function FromBytes(b: Bytes): Option<WireEnvelope> {
    if |b| < SIGNATURE_LEN then None
    else
      var signed, signature := b[..|b| - SIGNATURE_LEN], b[|b| - SIGNATURE_LEN..];
      if !(ENVELOPE_PREFIX <= signed) then None
      else
        match FieldsFormat().read(signed[10..])
        case None => None
        case Some(p) => if p.rest == [] then Some(WireEnvelope(p.value, signed, signature)) else None
  }

  /** Sealing writes the fields and appends the signature. */
  function Sealed(f: Fields, signature: Bytes): WireEnvelope {
    WireEnvelope(f, EncodeSigned(f), signature)
  }

  method AppendId(before: Bytes, f: Fields) returns (out: Bytes)
    ensures out == before + IdFormat().write((f.network, (f.epoch, (f.revision, f.previous))))
  {
    hide BE;
    out := before + f.network;
    out := out + BE(f.epoch, 8);
    out := out + BE(f.revision, 8);
    out := out + f.previous;
    assert out == before + (f.network + (BE(f.epoch, 8) + (BE(f.revision, 8) + f.previous)));
  }

  method AppendPayload(before: Bytes, f: Fields) returns (out: Bytes)
    ensures out == before + PayloadFormat().write((f.payloadHash, (f.nonce, f.ciphertext)))
  {
    hide BE;
    out := before + f.payloadHash;
    out := out + f.nonce;
    out := out + BE(|f.ciphertext|, 4);
    out := out + f.ciphertext;
    assert out == before + (f.payloadHash + (f.nonce + (BE(|f.ciphertext|, 4) + f.ciphertext)));
  }

  method AppendWrap(before: Bytes, wrap: WrapTuple) returns (out: Bytes)
    ensures out == before + WrapFormat().write(wrap)
  {
    hide BE;
    out := before + BE(|wrap.0|, 2);
    out := out + wrap.0;
    out := out + BE(|wrap.1|, 2);
    out := out + wrap.1;
    assert out == before + ((BE(|wrap.0|, 2) + wrap.0) + (BE(|wrap.1|, 2) + wrap.1));
  }

  lemma Regroup(a: Bytes, b: Bytes, c: Bytes)
    ensures (a + b) + c == a + (b + c)
  {
  }

  method AppendWraps(before: Bytes, wraps: seq<WrapTuple>) returns (out: Bytes)
    ensures out == before + WrapsFormat().write(wraps)
  {
    hide BE, WrapFormat, WriteAll;
    NothingWritten();
    out := before + BE(|wraps|, 2);
    ghost var start := out;
    for i := 0 to |wraps|
      invariant out == start + WriteAll(WrapFormat(), wraps[..i])
    {
      WriteAllAppend(WrapFormat(), wraps[..i], wraps[i]);
      assert wraps[..i] + [wraps[i]] == wraps[..i + 1];
      Regroup(start, WriteAll(WrapFormat(), wraps[..i]), WrapFormat().write(wraps[i]));
      out := AppendWrap(out, wraps[i]);
    }
    assert wraps[..|wraps|] == wraps;
    Regroup(before, BE(|wraps|, 2), WriteAll(WrapFormat(), wraps));
  }

  lemma NothingWritten()
    ensures WriteAll(WrapFormat(), []) == []
  {
  }

  /** `encode_signed_bytes` as the source does it, field after field onto one buffer. */
  method AppendSigned(f: Fields) returns (out: Bytes)
    ensures out == EncodeSigned(f)
  {
    hide IdFormat, PayloadFormat, WrapsFormat;
    out := [87, 86, 82, 67, 70, 71, 0, 1] + [0, 1];
    out := AppendId(out, f);
    out := AppendPayload(out, f);
    out := AppendWraps(out, f.wraps);
    out := out + f.signer;
    ghost var id, payload, wraps := IdFormat().write((f.network, (f.epoch, (f.revision, f.previous)))),
                                    PayloadFormat().write((f.payloadHash, (f.nonce, f.ciphertext))), WrapsFormat().write(f.wraps);
    Regroup(ENVELOPE_PREFIX + id + payload, wraps, f.signer);
    Regroup(ENVELOPE_PREFIX + id, payload, wraps + f.signer);
    Regroup(ENVELOPE_PREFIX, id, payload + (wraps + f.signer));
  }

  /** A sealed envelope parses to itself. */
  lemma SealedParses(f: Fields, signature: Bytes)
    requires FieldsFormat().fits(f) && |signature| == SIGNATURE_LEN
    ensures FromBytes(ToBytes(Sealed(f, signature))) == Some(Sealed(f, signature))
  {
    hide FieldsFormat;
    FieldsLawful();
    var b := ToBytes(Sealed(f, signature));
    var written := FieldsFormat().write(f);
    assert b[..|b| - SIGNATURE_LEN] == ENVELOPE_PREFIX + written && b[|b| - SIGNATURE_LEN..] == signature;
    assert (ENVELOPE_PREFIX + written)[10..] == written + [];
  }

  /** An accepted envelope has exactly one wire form, the received one: its fields encode to the
      signed bytes and it re-encodes to what was received, so any hash of it is the hash of that. */
  lemma AcceptedIsCanonical(b: Bytes, hash: Bytes -> Bytes)
    requires FromBytes(b).Some?
    ensures var e := FromBytes(b).value;
            && ToBytes(e) == b && hash(ToBytes(e)) == hash(b)
            && FieldsFormat().fits(e.fields) && e.signedBytes == EncodeSigned(e.fields) && |e.signature| == SIGNATURE_LEN
  {
    hide FieldsFormat;
    FieldsLawful();
    var e := FromBytes(b).value;
    assert b == b[..|b| - SIGNATURE_LEN] + b[|b| - SIGNATURE_LEN..];
    assert e.signedBytes == ENVELOPE_PREFIX + e.signedBytes[10..];
    assert e.signedBytes[10..] == FieldsFormat().write(e.fields) + [];
  }

  // ---- update batches ----

  // "WVRUPD", a zero byte, 1
  const BATCH_MAGIC: Bytes := [87, 86, 82, 85, 80, 68, 0, 1]

  datatype Batch = Batch(network: Bytes, epoch: nat, revision: nat, hash: Bytes, envelopes: seq<Bytes>)

  function Total(envelopes: seq<Bytes>): nat {
    if envelopes == [] then 0 else |envelopes[0]| + Total(envelopes[1..])
  }

  /** One envelope parses, belongs to the network and names its predecessor. */
  predicate LinkOk(batch: Batch, hash: Bytes -> Bytes, i: nat)
    requires i < |batch.envelopes|
  {
    var e := FromBytes(batch.envelopes[i]);
    && e.Some?
    && var f, previous := e.value.fields, if i == 0 then batch.hash else hash(batch.envelopes[i - 1]);
       FollowsBase(batch.network, batch.revision, i, previous, f.network, f.revision, f.previous)
  }

  /** What `new` accepts. */
  predicate BatchValid(batch: Batch, hash: Bytes -> Bytes) {
    && BatchWithin(batch.revision, |batch.envelopes|, Total(batch.envelopes))
    && forall i :: 0 <= i < |batch.envelopes| ==> LinkOk(batch, hash, i)
  }

  predicate HeaderFits(batch: Batch) {
    |batch.network| == 32 && |batch.hash| == 32 && batch.epoch < Pow256(8) && batch.revision < Pow256(8)
  }

  function EnvelopeBlob(): Format<Bytes> {
    Blob(4, 0, MAX_UPDATE_BATCH_BYTES)
  }

  function BatchHeader(): Format<(Bytes, (nat, (nat, (Bytes, nat))))> {
    Pair(Fixed(32), Pair(UInt(8), Pair(UInt(8), Pair(Fixed(32), UInt(4)))))
  }

  function HeaderOf(batch: Batch): (Bytes, (nat, (nat, (Bytes, nat)))) {
    (batch.network, (batch.epoch, (batch.revision, (batch.hash, |batch.envelopes|))))
  }

  function EncodeBatch(batch: Batch): Bytes {
    BATCH_MAGIC + BatchHeader().write(HeaderOf(batch)) + WriteAll(EnvelopeBlob(), batch.envelopes)
  }

  method AppendHeader(batch: Batch) returns (out: Bytes)
    ensures out == BATCH_MAGIC + BatchHeader().write(HeaderOf(batch))
  {
    hide BE;
    out := [87, 86, 82, 85, 80, 68, 0, 1];
    out := out + batch.network;
    out := out + BE(batch.epoch, 8);
    out := out + BE(batch.revision, 8);
    out := out + batch.hash;
    out := out + BE(|batch.envelopes|, 4);
    assert out == BATCH_MAGIC + (batch.network + (BE(batch.epoch, 8) + (BE(batch.revision, 8) + (batch.hash + BE(|batch.envelopes|, 4)))));
  }

  /** `to_bytes` of a batch as the source does it. */
  method AppendBatch(batch: Batch) returns (out: Bytes)
    ensures out == EncodeBatch(batch)
  {
    hide BE, BatchHeader, WriteAll;
    out := AppendHeader(batch);
    ghost var start := out;
    NoEnvelopes();
    for i := 0 to |batch.envelopes|
      invariant out == start + WriteAll(EnvelopeBlob(), batch.envelopes[..i])
    {
      WriteAllAppend(EnvelopeBlob(), batch.envelopes[..i], batch.envelopes[i]);
      assert batch.envelopes[..i] + [batch.envelopes[i]] == batch.envelopes[..i + 1];
      var length := BE(|batch.envelopes[i]|, 4);
      Regroup(out, length, batch.envelopes[i]);
      Regroup(start, WriteAll(EnvelopeBlob(), batch.envelopes[..i]), length + batch.envelopes[i]);
      out := out + length;
      out := out + batch.envelopes[i];
    }
    assert batch.envelopes[..|batch.envelopes|] == batch.envelopes;
  }

  lemma NoEnvelopes()
    ensures WriteAll(EnvelopeBlob(), []) == []
  {
  }

  function DecodeBatch(b: Bytes, hash: Bytes -> Bytes): Option<Batch> {
    if |b| > MAX_UPDATE_BATCH_BYTES || !(BATCH_MAGIC <= b) then None
    else
      match BatchHeader().read(b[8..])
      case None => None
      case Some(header) =>
        var (network, (epoch, (revision, (head, count)))) := header.value;
        if count > MAX_UPDATE_ENVELOPES then None
        else
          match ReadMany(EnvelopeBlob(), count, header.rest)
          case None => None
          case Some(envelopes) =>
            var batch := Batch(network, epoch, revision, head, envelopes.value);
            if envelopes.rest == [] && BatchValid(batch, hash) then Some(batch) else None
  }

  lemma HeaderLawful()
    ensures Lawful(BatchHeader())
  {
    hide Lawful, Fixed, UInt, Pair;
    FixedLawful(32);
    UIntLawful(4);
    UIntLawful(8);
    PairLawful(Fixed(32), UInt(4));
    PairLawful(UInt(8), Pair(Fixed(32), UInt(4)));
    PairLawful(UInt(8), Pair(UInt(8), Pair(Fixed(32), UInt(4))));
    PairLawful(Fixed(32), Pair(UInt(8), Pair(UInt(8), Pair(Fixed(32), UInt(4)))));
  }

  lemma {:induction false} BlobsLength(envelopes: seq<Bytes>)
    ensures |WriteAll(EnvelopeBlob(), envelopes)| == 4 * |envelopes| + Total(envelopes)
  {
    if envelopes != [] {
      BlobsLength(envelopes[1..]);
    }
  }

  /** The encoded size: 92 bytes of header, and four more than its own for each envelope. */
  lemma EncodedSize(batch: Batch)
    requires HeaderFits(batch)
    ensures |EncodeBatch(batch)| == EncodedBatchLength(|batch.envelopes|, Total(batch.envelopes))
  {
    BlobsLength(batch.envelopes);
  }

  lemma {:induction false} TotalBounds(envelopes: seq<Bytes>, i: nat)
    requires i < |envelopes|
    ensures |envelopes[i]| <= Total(envelopes)
  {
    if i > 0 {
      TotalBounds(envelopes[1..], i - 1);
    }
  }

  lemma EnvelopesFit(batch: Batch, hash: Bytes -> Bytes)
    requires BatchValid(batch, hash)
    ensures AllFit(EnvelopeBlob(), batch.envelopes)
  {
    Widths();
    forall i | 0 <= i < |batch.envelopes|
      ensures EnvelopeBlob().fits(batch.envelopes[i])
    {
      TotalBounds(batch.envelopes, i);
    }
  }

  lemma HeaderReads(batch: Batch, hash: Bytes -> Bytes)
    requires HeaderFits(batch) && BatchValid(batch, hash)
    ensures BATCH_MAGIC <= EncodeBatch(batch)
    ensures BatchHeader().read(EncodeBatch(batch)[8..]) == Some(Parsed(HeaderOf(batch), WriteAll(EnvelopeBlob(), batch.envelopes)))
  {
    hide BatchHeader, EnvelopeBlob, BatchValid, WriteAll;
    HeaderLawful();
    HeaderFitsFormat(batch, hash);
    assert EncodeBatch(batch)[8..] == BatchHeader().write(HeaderOf(batch)) + WriteAll(EnvelopeBlob(), batch.envelopes);
  }

  lemma EnvelopesRead(batch: Batch, hash: Bytes -> Bytes)
    requires BatchValid(batch, hash)
    ensures ReadMany(EnvelopeBlob(), |batch.envelopes|, WriteAll(EnvelopeBlob(), batch.envelopes)) == Some(Parsed(batch.envelopes, []))
  {
    hide EnvelopeBlob, BatchValid, WriteAll, ReadMany;
    EnvelopesFit(batch, hash);
    EnvelopeBlobLawful();
    ReadManyWritten(EnvelopeBlob(), batch.envelopes, []);
    assert WriteAll(EnvelopeBlob(), batch.envelopes) + [] == WriteAll(EnvelopeBlob(), batch.envelopes);
  }

  /** A valid batch survives the round trip exactly when its encoded size, not the sum of its
      envelopes, is within the limit; its links come back intact with it. */
  lemma BatchRoundTripExactlyWhen(batch: Batch, hash: Bytes -> Bytes)
    requires HeaderFits(batch) && BatchValid(batch, hash)
    ensures EncodedBatchLength(|batch.envelopes|, Total(batch.envelopes)) <= MAX_UPDATE_BATCH_BYTES ==> DecodeBatch(EncodeBatch(batch), hash) == Some(batch)
    ensures EncodedBatchLength(|batch.envelopes|, Total(batch.envelopes)) > MAX_UPDATE_BATCH_BYTES ==> DecodeBatch(EncodeBatch(batch), hash).None?
  {
    hide BatchHeader, EnvelopeBlob, BatchValid, Total, EncodeBatch, WriteAll, ReadMany, HeaderFits, EncodedBatchLength;
    EncodedSize(batch);
    HeaderFitsFormat(batch, hash);
    HeaderReads(batch, hash);
    EnvelopesRead(batch, hash);
  }

  lemma EnvelopeBlobLawful()
    ensures Lawful(EnvelopeBlob())
  {
    BlobLawful(4, 0, MAX_UPDATE_BATCH_BYTES);
  }

  lemma HeaderFitsFormat(batch: Batch, hash: Bytes -> Bytes)
    requires HeaderFits(batch) && BatchValid(batch, hash)
    ensures BatchHeader().fits(HeaderOf(batch))
    ensures |batch.envelopes| <= MAX_UPDATE_ENVELOPES
  {
    Widths();
  }

  /** Every accepted batch is the encoding of its result. */
  lemma AcceptedBatchIsCanonical(b: Bytes, hash: Bytes -> Bytes)
    requires DecodeBatch(b, hash).Some?
    ensures var batch := DecodeBatch(b, hash).value;
            EncodeBatch(batch) == b && BatchValid(batch, hash) && HeaderFits(batch)
  {
    hide EnvelopeBlob, BatchValid;
    HeaderLawful();
    EnvelopeBlobLawful();
    var header := BatchHeader().read(b[8..]).value;
    ManyWereWritten(EnvelopeBlob(), header.value.1.1.1.1, header.rest);
    var batch := DecodeBatch(b, hash).value;
    assert b == BATCH_MAGIC + b[8..];
    assert header.rest == WriteAll(EnvelopeBlob(), batch.envelopes) + [];
  }

  // ---- a batch that is accepted but does not come back ----

  /** Fields that make an envelope of exactly one mebibyte. */
  function MebibyteFields(revision: nat, previous: Bytes): Fields {
    Fields(Zeros(32), 0, revision, previous, Zeros(32), Zeros(24), Zeros(1024 * 1024 - 238), [([0], [0])], Zeros(16))
  }

  function Mebibyte(revision: nat, previous: Bytes): Bytes {
    ToBytes(Sealed(MebibyteFields(revision, previous), Zeros(64)))
  }

  /** The hash the next envelope has to name. */
  function NextPrevious(hash: Bytes -> Bytes, envelopes: seq<Bytes>): Bytes {
    if envelopes == [] then Zeros(32) else hash(envelopes[|envelopes| - 1])
  }

  lemma NextPreviousLength(hash: Bytes -> Bytes, envelopes: seq<Bytes>)
    requires forall b :: |hash(b)| == 32
    ensures |NextPrevious(hash, envelopes)| == 32
  {
  }

  /** `n` such envelopes, each naming the hash of the one before. */
  function Chained(hash: Bytes -> Bytes, n: nat): seq<Bytes> {
    if n == 0 then []
    else
      var front := Chained(hash, n - 1);
      front + [Mebibyte(n, NextPrevious(hash, front))]
  }

  lemma MebibyteFits(revision: nat, previous: Bytes)
    requires revision < Pow256(8) && |previous| == 32
    ensures FieldsFormat().fits(MebibyteFields(revision, previous))
    ensures FromBytes(Mebibyte(revision, previous)) == Some(Sealed(MebibyteFields(revision, previous), Zeros(64)))
  {
    Widths();
    var f := MebibyteFields(revision, previous);
    assert PayloadFormat().fits((f.payloadHash, (f.nonce, f.ciphertext)));
    assert AllFit(WrapFormat(), f.wraps);
    SealedParses(f, Zeros(64));
  }

  lemma MebibyteSize(revision: nat, previous: Bytes)
    requires |previous| == 32
    ensures |Mebibyte(revision, previous)| == 1024 * 1024
  {
    var f := MebibyteFields(revision, previous);
    assert f.wraps[1..] == [];
    assert WriteAll(WrapFormat(), f.wraps) == WrapFormat().write(([0], [0])) + [];
    assert |WrapFormat().write(([0], [0]))| == 6;
    assert |WrapsFormat().write(f.wraps)| == 8;
  }

  lemma {:induction false} TotalAppend(envelopes: seq<Bytes>, e: Bytes)
    ensures Total(envelopes + [e]) == Total(envelopes) + |e|
  {
    if envelopes == [] {
      assert envelopes + [e] == [e];
    } else {
      TotalAppend(envelopes[1..], e);
      assert (envelopes + [e])[1..] == envelopes[1..] + [e];
    }
  }

  lemma {:induction false} ChainedSize(hash: Bytes -> Bytes, n: nat)
    requires forall b :: |hash(b)| == 32
    ensures |Chained(hash, n)| == n && Total(Chained(hash, n)) == n * (1024 * 1024)
  {
    hide Mebibyte, NextPrevious, Total;
    if n == 0 {
      TotalNothing();
    } else {
      ChainedSize(hash, n - 1);
      var front := Chained(hash, n - 1);
      var previous := NextPrevious(hash, front);
      NextPreviousLength(hash, front);
      MebibyteSize(n, previous);
      TotalAppend(front, Mebibyte(n, previous));
    }
  }

  lemma TotalNothing()
    ensures Total([]) == 0
  {
  }

  lemma {:induction false} ChainedAt(hash: Bytes -> Bytes, n: nat, i: nat)
    requires |Chained(hash, n)| == n && i < n && forall b :: |hash(b)| == 32
    ensures Chained(hash, n)[i] == Mebibyte(i + 1, NextPrevious(hash, Chained(hash, n)[..i]))
  {
    hide Mebibyte, NextPrevious;
    var front := Chained(hash, n - 1);
    if i < n - 1 {
      ChainedAt(hash, n - 1, i);
      assert Chained(hash, n)[..i] == front[..i];
    } else {
      assert Chained(hash, n)[..i] == front;
    }
  }

  function FullBatch(hash: Bytes -> Bytes, n: nat): Batch {
    Batch(Zeros(32), 0, 0, Zeros(32), Chained(hash, n))
  }

  lemma FullBatchLinks(hash: Bytes -> Bytes, n: nat, i: nat)
    requires |Chained(hash, n)| == n && i < n < 1000 && forall b :: |hash(b)| == 32
    ensures LinkOk(FullBatch(hash, n), hash, i)
  {
    hide Mebibyte, Chained, FromBytes, FieldsFormat, EncodeSigned, Zeros;
    Widths();
    ChainedAt(hash, n, i);
    NextPreviousLength(hash, Chained(hash, n)[..i]);
    MebibyteFits(i + 1, NextPrevious(hash, Chained(hash, n)[..i]));
  }

  /** Sixteen linked envelopes of one mebibyte: `new` accepts the batch and `to_bytes` encodes it,
      but `from_bytes` refuses the result. */
  lemma AcceptedBatchMayNotComeBack(hash: Bytes -> Bytes)
    requires forall b :: |hash(b)| == 32
    ensures HeaderFits(FullBatch(hash, 16)) && BatchValid(FullBatch(hash, 16), hash)
    ensures DecodeBatch(EncodeBatch(FullBatch(hash, 16)), hash).None?
  {
    hide Chained, EncodeBatch, DecodeBatch, Total, LinkOk;
    Widths();
    ChainedSize(hash, 16);
    forall i | 0 <= i < 16
      ensures LinkOk(FullBatch(hash, 16), hash, i)
    {
      FullBatchLinks(hash, 16, i);
    }
    BatchRoundTripExactlyWhen(FullBatch(hash, 16), hash);
  }
}
