/** `ConfigUpdateBatch`: a bounded run of consecutive revisions on its way from one node to another. */
module UpdateBatches {
  import opened Prelude
  import opened Limits
  import opened Credentials
  import opened Configs
  import opened Envelopes

  /** Envelope bytes as received: they parse, or they do not. */
  datatype UpdateBatch = UpdateBatch(network: NetworkId, base: Head, envelopes: seq<Raw<Envelope>>)

  function RawLength(raw: Raw<Envelope>): nat {
    if raw.Wire? then WireLength(raw.value) else raw.length
  }

  function TotalLength(raws: seq<Raw<Envelope>>): nat {
    if raws == [] then 0 else RawLength(raws[0]) + TotalLength(raws[1..])
  }

  function EncodedLength(batch: UpdateBatch): nat {
    EncodedBatchLength(|batch.envelopes|, TotalLength(batch.envelopes))
  }

  /** The digest a revision must name as its predecessor. */
  function PreviousOf(base: Head, raws: seq<Raw<Envelope>>, i: nat): Hash
    requires i <= |raws|
  {
    if i == 0 then base.hash else if raws[i - 1].Wire? then Digest(raws[i - 1].value) else ZeroHash
  }

  predicate LinkOk(network: NetworkId, base: Head, raws: seq<Raw<Envelope>>, i: nat)
    requires i < |raws|
  {
    && raws[i].Wire?
    && var b := raws[i].value.body;
       FollowsBase(network, base.revision, i, PreviousOf(base, raws, i), b.network, b.revision, b.previous)
  }

  /** What `ConfigUpdateBatch::new` accepts: consecutive linked revisions within the limits. */
  predicate BatchOk(batch: UpdateBatch) {
    && BatchWithin(batch.base.revision, |batch.envelopes|, TotalLength(batch.envelopes))
    && forall i :: 0 <= i < |batch.envelopes| ==> LinkOk(batch.network, batch.base, batch.envelopes, i)
  }

  lemma BatchDecodes(batch: UpdateBatch)
    requires BatchOk(batch)
    ensures AllDecode(batch.envelopes)
  {
    forall i | 0 <= i < |batch.envelopes|
      ensures batch.envelopes[i].Wire?
    {
      assert LinkOk(batch.network, batch.base, batch.envelopes, i);
    }
  }

  lemma {:induction false} TotalLengthAppend(raws: seq<Raw<Envelope>>, raw: Raw<Envelope>)
    ensures TotalLength(raws + [raw]) == TotalLength(raws) + RawLength(raw)
  {
    if raws == [] {
      assert [] + [raw] == [raw];
    } else {
      TotalLengthAppend(raws[1..], raw);
      assert (raws + [raw])[1..] == raws[1..] + [raw];
    }
  }

  lemma {:induction false} TotalLengthPrefix(raws: seq<Raw<Envelope>>, i: nat)
    requires i <= |raws|
    ensures TotalLength(raws[..i]) <= TotalLength(raws)
  {
    if i > 0 {
      TotalLengthPrefix(raws[1..], i - 1);
      assert raws[..i][1..] == raws[1..][..i - 1];
    }
  }

  /** `ConfigUpdateBatch::new`, one pass over the envelopes with running totals. */
  method NewBatch(network: NetworkId, base: Head, envelopes: seq<Raw<Envelope>>) returns (r: Result<UpdateBatch, ConfigError>)
    ensures r.Ok? <==> BatchOk(UpdateBatch(network, base, envelopes))
    ensures r.Ok? ==> r.value == UpdateBatch(network, base, envelopes)
    ensures |envelopes| > MAX_UPDATE_ENVELOPES ==> r == Err(UpdateBatchTooLarge)
    ensures r == Err(MalformedEnvelope) ==> !AllDecode(envelopes)
  {
    hide WireLength;
    if |envelopes| > MAX_UPDATE_ENVELOPES {
      return Err(UpdateBatchTooLarge);
    }
    if base.revision == U64_MAX {
      return Err(ChainMismatch);
    }
    var revision: u64 := base.revision + 1;
    var previous := base.hash;
    var total := 0;
    for i := 0 to |envelopes|
      invariant revision == base.revision + 1 + i
      invariant previous == PreviousOf(base, envelopes, i)
      invariant total == TotalLength(envelopes[..i]) <= MAX_UPDATE_BATCH_BYTES
      invariant forall k :: 0 <= k < i ==> LinkOk(network, base, envelopes, k)
    {
      assert envelopes[..i + 1] == envelopes[..i] + [envelopes[i]];
      TotalLengthAppend(envelopes[..i], envelopes[i]);
      TotalLengthPrefix(envelopes, i + 1);
      total := total + RawLength(envelopes[i]);
      if total > MAX_UPDATE_BATCH_BYTES {
        return Err(UpdateBatchTooLarge);
      }
      if envelopes[i].Malformed? {
        assert !LinkOk(network, base, envelopes, i);
        return Err(MalformedEnvelope);
      }
      var e := envelopes[i].value;
      if e.body.network != network || e.body.revision != revision || e.body.previous != previous {
        assert !LinkOk(network, base, envelopes, i);
        return Err(ChainMismatch);
      }
      if revision == U64_MAX {
        return Err(ChainMismatch);
      }
      revision := revision + 1;
      previous := Digest(e);
    }
    assert envelopes[..|envelopes|] == envelopes;
    return Ok(UpdateBatch(network, base, envelopes));
  }
}
