/** The presence cache with its two indexes, the live address lookup, and the directory that keeps
    one published from the other (`weaver-discovery`). */
module Presence {
  import opened Prelude
  import opened Credentials

  datatype VirtualAddr = ServerAddr(app: AppAddr) | ClientAddr(app: AppAddr, device: DeviceId)

  /** A relay URL counts only if it parses. */
  datatype Candidate = IpCandidate(address: nat) | RelayCandidate(url: string, parses: bool)

  datatype PresenceRecord = PresenceRecord(
    network: NetworkId,
    member: MemberId,
    endpoint: EndpointId,
    sequence: u64,
    expires: u64,
    addrs: seq<VirtualAddr>,
    candidates: seq<Candidate>)

  datatype DiscoveryError = Rollback | InvalidPresence | WrongNetworkId | NotAuthorized | MalformedBinding

  // ---- the cache as a value ----

  type AddrKey = (NetworkId, VirtualAddr)
  type EndpointKey = (NetworkId, EndpointId)

  datatype Cache = Cache(byAddr: map<AddrKey, PresenceRecord>, byEndpoint: map<EndpointKey, PresenceRecord>)

  function KeyOf(r: PresenceRecord): EndpointKey {
    (r.network, r.endpoint)
  }

  /** The address keys of a record. */
  function AddrKeys(r: PresenceRecord): set<AddrKey> {
    set a | a in r.addrs :: (r.network, a)
  }

  ghost predicate KeysNamed(c: Cache) {
    forall k :: k in c.byEndpoint ==> KeyOf(c.byEndpoint[k]) == k
  }

  /** Every address of an endpoint's record leads to that record. */
  ghost predicate Forward(c: Cache) {
    forall k, a :: k in c.byEndpoint && a in AddrKeys(c.byEndpoint[k]) ==> a in c.byAddr && c.byAddr[a] == c.byEndpoint[k]
  }

  /** Every record found by an address has that address and is its endpoint's record. */
  ghost predicate Backward(c: Cache) {
    forall a :: a in c.byAddr ==> a in AddrKeys(c.byAddr[a]) && KeyOf(c.byAddr[a]) in c.byEndpoint && c.byEndpoint[KeyOf(c.byAddr[a])] == c.byAddr[a]
  }

  /** Each index is the inverse of the other. */
  ghost predicate Inverse(c: Cache) {
    KeysNamed(c) && Forward(c) && Backward(c)
  }

  /** Some address of the record is held by another endpoint. */
  predicate Taken(c: Cache, r: PresenceRecord) {
    exists i :: 0 <= i < |r.addrs| && (r.network, r.addrs[i]) in c.byAddr && c.byAddr[(r.network, r.addrs[i])].endpoint != r.endpoint
  }

  datatype Verdict = Refused(error: DiscoveryError) | Unchanged | Accepted

  /** What `apply` decides. */
  function Judge(c: Cache, r: PresenceRecord): Verdict {
    var k := KeyOf(r);
    if k in c.byEndpoint && (r.sequence < c.byEndpoint[k].sequence || (r.sequence == c.byEndpoint[k].sequence && r != c.byEndpoint[k])) then Refused(Rollback)
    else if k in c.byEndpoint && r == c.byEndpoint[k] then Unchanged
    else if Taken(c, r) then Refused(InvalidPresence)
    else Accepted
  }

  function Insert(c: Cache, r: PresenceRecord): Cache {
    var k := KeyOf(r);
    var cleared := if k in c.byEndpoint then c.byAddr - AddrKeys(c.byEndpoint[k]) else c.byAddr;
    Cache(cleared + (map a | a in AddrKeys(r) :: r), c.byEndpoint[k := r])
  }

  function ApplyRecord(c: Cache, r: PresenceRecord): Cache {
    if Judge(c, r).Accepted? then Insert(c, r) else c
  }

  function Purge(c: Cache, now: u64): Cache {
    Cache(map a | a in c.byAddr && c.byAddr[a].expires > now :: c.byAddr[a],
          map k | k in c.byEndpoint && c.byEndpoint[k].expires > now :: c.byEndpoint[k])
  }

  function Get(c: Cache, network: NetworkId, address: VirtualAddr, now: u64): Option<PresenceRecord> {
    if (network, address) in c.byAddr && c.byAddr[(network, address)].expires > now then Some(c.byAddr[(network, address)]) else None
  }

  // ---- the laws of the cache ----

  lemma FreeAddress(c: Cache, r: PresenceRecord, a: AddrKey)
    requires !Taken(c, r) && a in AddrKeys(r) && a in c.byAddr
    ensures c.byAddr[a].endpoint == r.endpoint
  {
    var i :| 0 <= i < |r.addrs| && a == (r.network, r.addrs[i]);
  }

  /** The addresses of an accepted record are free or already its endpoint's. */
  lemma OwnAddress(c: Cache, r: PresenceRecord, a: AddrKey)
    requires Inverse(c) && !Taken(c, r) && a in AddrKeys(r) && a in c.byAddr
    ensures KeyOf(c.byAddr[a]) == KeyOf(r)
  {
    hide Taken;
    FreeAddress(c, r, a);
  }

  lemma InsertForward(c: Cache, r: PresenceRecord)
    requires Inverse(c) && !Taken(c, r)
    ensures Forward(Insert(c, r))
  {
    hide Taken, AddrKeys;
    var d := Insert(c, r);
    forall q, a | q in d.byEndpoint && a in AddrKeys(d.byEndpoint[q])
      ensures a in d.byAddr && d.byAddr[a] == d.byEndpoint[q]
    {
      if q != KeyOf(r) {
        assert a in c.byAddr && c.byAddr[a] == c.byEndpoint[q];
        if a in AddrKeys(r) {
          OwnAddress(c, r, a);
          assert false;
        }
      }
    }
  }

  lemma InsertBackward(c: Cache, r: PresenceRecord)
    requires Inverse(c) && !Taken(c, r)
    ensures Backward(Insert(c, r))
  {
    hide Taken, AddrKeys;
    var d := Insert(c, r);
    forall a | a in d.byAddr
      ensures a in AddrKeys(d.byAddr[a]) && KeyOf(d.byAddr[a]) in d.byEndpoint && d.byEndpoint[KeyOf(d.byAddr[a])] == d.byAddr[a]
    {
      if a !in AddrKeys(r) {
        assert a in c.byAddr && d.byAddr[a] == c.byAddr[a];
      }
    }
  }

  lemma ApplyKeepsInverse(c: Cache, r: PresenceRecord)
    requires Inverse(c)
    ensures Inverse(ApplyRecord(c, r))
  {
    hide Taken, AddrKeys, Forward, Backward;
    if Judge(c, r).Accepted? {
      InsertForward(c, r);
      InsertBackward(c, r);
    }
  }

  lemma PurgeKeepsInverse(c: Cache, now: u64)
    requires Inverse(c)
    ensures Inverse(Purge(c, now))
  {
  }

  /** A record that replaces another of its endpoint has a strictly higher sequence number. */
  lemma SequenceRises(c: Cache, r: PresenceRecord)
    requires Inverse(c) && KeyOf(r) in c.byEndpoint && Judge(c, r).Accepted?
    ensures c.byEndpoint[KeyOf(r)].sequence < r.sequence
  {
  }

  /** An address that stays in the index keeps its endpoint. */
  lemma AddressStaysPut(c: Cache, r: PresenceRecord, a: AddrKey)
    requires Inverse(c) && a in c.byAddr && a in ApplyRecord(c, r).byAddr
    ensures ApplyRecord(c, r).byAddr[a].endpoint == c.byAddr[a].endpoint
  {
    if Judge(c, r).Accepted? && a in AddrKeys(r) {
      var i :| 0 <= i < |r.addrs| && a == (r.network, r.addrs[i]);
    }
  }

  /** Purging is invisible to every lookup at or after the purge. */
  lemma PurgeInvisible(c: Cache, purged: u64, network: NetworkId, address: VirtualAddr, now: u64)
    requires purged <= now
    ensures Get(Purge(c, purged), network, address, now) == Get(c, network, address, now)
  {
  }

  // ---- runs of the cache ----

  datatype CacheEvent = Received(record: PresenceRecord) | Purged(now: u64)

  function CacheStep(c: Cache, e: CacheEvent): Cache {
    match e
    case Received(r) => ApplyRecord(c, r)
    case Purged(now) => Purge(c, now)
  }

  function CacheRun(c: Cache, events: seq<CacheEvent>): Cache {
    if events == [] then c else CacheStep(CacheRun(c, events[..|events| - 1]), events[|events| - 1])
  }

  /** After any sequence of records and purges the indexes are inverse to each other. */
  lemma {:induction false} InverseAlways(c: Cache, events: seq<CacheEvent>)
    requires Inverse(c)
    ensures Inverse(CacheRun(c, events))
  {
    hide Inverse, ApplyRecord, Purge;
    if events != [] {
      var before := CacheRun(c, events[..|events| - 1]);
      InverseAlways(c, events[..|events| - 1]);
      match events[|events| - 1]
      case Received(r) => ApplyKeepsInverse(before, r);
      case Purged(now) => PurgeKeepsInverse(before, now);
    }
  }

  predicate NoPurge(events: seq<CacheEvent>) {
    forall i :: 0 <= i < |events| ==> events[i].Received?
  }

  /** Between purges an endpoint's record is only ever replaced by one with a higher sequence. */
  lemma {:induction false} SequencesNeverFall(c: Cache, events: seq<CacheEvent>, k: EndpointKey)
    requires Inverse(c) && k in c.byEndpoint && NoPurge(events)
    ensures var d := CacheRun(c, events);
            k in d.byEndpoint && c.byEndpoint[k].sequence <= d.byEndpoint[k].sequence
            && (c.byEndpoint[k].sequence == d.byEndpoint[k].sequence ==> c.byEndpoint[k] == d.byEndpoint[k])
  {
    hide Inverse, Taken, AddrKeys;
    if events != [] {
      var front := events[..|events| - 1];
      SequencesNeverFall(c, front, k);
      InverseAlways(c, front);
      var before, r := CacheRun(c, front), events[|events| - 1].record;
      if Judge(before, r).Accepted? && KeyOf(r) == k {
        SequenceRises(before, r);
      }
    }
  }

  predicate HeldThroughout(c: Cache, events: seq<CacheEvent>, a: AddrKey) {
    forall n :: 0 <= n <= |events| ==> a in CacheRun(c, events[..n]).byAddr
  }

  /** An address retained throughout a run never moves to another endpoint. */
  lemma {:induction false} AddressNeverMoves(c: Cache, events: seq<CacheEvent>, a: AddrKey)
    requires Inverse(c) && a in c.byAddr && HeldThroughout(c, events, a)
    ensures a in CacheRun(c, events).byAddr && CacheRun(c, events).byAddr[a].endpoint == c.byAddr[a].endpoint
  {
    hide Inverse, ApplyRecord;
    if events != [] {
      var front, last := events[..|events| - 1], events[|events| - 1];
      forall n | 0 <= n <= |front|
        ensures a in CacheRun(c, front[..n]).byAddr
      {
        assert front[..n] == events[..n];
      }
      AddressNeverMoves(c, front, a);
      InverseAlways(c, front);
      assert events[..|events|] == events && a in CacheRun(c, events[..|events|]).byAddr;
      if last.Received? {
        AddressStaysPut(CacheRun(c, front), last.record, a);
      }
    }
  }

  /** A purge forgets sequence numbers: a record refused as a rollback before it may be accepted
      after it. This happens exactly when the newer record has run out by then and no address is
      held by another endpoint's surviving record. */
  lemma RollbackAfterPurgeExactlyWhen(c: Cache, r: PresenceRecord, now: u64)
    requires Inverse(c) && Judge(c, r) == Refused(Rollback)
    ensures Judge(Purge(c, now), r).Accepted? <==> c.byEndpoint[KeyOf(r)].expires <= now && !Taken(Purge(c, now), r)
  {
  }

  /** A cache that has taken one record. */
  function CacheOf(newer: PresenceRecord): Cache {
    ApplyRecord(Cache(map[], map[]), newer)
  }

  lemma CacheOfOne(newer: PresenceRecord)
    ensures CacheOf(newer) == Cache(map a | a in AddrKeys(newer) :: newer, map[KeyOf(newer) := newer]) && Inverse(CacheOf(newer))
  {
    var empty := Cache(map[], map[]);
    assert Inverse(empty) && !Taken(empty, newer);
    ApplyKeepsInverse(empty, newer);
    assert map[] + (map a | a in AddrKeys(newer) :: newer) == map a | a in AddrKeys(newer) :: newer;
  }

  /** A record of sequence 2 keeps out one of sequence 1. After a purge at 10, when the newer one has
      run out, the older one is taken, and resolves again until it runs out at 20. */
  lemma PurgeAllowsRollback(network: NetworkId, member: MemberId, endpoint: EndpointId, address: VirtualAddr)
    ensures var older := PresenceRecord(network, member, endpoint, 1, 20, [address], []);
            var c := CacheOf(PresenceRecord(network, member, endpoint, 2, 10, [address], []));
            && Judge(c, older) == Refused(Rollback) && Get(ApplyRecord(c, older), network, address, 15) == None
            && Judge(Purge(c, 10), older).Accepted? && Get(ApplyRecord(Purge(c, 10), older), network, address, 15) == Some(older)
  {
    hide CacheOf, Inverse;
    var older := PresenceRecord(network, member, endpoint, 1, 20, [address], []);
    var newer := PresenceRecord(network, member, endpoint, 2, 10, [address], []);
    CacheOfOne(newer);
    var c := CacheOf(newer);
    assert Purge(c, 10) == Cache(map[], map[]);
    RollbackAfterPurgeExactlyWhen(c, older, 10);
    assert (network, address) in AddrKeys(older);
  }

  // ---- the live lookup ----

  datatype Transport = IpTransport(address: nat) | RelayTransport(url: string)

  /** The candidates as transports, `None` when some relay URL does not parse. */
  function Transports(candidates: seq<Candidate>): Option<seq<Transport>> {
    if candidates == [] then Some([])
    else
      match Transports(candidates[..|candidates| - 1])
      case None => None
      case Some(front) =>
        match candidates[|candidates| - 1]
        case IpCandidate(address) => Some(front + [IpTransport(address)])
        case RelayCandidate(url, parses) => if parses then Some(front + [RelayTransport(url)]) else None
  }

  /** Per endpoint: what the local network shows, what presence shows, what is published. An absent
      entry is an empty one. */
  datatype Lookup = Lookup(lan: map<EndpointId, seq<Transport>>, presence: map<EndpointId, seq<Transport>>, published: map<EndpointId, seq<Transport>>)

  function At(m: map<EndpointId, seq<Transport>>, e: EndpointId): seq<Transport> {
    if e in m then m[e] else []
  }

  /** Setting an endpoint to nothing removes it. */
  function With(m: map<EndpointId, seq<Transport>>, e: EndpointId, ts: seq<Transport>): map<EndpointId, seq<Transport>> {
    if ts == [] then m - {e} else m[e := ts]
  }

  /** `publish_merged`. */
  function Publish(l: Lookup, e: EndpointId): Lookup {
    l.(published := With(l.published, e, At(l.lan, e) + At(l.presence, e)))
  }

  function ObserveLan(l: Lookup, e: EndpointId, expired: bool, addresses: seq<Transport>): Lookup {
    Publish(l.(lan := With(l.lan, e, if expired then [] else addresses)), e)
  }

  function SetPresence(l: Lookup, e: EndpointId, ts: seq<Transport>): Lookup {
    Publish(l.(presence := With(l.presence, e, ts)), e)
  }

  /** What is published is what the two sources show together. */
  ghost predicate Merged(l: Lookup) {
    forall e :: At(l.published, e) == At(l.lan, e) + At(l.presence, e)
  }

  lemma PublishMerges(l: Lookup, m: Lookup, e: EndpointId)
    requires Merged(l) && m.published == l.published
    requires forall f :: f != e ==> At(m.lan, f) == At(l.lan, f) && At(m.presence, f) == At(l.presence, f)
    ensures Merged(Publish(m, e))
  {
    forall f
      ensures At(Publish(m, e).published, f) == At(m.lan, f) + At(m.presence, f)
    {
      assert At(l.published, f) == At(l.lan, f) + At(l.presence, f);
    }
  }

  // ---- the directory ----

  datatype Directory = Directory(network: NetworkId, cache: Cache, lookup: Lookup)

  datatype DirectoryEvent =
    | Presence(record: PresenceRecord)
    | Lan(endpoint: EndpointId, expired: bool, addresses: seq<Transport>)
    | Expire(now: u64)

  /** An authenticated record: cached first, then shown, unless a relay URL does not parse. */
  function Accept(d: Directory, r: PresenceRecord): Directory {
    if r.network != d.network || !Judge(d.cache, r).Accepted? then d
    else
      var cached := d.(cache := Insert(d.cache, r));
      match Transports(r.candidates)
      case None => cached
      case Some(ts) => cached.(lookup := SetPresence(d.lookup, r.endpoint, ts))
  }

  /** The endpoints whose record a purge removes. */
  function Removed(c: Cache, now: u64): set<EndpointId> {
    set k | k in c.byEndpoint && c.byEndpoint[k].expires <= now :: k.1
  }

  /** `clear_presence` for each of these endpoints. */
  function ClearPresence(l: Lookup, gone: set<EndpointId>): Lookup {
    Lookup(l.lan, l.presence - gone,
           map e | e in l.published.Keys + gone && (e in gone ==> At(l.lan, e) != []) :: if e in gone then At(l.lan, e) else l.published[e])
  }

  lemma ClearMore(l: Lookup, gone: set<EndpointId>, e: EndpointId)
    ensures ClearPresence(ClearPresence(l, gone), {e}) == ClearPresence(l, gone + {e})
  {
    assert l.presence - gone - {e} == l.presence - (gone + {e});
  }

  /** A purge also clears the lookup for every endpoint that has no record left. */
  function PurgeDirectory(d: Directory, now: u64): Directory {
    var cache := Purge(d.cache, now);
    d.(cache := cache, lookup := ClearPresence(d.lookup, set e | e in Removed(d.cache, now) && !Contains(cache, e)))
  }

  predicate Contains(c: Cache, e: EndpointId) {
    exists k :: k in c.byEndpoint && k.1 == e
  }

  function DirectoryStep(d: Directory, event: DirectoryEvent): Directory {
    match event
    case Presence(r) => Accept(d, r)
    case Lan(e, expired, addresses) => d.(lookup := ObserveLan(d.lookup, e, expired, addresses))
    case Expire(now) => PurgeDirectory(d, now)
  }

  function DirectoryRun(d: Directory, events: seq<DirectoryEvent>): Directory {
    if events == [] then d else DirectoryStep(DirectoryRun(d, events[..|events| - 1]), events[|events| - 1])
  }

  /** What presence has to show for an endpoint: its cached record's transports, nothing without a
      record. A cached record with an unparsable relay URL leaves this open. */
  predicate Shows(d: Directory, e: EndpointId) {
    var k := (d.network, e);
    && (k !in d.cache.byEndpoint ==> At(d.lookup.presence, e) == [])
    && (k in d.cache.byEndpoint && Transports(d.cache.byEndpoint[k].candidates).Some? ==>
          At(d.lookup.presence, e) == Transports(d.cache.byEndpoint[k].candidates).value)
  }

  ghost predicate DirectoryOk(d: Directory) {
    && Inverse(d.cache) && Merged(d.lookup)
    && (forall k :: k in d.cache.byEndpoint ==> k.0 == d.network)
    && (forall e :: Shows(d, e))
  }

  lemma AcceptKeeps(d: Directory, r: PresenceRecord)
    requires DirectoryOk(d)
    ensures DirectoryOk(Accept(d, r))
  {
    hide Inverse, Merged, Taken, Transports, AddrKeys;
    ApplyKeepsInverse(d.cache, r);
    if r.network == d.network && Judge(d.cache, r).Accepted? && Transports(r.candidates).Some? {
      var ts := Transports(r.candidates).value;
      PublishMerges(d.lookup, d.lookup.(presence := With(d.lookup.presence, r.endpoint, ts)), r.endpoint);
    }
    forall e
      ensures Shows(Accept(d, r), e)
    {
      assert Shows(d, e);
    }
  }

  lemma LanKeeps(d: Directory, e: EndpointId, expired: bool, addresses: seq<Transport>)
    requires DirectoryOk(d)
    ensures DirectoryOk(d.(lookup := ObserveLan(d.lookup, e, expired, addresses)))
  {
    hide Inverse, Merged;
    PublishMerges(d.lookup, d.lookup.(lan := With(d.lookup.lan, e, if expired then [] else addresses)), e);
    var d' := d.(lookup := ObserveLan(d.lookup, e, expired, addresses));
    forall f
      ensures Shows(d', f)
    {
      assert Shows(d, f);
    }
  }

  lemma ClearMerges(l: Lookup, gone: set<EndpointId>)
    requires Merged(l)
    ensures Merged(ClearPresence(l, gone))
  {
    forall e
      ensures At(ClearPresence(l, gone).published, e) == At(l.lan, e) + At(l.presence - gone, e)
    {
      assert At(l.published, e) == At(l.lan, e) + At(l.presence, e);
    }
  }

  lemma PurgeKeeps(d: Directory, now: u64)
    requires DirectoryOk(d)
    ensures DirectoryOk(PurgeDirectory(d, now))
  {
    hide Inverse, Merged;
    var d' := PurgeDirectory(d, now);
    PurgeKeepsInverse(d.cache, now);
    ClearMerges(d.lookup, set e | e in Removed(d.cache, now) && !Contains(d'.cache, e));
    forall e
      ensures Shows(d', e)
    {
      assert Shows(d, e);
      var k := (d.network, e);
      if k in d.cache.byEndpoint && d.cache.byEndpoint[k].expires <= now {
        assert e in Removed(d.cache, now);
      }
    }
  }

  lemma {:induction false} DirectoryAlwaysOk(d: Directory, events: seq<DirectoryEvent>)
    requires DirectoryOk(d)
    ensures DirectoryOk(DirectoryRun(d, events)) && DirectoryRun(d, events).network == d.network
  {
    hide DirectoryOk, Judge, Insert;
    if events != [] {
      var before := DirectoryRun(d, events[..|events| - 1]);
      DirectoryAlwaysOk(d, events[..|events| - 1]);
      match events[|events| - 1]
      case Presence(r) => AcceptKeeps(before, r);
      case Lan(e, expired, addresses) => LanKeeps(before, e, expired, addresses);
      case Expire(now) => PurgeKeeps(before, now);
    }
  }

  /** After any history of records, local observations and purges, what is published for an
      endpoint is what the local network shows, followed by its cached presence if its relay URLs
      parse, and by nothing if it has no cached record. */
  lemma PublishedIsLanPlusPresence(d: Directory, events: seq<DirectoryEvent>, e: EndpointId)
    requires DirectoryOk(d)
    ensures var now, k := DirectoryRun(d, events), (d.network, e);
            && (k !in now.cache.byEndpoint ==> At(now.lookup.published, e) == At(now.lookup.lan, e))
            && (k in now.cache.byEndpoint && Transports(now.cache.byEndpoint[k].candidates).Some? ==>
                  At(now.lookup.published, e) == At(now.lookup.lan, e) + Transports(now.cache.byEndpoint[k].candidates).value)
  {
    hide DirectoryRun, Inverse, Transports;
    DirectoryAlwaysOk(d, events);
    assert Shows(DirectoryRun(d, events), e);
  }

  /** A fresh record with an unparsable relay URL is cached and resolvable, but what is published
      stays as it was. */
  lemma UnparsableIsCachedOnly(d: Directory, r: PresenceRecord, a: VirtualAddr, now: u64)
    requires r.network == d.network && Judge(d.cache, r).Accepted? && Transports(r.candidates).None? && a in r.addrs && now < r.expires
    ensures Get(Accept(d, r).cache, d.network, a, now) == Some(r) && Accept(d, r).lookup == d.lookup
  {
    assert (r.network, a) in AddrKeys(r);
  }
}
