/** The presence cache, the address lookup and the directory as the objects that update their maps
    in place, each method proved to do what the corresponding function says. */
module PresenceObjects {
  import opened Prelude
  import opened Credentials
  import opened Presence

  /** The keys of the first `n` addresses. */
  function FirstKeys(r: PresenceRecord, n: nat): set<AddrKey>
    requires n <= |r.addrs|
  {
    set i | 0 <= i < n :: (r.network, r.addrs[i])
  }

  lemma AllKeys(r: PresenceRecord)
    ensures FirstKeys(r, |r.addrs|) == AddrKeys(r)
  {
    forall a | a in r.addrs
      ensures (r.network, a) in FirstKeys(r, |r.addrs|)
    {
      var i :| 0 <= i < |r.addrs| && r.addrs[i] == a;
    }
  }

  class PresenceCache {
    var byAddr: map<AddrKey, PresenceRecord>
    var byEndpoint: map<EndpointKey, PresenceRecord>

    constructor ()
      ensures State() == Cache(map[], map[])
    {
      byAddr, byEndpoint := map[], map[];
    }

    function State(): Cache
      reads this
    {
      Cache(byAddr, byEndpoint)
    }

    /** Is any address of the record held by another endpoint? */
    method AnyTaken(r: PresenceRecord) returns (taken: bool)
      ensures taken == Taken(State(), r)
    {
      taken := false;
      for i := 0 to |r.addrs|
        invariant !taken && forall j :: 0 <= j < i ==> (r.network, r.addrs[j]) in byAddr ==> byAddr[(r.network, r.addrs[j])].endpoint == r.endpoint
      {
        if (r.network, r.addrs[i]) in byAddr && byAddr[(r.network, r.addrs[i])].endpoint != r.endpoint {
          return true;
        }
      }
    }

    method Forget(r: PresenceRecord)
      modifies this`byAddr
      ensures byAddr == old(byAddr) - AddrKeys(r)
    {
      for i := 0 to |r.addrs|
        invariant byAddr == old(byAddr) - FirstKeys(r, i)
      {
        byAddr := byAddr - {(r.network, r.addrs[i])};
      }
      AllKeys(r);
    }

    method Remember(r: PresenceRecord)
      modifies this`byAddr
      ensures byAddr == old(byAddr) + (map a | a in AddrKeys(r) :: r)
    {
      for i := 0 to |r.addrs|
        invariant byAddr == old(byAddr) + (map a | a in FirstKeys(r, i) :: r)
      {
        byAddr := byAddr[(r.network, r.addrs[i]) := r];
      }
      AllKeys(r);
    }

    method Apply(r: PresenceRecord) returns (answer: Result<bool, DiscoveryError>)
      modifies this
      ensures State() == ApplyRecord(old(State()), r)
      ensures answer == match Judge(old(State()), r) case Refused(e) => Err(e) case Unchanged => Ok(false) case Accepted => Ok(true)
    {
      var k := KeyOf(r);
      if k in byEndpoint {
        var current := byEndpoint[k];
        if r.sequence < current.sequence || (r.sequence == current.sequence && r != current) {
          return Err(Rollback);
        }
        if r == current {
          return Ok(false);
        }
      }
      var taken := AnyTaken(r);
      if taken {
        return Err(InvalidPresence);
      }
      if k in byEndpoint {
        var previous := byEndpoint[k];
        byEndpoint := byEndpoint[k := r];
        Forget(previous);
      } else {
        byEndpoint := byEndpoint[k := r];
      }
      Remember(r);
      return Ok(true);
    }

    method Find(network: NetworkId, address: VirtualAddr, now: u64) returns (r: Option<PresenceRecord>)
      ensures r == Get(State(), network, address, now)
    {
      if (network, address) in byAddr && byAddr[(network, address)].expires > now {
        return Some(byAddr[(network, address)]);
      }
      return None;
    }

    method PurgeExpired(now: u64) returns (removed: set<EndpointId>)
      modifies this
      ensures State() == Purge(old(State()), now) && removed == Removed(old(State()), now)
    {
      removed := set k | k in byEndpoint && byEndpoint[k].expires <= now :: k.1;
      byEndpoint := map k | k in byEndpoint && byEndpoint[k].expires > now :: byEndpoint[k];
      byAddr := map a | a in byAddr && byAddr[a].expires > now :: byAddr[a];
    }
  }

  class WeaverAddressLookup {
    var lan: map<EndpointId, seq<Transport>>
    var presence: map<EndpointId, seq<Transport>>
    var published: map<EndpointId, seq<Transport>>

    constructor ()
      ensures State() == Lookup(map[], map[], map[])
    {
      lan, presence, published := map[], map[], map[];
    }

    function State(): Lookup
      reads this
    {
      Lookup(lan, presence, published)
    }

    method PublishMerged(e: EndpointId)
      modifies this`published
      ensures State() == Publish(old(State()), e)
    {
      var merged := At(lan, e) + At(presence, e);
      published := if merged == [] then published - {e} else published[e := merged];
    }

    method ApplyLanObservation(e: EndpointId, expired: bool, addresses: seq<Transport>)
      modifies this
      ensures State() == ObserveLan(old(State()), e, expired, addresses)
    {
      lan := if expired || addresses == [] then lan - {e} else lan[e := addresses];
      PublishMerged(e);
    }

    method ApplyPresence(r: PresenceRecord) returns (ok: bool)
      modifies this
      ensures ok == Transports(r.candidates).Some?
      ensures State() == if ok then SetPresence(old(State()), r.endpoint, Transports(r.candidates).value) else old(State())
    {
      var ts: seq<Transport> := [];
      for i := 0 to |r.candidates|
        invariant Transports(r.candidates[..i]) == Some(ts) && State() == old(State())
      {
        assert r.candidates[..i + 1][..i] == r.candidates[..i];
        match r.candidates[i]
        case IpCandidate(address) => ts := ts + [IpTransport(address)];
        case RelayCandidate(url, parses) =>
          if !parses {
            TransportsFail(r.candidates, i + 1);
            return false;
          }
          ts := ts + [RelayTransport(url)];
      }
      assert r.candidates[..|r.candidates|] == r.candidates;
      presence := if ts == [] then presence - {r.endpoint} else presence[r.endpoint := ts];
      PublishMerged(r.endpoint);
      return true;
    }

    method Clear(e: EndpointId)
      modifies this
      ensures State() == ClearPresence(old(State()), {e})
    {
      ClearOne(State(), e);
      presence := presence - {e};
      PublishMerged(e);
    }
  }

  lemma ClearOne(l: Lookup, e: EndpointId)
    ensures Publish(l.(presence := l.presence - {e}), e) == ClearPresence(l, {e})
  {
    assert At(l.presence - {e}, e) == [];
    assert At(l.lan, e) + [] == At(l.lan, e);
  }

  lemma {:induction false} TransportsFail(candidates: seq<Candidate>, i: nat)
    requires i <= |candidates| && Transports(candidates[..i]).None?
    ensures Transports(candidates).None?
    decreases |candidates|
  {
    if i == |candidates| {
      assert candidates[..i] == candidates;
    } else {
      assert candidates[..|candidates| - 1][..i] == candidates[..i];
      TransportsFail(candidates[..|candidates| - 1], i);
    }
  }

  class PresenceDirectory {
    const network: NetworkId
    const cache: PresenceCache
    const lookup: WeaverAddressLookup

    constructor (network: NetworkId, lookup: WeaverAddressLookup)
      ensures this.network == network && this.lookup == lookup && fresh(cache)
      ensures State() == Directory(network, Cache(map[], map[]), lookup.State())
    {
      this.network, this.lookup := network, lookup;
      cache := new PresenceCache();
    }

    function State(): Directory
      reads cache, lookup
    {
      Directory(network, cache.State(), lookup.State())
    }

    /** The tail of `apply_encrypted`, once the record has been opened and authenticated. */
    method ApplyAuthenticated(r: PresenceRecord) returns (answer: Result<bool, DiscoveryError>)
      modifies cache, lookup
      ensures State() == Accept(old(State()), r)
      ensures answer ==
              if r.network != network then Err(WrongNetworkId)
              else match Judge(old(cache.State()), r)
                   case Refused(e) => Err(e)
                   case Unchanged => Ok(false)
                   case Accepted => if Transports(r.candidates).Some? then Ok(true) else Err(InvalidPresence)
    {
      if r.network != network {
        return Err(WrongNetworkId);
      }
      var changed := cache.Apply(r);
      if changed != Ok(true) {
        return changed;
      }
      var shown := lookup.ApplyPresence(r);
      return if shown then Ok(true) else Err(InvalidPresence);
    }

    /** The records go first, then the lookup entries of the endpoints left without one. */
    method PurgeExpired(now: u64)
      modifies cache, lookup
      ensures State() == PurgeDirectory(old(State()), now)
    {
      hide ClearPresence, Purge;
      ghost var start := lookup.State();
      var removed := cache.PurgeExpired(now);
      ghost var all, after := removed, cache.State();
      ghost var gone: set<EndpointId> := {};
      ClearNone(start);
      while removed != {}
        invariant cache.State() == after
        invariant gone == set e | e in all - removed && !Contains(after, e)
        invariant removed <= all && lookup.State() == ClearPresence(start, gone)
        decreases |removed|
      {
        var e :| e in removed;
        removed := removed - {e};
        if forall k :: k in cache.byEndpoint ==> k.1 != e {
          ClearMore(start, gone, e);
          lookup.Clear(e);
          gone := gone + {e};
        }
      }
      assert gone == set e | e in all && !Contains(after, e);
    }
  }

  lemma ClearNone(l: Lookup)
    ensures ClearPresence(l, {}) == l
  {
    assert l.presence - {} == l.presence;
  }
}
