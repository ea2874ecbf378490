/** What each named operation leaves in the next snapshot, entry by entry: exactly what it is asked
    to change, and nothing else. */
module AuthorityEffects {
  import opened Prelude
  import opened Credentials
  import opened Configs
  import opened SnapshotValidation
  import opened Validator
  import opened AuthorityOps
  import opened AuthorityHistory

  /** The next revision of the same snapshot, but for these fields. */
  predicate Advances(c: Config, next: Config, head: Head, now: u64) {
    next.revision == c.revision + 1 && next.previous == head.hash && next.issuedAt == now
  }

  /** Revocation erases the member: no certificate, endpoint, application binding, relay or
      presence service of theirs remains, and nothing of anybody else's goes. */
  lemma RevokeErases(keys: AuthorityKeys, c: Config, head: Head, op: Operation, now: u64, d: Draft)
    requires op.Revoke? && DraftOf(keys, c, head, op, now) == Ok(d) && AllDecode(c.endpointBindings) && AllDecode(c.appBindings)
    ensures Advances(c, d.next, head, now) && d.next.apps == c.apps && d.next.dns == c.dns && d.next.epoch == c.epoch + 1 && d.next.secrets == op.secrets
    ensures forall raw :: raw in d.next.endpointBindings <==> raw in c.endpointBindings && raw.value.payload.memberId != op.member
    ensures forall raw :: raw in d.next.appBindings <==> raw in c.appBindings && raw.value.payload.subject != op.member
    ensures forall r :: r in d.next.relays <==> r in c.relays && r.endpoint !in EndpointsOf(c, op.member)
    ensures forall p :: p in d.next.presence <==> p in c.presence && p.endpoint !in EndpointsOf(c, op.member)
  {
    hide MemberPosition, Retain, SortBy, EndpointsOf;
    var endpoints := EndpointsOf(c, op.member);
    forall raw
      ensures raw in d.next.endpointBindings <==> raw in c.endpointBindings && raw.value.payload.memberId != op.member
    {
      RetainMember(c.endpointBindings, (raw: Raw<EndpointBinding>) => raw.Wire? && raw.value.payload.memberId != op.member, raw);
    }
    forall raw
      ensures raw in d.next.appBindings <==> raw in c.appBindings && raw.value.payload.subject != op.member
    {
      RetainMember(c.appBindings, (raw: Raw<AppBinding>) => raw.Wire? && raw.value.payload.subject != op.member, raw);
    }
    forall r
      ensures r in d.next.relays <==> r in c.relays && r.endpoint !in endpoints
    {
      RetainMember(c.relays, (r: Relay) => r.endpoint !in endpoints, r);
    }
    forall p
      ensures p in d.next.presence <==> p in c.presence && p.endpoint !in endpoints
    {
      RetainMember(c.presence, (p: PresenceService) => p.endpoint !in endpoints, p);
    }
  }

  /** It takes out the first certificate with that identifier, adds that certificate's serial to the
      revoked ones, and touches no field it is not meant to. */
  lemma RevokeRemovesOne(keys: AuthorityKeys, c: Config, head: Head, op: Operation, now: u64, d: Draft) returns (p: nat)
    requires op.Revoke? && DraftOf(keys, c, head, op, now) == Ok(d)
    ensures d.ticket == None
    ensures d.next == c.(revision := c.revision + 1, previous := head.hash, issuedAt := now, epoch := c.epoch + 1, secrets := op.secrets,
                         members := d.next.members, endpointBindings := d.next.endpointBindings, appBindings := d.next.appBindings,
                         relays := d.next.relays, presence := d.next.presence, revoked := d.next.revoked)
    ensures p < |c.members| && c.members[p].Wire? && c.members[p].value.payload.memberId == op.member
    ensures d.next.members == c.members[..p] + c.members[p + 1..]
    ensures multiset(d.next.revoked) == multiset(c.revoked) + multiset{c.members[p].value.payload.serial}
    ensures forall i, j :: 0 <= i < j < |d.next.revoked| ==> d.next.revoked[i] <= d.next.revoked[j]
  {
    hide MemberPosition, Retain, SortBy, EndpointsOf;
    MemberPositionFinds(c.members, op.member);
    p := MemberPosition(c.members, op.member).value;
    var serials, le := c.revoked + [c.members[p].value.payload.serial], (a: u64, b: u64) => a <= b;
    SortPermutes(serials, le);
    SortSorts(serials, le);
  }

  /** Setting a name replaces its record and leaves every other name alone. */
  lemma SetDnsReplaces(keys: AuthorityKeys, c: Config, head: Head, op: Operation, now: u64, d: Draft)
    requires op.SetDns? && DraftOf(keys, c, head, op, now) == Ok(d)
    ensures Advances(c, d.next, head, now) && d.ticket == None
    ensures d.next == c.(revision := d.next.revision, previous := head.hash, issuedAt := now, dns := d.next.dns)
    ensures AppRegistered(c, op.app) && now < op.expires <= c.expiresAt
    ensures forall r :: r in d.next.dns <==> r == DnsRecord(op.name, op.app, op.expires) || (r in c.dns && r.name != op.name)
  {
    hide Retain, SortBy, AppRegistered;
    var others := Retain(c.dns, (r: DnsRecord) => r.name != op.name);
    forall r
      ensures r in d.next.dns <==> r == DnsRecord(op.name, op.app, op.expires) || (r in c.dns && r.name != op.name)
    {
      RetainMember(c.dns, (r: DnsRecord) => r.name != op.name, r);
      SortMember(others + [DnsRecord(op.name, op.app, op.expires)], (a: DnsRecord, b: DnsRecord) => StringLe(a.name, b.name), r);
    }
  }

  /** The names stay in order. */
  lemma SetDnsSorts(keys: AuthorityKeys, c: Config, head: Head, op: Operation, now: u64, d: Draft)
    requires op.SetDns? && DraftOf(keys, c, head, op, now) == Ok(d)
    ensures forall i, j :: 0 <= i < j < |d.next.dns| ==> StringLe(d.next.dns[i].name, d.next.dns[j].name)
  {
    hide Retain, SortBy, AppRegistered, StringLe;
    var le := (a: DnsRecord, b: DnsRecord) => StringLe(a.name, b.name);
    forall x: DnsRecord, y: DnsRecord
      ensures le(x, y) || le(y, x)
    {
      StringLeTotal(x.name, y.name);
    }
    forall x: DnsRecord, y: DnsRecord, z: DnsRecord | le(x, y) && le(y, z)
      ensures le(x, z)
    {
      StringLeTransitive(x.name, y.name, z.name);
    }
    SortSorts(Retain(c.dns, (r: DnsRecord) => r.name != op.name) + [DnsRecord(op.name, op.app, op.expires)], le);
  }

  lemma {:induction false} ResolvesToNothing(records: seq<DnsRecord>, name: VirtualName, at: u64)
    requires forall i :: 0 <= i < |records| && records[i].name == name ==> records[i].expires <= at
    ensures ResolveName(records, name, at).None?
  {
    if records != [] {
      ResolvesToNothing(records[1..], name, at);
    }
  }

  /** From then on the name resolves to the application until the record expires. */
  lemma SetDnsResolves(keys: AuthorityKeys, c: Config, head: Head, op: Operation, now: u64, d: Draft, at: u64)
    requires op.SetDns? && DraftOf(keys, c, head, op, now) == Ok(d) && ValidAt(d.next, keys.root, now)
    ensures ResolveName(d.next.dns, op.name, at) == if at < op.expires then Some(op.app) else None
  {
    hide DraftOf, ValidAt, ResolveName;
    SetDnsReplaces(keys, c, head, op, now, d);
    var record := DnsRecord(op.name, op.app, op.expires);
    assert record in d.next.dns;
    var i :| 0 <= i < |d.next.dns| && d.next.dns[i] == record;
    if at < op.expires {
      NameHasOneTarget(d.next, keys.root, now, op.name, at, op.app);
    } else {
      assert forall j :: 0 <= j < |d.next.dns| ==> d.next.dns[j] in d.next.dns;
      ResolvesToNothing(d.next.dns, op.name, at);
    }
  }

  /** Removing a name that has no record is refused; otherwise exactly that name's records go. */
  lemma RemoveDnsRemoves(keys: AuthorityKeys, c: Config, head: Head, op: Operation, now: u64)
    requires op.RemoveDns?
    ensures (exists i :: 0 <= i < |c.dns| && c.dns[i].name == op.name) <==> DraftOf(keys, c, head, op, now) != Err(DnsRecordNotFound)
    ensures DraftOf(keys, c, head, op, now).Ok? ==>
            var next := DraftOf(keys, c, head, op, now).value.next;
            && Advances(c, next, head, now) && next == c.(revision := next.revision, previous := head.hash, issuedAt := now, dns := next.dns)
            && forall r :: r in next.dns <==> r in c.dns && r.name != op.name
  {
    hide Retain;
    RetainLength(c.dns, (r: DnsRecord) => r.name != op.name);
    forall r
      ensures r in Retain(c.dns, (x: DnsRecord) => x.name != op.name) <==> r in c.dns && r.name != op.name
    {
      RetainMember(c.dns, (x: DnsRecord) => x.name != op.name, r);
    }
  }

  /** A relay is registered for an endpoint bound to a member with the relay role; it replaces the
      endpoint's earlier descriptors, and its presence service exists exactly if it asks for one. */
  lemma SetRelayReplaces(keys: AuthorityKeys, c: Config, head: Head, op: Operation, now: u64, d: Draft)
    requires op.SetRelay? && DraftOf(keys, c, head, op, now) == Ok(d)
    ensures Advances(c, d.next, head, now) && d.ticket == None
    ensures d.next == c.(revision := d.next.revision, previous := head.hash, issuedAt := now, relays := d.next.relays, presence := d.next.presence)
    ensures forall r :: r in d.next.relays <==> r == Relay(op.endpoint, op.url, op.relayRoles, op.expires) || (r in c.relays && r.endpoint != op.endpoint)
    ensures forall p :: p in d.next.presence <==>
              (RELAY_PRESENCE in op.relayRoles && p == PresenceService(op.endpoint, op.url, op.expires)) || (p in c.presence && p.endpoint != op.endpoint)
  {
    hide Retain, SortBy, FindMember, FindEndpointBinding;
    var relays := Retain(c.relays, (r: Relay) => r.endpoint != op.endpoint) + [Relay(op.endpoint, op.url, op.relayRoles, op.expires)];
    var others := Retain(c.presence, (p: PresenceService) => p.endpoint != op.endpoint);
    var presence := if RELAY_PRESENCE in op.relayRoles then others + [PresenceService(op.endpoint, op.url, op.expires)] else others;
    forall r
      ensures r in d.next.relays <==> r == Relay(op.endpoint, op.url, op.relayRoles, op.expires) || (r in c.relays && r.endpoint != op.endpoint)
    {
      RetainMember(c.relays, (x: Relay) => x.endpoint != op.endpoint, r);
      SortMember(relays, (a: Relay, b: Relay) => a.endpoint.id <= b.endpoint.id, r);
    }
    forall p
      ensures p in d.next.presence <==>
              (RELAY_PRESENCE in op.relayRoles && p == PresenceService(op.endpoint, op.url, op.expires)) || (p in c.presence && p.endpoint != op.endpoint)
    {
      RetainMember(c.presence, (x: PresenceService) => x.endpoint != op.endpoint, p);
      SortMember(presence, (a: PresenceService, b: PresenceService) => a.endpoint.id <= b.endpoint.id, p);
    }
  }

  /** Relays and presence services stay in the order of their endpoints. */
  lemma SetRelaySorts(keys: AuthorityKeys, c: Config, head: Head, op: Operation, now: u64, d: Draft)
    requires op.SetRelay? && DraftOf(keys, c, head, op, now) == Ok(d)
    ensures forall i, j :: 0 <= i < j < |d.next.relays| ==> d.next.relays[i].endpoint.id <= d.next.relays[j].endpoint.id
    ensures forall i, j :: 0 <= i < j < |d.next.presence| ==> d.next.presence[i].endpoint.id <= d.next.presence[j].endpoint.id
  {
    hide Retain, SortBy, FindMember, FindEndpointBinding;
    var relays := Retain(c.relays, (r: Relay) => r.endpoint != op.endpoint) + [Relay(op.endpoint, op.url, op.relayRoles, op.expires)];
    var others := Retain(c.presence, (p: PresenceService) => p.endpoint != op.endpoint);
    var presence := if RELAY_PRESENCE in op.relayRoles then others + [PresenceService(op.endpoint, op.url, op.expires)] else others;
    SortSorts(relays, (a: Relay, b: Relay) => a.endpoint.id <= b.endpoint.id);
    SortSorts(presence, (a: PresenceService, b: PresenceService) => a.endpoint.id <= b.endpoint.id);
  }

  /** Removing a relay takes its presence service with it. */
  lemma RemoveRelayRemoves(keys: AuthorityKeys, c: Config, head: Head, op: Operation, now: u64)
    requires op.RemoveRelay?
    ensures (exists i :: 0 <= i < |c.relays| && c.relays[i].endpoint == op.endpoint) <==> DraftOf(keys, c, head, op, now) != Err(RelayNotFound)
    ensures DraftOf(keys, c, head, op, now).Ok? ==>
            var next := DraftOf(keys, c, head, op, now).value.next;
            && Advances(c, next, head, now)
            && next == c.(revision := next.revision, previous := head.hash, issuedAt := now, relays := next.relays, presence := next.presence)
            && (forall r :: r in next.relays <==> r in c.relays && r.endpoint != op.endpoint)
            && (forall p :: p in next.presence <==> p in c.presence && p.endpoint != op.endpoint)
  {
    hide Retain;
    RetainLength(c.relays, (r: Relay) => r.endpoint != op.endpoint);
    forall r
      ensures r in Retain(c.relays, (x: Relay) => x.endpoint != op.endpoint) <==> r in c.relays && r.endpoint != op.endpoint
    {
      RetainMember(c.relays, (x: Relay) => x.endpoint != op.endpoint, r);
    }
    forall p
      ensures p in Retain(c.presence, (x: PresenceService) => x.endpoint != op.endpoint) <==> p in c.presence && p.endpoint != op.endpoint
    {
      RetainMember(c.presence, (x: PresenceService) => x.endpoint != op.endpoint, p);
    }
  }
}
