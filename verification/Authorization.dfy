/** The readings of a snapshot that decide who may talk to whom: the live scan, the map derived in
    advance, and the stable endpoint of a virtual address. */
module Authorization {
  import opened Prelude
  import opened Credentials
  import opened Configs
  import opened SnapshotValidation
  import opened AuthorityOps
  import opened Presence

  // ---- what an application binding grants ----

  function AddressOf(p: AppBindingPayload): VirtualAddr {
    match p.role
    case Server => ServerAddr(p.app)
    case Client(device) => ClientAddr(p.app, device)
  }

  /** The client addresses granted to a member by bindings in force. */
  function ClientsOfMember(raws: seq<Raw<AppBinding>>, member: MemberId, now: u64): set<VirtualAddr> {
    set i | 0 <= i < |raws| && raws[i].Wire? && raws[i].value.payload.role.Client? && raws[i].value.payload.subject == member
         && now < raws[i].value.payload.expires :: AddressOf(raws[i].value.payload)
  }

  /** A binding in force makes this member a server of the application. */
  predicate ServesApp(raws: seq<Raw<AppBinding>>, member: MemberId, app: AppAddr, now: u64) {
    exists i :: 0 <= i < |raws| && raws[i].Wire? && raws[i].value.payload.role.Server? && raws[i].value.payload.subject == member
             && raws[i].value.payload.app == app && now < raws[i].value.payload.expires
  }

  // ---- the member behind an endpoint ----

  function LiveBinding(raws: seq<Raw<EndpointBinding>>, endpoint: EndpointId, now: u64): Option<MemberId> {
    if raws == [] then None
    else if raws[0].Wire? && raws[0].value.payload.endpoint == endpoint && now < raws[0].value.payload.expires then Some(raws[0].value.payload.memberId)
    else LiveBinding(raws[1..], endpoint, now)
  }

  predicate LiveMember(raws: seq<Raw<MemberCert>>, id: MemberId, now: u64) {
    exists i :: 0 <= i < |raws| && raws[i].Wire? && raws[i].value.payload.memberId == id && now < raws[i].value.payload.expires
  }

  /** `configured_member_for_endpoint`. */
  function MemberForEndpoint(c: Config, endpoint: EndpointId, now: u64): Option<MemberId> {
    if c.expiresAt <= now then None
    else
      match LiveBinding(c.endpointBindings, endpoint, now)
      case None => None
      case Some(id) => if LiveMember(c.members, id, now) then Some(id) else None
  }

  /** The endpoint is bound to the member, clock aside. */
  predicate BoundIn(raws: seq<Raw<EndpointBinding>>, endpoint: EndpointId, member: MemberId) {
    exists i :: 0 <= i < |raws| && raws[i].Wire? && raws[i].value.payload.endpoint == endpoint && raws[i].value.payload.memberId == member
  }

  predicate Bound(c: Config, endpoint: EndpointId, member: MemberId) {
    BoundIn(c.endpointBindings, endpoint, member)
  }

  lemma {:induction false} LiveBindingFinds(raws: seq<Raw<EndpointBinding>>, endpoint: EndpointId, now: u64)
    ensures var m := LiveBinding(raws, endpoint, now);
            && (m.Some? ==> exists i :: 0 <= i < |raws| && raws[i].Wire? && raws[i].value.payload.endpoint == endpoint && raws[i].value.payload.memberId == m.value)
            && (m.None? ==> forall i :: 0 <= i < |raws| && raws[i].Wire? && raws[i].value.payload.endpoint == endpoint ==> raws[i].value.payload.expires <= now)
  {
    if raws != [] {
      LiveBindingFinds(raws[1..], endpoint, now);
      assert forall i :: 1 <= i < |raws| ==> raws[i] == raws[1..][i - 1];
    }
  }

  /** In a valid snapshot an endpoint's member is the one it is bound to. */
  lemma ValidEndpointMember(c: Config, root: PublicKey, now: u64, endpoint: EndpointId, member: MemberId)
    requires ValidAt(c, root, now)
    ensures MemberForEndpoint(c, endpoint, now) == Some(member) <==> Bound(c, endpoint, member)
  {
    hide Shape, AdminsValid, AppsValid, AppBindingsValid, DnsValid, DescriptorsValid;
    LiveBindingFinds(c.endpointBindings, endpoint, now);
    ValidBindings(c, root, now);
  }

  /** What validity says about endpoint bindings: in force, of one member each, of a live member. */
  lemma ValidBindings(c: Config, root: PublicKey, now: u64)
    requires ValidAt(c, root, now)
    ensures now < c.expiresAt && EndpointsDistinct(c.endpointBindings)
    ensures forall i :: 0 <= i < |c.endpointBindings| ==>
              && c.endpointBindings[i].Wire? && now < c.endpointBindings[i].value.payload.expires
              && LiveMember(c.members, c.endpointBindings[i].value.payload.memberId, now)
  {
    hide Shape, AdminsValid, AppsValid, AppBindingsValid, DnsValid, DescriptorsValid;
    forall i | 0 <= i < |c.endpointBindings|
      ensures c.endpointBindings[i].Wire? && now < c.endpointBindings[i].value.payload.expires
      ensures LiveMember(c.members, c.endpointBindings[i].value.payload.memberId, now)
    {
      assert EndpointOk(c, root, now, c.endpointBindings[i]);
      var n := FindMemberFinds(c.members, c.endpointBindings[i].value.payload.memberId);
      assert MemberOk(c, root, now, c.members[n]);
    }
  }

  lemma ValidAppBindings(c: Config, root: PublicKey, now: u64)
    requires ValidAt(c, root, now)
    ensures forall i :: 0 <= i < |c.appBindings| ==> c.appBindings[i].Wire? && now < c.appBindings[i].value.payload.expires
  {
    hide Shape, AdminsValid, MembersValid, EndpointsValid, AppsValid, DnsValid, DescriptorsValid, FindMember, FindApp;
    forall i | 0 <= i < |c.appBindings|
      ensures c.appBindings[i].Wire? && now < c.appBindings[i].value.payload.expires
    {
      assert AppBindingOk(c, root, now, c.appBindings[i]);
    }
  }

  // ---- the live scan ----

  function LiveClients(c: Config, local: EndpointId, source: EndpointId, destination: VirtualAddr, now: u64): set<VirtualAddr> {
    var caller, callee := MemberForEndpoint(c, source, now), MemberForEndpoint(c, local, now);
    if caller.None? || callee.None? || !destination.ServerAddr? || !AllDecode(c.appBindings) then {}
    else if ServesApp(c.appBindings, callee.value, destination.app, now) then ClientsOfMember(c.appBindings, caller.value, now)
    else {}
  }

  /** `authorized_client_addrs` of the live authorizer: one pass over the application bindings. */
  method ScanClients(c: Config, local: EndpointId, source: EndpointId, destination: VirtualAddr, now: u64) returns (clients: set<VirtualAddr>)
    ensures clients == LiveClients(c, local, source, destination, now)
  {
    hide MemberForEndpoint;
    clients := {};
    var caller := MemberForEndpoint(c, source, now);
    var callee := MemberForEndpoint(c, local, now);
    if caller.None? || callee.None? || !destination.ServerAddr? {
      return {};
    }
    var serves := false;
    for i := 0 to |c.appBindings|
      invariant forall k :: 0 <= k < i ==> c.appBindings[k].Wire?
      invariant serves == ServesApp(c.appBindings[..i], callee.value, destination.app, now)
      invariant clients == ClientsOfMember(c.appBindings[..i], caller.value, now)
    {
      if c.appBindings[i].Malformed? {
        return {};
      }
      var p := c.appBindings[i].value.payload;
      ServesMore(c.appBindings, i, callee.value, destination.app, now);
      ClientsMore(c.appBindings, i, caller.value, now);
      if now < p.expires {
        if p.role.Server? && p.app == destination.app && p.subject == callee.value {
          serves := true;
        }
        if p.role.Client? && p.subject == caller.value {
          clients := clients + {ClientAddr(p.app, p.role.device)};
        }
      }
    }
    assert c.appBindings[..|c.appBindings|] == c.appBindings;
    if !serves {
      clients := {};
    }
  }

  lemma ServesMore(raws: seq<Raw<AppBinding>>, i: nat, member: MemberId, app: AppAddr, now: u64)
    requires i < |raws| && raws[i].Wire?
    ensures var p := raws[i].value.payload;
            ServesApp(raws[..i + 1], member, app, now) <==>
            ServesApp(raws[..i], member, app, now) || (p.role.Server? && p.subject == member && p.app == app && now < p.expires)
  {
    assert forall k :: 0 <= k < i ==> raws[..i + 1][k] == raws[..i][k];
    assert raws[..i + 1][i] == raws[i];
  }

  lemma ClientsMore(raws: seq<Raw<AppBinding>>, i: nat, member: MemberId, now: u64)
    requires i < |raws| && raws[i].Wire?
    ensures var p := raws[i].value.payload;
            ClientsOfMember(raws[..i + 1], member, now) ==
            ClientsOfMember(raws[..i], member, now) + if p.role.Client? && p.subject == member && now < p.expires then {AddressOf(p)} else {}
  {
    assert forall k :: 0 <= k < i ==> raws[..i + 1][k] == raws[..i][k];
    assert raws[..i + 1][i] == raws[i];
  }

  // ---- what a lapsed snapshot still grants ----

  /** The snapshot, a binding of the endpoint to the member, and a certificate of the member are all
      in force. */
  ghost predicate ActsFor(c: Config, endpoint: EndpointId, member: MemberId, now: u64) {
    && now < c.expiresAt
    && (exists i :: 0 <= i < |c.endpointBindings| && c.endpointBindings[i].Wire?
                 && var p := c.endpointBindings[i].value.payload; p.endpoint == endpoint && p.memberId == member && now < p.expires)
    && (exists i :: 0 <= i < |c.members| && c.members[i].Wire?
                 && var p := c.members[i].value.payload; p.memberId == member && now < p.expires)
  }

  /** A client binding in force gives the member this address. */
  ghost predicate ClientNow(c: Config, member: MemberId, a: VirtualAddr, now: u64) {
    exists i :: 0 <= i < |c.appBindings| && c.appBindings[i].Wire?
             && var p := c.appBindings[i].value.payload;
                p.role.Client? && p.subject == member && a == ClientAddr(p.app, p.role.device) && now < p.expires
  }

  /** A server binding in force lets the member serve the application. */
  ghost predicate ServerNow(c: Config, member: MemberId, app: AppAddr, now: u64) {
    exists i :: 0 <= i < |c.appBindings| && c.appBindings[i].Wire?
             && var p := c.appBindings[i].value.payload;
                p.role.Server? && p.subject == member && p.app == app && now < p.expires
  }

  lemma {:induction false} LiveBindingInForce(raws: seq<Raw<EndpointBinding>>, endpoint: EndpointId, now: u64)
    requires LiveBinding(raws, endpoint, now).Some?
    ensures exists i :: 0 <= i < |raws| && raws[i].Wire?
                     && var p := raws[i].value.payload;
                        p.endpoint == endpoint && p.memberId == LiveBinding(raws, endpoint, now).value && now < p.expires
  {
    if !(raws[0].Wire? && raws[0].value.payload.endpoint == endpoint && now < raws[0].value.payload.expires) {
      LiveBindingInForce(raws[1..], endpoint, now);
      var i :| 0 <= i < |raws[1..]| && raws[1..][i].Wire? && var p := raws[1..][i].value.payload;
               p.endpoint == endpoint && p.memberId == LiveBinding(raws, endpoint, now).value && now < p.expires;
      assert raws[i + 1] == raws[1..][i];
    } else {
      assert raws[0].Wire?;
    }
  }

  /** Whatever has lapsed, only an endpoint that acts for a member now has one. */
  lemma MemberActs(c: Config, endpoint: EndpointId, now: u64)
    requires MemberForEndpoint(c, endpoint, now).Some?
    ensures ActsFor(c, endpoint, MemberForEndpoint(c, endpoint, now).value, now)
  {
    LiveBindingInForce(c.endpointBindings, endpoint, now);
  }

  /** For every snapshot, however long ago it was valid: an address is granted only while the
      snapshot, both endpoint bindings, both certificates and both application bindings behind it
      are in force. */
  lemma GrantedOnlyInForce(c: Config, local: EndpointId, source: EndpointId, destination: VirtualAddr, now: u64, a: VirtualAddr)
    requires a in LiveClients(c, local, source, destination, now)
    ensures destination.ServerAddr?
    ensures exists m, n :: ActsFor(c, source, m, now) && ClientNow(c, m, a, now) && ActsFor(c, local, n, now) && ServerNow(c, n, destination.app, now)
  {
    hide MemberForEndpoint, ActsFor;
    var m, n := MemberForEndpoint(c, source, now).value, MemberForEndpoint(c, local, now).value;
    MemberActs(c, source, now);
    MemberActs(c, local, now);
    assert ClientNow(c, m, a, now);
    assert ServerNow(c, n, destination.app, now);
  }

  lemma {:induction false} OnlyLiveBinding(raws: seq<Raw<EndpointBinding>>, endpoint: EndpointId, now: u64, i: nat)
    requires EndpointsDistinct(raws) && i < |raws| && raws[i].Wire?
    requires raws[i].value.payload.endpoint == endpoint && now < raws[i].value.payload.expires
    ensures LiveBinding(raws, endpoint, now) == Some(raws[i].value.payload.memberId)
  {
    if i > 0 {
      assert EndpointsDistinct(raws[1..]);
      OnlyLiveBinding(raws[1..], endpoint, now, i - 1);
    }
  }

  /** In a snapshot that was valid once, the endpoint's member now is the one it acts for now. */
  lemma ActsForOne(c: Config, endpoint: EndpointId, now: u64, m: MemberId)
    requires EndpointsDistinct(c.endpointBindings)
    ensures MemberForEndpoint(c, endpoint, now) == Some(m) <==> ActsFor(c, endpoint, m, now)
  {
    if ActsFor(c, endpoint, m, now) {
      var i :| 0 <= i < |c.endpointBindings| && c.endpointBindings[i].Wire?
            && var p := c.endpointBindings[i].value.payload; p.endpoint == endpoint && p.memberId == m && now < p.expires;
      OnlyLiveBinding(c.endpointBindings, endpoint, now, i);
    }
    if MemberForEndpoint(c, endpoint, now) == Some(m) {
      MemberActs(c, endpoint, now);
    }
  }

  /** For a snapshot installed while it was valid and asked at any later time, that is also enough:
      the live scan grants exactly what is still in force. */
  lemma GrantedExactlyWhen(c: Config, root: PublicKey, installed: u64, local: EndpointId, source: EndpointId, app: AppAddr, now: u64, a: VirtualAddr)
    requires ValidAt(c, root, installed)
    ensures a in LiveClients(c, local, source, ServerAddr(app), now) <==>
            exists m, n :: ActsFor(c, source, m, now) && ClientNow(c, m, a, now) && ActsFor(c, local, n, now) && ServerNow(c, n, app, now)
  {
    hide ValidAt, MemberForEndpoint, ActsFor;
    ValidBindings(c, root, installed);
    ValidAppBindings(c, root, installed);
    if a in LiveClients(c, local, source, ServerAddr(app), now) {
      GrantedOnlyInForce(c, local, source, ServerAddr(app), now, a);
    }
    if m, n :| ActsFor(c, source, m, now) && ClientNow(c, m, a, now) && ActsFor(c, local, n, now) && ServerNow(c, n, app, now) {
      ActsForOne(c, source, now, m);
      ActsForOne(c, local, now, n);
    }
  }

  // ---- the map derived in advance ----

  type Allowed = map<EndpointId, set<VirtualAddr>>

  function AllowedAt(m: Allowed, e: EndpointId): set<VirtualAddr> {
    if e in m then m[e] else {}
  }

  /** Some client binding of a member the endpoint is bound to grants the address. */
  predicate Grants(raws: seq<Raw<AppBinding>>, bound: map<MemberId, seq<EndpointId>>, e: EndpointId, a: VirtualAddr) {
    exists j :: 0 <= j < |raws| && raws[j].Wire? && raws[j].value.payload.role.Client? && AddressOf(raws[j].value.payload) == a
             && raws[j].value.payload.subject in bound && e in bound[raws[j].value.payload.subject]
  }

  /** A binding gives the member this address. */
  predicate HasAddress(raws: seq<Raw<AppBinding>>, member: MemberId, a: VirtualAddr) {
    exists j :: 0 <= j < |raws| && raws[j].Wire? && raws[j].value.payload.subject == member && AddressOf(raws[j].value.payload) == a
  }

  /** Each member's endpoints, as listed. */
  ghost predicate Lists(raws: seq<Raw<EndpointBinding>>, bound: map<MemberId, seq<EndpointId>>) {
    forall m, e :: BoundIn(raws, e, m) <==> ListedAt(bound, m, e)
  }

  predicate ListedAt(bound: map<MemberId, seq<EndpointId>>, m: MemberId, e: EndpointId) {
    m in bound && e in bound[m]
  }

  datatype AuthorizationError = MalformedCredential | LocalEndpointNotMember | LocalNotAuthorized

  /** The member of the last binding that names this endpoint. */
  function LastBound(raws: seq<Raw<EndpointBinding>>, endpoint: EndpointId): Option<MemberId> {
    if raws == [] then None
    else
      var last := raws[|raws| - 1];
      if last.Wire? && last.value.payload.endpoint == endpoint then Some(last.value.payload.memberId) else LastBound(raws[..|raws| - 1], endpoint)
  }

  lemma {:induction false} LastBoundIsBound(raws: seq<Raw<EndpointBinding>>, endpoint: EndpointId)
    ensures var m := LastBound(raws, endpoint);
            m.Some? ==> BoundIn(raws, endpoint, m.value)
  {
    if raws != [] {
      LastBoundIsBound(raws[..|raws| - 1], endpoint);
    }
  }

  lemma ListsMore(raws: seq<Raw<EndpointBinding>>, i: nat, bound: map<MemberId, seq<EndpointId>>, bound': map<MemberId, seq<EndpointId>>)
    requires i < |raws| && raws[i].Wire? && Lists(raws[..i], bound)
    requires var p := raws[i].value.payload;
             bound' == bound[p.memberId := (if p.memberId in bound then bound[p.memberId] else []) + [p.endpoint]]
    ensures Lists(raws[..i + 1], bound')
  {
    forall m: MemberId, e: EndpointId
      ensures BoundIn(raws[..i + 1], e, m) <==> ListedAt(bound', m, e)
    {
      BoundMore(raws, i, e, m);
      assert BoundIn(raws[..i], e, m) <==> ListedAt(bound, m, e);
    }
  }

  lemma BoundMore(raws: seq<Raw<EndpointBinding>>, i: nat, e: EndpointId, m: MemberId)
    requires i < |raws| && raws[i].Wire?
    ensures var p := raws[i].value.payload;
            BoundIn(raws[..i + 1], e, m) <==> BoundIn(raws[..i], e, m) || (p.endpoint == e && p.memberId == m)
  {
    assert forall k :: 0 <= k < i ==> raws[..i + 1][k] == raws[..i][k];
    assert raws[..i + 1][i] == raws[i];
  }

  method ListEndpoints(raws: seq<Raw<EndpointBinding>>, local: EndpointId)
    returns (ok: bool, bound: map<MemberId, seq<EndpointId>>, localMember: Option<MemberId>)
    ensures ok == AllDecode(raws)
    ensures ok ==> Lists(raws, bound) && localMember == LastBound(raws, local)
  {
    hide Lists;
    bound, localMember := map[], None;
    NothingListed();
    for i := 0 to |raws|
      invariant forall k :: 0 <= k < i ==> raws[k].Wire?
      invariant Lists(raws[..i], bound) && localMember == LastBound(raws[..i], local)
    {
      if raws[i].Malformed? {
        return false, bound, localMember;
      }
      assert raws[..i + 1][..i] == raws[..i];
      var p := raws[i].value.payload;
      var more := bound[p.memberId := (if p.memberId in bound then bound[p.memberId] else []) + [p.endpoint]];
      ListsMore(raws, i, bound, more);
      bound := more;
      if p.endpoint == local {
        localMember := Some(p.memberId);
      }
    }
    assert raws[..|raws|] == raws;
    return true, bound, localMember;
  }

  lemma NothingListed()
    ensures Lists([], map[])
  {
  }

  /** Add one address for each of a member's endpoints. */
  method AllowEach(allowed: Allowed, endpoints: seq<EndpointId>, a: VirtualAddr) returns (r: Allowed)
    ensures forall e :: AllowedAt(r, e) == AllowedAt(allowed, e) + if e in endpoints then {a} else {}
  {
    r := allowed;
    for i := 0 to |endpoints|
      invariant forall e :: AllowedAt(r, e) == AllowedAt(allowed, e) + if e in endpoints[..i] then {a} else {}
    {
      assert endpoints[..i + 1] == endpoints[..i] + [endpoints[i]];
      r := r[endpoints[i] := AllowedAt(r, endpoints[i]) + {a}];
    }
    assert endpoints[..|endpoints|] == endpoints;
  }

  lemma GrantsMore(raws: seq<Raw<AppBinding>>, i: nat, bound: map<MemberId, seq<EndpointId>>, e: EndpointId, a: VirtualAddr)
    requires i < |raws| && raws[i].Wire?
    ensures var p := raws[i].value.payload;
            Grants(raws[..i + 1], bound, e, a) <==>
            Grants(raws[..i], bound, e, a) || (p.role.Client? && AddressOf(p) == a && p.subject in bound && e in bound[p.subject])
  {
    assert forall k :: 0 <= k < i ==> raws[..i + 1][k] == raws[..i][k];
    assert raws[..i + 1][i] == raws[i];
  }

  lemma HasMore(raws: seq<Raw<AppBinding>>, i: nat, member: MemberId, a: VirtualAddr)
    requires i < |raws| && raws[i].Wire?
    ensures var p := raws[i].value.payload;
            HasAddress(raws[..i + 1], member, a) <==> HasAddress(raws[..i], member, a) || (p.subject == member && AddressOf(p) == a)
  {
    assert forall k :: 0 <= k < i ==> raws[..i + 1][k] == raws[..i][k];
    assert raws[..i + 1][i] == raws[i];
  }

  method CollectClients(raws: seq<Raw<AppBinding>>, bound: map<MemberId, seq<EndpointId>>, local: MemberId)
    returns (ok: bool, allowed: Allowed, own: set<VirtualAddr>)
    ensures ok == AllDecode(raws)
    ensures ok ==> (forall e, a :: a in AllowedAt(allowed, e) <==> Grants(raws, bound, e, a)) && (forall a :: a in own <==> HasAddress(raws, local, a))
  {
    hide Grants, HasAddress;
    allowed, own := map[], {};
    NothingGranted(bound, local);
    for i := 0 to |raws|
      invariant forall k :: 0 <= k < i ==> raws[k].Wire?
      invariant forall e, a :: a in AllowedAt(allowed, e) <==> Grants(raws[..i], bound, e, a)
      invariant forall a :: a in own <==> HasAddress(raws[..i], local, a)
    {
      if raws[i].Malformed? {
        return false, allowed, own;
      }
      var p := raws[i].value.payload;
      forall e, a
        ensures Grants(raws[..i + 1], bound, e, a) <==>
                Grants(raws[..i], bound, e, a) || (p.role.Client? && AddressOf(p) == a && p.subject in bound && e in bound[p.subject])
      {
        GrantsMore(raws, i, bound, e, a);
      }
      forall a
        ensures HasAddress(raws[..i + 1], local, a) <==> HasAddress(raws[..i], local, a) || (p.subject == local && AddressOf(p) == a)
      {
        HasMore(raws, i, local, a);
      }
      if p.subject == local {
        own := own + {AddressOf(p)};
      }
      if p.role.Client? && p.subject in bound {
        allowed := AllowEach(allowed, bound[p.subject], AddressOf(p));
      }
    }
    assert raws[..|raws|] == raws;
    return true, allowed, own;
  }

  lemma NothingGranted(bound: map<MemberId, seq<EndpointId>>, local: MemberId)
    ensures forall e, a :: !Grants([], bound, e, a)
    ensures forall a :: !HasAddress([], local, a)
  {
  }

  /** What a successful derivation has established. */
  ghost predicate Derived(c: Config, local: EndpointId, own: set<VirtualAddr>, allowed: Allowed) {
    && AllDecode(c.endpointBindings) && AllDecode(c.appBindings)
    && var member := LastBound(c.endpointBindings, local);
       && member.Some? && (forall a :: a in own ==> HasAddress(c.appBindings, member.value, a))
       && exists bound :: Lists(c.endpointBindings, bound) && forall e, a :: a in AllowedAt(allowed, e) <==> Grants(c.appBindings, bound, e, a)
  }

  /** `ConfigAuthorizations::derive`, relay URLs aside. */
  method Derive(c: Config, local: EndpointId, own: set<VirtualAddr>) returns (r: Result<Allowed, AuthorizationError>)
    ensures r.Ok? ==> Derived(c, local, own, r.value)
    ensures r == Err(LocalEndpointNotMember) ==> LastBound(c.endpointBindings, local).None?
    ensures r == Err(MalformedCredential) ==> !AllDecode(c.endpointBindings) || !AllDecode(c.appBindings)
    ensures r == Err(LocalNotAuthorized) ==>
              var member := LastBound(c.endpointBindings, local); member.Some? && exists a :: a in own && !HasAddress(c.appBindings, member.value, a)
  {
    hide Lists, Grants, HasAddress;
    var ok, bound, member := ListEndpoints(c.endpointBindings, local);
    if !ok {
      return Err(MalformedCredential);
    }
    if member.None? {
      return Err(LocalEndpointNotMember);
    }
    var decoded, allowed, held := CollectClients(c.appBindings, bound, member.value);
    if !decoded {
      return Err(MalformedCredential);
    }
    if !(own <= held) {
      return Err(LocalNotAuthorized);
    }
    return Ok(allowed);
  }

  // ---- the two views agree ----

  lemma BoundIsListed(c: Config, bound: map<MemberId, seq<EndpointId>>, e: EndpointId, m: MemberId)
    requires Lists(c.endpointBindings, bound)
    ensures Bound(c, e, m) <==> m in bound && e in bound[m]
  {
  }

  lemma GrantedClients(c: Config, bound: map<MemberId, seq<EndpointId>>, e: EndpointId, m: MemberId, now: u64, a: VirtualAddr)
    requires Lists(c.endpointBindings, bound) && Bound(c, e, m) && (forall n :: Bound(c, e, n) ==> n == m)
    requires forall i :: 0 <= i < |c.appBindings| ==> c.appBindings[i].Wire? && now < c.appBindings[i].value.payload.expires
    ensures Grants(c.appBindings, bound, e, a) <==> a in ClientsOfMember(c.appBindings, m, now)
  {
    hide Lists, Bound;
    BoundIsListed(c, bound, e, m);
    if Grants(c.appBindings, bound, e, a) {
      var j :| 0 <= j < |c.appBindings| && c.appBindings[j].Wire? && c.appBindings[j].value.payload.role.Client? && AddressOf(c.appBindings[j].value.payload) == a
             && c.appBindings[j].value.payload.subject in bound && e in bound[c.appBindings[j].value.payload.subject];
      BoundIsListed(c, bound, e, c.appBindings[j].value.payload.subject);
    }
  }

  lemma OneMember(c: Config, root: PublicKey, now: u64, e: EndpointId, m: MemberId, n: MemberId)
    requires ValidAt(c, root, now) && Bound(c, e, m) && Bound(c, e, n)
    ensures m == n
  {
    hide ValidAt, MemberForEndpoint;
    ValidEndpointMember(c, root, now, e, m);
    ValidEndpointMember(c, root, now, e, n);
  }

  /** On a snapshot valid now, the live scan and the derived map give every endpoint the same
      clients, for every server the local node has bound. */
  lemma ViewsAgree(c: Config, root: PublicKey, now: u64, local: EndpointId, own: set<VirtualAddr>, allowed: Allowed, source: EndpointId, app: AppAddr)
    requires ValidAt(c, root, now) && Derived(c, local, own, allowed) && ServerAddr(app) in own
    ensures LiveClients(c, local, source, ServerAddr(app), now) == AllowedAt(allowed, source)
  {
    hide ValidAt, Lists, Grants, Bound, MemberForEndpoint, ClientsOfMember;
    var bound :| Lists(c.endpointBindings, bound) && forall e, a :: a in AllowedAt(allowed, e) <==> Grants(c.appBindings, bound, e, a);
    LocalServes(c, root, now, local, own, app);
    ValidAppBindings(c, root, now);
    var caller := MemberForEndpoint(c, source, now);
    if caller.None? {
      forall a
        ensures !Grants(c.appBindings, bound, source, a)
      {
        UnboundGrantsNothing(c, root, now, bound, source, a);
      }
    } else {
      ValidEndpointMember(c, root, now, source, caller.value);
      forall n | Bound(c, source, n)
        ensures n == caller.value
      {
        OneMember(c, root, now, source, caller.value, n);
      }
      forall a
        ensures a in AllowedAt(allowed, source) <==> a in ClientsOfMember(c.appBindings, caller.value, now)
      {
        GrantedClients(c, bound, source, caller.value, now, a);
      }
    }
  }

  lemma UnboundGrantsNothing(c: Config, root: PublicKey, now: u64, bound: map<MemberId, seq<EndpointId>>, e: EndpointId, a: VirtualAddr)
    requires ValidAt(c, root, now) && Lists(c.endpointBindings, bound) && MemberForEndpoint(c, e, now).None?
    ensures !Grants(c.appBindings, bound, e, a)
  {
    hide ValidAt, Lists, Bound, MemberForEndpoint;
    if Grants(c.appBindings, bound, e, a) {
      var j :| 0 <= j < |c.appBindings| && c.appBindings[j].Wire? && c.appBindings[j].value.payload.role.Client? && AddressOf(c.appBindings[j].value.payload) == a
             && c.appBindings[j].value.payload.subject in bound && e in bound[c.appBindings[j].value.payload.subject];
      BoundIsListed(c, bound, e, c.appBindings[j].value.payload.subject);
      ValidEndpointMember(c, root, now, e, c.appBindings[j].value.payload.subject);
      assert false;
    }
  }

  lemma LocalServes(c: Config, root: PublicKey, now: u64, local: EndpointId, own: set<VirtualAddr>, app: AppAddr)
    requires ValidAt(c, root, now) && ServerAddr(app) in own && LastBound(c.endpointBindings, local).Some?
    requires forall a :: a in own ==> HasAddress(c.appBindings, LastBound(c.endpointBindings, local).value, a)
    ensures MemberForEndpoint(c, local, now) == LastBound(c.endpointBindings, local)
    ensures ServesApp(c.appBindings, LastBound(c.endpointBindings, local).value, app, now)
  {
    hide ValidAt, MemberForEndpoint, LastBound;
    var m := LastBound(c.endpointBindings, local).value;
    LastBoundIsBound(c.endpointBindings, local);
    ValidEndpointMember(c, root, now, local, m);
    ValidAppBindings(c, root, now);
    assert HasAddress(c.appBindings, m, ServerAddr(app));
  }

  // ---- the stable endpoint of an address ----

  /** The binding gives its subject this address now. */
  predicate GivesNow(raw: Raw<AppBinding>, address: VirtualAddr, now: u64) {
    raw.Wire? && AddressOf(raw.value.payload) == address && now < raw.value.payload.expires
  }

  function SubjectsOf(raws: seq<Raw<AppBinding>>, address: VirtualAddr, now: u64): seq<MemberId> {
    if raws == [] then []
    else SubjectsOf(raws[..|raws| - 1], address, now) + if GivesNow(raws[|raws| - 1], address, now) then [raws[|raws| - 1].value.payload.subject] else []
  }

  function EndpointsNow(raws: seq<Raw<EndpointBinding>>, member: MemberId, now: u64): seq<EndpointId> {
    if raws == [] then []
    else
      var last := raws[|raws| - 1];
      EndpointsNow(raws[..|raws| - 1], member, now) +
      if last.Wire? && last.value.payload.memberId == member && now < last.value.payload.expires then [last.value.payload.endpoint] else []
  }

  /** `Vec::dedup`: drop repeats of the element just before. */
  function Dedup<T(==)>(s: seq<T>): seq<T> {
    if |s| <= 1 then s else (if s[0] == s[1] then [] else [s[0]]) + Dedup(s[1..])
  }

  lemma {:induction false} DedupToOne<T>(s: seq<T>)
    ensures |Dedup(s)| == 1 <==> s != [] && forall i :: 0 <= i < |s| ==> s[i] == s[0]
    ensures s != [] ==> |Dedup(s)| >= 1 && (|Dedup(s)| == 1 ==> Dedup(s)[0] == s[0])
  {
    if |s| > 1 {
      DedupToOne(s[1..]);
      assert forall i :: 1 <= i < |s| ==> s[i] == s[1..][i - 1];
      assert forall i :: 0 <= i < |s[1..]| ==> s[1..][i] == s[i + 1];
    }
  }

  /** `x` is the one value in the sequence. */
  predicate OnlyValue<T(==)>(s: seq<T>, x: T) {
    x in s && forall i :: 0 <= i < |s| ==> s[i] == x
  }

  lemma OnlySorted<T>(s: seq<T>, le: (T, T) -> bool, x: T)
    ensures OnlyValue(s, x) <==> OnlyValue(SortBy(s, le), x)
  {
    hide SortBy;
    var sorted := SortBy(s, le);
    SortMember(s, le, x);
    forall i | 0 <= i < |s|
      ensures s[i] in sorted
    {
      SortMember(s, le, s[i]);
    }
    forall i | 0 <= i < |sorted|
      ensures sorted[i] in s
    {
      SortMember(s, le, sorted[i]);
    }
  }

  /** Sort, deduplicate, insist on one element. */
  function TheOnly<T(==)>(s: seq<T>, le: (T, T) -> bool): Option<T> {
    var unique := Dedup(SortBy(s, le));
    if |unique| == 1 then Some(unique[0]) else None
  }

  /** This finds the value exactly when there is only one. */
  lemma TheOnlyFinds<T>(s: seq<T>, le: (T, T) -> bool, x: T)
    ensures TheOnly(s, le) == Some(x) <==> OnlyValue(s, x)
  {
    hide SortBy, Dedup;
    DedupToOne(SortBy(s, le));
    OnlySorted(s, le, x);
  }

  lemma {:induction false} SubjectListed(raws: seq<Raw<AppBinding>>, address: VirtualAddr, now: u64, i: nat)
    requires i < |raws| && GivesNow(raws[i], address, now)
    ensures raws[i].value.payload.subject in SubjectsOf(raws, address, now)
  {
    if i < |raws| - 1 {
      SubjectListed(raws[..|raws| - 1], address, now, i);
    }
  }

  predicate BoundNow(raw: Raw<EndpointBinding>, member: MemberId, endpoint: EndpointId, now: u64) {
    raw.Wire? && raw.value.payload.memberId == member && raw.value.payload.endpoint == endpoint && now < raw.value.payload.expires
  }

  lemma {:induction false} EndpointListed(raws: seq<Raw<EndpointBinding>>, member: MemberId, endpoint: EndpointId, now: u64, i: nat)
    requires i < |raws| && BoundNow(raws[i], member, endpoint, now)
    ensures endpoint in EndpointsNow(raws, member, now)
  {
    if i < |raws| - 1 {
      EndpointListed(raws[..|raws| - 1], member, endpoint, now, i);
    }
  }

  /** `configured_endpoint`: the address must have one subject, and that subject one endpoint. */
  method ConfiguredEndpoint(c: Config, address: VirtualAddr, now: u64, memberLe: (MemberId, MemberId) -> bool, endpointLe: (EndpointId, EndpointId) -> bool)
    returns (r: Result<EndpointId, DiscoveryError>)
    ensures r.Ok? ==> exists m :: UniqueSubject(c, address, now, m) && UniqueEndpoint(c, m, now, r.value)
    ensures r == Err(MalformedBinding) ==> !AllDecode(c.appBindings) || !AllDecode(c.endpointBindings)
    ensures r == Err(NotAuthorized) ==> forall m, e :: !(UniqueSubject(c, address, now, m) && UniqueEndpoint(c, m, now, e))
  {
    hide TheOnly, OnlyValue;
    var subjects: seq<MemberId> := [];
    for i := 0 to |c.appBindings|
      invariant subjects == SubjectsOf(c.appBindings[..i], address, now)
    {
      if c.appBindings[i].Malformed? {
        return Err(MalformedBinding);
      }
      assert c.appBindings[..i + 1][..i] == c.appBindings[..i];
      if GivesNow(c.appBindings[i], address, now) {
        subjects := subjects + [c.appBindings[i].value.payload.subject];
      }
    }
    assert c.appBindings[..|c.appBindings|] == c.appBindings;
    var member := TheOnly(subjects, memberLe);
    forall m
      ensures member == Some(m) <==> UniqueSubject(c, address, now, m)
    {
      TheOnlyFinds(subjects, memberLe, m);
    }
    if member.None? {
      return Err(NotAuthorized);
    }
    var endpoints: seq<EndpointId> := [];
    for i := 0 to |c.endpointBindings|
      invariant endpoints == EndpointsNow(c.endpointBindings[..i], member.value, now)
    {
      if c.endpointBindings[i].Malformed? {
        return Err(MalformedBinding);
      }
      assert c.endpointBindings[..i + 1][..i] == c.endpointBindings[..i];
      var p := c.endpointBindings[i].value.payload;
      if p.memberId == member.value && now < p.expires {
        endpoints := endpoints + [p.endpoint];
      }
    }
    assert c.endpointBindings[..|c.endpointBindings|] == c.endpointBindings;
    var endpoint := TheOnly(endpoints, endpointLe);
    forall e
      ensures endpoint == Some(e) <==> UniqueEndpoint(c, member.value, now, e)
    {
      TheOnlyFinds(endpoints, endpointLe, e);
    }
    return if endpoint.None? then Err(NotAuthorized) else Ok(endpoint.value);
  }

  /** The bindings in force give the address to this member and no other. */
  predicate UniqueSubject(c: Config, address: VirtualAddr, now: u64, m: MemberId) {
    OnlyValue(SubjectsOf(c.appBindings, address, now), m)
  }

  predicate UniqueEndpoint(c: Config, m: MemberId, now: u64, e: EndpointId) {
    OnlyValue(EndpointsNow(c.endpointBindings, m, now), e)
  }

  /** A binding in force gives the address to this member. */
  ghost predicate GivenNow(c: Config, address: VirtualAddr, now: u64, m: MemberId) {
    exists i :: 0 <= i < |c.appBindings| && c.appBindings[i].Wire?
             && var p := c.appBindings[i].value.payload;
                && p.subject == m && now < p.expires
                && address == if p.role.Server? then ServerAddr(p.app) else ClientAddr(p.app, p.role.device)
  }

  /** A binding in force gives the endpoint to this member. */
  ghost predicate HeldNow(c: Config, m: MemberId, now: u64, e: EndpointId) {
    exists i :: 0 <= i < |c.endpointBindings| && c.endpointBindings[i].Wire?
             && var p := c.endpointBindings[i].value.payload; p.memberId == m && p.endpoint == e && now < p.expires
  }

  lemma {:induction false} SubjectsInForce(raws: seq<Raw<AppBinding>>, address: VirtualAddr, now: u64, m: MemberId)
    requires m in SubjectsOf(raws, address, now)
    ensures exists i :: 0 <= i < |raws| && GivesNow(raws[i], address, now) && raws[i].value.payload.subject == m
  {
    var n := |raws| - 1;
    if GivesNow(raws[n], address, now) && raws[n].value.payload.subject == m {
    } else {
      SubjectsInForce(raws[..n], address, now, m);
      var i :| 0 <= i < n && GivesNow(raws[..n][i], address, now) && raws[..n][i].value.payload.subject == m;
      assert raws[i] == raws[..n][i];
    }
  }

  lemma {:induction false} EndpointsInForce(raws: seq<Raw<EndpointBinding>>, m: MemberId, now: u64, e: EndpointId)
    requires e in EndpointsNow(raws, m, now)
    ensures exists i :: 0 <= i < |raws| && BoundNow(raws[i], m, e, now)
  {
    var n := |raws| - 1;
    if !BoundNow(raws[n], m, e, now) {
      EndpointsInForce(raws[..n], m, now, e);
      var i :| 0 <= i < n && BoundNow(raws[..n][i], m, e, now);
      assert raws[i] == raws[..n][i];
    }
  }

  /** The subject that `configured_endpoint` settles on is the one member to whom a binding in force
      gives the address. */
  lemma SubjectIsTheOneGiven(c: Config, address: VirtualAddr, now: u64, m: MemberId)
    ensures UniqueSubject(c, address, now, m) <==> GivenNow(c, address, now, m) && forall n :: GivenNow(c, address, now, n) ==> n == m
  {
    var subjects := SubjectsOf(c.appBindings, address, now);
    forall n
      ensures n in subjects <==> GivenNow(c, address, now, n)
    {
      if n in subjects {
        SubjectsInForce(c.appBindings, address, now, n);
      }
      if GivenNow(c, address, now, n) {
        var i :| 0 <= i < |c.appBindings| && c.appBindings[i].Wire?
              && var p := c.appBindings[i].value.payload;
                 && p.subject == n && now < p.expires
                 && address == if p.role.Server? then ServerAddr(p.app) else ClientAddr(p.app, p.role.device);
        SubjectListed(c.appBindings, address, now, i);
      }
    }
    assert forall i :: 0 <= i < |subjects| ==> subjects[i] in subjects;
  }

  /** And the endpoint is the one that a binding in force gives that member. */
  lemma EndpointIsTheOneHeld(c: Config, m: MemberId, now: u64, e: EndpointId)
    ensures UniqueEndpoint(c, m, now, e) <==> HeldNow(c, m, now, e) && forall f :: HeldNow(c, m, now, f) ==> f == e
  {
    var endpoints := EndpointsNow(c.endpointBindings, m, now);
    forall f
      ensures f in endpoints <==> HeldNow(c, m, now, f)
    {
      if f in endpoints {
        EndpointsInForce(c.endpointBindings, m, now, f);
      }
      if HeldNow(c, m, now, f) {
        var i :| 0 <= i < |c.endpointBindings| && c.endpointBindings[i].Wire?
              && var p := c.endpointBindings[i].value.payload; p.memberId == m && p.endpoint == f && now < p.expires;
        EndpointListed(c.endpointBindings, m, f, now, i);
      }
    }
    assert forall i :: 0 <= i < |endpoints| ==> endpoints[i] in endpoints;
  }

  /** `authorize_endpoint_and_addr`: what a presence record has to satisfy for each address. */
  predicate PresenceAuthorized(c: Config, member: MemberId, endpoint: EndpointId, address: VirtualAddr, now: u64) {
    && (exists i :: 0 <= i < |c.endpointBindings| && BoundNow(c.endpointBindings[i], member, endpoint, now))
    && (exists i :: 0 <= i < |c.appBindings| && GivesNow(c.appBindings[i], address, now) && c.appBindings[i].value.payload.subject == member)
  }

  /** It demands that both bindings be in force, and nothing else. */
  lemma PresenceAuthorizedExactlyWhen(c: Config, member: MemberId, endpoint: EndpointId, address: VirtualAddr, now: u64)
    ensures PresenceAuthorized(c, member, endpoint, address, now) <==> HeldNow(c, member, now, endpoint) && GivenNow(c, address, now, member)
  {
    if HeldNow(c, member, now, endpoint) {
      var i :| 0 <= i < |c.endpointBindings| && c.endpointBindings[i].Wire?
            && var p := c.endpointBindings[i].value.payload; p.memberId == member && p.endpoint == endpoint && now < p.expires;
      assert BoundNow(c.endpointBindings[i], member, endpoint, now);
    }
    if GivenNow(c, address, now, member) {
      var i :| 0 <= i < |c.appBindings| && c.appBindings[i].Wire?
            && var p := c.appBindings[i].value.payload;
               && p.subject == member && now < p.expires
               && address == if p.role.Server? then ServerAddr(p.app) else ClientAddr(p.app, p.role.device);
      assert GivesNow(c.appBindings[i], address, now);
    }
  }

  /** When the snapshot resolves an address to an endpoint, any presence record accepted for that
      address under the same snapshot and clock names that endpoint, and its member. */
  lemma PresenceMatchesConfigured(c: Config, address: VirtualAddr, now: u64, m: MemberId, e: EndpointId, member: MemberId, endpoint: EndpointId)
    requires UniqueSubject(c, address, now, m) && UniqueEndpoint(c, m, now, e)
    requires PresenceAuthorized(c, member, endpoint, address, now)
    ensures member == m && endpoint == e
  {
    var i :| 0 <= i < |c.appBindings| && GivesNow(c.appBindings[i], address, now) && c.appBindings[i].value.payload.subject == member;
    SubjectListed(c.appBindings, address, now, i);
    var j :| 0 <= j < |c.endpointBindings| && BoundNow(c.endpointBindings[j], member, endpoint, now);
    EndpointListed(c.endpointBindings, member, endpoint, now, j);
  }
}
