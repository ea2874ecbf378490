/** The validator as the source runs it: one pass after another, each filling a map or a set,
    proved against the declarative meaning in `SnapshotValidation`. */
module Validator {
  import opened Prelude
  import opened Limits
  import opened Credentials
  import opened Configs
  import opened SnapshotValidation

  // ---- the maps agree with the lookups on every prefix ----

  ghost predicate AdminMap(m: map<KeyId, AdminPayload>, raws: seq<Raw<AdminCert>>) {
    forall id :: (id in m <==> FindAdmin(raws, id).Some?) && (id in m ==> FindAdmin(raws, id) == Some(m[id]))
  }

  ghost predicate MemberMap(m: map<MemberId, MemberPayload>, raws: seq<Raw<MemberCert>>) {
    forall id :: (id in m <==> FindMember(raws, id).Some?) && (id in m ==> FindMember(raws, id) == Some(m[id]))
  }

  ghost predicate AppMap(m: map<AppAddr, AppPayload>, raws: seq<Raw<AppRegistration>>) {
    forall id :: (id in m <==> FindApp(raws, id).Some?) && (id in m ==> FindApp(raws, id) == Some(m[id]))
  }

  lemma {:induction false} FindAdminAppend(raws: seq<Raw<AdminCert>>, last: Raw<AdminCert>, id: KeyId)
    ensures FindAdmin(raws + [last], id) ==
            if FindAdmin(raws, id).Some? then FindAdmin(raws, id)
            else if last.Wire? && last.value.payload.keyId == id then Some(last.value.payload) else None
  {
    if raws == [] {
      assert [] + [last] == [last];
    } else {
      FindAdminAppend(raws[1..], last, id);
      assert (raws + [last])[1..] == raws[1..] + [last];
    }
  }

  lemma {:induction false} FindMemberAppend(raws: seq<Raw<MemberCert>>, last: Raw<MemberCert>, id: MemberId)
    ensures FindMember(raws + [last], id) ==
            if FindMember(raws, id).Some? then FindMember(raws, id)
            else if last.Wire? && last.value.payload.memberId == id then Some(last.value.payload) else None
  {
    if raws == [] {
      assert [] + [last] == [last];
    } else {
      FindMemberAppend(raws[1..], last, id);
      assert (raws + [last])[1..] == raws[1..] + [last];
    }
  }

  lemma {:induction false} FindAppAppend(raws: seq<Raw<AppRegistration>>, last: Raw<AppRegistration>, id: AppAddr)
    ensures FindApp(raws + [last], id) ==
            if FindApp(raws, id).Some? then FindApp(raws, id)
            else if last.Wire? && last.value.payload.app == id then Some(last.value.payload) else None
  {
    if raws == [] {
      assert [] + [last] == [last];
    } else {
      FindAppAppend(raws[1..], last, id);
      assert (raws + [last])[1..] == raws[1..] + [last];
    }
  }

  // A new identifier extends a map and keeps the prefix free of duplicates; one that is already
  // a key is the duplicate the source reports.

  lemma {:induction false} AdminSeen(raws: seq<Raw<AdminCert>>, id: KeyId)
    ensures FindAdmin(raws, id).Some? <==> exists i :: 0 <= i < |raws| && raws[i].Wire? && raws[i].value.payload.keyId == id
  {
    if raws != [] {
      AdminSeen(raws[1..], id);
      assert forall i :: 1 <= i < |raws| ==> raws[i] == raws[1..][i - 1];
      assert forall i :: 0 <= i < |raws[1..]| ==> raws[1..][i] == raws[i + 1];
    }
  }

  lemma AdminExtend(m: map<KeyId, AdminPayload>, raws: seq<Raw<AdminCert>>, i: nat)
    requires i < |raws| && raws[i].Wire? && AdminMap(m, raws[..i])
    ensures var id := raws[i].value.payload.keyId;
            if id in m then !AdminsDistinct(raws)
            else AdminMap(m[id := raws[i].value.payload], raws[..i + 1])
                 && (AdminsDistinct(raws[..i]) ==> AdminsDistinct(raws[..i + 1]))
  {
    var id := raws[i].value.payload.keyId;
    AdminSeen(raws[..i], id);
    if id in m {
      var k :| 0 <= k < i && raws[..i][k].Wire? && raws[..i][k].value.payload.keyId == id;
      assert raws[k] == raws[..i][k];
    } else {
      assert raws[..i + 1] == raws[..i] + [raws[i]];
      forall other {
        FindAdminAppend(raws[..i], raws[i], other);
      }
    }
  }

  lemma {:induction false} MemberSeen(raws: seq<Raw<MemberCert>>, id: MemberId)
    ensures FindMember(raws, id).Some? <==> exists i :: 0 <= i < |raws| && raws[i].Wire? && raws[i].value.payload.memberId == id
  {
    if raws != [] {
      MemberSeen(raws[1..], id);
      assert forall i :: 1 <= i < |raws| ==> raws[i] == raws[1..][i - 1];
      assert forall i :: 0 <= i < |raws[1..]| ==> raws[1..][i] == raws[i + 1];
    }
  }

  lemma MemberExtend(m: map<MemberId, MemberPayload>, raws: seq<Raw<MemberCert>>, i: nat)
    requires i < |raws| && raws[i].Wire? && MemberMap(m, raws[..i])
    ensures var id := raws[i].value.payload.memberId;
            if id in m then !MembersDistinct(raws)
            else MemberMap(m[id := raws[i].value.payload], raws[..i + 1])
                 && (MembersDistinct(raws[..i]) ==> MembersDistinct(raws[..i + 1]))
  {
    var id := raws[i].value.payload.memberId;
    MemberSeen(raws[..i], id);
    if id in m {
      var k :| 0 <= k < i && raws[..i][k].Wire? && raws[..i][k].value.payload.memberId == id;
      assert raws[k] == raws[..i][k];
    } else {
      assert raws[..i + 1] == raws[..i] + [raws[i]];
      forall other {
        FindMemberAppend(raws[..i], raws[i], other);
      }
    }
  }

  lemma {:induction false} AppSeen(raws: seq<Raw<AppRegistration>>, id: AppAddr)
    ensures FindApp(raws, id).Some? <==> exists i :: 0 <= i < |raws| && raws[i].Wire? && raws[i].value.payload.app == id
  {
    if raws != [] {
      AppSeen(raws[1..], id);
      assert forall i :: 1 <= i < |raws| ==> raws[i] == raws[1..][i - 1];
      assert forall i :: 0 <= i < |raws[1..]| ==> raws[1..][i] == raws[i + 1];
    }
  }

  lemma AppExtend(m: map<AppAddr, AppPayload>, raws: seq<Raw<AppRegistration>>, i: nat)
    requires i < |raws| && raws[i].Wire? && AppMap(m, raws[..i])
    ensures var id := raws[i].value.payload.app;
            if id in m then !AppsDistinct(raws)
            else AppMap(m[id := raws[i].value.payload], raws[..i + 1])
                 && (AppsDistinct(raws[..i]) ==> AppsDistinct(raws[..i + 1]))
  {
    var id := raws[i].value.payload.app;
    AppSeen(raws[..i], id);
    if id in m {
      var k :| 0 <= k < i && raws[..i][k].Wire? && raws[..i][k].value.payload.app == id;
      assert raws[k] == raws[..i][k];
    } else {
      assert raws[..i + 1] == raws[..i] + [raws[i]];
      forall other {
        FindAppAppend(raws[..i], raws[i], other);
      }
    }
  }

  // ---- issuers ----

  /** A member certificate is checked against the root or against the administrator it names. */
  function MemberVerdict(c: Config, root: PublicKey, now: u64, admins: map<KeyId, AdminPayload>, cert: MemberCert)
    : Result<MemberPayload, SnapshotError>
  {
    var issuer := cert.payload.issuer;
    if issuer == RootKeyId(root) then FromCertificate(VerifyMember(cert, root, NetworkId(root), now, RevokedSet(c)))
    else if issuer !in admins then Err(UnknownAdmin)
    else FromCertificate(VerifyMemberWithAdmin(cert, admins[issuer], NetworkId(root), now, RevokedSet(c)))
  }

  function AppVerdict(root: PublicKey, admins: map<KeyId, AdminPayload>, registration: AppRegistration): Result<AppPayload, SnapshotError> {
    var issuer := registration.payload.issuer;
    if issuer == RootKeyId(root) then FromCertificate(VerifyApp(registration, root, NetworkId(root)))
    else if issuer !in admins then Err(UnknownAdmin)
    else FromCertificate(VerifyAppWithAdmin(registration, admins[issuer], NetworkId(root)))
  }

  function FromCertificate<T>(r: Result<T, CertificateError>): Result<T, SnapshotError> {
    match r
    case Ok(v) => Ok(v)
    case Err(e) => Err(Credential(e))
  }

  lemma VerdictsAgree(c: Config, root: PublicKey, now: u64, admins: map<KeyId, AdminPayload>)
    requires AdminMap(admins, c.adminKeys)
    ensures forall cert :: MemberVerdict(c, root, now, admins, cert) == Ok(cert.payload) <==> MemberOk(c, root, now, Wire(cert))
    ensures forall cert :: MemberVerdict(c, root, now, admins, cert).Ok? ==> MemberVerdict(c, root, now, admins, cert).value == cert.payload
    ensures forall app :: AppVerdict(root, admins, app) == Ok(app.payload) <==> AppOk(c, root, Wire(app))
    ensures forall app :: AppVerdict(root, admins, app).Ok? ==> AppVerdict(root, admins, app).value == app.payload
  {
  }

  // ---- shape ----

  method LengthsInBounds<T>(raws: seq<Raw<T>>) returns (ok: bool)
    ensures ok == CredentialLengths(raws)
  {
    for i := 0 to |raws|
      invariant forall k :: 0 <= k < i && raws[k].Malformed? ==> CredentialLengthOk(raws[k].length)
    {
      if raws[i].Malformed? && (raws[i].length == 0 || raws[i].length > 16384) {
        return false;
      }
    }
    return true;
  }

  /** `validate_shape`. */
  method CheckShape(c: Config) returns (r: Result<(), SnapshotError>)
    ensures r.Ok? <==> Shape(c)
    ensures r == Err(InvalidWindow) <==> c.expiresAt <= c.issuedAt
    ensures r == Err(PolicyLimit) ==> !PolicyOk(c.policy.maxMembers, c.policy.maxServices)
    ensures r.Err? ==> r.error in {InvalidWindow, InvalidLength, PolicyLimit}
  {
    if c.expiresAt <= c.issuedAt {
      return Err(InvalidWindow);
    }
    if |c.adminKeys| > 16 || |c.members| > 256 || |c.endpointBindings| > 256 || |c.revoked| > 4096 || |c.apps| > 256 || |c.appBindings| > 1024
       || |c.dns| > 1024 || |c.relays| > 64 || |c.presence| > 64 {
      return Err(InvalidLength);
    }
    var admins := LengthsInBounds(c.adminKeys);
    var members := LengthsInBounds(c.members);
    var endpoints := LengthsInBounds(c.endpointBindings);
    var apps := LengthsInBounds(c.apps);
    var bindings := LengthsInBounds(c.appBindings);
    if !admins || !members || !endpoints || !apps || !bindings {
      return Err(InvalidLength);
    }
    if c.policy.maxMembers == 0 || c.policy.maxMembers > 256 || c.policy.maxServices == 0 || c.policy.maxServices > 64 {
      return Err(PolicyLimit);
    }
    return Ok(());
  }

  method CheckUrl(url: string) returns (ok: bool)
    ensures ok == UrlOk(url)
  {
    if url == "" || |url| > 2048 {
      return false;
    }
    for i := 0 to |url|
      invariant forall k :: 0 <= k < i ==> url[k] < 128 as char
    {
      if url[i] as int > 127 {
        return false;
      }
    }
    return true;
  }

  // ---- the passes ----

  method CheckAdmins(c: Config, root: PublicKey, now: u64) returns (r: Result<map<KeyId, AdminPayload>, SnapshotError>)
    ensures r.Ok? <==> AdminsValid(c, root, now)
    ensures r.Ok? ==> AdminMap(r.value, c.adminKeys)
  {
    var admins: map<KeyId, AdminPayload> := map[];
    for i := 0 to |c.adminKeys|
      invariant forall k :: 0 <= k < i ==> AdminOk(c, root, now, c.adminKeys[k])
      invariant AdminsDistinct(c.adminKeys[..i])
      invariant AdminMap(admins, c.adminKeys[..i])
    {
      var raw := c.adminKeys[i];
      if raw.Malformed? {
        return Err(Credential(MalformedWire));
      }
      var verified := VerifyAdmin(raw.value, root, NetworkId(root), now, RevokedSet(c));
      if verified.Err? {
        assert !AdminOk(c, root, now, c.adminKeys[i]);
        return Err(Credential(verified.error));
      }
      var id := verified.value.keyId;
      AdminExtend(admins, c.adminKeys, i);
      if id in admins {
        return Err(DuplicateEntry("admin key"));
      }
      admins := admins[id := verified.value];
    }
    assert c.adminKeys[..|c.adminKeys|] == c.adminKeys;
    return Ok(admins);
  }

  method CheckMembers(c: Config, root: PublicKey, now: u64, admins: map<KeyId, AdminPayload>)
    returns (r: Result<map<MemberId, MemberPayload>, SnapshotError>)
    requires AdminMap(admins, c.adminKeys)
    ensures r.Ok? <==> MembersValid(c, root, now)
    ensures r.Ok? ==> MemberMap(r.value, c.members)
  {
    VerdictsAgree(c, root, now, admins);
    var members: map<MemberId, MemberPayload> := map[];
    for i := 0 to |c.members|
      invariant forall k :: 0 <= k < i ==> MemberOk(c, root, now, c.members[k])
      invariant MembersDistinct(c.members[..i])
      invariant MemberMap(members, c.members[..i])
      invariant |members| == i
    {
      var raw := c.members[i];
      if raw.Malformed? {
        return Err(Credential(MalformedWire));
      }
      var verified := MemberVerdict(c, root, now, admins, raw.value);
      if verified.Err? {
        assert !MemberOk(c, root, now, c.members[i]);
        return Err(verified.error);
      }
      var id := verified.value.memberId;
      MemberExtend(members, c.members, i);
      if id in members {
        return Err(DuplicateEntry("member"));
      }
      members := members[id := verified.value];
    }
    assert c.members[..|c.members|] == c.members;
    if |members| > c.policy.maxMembers {
      return Err(PolicyLimit);
    }
    return Ok(members);
  }

  method CheckEndpoints(c: Config, root: PublicKey, now: u64, members: map<MemberId, MemberPayload>)
    returns (r: Result<(), SnapshotError>)
    requires MemberMap(members, c.members)
    ensures r.Ok? <==> EndpointsValid(c, root, now)
  {
    hide VerifyEndpoint, FindMember;
    var endpoints: set<EndpointId> := {};
    for i := 0 to |c.endpointBindings|
      invariant forall k :: 0 <= k < i ==> EndpointOk(c, root, now, c.endpointBindings[k])
      invariant EndpointsDistinct(c.endpointBindings[..i])
      invariant forall e :: e in endpoints <==> exists k :: 0 <= k < i && c.endpointBindings[k].Wire? && c.endpointBindings[k].value.payload.endpoint == e
    {
      var raw := c.endpointBindings[i];
      if raw.Malformed? {
        return Err(Credential(MalformedWire));
      }
      var p := raw.value.payload;
      if p.memberId !in members {
        assert !EndpointOk(c, root, now, c.endpointBindings[i]);
        return Err(UnknownMember);
      }
      var verified := VerifyEndpoint(raw.value, members[p.memberId], NetworkId(root), p.endpoint, now);
      if verified.Err? {
        assert !EndpointOk(c, root, now, c.endpointBindings[i]);
        return Err(Credential(verified.error));
      }
      if p.endpoint in endpoints {
        return Err(DuplicateEntry("endpoint"));
      }
      endpoints := endpoints + {p.endpoint};
    }
    return Ok(());
  }

  method CheckApps(c: Config, root: PublicKey, admins: map<KeyId, AdminPayload>)
    returns (r: Result<map<AppAddr, AppPayload>, SnapshotError>)
    requires AdminMap(admins, c.adminKeys)
    ensures r.Ok? <==> AppsValid(c, root)
    ensures r.Ok? ==> AppMap(r.value, c.apps)
  {
    VerdictsAgree(c, root, 0, admins);
    var apps: map<AppAddr, AppPayload> := map[];
    for i := 0 to |c.apps|
      invariant forall k :: 0 <= k < i ==> AppOk(c, root, c.apps[k])
      invariant AppsDistinct(c.apps[..i])
      invariant AppMap(apps, c.apps[..i])
    {
      var raw := c.apps[i];
      if raw.Malformed? {
        return Err(Credential(MalformedWire));
      }
      var verified := AppVerdict(root, admins, raw.value);
      if verified.Err? {
        assert !AppOk(c, root, c.apps[i]);
        return Err(verified.error);
      }
      var id := verified.value.app;
      AppExtend(apps, c.apps, i);
      if id in apps {
        return Err(DuplicateEntry("application"));
      }
      apps := apps[id := verified.value];
    }
    assert c.apps[..|c.apps|] == c.apps;
    return Ok(apps);
  }

  method CheckAppBindings(c: Config, root: PublicKey, now: u64, apps: map<AppAddr, AppPayload>, members: map<MemberId, MemberPayload>)
    returns (r: Result<(), SnapshotError>)
    requires AppMap(apps, c.apps) && MemberMap(members, c.members)
    ensures r.Ok? <==> AppBindingsValid(c, root, now)
  {
    hide VerifyAppBinding, FindMember, FindApp;
    var subjects: set<(AppAddr, MemberId, bool)> := {};
    for i := 0 to |c.appBindings|
      invariant forall k :: 0 <= k < i ==> AppBindingOk(c, root, now, c.appBindings[k])
      invariant SubjectsDistinct(c.appBindings[..i])
      invariant forall s :: s in subjects <==> exists k :: 0 <= k < i && c.appBindings[k].Wire? && Subject(c.appBindings[k].value.payload) == s
    {
      var raw := c.appBindings[i];
      if raw.Malformed? {
        return Err(Credential(MalformedWire));
      }
      var p := raw.value.payload;
      if p.app !in apps {
        assert !AppBindingOk(c, root, now, c.appBindings[i]);
        return Err(UnknownApplication);
      }
      if p.subject !in members {
        assert !AppBindingOk(c, root, now, c.appBindings[i]);
        return Err(UnknownMember);
      }
      if |p.services| > c.policy.maxServices {
        assert !AppBindingOk(c, root, now, c.appBindings[i]);
        return Err(PolicyLimit);
      }
      var verified := VerifyAppBinding(raw.value, apps[p.app], members[p.subject], NetworkId(root), now);
      if verified.Err? {
        assert !AppBindingOk(c, root, now, c.appBindings[i]);
        return Err(Credential(verified.error));
      }
      if Subject(p) in subjects {
        return Err(DuplicateEntry("application binding"));
      }
      subjects := subjects + {Subject(p)};
    }
    return Ok(());
  }

  method CheckDns(c: Config, apps: map<AppAddr, AppPayload>) returns (r: Result<(), SnapshotError>)
    requires AppMap(apps, c.apps)
    ensures r.Ok? <==> DnsValid(c)
  {
    var names: set<VirtualName> := {};
    for i := 0 to |c.dns|
      invariant forall k :: 0 <= k < i ==> DnsOk(c, c.dns[k])
      invariant NamesDistinct(c.dns[..i])
      invariant forall n :: n in names <==> exists k :: 0 <= k < i && c.dns[k].name == n
    {
      var record := c.dns[i];
      if record.app !in apps {
        assert !DnsOk(c, c.dns[i]);
        return Err(UnknownApplication);
      }
      if record.expires <= c.issuedAt || record.expires > c.expiresAt {
        assert !DnsOk(c, c.dns[i]);
        return Err(InvalidWindow);
      }
      if record.name in names {
        return Err(DuplicateEntry("virtual DNS name"));
      }
      names := names + {record.name};
    }
    return Ok(());
  }

  method CheckDescriptors(c: Config, now: u64) returns (r: Result<(), SnapshotError>)
    ensures r.Ok? <==> DescriptorsValid(c, now)
  {
    var relays: set<EndpointId> := {};
    for i := 0 to |c.relays|
      invariant forall k :: 0 <= k < i ==> RelayOk(now, c.relays[k])
      invariant RelaysDistinct(c.relays[..i])
      invariant forall e :: e in relays <==> exists k :: 0 <= k < i && c.relays[k].endpoint == e
    {
      var relay := c.relays[i];
      var urlOk := CheckUrl(relay.url);
      if !urlOk {
        return Err(InvalidLength);
      }
      if now >= relay.expires {
        return Err(SnapshotExpired);
      }
      if relay.endpoint in relays {
        return Err(DuplicateEntry("relay endpoint"));
      }
      relays := relays + {relay.endpoint};
    }
    var services: set<EndpointId> := {};
    for i := 0 to |c.presence|
      invariant forall k :: 0 <= k < i ==> PresenceOk(now, c.presence[k])
      invariant PresenceDistinct(c.presence[..i])
      invariant forall e :: e in services <==> exists k :: 0 <= k < i && c.presence[k].endpoint == e
    {
      var service := c.presence[i];
      var urlOk := CheckUrl(service.url);
      if !urlOk {
        return Err(InvalidLength);
      }
      if now >= service.expires {
        return Err(SnapshotExpired);
      }
      if service.endpoint in services {
        return Err(DuplicateEntry("presence endpoint"));
      }
      services := services + {service.endpoint};
    }
    return Ok(());
  }

  /** `NetworkConfigV1::validate`. It succeeds exactly on the snapshots that are valid at `now`,
      returns the snapshot it was given, and reports the first of the outer checks that fails. */
  method Validate(c: Config, root: PublicKey, expected: NetworkId, now: u64) returns (r: Result<Config, SnapshotError>)
    ensures r.Ok? <==> expected == NetworkId(root) && ValidAt(c, root, now)
    ensures r.Ok? ==> r.value == c
    ensures Shape(c) && (c.network != expected || NetworkId(root) != expected) ==> r == Err(OtherNetwork)
    ensures Shape(c) && c.network == expected == NetworkId(root) && now < c.issuedAt ==> r == Err(NotValidYet)
    ensures Shape(c) && c.network == expected == NetworkId(root) && now >= c.expiresAt ==> r == Err(SnapshotExpired)
  {
    var _ :- CheckShape(c);
    if c.network != expected || NetworkId(root) != expected {
      return Err(OtherNetwork);
    }
    if now < c.issuedAt {
      return Err(NotValidYet);
    }
    if now >= c.expiresAt {
      return Err(SnapshotExpired);
    }
    DistinctCardinality(c.revoked);
    if |RevokedSet(c)| != |c.revoked| {
      return Err(DuplicateEntry("revoked serial"));
    }
    var admins :- CheckAdmins(c, root, now);
    var members :- CheckMembers(c, root, now, admins);
    var _ :- CheckEndpoints(c, root, now, members);
    var apps :- CheckApps(c, root, admins);
    var _ :- CheckAppBindings(c, root, now, apps, members);
    var _ :- CheckDns(c, apps);
    var _ :- CheckDescriptors(c, now);
    return Ok(c);
  }

  // ---- what a valid snapshot guarantees its readers ----

  /** Entry `m` is the one verified member with identifier `id`. */
  predicate OnlyMember(c: Config, root: PublicKey, now: u64, id: MemberId, m: int) {
    && 0 <= m < |c.members| && MemberOk(c, root, now, c.members[m]) && c.members[m].value.payload.memberId == id
    && forall k :: 0 <= k < |c.members| && c.members[k].Wire? && c.members[k].value.payload.memberId == id ==> k == m
  }

  /** Entry `a` is the one verified application with address `app`. */
  predicate OnlyApp(c: Config, root: PublicKey, app: AppAddr, a: int) {
    && 0 <= a < |c.apps| && AppOk(c, root, c.apps[a]) && c.apps[a].value.payload.app == app
    && forall k :: 0 <= k < |c.apps| && c.apps[k].Wire? && c.apps[k].value.payload.app == app ==> k == a
  }

  /** An endpoint binding of a valid snapshot names exactly one verified member. */
  lemma EndpointBindingResolves(c: Config, root: PublicKey, now: u64, i: nat)
    requires ValidAt(c, root, now) && i < |c.endpointBindings|
    ensures c.endpointBindings[i].Wire?
    ensures exists m :: OnlyMember(c, root, now, c.endpointBindings[i].value.payload.memberId, m)
  {
    assert EndpointOk(c, root, now, c.endpointBindings[i]);
    var m := FindMemberFinds(c.members, c.endpointBindings[i].value.payload.memberId);
    assert OnlyMember(c, root, now, c.endpointBindings[i].value.payload.memberId, m);
  }

  /** An application binding of a valid snapshot names exactly one verified member and exactly
      one verified application. */
  lemma AppBindingResolves(c: Config, root: PublicKey, now: u64, i: nat)
    requires ValidAt(c, root, now) && i < |c.appBindings|
    ensures c.appBindings[i].Wire?
    ensures exists m :: OnlyMember(c, root, now, c.appBindings[i].value.payload.subject, m)
    ensures exists a :: OnlyApp(c, root, c.appBindings[i].value.payload.app, a)
  {
    assert AppBindingOk(c, root, now, c.appBindings[i]);
    var m := FindMemberFinds(c.members, c.appBindings[i].value.payload.subject);
    assert OnlyMember(c, root, now, c.appBindings[i].value.payload.subject, m);
    var a := FindAppFinds(c.apps, c.appBindings[i].value.payload.app);
    assert OnlyApp(c, root, c.appBindings[i].value.payload.app, a);
  }

  /** `resolve_virtual_name`. */
  function ResolveName(records: seq<DnsRecord>, name: VirtualName, now: u64): Option<AppAddr> {
    if records == [] then None
    else if records[0].name == name && now < records[0].expires then Some(records[0].app)
    else ResolveName(records[1..], name, now)
  }

  lemma {:induction false} ResolveNameScans(records: seq<DnsRecord>, name: VirtualName, now: u64)
    requires NamesDistinct(records)
    ensures forall app :: ResolveName(records, name, now) == Some(app) <==>
              exists i :: 0 <= i < |records| && records[i].name == name && now < records[i].expires && records[i].app == app
  {
    if records != [] {
      ResolveNameScans(records[1..], name, now);
      assert forall i :: 1 <= i < |records| ==> records[i] == records[1..][i - 1];
      assert forall i :: 0 <= i < |records[1..]| ==> records[1..][i] == records[i + 1];
    }
  }

  /** In a valid snapshot a name has one target, the one of its unexpired record, and that target
      is a verified application. */
  lemma NameHasOneTarget(c: Config, root: PublicKey, validAt: u64, name: VirtualName, now: u64, app: AppAddr)
    requires ValidAt(c, root, validAt)
    ensures ResolveName(c.dns, name, now) == Some(app) <==>
            exists i :: 0 <= i < |c.dns| && c.dns[i].name == name && now < c.dns[i].expires && c.dns[i].app == app
    ensures ResolveName(c.dns, name, now) == Some(app) ==>
            exists a :: OnlyApp(c, root, app, a)
  {
    ResolveNameScans(c.dns, name, now);
    if ResolveName(c.dns, name, now) == Some(app) {
      var i :| 0 <= i < |c.dns| && c.dns[i].name == name && now < c.dns[i].expires && c.dns[i].app == app;
      assert DnsOk(c, c.dns[i]);
      var a := FindAppFinds(c.apps, app);
      assert OnlyApp(c, root, app, a);
    }
  }

  /** No certificate of a valid snapshot carries a revoked serial. */
  lemma NoRevokedSerial(c: Config, root: PublicKey, now: u64)
    requires ValidAt(c, root, now)
    ensures AllDecode(c.adminKeys) && AllDecode(c.members)
    ensures forall i :: 0 <= i < |c.adminKeys| ==> c.adminKeys[i].value.payload.serial !in c.revoked
    ensures forall i :: 0 <= i < |c.members| ==> c.members[i].value.payload.serial !in c.revoked
  {
    ValidityInterval(c, root, now);
  }
}
