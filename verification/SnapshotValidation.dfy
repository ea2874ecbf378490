/** `NetworkConfigV1::validate`: the multi-pass validator, its declarative meaning, and the
    interval of times at which a fixed snapshot is valid. */
module SnapshotValidation {
  import opened Prelude
  import opened Limits
  import opened Credentials
  import opened Configs

  datatype SnapshotError =
    | InvalidLength
    | InvalidWindow
    | OtherNetwork
    | NotValidYet
    | SnapshotExpired
    | DuplicateEntry(what: string)
    | UnknownMember
    | UnknownApplication
    | UnknownAdmin
    | PolicyLimit
    | Credential(error: CertificateError)

  // ---- shape ----

  predicate CredentialLengths<T>(raws: seq<Raw<T>>) {
    forall i :: 0 <= i < |raws| && raws[i].Malformed? ==> CredentialLengthOk(raws[i].length)
  }

  /** `validate_shape`. Decodable credentials always have a legal length. */
  predicate Shape(c: Config) {
    && c.issuedAt < c.expiresAt
    && CountsOk(|c.adminKeys|, |c.members|, |c.endpointBindings|, |c.revoked|, |c.apps|, |c.appBindings|, |c.dns|, |c.relays|, |c.presence|)
    && CredentialLengths(c.adminKeys)
    && CredentialLengths(c.members)
    && CredentialLengths(c.endpointBindings)
    && CredentialLengths(c.apps)
    && CredentialLengths(c.appBindings)
    && PolicyOk(c.policy.maxMembers, c.policy.maxServices)
  }

  predicate UrlOk(url: string) {
    0 < |url| <= MAX_URL && forall i :: 0 <= i < |url| ==> url[i] < 128 as char
  }

  // ---- lookups: what the validator's hash maps hold once filled ----

  function FindAdmin(raws: seq<Raw<AdminCert>>, id: KeyId): Option<AdminPayload> {
    if raws == [] then None
    else if raws[0].Wire? && raws[0].value.payload.keyId == id then Some(raws[0].value.payload)
    else FindAdmin(raws[1..], id)
  }

  function FindMember(raws: seq<Raw<MemberCert>>, id: MemberId): Option<MemberPayload> {
    if raws == [] then None
    else if raws[0].Wire? && raws[0].value.payload.memberId == id then Some(raws[0].value.payload)
    else FindMember(raws[1..], id)
  }

  function FindApp(raws: seq<Raw<AppRegistration>>, id: AppAddr): Option<AppPayload> {
    if raws == [] then None
    else if raws[0].Wire? && raws[0].value.payload.app == id then Some(raws[0].value.payload)
    else FindApp(raws[1..], id)
  }

  // ---- one entry of each pass ----

  predicate AdminOk(c: Config, root: PublicKey, now: u64, raw: Raw<AdminCert>) {
    raw.Wire? && VerifyAdmin(raw.value, root, NetworkId(root), now, RevokedSet(c)).Ok?
  }

  predicate MemberOk(c: Config, root: PublicKey, now: u64, raw: Raw<MemberCert>) {
    && raw.Wire?
    && var issuer := raw.value.payload.issuer;
       if issuer == RootKeyId(root) then
         VerifyMember(raw.value, root, NetworkId(root), now, RevokedSet(c)).Ok?
       else
         var admin := FindAdmin(c.adminKeys, issuer);
         admin.Some? && VerifyMemberWithAdmin(raw.value, admin.value, NetworkId(root), now, RevokedSet(c)).Ok?
  }

  predicate EndpointOk(c: Config, root: PublicKey, now: u64, raw: Raw<EndpointBinding>) {
    && raw.Wire?
    && var p := raw.value.payload;
       var member := FindMember(c.members, p.memberId);
       member.Some? && VerifyEndpoint(raw.value, member.value, NetworkId(root), p.endpoint, now).Ok?
  }

  predicate AppOk(c: Config, root: PublicKey, raw: Raw<AppRegistration>) {
    && raw.Wire?
    && var issuer := raw.value.payload.issuer;
       if issuer == RootKeyId(root) then
         VerifyApp(raw.value, root, NetworkId(root)).Ok?
       else
         var admin := FindAdmin(c.adminKeys, issuer);
         admin.Some? && VerifyAppWithAdmin(raw.value, admin.value, NetworkId(root)).Ok?
  }

  predicate AppBindingOk(c: Config, root: PublicKey, now: u64, raw: Raw<AppBinding>) {
    && raw.Wire?
    && var p := raw.value.payload;
       var app := FindApp(c.apps, p.app);
       var member := FindMember(c.members, p.subject);
       && app.Some? && member.Some?
       && |p.services| <= c.policy.maxServices
       && VerifyAppBinding(raw.value, app.value, member.value, NetworkId(root), now).Ok?
  }

  predicate DnsOk(c: Config, r: DnsRecord) {
    FindApp(c.apps, r.app).Some? && c.issuedAt < r.expires <= c.expiresAt
  }

  predicate RelayOk(now: u64, r: Relay) {
    UrlOk(r.url) && now < r.expires
  }

  predicate PresenceOk(now: u64, p: PresenceService) {
    UrlOk(p.url) && now < p.expires
  }

  // ---- duplicates ----

  predicate AdminsDistinct(raws: seq<Raw<AdminCert>>) {
    forall i, j :: 0 <= i < j < |raws| && raws[i].Wire? && raws[j].Wire? ==> raws[i].value.payload.keyId != raws[j].value.payload.keyId
  }

  predicate MembersDistinct(raws: seq<Raw<MemberCert>>) {
    forall i, j :: 0 <= i < j < |raws| && raws[i].Wire? && raws[j].Wire? ==> raws[i].value.payload.memberId != raws[j].value.payload.memberId
  }

  predicate EndpointsDistinct(raws: seq<Raw<EndpointBinding>>) {
    forall i, j :: 0 <= i < j < |raws| && raws[i].Wire? && raws[j].Wire? ==> raws[i].value.payload.endpoint != raws[j].value.payload.endpoint
  }

  predicate AppsDistinct(raws: seq<Raw<AppRegistration>>) {
    forall i, j :: 0 <= i < j < |raws| && raws[i].Wire? && raws[j].Wire? ==> raws[i].value.payload.app != raws[j].value.payload.app
  }

  /** The key of the validator's duplicate check: application, subject, and role without device. */
  function Subject(p: AppBindingPayload): (AppAddr, MemberId, bool) {
    (p.app, p.subject, p.role.Server?)
  }

  predicate SubjectsDistinct(raws: seq<Raw<AppBinding>>) {
    forall i, j :: 0 <= i < j < |raws| && raws[i].Wire? && raws[j].Wire? ==> Subject(raws[i].value.payload) != Subject(raws[j].value.payload)
  }

  predicate NamesDistinct(records: seq<DnsRecord>) {
    forall i, j :: 0 <= i < j < |records| ==> records[i].name != records[j].name
  }

  predicate RelaysDistinct(relays: seq<Relay>) {
    forall i, j :: 0 <= i < j < |relays| ==> relays[i].endpoint != relays[j].endpoint
  }

  predicate PresenceDistinct(services: seq<PresenceService>) {
    forall i, j :: 0 <= i < j < |services| ==> services[i].endpoint != services[j].endpoint
  }

  // ---- the meaning of a successful validation ----

  predicate AdminsValid(c: Config, root: PublicKey, now: u64) {
    (forall i :: 0 <= i < |c.adminKeys| ==> AdminOk(c, root, now, c.adminKeys[i])) && AdminsDistinct(c.adminKeys)
  }

  predicate MembersValid(c: Config, root: PublicKey, now: u64) {
    && (forall i :: 0 <= i < |c.members| ==> MemberOk(c, root, now, c.members[i]))
    && MembersDistinct(c.members)
    && |c.members| <= c.policy.maxMembers
  }

  predicate EndpointsValid(c: Config, root: PublicKey, now: u64) {
    (forall i :: 0 <= i < |c.endpointBindings| ==> EndpointOk(c, root, now, c.endpointBindings[i])) && EndpointsDistinct(c.endpointBindings)
  }

  predicate AppsValid(c: Config, root: PublicKey) {
    (forall i :: 0 <= i < |c.apps| ==> AppOk(c, root, c.apps[i])) && AppsDistinct(c.apps)
  }

  predicate AppBindingsValid(c: Config, root: PublicKey, now: u64) {
    (forall i :: 0 <= i < |c.appBindings| ==> AppBindingOk(c, root, now, c.appBindings[i])) && SubjectsDistinct(c.appBindings)
  }

  predicate DnsValid(c: Config) {
    (forall i :: 0 <= i < |c.dns| ==> DnsOk(c, c.dns[i])) && NamesDistinct(c.dns)
  }

  predicate DescriptorsValid(c: Config, now: u64) {
    && (forall i :: 0 <= i < |c.relays| ==> RelayOk(now, c.relays[i]))
    && RelaysDistinct(c.relays)
    && (forall i :: 0 <= i < |c.presence| ==> PresenceOk(now, c.presence[i]))
    && PresenceDistinct(c.presence)
  }

  /** The snapshot validates under `root` at time `now`. */
  predicate ValidAt(c: Config, root: PublicKey, now: u64) {
    && Shape(c)
    && c.network == NetworkId(root)
    && c.issuedAt <= now < c.expiresAt
    && Distinct(c.revoked)
    && AdminsValid(c, root, now)
    && MembersValid(c, root, now)
    && EndpointsValid(c, root, now)
    && AppsValid(c, root)
    && AppBindingsValid(c, root, now)
    && DnsValid(c)
    && DescriptorsValid(c, now)
  }

  /** The passes over administrators, members and endpoints look at nothing else. */
  lemma SamePasses(c: Config, d: Config, root: PublicKey, now: u64)
    requires c.adminKeys == d.adminKeys && c.members == d.members && c.endpointBindings == d.endpointBindings && c.revoked == d.revoked && c.policy == d.policy
    ensures AdminsValid(c, root, now) == AdminsValid(d, root, now)
    ensures MembersValid(c, root, now) == MembersValid(d, root, now)
    ensures EndpointsValid(c, root, now) == EndpointsValid(d, root, now)
  {
    hide VerifyAdmin, VerifyMember, VerifyMemberWithAdmin, VerifyEndpoint, FindAdmin, FindMember;
    assert RevokedSet(c) == RevokedSet(d);
    assert forall raw :: AdminOk(c, root, now, raw) == AdminOk(d, root, now, raw);
    assert forall raw :: MemberOk(c, root, now, raw) == MemberOk(d, root, now, raw);
    assert forall raw :: EndpointOk(c, root, now, raw) == EndpointOk(d, root, now, raw);
  }

  // ---- lookup lemmas ----

  lemma {:induction false} FindMemberFinds(raws: seq<Raw<MemberCert>>, id: MemberId) returns (i: nat)
    requires FindMember(raws, id).Some?
    ensures i < |raws| && raws[i].Wire? && raws[i].value.payload == FindMember(raws, id).value
    ensures raws[i].value.payload.memberId == id
  {
    if raws[0].Wire? && raws[0].value.payload.memberId == id {
      i := 0;
    } else {
      i := FindMemberFinds(raws[1..], id);
      i := i + 1;
    }
  }

  lemma {:induction false} FindAdminFinds(raws: seq<Raw<AdminCert>>, id: KeyId) returns (i: nat)
    requires FindAdmin(raws, id).Some?
    ensures i < |raws| && raws[i].Wire? && raws[i].value.payload == FindAdmin(raws, id).value
    ensures raws[i].value.payload.keyId == id
  {
    if raws[0].Wire? && raws[0].value.payload.keyId == id {
      i := 0;
    } else {
      i := FindAdminFinds(raws[1..], id);
      i := i + 1;
    }
  }

  lemma {:induction false} FindAppFinds(raws: seq<Raw<AppRegistration>>, id: AppAddr) returns (i: nat)
    requires FindApp(raws, id).Some?
    ensures i < |raws| && raws[i].Wire? && raws[i].value.payload == FindApp(raws, id).value
    ensures raws[i].value.payload.app == id
  {
    if raws[0].Wire? && raws[0].value.payload.app == id {
      i := 0;
    } else {
      i := FindAppFinds(raws[1..], id);
      i := i + 1;
    }
  }

  // ---- time ----

  // Everything each pass checks besides the clock.

  predicate AdminTimeless(cert: AdminCert, root: PublicKey, revoked: set<u64>) {
    var p := cert.payload;
    && p.network == NetworkId(root) && p.issuer == RootKeyId(root) && p.keyId == AdminKeyId(p.publicKey)
    && p.serial !in revoked && Verifies(root, p, cert.signature) && p.publicKey.wellFormed
  }

  predicate MemberTimeless(c: Config, root: PublicKey, cert: MemberCert) {
    var p := cert.payload;
    && p.network == NetworkId(root) && p.memberId == MemberId(p.network, p.signingKey)
    && p.serial !in RevokedSet(c)
    && if p.issuer == RootKeyId(root) then Verifies(root, p, cert.signature)
       else
         var admin := FindAdmin(c.adminKeys, p.issuer);
         && admin.Some? && admin.value.network == NetworkId(root)
         && PERMISSION_ISSUE_MEMBER in admin.value.permissions
         && p.issuer == admin.value.keyId
         && admin.value.notBefore <= p.notBefore && p.expires <= admin.value.expires
         && Verifies(admin.value.publicKey, p, cert.signature)
  }

  predicate EndpointTimeless(c: Config, root: PublicKey, binding: EndpointBinding) {
    var p := binding.payload;
    var member := FindMember(c.members, p.memberId);
    && p.network == NetworkId(root)
    && member.Some? && member.value.network == NetworkId(root) && member.value.memberId == p.memberId
    && member.value.signingKey.wellFormed && Verifies(member.value.signingKey, p, binding.signature)
  }

  predicate AppBindingTimeless(c: Config, root: PublicKey, binding: AppBinding) {
    var p := binding.payload;
    var app := FindApp(c.apps, p.app);
    var member := FindMember(c.members, p.subject);
    && p.network == NetworkId(root)
    && app.Some? && app.value.network == NetworkId(root) && app.value.app == p.app
    && member.Some? && member.value.network == NetworkId(root) && member.value.memberId == p.subject
    && |p.services| <= c.policy.maxServices
    && app.value.rootKey.wellFormed && Verifies(app.value.rootKey, p, binding.signature)
  }

  predicate AdminsTimeless(c: Config, root: PublicKey) {
    && (forall i :: 0 <= i < |c.adminKeys| ==> c.adminKeys[i].Wire? && AdminTimeless(c.adminKeys[i].value, root, RevokedSet(c)))
    && AdminsDistinct(c.adminKeys)
  }

  predicate MembersTimeless(c: Config, root: PublicKey) {
    && (forall i :: 0 <= i < |c.members| ==> c.members[i].Wire? && MemberTimeless(c, root, c.members[i].value))
    && MembersDistinct(c.members) && |c.members| <= c.policy.maxMembers
  }

  predicate EndpointsTimeless(c: Config, root: PublicKey) {
    && (forall i :: 0 <= i < |c.endpointBindings| ==> c.endpointBindings[i].Wire? && EndpointTimeless(c, root, c.endpointBindings[i].value))
    && EndpointsDistinct(c.endpointBindings)
  }

  predicate AppBindingsTimeless(c: Config, root: PublicKey) {
    && (forall i :: 0 <= i < |c.appBindings| ==> c.appBindings[i].Wire? && AppBindingTimeless(c, root, c.appBindings[i].value))
    && SubjectsDistinct(c.appBindings)
  }

  predicate DescriptorsTimeless(c: Config) {
    && (forall i :: 0 <= i < |c.relays| ==> UrlOk(c.relays[i].url)) && RelaysDistinct(c.relays)
    && (forall i :: 0 <= i < |c.presence| ==> UrlOk(c.presence[i].url)) && PresenceDistinct(c.presence)
  }

  /** The part of validity that does not look at the clock. */
  predicate ValidIgnoringTime(c: Config, root: PublicKey) {
    && Shape(c)
    && c.network == NetworkId(root)
    && Distinct(c.revoked)
    && AdminsTimeless(c, root)
    && MembersTimeless(c, root)
    && EndpointsTimeless(c, root)
    && AppsValid(c, root)
    && AppBindingsTimeless(c, root)
    && DnsValid(c)
    && DescriptorsTimeless(c)
  }

  function MaxOf(s: seq<u64>): u64 {
    if s == [] then 0 else Max(s[0], MaxOf(s[1..]))
  }

  function MinOf(s: seq<u64>): u64 {
    if s == [] then U64_MAX else Min(s[0], MinOf(s[1..]))
  }

  lemma {:induction false} MaxOfBounds(s: seq<u64>, x: u64)
    ensures MaxOf(s) <= x <==> forall i :: 0 <= i < |s| ==> s[i] <= x
  {
    if s != [] {
      MaxOfBounds(s[1..], x);
      assert forall i :: 1 <= i < |s| ==> s[i] == s[1..][i - 1];
      assert forall i :: 0 <= i < |s[1..]| ==> s[1..][i] == s[i + 1];
    }
  }

  lemma {:induction false} MinOfBounds(s: seq<u64>, x: u64)
    requires x < U64_MAX
    ensures x < MinOf(s) <==> forall i :: 0 <= i < |s| ==> x < s[i]
  {
    if s != [] {
      MinOfBounds(s[1..], x);
      assert forall i :: 1 <= i < |s| ==> s[i] == s[1..][i - 1];
      assert forall i :: 0 <= i < |s[1..]| ==> s[1..][i] == s[i + 1];
    }
  }

  function AdminStarts(c: Config): seq<u64> {
    seq(|c.adminKeys|, i requires 0 <= i < |c.adminKeys| => if c.adminKeys[i].Wire? then c.adminKeys[i].value.payload.notBefore else 0)
  }

  function MemberStarts(c: Config): seq<u64> {
    seq(|c.members|, i requires 0 <= i < |c.members| => if c.members[i].Wire? then c.members[i].value.payload.notBefore else 0)
  }

  function AdminEnds(c: Config): seq<u64> {
    seq(|c.adminKeys|, i requires 0 <= i < |c.adminKeys| => if c.adminKeys[i].Wire? then c.adminKeys[i].value.payload.expires else 0)
  }

  function MemberEnds(c: Config): seq<u64> {
    seq(|c.members|, i requires 0 <= i < |c.members| => if c.members[i].Wire? then c.members[i].value.payload.expires else 0)
  }

  function EndpointEnds(c: Config): seq<u64> {
    seq(|c.endpointBindings|, i requires 0 <= i < |c.endpointBindings| => if c.endpointBindings[i].Wire? then c.endpointBindings[i].value.payload.expires else 0)
  }

  function AppBindingEnds(c: Config): seq<u64> {
    seq(|c.appBindings|, i requires 0 <= i < |c.appBindings| => if c.appBindings[i].Wire? then c.appBindings[i].value.payload.expires else 0)
  }

  function RelayEnds(c: Config): seq<u64> {
    seq(|c.relays|, i requires 0 <= i < |c.relays| => c.relays[i].expires)
  }

  function PresenceEnds(c: Config): seq<u64> {
    seq(|c.presence|, i requires 0 <= i < |c.presence| => c.presence[i].expires)
  }

  /** The latest start of the snapshot, its administrators and its members. */
  function ValidFrom(c: Config): u64 {
    Max(c.issuedAt, Max(MaxOf(AdminStarts(c)), MaxOf(MemberStarts(c))))
  }

  /** The earliest expiry of the snapshot and everything in it except its DNS records. */
  function ValidUntil(c: Config): u64 {
    Min(c.expiresAt,
        Min(Min(MinOf(AdminEnds(c)), MinOf(MemberEnds(c))),
            Min(Min(MinOf(EndpointEnds(c)), MinOf(AppBindingEnds(c))),
                Min(MinOf(RelayEnds(c)), MinOf(PresenceEnds(c))))))
  }

  lemma AdminAtTime(c: Config, root: PublicKey, now: u64, i: nat)
    requires i < |c.adminKeys|
    ensures AdminOk(c, root, now, c.adminKeys[i]) <==>
            && c.adminKeys[i].Wire? && AdminTimeless(c.adminKeys[i].value, root, RevokedSet(c))
            && AdminStarts(c)[i] <= now < AdminEnds(c)[i]
  {
  }

  lemma AdminsAtTime(c: Config, root: PublicKey, now: u64)
    requires now < U64_MAX
    ensures AdminsValid(c, root, now) <==> AdminsTimeless(c, root) && MaxOf(AdminStarts(c)) <= now < MinOf(AdminEnds(c))
  {
    hide AdminOk, AdminTimeless, MaxOf, MinOf, AdminsDistinct;
    MaxOfBounds(AdminStarts(c), now);
    MinOfBounds(AdminEnds(c), now);
    forall i | 0 <= i < |c.adminKeys|
      ensures AdminOk(c, root, now, c.adminKeys[i]) <==>
              && c.adminKeys[i].Wire? && AdminTimeless(c.adminKeys[i].value, root, RevokedSet(c))
              && AdminStarts(c)[i] <= now < AdminEnds(c)[i]
    {
      AdminAtTime(c, root, now, i);
    }
  }

  lemma MemberAtTime(c: Config, root: PublicKey, now: u64, i: nat)
    requires i < |c.members|
    ensures MemberOk(c, root, now, c.members[i]) <==>
            c.members[i].Wire? && MemberTimeless(c, root, c.members[i].value) && MemberStarts(c)[i] <= now < MemberEnds(c)[i]
  {
    hide FindAdmin;
  }

  lemma MembersAtTime(c: Config, root: PublicKey, now: u64)
    requires now < U64_MAX
    ensures MembersValid(c, root, now) <==> MembersTimeless(c, root) && MaxOf(MemberStarts(c)) <= now < MinOf(MemberEnds(c))
  {
    hide MemberOk, MemberTimeless, MaxOf, MinOf, MembersDistinct;
    MaxOfBounds(MemberStarts(c), now);
    MinOfBounds(MemberEnds(c), now);
    forall i | 0 <= i < |c.members|
      ensures MemberOk(c, root, now, c.members[i]) <==>
              c.members[i].Wire? && MemberTimeless(c, root, c.members[i].value) && MemberStarts(c)[i] <= now < MemberEnds(c)[i]
    {
      MemberAtTime(c, root, now, i);
    }
  }

  lemma EndpointAtTime(c: Config, root: PublicKey, now: u64, i: nat)
    requires i < |c.endpointBindings|
    ensures EndpointOk(c, root, now, c.endpointBindings[i]) <==>
            c.endpointBindings[i].Wire? && EndpointTimeless(c, root, c.endpointBindings[i].value) && now < EndpointEnds(c)[i]
  {
    hide FindMember;
  }

  lemma EndpointsAtTime(c: Config, root: PublicKey, now: u64)
    requires now < U64_MAX
    ensures EndpointsValid(c, root, now) <==> EndpointsTimeless(c, root) && now < MinOf(EndpointEnds(c))
  {
    hide EndpointOk, EndpointTimeless, MinOf, EndpointsDistinct;
    MinOfBounds(EndpointEnds(c), now);
    forall i | 0 <= i < |c.endpointBindings|
      ensures EndpointOk(c, root, now, c.endpointBindings[i]) <==>
              c.endpointBindings[i].Wire? && EndpointTimeless(c, root, c.endpointBindings[i].value) && now < EndpointEnds(c)[i]
    {
      EndpointAtTime(c, root, now, i);
    }
  }

  lemma AppBindingAtTime(c: Config, root: PublicKey, now: u64, i: nat)
    requires i < |c.appBindings|
    ensures AppBindingOk(c, root, now, c.appBindings[i]) <==>
            c.appBindings[i].Wire? && AppBindingTimeless(c, root, c.appBindings[i].value) && now < AppBindingEnds(c)[i]
  {
    hide FindMember, FindApp;
  }

  lemma AppBindingsAtTime(c: Config, root: PublicKey, now: u64)
    requires now < U64_MAX
    ensures AppBindingsValid(c, root, now) <==> AppBindingsTimeless(c, root) && now < MinOf(AppBindingEnds(c))
  {
    hide AppBindingOk, AppBindingTimeless, MinOf, SubjectsDistinct;
    MinOfBounds(AppBindingEnds(c), now);
    forall i | 0 <= i < |c.appBindings|
      ensures AppBindingOk(c, root, now, c.appBindings[i]) <==>
              c.appBindings[i].Wire? && AppBindingTimeless(c, root, c.appBindings[i].value) && now < AppBindingEnds(c)[i]
    {
      AppBindingAtTime(c, root, now, i);
    }
  }

  lemma DescriptorsAtTime(c: Config, now: u64)
    requires now < U64_MAX
    ensures DescriptorsValid(c, now) <==> DescriptorsTimeless(c) && now < MinOf(RelayEnds(c)) && now < MinOf(PresenceEnds(c))
  {
    MinOfBounds(RelayEnds(c), now);
    MinOfBounds(PresenceEnds(c), now);
    assert forall i :: 0 <= i < |c.relays| ==> (RelayOk(now, c.relays[i]) <==> UrlOk(c.relays[i].url) && now < RelayEnds(c)[i]);
    assert forall i :: 0 <= i < |c.presence| ==> (PresenceOk(now, c.presence[i]) <==> UrlOk(c.presence[i].url) && now < PresenceEnds(c)[i]);
  }

  /** A snapshot is valid at exactly the times of one interval, or at no time at all. */
  lemma ValidityInterval(c: Config, root: PublicKey, now: u64)
    ensures ValidAt(c, root, now) <==> ValidIgnoringTime(c, root) && ValidFrom(c) <= now < ValidUntil(c)
  {
    hide Shape, AdminsValid, AdminsTimeless, MembersValid, MembersTimeless, EndpointsValid, EndpointsTimeless, AppsValid,
         AppBindingsValid, AppBindingsTimeless, DnsValid, DescriptorsValid, DescriptorsTimeless, MaxOf, MinOf,
         AdminStarts, AdminEnds, MemberStarts, MemberEnds, EndpointEnds, AppBindingEnds, RelayEnds, PresenceEnds;
    if now < U64_MAX {
      AdminsAtTime(c, root, now);
      MembersAtTime(c, root, now);
      EndpointsAtTime(c, root, now);
      AppBindingsAtTime(c, root, now);
      DescriptorsAtTime(c, now);
    }
  }
}
