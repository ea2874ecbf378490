/** The binary snapshot codec (`NetworkConfigV1::to_bytes` and `from_bytes`): two versions are read,
    the second is written. */
module SnapshotCodec {
  import opened Prelude
  import opened Limits
  import opened Wire
  import opened Formats

  // "WVRSNP", a zero byte, and the version
  const MAGIC_V1: Bytes := [87, 86, 82, 83, 78, 80, 0, 1]
  const MAGIC_V2: Bytes := [87, 86, 82, 83, 78, 80, 0, 2]


  // ---- the data, before any credential is decoded ----

  datatype DnsRow = DnsRow(name: Bytes, app: Bytes, expires: nat)
  datatype RelayRow = RelayRow(endpoint: Bytes, url: Bytes, roles: nat, expires: nat)
  datatype PresenceRow = PresenceRow(endpoint: Bytes, url: Bytes, expires: nat)

  /** Everything before the DNS zone. */
  datatype Front = Front(
    network: Bytes, epoch: nat, revision: nat, previous: Bytes, issuedAt: nat, expiresAt: nat,
    adminKeys: seq<Bytes>, members: seq<Bytes>, endpointBindings: seq<Bytes>, revoked: seq<nat>, apps: seq<Bytes>, appBindings: seq<Bytes>)

  /** Everything after it. */
  datatype Back = Back(relays: seq<RelayRow>, presence: seq<PresenceRow>, secrets: (Bytes, Bytes, Bytes, Bytes), flags: nat, maxMembers: nat, maxServices: nat)

  datatype Snapshot = Snapshot(front: Front, dns: seq<DnsRow>, back: Back)

  // ---- field formats ----

  function Ascii(b: Bytes): bool {
    forall i :: 0 <= i < |b| ==> b[i] < 128
  }

  function Url(): Format<Bytes> {
    Only(Blob(2, 1, MAX_URL), Ascii)
  }

  function Credentials(maximum: nat): Format<seq<Bytes>> {
    Listed(Blob(2, 1, MAX_CREDENTIAL_BYTES), maximum)
  }

  /** The labels of a name, split at its dots. */
  function Labels(b: Bytes): (labels: seq<Bytes>)
    ensures |labels| > 0
  {
    if b == [] then [[]]
    else
      var others := Labels(b[1..]);
      if b[0] == 46 then [[]] + others else [[b[0]] + others[0]] + others[1..]
  }

  predicate LabelOk(l: Bytes) {
    && 0 < |l| <= 63 && l[0] != 45 && l[|l| - 1] != 45
    && forall i :: 0 <= i < |l| ==> 97 <= l[i] <= 122 || 48 <= l[i] <= 57 || l[i] == 45
  }

  const VIRTUAL: Bytes := [118, 105, 114, 116, 117, 97, 108]

  /** A lower-case name under the reserved suffix. */
  predicate NameOk(b: Bytes) {
    var labels := Labels(b);
    && 0 < |b| <= 253 && |labels| >= 2 && labels[|labels| - 1] == VIRTUAL
    && forall i :: 0 <= i < |labels| ==> LabelOk(labels[i])
  }

  function DnsFormat(): Format<DnsRow> {
    As(Pair(Only(Url(), NameOk), Pair(Fixed(32), UInt(8))),
       (t: (Bytes, (Bytes, nat))) => DnsRow(t.0, t.1.0, t.1.1),
       (r: DnsRow) => (r.name, (r.app, r.expires)))
  }

  function RelayFormat(): Format<RelayRow> {
    As(Pair(Fixed(32), Pair(Url(), Pair(UInt(4), UInt(8)))),
       (t: (Bytes, (Bytes, (nat, nat)))) => RelayRow(t.0, t.1.0, t.1.1.0, t.1.1.1),
       (r: RelayRow) => (r.endpoint, (r.url, (r.roles, r.expires))))
  }

  function PresenceFormat(): Format<PresenceRow> {
    As(Pair(Fixed(32), Pair(Url(), UInt(8))),
       (t: (Bytes, (Bytes, nat))) => PresenceRow(t.0, t.1.0, t.1.1),
       (r: PresenceRow) => (r.endpoint, (r.url, r.expires)))
  }

  type HeaderTuple = (Bytes, (nat, (nat, (Bytes, (nat, nat)))))
  type ListsTuple = (seq<Bytes>, (seq<Bytes>, (seq<Bytes>, (seq<nat>, (seq<Bytes>, seq<Bytes>)))))

  function HeaderFormat(): Format<HeaderTuple> {
    Pair(Fixed(32), Pair(UInt(8), Pair(UInt(8), Pair(Fixed(32), Pair(UInt(8), UInt(8))))))
  }

  function ListsFormat(): Format<ListsTuple> {
    Pair(Credentials(MAX_ADMINS), Pair(Credentials(MAX_MEMBERS), Pair(Credentials(MAX_MEMBERS),
      Pair(Listed(UInt(8), MAX_REVOKED), Pair(Credentials(MAX_APPS), Credentials(MAX_BINDINGS))))))
  }

  function FrontFormat(): Format<Front> {
    As(Pair(HeaderFormat(), ListsFormat()),
       (t: (HeaderTuple, ListsTuple)) =>
         Front(t.0.0, t.0.1.0, t.0.1.1.0, t.0.1.1.1.0, t.0.1.1.1.1.0, t.0.1.1.1.1.1,
               t.1.0, t.1.1.0, t.1.1.1.0, t.1.1.1.1.0, t.1.1.1.1.1.0, t.1.1.1.1.1.1),
       (f: Front) =>
         ((f.network, (f.epoch, (f.revision, (f.previous, (f.issuedAt, f.expiresAt))))),
          (f.adminKeys, (f.members, (f.endpointBindings, (f.revoked, (f.apps, f.appBindings)))))))
  }

  type SecretsTuple = (Bytes, (Bytes, (Bytes, Bytes)))
  type PolicyTuple = (nat, (nat, nat))
  type BackTuple = (seq<RelayRow>, (seq<PresenceRow>, (SecretsTuple, PolicyTuple)))

  function SecretsFormat(): Format<SecretsTuple> {
    Pair(Fixed(32), Pair(Fixed(32), Pair(Fixed(32), Fixed(32))))
  }

  function PolicyFormat(): Format<PolicyTuple> {
    Pair(UInt(4), Pair(UInt(2), UInt(2)))
  }

  function BackFormat(): Format<Back> {
    As(Pair(Listed(RelayFormat(), MAX_RELAYS), Pair(Listed(PresenceFormat(), MAX_PRESENCE), Pair(SecretsFormat(), PolicyFormat()))),
       (t: BackTuple) => Back(t.0, t.1.0, (t.1.1.0.0, t.1.1.0.1.0, t.1.1.0.1.1.0, t.1.1.0.1.1.1), t.1.1.1.0, t.1.1.1.1.0, t.1.1.1.1.1),
       (b: Back) => (b.relays, (b.presence, ((b.secrets.0, (b.secrets.1, (b.secrets.2, b.secrets.3))), (b.flags, (b.maxMembers, b.maxServices))))))
  }

  function ZoneFormat(): Format<seq<DnsRow>> {
    Listed(DnsFormat(), MAX_DNS)
  }

  // ---- laws of the fields ----

  lemma UrlLawful()
    ensures Lawful(Url())
  {
    hide Lawful, Blob;
    BlobLawful(2, 1, MAX_URL);
    OnlyLawful(Blob(2, 1, MAX_URL), Ascii);
  }

  lemma CredentialsLawful(maximum: nat)
    ensures Lawful(Credentials(maximum))
  {
    hide Lawful, Blob;
    BlobLawful(2, 1, MAX_CREDENTIAL_BYTES);
    ListedLawful(Blob(2, 1, MAX_CREDENTIAL_BYTES), maximum);
  }

  lemma ZoneLawful()
    ensures Lawful(ZoneFormat())
  {
    hide Lawful, Url, Fixed, UInt, Only, Pair;
    UrlLawful();
    OnlyLawful(Url(), NameOk);
    FixedLawful(32);
    UIntLawful(8);
    PairLawful(Fixed(32), UInt(8));
    PairLawful(Only(Url(), NameOk), Pair(Fixed(32), UInt(8)));
    AsLawful(Pair(Only(Url(), NameOk), Pair(Fixed(32), UInt(8))),
             (t: (Bytes, (Bytes, nat))) => DnsRow(t.0, t.1.0, t.1.1),
             (r: DnsRow) => (r.name, (r.app, r.expires)));
    ListedLawful(DnsFormat(), MAX_DNS);
  }

  lemma RelaysLawful()
    ensures Lawful(Listed(RelayFormat(), MAX_RELAYS))
  {
    hide Lawful, Url, Fixed, UInt, Pair, Listed;
    UrlLawful();
    FixedLawful(32);
    UIntLawful(4);
    UIntLawful(8);
    PairLawful(UInt(4), UInt(8));
    PairLawful(Url(), Pair(UInt(4), UInt(8)));
    PairLawful(Fixed(32), Pair(Url(), Pair(UInt(4), UInt(8))));
    AsLawful(Pair(Fixed(32), Pair(Url(), Pair(UInt(4), UInt(8)))),
             (t: (Bytes, (Bytes, (nat, nat)))) => RelayRow(t.0, t.1.0, t.1.1.0, t.1.1.1),
             (r: RelayRow) => (r.endpoint, (r.url, (r.roles, r.expires))));
    ListedLawful(RelayFormat(), MAX_RELAYS);
  }

  lemma PresenceLawful()
    ensures Lawful(Listed(PresenceFormat(), MAX_PRESENCE))
  {
    hide Lawful, Url, Fixed, UInt, Pair, Listed;
    UrlLawful();
    FixedLawful(32);
    UIntLawful(8);
    PairLawful(Url(), UInt(8));
    PairLawful(Fixed(32), Pair(Url(), UInt(8)));
    AsLawful(Pair(Fixed(32), Pair(Url(), UInt(8))),
             (t: (Bytes, (Bytes, nat))) => PresenceRow(t.0, t.1.0, t.1.1),
             (r: PresenceRow) => (r.endpoint, (r.url, r.expires)));
    ListedLawful(PresenceFormat(), MAX_PRESENCE);
  }

  lemma HeaderLawful()
    ensures Lawful(HeaderFormat())
  {
    hide Lawful, Fixed, UInt, Pair;
    FixedLawful(32);
    UIntLawful(8);
    PairLawful(UInt(8), UInt(8));
    PairLawful(Fixed(32), Pair(UInt(8), UInt(8)));
    PairLawful(UInt(8), Pair(Fixed(32), Pair(UInt(8), UInt(8))));
    PairLawful(UInt(8), Pair(UInt(8), Pair(Fixed(32), Pair(UInt(8), UInt(8)))));
    PairLawful(Fixed(32), Pair(UInt(8), Pair(UInt(8), Pair(Fixed(32), Pair(UInt(8), UInt(8))))));
  }

  lemma ListsLawful()
    ensures Lawful(ListsFormat())
  {
    hide Lawful, Credentials, UInt, Pair, Listed;
    UIntLawful(8);
    ListedLawful(UInt(8), MAX_REVOKED);
    CredentialsLawful(MAX_ADMINS);
    CredentialsLawful(MAX_MEMBERS);
    CredentialsLawful(MAX_APPS);
    CredentialsLawful(MAX_BINDINGS);
    var apps := Pair(Credentials(MAX_APPS), Credentials(MAX_BINDINGS));
    PairLawful(Credentials(MAX_APPS), Credentials(MAX_BINDINGS));
    PairLawful(Listed(UInt(8), MAX_REVOKED), apps);
    PairLawful(Credentials(MAX_MEMBERS), Pair(Listed(UInt(8), MAX_REVOKED), apps));
    PairLawful(Credentials(MAX_MEMBERS), Pair(Credentials(MAX_MEMBERS), Pair(Listed(UInt(8), MAX_REVOKED), apps)));
    PairLawful(Credentials(MAX_ADMINS), Pair(Credentials(MAX_MEMBERS), Pair(Credentials(MAX_MEMBERS), Pair(Listed(UInt(8), MAX_REVOKED), apps))));
  }

  lemma FrontLawful()
    ensures Lawful(FrontFormat())
  {
    hide Lawful, HeaderFormat, ListsFormat, Pair;
    HeaderLawful();
    ListsLawful();
    PairLawful(HeaderFormat(), ListsFormat());
    AsLawful(Pair(HeaderFormat(), ListsFormat()),
       (t: (HeaderTuple, ListsTuple)) =>
         Front(t.0.0, t.0.1.0, t.0.1.1.0, t.0.1.1.1.0, t.0.1.1.1.1.0, t.0.1.1.1.1.1,
               t.1.0, t.1.1.0, t.1.1.1.0, t.1.1.1.1.0, t.1.1.1.1.1.0, t.1.1.1.1.1.1),
       (f: Front) =>
         ((f.network, (f.epoch, (f.revision, (f.previous, (f.issuedAt, f.expiresAt))))),
          (f.adminKeys, (f.members, (f.endpointBindings, (f.revoked, (f.apps, f.appBindings)))))));
  }

  lemma BackLawful()
    ensures Lawful(BackFormat())
  {
    hide Lawful, Fixed, UInt, Pair, Listed, RelayFormat, PresenceFormat;
    RelaysLawful();
    PresenceLawful();
    FixedLawful(32);
    UIntLawful(2);
    UIntLawful(4);
    var secrets, policy := SecretsFormat(), PolicyFormat();
    PairLawful(Fixed(32), Fixed(32));
    PairLawful(Fixed(32), Pair(Fixed(32), Fixed(32)));
    PairLawful(Fixed(32), Pair(Fixed(32), Pair(Fixed(32), Fixed(32))));
    PairLawful(UInt(2), UInt(2));
    PairLawful(UInt(4), Pair(UInt(2), UInt(2)));
    PairLawful(secrets, policy);
    PairLawful(Listed(PresenceFormat(), MAX_PRESENCE), Pair(secrets, policy));
    PairLawful(Listed(RelayFormat(), MAX_RELAYS), Pair(Listed(PresenceFormat(), MAX_PRESENCE), Pair(secrets, policy)));
    AsLawful(Pair(Listed(RelayFormat(), MAX_RELAYS), Pair(Listed(PresenceFormat(), MAX_PRESENCE), Pair(secrets, policy))),
       (t: BackTuple) => Back(t.0, t.1.0, (t.1.1.0.0, t.1.1.0.1.0, t.1.1.0.1.1.0, t.1.1.0.1.1.1), t.1.1.1.0, t.1.1.1.1.0, t.1.1.1.1.1),
       (b: Back) => (b.relays, (b.presence, ((b.secrets.0, (b.secrets.1, (b.secrets.2, b.secrets.3))), (b.flags, (b.maxMembers, b.maxServices))))));
  }

  // ---- encoding and decoding ----

  predicate CredentialLengths(raws: seq<Bytes>) {
    forall i :: 0 <= i < |raws| ==> CredentialLengthOk(|raws[i]|)
  }

  /** `validate_shape`. */
  predicate Shape(s: Snapshot) {
    && s.front.issuedAt < s.front.expiresAt
    && CountsOk(|s.front.adminKeys|, |s.front.members|, |s.front.endpointBindings|, |s.front.revoked|, |s.front.apps|, |s.front.appBindings|,
                |s.dns|, |s.back.relays|, |s.back.presence|)
    && CredentialLengths(s.front.adminKeys) && CredentialLengths(s.front.members) && CredentialLengths(s.front.endpointBindings)
    && CredentialLengths(s.front.apps) && CredentialLengths(s.front.appBindings)
    && PolicyOk(s.back.maxMembers, s.back.maxServices)
  }

  /** The encoder succeeds: the shape is legal, and fields and strings are of their types. */
  predicate Encodable(s: Snapshot) {
    Shape(s) && FrontFormat().fits(s.front) && ZoneFormat().fits(s.dns) && BackFormat().fits(s.back)
  }

  /** `to_bytes`: always the second version. */
  function Encode(s: Snapshot): Option<Bytes> {
    if Encodable(s) then Some(MAGIC_V2 + FrontFormat().write(s.front) + ZoneFormat().write(s.dns) + BackFormat().write(s.back)) else None
  }

  /** The zone of a version: absent from the first. */
  function ReadZone(second: bool, b: Bytes): Option<Parsed<seq<DnsRow>>> {
    if second then ZoneFormat().read(b) else Some(Parsed([], b))
  }

  function DecodeBody(second: bool, b: Bytes): Option<Snapshot> {
    match FrontFormat().read(b)
    case None => None
    case Some(front) =>
      match ReadZone(second, front.rest)
      case None => None
      case Some(zone) =>
        match BackFormat().read(zone.rest)
        case None => None
        case Some(back) =>
          var s := Snapshot(front.value, zone.value, back.value);
          if back.rest == [] && Shape(s) then Some(s) else None
  }

  /** `from_bytes`. */
  function Decode(b: Bytes): Option<Snapshot> {
    if MAGIC_V2 <= b then DecodeBody(true, b[8..])
    else if MAGIC_V1 <= b then DecodeBody(false, b[8..])
    else None
  }

  /** Decoding the encoding of every encodable snapshot gives it back. */
  lemma RoundTrip(s: Snapshot)
    requires Encodable(s)
    ensures Decode(Encode(s).value) == Some(s)
  {
    hide FrontFormat, ZoneFormat, BackFormat, Shape;
    FrontLawful();
    ZoneLawful();
    BackLawful();
    var f, z, k := FrontFormat().write(s.front), ZoneFormat().write(s.dns), BackFormat().write(s.back);
    var b := Encode(s).value;
    assert b[8..] == f + (z + (k + []));
    assert FrontFormat().read(f + (z + (k + []))) == Some(Parsed(s.front, z + (k + [])));
    assert ZoneFormat().read(z + (k + [])) == Some(Parsed(s.dns, k + []));
    assert BackFormat().read(k + []) == Some(Parsed(s.back, []));
  }

  lemma BodyWasWritten(second: bool, b: Bytes)
    requires DecodeBody(second, b).Some?
    ensures var s := DecodeBody(second, b).value;
            && Encodable(s) && (!second ==> s.dns == [])
            && b == FrontFormat().write(s.front) + (if second then ZoneFormat().write(s.dns) else []) + BackFormat().write(s.back)
  {
    hide FrontFormat, ZoneFormat, BackFormat, Shape;
    FrontLawful();
    ZoneLawful();
    BackLawful();
    var s := DecodeBody(second, b).value;
    var front := FrontFormat().read(b).value;
    var zone := ReadZone(second, front.rest).value;
    assert b == FrontFormat().write(s.front) + front.rest;
    assert zone.rest == BackFormat().write(s.back) + [];
    EmptyZone();
  }

  lemma EmptyZone()
    ensures ZoneFormat().fits([]) && ZoneFormat().write([]) == [0, 0]
  {
    assert BE(0, 2) == BE(0, 1) + [0] && BE(0, 1) == [] + [0];
  }

  /** Every accepted second-version string is the encoding of its result. */
  lemma Canonical(b: Bytes)
    requires Decode(b).Some? && MAGIC_V2 <= b
    ensures Encode(Decode(b).value) == Some(b)
  {
    hide FrontFormat, ZoneFormat, BackFormat, Shape, DecodeBody;
    BodyWasWritten(true, b[8..]);
    var s := Decode(b).value;
    assert b == MAGIC_V2 + b[8..];
    assert MAGIC_V2 + (FrontFormat().write(s.front) + ZoneFormat().write(s.dns) + BackFormat().write(s.back))
        == MAGIC_V2 + FrontFormat().write(s.front) + ZoneFormat().write(s.dns) + BackFormat().write(s.back);
  }

  /** A first-version string means what its second-version form means: the same fields around an
      empty DNS zone, two zero bytes long. */
  lemma FirstVersionMeaning(b: Bytes) returns (front: Bytes, back: Bytes)
    requires Decode(b).Some? && !(MAGIC_V2 <= b)
    ensures b == MAGIC_V1 + front + back
    ensures Decode(MAGIC_V2 + front + [0, 0] + back) == Decode(b)
    ensures Encode(Decode(b).value) == Some(MAGIC_V2 + front + [0, 0] + back)
    ensures Decode(b).value.dns == []
  {
    hide FrontFormat, ZoneFormat, BackFormat, Shape, DecodeBody;
    BodyWasWritten(false, b[8..]);
    EmptyZone();
    var s := Decode(b).value;
    front, back := FrontFormat().write(s.front), BackFormat().write(s.back);
    assert b == MAGIC_V1 + b[8..];
    assert b[8..] == front + back;
    RoundTrip(s);
  }
}
